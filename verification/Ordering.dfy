/** Python's stable `sorted`, and the orders the repository sorts by. */
module Ordering {
  /** Comparison of strings, character by character. */
  predicate StrLe(a: string, b: string) {
    if a == "" then true
    else if b == "" then false
    else a[0] < b[0] || (a[0] == b[0] && StrLe(a[1..], b[1..]))
  }

  lemma {:induction false} StrLeTotal(a: string, b: string)
    ensures StrLe(a, b) || StrLe(b, a)
    ensures StrLe(a, b) && StrLe(b, a) ==> a == b
  {
    if a != "" && b != "" {
      StrLeTotal(a[1..], b[1..]);
      assert a == [a[0]] + a[1..] && b == [b[0]] + b[1..];
    }
  }

  lemma {:induction false} StrLeTransitive(a: string, b: string, c: string)
    requires StrLe(a, b) && StrLe(b, c)
    ensures StrLe(a, c)
  {
    if a != "" && b != "" && c != "" && a[0] == b[0] == c[0] {
      StrLeTransitive(a[1..], b[1..], c[1..]);
    }
  }

  /** Strings are compared by their first difference; a prefix comes first. */
  lemma {:induction false} StrLeIsLexicographic(a: string, b: string)
    ensures StrLe(a, b) <==> a <= b || exists k :: 0 <= k < |a| && k < |b| && a[..k] == b[..k] && a[k] < b[k]
  {
    if a != "" && b != "" {
      assert a == [a[0]] + a[1..] && b == [b[0]] + b[1..];
      StrLeIsLexicographic(a[1..], b[1..]);
      if a[0] == b[0] {
        if k :| 0 <= k < |a[1..]| && k < |b[1..]| && a[1..][..k] == b[1..][..k] && a[1..][k] < b[1..][k] {
          assert a[..k + 1] == [a[0]] + a[1..][..k] && b[..k + 1] == [b[0]] + b[1..][..k];
          assert a[k + 1] < b[k + 1];
        }
        if k :| 0 <= k < |a| && k < |b| && a[..k] == b[..k] && a[k] < b[k] {
          assert k > 0;
          assert a[1..][..k - 1] == a[..k][1..] && b[1..][..k - 1] == b[..k][1..];
          assert a[1..][k - 1] < b[1..][k - 1];
        }
      } else {
        FirstCharDecides(a, b);
      }
    }
  }

  lemma FirstCharDecides(a: string, b: string)
    requires a != "" && b != "" && a[0] != b[0]
    ensures !(a <= b)
    ensures (exists k :: 0 <= k < |a| && k < |b| && a[..k] == b[..k] && a[k] < b[k]) <==> a[0] < b[0]
  {
    if a[0] < b[0] {
      assert a[..0] == b[..0];
    }
    if k :| 0 <= k < |a| && k < |b| && a[..k] == b[..k] && a[k] < b[k] {
      if k > 0 {
        assert a[..k][0] == b[..k][0];
      }
    }
  }

  /**
    The sort keys of rag/pipeline/ordering.py and rag/retrieval/ranking.py: scores descending,
    then identifiers ascending.
   */
  datatype Key = Key(primary: real, score: real, documentId: string, index: int, chunkId: string)

  predicate KeyLe(a: Key, b: Key) {
    if a.primary != b.primary then a.primary > b.primary
    else if a.score != b.score then a.score > b.score
    else if a.documentId != b.documentId then StrLe(a.documentId, b.documentId)
    else if a.index != b.index then a.index < b.index
    else StrLe(a.chunkId, b.chunkId)
  }

  lemma KeyLeTotal(a: Key, b: Key)
    ensures KeyLe(a, b) || KeyLe(b, a)
    ensures KeyLe(a, b) && KeyLe(b, a) ==> a == b
  {
    StrLeTotal(a.documentId, b.documentId);
    StrLeTotal(a.chunkId, b.chunkId);
  }

  lemma KeyLeTransitive(a: Key, b: Key, c: Key)
    requires KeyLe(a, b) && KeyLe(b, c)
    ensures KeyLe(a, c)
  {
    if a.documentId != b.documentId && b.documentId != c.documentId {
      StrLeTotal(a.documentId, b.documentId);
      if StrLe(a.documentId, b.documentId) && StrLe(b.documentId, c.documentId) {
        StrLeTransitive(a.documentId, b.documentId, c.documentId);
      }
    }
    if StrLe(a.chunkId, b.chunkId) && StrLe(b.chunkId, c.chunkId) {
      StrLeTransitive(a.chunkId, b.chunkId, c.chunkId);
    }
  }

  // ----- Sorting by a key

  function Insert<T>(x: T, sorted: seq<T>, key: T -> Key): seq<T> {
    if sorted == [] then [x]
    else if KeyLe(key(x), key(sorted[0])) then [x] + sorted
    else [sorted[0]] + Insert(x, sorted[1..], key)
  }

  /** `sorted(s, key=key)`: elements with equal keys keep their order. */
  function Sort<T>(s: seq<T>, key: T -> Key): seq<T> {
    if s == [] then [] else Insert(s[0], Sort(s[1..], key), key)
  }

  ghost predicate SortedBy<T>(s: seq<T>, key: T -> Key) {
    forall i, j :: 0 <= i < j < |s| ==> KeyLe(key(s[i]), key(s[j]))
  }

  lemma {:induction false} InsertAdds<T>(x: T, sorted: seq<T>, key: T -> Key)
    ensures multiset(Insert(x, sorted, key)) == multiset(sorted) + multiset{x}
  {
    if sorted != [] {
      assert sorted == [sorted[0]] + sorted[1..];
      InsertAdds(x, sorted[1..], key);
    }
  }

  lemma SmallestFirst<T>(y: T, rest: seq<T>, key: T -> Key)
    requires SortedBy(rest, key) && forall z :: z in rest ==> KeyLe(key(y), key(z))
    ensures SortedBy([y] + rest, key)
  {
  }

  lemma {:induction false} InsertSorts<T>(x: T, sorted: seq<T>, key: T -> Key)
    requires SortedBy(sorted, key)
    ensures SortedBy(Insert(x, sorted, key), key)
  {
    if sorted != [] {
      var y, rest := sorted[0], sorted[1..];
      assert sorted == [y] + rest;
      KeyLeTotal(key(x), key(y));
      hide KeyLe;
      if KeyLe(key(x), key(y)) {
        forall z | z in sorted
          ensures KeyLe(key(x), key(z))
        {
          if z != y {
            KeyLeTransitive(key(x), key(y), key(z));
          }
        }
        SmallestFirst(x, sorted, key);
      } else {
        InsertSorts(x, rest, key);
        InsertAdds(x, rest, key);
        var inserted := Insert(x, rest, key);
        forall z | z in inserted
          ensures KeyLe(key(y), key(z))
        {
          assert z in multiset(inserted);
        }
        SmallestFirst(y, inserted, key);
      }
    }
  }

  lemma {:induction false} SortSorts<T>(s: seq<T>, key: T -> Key)
    ensures SortedBy(Sort(s, key), key)
    ensures multiset(Sort(s, key)) == multiset(s)
    ensures |Sort(s, key)| == |s|
  {
    if s != [] {
      assert s == [s[0]] + s[1..];
      SortSorts(s[1..], key);
      InsertSorts(s[0], Sort(s[1..], key), key);
      InsertAdds(s[0], Sort(s[1..], key), key);
    }
    assert |multiset(Sort(s, key))| == |multiset(s)|;
  }

  /** Elements with equal keys keep their order. */
  lemma {:induction false} SortIsStable<T(!new)>(s: seq<T>, key: T -> Key, k: Key)
    ensures Filter(Sort(s, key), (x: T) => key(x) == k) == Filter(s, (x: T) => key(x) == k)
  {
    if s != [] {
      SortIsStable(s[1..], key, k);
      SortSorts(s[1..], key);
      InsertIsStable(s[0], Sort(s[1..], key), key, k);
    }
  }

  lemma {:induction false} InsertIsStable<T(!new)>(x: T, sorted: seq<T>, key: T -> Key, k: Key)
    requires SortedBy(sorted, key)
    ensures Filter(Insert(x, sorted, key), (y: T) => key(y) == k)
         == (if key(x) == k then [x] else []) + Filter(sorted, (y: T) => key(y) == k)
  {
    var p := (y: T) => key(y) == k;
    if sorted == [] || KeyLe(key(x), key(sorted[0])) {
      assert ([x] + sorted)[1..] == sorted;
    } else {
      var y, rest := sorted[0], sorted[1..];
      InsertIsStable(x, rest, key, k);
      assert ([y] + Insert(x, rest, key))[1..] == Insert(x, rest, key);
      KeyLeTotal(key(x), key(y));
      if key(x) == k {
        assert key(y) != k;
      }
    }
  }

  /** No two different elements of `s` share a key. */
  ghost predicate Separates<T(!new)>(key: T -> Key, s: seq<T>) {
    forall x, y :: x in s && y in s && key(x) == key(y) ==> x == y
  }

  /** When keys tell elements apart, a collection has only one sorted arrangement. */
  lemma {:induction false} SortedIsUnique<T(!new)>(a: seq<T>, b: seq<T>, key: T -> Key)
    requires SortedBy(a, key) && SortedBy(b, key) && multiset(a) == multiset(b) && Separates(key, a)
    ensures a == b
  {
    assert |multiset(a)| == |multiset(b)|;
    if a != [] {
      SmallestsAgree(a, b, key);
      RestOf(a);
      RestOf(b);
      hide KeyLe;
      SortedIsUnique(a[1..], b[1..], key);
      assert a == [a[0]] + a[1..] && b == [b[0]] + b[1..];
    }
  }

  lemma RestOf<T>(s: seq<T>)
    requires s != []
    ensures multiset(s[1..]) == multiset(s) - multiset{s[0]}
    ensures forall x :: x in s[1..] ==> x in s
  {
    assert s == [s[0]] + s[1..];
  }

  lemma SmallestsAgree<T(!new)>(a: seq<T>, b: seq<T>, key: T -> Key)
    requires SortedBy(a, key) && SortedBy(b, key) && multiset(a) == multiset(b) && Separates(key, a)
    requires a != [] && b != []
    ensures a[0] == b[0]
  {
    assert a[0] in multiset(a) && b[0] in multiset(b);
    var i :| 0 <= i < |a| && a[i] == b[0];
    var j :| 0 <= j < |b| && b[j] == a[0];
    KeyLeTotal(key(a[0]), key(b[0]));
  }

  /** Sorting forgets the order of arrival. */
  lemma SortIsCanonical<T(!new)>(a: seq<T>, b: seq<T>, key: T -> Key)
    requires multiset(a) == multiset(b) && Separates(key, a)
    ensures Sort(a, key) == Sort(b, key)
  {
    SortSorts(a, key);
    SortSorts(b, key);
    forall x | x in Sort(a, key)
      ensures x in a
    {
      assert x in multiset(Sort(a, key));
    }
    SortedIsUnique(Sort(a, key), Sort(b, key), key);
  }

  /** Python's `s[:k]`, which counts from the end when `k` is negative. */
  function Prefix<T>(s: seq<T>, k: int): seq<T> {
    if k >= |s| then s else if k >= 0 then s[..k] else if |s| + k > 0 then s[..|s| + k] else []
  }

  /** The elements of `s` that satisfy `p`, in order. */
  function Filter<T(!new)>(s: seq<T>, p: T -> bool): (r: seq<T>)
    ensures forall x :: x in r <==> x in s && p(x)
  {
    if s == [] then []
    else
      assert s == [s[0]] + s[1..];
      if p(s[0]) then [s[0]] + Filter(s[1..], p) else Filter(s[1..], p)
  }

  lemma {:induction false} FilterSnoc<T(!new)>(s: seq<T>, x: T, p: T -> bool)
    ensures Filter(s + [x], p) == Filter(s, p) + if p(x) then [x] else []
  {
    if s == [] {
      assert s + [x] == [x];
    } else {
      assert (s + [x])[1..] == s[1..] + [x];
      FilterSnoc(s[1..], x, p);
    }
  }

  lemma FilterCons<T(!new)>(s: seq<T>, p: T -> bool)
    requires s != []
    ensures Filter(s, p) == if p(s[0]) then [s[0]] + Filter(s[1..], p) else Filter(s[1..], p)
  {
  }

  lemma {:induction false} FilterConcat<T(!new)>(a: seq<T>, b: seq<T>, p: T -> bool)
    ensures Filter(a + b, p) == Filter(a, p) + Filter(b, p)
  {
    if a == [] {
      assert a + b == b;
    } else {
      assert (a + b)[1..] == a[1..] + b;
      FilterConcat(a[1..], b, p);
    }
  }

  lemma {:induction false} FilterIsAll<T(!new)>(s: seq<T>, p: T -> bool)
    requires forall x :: x in s ==> p(x)
    ensures Filter(s, p) == s
  {
    if s != [] {
      FilterIsAll(s[1..], p);
    }
  }

  lemma {:induction false} FilterIsNone<T(!new)>(s: seq<T>, p: T -> bool)
    requires forall x :: x in s ==> !p(x)
    ensures Filter(s, p) == []
  {
    if s != [] {
      FilterIsNone(s[1..], p);
    }
  }

  lemma {:induction false} FilterAgrees<T(!new)>(s: seq<T>, p: T -> bool, q: T -> bool)
    requires forall x :: x in s ==> p(x) == q(x)
    ensures Filter(s, p) == Filter(s, q)
  {
    if s != [] {
      assert forall x :: x in s[1..] ==> x in s;
      FilterAgrees(s[1..], p, q);
    }
  }

  lemma {:induction false} FilterIsShorter<T(!new)>(s: seq<T>, p: T -> bool)
    ensures |Filter(s, p)| <= |s|
  {
    if s != [] {
      FilterIsShorter(s[1..], p);
    }
  }

  /** Where the elements of `s` that satisfy `p` stand. */
  function Places<T>(s: seq<T>, p: T -> bool): set<nat> {
    set i | 0 <= i < |s| && p(s[i])
  }

  lemma {:induction false} FilterSize<T(!new)>(s: seq<T>, p: T -> bool)
    ensures |Filter(s, p)| == |Places(s, p)|
  {
    if s != [] {
      var n := |s| - 1;
      assert s == s[..n] + [s[n]];
      FilterSnoc(s[..n], s[n], p);
      FilterSize(s[..n], p);
      PlacesGrow(s, p);
    }
  }

  lemma PlacesGrow<T>(s: seq<T>, p: T -> bool)
    requires s != []
    ensures var n := |s| - 1;
            |Places(s, p)| == |Places(s[..n], p)| + if p(s[n]) then 1 else 0
  {
    var n := |s| - 1;
    assert Places(s, p) == if p(s[n]) then Places(s[..n], p) + {n} else Places(s[..n], p);
  }

  lemma {:induction false} FilterCount<T(!new)>(s: seq<T>, p: T -> bool, x: T)
    ensures multiset(Filter(s, p))[x] == if p(x) then multiset(s)[x] else 0
  {
    if s != [] {
      assert s == [s[0]] + s[1..];
      FilterCount(s[1..], p, x);
    }
  }

  /** Filtering commutes with rearranging. */
  lemma FilterPermutes<T(!new)>(a: seq<T>, b: seq<T>, p: T -> bool)
    requires multiset(a) == multiset(b)
    ensures multiset(Filter(a, p)) == multiset(Filter(b, p))
  {
    forall x
      ensures multiset(Filter(a, p))[x] == multiset(Filter(b, p))[x]
    {
      FilterCount(a, p, x);
      FilterCount(b, p, x);
    }
  }

  function Map<T, U>(s: seq<T>, f: T -> U): (r: seq<U>)
    ensures |r| == |s| && forall i :: 0 <= i < |s| ==> r[i] == f(s[i])
  {
    if s == [] then [] else [f(s[0])] + Map(s[1..], f)
  }

  lemma {:induction false} MapConcat<T, U>(a: seq<T>, b: seq<T>, f: T -> U)
    ensures Map(a + b, f) == Map(a, f) + Map(b, f)
  {
  }

  /** `b` without the element at `i`, whose image is the only one missing. */
  lemma MapTakesOut<T, U>(b: seq<T>, i: nat, f: T -> U) returns (rest: seq<T>)
    requires i < |b|
    ensures |rest| < |b| && multiset(rest) == multiset(b) - multiset{b[i]}
    ensures multiset(Map(b, f)) == multiset(Map(rest, f)) + multiset{f(b[i])}
  {
    var front, back := b[..i], b[i + 1..];
    rest := front + back;
    assert b == front + ([b[i]] + back);
    assert Map([b[i]], f) == [f(b[i])];
    hide Map;
    MapConcat(front, [b[i]] + back, f);
    MapConcat([b[i]], back, f);
    MapConcat(front, back, f);
  }

  /** Rearranging the arguments rearranges the images. */
  lemma {:induction false} MapPermutes<T, U>(a: seq<T>, b: seq<T>, f: T -> U)
    requires multiset(a) == multiset(b)
    ensures multiset(Map(a, f)) == multiset(Map(b, f))
    decreases |a|
  {
    hide *;
    assert |multiset(a)| == |multiset(b)|;
    if a == [] {
      assert b == [];
    } else {
      var i := IndexIn(a[0], b, multiset(a));
      var a' := MapTakesOut(a, 0, f);
      var b' := MapTakesOut(b, i, f);
      MapPermutes(a', b', f);
    }
  }

  lemma IndexIn<T>(x: T, b: seq<T>, m: multiset<T>) returns (i: nat)
    requires x in m && m == multiset(b)
    ensures i < |b| && b[i] == x
  {
    i :| 0 <= i < |b| && b[i] == x;
  }
}
