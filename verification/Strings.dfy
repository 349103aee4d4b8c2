/** The Python string operations that the modelled code relies on. */
module Strings {
  import opened Prelude

  predicate OccursAt(s: string, sub: string, i: nat) {
    i + |sub| <= |s| && s[i..i + |sub|] == sub
  }

  /** `str.find` from index `from` on. */
  function Find(s: string, sub: string, from: nat := 0): (r: Option<nat>)
    ensures r.Some? ==> from <= r.value && OccursAt(s, sub, r.value)
    ensures forall k: nat {:trigger OccursAt(s, sub, k)} ::
              from <= k && OccursAt(s, sub, k) ==> r.Some? && r.value <= k
    decreases |s| - from
  {
    if from + |sub| > |s| then None
    else if s[from..from + |sub|] == sub then Some(from)
    else Find(s, sub, from + 1)
  }

  /** `str.rfind`: the last index where `sub` occurs in `s`, or -1. */
  function RFind(s: string, sub: string): (r: int)
    ensures -1 <= r && (r >= 0 ==> OccursAt(s, sub, r))
    ensures forall k: nat {:trigger OccursAt(s, sub, k)} :: OccursAt(s, sub, k) ==> k <= r
  {
    if |sub| > |s| then -1 else RFindBelow(s, sub, |s| - |sub|)
  }

  function RFindBelow(s: string, sub: string, i: nat): (r: int)
    requires i + |sub| <= |s|
    ensures -1 <= r <= i && (r >= 0 ==> OccursAt(s, sub, r))
    ensures forall k: nat {:trigger OccursAt(s, sub, k)} :: k <= i && OccursAt(s, sub, k) ==> k <= r
  {
    if s[i..i + |sub|] == sub then i else if i == 0 then -1 else RFindBelow(s, sub, i - 1)
  }

  /** `str.replace`: leftmost, non-overlapping. */
  function Replace(s: string, old_: string, new_: string): string
    requires old_ != ""
    decreases |s|
  {
    match Find(s, old_)
    case None => s
    case Some(i) => s[..i] + new_ + Replace(s[i + |old_|..], old_, new_)
  }

  function Flatten(pieces: seq<string>): string {
    if pieces == [] then "" else pieces[0] + Flatten(pieces[1..])
  }

  lemma {:induction false} FlattenSnoc(pieces: seq<string>, last: string)
    ensures Flatten(pieces + [last]) == Flatten(pieces) + last
  {
    if pieces == [] {
      assert pieces + [last] == [last];
    } else {
      assert (pieces + [last])[1..] == pieces[1..] + [last];
      FlattenSnoc(pieces[1..], last);
    }
  }

  /** Deleting occurrences never lengthens a string, and shortens it when there is one. */
  lemma {:induction false} RemoveShrinks(s: string, sub: string)
    requires sub != ""
    ensures |Replace(s, sub, "")| <= |s|
    ensures Find(s, sub).Some? ==> |Replace(s, sub, "")| < |s|
    decreases |s|
  {
    match Find(s, sub)
    case None =>
    case Some(i) => RemoveShrinks(s[i + |sub|..], sub);
  }
}
