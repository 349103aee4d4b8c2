/** `str.strip` and its kin, for any notion of white space. */
module Whitespace {
  type Space = char -> bool

  function LStrip(s: string, ws: Space): (r: string)
    ensures |r| <= |s| && r == s[|s| - |r|..] && (r == "" || !ws(r[0]))
    ensures forall k :: 0 <= k < |s| - |r| ==> ws(s[k])
  {
    if s != "" && ws(s[0]) then LStrip(s[1..], ws) else s
  }

  function RStrip(s: string, ws: Space): (r: string)
    ensures |r| <= |s| && r == s[..|r|] && (r == "" || !ws(r[|r| - 1]))
    ensures forall k :: |r| <= k < |s| ==> ws(s[k])
  {
    if s != "" && ws(s[|s| - 1]) then RStrip(s[..|s| - 1], ws) else s
  }

  function Strip(s: string, ws: Space): string {
    RStrip(LStrip(s, ws), ws)
  }

  predicate Stripped(s: string, ws: Space) {
    s == "" || (!ws(s[0]) && !ws(s[|s| - 1]))
  }

  /** Where the stripped text starts. */
  function Offset(s: string, ws: Space): nat {
    |s| - |LStrip(s, ws)|
  }

  lemma StripCuts(s: string, ws: Space)
    ensures var r, i := Strip(s, ws), Offset(s, ws);
            && i + |r| <= |s| && r == s[i..i + |r|] && Stripped(r, ws)
            && (forall k :: 0 <= k < i ==> ws(s[k]))
            && (forall k :: i + |r| <= k < |s| ==> ws(s[k]))
  {
    var left := LStrip(s, ws);
    var r := RStrip(left, ws);
    var i := |s| - |left|;
    hide LStrip, RStrip;
    assert forall k :: 0 <= k < |left| ==> left[k] == s[i + k];
    forall k | i + |r| <= k < |s|
      ensures ws(s[k])
    {
      assert left[k - i] == s[k];
    }
  }

  lemma StrippedStays(s: string, ws: Space)
    requires Stripped(s, ws)
    ensures Strip(s, ws) == s
  {
  }

  /** The text without its white space. */
  function Solid(s: string, ws: Space): string {
    if s == "" then "" else (if ws(s[0]) then "" else [s[0]]) + Solid(s[1..], ws)
  }

  lemma {:induction false} SolidConcat(a: string, b: string, ws: Space)
    ensures Solid(a + b, ws) == Solid(a, ws) + Solid(b, ws)
  {
    if a == "" {
      assert a + b == b;
    } else {
      assert (a + b)[1..] == a[1..] + b;
      SolidConcat(a[1..], b, ws);
    }
  }

  lemma {:induction false} SolidOfSpace(s: string, ws: Space)
    requires forall k :: 0 <= k < |s| ==> ws(s[k])
    ensures Solid(s, ws) == ""
  {
    if s != "" {
      SolidOfSpace(s[1..], ws);
    }
  }

  lemma SolidOfStrip(s: string, ws: Space)
    ensures Solid(Strip(s, ws), ws) == Solid(s, ws)
  {
    StripCuts(s, ws);
    var r, i := Strip(s, ws), Offset(s, ws);
    var front, back := s[..i], s[i + |r|..];
    assert s == front + (r + back);
    SolidOfSpace(front, ws);
    SolidOfSpace(back, ws);
    SolidConcat(front, r + back, ws);
    SolidConcat(r, back, ws);
  }
}
