/**
  The character-budget chunker of rag/ingestion/chunker.py: paragraphs are packed greedily
  into a buffer, and a paragraph that does not fit is cut at the last good separator.
 */
module Chunker {
  import opened Prelude
  import opened Strings
  import opened Whitespace

  datatype ChunkDraft = ChunkDraft(chunkIndex: nat, content: string, charStart: int, charEnd: int)

  const SEPARATORS := [". ", "\U{61F} ", "\U{61B} ", "\n", " "]

  function Contents(drafts: seq<ChunkDraft>): (r: seq<string>)
    ensures |r| == |drafts| && forall i :: 0 <= i < |r| ==> r[i] == drafts[i].content
  {
    seq(|drafts|, i requires 0 <= i < |drafts| => drafts[i].content)
  }

  // ----- Specification

  /** `str.split`. */
  function SplitOn(text: string, sep: string): seq<string>
    requires sep != ""
    decreases |text|
  {
    match Find(text, sep)
    case None => [text]
    case Some(i) => [text[..i]] + SplitOn(text[i + |sep|..], sep)
  }

  /** The first separator whose last occurrence in the window is past its middle decides. */
  function SplitAfter(window: string, maxChars: nat, separators: seq<string>): nat {
    if separators == [] then maxChars
    else
      var i := RFind(window, separators[0]);
      if i > maxChars / 2 then i + |separators[0]| else SplitAfter(window, maxChars, separators[1..])
  }

  function FindSplitPoint(text: string, maxChars: nat): nat {
    var window := if |text| < maxChars then text else text[..maxChars];
    SplitAfter(window, maxChars, SEPARATORS)
  }

  lemma {:induction false} SplitAfterIsInside(window: string, maxChars: nat, separators: seq<string>)
    requires |window| <= maxChars
    ensures var r := SplitAfter(window, maxChars, separators); r <= maxChars && 2 * r >= maxChars
  {
    if separators != [] && RFind(window, separators[0]) <= maxChars / 2 {
      SplitAfterIsInside(window, maxChars, separators[1..]);
    }
  }

  /** A long paragraph is cut into pieces of at most `maxChars`, and a rest that fits. */
  function SplitLong(paragraph: string, maxChars: nat, ws: Space): (seq<string>, string)
    requires maxChars > 0
    decreases |paragraph|
  {
    if |paragraph| <= maxChars then ([], paragraph)
    else
      SplitAfterIsInside(paragraph[..maxChars], maxChars, SEPARATORS);
      StripCuts(paragraph[FindSplitPoint(paragraph, maxChars)..], ws);
      var k := FindSplitPoint(paragraph, maxChars);
      var piece := Strip(paragraph[..k], ws);
      var (pieces, rest) := SplitLong(Strip(paragraph[k..], ws), maxChars, ws);
      (Flush(piece) + pieces, rest)
  }

  function Flush(buffer: string): seq<string> {
    if buffer != "" then [buffer] else []
  }

  /** One turn of the cutting loop. */
  lemma SplitLongStep(paragraph: string, maxChars: nat, ws: Space)
    requires maxChars > 0 && |paragraph| > maxChars
    ensures var k := FindSplitPoint(paragraph, maxChars);
            && 0 < k <= maxChars <= 2 * k
            && var piece, tail := Strip(paragraph[..k], ws), Strip(paragraph[k..], ws);
            && |piece| <= k && |tail| <= |paragraph| - k
            && SplitLong(paragraph, maxChars, ws)
            == (Flush(piece) + SplitLong(tail, maxChars, ws).0, SplitLong(tail, maxChars, ws).1)
  {
    hide Strip, Offset;
    SplitAfterIsInside(paragraph[..maxChars], maxChars, SEPARATORS);
    var k := FindSplitPoint(paragraph, maxChars);
    StripCuts(paragraph[..k], ws);
    StripCuts(paragraph[k..], ws);
  }

  /** `paragraph` appended to the buffer. */
  function Candidate(buffer: string, paragraph: string, ws: Space): string {
    if buffer != "" then Strip(buffer + "\n\n" + paragraph, ws) else paragraph
  }

  /** The chunks of the remaining paragraphs, with `buffer` pending. */
  function Chunks(paragraphs: seq<string>, buffer: string, maxChars: nat, ws: Space): seq<string>
    requires maxChars > 0
  {
    if paragraphs == [] then if Strip(buffer, ws) != "" then [Strip(buffer, ws)] else []
    else
      var p, rest := Strip(paragraphs[0], ws), paragraphs[1..];
      if p == "" then Chunks(rest, buffer, maxChars, ws)
      else if |Candidate(buffer, p, ws)| <= maxChars then Chunks(rest, Candidate(buffer, p, ws), maxChars, ws)
      else
        var (pieces, remainder) := SplitLong(p, maxChars, ws);
        Flush(buffer) + (pieces + Chunks(rest, remainder, maxChars, ws))
  }

  /** What one paragraph adds. */
  lemma ChunksStep(paragraphs: seq<string>, buffer: string, maxChars: nat, ws: Space)
    requires maxChars > 0 && paragraphs != []
    ensures var p, rest := Strip(paragraphs[0], ws), paragraphs[1..];
            Chunks(paragraphs, buffer, maxChars, ws)
            == if p == "" then Chunks(rest, buffer, maxChars, ws)
               else if |Candidate(buffer, p, ws)| <= maxChars then Chunks(rest, Candidate(buffer, p, ws), maxChars, ws)
               else Flush(buffer)
                    + (SplitLong(p, maxChars, ws).0 + Chunks(rest, SplitLong(p, maxChars, ws).1, maxChars, ws))
  {
    hide Strip, Candidate, SplitLong;
  }

  function ChunkTextSpec(text: string, maxChars: nat, ws: Space): seq<string>
    requires maxChars > 0
  {
    if Strip(text, ws) == "" then [] else Chunks(SplitOn(text, "\n\n"), "", maxChars, ws)
  }

  // ----- The algorithm

  function Larger(a: int, b: int): int {
    if a >= b then a else b
  }

  predicate WellIndexed(drafts: seq<ChunkDraft>) {
    forall i :: 0 <= i < |drafts| ==> drafts[i].chunkIndex == i && 0 <= drafts[i].charStart <= drafts[i].charEnd
  }

  lemma ContentsSnoc(drafts: seq<ChunkDraft>, d: ChunkDraft)
    ensures Contents(drafts + [d]) == Contents(drafts) + [d.content]
  {
  }

  lemma NoContents()
    ensures Contents([]) == []
  {
  }

  lemma SeqAssoc(a: seq<string>, b: seq<string>, c: seq<string>)
    ensures (a + b) + c == a + (b + c)
  {
  }

  lemma NoPieces(c: seq<string>)
    ensures c + [] == c && [] + c == c
  {
  }

  lemma Regroup(done: seq<string>, a: seq<string>, b: seq<string>, c: seq<string>)
    ensures done + (a + (b + c)) == done + a + b + c
  {
  }

  /** Appends the next draft. */
  method Emit(drafts0: seq<ChunkDraft>, content: string, charStart: int, charEnd: int) returns (drafts: seq<ChunkDraft>)
    requires WellIndexed(drafts0) && 0 <= charStart <= charEnd
    ensures WellIndexed(drafts) && Contents(drafts) == Contents(drafts0) + [content]
  {
    var draft := ChunkDraft(|drafts0|, content, charStart, charEnd);
    ContentsSnoc(drafts0, draft);
    drafts := drafts0 + [draft];
  }

  method ChunkText(text: string, maxChars: nat, ws: Space) returns (drafts: seq<ChunkDraft>)
    requires maxChars > 0
    ensures Contents(drafts) == ChunkTextSpec(text, maxChars, ws)
    ensures WellIndexed(drafts)
  {
    hide Chunks, SplitOn, Strip, SplitLong;
    drafts := [];
    if Strip(text, ws) == "" {
      return;
    }
    var paragraphs := SplitOn(text, "\n\n");
    NoPieces(Chunks(paragraphs, "", maxChars, ws));
    NoContents();
    hide Contents, WellIndexed;
    var buffer, charCursor := "", 0;
    assert paragraphs[0..] == paragraphs;
    for i := 0 to |paragraphs|
      invariant charCursor >= 0 && WellIndexed(drafts)
      invariant Contents(drafts) + Chunks(paragraphs[i..], buffer, maxChars, ws) == ChunkTextSpec(text, maxChars, ws)
    {
      assert paragraphs[i..][0] == paragraphs[i] && paragraphs[i..][1..] == paragraphs[i + 1..];
      ChunksStep(paragraphs[i..], buffer, maxChars, ws);
      var paragraph := Strip(paragraphs[i], ws);
      if paragraph == "" {
        charCursor := charCursor + 2;
        continue;
      }
      var candidate := if buffer != "" then Strip(buffer + "\n\n" + paragraph, ws) else paragraph;
      if |candidate| <= maxChars {
        buffer := candidate;
        continue;
      }
      ghost var cut := SplitLong(paragraph, maxChars, ws);
      Regroup(Contents(drafts), Flush(buffer), cut.0, Chunks(paragraphs[i + 1..], cut.1, maxChars, ws));
      drafts, charCursor, buffer := FlushAndSplit(drafts, buffer, paragraph, charCursor, maxChars, ws);
      charCursor := charCursor + |buffer| + 2;
    }
    LastFlush(buffer, maxChars, ws);
    assert paragraphs[|paragraphs|..] == [];
    NoPieces(Contents(drafts));
    if Strip(buffer, ws) != "" {
      drafts := Emit(drafts, Strip(buffer, ws), Larger(charCursor - |buffer|, 0), charCursor);
    }
  }

  lemma LastFlush(buffer: string, maxChars: nat, ws: Space)
    requires maxChars > 0
    ensures Chunks([], buffer, maxChars, ws) == if Strip(buffer, ws) != "" then [Strip(buffer, ws)] else []
  {
    hide Strip;
  }

  /** Emits the buffer, then cuts the paragraph until what is left of it fits. */
  method FlushAndSplit(drafts0: seq<ChunkDraft>, buffer: string, paragraph0: string, cursor0: nat, maxChars: nat,
                       ws: Space)
    returns (drafts: seq<ChunkDraft>, charCursor: nat, paragraph: string)
    requires maxChars > 0 && WellIndexed(drafts0)
    ensures WellIndexed(drafts)
    ensures var (pieces, remainder) := SplitLong(paragraph0, maxChars, ws);
            Contents(drafts) == Contents(drafts0) + Flush(buffer) + pieces && paragraph == remainder
  {
    hide Strip, SplitLong, Contents, FindSplitPoint, WellIndexed;
    drafts, charCursor, paragraph := drafts0, cursor0, paragraph0;
    NoPieces(Contents(drafts0));
    if buffer != "" {
      drafts := Emit(drafts, buffer, Larger(charCursor - |buffer|, 0), charCursor);
    }
    ghost var goal := Contents(drafts) + SplitLong(paragraph0, maxChars, ws).0;
    while |paragraph| > maxChars
      invariant WellIndexed(drafts)
      invariant SplitLong(paragraph, maxChars, ws).1 == SplitLong(paragraph0, maxChars, ws).1
      invariant Contents(drafts) + SplitLong(paragraph, maxChars, ws).0 == goal
      decreases |paragraph|
    {
      SplitLongStep(paragraph, maxChars, ws);
      var splitAt := FindSplitPoint(paragraph, maxChars);
      var piece := Strip(paragraph[..splitAt], ws);
      SeqAssoc(Contents(drafts), Flush(piece), SplitLong(Strip(paragraph[splitAt..], ws), maxChars, ws).0);
      NoPieces(Contents(drafts));
      if piece != "" {
        drafts := Emit(drafts, piece, charCursor, charCursor + |piece|);
      }
      paragraph := Strip(paragraph[splitAt..], ws);
      charCursor := charCursor + splitAt;
    }
    FitsAlready(paragraph, maxChars, ws);
    NoPieces(Contents(drafts));
  }

  lemma FitsAlready(paragraph: string, maxChars: nat, ws: Space)
    requires maxChars > 0 && |paragraph| <= maxChars
    ensures SplitLong(paragraph, maxChars, ws) == ([], paragraph)
  {
  }

  // ----- Main result 1: every chunk is clean and fits

  /** A chunk that is not empty, has no white space around it and fits the budget. */
  predicate Good(chunk: string, maxChars: nat, ws: Space) {
    chunk != "" && Stripped(chunk, ws) && |chunk| <= maxChars
  }

  lemma {:induction false} SplitLongIsGood(paragraph: string, maxChars: nat, ws: Space)
    requires maxChars > 0 && paragraph != "" && Stripped(paragraph, ws)
    ensures var (pieces, rest) := SplitLong(paragraph, maxChars, ws);
            (forall c :: c in pieces ==> Good(c, maxChars, ws)) && Good(rest, maxChars, ws)
    decreases |paragraph|
  {
    hide Strip, SplitLong, FindSplitPoint;
    if |paragraph| > maxChars {
      SplitLongStep(paragraph, maxChars, ws);
      var k := FindSplitPoint(paragraph, maxChars);
      StripCuts(paragraph[..k], ws);
      StripCuts(paragraph[k..], ws);
      LastCharStays(paragraph[k..], ws);
      SplitLongIsGood(Strip(paragraph[k..], ws), maxChars, ws);
    } else {
      FitsAlready(paragraph, maxChars, ws);
    }
  }

  lemma LastCharStays(s: string, ws: Space)
    requires s != "" && !ws(s[|s| - 1])
    ensures Strip(s, ws) != ""
  {
    StripCuts(s, ws);
  }

  lemma CandidateIsJoined(buffer: string, p: string, ws: Space)
    requires Stripped(buffer, ws) && Stripped(p, ws) && p != ""
    ensures var c := Candidate(buffer, p, ws);
            c != "" && Stripped(c, ws) && c == if buffer != "" then buffer + "\n\n" + p else p
  {
    if buffer != "" {
      var joined := buffer + "\n\n" + p;
      assert joined[0] == buffer[0] && joined[|joined| - 1] == p[|p| - 1];
      hide Strip;
      StrippedStays(joined, ws);
    }
  }

  lemma {:induction false} ChunksAreGood(paragraphs: seq<string>, buffer: string, maxChars: nat, ws: Space)
    requires maxChars > 0 && (buffer == "" || Good(buffer, maxChars, ws))
    ensures forall c :: c in Chunks(paragraphs, buffer, maxChars, ws) ==> Good(c, maxChars, ws)
    ensures buffer != "" ==> Chunks(paragraphs, buffer, maxChars, ws) != []
    decreases |paragraphs|
  {
    hide Strip, SplitLong, Chunks, Candidate;
    if paragraphs == [] {
      LastFlush(buffer, maxChars, ws);
      StrippedStays(buffer, ws);
    } else {
      ChunksStep(paragraphs, buffer, maxChars, ws);
      var p := Strip(paragraphs[0], ws);
      StripCuts(paragraphs[0], ws);
      if p == "" {
        ChunksAreGood(paragraphs[1..], buffer, maxChars, ws);
      } else {
        CandidateIsJoined(buffer, p, ws);
        if |Candidate(buffer, p, ws)| <= maxChars {
          ChunksAreGood(paragraphs[1..], Candidate(buffer, p, ws), maxChars, ws);
        } else {
          SplitLongIsGood(p, maxChars, ws);
          ChunksAreGood(paragraphs[1..], SplitLong(p, maxChars, ws).1, maxChars, ws);
        }
      }
    }
  }

  // ----- Main result 2: nothing but white space is lost

  /** The non-white characters of several strings. */
  function Ink(chunks: seq<string>, ws: Space): string {
    Solid(Flatten(chunks), ws)
  }

  lemma {:induction false} FlattenConcat(a: seq<string>, b: seq<string>)
    ensures Flatten(a + b) == Flatten(a) + Flatten(b)
  {
    if a == [] {
      assert a + b == b;
    } else {
      assert (a + b)[1..] == a[1..] + b;
      FlattenConcat(a[1..], b);
    }
  }

  lemma InkConcat(a: seq<string>, b: seq<string>, ws: Space)
    ensures Ink(a + b, ws) == Ink(a, ws) + Ink(b, ws)
  {
    FlattenConcat(a, b);
    SolidConcat(Flatten(a), Flatten(b), ws);
  }

  lemma FlattenOne(s: string)
    ensures Flatten([s]) == s && Flatten([]) == ""
  {
    assert [s][1..] == [];
    assert s + "" == s;
  }

  lemma InkOfFlush(piece: string, ws: Space)
    ensures Ink(Flush(piece), ws) == Solid(piece, ws)
  {
    hide Solid;
    FlattenOne(piece);
    EmptyInk(piece, ws);
  }

  lemma InkFirst(paragraphs: seq<string>, ws: Space)
    requires paragraphs != []
    ensures Ink(paragraphs, ws) == Solid(Strip(paragraphs[0], ws), ws) + Ink(paragraphs[1..], ws)
  {
    SolidOfStrip(paragraphs[0], ws);
    SolidConcat(paragraphs[0], Flatten(paragraphs[1..]), ws);
  }

  lemma StringAssoc(a: string, b: string, c: string)
    ensures (a + b) + c == a + (b + c)
  {
  }

  lemma EmptyInk(s: string, ws: Space)
    ensures Ink([], ws) == Solid("", ws) == "" && s + "" == s && "" + s == s
  {
  }

  lemma SolidOfCut(s: string, k: nat, ws: Space)
    requires k <= |s|
    ensures Solid(s, ws) == Solid(Strip(s[..k], ws), ws) + Solid(Strip(s[k..], ws), ws)
  {
    hide *;
    SolidOfStrip(s[..k], ws);
    SolidOfStrip(s[k..], ws);
    SolidConcat(s[..k], s[k..], ws);
    assert s[..k] + s[k..] == s;
  }

  lemma {:induction false} SplitLongConserves(paragraph: string, maxChars: nat, ws: Space)
    requires maxChars > 0
    ensures var (pieces, rest) := SplitLong(paragraph, maxChars, ws);
            Ink(pieces, ws) + Solid(rest, ws) == Solid(paragraph, ws)
    decreases |paragraph|
  {
    hide *;
    if |paragraph| > maxChars {
      SplitLongStep(paragraph, maxChars, ws);
      var k := FindSplitPoint(paragraph, maxChars);
      var piece, tail := Strip(paragraph[..k], ws), Strip(paragraph[k..], ws);
      SplitLongConserves(tail, maxChars, ws);
      var (pieces, rest) := SplitLong(tail, maxChars, ws);
      SolidOfCut(paragraph, k, ws);
      InkOfFlush(piece, ws);
      InkConcat(Flush(piece), pieces, ws);
      StringAssoc(Solid(piece, ws), Ink(pieces, ws), Solid(rest, ws));
    } else {
      FitsAlready(paragraph, maxChars, ws);
      EmptyInk(Solid(paragraph, ws), ws);
    }
  }

  lemma SolidOfCandidate(buffer: string, p: string, ws: Space)
    requires ws('\n')
    ensures Solid(Candidate(buffer, p, ws), ws) == Solid(buffer, ws) + Solid(p, ws)
  {
    hide Strip, Solid;
    SolidOfStrip(buffer + "\n\n" + p, ws);
    SolidConcat(buffer + "\n\n", p, ws);
    SolidConcat(buffer, "\n\n", ws);
    SolidOfSpace("\n\n", ws);
    EmptyInk(Solid(buffer, ws), ws);
    EmptyInk(Solid(p, ws), ws);
  }

  lemma {:induction false} ChunksConserve(paragraphs: seq<string>, buffer: string, maxChars: nat, ws: Space)
    requires maxChars > 0 && ws('\n')
    ensures Ink(Chunks(paragraphs, buffer, maxChars, ws), ws) == Solid(buffer, ws) + Ink(paragraphs, ws)
    decreases |paragraphs|
  {
    hide *;
    if paragraphs == [] {
      LastFlushConserves(buffer, maxChars, ws);
    } else {
      var p, rest := Strip(paragraphs[0], ws), paragraphs[1..];
      ChunksStep(paragraphs, buffer, maxChars, ws);
      InkFirst(paragraphs, ws);
      if p == "" {
        ChunksConserve(rest, buffer, maxChars, ws);
        EmptyInk(Ink(rest, ws), ws);
      } else if |Candidate(buffer, p, ws)| <= maxChars {
        ChunksConserve(rest, Candidate(buffer, p, ws), maxChars, ws);
        SolidOfCandidate(buffer, p, ws);
        StringAssoc(Solid(buffer, ws), Solid(p, ws), Ink(rest, ws));
      } else {
        var (pieces, remainder) := SplitLong(p, maxChars, ws);
        var later := Chunks(rest, remainder, maxChars, ws);
        ChunksConserve(rest, remainder, maxChars, ws);
        SplitLongConserves(p, maxChars, ws);
        InkOfFlush(buffer, ws);
        InkConcat(pieces, later, ws);
        InkConcat(Flush(buffer), pieces + later, ws);
        StringAssoc(Ink(pieces, ws), Solid(remainder, ws), Ink(rest, ws));
      }
    }
  }

  lemma LastFlushConserves(buffer: string, maxChars: nat, ws: Space)
    requires maxChars > 0
    ensures Ink(Chunks([], buffer, maxChars, ws), ws) == Solid(buffer, ws) + Ink([], ws)
  {
    LastFlush(buffer, maxChars, ws);
    SolidOfStrip(buffer, ws);
    InkOfFlush(Strip(buffer, ws), ws);
    EmptyInk(Solid(buffer, ws), ws);
    hide Strip, Solid, Chunks, Ink;
  }

  lemma {:induction false} SplitOnConserves(text: string, ws: Space)
    requires ws('\n')
    ensures Ink(SplitOn(text, "\n\n"), ws) == Solid(text, ws)
    ensures Length(SplitOn(text, "\n\n")) == |text| + 2
    decreases |text|
  {
    match Find(text, "\n\n")
    case None =>
      OnlyParagraph(text, ws);
    case Some(i) =>
      SplitOnConserves(text[i + 2..], ws);
      SplitOnStep(text, i);
      SolidAround(text, i, ws);
      var others := SplitOn(text[i + 2..], "\n\n");
      ParagraphAdds(text[..i], others, ws);
      hide *;
  }

  lemma OnlyParagraph(text: string, ws: Space)
    ensures Ink([text], ws) == Solid(text, ws) && Length([text]) == |text| + 2
  {
    hide Solid;
    FlattenOne(text);
    assert [text][1..] == [];
  }

  lemma SplitOnStep(text: string, i: nat)
    requires Find(text, "\n\n") == Some(i)
    ensures SplitOn(text, "\n\n") == [text[..i]] + SplitOn(text[i + 2..], "\n\n")
  {
  }

  lemma SolidAround(text: string, i: nat, ws: Space)
    requires Find(text, "\n\n") == Some(i) && ws('\n')
    ensures Solid(text, ws) == Solid(text[..i], ws) + Solid(text[i + 2..], ws)
  {
    var rest := text[i + 2..];
    assert text == text[..i] + (text[i..i + 2] + rest);
    hide Solid;
    SolidConcat(text[..i], text[i..i + 2] + rest, ws);
    SolidConcat(text[i..i + 2], rest, ws);
    SolidOfSpace(text[i..i + 2], ws);
    EmptyInk(Solid(rest, ws), ws);
  }

  lemma ParagraphAdds(p: string, others: seq<string>, ws: Space)
    ensures Ink([p] + others, ws) == Solid(p, ws) + Ink(others, ws)
    ensures Length([p] + others) == |p| + 2 + Length(others)
  {
    assert ([p] + others)[1..] == others;
    SolidConcat(p, Flatten(others), ws);
  }

  // ----- Main result 3: the number of chunks

  /** The characters of the paragraphs, each with the separator that follows it. */
  function Length(paragraphs: seq<string>): nat {
    if paragraphs == [] then 0 else |paragraphs[0]| + 2 + Length(paragraphs[1..])
  }

  function Last(chunks: seq<string>): nat
    requires chunks != []
  {
    |chunks[|chunks| - 1]|
  }

  function Times(a: int, b: int): int { a * b }

  lemma Distribute(a: int, b: int, m: int)
    ensures Times(a + b, m) == Times(a, m) + Times(b, m) && Times(0, m) == 0 && Times(1, m) == m
  {
  }

  /** Every piece cut off uses up at least half the budget. */
  lemma {:induction false} PiecesArePaidFor(paragraph: string, maxChars: nat, ws: Space)
    requires maxChars > 0
    ensures var (pieces, rest) := SplitLong(paragraph, maxChars, ws);
            Times(|pieces|, maxChars) <= 2 * (|paragraph| - |rest|)
    decreases |paragraph|
  {
    hide Times, Strip, SplitLong, FindSplitPoint;
    if |paragraph| > maxChars {
      SplitLongStep(paragraph, maxChars, ws);
      var k := FindSplitPoint(paragraph, maxChars);
      var tail := Strip(paragraph[k..], ws);
      PiecesArePaidFor(tail, maxChars, ws);
      Distribute(|Flush(Strip(paragraph[..k], ws))|, |SplitLong(tail, maxChars, ws).0|, maxChars);
    } else {
      FitsAlready(paragraph, maxChars, ws);
      Distribute(0, 0, maxChars);
    }
  }

  /** The price of all chunks but the last, and the last one. */
  function Price(chunks: seq<string>, maxChars: nat): int {
    if chunks == [] then 0 else Times(|chunks| - 1, maxChars) + Last(chunks)
  }

  /**
    Each flushed buffer did not fit together with the paragraph that followed it, so the
    characters of the two pay for it; each piece is paid for by what was cut off.
   */
  lemma {:induction false} ChunksArePaidFor(paragraphs: seq<string>, buffer: string, maxChars: nat, ws: Space)
    requires maxChars > 0 && (buffer == "" || Good(buffer, maxChars, ws))
    ensures Price(Chunks(paragraphs, buffer, maxChars, ws), maxChars) <= |buffer| + 3 * Length(paragraphs)
    decreases |paragraphs|
  {
    hide Strip, SplitLong, Chunks, Candidate, Times;
    if paragraphs == [] {
      LastFlush(buffer, maxChars, ws);
      StrippedStays(buffer, ws);
      Distribute(0, 0, maxChars);
    } else {
      var p, rest := Strip(paragraphs[0], ws), paragraphs[1..];
      ChunksStep(paragraphs, buffer, maxChars, ws);
      StripCuts(paragraphs[0], ws);
      if p == "" {
        ChunksArePaidFor(rest, buffer, maxChars, ws);
      } else {
        CandidateIsJoined(buffer, p, ws);
        if |Candidate(buffer, p, ws)| <= maxChars {
          ChunksArePaidFor(rest, Candidate(buffer, p, ws), maxChars, ws);
        } else {
          CutIsPaidFor(p, rest, maxChars, ws);
          ChunksArePaidFor(rest, SplitLong(p, maxChars, ws).1, maxChars, ws);
          FlushIsPaidFor(buffer, p, SplitLong(p, maxChars, ws).0, |SplitLong(p, maxChars, ws).1|,
                         Chunks(rest, SplitLong(p, maxChars, ws).1, maxChars, ws), maxChars, |paragraphs[0]|,
                         Length(rest));
        }
      }
    }
  }

  lemma CutIsPaidFor(p: string, rest: seq<string>, maxChars: nat, ws: Space)
    requires maxChars > 0 && p != "" && Stripped(p, ws)
    ensures var (pieces, remainder) := SplitLong(p, maxChars, ws);
            && Good(remainder, maxChars, ws) && Times(|pieces|, maxChars) <= 2 * (|p| - |remainder|)
            && Chunks(rest, remainder, maxChars, ws) != []
  {
    hide SplitLong, Chunks, Times;
    SplitLongIsGood(p, maxChars, ws);
    ChunksAreGood(rest, SplitLong(p, maxChars, ws).1, maxChars, ws);
    PiecesArePaidFor(p, maxChars, ws);
  }

  lemma FlushIsPaidFor(buffer: string, p: string, pieces: seq<string>, remainder: nat, later: seq<string>,
                       maxChars: nat, raw: nat, restLength: nat)
    requires later != [] && |p| <= raw
    requires Times(|pieces|, maxChars) <= 2 * (|p| - remainder)
    requires Price(later, maxChars) <= remainder + 3 * restLength
    requires buffer != "" ==> maxChars < |buffer| + 2 + |p|
    ensures Price(Flush(buffer) + (pieces + later), maxChars) <= |buffer| + 3 * (raw + 2 + restLength)
  {
    hide Times;
    var f, s, n := |Flush(buffer)|, |pieces|, |later| - 1;
    Distribute(f, s + n, maxChars);
    Distribute(s, n, maxChars);
    var chunks := Flush(buffer) + (pieces + later);
    assert chunks[|chunks| - 1] == later[|later| - 1];
    assert |chunks| - 1 == f + (s + n);
  }

  // ----- Together

  /**
    For every text and every positive budget: each chunk is non-empty, stripped and within the
    budget; the chunks hold exactly the non-white characters of the text, in order; and there
    are few of them, all but the last costing at most three characters of text per character
    of budget.
   */
  lemma ChunkTextIsSound(text: string, maxChars: nat, ws: Space)
    requires maxChars > 0 && ws('\n')
    ensures var chunks := ChunkTextSpec(text, maxChars, ws);
            && (forall c :: c in chunks ==> Good(c, maxChars, ws))
            && Ink(chunks, ws) == Solid(text, ws)
            && (chunks != [] ==> (|chunks| - 1) * maxChars + Last(chunks) <= 3 * (|text| + 2))
            && (chunks == [] <==> forall k :: 0 <= k < |text| ==> ws(text[k]))
  {
    hide Chunks, SplitOn, Strip, Solid, Ink, Length, Good;
    var chunks := ChunkTextSpec(text, maxChars, ws);
    StripCuts(text, ws);
    SolidOfStrip(text, ws);
    EmptyInk("", ws);
    if Strip(text, ws) != "" {
      ChunksAreGood(SplitOn(text, "\n\n"), "", maxChars, ws);
      ChunksConserve(SplitOn(text, "\n\n"), "", maxChars, ws);
      SplitOnConserves(text, ws);
      ChunksArePaidFor(SplitOn(text, "\n\n"), "", maxChars, ws);
      SolidOfVisible(Strip(text, ws), ws);
      EmptyInk(Ink(SplitOn(text, "\n\n"), ws), ws);
    }
  }

  lemma SolidOfVisible(s: string, ws: Space)
    requires s != "" && Stripped(s, ws)
    ensures Solid(s, ws) != ""
  {
  }

  // ----- Main result 4: where paragraphs are cut

  /** The last occurrence of `sep` in the window starts at `i`. */
  ghost predicate LastAt(window: string, sep: string, i: nat) {
    OccursAt(window, sep, i) && forall j: nat :: j > i ==> !OccursAt(window, sep, j)
  }

  /** `sep` occurs in the window past the half of the budget. */
  ghost predicate OccursLate(window: string, sep: string, maxChars: nat) {
    exists i: nat :: i > maxChars / 2 && OccursAt(window, sep, i)
  }

  /** The separator at `s` of `seps` is the first that occurs late, and `k` is right after its last occurrence. */
  ghost predicate CutBy(window: string, maxChars: nat, seps: seq<string>, s: nat, k: nat) {
    && s <= |seps| && (forall t :: 0 <= t < s ==> !OccursLate(window, seps[t], maxChars))
    && if s == |seps| then k == maxChars
       else OccursLate(window, seps[s], maxChars) && k >= |seps[s]| && LastAt(window, seps[s], k - |seps[s]|)
  }

  /**
    The end of a sentence (a full stop, a question mark or a semicolon, the latter two Arabic),
    the end of a line and the end of a word are looked for in this order.  The cut is right
    after the last occurrence of the first one that occurs past the half of the window, and
    at the budget if none does.
   */
  lemma CutIsAfterSeparator(paragraph: string, maxChars: nat, ws: Space)
    requires 0 < maxChars < |paragraph|
    ensures var seps := [". ", "\U{61F} ", "\U{61B} ", "\n", " "];
            exists s: nat, k: nat {:trigger CutBy(paragraph[..maxChars], maxChars, seps, s, k)} ::
              && CutBy(paragraph[..maxChars], maxChars, seps, s, k) && 0 < k <= maxChars
              && var piece, tail := Strip(paragraph[..k], ws), Strip(paragraph[k..], ws);
                 SplitLong(paragraph, maxChars, ws)
                 == ((if piece == "" then [] else [piece]) + SplitLong(tail, maxChars, ws).0,
                     SplitLong(tail, maxChars, ws).1)
  {
    SplitLongStep(paragraph, maxChars, ws);
    var k := FindSplitPoint(paragraph, maxChars);
    var piece := Strip(paragraph[..k], ws);
    assert Flush(piece) == if piece == "" then [] else [piece];
    hide *;
    var s := SplitPointIsDecided(paragraph, maxChars);
  }

  lemma SplitPointIsDecided(paragraph: string, maxChars: nat) returns (s: nat)
    requires 0 < maxChars < |paragraph|
    ensures CutBy(paragraph[..maxChars], maxChars, [". ", "\U{61F} ", "\U{61B} ", "\n", " "], s,
                  FindSplitPoint(paragraph, maxChars))
  {
    s := FirstLate(paragraph[..maxChars], maxChars, SEPARATORS);
    hide CutBy, SplitAfter;
  }

  /** Which separator decides, if any. */
  lemma {:induction false} FirstLate(window: string, maxChars: nat, seps: seq<string>) returns (s: nat)
    ensures CutBy(window, maxChars, seps, s, SplitAfter(window, maxChars, seps))
  {
    if seps == [] {
      s := 0;
    } else {
      var i := RFind(window, seps[0]);
      if i > maxChars / 2 {
        s := 0;
      } else {
        s := FirstLate(window, maxChars, seps[1..]);
        s := s + 1;
      }
    }
  }

  /**
    So a cut leaves a line break or a space behind it, unless there is none past the half: only
    then is a word severed.
   */
  lemma WordsAreSeveredOnlyIfNecessary(paragraph: string, maxChars: nat)
    requires 0 < maxChars < |paragraph|
    requires exists i: nat :: maxChars / 2 < i < maxChars && (paragraph[i] == ' ' || paragraph[i] == '\n')
    ensures var k := FindSplitPoint(paragraph, maxChars);
            0 < k <= maxChars && (paragraph[k - 1] == ' ' || paragraph[k - 1] == '\n')
  {
    var window := paragraph[..maxChars];
    var i: nat :| maxChars / 2 < i < maxChars && (paragraph[i] == ' ' || paragraph[i] == '\n');
    var k := FindSplitPoint(paragraph, maxChars);
    hide FindSplitPoint, CutBy;
    var s := SplitPointIsDecided(paragraph, maxChars);
    BreakIsLate(window, maxChars, i);
    BreakIsBehind(window, maxChars, s, k);
    assert window[k - 1] == paragraph[k - 1];
  }

  lemma BreakIsLate(window: string, maxChars: nat, i: nat)
    requires maxChars / 2 < i < |window| && (window[i] == ' ' || window[i] == '\n')
    ensures OccursLate(window, "\n", maxChars) || OccursLate(window, " ", maxChars)
  {
    assert OccursAt(window, if window[i] == ' ' then " " else "\n", i);
  }

  lemma BreakIsBehind(window: string, maxChars: nat, s: nat, k: nat)
    requires CutBy(window, maxChars, [". ", "\U{61F} ", "\U{61B} ", "\n", " "], s, k)
    requires OccursLate(window, "\n", maxChars) || OccursLate(window, " ", maxChars)
    ensures 0 < k <= |window| && (window[k - 1] == ' ' || window[k - 1] == '\n')
  {
    var seps := [". ", "\U{61F} ", "\U{61B} ", "\n", " "];
    assert seps[3] == "\n" && seps[4] == " ";
    assert s < 5;
    var sep := seps[s];
    assert window[k - |sep|..k] == sep;
    hide OccursLate;
    assert window[k - 1] == sep[|sep| - 1];
  }

  // ----- Main result 5: how paragraphs are packed

  function Join(parts: seq<string>, sep: string): string {
    if parts == [] then "" else if |parts| == 1 then parts[0] else parts[0] + sep + Join(parts[1..], sep)
  }

  lemma JoinOne(p: string, sep: string)
    ensures Join([p], sep) == p
  {
  }

  /** The parts of the text between separators taken from the left: none starts before the end of its part. */
  ghost predicate LeftmostParts(text: string, sep: string, parts: seq<string>) {
    && parts != [] && Join(parts, sep) == text
    && (forall i, k: nat :: 0 <= i < |parts| ==> !OccursAt(parts[i], sep, k))
    && forall i, k: nat :: 0 <= i < |parts| - 1 && k < |parts[i]| ==> !OccursAt(parts[i] + sep, sep, k)
  }

  lemma {:induction false} SplitOnIsLeftmost(text: string, sep: string)
    requires sep != ""
    ensures LeftmostParts(text, sep, SplitOn(text, sep))
    decreases |text|
  {
    match Find(text, sep)
    case None => JoinOne(text, sep);
    case Some(i) =>
      var first, tail := text[..i], text[i + |sep|..];
      SplitOnIsLeftmost(tail, sep);
      FirstPart(text, sep, i);
      assert text == first + sep + tail;
      hide SplitOn, Find;
      PrependPart(first, tail, sep, SplitOn(tail, sep));
  }

  lemma FirstPart(text: string, sep: string, i: nat)
    requires sep != "" && Find(text, sep) == Some(i)
    ensures forall k: nat :: !OccursAt(text[..i], sep, k) && (k < i ==> !OccursAt(text[..i] + sep, sep, k))
  {
    assert text[..i + |sep|] == text[..i] + sep;
    forall k: nat
      ensures !OccursAt(text[..i], sep, k) && (k < i ==> !OccursAt(text[..i] + sep, sep, k))
    {
      OccursInPrefix(text, i, sep, k);
      OccursInPrefix(text, i + |sep|, sep, k);
    }
  }

  lemma OccursInPrefix(text: string, n: nat, sep: string, k: nat)
    requires n <= |text|
    ensures OccursAt(text[..n], sep, k) ==> k + |sep| <= n && OccursAt(text, sep, k)
  {
    if k + |sep| <= n {
      assert text[..n][k..k + |sep|] == text[k..k + |sep|];
    }
  }

  lemma PrependPart(first: string, tail: string, sep: string, parts: seq<string>)
    requires LeftmostParts(tail, sep, parts)
    requires forall k: nat :: !OccursAt(first, sep, k) && (k < |first| ==> !OccursAt(first + sep, sep, k))
    ensures LeftmostParts(first + sep + tail, sep, [first] + parts)
  {
    assert ([first] + parts)[1..] == parts;
    hide OccursAt;
  }

  /** The paragraphs that count: stripped, and not blank. */
  function Solids(paragraphs: seq<string>, ws: Space): seq<string> {
    if paragraphs == [] then []
    else (if Strip(paragraphs[0], ws) == "" then [] else [Strip(paragraphs[0], ws)]) + Solids(paragraphs[1..], ws)
  }

  lemma {:induction false} BlanksDoNotCount(paragraphs: seq<string>, buffer: string, maxChars: nat, ws: Space)
    requires maxChars > 0
    ensures Chunks(paragraphs, buffer, maxChars, ws) == Chunks(Solids(paragraphs, ws), buffer, maxChars, ws)
    decreases |paragraphs|
  {
    hide Strip, Chunks, SplitLong, Candidate;
    if paragraphs != [] {
      var p, rest := Strip(paragraphs[0], ws), paragraphs[1..];
      ChunksStep(paragraphs, buffer, maxChars, ws);
      BlanksDoNotCount(rest, buffer, maxChars, ws);
      BlanksDoNotCount(rest, Candidate(buffer, p, ws), maxChars, ws);
      BlanksDoNotCount(rest, SplitLong(p, maxChars, ws).1, maxChars, ws);
      if p == "" {
        assert Solids(paragraphs, ws) == Solids(rest, ws);
      } else {
        assert Solids(paragraphs, ws) == [p] + Solids(rest, ws) && ([p] + Solids(rest, ws))[1..] == Solids(rest, ws);
        StripCuts(paragraphs[0], ws);
        StrippedStays(p, ws);
        ChunksStep(Solids(paragraphs, ws), buffer, maxChars, ws);
      }
    }
  }

  /** Consecutive paragraphs joined by blank lines, each group followed by a paragraph that it has no room for. */
  ghost predicate Greedy(groups: seq<seq<string>>, maxChars: nat) {
    && (forall i :: 0 <= i < |groups| ==> groups[i] != [] && |Join(groups[i], "\n\n")| <= maxChars)
    && forall i :: 0 <= i < |groups| - 1 ==>
                     |Join(groups[i], "\n\n")| + 2 + |groups[i + 1][0]| > maxChars
  }

  function FlattenGroups(groups: seq<seq<string>>): seq<string> {
    if groups == [] then [] else groups[0] + FlattenGroups(groups[1..])
  }

  function JoinGroups(groups: seq<seq<string>>): seq<string> {
    seq(|groups|, i requires 0 <= i < |groups| => Join(groups[i], "\n\n"))
  }

  lemma {:induction false} JoinSnoc(parts: seq<string>, last: string, sep: string)
    requires parts != []
    ensures Join(parts + [last], sep) == Join(parts, sep) + sep + last
  {
    if |parts| > 1 {
      assert (parts + [last])[1..] == parts[1..] + [last];
      JoinSnoc(parts[1..], last, sep);
      assert parts[0] + sep + (Join(parts[1..], sep) + sep + last)
          == parts[0] + sep + Join(parts[1..], sep) + sep + last;
    } else {
      assert (parts + [last])[1..] == [last];
    }
  }

  /** Paragraphs that fit, with the group `open_` pending. */
  lemma {:induction false} PackedFrom(ps: seq<string>, open_: seq<string>, maxChars: nat, ws: Space)
    returns (groups: seq<seq<string>>)
    requires maxChars > 0 && forall p :: p in ps ==> Good(p, maxChars, ws)
    requires open_ != [] && Good(Join(open_, "\n\n"), maxChars, ws)
    ensures Chunks(ps, Join(open_, "\n\n"), maxChars, ws) == JoinGroups(groups)
    ensures FlattenGroups(groups) == open_ + ps && Greedy(groups, maxChars)
    ensures groups != [] && open_ <= groups[0]
    decreases |ps|
  {
    hide *;
    var buffer := Join(open_, "\n\n");
    if ps == [] {
      groups := [open_];
      OnlyGroup(open_, maxChars, ws);
      assert open_ + ps == open_;
    } else {
      var p, rest := ps[0], ps[1..];
      assert p in ps && (forall q :: q in rest ==> q in ps) && [p] + rest == ps;
      NextParagraph(ps, buffer, maxChars, ws);
      if |buffer| + 2 + |p| <= maxChars {
        JoinSnoc(open_, p, "\n\n");
        groups := PackedFrom(rest, open_ + [p], maxChars, ws);
        GroupGrows(open_, p, rest, groups[0]);
      } else {
        JoinOne(p, "\n\n");
        var later := PackedFrom(rest, [p], maxChars, ws);
        groups := [open_] + later;
        CloseGroup(open_, later, maxChars);
      }
    }
  }

  lemma OnlyGroup(open_: seq<string>, maxChars: nat, ws: Space)
    requires maxChars > 0 && open_ != [] && Good(Join(open_, "\n\n"), maxChars, ws)
    ensures Chunks([], Join(open_, "\n\n"), maxChars, ws) == JoinGroups([open_])
    ensures FlattenGroups([open_]) == open_ && Greedy([open_], maxChars)
  {
    hide Strip, Chunks, Join;
    LastFlush(Join(open_, "\n\n"), maxChars, ws);
    StrippedStays(Join(open_, "\n\n"), ws);
    assert [open_][1..] == [];
  }

  lemma GroupGrows(open_: seq<string>, p: string, rest: seq<string>, group: seq<string>)
    requires open_ + [p] <= group
    ensures open_ + [p] + rest == open_ + ([p] + rest) && open_ <= group
  {
    assert (open_ + [p])[..|open_|] == open_;
  }

  lemma CloseGroup(open_: seq<string>, later: seq<seq<string>>, maxChars: nat)
    requires Greedy(later, maxChars) && later != [] && open_ != [] && later[0] != []
    requires |Join(open_, "\n\n")| <= maxChars < |Join(open_, "\n\n")| + 2 + |later[0][0]|
    ensures Greedy([open_] + later, maxChars)
    ensures FlattenGroups([open_] + later) == open_ + FlattenGroups(later)
    ensures JoinGroups([open_] + later) == [Join(open_, "\n\n")] + JoinGroups(later)
  {
    assert ([open_] + later)[1..] == later;
    hide Join;
  }

  /** A paragraph that fits is added to the buffer if there is room, and opens the next one if not. */
  lemma NextParagraph(ps: seq<string>, buffer: string, maxChars: nat, ws: Space)
    requires maxChars > 0 && ps != [] && Good(ps[0], maxChars, ws) && Good(buffer, maxChars, ws)
    ensures Chunks(ps, buffer, maxChars, ws)
         == if |buffer| + 2 + |ps[0]| <= maxChars then Chunks(ps[1..], buffer + "\n\n" + ps[0], maxChars, ws)
            else [buffer] + Chunks(ps[1..], ps[0], maxChars, ws)
    ensures |buffer| + 2 + |ps[0]| <= maxChars ==> Good(buffer + "\n\n" + ps[0], maxChars, ws)
    ensures |buffer| <= maxChars
  {
    hide Strip, Chunks, SplitLong;
    var p := ps[0];
    StrippedStays(p, ws);
    ChunksStep(ps, buffer, maxChars, ws);
    CandidateIsJoined(buffer, p, ws);
    FitsAlready(p, maxChars, ws);
    hide Candidate;
    assert [buffer] + ([] + Chunks(ps[1..], p, maxChars, ws)) == [buffer] + Chunks(ps[1..], p, maxChars, ws);
  }

  /**
    Paragraphs that fit the budget are packed greedily: the chunks are groups of consecutive
    ones, joined by blank lines, and no group has room for the paragraph that follows it.
   */
  lemma ShortParagraphsArePacked(ps: seq<string>, maxChars: nat, ws: Space)
    requires maxChars > 0 && forall p :: p in ps ==> Good(p, maxChars, ws)
    ensures exists groups ::
              && Chunks(ps, "", maxChars, ws) == JoinGroups(groups)
              && FlattenGroups(groups) == ps && Greedy(groups, maxChars)
  {
    hide Strip, Chunks, SplitLong;
    if ps == [] {
      LastFlush("", maxChars, ws);
      StrippedStays("", ws);
      var groups: seq<seq<string>> := [];
      assert JoinGroups(groups) == [] && FlattenGroups(groups) == [];
      assert Greedy(groups, maxChars);
    } else {
      var p, rest := ps[0], ps[1..];
      assert Good(p, maxChars, ws);
      StrippedStays(p, ws);
      ChunksStep(ps, "", maxChars, ws);
      JoinOne(p, "\n\n");
      hide Candidate;
      var groups := PackedFrom(rest, [p], maxChars, ws);
      assert [p] + rest == ps;
    }
  }

  /**
    A paragraph that does not fit separates those before it from what follows: they are
    packed on their own, then come its pieces, and its rest is packed like a paragraph with
    those after it.
   */
  lemma {:induction false} LongParagraphSeparates(a: seq<string>, p: string, b: seq<string>, buffer: string,
                                                  maxChars: nat, ws: Space)
    requires maxChars > 0 && |Strip(p, ws)| > maxChars && (buffer == "" || Good(buffer, maxChars, ws))
    ensures var (pieces, rest) := SplitLong(Strip(p, ws), maxChars, ws);
            Chunks(a + [p] + b, buffer, maxChars, ws)
            == Chunks(a, buffer, maxChars, ws) + pieces + Chunks([rest] + b, "", maxChars, ws)
    decreases |a|
  {
    hide *;
    var (pieces, rest) := SplitLong(Strip(p, ws), maxChars, ws);
    if a == [] {
      NothingBefore(a, p, b);
      LongParagraphFirst(p, b, buffer, maxChars, ws);
    } else {
      LongSeparatesLater(a, p, b, buffer, maxChars, ws, pieces, Chunks([rest] + b, "", maxChars, ws));
    }
  }

  lemma NothingBefore(a: seq<string>, p: string, b: seq<string>)
    requires a == []
    ensures a + [p] + b == [p] + b
  {
  }

  lemma LongParagraphFirst(p: string, b: seq<string>, buffer: string, maxChars: nat, ws: Space)
    requires maxChars > 0 && |Strip(p, ws)| > maxChars && (buffer == "" || Good(buffer, maxChars, ws))
    ensures var (pieces, rest) := SplitLong(Strip(p, ws), maxChars, ws);
            Chunks([p] + b, buffer, maxChars, ws)
            == Chunks([], buffer, maxChars, ws) + pieces + Chunks([rest] + b, "", maxChars, ws)
  {
    var (pieces, rest) := SplitLong(Strip(p, ws), maxChars, ws);
    hide Strip, Chunks, SplitLong;
    StripCuts(p, ws);
    SplitLongIsGood(Strip(p, ws), maxChars, ws);
    StrippedStays(buffer, ws);
    LastFlush(buffer, maxChars, ws);
    CandidateIsLonger(buffer, Strip(p, ws), ws);
    ShortParagraphOpens(rest, b, maxChars, ws);
    hide Candidate;
    assert ([p] + b)[1..] == b;
    ChunksStep([p] + b, buffer, maxChars, ws);
    hide Good, Stripped;
    SeqAssoc(Flush(buffer), pieces, Chunks(b, rest, maxChars, ws));
  }

  lemma ShortParagraphOpens(p: string, b: seq<string>, maxChars: nat, ws: Space)
    requires maxChars > 0 && Good(p, maxChars, ws)
    ensures Chunks([p] + b, "", maxChars, ws) == Chunks(b, p, maxChars, ws)
  {
    hide Strip, Chunks, SplitLong;
    StrippedStays(p, ws);
    assert ([p] + b)[1..] == b;
    ChunksStep([p] + b, "", maxChars, ws);
  }

  lemma CandidateIsLonger(buffer: string, p: string, ws: Space)
    requires Stripped(buffer, ws) && Stripped(p, ws) && p != ""
    ensures |Candidate(buffer, p, ws)| >= |p|
  {
    CandidateIsJoined(buffer, p, ws);
    hide Candidate;
  }

  lemma {:induction false} LongSeparatesLater(a: seq<string>, p: string, b: seq<string>, buffer: string, maxChars: nat,
                                              ws: Space, pieces: seq<string>, after_: seq<string>)
    requires maxChars > 0 && |Strip(p, ws)| > maxChars && (buffer == "" || Good(buffer, maxChars, ws)) && a != []
    requires pieces == SplitLong(Strip(p, ws), maxChars, ws).0
    requires after_ == Chunks([SplitLong(Strip(p, ws), maxChars, ws).1] + b, "", maxChars, ws)
    ensures Chunks(a + [p] + b, buffer, maxChars, ws) == Chunks(a, buffer, maxChars, ws) + pieces + after_
    decreases |a|, 0
  {
    hide Strip, Chunks, SplitLong, Candidate;
    var q, rest := Strip(a[0], ws), a[1..];
    assert (a + [p] + b)[0] == a[0] && (a + [p] + b)[1..] == rest + [p] + b;
    StripCuts(a[0], ws);
    ChunksStep(a + [p] + b, buffer, maxChars, ws);
    ChunksStep(a, buffer, maxChars, ws);
    if q == "" {
      LongParagraphSeparates(rest, p, b, buffer, maxChars, ws);
    } else {
      CandidateIsJoined(buffer, q, ws);
      if |Candidate(buffer, q, ws)| <= maxChars {
        LongParagraphSeparates(rest, p, b, Candidate(buffer, q, ws), maxChars, ws);
      } else {
        var (cut, left) := SplitLong(q, maxChars, ws);
        SplitLongIsGood(q, maxChars, ws);
        LongParagraphSeparates(rest, p, b, left, maxChars, ws);
        Regroup5(Flush(buffer), cut, Chunks(rest, left, maxChars, ws), pieces, after_);
      }
    }
  }

  lemma Regroup5(a: seq<string>, b: seq<string>, c: seq<string>, d: seq<string>, e: seq<string>)
    ensures a + (b + (c + d + e)) == a + (b + c) + d + e
  {
  }

  /**
    The chunks of a text are those of its paragraphs: the parts between blank lines, taken from
    the left, stripped, and without those that are blank.
   */
  lemma ChunksAreOfParagraphs(text: string, maxChars: nat, ws: Space)
    requires maxChars > 0 && ws('\n')
    ensures exists parts ::
              && LeftmostParts(text, "\n\n", parts)
              && ChunkTextSpec(text, maxChars, ws) == Chunks(Solids(parts, ws), "", maxChars, ws)
  {
    var parts := SplitOn(text, "\n\n");
    SplitOnIsLeftmost(text, "\n\n");
    BlanksDoNotCount(parts, "", maxChars, ws);
    if Strip(text, ws) == "" {
      BlankTextHasNoChunks(text, maxChars, ws);
    }
    hide Chunks, SplitOn, Strip, Solids, LeftmostParts;
  }

  lemma BlankTextHasNoChunks(text: string, maxChars: nat, ws: Space)
    requires maxChars > 0 && ws('\n') && Strip(text, ws) == ""
    ensures Chunks(SplitOn(text, "\n\n"), "", maxChars, ws) == []
  {
    var parts := SplitOn(text, "\n\n");
    var chunks := Chunks(parts, "", maxChars, ws);
    StripCuts(text, ws);
    SolidOfSpace(text, ws);
    hide Chunks, SplitOn, Strip, Solid, Good;
    SplitOnConserves(text, ws);
    ChunksConserve(parts, "", maxChars, ws);
    EmptyInk("", ws);
    EmptyInk(Ink(parts, ws), ws);
    ChunksAreGood(parts, "", maxChars, ws);
    if chunks != [] {
      assert chunks[0] in chunks;
      FirstChunkHasInk(chunks, maxChars, ws);
    }
  }

  lemma FirstChunkHasInk(chunks: seq<string>, maxChars: nat, ws: Space)
    requires chunks != [] && Good(chunks[0], maxChars, ws)
    ensures Ink(chunks, ws) != ""
  {
    SolidOfVisible(chunks[0], ws);
    SolidConcat(chunks[0], Flatten(chunks[1..]), ws);
    hide Solid;
  }
}
