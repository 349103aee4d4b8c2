/**
  Sentence segmentation (rag/nlp/sentences.py): sentences end at newlines and at runs of
  terminators followed by white space, unless an abbreviation precedes the run.
 */
module Sentences {
  import opened Whitespace

  const TERMINATORS := ".\U{61F}?!\U{61B}"

  /** The abbreviations, and the lower-casing applied before looking a word up. */
  datatype Rules = Rules(ws: Space, lower: string -> string)

  const ABBREVIATIONS := {
    "\U{635}", "\U{62C}", "\U{642}", "\U{647}", "\U{634}", "\U{645}", "\U{627}\U{644}\U{62E}",
    "\U{645}\U{62B}\U{644}\U{627}", "no", "vol", "fig", "eq", "dr", "mr", "mrs", "prof"
  }

  datatype Sentence = Sentence(text: string, charStart: nat, charEnd: nat)

  predicate IsTerminator(c: char) {
    c in TERMINATORS
  }

  // ----- Specification: where the text is cut

  /** The end of the run of terminators that includes position `i`. */
  function RunEnd(text: string, i: nat): (e: nat)
    requires i <= |text|
    ensures i <= e <= |text| && (forall k :: i <= k < e ==> IsTerminator(text[k]))
            && (e < |text| ==> !IsTerminator(text[e]))
    decreases |text| - i
  {
    if i < |text| && IsTerminator(text[i]) then RunEnd(text, i + 1) else i
  }

  /** The start of the run of terminators that ends before position `e`. */
  function RunStart(text: string, e: nat): (p: nat)
    requires e <= |text|
    ensures p <= e && (forall k :: p <= k < e ==> IsTerminator(text[k])) && (p > 0 ==> !IsTerminator(text[p - 1]))
  {
    if e > 0 && IsTerminator(text[e - 1]) then RunStart(text, e - 1) else e
  }

  /** A maximal run of terminators from `p` to `e`. */
  predicate IsRun(text: string, p: nat, e: nat) {
    && p < e <= |text| && (forall k :: p <= k < e ==> IsTerminator(text[k]))
    && (p > 0 ==> !IsTerminator(text[p - 1])) && (e < |text| ==> !IsTerminator(text[e]))
  }

  function WordStart(text: string, e: nat, ws: Space): (s: nat)
    requires e <= |text|
    ensures s <= e
  {
    if e > 0 && !ws(text[e - 1]) && !IsTerminator(text[e - 1]) then WordStart(text, e - 1, ws) else e
  }

  /**
    The word before position `i`: the characters, neither white space nor terminators, that end
    there.  The pattern's `$` also matches before a newline that ends the prefix, so one newline
    in between is skipped.
   */
  function WordBefore(text: string, i: nat, ws: Space): string
    requires i <= |text|
  {
    var e := if i > 0 && text[i - 1] == '\n' then i - 1 else i;
    text[WordStart(text, e, ws)..e]
  }

  predicate IsAbbreviation(text: string, i: nat, rules: Rules)
    requires i <= |text|
  {
    WordBefore(text, i, rules.ws) != "" && rules.lower(WordBefore(text, i, rules.ws)) in ABBREVIATIONS
  }

  /** A sentence ends before position `c`. */
  predicate IsCut(text: string, c: nat, rules: Rules) {
    && 0 < c <= |text|
    && (|| text[c - 1] == '\n'
        || (&& IsTerminator(text[c - 1])
            && (c == |text| || (!IsTerminator(text[c]) && rules.ws(text[c])))
            && !IsAbbreviation(text, RunStart(text, c), rules)))
  }

  /** The next cut after `start`, or the end of the text. */
  function NextCut(text: string, start: nat, rules: Rules): (c: nat)
    requires start < |text|
    ensures start < c <= |text|
    decreases |text| - start
  {
    if start + 1 == |text| || IsCut(text, start + 1, rules) then start + 1 else NextCut(text, start + 1, rules)
  }

  lemma {:induction false} NextCutIsNext(text: string, start: nat, rules: Rules)
    requires start < |text|
    ensures var c := NextCut(text, start, rules);
            (c < |text| ==> IsCut(text, c, rules)) && forall d :: start < d < c ==> !IsCut(text, d, rules)
    decreases |text| - start
  {
    hide IsCut;
    if !(start + 1 == |text| || IsCut(text, start + 1, rules)) {
      NextCutIsNext(text, start + 1, rules);
    }
  }

  /** The sentence between two cuts, if anything but white space is there. */
  function Piece(text: string, a: nat, b: nat, ws: Space): seq<Sentence>
    requires a <= b <= |text|
  {
    var raw := text[a..b];
    var body := Strip(raw, ws);
    if body == "" then [] else [Sentence(body, a + Offset(raw, ws), a + Offset(raw, ws) + |body|)]
  }

  function SentencesFrom(text: string, start: nat, rules: Rules): seq<Sentence>
    decreases |text| - start
  {
    if start >= |text| then []
    else
      var c := NextCut(text, start, rules);
      Piece(text, start, c, rules.ws) + SentencesFrom(text, c, rules)
  }

  // ----- The algorithm

  method Append(sentences: seq<Sentence>, text: string, start: nat, end: nat, ws: Space) returns (r: seq<Sentence>)
    requires start <= end <= |text|
    ensures r == sentences + Piece(text, start, end, ws)
  {
    hide Strip, LStrip;
    var raw := text[start..end];
    var body := Strip(raw, ws);
    assert sentences + [] == sentences;
    if body == "" {
      return sentences;
    }
    var offset := start + (|raw| - |LStrip(raw, ws)|);
    r := sentences + [Sentence(body, offset, offset + |body|)];
  }

  /** The end of the run of terminators at `position`. */
  method ScanRun(text: string, position: nat) returns (end: nat)
    requires position < |text| && IsTerminator(text[position])
    ensures position < end <= |text| && (forall k :: position <= k < end ==> IsTerminator(text[k]))
    ensures end < |text| ==> !IsTerminator(text[end])
  {
    end := position + 1;
    while end < |text| && IsTerminator(text[end])
      invariant position < end <= |text|
      invariant forall k :: position <= k < end ==> IsTerminator(text[k])
    {
      end := end + 1;
    }
  }

  /** Nothing is cut inside a maximal run, and whether its end is a cut is what the code checks. */
  lemma RunIsCut(text: string, p: nat, e: nat, rules: Rules)
    requires IsRun(text, p, e)
    ensures forall c :: p < c < e ==> !IsCut(text, c, rules)
    ensures IsCut(text, e, rules) <==> !IsAbbreviation(text, p, rules) && (e == |text| || rules.ws(text[e]))
  {
    hide IsAbbreviation;
    RunStartIs(text, p, e);
    NoCutInRun(text, p, e, rules);
    assert IsTerminator(text[e - 1]);
    NewlineIsNoTerminator();
  }

  /**
    A newline between the word and the terminators does not help: they are still taken for the
    end of an abbreviation.
   */
  lemma NewlineIsSkipped(text: string, i: nat, rules: Rules)
    requires 0 < i <= |text| && text[i - 1] == '\n' && (i > 1 ==> text[i - 2] != '\n')
    ensures IsAbbreviation(text, i, rules) <==> IsAbbreviation(text, i - 1, rules)
  {
  }

  /** So the full stop of "mr\n. x" ends no sentence. */
  lemma NewlineHidesFullStop(rules: Rules)
    requires !rules.ws('m') && !rules.ws('r') && rules.lower("mr") == "mr"
    ensures IsAbbreviation("mr\n. x", 3, rules) && !IsCut("mr\n. x", 4, rules)
  {
    var text := "mr\n. x";
    assert IsTerminator(text[3]) && !IsTerminator(text[2]) && !IsTerminator('m') && !IsTerminator('r');
    assert RunStart(text, 4) == 3;
    assert WordStart(text, 2, rules.ws) == 0 && text[0..2] == "mr";
    assert WordBefore(text, 3, rules.ws) == "mr";
  }

  lemma NewlineIsNoTerminator()
    ensures !IsTerminator('\n')
  {
    assert TERMINATORS[0] != '\n' && TERMINATORS[1] != '\n' && TERMINATORS[2] != '\n' && TERMINATORS[3] != '\n'
           && TERMINATORS[4] != '\n';
  }

  lemma NewlineIsCut(text: string, p: nat, rules: Rules)
    requires p < |text| && text[p] == '\n'
    ensures IsCut(text, p + 1, rules)
  {
  }

  lemma NothingLeft(text: string, rules: Rules, sentences: seq<Sentence>)
    ensures Piece(text, |text|, |text|, rules.ws) == [] && SentencesFrom(text, |text|, rules) == []
    ensures sentences + [] == sentences
  {
    hide NextCut, Strip, Offset, IsCut;
    assert text[|text|..|text|] == "";
    StripCuts("", rules.ws);
  }

  lemma OrdinaryIsNoCut(text: string, p: nat, rules: Rules)
    requires p < |text| && text[p] != '\n' && !IsTerminator(text[p])
    ensures !IsCut(text, p + 1, rules)
  {
  }

  method SplitSentences(text: string, rules: Rules) returns (sentences: seq<Sentence>)
    ensures sentences == SentencesFrom(text, 0, rules)
  {
    hide IsCut, IsTerminator, IsAbbreviation, SentencesFrom, Piece;
    sentences := [];
    assert [] + SentencesFrom(text, 0, rules) == SentencesFrom(text, 0, rules);
    var start, position, length := 0, 0, |text|;
    while position < length
      invariant start <= position <= length
      invariant sentences + SentencesFrom(text, start, rules) == SentencesFrom(text, 0, rules)
      invariant forall c :: start < c <= position ==> !IsCut(text, c, rules)
      invariant 0 < position < length && IsTerminator(text[position]) ==> !IsTerminator(text[position - 1])
      decreases length - position
    {
      var char_ := text[position];
      if char_ == '\n' {
        NewlineIsCut(text, position, rules);
        NewlineIsNoTerminator();
        CutHere(text, start, position + 1, rules, sentences);
        sentences := Append(sentences, text, start, position + 1, rules.ws);
        position := position + 1;
        start := position;
        continue;
      }
      if IsTerminator(char_) {
        var end := ScanRun(text, position);
        RunIsCut(text, position, end, rules);
        if IsAbbreviation(text, position, rules) {
          position := end;
          continue;
        }
        if end >= length || rules.ws(text[end]) {
          CutHere(text, start, end, rules, sentences);
          sentences := Append(sentences, text, start, end, rules.ws);
          position := end;
          start := end;
          continue;
        }
        position := end;
        continue;
      }
      OrdinaryIsNoCut(text, position, rules);
      position := position + 1;
    }
    if start < length {
      CutHere(text, start, length, rules, sentences);
    }
    NothingLeft(text, rules, sentences);
    sentences := Append(sentences, text, start, length, rules.ws);
  }

  lemma RunStartIs(text: string, p: nat, e: nat)
    requires p < e <= |text| && (forall k :: p <= k < e ==> IsTerminator(text[k]))
             && (p > 0 ==> !IsTerminator(text[p - 1]))
    ensures RunStart(text, e) == p
  {
    assert forall k :: RunStart(text, e) <= k < e ==> IsTerminator(text[k]);
  }

  lemma NoCutInRun(text: string, p: nat, e: nat, rules: Rules)
    requires p < e <= |text| && (forall k :: p <= k < e ==> IsTerminator(text[k]))
    ensures forall c :: p < c < e ==> !IsCut(text, c, rules)
  {
    forall c | p < c < e
      ensures !IsCut(text, c, rules)
    {
      assert IsTerminator(text[c - 1]) && IsTerminator(text[c]);
    }
  }

  lemma CutHere(text: string, start: nat, c: nat, rules: Rules, sentences: seq<Sentence>)
    requires start < c <= |text| && (c < |text| ==> IsCut(text, c, rules))
    requires forall d :: start < d < c ==> !IsCut(text, d, rules)
    ensures NextCut(text, start, rules) == c
    ensures sentences + SentencesFrom(text, start, rules)
            == sentences + Piece(text, start, c, rules.ws) + SentencesFrom(text, c, rules)
  {
    hide IsCut, Piece, NextCut;
    NextCutIsNext(text, start, rules);
  }

  // ----- Where sentences end, spelled out

  /** A word from `s` to `e`, in front of terminators from `p` to `c`, perhaps on the next line, is an abbreviation. */
  predicate AbbreviationEnds(text: string, s: nat, e: nat, p: nat, c: nat, rules: Rules)
    requires c <= |text|
  {
    && s < e <= p < c
    && (forall k :: p <= k < c ==> text[k] in ".\U{61F}?!\U{61B}") && (p > 0 ==> text[p - 1] !in ".\U{61F}?!\U{61B}")
    && e == (if text[p - 1] == '\n' then p - 1 else p)
    && (forall k :: s <= k < e ==> !rules.ws(text[k]) && text[k] !in ".\U{61F}?!\U{61B}")
    && (s > 0 ==> rules.ws(text[s - 1]) || text[s - 1] in ".\U{61F}?!\U{61B}")
    && rules.lower(text[s..e]) in {
         "no", "vol", "fig", "eq", "dr", "mr", "mrs", "prof", "\U{635}", "\U{62C}", "\U{642}", "\U{647}", "\U{634}",
         "\U{645}", "\U{627}\U{644}\U{62E}", "\U{645}\U{62B}\U{644}\U{627}"
       }
  }

  /**
    A sentence ends after a newline; and after a run of full stops, question marks, Arabic
    question marks, exclamation marks and Arabic semicolons that is followed by white space or
    the end of the text, unless the word in front of the run is an abbreviation.
   */
  lemma SentencesEnd(text: string, c: nat, rules: Rules)
    requires 0 < c <= |text|
    ensures IsCut(text, c, rules) <==>
              || text[c - 1] == '\n'
              || (&& text[c - 1] in ".\U{61F}?!\U{61B}"
                  && (c == |text| || (text[c] !in ".\U{61F}?!\U{61B}" && rules.ws(text[c])))
                  && !exists s, e, p :: AbbreviationEnds(text, s, e, p, c, rules))
  {
    if IsTerminator(text[c - 1]) {
      var p := RunStart(text, c);
      AbbreviationFound(text, p, c, rules);
      hide WordStart, ABBREVIATIONS, IsAbbreviation, AbbreviationEnds, RunStart;
    }
  }

  lemma AbbreviationFound(text: string, p: nat, c: nat, rules: Rules)
    requires p < c <= |text| && p == RunStart(text, c)
    ensures IsAbbreviation(text, p, rules) <==> exists s, e, q :: AbbreviationEnds(text, s, e, q, c, rules)
  {
    var e := if p > 0 && text[p - 1] == '\n' then p - 1 else p;
    var s := WordStart(text, e, rules.ws);
    WordStartMeans(text, e, rules.ws);
    if IsAbbreviation(text, p, rules) {
      assert AbbreviationEnds(text, s, e, p, c, rules);
    }
    hide IsAbbreviation, AbbreviationEnds, WordStart, RunStart;
    if s', e', q :| AbbreviationEnds(text, s', e', q, c, rules) {
      AbbreviationIsFound(text, s', e', q, c, rules);
    }
  }

  lemma AbbreviationIsFound(text: string, s: nat, e: nat, q: nat, c: nat, rules: Rules)
    requires c <= |text| && AbbreviationEnds(text, s, e, q, c, rules)
    ensures RunStart(text, c) == q && IsAbbreviation(text, q, rules)
  {
    RunStartIs(text, q, c);
    WordStartIs(text, s, e, rules.ws);
    hide WordStart, RunStart;
  }

  lemma {:induction false} WordStartMeans(text: string, e: nat, ws: Space)
    requires e <= |text|
    ensures var s := WordStart(text, e, ws);
            && (forall k :: s <= k < e ==> !ws(text[k]) && !IsTerminator(text[k]))
            && (s > 0 ==> ws(text[s - 1]) || IsTerminator(text[s - 1]))
  {
    hide IsTerminator;
    if e > 0 && !ws(text[e - 1]) && !IsTerminator(text[e - 1]) {
      WordStartMeans(text, e - 1, ws);
    }
  }

  lemma WordStartIs(text: string, s: nat, e: nat, ws: Space)
    requires s <= e <= |text| && (forall k :: s <= k < e ==> !ws(text[k]) && !IsTerminator(text[k]))
    requires s > 0 ==> ws(text[s - 1]) || IsTerminator(text[s - 1])
    ensures WordStart(text, e, ws) == s
  {
    hide IsTerminator, WordStart;
    WordStartMeans(text, e, ws);
    var r := WordStart(text, e, ws);
    if r > s {
      assert s <= r - 1 < e;
    }
  }

  // ----- Main results

  /** A span of the text between two neighbouring cuts, or the start or the end, trimmed. */
  predicate InSegment(text: string, s: Sentence, a: nat, b: nat, rules: Rules) {
    && a <= s.charStart < s.charEnd <= b <= |text| && text[s.charStart..s.charEnd] == s.text
    && Stripped(s.text, rules.ws)
    && (a == 0 || IsCut(text, a, rules)) && (b == |text| || IsCut(text, b, rules))
    && (forall k :: a <= k < b && !(s.charStart <= k < s.charEnd) ==> rules.ws(text[k]))
    && forall d :: a < d < b ==> !IsCut(text, d, rules)
  }

  lemma PieceIsInSegment(text: string, a: nat, b: nat, rules: Rules)
    requires a < b <= |text| && forall d :: a < d < b ==> !IsCut(text, d, rules)
    requires (a == 0 || IsCut(text, a, rules)) && (b == |text| || IsCut(text, b, rules))
    ensures var r := Piece(text, a, b, rules.ws);
            && (r != [] ==> |r| == 1 && InSegment(text, r[0], a, b, rules))
            && (r == [] ==> forall k :: a <= k < b ==> rules.ws(text[k]))
  {
    hide Strip, Offset, IsCut;
    var raw := text[a..b];
    StripCuts(raw, rules.ws);
    assert forall k :: a <= k < b ==> text[k] == raw[k - a];
  }

  /** The sentences from `start` on: in order, apart, each an exact and trimmed span between cuts. */
  predicate Segmented(text: string, start: nat, sentences: seq<Sentence>) {
    && (forall i :: 0 <= i < |sentences| ==>
                      start <= sentences[i].charStart < sentences[i].charEnd <= |text|
                      && text[sentences[i].charStart..sentences[i].charEnd] == sentences[i].text)
    && forall i, j :: 0 <= i < j < |sentences| ==> sentences[i].charEnd <= sentences[j].charStart
  }

  predicate Within(s: Sentence, k: int) {
    s.charStart <= k < s.charEnd
  }

  predicate Covered(sentences: seq<Sentence>, k: int) {
    exists i :: 0 <= i < |sentences| && Within(sentences[i], k)
  }

  lemma {:induction false} SentencesAreSegments(text: string, start: nat, rules: Rules)
    requires start <= |text| && (start == 0 || start == |text| || IsCut(text, start, rules))
    ensures var r := SentencesFrom(text, start, rules);
            Segmented(text, start, r) && AllCovered(text, start, r, rules.ws) && AllInSegments(text, r, rules)
    decreases |text| - start
  {
    if start < |text| {
      var c := NextCut(text, start, rules);
      var first, rest := Piece(text, start, c, rules.ws), SentencesFrom(text, c, rules);
      assert SentencesFrom(text, start, rules) == first + rest;
      hide *;
      NextCutIsNext(text, start, rules);
      PieceIsInSegment(text, start, c, rules);
      SentencesAreSegments(text, c, rules);
      Prepend(text, start, c, first, rest, rules);
    }
  }

  /** Each sentence lies in some segment of the text. */
  ghost predicate AllInSegments(text: string, sentences: seq<Sentence>, rules: Rules) {
    forall i :: 0 <= i < |sentences| ==> HasSegment(text, sentences[i], rules)
  }

  ghost predicate HasSegment(text: string, s: Sentence, rules: Rules) {
    exists a, b :: InSegment(text, s, a, b, rules)
  }

  predicate AllCovered(text: string, from: nat, sentences: seq<Sentence>, ws: Space) {
    forall k :: from <= k < |text| && !ws(text[k]) ==> Covered(sentences, k)
  }

  lemma Prepend(text: string, start: nat, c: nat, first: seq<Sentence>, rest: seq<Sentence>, rules: Rules)
    requires start < c <= |text| && |first| <= 1 && Segmented(text, c, rest)
    requires first != [] ==> InSegment(text, first[0], start, c, rules)
    requires first == [] ==> forall k :: start <= k < c ==> rules.ws(text[k])
    requires AllCovered(text, c, rest, rules.ws) && AllInSegments(text, rest, rules)
    ensures var r := first + rest;
            Segmented(text, start, r) && AllCovered(text, start, r, rules.ws) && AllInSegments(text, r, rules)
  {
    PrependSegmented(text, start, c, first, rest, rules);
    PrependCovered(text, start, c, first, rest, rules);
    PrependInSegments(text, start, c, first, rest, rules);
  }

  lemma PrependSegmented(text: string, start: nat, c: nat, first: seq<Sentence>, rest: seq<Sentence>, rules: Rules)
    requires start < c <= |text| && |first| <= 1 && Segmented(text, c, rest)
    requires first != [] ==> InSegment(text, first[0], start, c, rules)
    ensures Segmented(text, start, first + rest)
  {
    hide IsCut;
  }

  lemma PrependCovered(text: string, start: nat, c: nat, first: seq<Sentence>, rest: seq<Sentence>, rules: Rules)
    requires start < c <= |text| && |first| <= 1 && AllCovered(text, c, rest, rules.ws)
    requires first != [] ==> InSegment(text, first[0], start, c, rules)
    requires first == [] ==> forall k :: start <= k < c ==> rules.ws(text[k])
    ensures AllCovered(text, start, first + rest, rules.ws)
  {
    hide IsCut;
    var r := first + rest;
    forall k | start <= k < |text| && !rules.ws(text[k])
      ensures Covered(r, k)
    {
      if k < c {
        assert r[0] == first[0];
      } else {
        var i :| 0 <= i < |rest| && Within(rest[i], k);
        assert r[|first| + i] == rest[i];
      }
    }
  }

  lemma PrependInSegments(text: string, start: nat, c: nat, first: seq<Sentence>, rest: seq<Sentence>, rules: Rules)
    requires |first| <= 1 && AllInSegments(text, rest, rules)
    requires first != [] ==> InSegment(text, first[0], start, c, rules)
    ensures AllInSegments(text, first + rest, rules)
  {
    hide InSegment;
    assert first != [] ==> HasSegment(text, first[0], rules);
    hide HasSegment;
  }

  /**
    Spans are ordered, disjoint and exact, and every character that is not white space lies in
    exactly one of them.
   */
  lemma SentencesPartitionTheText(text: string, rules: Rules)
    ensures var r := SentencesFrom(text, 0, rules);
            && Segmented(text, 0, r) && AllCovered(text, 0, r, rules.ws)
            && forall i, j, k :: 0 <= i < |r| && 0 <= j < |r| && Within(r[i], k) && Within(r[j], k) ==> i == j
  {
    SentencesAreSegments(text, 0, rules);
  }

  /** Sentences are the text between neighbouring cuts, trimmed; nothing else separates them. */
  lemma SentencesLieBetweenCuts(text: string, rules: Rules, i: nat)
    requires i < |SentencesFrom(text, 0, rules)|
    ensures var s := SentencesFrom(text, 0, rules)[i];
            exists a, b :: InSegment(text, s, a, b, rules)
  {
    SentencesAreSegments(text, 0, rules);
    hide SentencesFrom, InSegment, Segmented, AllCovered;
    assert HasSegment(text, SentencesFrom(text, 0, rules)[i], rules);
  }

  /**
    No sentence contains a newline, and a run of terminators followed by white space occurs
    inside a sentence only after an abbreviation.
   */
  lemma SentencesAreWhole(text: string, rules: Rules, i: nat)
    requires rules.ws('\n') && i < |SentencesFrom(text, 0, rules)|
    ensures var s := SentencesFrom(text, 0, rules)[i];
            && '\n' !in s.text
            && forall p: nat, e: nat ::
                 IsRun(text, p, e) && s.charStart <= p && e < s.charEnd && e < |text| && rules.ws(text[e]) ==>
                   IsAbbreviation(text, p, rules)
  {
    SentencesAreSegments(text, 0, rules);
    var s := SentencesFrom(text, 0, rules)[i];
    assert HasSegment(text, s, rules);
    var a, b :| InSegment(text, s, a, b, rules);
    SegmentIsWhole(text, s, a, b, rules);
  }

  lemma SegmentIsWhole(text: string, s: Sentence, a: nat, b: nat, rules: Rules)
    requires rules.ws('\n') && InSegment(text, s, a, b, rules)
    ensures '\n' !in s.text
    ensures forall p: nat, e: nat ::
              IsRun(text, p, e) && s.charStart <= p && e < s.charEnd && e < |text| && rules.ws(text[e]) ==>
                IsAbbreviation(text, p, rules)
  {
    assert |s.text| == s.charEnd - s.charStart;
    forall k | 0 <= k < |s.text|
      ensures s.text[k] != '\n'
    {
      var at := s.charStart + k;
      assert s.text[k] == text[at];
      if k < |s.text| - 1 {
        assert !IsCut(text, at + 1, rules);
      }
    }
    forall p: nat, e: nat | IsRun(text, p, e) && s.charStart <= p && e < s.charEnd && e < |text| && rules.ws(text[e])
      ensures IsAbbreviation(text, p, rules)
    {
      RunStartIs(text, p, e);
      assert !IsCut(text, e, rules);
      assert IsTerminator(text[e - 1]);
    }
  }
}
