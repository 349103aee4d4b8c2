/**
  The streaming parser of app/services/chat/stream_parser.py: it cuts a stream of text
  pieces at the first `<think>` and the next `</think>`, holding back a suffix that may
  still become the awaited tag.  The point of the proofs is that the way the text was cut
  into pieces does not matter.
 */
module StreamParser {
  import opened Prelude
  import opened Strings

  const OPEN := "<think>"
  const CLOSE := "</think>"

  datatype Event = Thinking(text: string) | Delta(text: string)

  datatype State = State(buffer: string, inThink: bool, seenThinkStart: bool,
                         thinking: string, answer: string)

  const INITIAL := State("", false, false, "", "")

  // ----- What the parser does, as a function on its fields

  function Emit(event: Event): seq<Event> {
    if event.text == "" then [] else [event]
  }

  /** Splits off the suffix of `buffer` that starts at its last '<', if `tag` may start there. */
  function HoldBack(buffer: string, tag: string): (string, string) {
    var i := RFind(buffer, "<");
    if i >= 0 && buffer[i..] <= tag then (buffer[..i], buffer[i..]) else (buffer, "")
  }

  function Clean(text: string): string {
    Replace(Replace(text, CLOSE, ""), OPEN, "")
  }

  /** The state once the open tag found at `i` of the buffer has been consumed. */
  function Opened(s: State, i: nat): State
    requires OccursAt(s.buffer, OPEN, i)
  {
    State(s.buffer[i + |OPEN|..], true, true, s.thinking, s.answer + s.buffer[..i])
  }

  /** The state once the close tag found at `i` of the buffer has been consumed. */
  function Closed(s: State, i: nat): State
    requires OccursAt(s.buffer, CLOSE, i)
  {
    State(s.buffer[i + |CLOSE|..], false, s.seenThinkStart, s.thinking + s.buffer[..i], s.answer)
  }

  /** One turn of the loop of `feed`, and whether the loop goes on. */
  function Turn(s: State): (State, seq<Event>, bool) {
    if s.inThink then
      match Find(s.buffer, CLOSE)
      case Some(i) => (Closed(s, i), Emit(Thinking(s.buffer[..i])), true)
      case None =>
        var (out, kept) := HoldBack(s.buffer, CLOSE);
        (s.(thinking := s.thinking + out, buffer := kept), Emit(Thinking(out)), false)
    else if !s.seenThinkStart then
      match Find(s.buffer, OPEN)
      case Some(i) => (Opened(s, i), Emit(Delta(s.buffer[..i])), true)
      case None =>
        var (out, kept) := HoldBack(s.buffer, OPEN);
        (s.(answer := s.answer + out, buffer := kept), Emit(Delta(out)), false)
    else
      (s.(answer := s.answer + Clean(s.buffer), buffer := ""), Emit(Delta(Clean(s.buffer))), false)
  }

  /** The loop of `feed`: consumes the buffer as far as it can be decided. */
  function Drain(s: State): (State, seq<Event>)
    decreases |s.buffer|
  {
    var (t, events, more) := Turn(s);
    if more then
      var (u, later) := Drain(t);
      (u, events + later)
    else (t, events)
  }

  /** Draining `start` amounts to having emitted `done` and draining `s`. */
  predicate Resumes(start: State, done: seq<Event>, s: State) {
    Drain(start) == (Drain(s).0, done + Drain(s).1)
  }

  lemma ResumeTurn(start: State, done: seq<Event>, s: State)
    requires Resumes(start, done, s)
    ensures var (t, events, more) := Turn(s);
            if more then Resumes(start, done + events, t) else Drain(start) == (t, done + events)
  {
    var (t, events, more) := Turn(s);
    if more {
      assert done + (events + Drain(t).1) == done + events + Drain(t).1;
    }
  }

  function FeedStep(s: State, chunk: string): (State, seq<Event>) {
    if chunk == "" then (s, []) else Drain(s.(buffer := s.buffer + chunk))
  }

  function FinalStep(s: State): (State, seq<Event>) {
    if s.buffer == "" then (s, [])
    else if s.inThink then
      (s.(thinking := s.thinking + s.buffer, buffer := ""), Emit(Thinking(s.buffer)))
    else
      (s.(answer := s.answer + Clean(s.buffer), buffer := ""), Emit(Delta(Clean(s.buffer))))
  }

  function FeedAll(chunks: seq<string>): (State, seq<Event>) {
    if chunks == [] then (INITIAL, [])
    else
      var (s, before) := FeedAll(chunks[..|chunks| - 1]);
      var (t, events) := FeedStep(s, chunks[|chunks| - 1]);
      (t, before + events)
  }

  /** A whole stream: every chunk is fed, then the parser is finalized. */
  function Run(chunks: seq<string>): (State, seq<Event>) {
    var (s, before) := FeedAll(chunks);
    var (t, events) := FinalStep(s);
    (t, before + events)
  }

  class StreamBufferParser {
    var buffer: string
    var inThink: bool
    var seenThinkStart: bool
    var accumulatedThinking: string
    var accumulatedAnswer: string

    ghost function View(): State
      reads this
    {
      State(buffer, inThink, seenThinkStart, accumulatedThinking, accumulatedAnswer)
    }

    constructor ()
      ensures View() == INITIAL
    {
      buffer, inThink, seenThinkStart := "", false, false;
      accumulatedThinking, accumulatedAnswer := "", "";
    }

    /** Stores a text and returns the event that reports it, unless the text is empty. */
    method Report(event: Event) returns (events: seq<Event>)
      modifies this`accumulatedThinking, this`accumulatedAnswer
      ensures events == Emit(event)
      ensures accumulatedThinking
              == if event.Thinking? then old(accumulatedThinking) + event.text else old(accumulatedThinking)
      ensures accumulatedAnswer == if event.Delta? then old(accumulatedAnswer) + event.text else old(accumulatedAnswer)
    {
      events := [];
      if event.text != "" {
        if event.Thinking? {
          accumulatedThinking := accumulatedThinking + event.text;
        } else {
          accumulatedAnswer := accumulatedAnswer + event.text;
        }
        events := [event];
      } else {
        assert accumulatedThinking + "" == accumulatedThinking && accumulatedAnswer + "" == accumulatedAnswer;
      }
    }

    method TakeTurn() returns (events: seq<Event>, more: bool)
      modifies this
      ensures (View(), events, more) == Turn(old(View()))
      ensures more ==> |buffer| < |old(buffer)|
    {
      if !inThink {
        if !seenThinkStart {
          var at := Find(buffer, OPEN);
          if at.Some? {
            events := Report(Delta(buffer[..at.value]));
            inThink, seenThinkStart := true, true;
            buffer := buffer[at.value + |OPEN|..];
            return events, true;
          }
          var i := RFind(buffer, "<");
          if i >= 0 && buffer[i..] <= OPEN {
            events := Report(Delta(buffer[..i]));
            buffer := buffer[i..];
          } else {
            events := Report(Delta(buffer));
            buffer := "";
          }
        } else {
          events := Report(Delta(Clean(buffer)));
          buffer := "";
        }
      } else {
        var at := Find(buffer, CLOSE);
        if at.Some? {
          events := Report(Thinking(buffer[..at.value]));
          inThink := false;
          buffer := buffer[at.value + |CLOSE|..];
          return events, true;
        }
        var i := RFind(buffer, "<");
        if i >= 0 && buffer[i..] <= CLOSE {
          events := Report(Thinking(buffer[..i]));
          buffer := buffer[i..];
        } else {
          events := Report(Thinking(buffer));
          buffer := "";
        }
      }
      more := false;
    }

    method Feed(chunk: string) returns (events: seq<Event>)
      modifies this
      ensures (View(), events) == FeedStep(old(View()), chunk)
    {
      events := [];
      if chunk == "" {
        return;
      }
      buffer := buffer + chunk;
      ghost var start := View();
      assert [] + Drain(start).1 == Drain(start).1;
      while true
        invariant Resumes(start, events, View())
        decreases |buffer|
      {
        ghost var s := View();
        var now, more := TakeTurn();
        ResumeTurn(start, events, s);
        events := events + now;
        if !more {
          return;
        }
      }
    }

    method Finalize() returns (events: seq<Event>)
      modifies this
      ensures View() == FinalStep(old(View())).0
      ensures events == FinalStep(old(View())).1
    {
      events := [];
      if buffer != "" {
        events := Report(if inThink then Thinking(buffer) else Delta(Clean(buffer)));
        buffer := "";
      }
    }
  }

  // ----- What the parser should compute, read off the whole text

  /** What follows the first `<think>`. */
  function AfterOpen(text: string): Option<string> {
    match Find(text, OPEN)
    case None => None
    case Some(i) => Some(text[i + |OPEN|..])
  }

  function BeforeOpen(text: string): string {
    match Find(text, OPEN)
    case None => text
    case Some(i) => text[..i]
  }

  function Thought(text: string): string {
    match AfterOpen(text)
    case None => ""
    case Some(rest) =>
      match Find(rest, CLOSE)
      case None => rest
      case Some(j) => rest[..j]
  }

  /** What follows the `</think>` that closes the first `<think>`. */
  function Tail(text: string): string {
    match AfterOpen(text)
    case None => ""
    case Some(rest) =>
      match Find(rest, CLOSE)
      case None => ""
      case Some(j) => rest[j + |CLOSE|..]
  }

  predicate HasTag(text: string) {
    Find(text, OPEN).Some? || Find(text, CLOSE).Some?
  }

  function TextOf(events: seq<Event>, thinking: bool): string {
    if events == [] then ""
    else (if events[0].Thinking? == thinking then events[0].text else "") + TextOf(events[1..], thinking)
  }

  // ----- The held-back suffix is exact

  /** A tag whose only '<' is its first character; it cannot overlap itself. */
  predicate IsTag(tag: string) {
    |tag| > 0 && tag[0] == '<' && forall j :: 0 < j < |tag| ==> tag[j] != '<'
  }

  /** Whatever is appended to `text`, `tag` does not occur in it at `i`. */
  predicate Refuted(text: string, tag: string, i: nat) {
    exists j :: 0 <= j < |tag| && i + j < |text| && text[i + j] != tag[j]
  }

  lemma RefutedDoesNotOccur(text: string, tag: string, i: nat)
    requires Refuted(text, tag, i)
    ensures !OccursAt(text, tag, i)
  {
    var j :| 0 <= j < |tag| && i + j < |text| && text[i + j] != tag[j];
    if i + |tag| <= |text| {
      assert text[i + j] == text[i..i + |tag|][j];
    }
  }

  lemma MismatchRefutes(text: string, tag: string, i: nat)
    requires i <= |text|
    ensures Refuted(text, tag, i) || text[i..] <= tag || OccursAt(text, tag, i)
  {
    var n := if |text| - i < |tag| then |text| - i else |tag|;
    if forall j :: 0 <= j < n ==> text[i + j] == tag[j] {
      assert text[i..i + n] == tag[..n];
    }
  }

  /** A position of the buffer before its last '<', or that '<' when no tag can start there. */
  lemma EmittedIsRefuted(buffer: string, tag: string, b: nat)
    requires IsTag(tag) && Find(buffer, tag).None? && b < |HoldBack(buffer, tag).0|
    ensures Refuted(buffer, tag, b)
  {
    var i := RFind(buffer, "<");
    if buffer[b] != '<' {
      assert buffer[b + 0] != tag[0];
    } else {
      assert OccursAt(buffer, "<", b);
      assert buffer[i] == '<' by {
        assert buffer[i..i + 1] == "<";
      }
      if b < i < b + |tag| {
        assert buffer[b + (i - b)] != tag[i - b];
      } else {
        MismatchRefutes(buffer, tag, b);
        assert !OccursAt(buffer, tag, b);
      }
    }
  }

  lemma NoSuffixIsTag(buffer: string, tag: string)
    requires Find(buffer, tag).None?
    ensures forall i :: 0 <= i <= |buffer| ==> buffer[i..] != tag
  {
    forall i | 0 <= i <= |buffer|
      ensures buffer[i..] != tag
    {
      assert !OccursAt(buffer, tag, i);
    }
  }

  lemma HoldBackIsExact(text: string, done: string, buffer: string, tag: string)
    requires IsTag(tag) && text == done + buffer && Find(buffer, tag).None?
    requires forall k :: 0 <= k < |done| ==> Refuted(text, tag, k)
    ensures var (out, kept) := HoldBack(buffer, tag);
            && out + kept == buffer && kept < tag
            && forall k :: 0 <= k < |done + out| ==> Refuted(text, tag, k)
  {
    var i := RFind(buffer, "<");
    var (out, kept) := HoldBack(buffer, tag);
    NoSuffixIsTag(buffer, tag);
    forall k | |done| <= k < |done + out|
      ensures Refuted(text, tag, k)
    {
      EmittedIsRefuted(buffer, tag, k - |done|);
      var j :| 0 <= j < |tag| && k - |done| + j < |buffer| && buffer[k - |done| + j] != tag[j];
      assert text[k + j] == buffer[k - |done| + j];
    }
  }

  /** Text already emitted cannot hide an occurrence, so searching the buffer is enough. */
  lemma FindInBuffer(text: string, done: string, buffer: string, tag: string)
    requires text == done + buffer
    requires forall k :: 0 <= k < |done| ==> Refuted(text, tag, k)
    ensures Find(text, tag) == match Find(buffer, tag)
                               case None => None
                               case Some(i) => Some(|done| + i)
  {
    hide Refuted, Find;
    forall k: nat | OccursAt(text, tag, k)
      ensures k >= |done| && OccursAt(buffer, tag, k - |done|)
    {
      if k < |done| {
        RefutedDoesNotOccur(text, tag, k);
      }
      OccursAfter(done, buffer, tag, k - |done|);
    }
    match Find(buffer, tag)
    case None =>
    case Some(i) =>
      OccursAfter(done, buffer, tag, i);
  }

  lemma OccursAfter(done: string, buffer: string, tag: string, k: nat)
    ensures OccursAt(done + buffer, tag, |done| + k) <==> OccursAt(buffer, tag, k)
  {
    if k + |tag| <= |buffer| {
      assert (done + buffer)[|done| + k..|done| + k + |tag|] == buffer[k..k + |tag|];
    }
  }

  lemma FindIsStable(text: string, more: string, tag: string)
    requires Find(text, tag).Some?
    ensures Find(text + more, tag) == Find(text, tag)
  {
    var i := Find(text, tag).value;
    assert (text + more)[i..i + |tag|] == text[i..i + |tag|];
    assert OccursAt(text + more, tag, i);
    var j := Find(text + more, tag).value;
    assert (text + more)[j..j + |tag|] == text[j..j + |tag|];
    assert OccursAt(text, tag, j);
  }

  // ----- The invariant of a stream

  /** What holds after each chunk, `text` being everything fed so far. */
  predicate Inv(s: State, text: string) {
    && Pre(s, text)
    && if !s.seenThinkStart then s.buffer < OPEN && Find(text, OPEN).None?
       else if s.inThink then s.buffer < CLOSE && Find(AfterOpen(text).value, CLOSE).None?
       else s.buffer == ""
  }

  /** What holds each time round the loop of `feed`. */
  predicate Pre(s: State, text: string) {
    if !s.seenThinkStart then Before(s, text) else if s.inThink then Inside(s, text) else After(s, text)
  }

  predicate Before(s: State, text: string) {
    && !s.inThink && !s.seenThinkStart && s.thinking == "" && text == s.answer + s.buffer
    && forall k :: 0 <= k < |s.answer| ==> Refuted(text, OPEN, k)
  }

  predicate Inside(s: State, text: string) {
    && s.inThink && s.seenThinkStart && AfterOpen(text).Some? && s.answer == BeforeOpen(text)
    && AfterOpen(text).value == s.thinking + s.buffer
    && forall k :: 0 <= k < |s.thinking| ==> Refuted(AfterOpen(text).value, CLOSE, k)
  }

  predicate After(s: State, text: string) {
    && !s.inThink && s.seenThinkStart && AfterOpen(text).Some? && Find(AfterOpen(text).value, CLOSE).Some?
    && s.thinking == Thought(text)
    && var tail := Tail(text);
    && |s.buffer| <= |tail| && tail[|tail| - |s.buffer|..] == s.buffer
    && (!HasTag(tail) ==> s.answer == BeforeOpen(text) + tail[..|tail| - |s.buffer|])
  }

  lemma NoTagInSuffix(text: string, from: nat)
    requires from <= |text| && !HasTag(text)
    ensures !HasTag(text[from..])
  {
    forall tag, k: nat | OccursAt(text[from..], tag, k)
      ensures OccursAt(text, tag, from + k)
    {
      assert text[from + k..from + k + |tag|] == text[from..][k..k + |tag|];
    }
  }

  lemma OpeningEntersThinking(s: State, text: string, i: nat)
    requires Before(s, text) && Find(s.buffer, OPEN) == Some(i)
    ensures Inside(Opened(s, i), text)
  {
    FindInBuffer(text, s.answer, s.buffer, OPEN);
    assert text[..|s.answer| + i] == s.answer + s.buffer[..i];
    assert text[|s.answer| + i + |OPEN|..] == s.buffer[i + |OPEN|..];
    assert "" + s.buffer[i + |OPEN|..] == s.buffer[i + |OPEN|..];
  }

  lemma ClosingLeavesThinking(s: State, text: string, i: nat)
    requires Inside(s, text) && Find(s.buffer, CLOSE) == Some(i)
    ensures After(Closed(s, i), text)
  {
    var rest := AfterOpen(text).value;
    FindInBuffer(rest, s.thinking, s.buffer, CLOSE);
    hide AfterOpen, BeforeOpen, HasTag, Refuted, Find;
    CutAt(s.thinking, s.buffer, i, i + |CLOSE|);
    var tail := Tail(text);
    assert tail == s.buffer[i + |CLOSE|..];
    assert tail[..0] == "" && tail[0..] == tail && BeforeOpen(text) + "" == BeforeOpen(text);
  }

  lemma CutAt(a: string, b: string, i: nat, j: nat)
    requires i <= j <= |b|
    ensures (a + b)[..|a| + i] == a + b[..i] && (a + b)[|a| + j..] == b[j..]
  {
  }

  lemma CleanKeeps(text: string)
    requires !HasTag(text)
    ensures Clean(text) == text
  {
  }

  lemma CleaningKeepsTail(s: State, text: string)
    requires After(s, text)
    ensures After(State("", false, true, s.thinking, s.answer + Clean(s.buffer)), text)
  {
    hide Tail, Thought, BeforeOpen, AfterOpen, HasTag, Find, Clean;
    var tail := Tail(text);
    var d := |tail| - |s.buffer|;
    assert tail[|tail| - 0..] == "" && tail[..|tail| - 0] == tail == tail[..d] + tail[d..];
    if !HasTag(tail) {
      NoTagInSuffix(tail, d);
      CleanKeeps(s.buffer);
      assert BeforeOpen(text) + tail[..d] + s.buffer == BeforeOpen(text) + (tail[..d] + s.buffer);
    }
  }

  lemma HoldingInside(s: State, text: string)
    requires Inside(s, text) && Find(s.buffer, CLOSE).None?
    ensures Inv(Turn(s).0, text)
  {
    var rest := AfterOpen(text).value;
    FindInBuffer(rest, s.thinking, s.buffer, CLOSE);
    HoldBackIsExact(rest, s.thinking, s.buffer, CLOSE);
    var (out, kept) := HoldBack(s.buffer, CLOSE);
    assert s.thinking + s.buffer == s.thinking + out + kept;
  }

  lemma HoldingBefore(s: State, text: string)
    requires Before(s, text) && Find(s.buffer, OPEN).None?
    ensures Inv(Turn(s).0, text)
  {
    FindInBuffer(text, s.answer, s.buffer, OPEN);
    HoldBackIsExact(text, s.answer, s.buffer, OPEN);
    var (out, kept) := HoldBack(s.buffer, OPEN);
    assert s.answer + s.buffer == s.answer + out + kept;
  }

  lemma {:induction false} DrainEstablishesInv(s: State, text: string)
    requires Pre(s, text)
    ensures Inv(Drain(s).0, text)
    decreases |s.buffer|
  {
    hide Inside, After;
    if s.inThink {
      match Find(s.buffer, CLOSE)
      case Some(i) =>
        ClosingLeavesThinking(s, text, i);
        DrainEstablishesInv(Closed(s, i), text);
      case None =>
        HoldingInside(s, text);
    } else if !s.seenThinkStart {
      match Find(s.buffer, OPEN)
      case Some(i) =>
        OpeningEntersThinking(s, text, i);
        DrainEstablishesInv(Opened(s, i), text);
      case None =>
        HoldingBefore(s, text);
    } else {
      CleaningKeepsTail(s, text);
    }
  }

  lemma ExtendBefore(s: State, text: string, chunk: string)
    requires Before(s, text)
    ensures Before(s.(buffer := s.buffer + chunk), text + chunk)
  {
    forall k | 0 <= k < |s.answer|
      ensures Refuted(text + chunk, OPEN, k)
    {
      RefutedGrows(text, chunk, OPEN, k);
    }
  }

  lemma AfterOpenGrows(text: string, chunk: string)
    requires AfterOpen(text).Some?
    ensures AfterOpen(text + chunk) == Some(AfterOpen(text).value + chunk)
    ensures BeforeOpen(text + chunk) == BeforeOpen(text)
  {
    FindIsStable(text, chunk, OPEN);
    var i := Find(text, OPEN).value;
    assert (text + chunk)[i + |OPEN|..] == text[i + |OPEN|..] + chunk;
  }

  lemma ExtendInside(s: State, text: string, chunk: string)
    requires Inside(s, text)
    ensures Inside(s.(buffer := s.buffer + chunk), text + chunk)
  {
    AfterOpenGrows(text, chunk);
    var rest := AfterOpen(text).value;
    forall k | 0 <= k < |s.thinking|
      ensures Refuted(rest + chunk, CLOSE, k)
    {
      RefutedGrows(rest, chunk, CLOSE, k);
    }
  }

  lemma TailGrows(text: string, chunk: string)
    requires AfterOpen(text).Some? && Find(AfterOpen(text).value, CLOSE).Some?
    ensures AfterOpen(text + chunk).Some? && Find(AfterOpen(text + chunk).value, CLOSE).Some?
    ensures Tail(text + chunk) == Tail(text) + chunk
    ensures Thought(text + chunk) == Thought(text)
    ensures BeforeOpen(text + chunk) == BeforeOpen(text)
  {
    AfterOpenGrows(text, chunk);
    var rest := AfterOpen(text).value;
    FindIsStable(rest, chunk, CLOSE);
    var j := Find(rest, CLOSE).value;
    assert (rest + chunk)[j + |CLOSE|..] == rest[j + |CLOSE|..] + chunk;
    assert (rest + chunk)[..j] == rest[..j];
  }

  lemma TagsPersist(text: string, more: string)
    requires HasTag(text)
    ensures HasTag(text + more)
  {
    FindIsStable(text, more, if Find(text, OPEN).Some? then OPEN else CLOSE);
  }

  lemma ExtendAfter(s: State, text: string, chunk: string)
    requires After(s, text)
    ensures After(s.(buffer := s.buffer + chunk), text + chunk)
  {
    hide Tail, Thought, BeforeOpen, HasTag, Find;
    TailGrows(text, chunk);
    var tail := Tail(text);
    var done := |tail| - |s.buffer|;
    assert (tail + chunk)[done..] == tail[done..] + chunk;
    assert (tail + chunk)[..done] == tail[..done];
    if HasTag(tail) {
      TagsPersist(tail, chunk);
    }
  }

  lemma ChunkExtends(s: State, text: string, chunk: string)
    requires Inv(s, text)
    ensures Pre(s.(buffer := s.buffer + chunk), text + chunk)
  {
    if !s.seenThinkStart {
      ExtendBefore(s, text, chunk);
    } else if s.inThink {
      ExtendInside(s, text, chunk);
    } else {
      ExtendAfter(s, text, chunk);
    }
  }

  lemma RefutedGrows(text: string, more: string, tag: string, i: nat)
    requires Refuted(text, tag, i)
    ensures Refuted(text + more, tag, i)
  {
    var j :| 0 <= j < |tag| && i + j < |text| && text[i + j] != tag[j];
    assert (text + more)[i + j] == text[i + j];
  }

  lemma {:induction false} FeedAllKeepsInv(chunks: seq<string>)
    ensures Inv(FeedAll(chunks).0, Flatten(chunks))
  {
    if chunks == [] {
      assert Find("", OPEN).None?;
    } else {
      var n := |chunks| - 1;
      var s, chunk := FeedAll(chunks[..n]).0, chunks[n];
      FeedAllKeepsInv(chunks[..n]);
      FlattenSnoc(chunks[..n], chunk);
      assert chunks[..n] + [chunk] == chunks;
      if chunk == "" {
        assert Flatten(chunks[..n]) + chunk == Flatten(chunks[..n]);
      } else {
        ChunkExtends(s, Flatten(chunks[..n]), chunk);
        DrainEstablishesInv(s.(buffer := s.buffer + chunk), Flatten(chunks));
      }
    }
  }

  // ----- Main results

  /**
    However a text is cut, between chunks the parser holds back only a proper prefix of the
    tag it waits for; at the end the thinking is the text between the first open tag and the
    next close tag, and the answer is the text around them if no tag follows the close.
   */
  lemma CuttingIsIrrelevant(chunks: seq<string>)
    ensures var s, text := FeedAll(chunks).0, Flatten(chunks);
            && s.buffer < (if s.inThink then CLOSE else OPEN)
            && Run(chunks).0.buffer == ""
            && Run(chunks).0.thinking == Thought(text)
            && (!HasTag(Tail(text)) ==> Run(chunks).0.answer == BeforeOpen(text) + Tail(text))
  {
    var s, text := FeedAll(chunks).0, Flatten(chunks);
    FeedAllKeepsInv(chunks);
    if !s.seenThinkStart {
      PrefixOfTagHasNoTag(s.buffer);
    } else if !s.inThink {
      assert Tail(text)[..|Tail(text)| - |s.buffer|] == Tail(text);
    }
  }

  lemma PrefixOfTagHasNoTag(s: string)
    requires s < OPEN
    ensures Clean(s) == s
  {
    assert |s| < |OPEN| < |CLOSE|;
    assert Find(s, CLOSE).None? && Find(s, OPEN).None?;
  }

  /**
    The exact condition on the answer: every cutting yields the text around the thinking
    if and only if no tag follows the close.
   */
  lemma AnswerIsExactWithoutLaterTags(text: string)
    ensures (forall chunks {:trigger Flatten(chunks)} :: Flatten(chunks) == text ==>
               Run(chunks).0.answer == BeforeOpen(text) + Tail(text))
       <==> !HasTag(Tail(text))
  {
    if HasTag(Tail(text)) {
      OneChunk(text);
      CleanShrinks(Tail(text));
    } else {
      forall chunks {:trigger Flatten(chunks)} | Flatten(chunks) == text
        ensures Run(chunks).0.answer == BeforeOpen(text) + Tail(text)
      {
        CuttingIsIrrelevant(chunks);
      }
    }
  }

  /** The finest cutting. */
  function Singles(text: string): (r: seq<string>)
    ensures |r| == |text| && forall i :: 0 <= i < |text| ==> r[i] == [text[i]]
  {
    seq(|text|, i requires 0 <= i < |text| => [text[i]])
  }

  lemma SinglesSnoc(text: string, c: char)
    ensures Singles(text + [c]) == Singles(text) + [[c]]
    ensures FeedAll(Singles(text + [c])).0 == FeedStep(FeedAll(Singles(text)).0, [c]).0
  {
    assert Singles(text + [c])[..|text|] == Singles(text);
  }

  lemma {:induction false} SinglesFlatten(text: string)
    ensures Flatten(Singles(text)) == text
  {
    if text != "" {
      var init, c := text[..|text| - 1], text[|text| - 1];
      assert text == init + [c];
      SinglesFlatten(init);
      SinglesSnoc(init, c);
      FlattenSnoc(Singles(init), [c]);
    }
  }

  lemma SingleHasNoTag(c: char)
    ensures !HasTag([c]) && Clean([c]) == [c]
  {
    assert |OPEN| == 7 && |CLOSE| == 8;
    assert Find([c], CLOSE).None? && Find([c], OPEN).None?;
  }

  /** Right after the character that completes the close, nothing follows it. */
  lemma TailIsNew(text: string, c: char)
    requires AfterOpen(text).None? || Find(AfterOpen(text).value, CLOSE).None?
    ensures Tail(text + [c]) == ""
  {
    var more := text + [c];
    if Tail(more) != "" {
      var i := Find(more, OPEN).value;
      var rest := AfterOpen(more).value;
      var j := Find(rest, CLOSE).value;
      assert text[i..i + |OPEN|] == more[i..i + |OPEN|];
      assert OccursAt(text, OPEN, i);
      FindIsStable(text, [c], OPEN);
      var before := AfterOpen(text).value;
      assert rest == before + [c];
      assert before[j..j + |CLOSE|] == rest[j..j + |CLOSE|];
      assert OccursAt(before, CLOSE, j);
    }
  }

  /** Fed character by character, the parser never sees a tag in what follows the close. */
  lemma {:induction false} SinglesKeepTail(text: string)
    ensures var s := FeedAll(Singles(text)).0;
            s.seenThinkStart && !s.inThink ==> s.answer == BeforeOpen(text) + Tail(text)
  {
    if text != "" {
      var init, c := text[..|text| - 1], text[|text| - 1];
      assert text == init + [c];
      SinglesKeepTail(init);
      SinglesSnoc(init, c);
      SinglesFlatten(init);
      SinglesFlatten(text);
      FeedAllKeepsInv(Singles(init));
      FeedAllKeepsInv(Singles(text));
      SinglesStep(FeedAll(Singles(init)).0, init, c);
    }
  }

  lemma SinglesStep(s: State, text: string, c: char)
    requires Inv(s, text) && Inv(FeedStep(s, [c]).0, text + [c])
    requires s.seenThinkStart && !s.inThink ==> s.answer == BeforeOpen(text) + Tail(text)
    ensures var t := FeedStep(s, [c]).0;
            t.seenThinkStart && !t.inThink ==> t.answer == BeforeOpen(text + [c]) + Tail(text + [c])
  {
    hide *;
    var t := FeedStep(s, [c]).0;
    if s.seenThinkStart && !s.inThink {
      CloseWasSeen(s, text);
      SingleAfterClose(s, c);
      TailGrows(text, [c]);
      assert BeforeOpen(text) + Tail(text) + [c] == BeforeOpen(text) + (Tail(text) + [c]);
    } else if t.seenThinkStart && !t.inThink {
      NotClosedYet(s, text);
      TailIsNew(text, c);
      ClosedWithoutTail(t, text + [c]);
    }
  }

  lemma CloseWasSeen(s: State, text: string)
    requires Inv(s, text) && s.seenThinkStart && !s.inThink
    ensures s.buffer == "" && AfterOpen(text).Some? && Find(AfterOpen(text).value, CLOSE).Some?
  {
  }

  lemma SingleAfterClose(s: State, c: char)
    requires s.seenThinkStart && !s.inThink && s.buffer == ""
    ensures FeedStep(s, [c]).0 == s.(answer := s.answer + [c])
  {
    SingleHasNoTag(c);
    assert "" + [c] == [c];
    hide Clean;
  }

  lemma ClosedWithoutTail(s: State, text: string)
    requires Inv(s, text) && s.seenThinkStart && !s.inThink && Tail(text) == ""
    ensures s.answer == BeforeOpen(text) + Tail(text)
  {
    assert !HasTag("");
    hide HasTag, Tail, Thought, AfterOpen, Find;
    assert ""[..0] == "";
  }

  lemma NotClosedYet(s: State, text: string)
    requires Inv(s, text) && !(s.seenThinkStart && !s.inThink)
    ensures AfterOpen(text).None? || Find(AfterOpen(text).value, CLOSE).None?
  {
  }

  /** Whatever follows the close, the finest cutting keeps all of it. */
  lemma SinglesAnswer(text: string)
    ensures Flatten(Singles(text)) == text && Run(Singles(text)).0.answer == BeforeOpen(text) + Tail(text)
  {
    var s := FeedAll(Singles(text)).0;
    SinglesFlatten(text);
    SinglesKeepTail(text);
    FeedAllKeepsInv(Singles(text));
    CuttingIsIrrelevant(Singles(text));
    if !(s.seenThinkStart && !s.inThink) {
      NotClosedYet(s, text);
      assert !HasTag("");
    }
  }

  /**
    The exact condition on cuttings: any two cuttings of the text give the same answer if and
    only if no tag follows the close.
   */
  lemma CuttingsAgreeIff(text: string)
    ensures (forall a, b {:trigger Flatten(a), Flatten(b)} :: Flatten(a) == text && Flatten(b) == text ==>
               Run(a).0.answer == Run(b).0.answer)
       <==> !HasTag(Tail(text))
  {
    hide Run, HasTag, Clean;
    if HasTag(Tail(text)) {
      OneChunk(text);
      CleanShrinks(Tail(text));
      SinglesAnswer(text);
      assert Flatten([text]) == text && Flatten(Singles(text)) == text;
    } else {
      forall a, b {:trigger Flatten(a), Flatten(b)} | Flatten(a) == text && Flatten(b) == text
        ensures Run(a).0.answer == Run(b).0.answer
      {
        CuttingIsIrrelevant(a);
        CuttingIsIrrelevant(b);
      }
    }
  }

  lemma CleanShrinks(text: string)
    requires HasTag(text)
    ensures |Clean(text)| < |text|
  {
    RemoveShrinks(text, CLOSE);
    RemoveShrinks(Replace(text, CLOSE, ""), OPEN);
  }

  lemma OneChunk(text: string)
    requires HasTag(Tail(text))
    ensures Flatten([text]) == text
    ensures Run([text]).0.answer == BeforeOpen(text) + Clean(Tail(text))
  {
    assert [text][..0] == [] == [text][1..];
    assert text + "" == text;
    DrainTwoTags(text);
    hide Drain, Tail, BeforeOpen, Clean, HasTag;
    assert FeedAll([]) == (INITIAL, []);
    assert FeedAll([text]).0 == FeedStep(INITIAL, text).0;
    assert INITIAL.(buffer := "" + text) == State(text, false, false, "", "");
  }

  lemma DrainTwoTags(text: string)
    requires HasTag(Tail(text))
    ensures text != ""
    ensures var s := Drain(State(text, false, false, "", "")).0;
            s.buffer == "" && s.answer == BeforeOpen(text) + Clean(Tail(text))
  {
    TaggedTailIsFound(text);
    var i := Find(text, OPEN).value;
    var rest := AfterOpen(text).value;
    var j := Find(rest, CLOSE).value;
    var s := State(text, false, false, "", "");
    var inside := State(rest, true, true, "", BeforeOpen(text));
    var after_ := State(Tail(text), false, true, rest[..j], BeforeOpen(text));
    assert "" + text[..i] == text[..i] && "" + rest[..j] == rest[..j];
    assert Opened(s, i) == inside && Closed(inside, j) == after_;
    hide HasTag, Clean, Tail, AfterOpen, BeforeOpen, Find, Drain;
    DrainOpens(s, i);
    DrainCloses(inside, j);
    DrainCleans(after_);
  }

  lemma TaggedTailIsFound(text: string)
    requires HasTag(Tail(text))
    ensures text != "" && Find(text, OPEN).Some? && AfterOpen(text).Some? && Find(AfterOpen(text).value, CLOSE).Some?
  {
    assert !HasTag("");
    hide HasTag;
  }

  lemma DrainOpens(s: State, i: nat)
    requires !s.inThink && !s.seenThinkStart && Find(s.buffer, OPEN) == Some(i)
    ensures Drain(s).0 == Drain(Opened(s, i)).0
  {
    hide Find;
  }

  lemma DrainCloses(s: State, j: nat)
    requires s.inThink && Find(s.buffer, CLOSE) == Some(j)
    ensures Drain(s).0 == Drain(Closed(s, j)).0
  {
    hide Find;
  }

  lemma DrainCleans(s: State)
    requires !s.inThink && s.seenThinkStart
    ensures Drain(s).0 == s.(answer := s.answer + Clean(s.buffer), buffer := "")
  {
    hide Clean;
  }

  lemma {:induction false} TextOfConcat(a: seq<Event>, b: seq<Event>, thinking: bool)
    ensures TextOf(a + b, thinking) == TextOf(a, thinking) + TextOf(b, thinking)
  {
    if a == [] {
      assert a + b == b;
    } else {
      assert (a + b)[1..] == a[1..] + b;
      TextOfConcat(a[1..], b, thinking);
    }
  }

  /** From `s` to `t` the accumulators grew by exactly the text of `events`. */
  predicate Reported(s: State, t: State, events: seq<Event>) {
    t.thinking == s.thinking + TextOf(events, true) && t.answer == s.answer + TextOf(events, false)
  }

  lemma ReportedTrans(s: State, t: State, u: State, first: seq<Event>, second: seq<Event>)
    requires Reported(s, t, first) && Reported(t, u, second)
    ensures Reported(s, u, first + second)
  {
    TextOfConcat(first, second, true);
    TextOfConcat(first, second, false);
  }

  lemma {:induction false} DrainReports(s: State)
    ensures Reported(s, Drain(s).0, Drain(s).1)
    decreases |s.buffer|
  {
    if s.inThink && Find(s.buffer, CLOSE).Some? {
      var i := Find(s.buffer, CLOSE).value;
      DrainReports(Closed(s, i));
      EmitAlone(Thinking(s.buffer[..i]));
      ReportedTrans(s, Closed(s, i), Drain(s).0, Emit(Thinking(s.buffer[..i])), Drain(Closed(s, i)).1);
    } else if !s.inThink && !s.seenThinkStart && Find(s.buffer, OPEN).Some? {
      var i := Find(s.buffer, OPEN).value;
      DrainReports(Opened(s, i));
      EmitAlone(Delta(s.buffer[..i]));
      ReportedTrans(s, Opened(s, i), Drain(s).0, Emit(Delta(s.buffer[..i])), Drain(Opened(s, i)).1);
    } else if s.inThink {
      EmitAlone(Thinking(HoldBack(s.buffer, CLOSE).0));
    } else if !s.seenThinkStart {
      EmitAlone(Delta(HoldBack(s.buffer, OPEN).0));
    } else {
      EmitAlone(Delta(Clean(s.buffer)));
    }
  }

  lemma EmitAlone(event: Event)
    ensures TextOf(Emit(event), event.Thinking?) == event.text
    ensures TextOf(Emit(event), !event.Thinking?) == ""
  {
    assert event.text != "" ==> Emit(event)[1..] == [];
  }

  /** The events sent to the client concatenate to what is stored. */
  lemma {:induction false} EventsAreTheAccumulators(chunks: seq<string>)
    ensures Reported(INITIAL, FeedAll(chunks).0, FeedAll(chunks).1)
    ensures Reported(INITIAL, Run(chunks).0, Run(chunks).1)
  {
    var (s, events) := FeedAll(chunks);
    if chunks != [] {
      var n := |chunks| - 1;
      EventsAreTheAccumulators(chunks[..n]);
      var s0 := FeedAll(chunks[..n]).0;
      DrainReports(s0.(buffer := s0.buffer + chunks[n]));
      ReportedTrans(INITIAL, s0, s, FeedAll(chunks[..n]).1, FeedStep(s0, chunks[n]).1);
    }
    EmitAlone(Thinking(s.buffer));
    EmitAlone(Delta(Clean(s.buffer)));
    ReportedTrans(INITIAL, s, FinalStep(s).0, events, FinalStep(s).1);
  }

  // ----- The tags, spelled out

  /** `tag` occurs in `a + tag + b` first between the two. */
  ghost predicate FirstBetween(a: string, tag: string) {
    forall k: nat :: k < |a| ==> !OccursAt(a + tag, tag, k)
  }

  /**
    However the text is cut: what is between the first "<think>" and the next "</think>" is the
    thinking, and the answer is what surrounds them, if it holds no further tag behind them.
   */
  lemma TagsAreSpelled(chunks: seq<string>, a: string, b: string, c: string)
    requires Flatten(chunks) == a + "<think>" + (b + "</think>" + c)
    requires FirstBetween(a, "<think>") && FirstBetween(b, "</think>")
    requires forall k: nat :: !OccursAt(c, "<think>", k) && !OccursAt(c, "</think>", k)
    ensures Run(chunks).0.thinking == b && Run(chunks).0.answer == a + c
  {
    var rest := b + "</think>" + c;
    var text := a + "<think>" + rest;
    FoundBetween(a, "<think>", rest);
    FoundBetween(b, "</think>", c);
    hide FirstBetween;
    assert text[|a| + |OPEN|..] == rest && text[..|a|] == a;
    assert rest[|b| + |CLOSE|..] == c && rest[..|b|] == b;
    assert AfterOpen(text) == Some(rest) && BeforeOpen(text) == a && Thought(text) == b && Tail(text) == c;
    assert !HasTag(c);
    hide AfterOpen, BeforeOpen, Thought, Tail, HasTag, Run, FeedAll;
    CuttingIsIrrelevant(chunks);
  }

  lemma FoundBetween(a: string, tag: string, b: string)
    requires tag != "" && FirstBetween(a, tag)
    ensures Find(a + tag + b, tag) == Some(|a|)
  {
    var text := a + tag + b;
    assert text[|a|..|a| + |tag|] == tag;
    assert OccursAt(text, tag, |a|);
    forall k: nat | k < |a|
      ensures !OccursAt(text, tag, k)
    {
      assert !OccursAt(a + tag, tag, k);
      assert text[k..k + |tag|] == (a + tag)[k..k + |tag|];
    }
  }

  /** Behind the close, a tag is deleted from a piece that holds it, and nothing else. */
  lemma TagsAreDeleted(a: string, b: string, tag: string)
    requires tag == "<think>" || tag == "</think>"
    requires FirstBetween(a, tag) && !HasTag(a + b) && !HasTag(b)
    requires tag == "<think>" ==> Find(a + tag + b, "</think>").None?
    ensures Clean(a + tag + b) == a + b
  {
    DeletedBetween(a, b, tag);
    hide FirstBetween;
    if tag == "<think>" {
      NothingToDelete(a + tag + b, "</think>");
    } else {
      NothingToDelete(a + b, "<think>");
    }
    hide Find, HasTag;
  }

  lemma DeletedBetween(a: string, b: string, tag: string)
    requires tag != "" && FirstBetween(a, tag) && Find(b, tag).None?
    ensures Replace(a + tag + b, tag, "") == a + b
  {
    var text := a + tag + b;
    FoundBetween(a, tag, b);
    NothingToDelete(b, tag);
    assert text[..|a|] == a && text[|a| + |tag|..] == b && a + "" == a;
    hide FirstBetween, Find;
  }

  lemma NothingToDelete(text: string, tag: string)
    requires tag != "" && Find(text, tag).None?
    ensures Replace(text, tag, "") == text
  {
    hide Find;
  }

  // ----- Main result: the order of the events

  predicate AllThinking(events: seq<Event>) {
    forall i :: 0 <= i < |events| ==> events[i].Thinking? && events[i].text != ""
  }

  predicate AllDelta(events: seq<Event>) {
    forall i :: 0 <= i < |events| ==> events[i].Delta? && events[i].text != ""
  }

  /** Answer, then thinking, then answer, as far as the state has come; the first part is `before`. */
  ghost predicate Phased(events: seq<Event>, s: State, before: string) {
    exists a, t, b {:trigger AllDelta(a), AllThinking(t), AllDelta(b)} ::
      && events == a + t + b && AllDelta(a) && AllThinking(t) && AllDelta(b)
      && (!s.seenThinkStart ==> t == [] && b == [])
      && (s.inThink ==> s.seenThinkStart && b == [])
      && (s.seenThinkStart ==> TextOf(a, false) == before)
  }

  lemma {:induction false} DrainPhases(s: State, text: string, events: seq<Event>)
    requires Pre(s, text) && Reported(INITIAL, s, events) && Phased(events, s, BeforeOpen(text))
    ensures Phased(events + Drain(s).1, Drain(s).0, BeforeOpen(text))
    decreases |s.buffer|
  {
    hide *;
    var (t, now, more) := Turn(s);
    TurnShrinks(s);
    TurnReports(s);
    ReportedTrans(INITIAL, s, t, events, now);
    TurnKeepsPre(s, text);
    TurnPhases(s, text, events);
    DrainUnfolds(s);
    if more {
      DrainPhases(t, text, events + now);
      assert events + now + Drain(t).1 == events + (now + Drain(t).1);
    }
  }

  lemma TurnShrinks(s: State)
    ensures Turn(s).2 ==> |Turn(s).0.buffer| < |s.buffer|
  {
    hide HoldBack, Clean, Find;
  }

  lemma TurnKeepsPre(s: State, text: string)
    requires Pre(s, text)
    ensures Turn(s).2 ==> Pre(Turn(s).0, text)
  {
    hide Inside, After, Before, HoldBack, Clean, Find;
    PreDecides(s, text);
    if s.inThink {
      if Find(s.buffer, CLOSE).Some? {
        ClosingLeavesThinking(s, text, Find(s.buffer, CLOSE).value);
      }
    } else if !s.seenThinkStart && Find(s.buffer, OPEN).Some? {
      OpeningEntersThinking(s, text, Find(s.buffer, OPEN).value);
    }
  }

  /** The flags decide which description of the state applies. */
  lemma PreDecides(s: State, text: string)
    requires Pre(s, text)
    ensures s.inThink ==> s.seenThinkStart
    ensures s.inThink ==> s.answer == BeforeOpen(text)
  {
    hide BeforeOpen, AfterOpen, Refuted, Tail, Thought, HasTag;
  }

  lemma DrainUnfolds(s: State)
    ensures var (t, now, more) := Turn(s);
            Drain(s) == if more then (Drain(t).0, now + Drain(t).1) else (t, now)
  {
    hide Turn;
  }

  lemma TurnReports(s: State)
    ensures Reported(s, Turn(s).0, Turn(s).1)
  {
    if s.inThink {
      EmitAlone(Thinking(if Find(s.buffer, CLOSE).Some? then s.buffer[..Find(s.buffer, CLOSE).value]
                         else HoldBack(s.buffer, CLOSE).0));
    } else if !s.seenThinkStart {
      EmitAlone(Delta(if Find(s.buffer, OPEN).Some? then s.buffer[..Find(s.buffer, OPEN).value]
                      else HoldBack(s.buffer, OPEN).0));
    } else {
      EmitAlone(Delta(Clean(s.buffer)));
    }
    hide TextOf, Find, HoldBack, Clean;
  }

  /** One turn emits events of one kind, and moves on to the next phase if it goes on. */
  lemma TurnKind(s: State)
    ensures var (u, now, more) := Turn(s);
            && (s.inThink ==> AllThinking(now) && u.seenThinkStart == s.seenThinkStart && u.inThink == !more)
            && (!s.inThink ==> AllDelta(now))
            && (!s.inThink && !s.seenThinkStart ==> u.seenThinkStart == u.inThink == more)
            && (!s.inThink && s.seenThinkStart ==> u.seenThinkStart && !u.inThink && !more)
  {
    hide HoldBack, Clean, Find;
  }

  lemma PhasedOf(a: seq<Event>, t: seq<Event>, b: seq<Event>, events: seq<Event>, s: State, before: string)
    requires events == a + t + b && AllDelta(a) && AllThinking(t) && AllDelta(b)
    requires !s.seenThinkStart ==> t == [] && b == []
    requires s.inThink ==> s.seenThinkStart && b == []
    requires s.seenThinkStart ==> TextOf(a, false) == before
    ensures Phased(events, s, before)
  {
    hide AllDelta, AllThinking, TextOf;
  }

  lemma Appended(x: seq<Event>, y: seq<Event>)
    ensures AllDelta(x) && AllDelta(y) ==> AllDelta(x + y)
    ensures AllThinking(x) && AllThinking(y) ==> AllThinking(x + y)
    ensures AllDelta([]) && AllThinking([]) && x + [] == x && [] + x == x
  {
  }

  lemma SeqOfThree(a: seq<Event>, t: seq<Event>, b: seq<Event>, c: seq<Event>)
    ensures a + t + b + c == a + t + (b + c)
    ensures a + t + [] + c == a + (t + c) + []
    ensures a + [] + [] + c == (a + c) + [] + []
  {
  }

  lemma TurnPhases(s: State, text: string, events: seq<Event>)
    requires Phased(events, s, BeforeOpen(text)) && Pre(s, text)
    requires Reported(INITIAL, Turn(s).0, events + Turn(s).1)
    requires Turn(s).2 ==> Pre(Turn(s).0, text)
    ensures Phased(events + Turn(s).1, Turn(s).0, BeforeOpen(text))
  {
    var before := BeforeOpen(text);
    var (u, now, more) := Turn(s);
    var a, t, b :| && events == a + t + b && AllDelta(a) && AllThinking(t) && AllDelta(b)
                   && (!s.seenThinkStart ==> t == [] && b == [])
                   && (s.inThink ==> s.seenThinkStart && b == [])
                   && (s.seenThinkStart ==> TextOf(a, false) == before);
    ReportedAnswer(u, events + now);
    hide *;
    TurnKind(s);
    SeqOfThree(a, t, b, now);
    Appended(a, now);
    Appended(t, now);
    Appended(b, now);
    if more {
      PreDecides(u, text);
    }
    if !s.seenThinkStart {
      PreDecides(s, text);
      Appended(a + now, []);
      PhasedOf(a + now, [], [], events + now, u, before);
    } else if s.inThink {
      PhasedOf(a, t + now, [], events + now, u, before);
    } else {
      PhasedOf(a, t, b + now, events + now, u, before);
    }
  }

  lemma ReportedAnswer(s: State, events: seq<Event>)
    requires Reported(INITIAL, s, events)
    ensures s.answer == TextOf(events, false) && s.thinking == TextOf(events, true)
  {
    hide TextOf;
  }

  lemma {:induction false} FeedAllPhases(chunks: seq<string>)
    ensures Phased(FeedAll(chunks).1, FeedAll(chunks).0, BeforeOpen(Flatten(chunks)))
  {
    if chunks == [] {
      NothingFed();
    } else {
      hide *;
      var n := |chunks| - 1;
      FeedAllPhases(chunks[..n]);
      LastFed(chunks);
      FeedAllUnfolds(chunks);
      var (s, events) := FeedAll(chunks[..n]);
      FeedAllKeepsInv(chunks[..n]);
      EventsAreTheAccumulators(chunks[..n]);
      FeedPhases(s, Flatten(chunks[..n]), events, chunks[n]);
    }
  }

  lemma NothingFed()
    ensures Phased(FeedAll([]).1, FeedAll([]).0, BeforeOpen(Flatten([])))
  {
    Appended([], []);
    PhasedOf([], [], [], [], INITIAL, BeforeOpen(Flatten([])));
    hide Phased, BeforeOpen, Flatten;
  }

  lemma LastFed(chunks: seq<string>)
    requires chunks != []
    ensures var n := |chunks| - 1; Flatten(chunks) == Flatten(chunks[..n]) + chunks[n]
  {
    var n := |chunks| - 1;
    assert chunks[..n] + [chunks[n]] == chunks;
    FlattenSnoc(chunks[..n], chunks[n]);
  }

  lemma FeedAllUnfolds(chunks: seq<string>)
    requires chunks != []
    ensures var n := |chunks| - 1;
            var (s, events) := FeedAll(chunks[..n]);
            FeedAll(chunks) == (FeedStep(s, chunks[n]).0, events + FeedStep(s, chunks[n]).1)
  {
    hide FeedStep;
  }

  lemma FeedPhases(s: State, text: string, events: seq<Event>, chunk: string)
    requires Inv(s, text) && Reported(INITIAL, s, events) && Phased(events, s, BeforeOpen(text))
    ensures Phased(events + FeedStep(s, chunk).1, FeedStep(s, chunk).0, BeforeOpen(text + chunk))
  {
    PhasesExtend(events, s, text, chunk);
    hide Inv, Phased, Drain, BeforeOpen;
    if chunk == "" {
      assert events + [] == events && text + "" == text;
    } else {
      ChunkExtends(s, text, chunk);
      var extended := s.(buffer := s.buffer + chunk);
      assert Reported(INITIAL, extended, events);
      hide Reported, Pre;
      DrainPhases(extended, text + chunk, events);
    }
  }

  lemma PhasesExtend(events: seq<Event>, s: State, text: string, chunk: string)
    requires Phased(events, s, BeforeOpen(text)) && Inv(s, text)
    ensures Phased(events, s.(buffer := s.buffer + chunk), BeforeOpen(text + chunk))
  {
    if s.seenThinkStart {
      AfterOpenGrows(text, chunk);
    }
    hide BeforeOpen, TextOf, Find, Tail, Thought;
  }

  /**
    However a text is cut, the events come in three phases: the answer before the thinking, the
    thinking, and the answer after it; no event is empty.
   */
  lemma EventsComeInOrder(chunks: seq<string>)
    ensures exists a, t, b {:trigger AllDelta(a), AllThinking(t), AllDelta(b)} ::
              && Run(chunks).1 == a + t + b && AllDelta(a) && AllThinking(t) && AllDelta(b)
              && TextOf(a, false) == BeforeOpen(Flatten(chunks))
              && TextOf(t, true) == Thought(Flatten(chunks))
  {
    var (s, events) := FeedAll(chunks);
    var text := Flatten(chunks);
    var last := FinalStep(s).1;
    FeedAllPhases(chunks);
    FeedAllKeepsInv(chunks);
    EventsAreTheAccumulators(chunks);
    var a, t, b :| && events == a + t + b && AllDelta(a) && AllThinking(t) && AllDelta(b)
                   && (!s.seenThinkStart ==> t == [] && b == [])
                   && (s.inThink ==> s.seenThinkStart && b == [])
                   && (s.seenThinkStart ==> TextOf(a, false) == BeforeOpen(text));
    assert Run(chunks).1 == events + last;
    hide Phased, FinalStep, Run, FeedAll, TextOf, BeforeOpen, Thought, Inv, Reported;
    SeqOfThree(a, t, b, last);
    Appended(a, last);
    Appended(t, last);
    Appended(a + last, []);
    Appended(b, []);
    LastKind(s, text);
    EndOfRun(chunks);
    if !s.seenThinkStart {
      assert Run(chunks).1 == (a + last) + [] + [];
      Appended((a + last) + [], []);
    } else if s.inThink {
      assert Run(chunks).1 == a + (t + last) + [];
      ThinkingInParts(a, t + last, []);
    } else {
      assert Run(chunks).1 == a + t + b by {
        Appended(a + t + b, []);
      }
      ThinkingInParts(a, t, b);
    }
  }

  lemma LastKind(s: State, text: string)
    requires Inv(s, text)
    ensures var last := FinalStep(s).1;
            && (s.inThink ==> AllThinking(last)) && (!s.inThink ==> AllDelta(last))
            && (s.seenThinkStart && !s.inThink ==> last == [])
  {
    hide Before, Inside, After, Clean, Find, AfterOpen;
  }

  /** Where a run ends, in terms of the whole text. */
  lemma EndOfRun(chunks: seq<string>)
    ensures var s, events, text := FeedAll(chunks).0, Run(chunks).1, Flatten(chunks);
            && TextOf(events, true) == Thought(text)
            && (!s.seenThinkStart ==> TextOf(events, false) == BeforeOpen(text) && Thought(text) == "")
            && TextOf([], true) == ""
  {
    var s, text := FeedAll(chunks).0, Flatten(chunks);
    CuttingIsIrrelevant(chunks);
    EventsAreTheAccumulators(chunks);
    FeedAllKeepsInv(chunks);
    ReportedAnswer(Run(chunks).0, Run(chunks).1);
    if !s.seenThinkStart {
      assert !HasTag("");
      assert BeforeOpen(text) + "" == BeforeOpen(text);
    }
    hide Run, FeedAll;
  }

  lemma ThinkingInParts(a: seq<Event>, t: seq<Event>, b: seq<Event>)
    requires AllDelta(a) && AllThinking(t) && AllDelta(b)
    ensures TextOf(a + t + b, true) == TextOf(t, true)
  {
    TextOfConcat(a + t, b, true);
    TextOfConcat(a, t, true);
    DeltaHasNoThinking(a);
    DeltaHasNoThinking(b);
    assert "" + TextOf(t, true) + "" == TextOf(t, true);
  }

  lemma {:induction false} DeltaHasNoThinking(a: seq<Event>)
    requires AllDelta(a)
    ensures TextOf(a, true) == ""
  {
    if a != [] {
      DeltaHasNoThinking(a[1..]);
    }
  }
}
