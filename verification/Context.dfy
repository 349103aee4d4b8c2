/**
  The context envelope of rag/pipeline/context_builder.py, and a parser for it.  Chunk content
  is arbitrary text; the envelope can be read back because escaping leaves no angle bracket.
 */
module Context {
  import opened Prelude
  import opened Strings
  import opened Types

  const ENVELOPE_OPEN := "<retrieved_context format=\"delimited_v1\" untrusted=\"true\">"
  const ENVELOPE_CLOSE := "</retrieved_context>"

  // ----- Printing

  function Digit(d: nat): char
    requires d < 10
  {
    (('0' as int) + d) as char
  }

  function Digits(n: nat): string {
    if n < 10 then [Digit(n)] else Digits(n / 10) + [Digit(n % 10)]
  }

  /** `str(n)`. */
  function Decimal(n: int): string {
    if n < 0 then "-" + Digits(-n) else Digits(n)
  }

  function CitationId(position: nat): string {
    "src-" + Decimal(position + 1)
  }

  function EscapeUntrusted(text: string): string {
    Replace(Replace(Replace(text, "&", "&amp;"), "<", "&lt;"), ">", "&gt;")
  }

  function RenderSourceBlock(chunk: Chunk, citation: string): string {
    "<source id=\"" + citation + "\" document_id=\"" + chunk.documentId + "\" chunk_id=\"" + chunk.chunkId
    + "\" chunk_index=\"" + Decimal(chunk.index) + "\">\n" + EscapeUntrusted(chunk.content) + "\n</source>\n"
  }

  function AssembleText(blocks: seq<string>): string {
    if blocks == [] then "" else ENVELOPE_OPEN + "\n" + Flatten(blocks) + ENVELOPE_CLOSE
  }

  /** The blocks of the chunks at positions `from`, `from + 1`, ... of a selection. */
  function Blocks(chunks: seq<Chunk>, from: nat := 0): (r: seq<string>)
    ensures |r| == |chunks|
  {
    seq(|chunks|, i requires 0 <= i < |chunks| => RenderSourceBlock(chunks[i], CitationId(from + i)))
  }

  function ContextText(chunks: seq<Chunk>): string {
    AssembleText(Blocks(chunks))
  }

  // ----- Parsing

  datatype Parsed = Parsed(documentId: Id, chunkId: Id, index: int, content: string)

  function DigitsValue(s: string): int {
    if s == "" then 0 else 10 * DigitsValue(s[..|s| - 1]) + (s[|s| - 1] as int - '0' as int)
  }

  function DecimalValue(s: string): int {
    if s != "" && s[0] == '-' then -DigitsValue(s[1..]) else DigitsValue(s)
  }

  function Unescape(t: string): string
    decreases |t|
  {
    if t == "" then ""
    else if "&amp;" <= t then "&" + Unescape(t[5..])
    else if "&lt;" <= t then "<" + Unescape(t[4..])
    else if "&gt;" <= t then ">" + Unescape(t[4..])
    else [t[0]] + Unescape(t[1..])
  }

  function Expect(t: string, literal: string): Option<string> {
    if literal <= t then Some(t[|literal|..]) else None
  }

  /** The text before the first `stop`, and the rest. */
  function Until(t: string, stop: char): (r: (string, string))
    ensures r.0 + r.1 == t
  {
    if t == "" || t[0] == stop then ("", t)
    else
      var (a, b) := Until(t[1..], stop);
      ([t[0]] + a, b)
  }

  /** An attribute value, up to its closing quote, followed by `literal`. */
  function Attribute(t: string, literal: string): Option<(string, string)> {
    var (value, rest) := Until(t, '"');
    match Expect(rest, literal)
    case None => None
    case Some(after) => Some((value, after))
  }

  /** One source block with the citation of position `k`, and the text that follows it. */
  function ParseBlock(t: string, k: nat): Option<(Parsed, string)> {
    match Expect(t, "<source id=\"")
    case None => None
    case Some(t1) =>
      match Attribute(t1, "\" document_id=\"")
      case None => None
      case Some((citation, t2)) =>
        match Attribute(t2, "\" chunk_id=\"")
        case None => None
        case Some((documentId, t3)) =>
          match Attribute(t3, "\" chunk_index=\"")
          case None => None
          case Some((chunkId, t4)) =>
            match Attribute(t4, "\">\n")
            case None => None
            case Some((index, t5)) =>
              var (body, t6) := Until(t5, '<');
              match Expect(t6, "</source>\n")
              case None => None
              case Some(rest) =>
                if citation != CitationId(k) || body == "" then None
                else Some((Parsed(documentId, chunkId, DecimalValue(index), Unescape(body[..|body| - 1])), rest))
  }

  function ParseBlocks(t: string, k: nat): Option<seq<Parsed>>
    decreases |t|
  {
    if t == ENVELOPE_CLOSE then Some([])
    else
      match ParseBlock(t, k)
      case None => None
      case Some((first, rest)) =>
        if |rest| >= |t| then None
        else
          match ParseBlocks(rest, k + 1)
          case None => None
          case Some(others) => Some([first] + others)
  }

  function ParseContext(t: string): Option<seq<Parsed>> {
    if t == "" then Some([])
    else
      match Expect(t, ENVELOPE_OPEN + "\n")
      case None => None
      case Some(rest) => ParseBlocks(rest, 0)
  }

  // ----- Escaping is one injective map on characters

  function EscapeChar(c: char): string {
    if c == '&' then "&amp;" else if c == '<' then "&lt;" else if c == '>' then "&gt;" else [c]
  }

  function EscapeEach(text: string): string {
    if text == "" then "" else EscapeChar(text[0]) + EscapeEach(text[1..])
  }

  /** `text` with every `c` replaced. */
  function Substitute(text: string, c: char, by_: string): string {
    if text == "" then "" else (if text[0] == c then by_ else [text[0]]) + Substitute(text[1..], c, by_)
  }

  lemma {:induction false} ReplaceIsSubstitute(text: string, c: char, by_: string)
    ensures Replace(text, [c], by_) == Substitute(text, c, by_)
    decreases |text|
  {
    if text == "" {
    } else if text[0] == c {
      assert text[0..1] == [c] && text[..0] == "";
      ReplaceIsSubstitute(text[1..], c, by_);
    } else {
      ReplaceIsSubstitute(text[1..], c, by_);
      FindSkips(text, c);
      ReplaceSkips(text, c, by_);
    }
  }

  lemma ReplaceSkips(text: string, c: char, by_: string)
    requires text != "" && text[0] != c
    ensures Replace(text, [c], by_) == [text[0]] + Replace(text[1..], [c], by_)
  {
    FindSkips(text, c);
    match Find(text, [c])
    case None =>
    case Some(i) =>
      assert text[..i] == [text[0]] + text[1..][..i - 1];
      assert text[1..][i - 1 + 1..] == text[i + 1..];
      var tail := Replace(text[i + 1..], [c], by_);
      assert text[..i] + by_ + tail == [text[0]] + (text[1..][..i - 1] + by_ + tail);
  }

  lemma OccursOne(text: string, c: char, k: nat)
    ensures OccursAt(text, [c], k) <==> k < |text| && text[k] == c
  {
    if k < |text| {
      assert text[k..k + 1] == [text[k]];
    }
  }

  lemma FindIsFirst(text: string, c: char, i: nat)
    requires i < |text| && text[i] == c && forall k :: 0 <= k < i ==> text[k] != c
    ensures Find(text, [c]) == Some(i)
  {
    OccursOne(text, c, i);
    var j := Find(text, [c]).value;
    OccursOne(text, c, j);
  }

  lemma FindSkips(text: string, c: char)
    requires text != "" && text[0] != c
    ensures Find(text, [c]) == match Find(text[1..], [c])
                               case None => None
                               case Some(i) => Some(i + 1)
  {
    match Find(text[1..], [c])
    case None =>
      if Find(text, [c]).Some? {
        var k := Find(text, [c]).value;
        OccursOne(text, c, k);
        OccursOne(text[1..], c, k - 1);
      }
    case Some(i) =>
      OccursOne(text[1..], c, i);
      forall k | 0 <= k < i + 1
        ensures text[k] != c
      {
        if k > 0 {
          OccursOne(text[1..], c, k - 1);
        }
      }
      FindIsFirst(text, c, i + 1);
  }

  lemma {:induction false} SubstituteConcat(a: string, b: string, c: char, by_: string)
    ensures Substitute(a + b, c, by_) == Substitute(a, c, by_) + Substitute(b, c, by_)
  {
    if a == "" {
      assert a + b == b;
    } else {
      assert (a + b)[1..] == a[1..] + b;
      SubstituteConcat(a[1..], b, c, by_);
    }
  }

  lemma {:induction false} SubstituteAbsent(a: string, c: char, by_: string)
    requires c !in a
    ensures Substitute(a, c, by_) == a
  {
    if a != "" {
      SubstituteAbsent(a[1..], c, by_);
    }
  }

  lemma SubstituteOne(x: char, c: char, by_: string)
    ensures Substitute([x], c, by_) == if x == c then by_ else [x]
  {
    assert [x][1..] == "";
    assert by_ + "" == by_ && [x] + "" == [x];
  }

  /** The three replacements, one after the other, on a text that starts with `x`. */
  lemma EscapeOne(x: char)
    ensures Substitute(Substitute(Substitute([x], '&', "&amp;"), '<', "&lt;"), '>', "&gt;") == EscapeChar(x)
  {
    SubstituteOne(x, '&', "&amp;");
    SubstituteOne(x, '<', "&lt;");
    SubstituteOne(x, '>', "&gt;");
    SubstituteAbsent("&amp;", '<', "&lt;");
    SubstituteAbsent("&amp;", '>', "&gt;");
    SubstituteAbsent("&lt;", '>', "&gt;");
  }

  lemma {:induction false} EscapeIsCharacterwise(text: string)
    ensures EscapeUntrusted(text) == EscapeEach(text)
  {
    ReplaceIsSubstitute(text, '&', "&amp;");
    var s1 := Substitute(text, '&', "&amp;");
    ReplaceIsSubstitute(s1, '<', "&lt;");
    ReplaceIsSubstitute(Substitute(s1, '<', "&lt;"), '>', "&gt;");
    SubstitutionsEscape(text);
  }

  lemma {:induction false} SubstitutionsEscape(text: string)
    ensures Substitute(Substitute(Substitute(text, '&', "&amp;"), '<', "&lt;"), '>', "&gt;") == EscapeEach(text)
  {
    if text != "" {
      var x, rest := [text[0]], text[1..];
      assert text == x + rest;
      var a, b := Substitute(x, '&', "&amp;"), Substitute(rest, '&', "&amp;");
      SubstituteConcat(x, rest, '&', "&amp;");
      SubstituteConcat(a, b, '<', "&lt;");
      SubstituteConcat(Substitute(a, '<', "&lt;"), Substitute(b, '<', "&lt;"), '>', "&gt;");
      EscapeOne(text[0]);
      SubstitutionsEscape(rest);
    }
  }

  lemma {:induction false} EscapedHasNoBrackets(text: string)
    ensures '<' !in EscapeEach(text) && '>' !in EscapeEach(text)
  {
    if text != "" {
      EscapedHasNoBrackets(text[1..]);
    }
  }

  lemma {:induction false} UnescapeInverts(text: string)
    ensures Unescape(EscapeEach(text)) == text
  {
    if text != "" {
      UnescapeInverts(text[1..]);
      UnescapeOne(text[0], EscapeEach(text[1..]));
      assert text == [text[0]] + text[1..];
    }
  }

  lemma UnescapeOne(c: char, rest: string)
    ensures Unescape(EscapeChar(c) + rest) == [c] + Unescape(rest)
  {
    var t := EscapeChar(c) + rest;
    assert t[|EscapeChar(c)|..] == rest;
    assert t[0] == EscapeChar(c)[0];
    if c == '&' {
      assert t[..5] == "&amp;";
    } else if c == '<' {
      assert t[..4] == "&lt;" && t[1] == 'l';
    } else if c == '>' {
      assert t[..4] == "&gt;" && t[1] == 'g';
    }
  }

  // ----- Numbers can be read back

  lemma {:induction false} DigitsReadBack(n: nat)
    ensures DigitsValue(Digits(n)) == n && Digits(n) != ""
    ensures forall c :: c in Digits(n) ==> '0' <= c <= '9'
  {
    if n < 10 {
      assert [Digit(n)][..0] == "";
    } else {
      DigitsReadBack(n / 10);
      var s := Digits(n);
      assert s[..|s| - 1] == Digits(n / 10);
    }
  }

  lemma DecimalReadsBack(n: int)
    ensures DecimalValue(Decimal(n)) == n && '"' !in Decimal(n)
  {
    var m := if n < 0 then -n else n;
    DigitsReadBack(m);
    assert Digits(m)[0] in Digits(m);
    if n < 0 {
      assert Decimal(n)[1..] == Digits(-n);
    }
  }

  // ----- The context can be read back

  /** The canonical text of a UUID. */
  predicate IsUuid(s: string) {
    |s| == 36 && forall i :: 0 <= i < |s| ==> s[i] in "0123456789abcdef-"
  }

  lemma {:induction false} UntilStops(value: string, stop: char, rest: string)
    requires stop !in value && rest != "" && rest[0] == stop
    ensures Until(value + rest, stop) == (value, rest)
  {
    if value == "" {
      assert value + rest == rest;
    } else {
      assert (value + rest)[1..] == value[1..] + rest;
      UntilStops(value[1..], stop, rest);
      assert [value[0]] + value[1..] == value;
    }
  }

  lemma AttributeReadsBack(value: string, literal: string, rest: string)
    requires '"' !in value && literal != "" && literal[0] == '"'
    ensures Attribute(value + (literal + rest), literal) == Some((value, rest))
  {
    UntilStops(value, '"', literal + rest);
  }

  /** The text of a block from its last attribute on. */
  function BlockTail(chunk: Chunk, rest: string): string {
    EscapeUntrusted(chunk.content) + ("\n" + ("</source>\n" + rest))
  }

  function BlockText(chunk: Chunk, citation: string, rest: string): string {
    "<source id=\"" + (citation + ("\" document_id=\"" + (chunk.documentId + ("\" chunk_id=\"" + (chunk.chunkId
    + ("\" chunk_index=\"" + (Decimal(chunk.index) + ("\">\n" + BlockTail(chunk, rest)))))))))
  }

  lemma Assoc(a: string, b: string, c: string)
    ensures (a + b) + c == a + (b + c)
  {
  }

  lemma BlockIsBlockText(chunk: Chunk, citation: string, rest: string)
    ensures RenderSourceBlock(chunk, citation) + rest == BlockText(chunk, citation, rest)
  {
    hide *;
    var a1 := "<source id=\"";
    var a2 := a1 + citation;
    var a3 := a2 + "\" document_id=\"";
    var a4 := a3 + chunk.documentId;
    var a5 := a4 + "\" chunk_id=\"";
    var a6 := a5 + chunk.chunkId;
    var a7 := a6 + "\" chunk_index=\"";
    var a8 := a7 + Decimal(chunk.index);
    var a9 := a8 + "\">\n";
    var a10 := a9 + EscapeUntrusted(chunk.content);
    var b10 := "\n" + ("</source>\n" + rest);
    Unfold(chunk, citation, rest);
    assert "\n</source>\n" + rest == b10;
    Assoc(a10, "\n</source>\n", rest);
    Assoc(a9, EscapeUntrusted(chunk.content), b10);
    var b9 := BlockTail(chunk, rest);
    Assoc(a8, "\">\n", b9);
    var b8 := "\">\n" + b9;
    Assoc(a7, Decimal(chunk.index), b8);
    var b7 := Decimal(chunk.index) + b8;
    Assoc(a6, "\" chunk_index=\"", b7);
    var b6 := "\" chunk_index=\"" + b7;
    Assoc(a5, chunk.chunkId, b6);
    var b5 := chunk.chunkId + b6;
    Assoc(a4, "\" chunk_id=\"", b5);
    var b4 := "\" chunk_id=\"" + b5;
    Assoc(a3, chunk.documentId, b4);
    var b3 := chunk.documentId + b4;
    Assoc(a2, "\" document_id=\"", b3);
    Assoc(a1, citation, "\" document_id=\"" + b3);
  }

  lemma Unfold(chunk: Chunk, citation: string, rest: string)
    ensures RenderSourceBlock(chunk, citation) ==
            "<source id=\"" + citation + "\" document_id=\"" + chunk.documentId + "\" chunk_id=\"" + chunk.chunkId
            + "\" chunk_index=\"" + Decimal(chunk.index) + "\">\n" + EscapeUntrusted(chunk.content) + "\n</source>\n"
    ensures BlockTail(chunk, rest) == EscapeUntrusted(chunk.content) + ("\n" + ("</source>\n" + rest))
    ensures BlockText(chunk, citation, rest) ==
            "<source id=\"" + (citation + ("\" document_id=\"" + (chunk.documentId + ("\" chunk_id=\"" + (chunk.chunkId
            + ("\" chunk_index=\"" + (Decimal(chunk.index) + ("\">\n" + BlockTail(chunk, rest)))))))))
  {
  }

  function Expected(chunk: Chunk): Parsed {
    Parsed(chunk.documentId, chunk.chunkId, chunk.index, chunk.content)
  }

  function ExpectedAll(chunks: seq<Chunk>): (r: seq<Parsed>)
    ensures |r| == |chunks| && forall i :: 0 <= i < |r| ==> r[i] == Expected(chunks[i])
  {
    if chunks == [] then [] else [Expected(chunks[0])] + ExpectedAll(chunks[1..])
  }

  lemma ExpectedFirst(chunks: seq<Chunk>)
    requires chunks != []
    ensures ExpectedAll(chunks) == [Expected(chunks[0])] + ExpectedAll(chunks[1..])
  {
  }

  lemma BlockReadsBack(chunk: Chunk, k: nat, rest: string)
    requires IsUuid(chunk.documentId) && IsUuid(chunk.chunkId)
    ensures ParseBlock(RenderSourceBlock(chunk, CitationId(k)) + rest, k) == Some((Expected(chunk), rest))
  {
    var citation := CitationId(k);
    BlockIsBlockText(chunk, citation, rest);
    DecimalReadsBack(chunk.index);
    DecimalReadsBack(k + 1);
    BodyReadsBack(chunk, rest);
    var t5 := BlockTail(chunk, rest);
    hide Until, Decimal, EscapeUntrusted, Unescape, DecimalValue, BlockTail, CitationId, Attribute, RenderSourceBlock;
    var t4 := Decimal(chunk.index) + ("\">\n" + t5);
    var t3 := chunk.chunkId + ("\" chunk_index=\"" + t4);
    var t2 := chunk.documentId + ("\" chunk_id=\"" + t3);
    var t1 := citation + ("\" document_id=\"" + t2);
    CitationHasNoQuote(k);
    AttributeReadsBack(Decimal(chunk.index), "\">\n", t5);
    AttributeReadsBack(chunk.chunkId, "\" chunk_index=\"", t4);
    AttributeReadsBack(chunk.documentId, "\" chunk_id=\"", t3);
    AttributeReadsBack(citation, "\" document_id=\"", t2);
    assert Expect("<source id=\"" + t1, "<source id=\"") == Some(t1);
  }

  lemma CitationHasNoQuote(k: nat)
    ensures '"' !in CitationId(k)
  {
    DecimalReadsBack(k + 1);
  }

  lemma BodyReadsBack(chunk: Chunk, rest: string)
    ensures var (body, t6) := Until(BlockTail(chunk, rest), '<');
            && Expect(t6, "</source>\n") == Some(rest)
            && body != "" && Unescape(body[..|body| - 1]) == chunk.content
  {
    var escaped := EscapeUntrusted(chunk.content);
    EscapeIsCharacterwise(chunk.content);
    EscapedHasNoBrackets(chunk.content);
    UnescapeInverts(chunk.content);
    Assoc(escaped, "\n", "</source>\n" + rest);
    UntilStops(escaped + "\n", '<', "</source>\n" + rest);
    assert (escaped + "\n")[..|escaped|] == escaped;
  }

  lemma {:induction false} BlocksReadBack(chunks: seq<Chunk>, k: nat)
    requires forall c :: c in chunks ==> IsUuid(c.documentId) && IsUuid(c.chunkId)
    ensures ParseBlocks(Flatten(Blocks(chunks, k)) + ENVELOPE_CLOSE, k)
         == Some(ExpectedAll(chunks))
  {
    if chunks == [] {
      assert Blocks(chunks, k) == [] && "" + ENVELOPE_CLOSE == ENVELOPE_CLOSE;
    } else {
      hide *;
      var block := RenderSourceBlock(chunks[0], CitationId(k));
      var tail := Flatten(Blocks(chunks[1..], k + 1));
      var rest := tail + ENVELOPE_CLOSE;
      FirstBlock(chunks, k);
      Assoc(block, tail, ENVELOPE_CLOSE);
      BlockReadsBack(chunks[0], k, rest);
      BlockIsNotClose(chunks[0], k, rest);
      BlocksReadBack(chunks[1..], k + 1);
      ParseOneMore(block + rest, k, Expected(chunks[0]), rest, ExpectedAll(chunks[1..]));
      ExpectedFirst(chunks);
    }
  }

  lemma FirstBlock(chunks: seq<Chunk>, k: nat)
    requires chunks != []
    ensures Flatten(Blocks(chunks, k))
         == RenderSourceBlock(chunks[0], CitationId(k)) + Flatten(Blocks(chunks[1..], k + 1))
  {
    hide RenderSourceBlock, CitationId;
    assert Blocks(chunks, k)[1..] == Blocks(chunks[1..], k + 1);
  }

  lemma ParseOneMore(t: string, k: nat, first: Parsed, rest: string, others: seq<Parsed>)
    requires t != ENVELOPE_CLOSE && |rest| < |t|
    requires ParseBlock(t, k) == Some((first, rest)) && ParseBlocks(rest, k + 1) == Some(others)
    ensures ParseBlocks(t, k) == Some([first] + others)
  {
    hide ParseBlock;
  }

  lemma BlockIsNotClose(chunk: Chunk, k: nat, rest: string)
    ensures var t := RenderSourceBlock(chunk, CitationId(k)) + rest; t != ENVELOPE_CLOSE && |rest| < |t|
  {
    BlockIsBlockText(chunk, CitationId(k), rest);
    hide RenderSourceBlock;
    assert BlockText(chunk, CitationId(k), rest)[1] == 's';
    assert ENVELOPE_CLOSE[1] == '/';
    BlockIsBlockText(chunk, CitationId(k), "");
  }

  /**
    Whatever the chunks contain, the parser recovers exactly their identifiers, positions
    and contents, in order.
   */
  lemma ContextReadsBack(chunks: seq<Chunk>)
    requires forall c :: c in chunks ==> IsUuid(c.documentId) && IsUuid(c.chunkId)
    ensures ParseContext(ContextText(chunks))
         == Some(ExpectedAll(chunks))
  {
    if chunks != [] {
      BlocksReadBack(chunks, 0);
      var head := ENVELOPE_OPEN + "\n";
      Assoc(head, Flatten(Blocks(chunks)), ENVELOPE_CLOSE);
      hide ParseBlocks, Flatten, Blocks;
      assert Expect(head + (Flatten(Blocks(chunks)) + ENVELOPE_CLOSE), head)
          == Some(Flatten(Blocks(chunks)) + ENVELOPE_CLOSE);
    } else {
      assert Blocks(chunks) == [];
    }
  }
}
