/**
 The image envelope at the end of a prompt (apps/server/src/images/prompt.ts): printed after the caption, read back for
 display, and stripped of its instruction line. A row is the JSON text of one image; `parse` stands for JSON.parse with the
 attachment schema.
 */
module ImagePrompt {
  import opened Common
  import opened Text

  const OPEN := "<agent-console-images>"
  const CLOSE := "</agent-console-images>"
  const PREFIX := "Inspect the attached local image files with "
  const MAX_PROMPT_IMAGES := 4

  datatype Image = Image(id: string, mediaType: string, name: string, sizeBytes: int, width: int, height: int)
  datatype Provider = Codex | Other
  datatype Shown = Shown(text: string, images: Option<seq<Image>>)
  datatype Envelope = Envelope(start: nat, rows: seq<string>)

  function Instruction(provider: Provider): string {
    PREFIX + ToolName(provider) + ANSWERING + OTHERWISE
  }

  const ANSWERING := " before answering."
  const OTHERWISE := " If you cannot open them, say so."

  function ToolName(provider: Provider): string {
    if provider == Codex then "view_image" else "Read"
  }

  function Suffix(rows: seq<string>, provider: Provider): string {
    "\n" + OPEN + "\n" + Instruction(provider) + "\n" + Join(rows) + "\n" + CLOSE
  }

  predicate EndsWith(s: string, t: string) {
    |t| <= |s| && s[|s| - |t|..] == t
  }

  /** slice(from, to), which is empty when the bounds cross. */
  function Slice(s: string, from: nat, to: nat): string
    requires from <= |s| && to <= |s|
  {
    if from <= to then s[from..to] else ""
  }

  predicate HasEnvelope(text: string) {
    LastIndexOf(text, OPEN).Some? && EndsWith(TrimEnd(text), CLOSE)
  }

  function Start(text: string): nat
    requires HasEnvelope(text)
    ensures Start(text) + |OPEN| <= |text|
  {
    LastIndexIs(text, OPEN);
    LastIndexOf(text, OPEN).value
  }

  function End(text: string): nat
    requires HasEnvelope(text)
    ensures End(text) <= |text|
  {
    LastIndexIs(text, CLOSE);
    var close := LastIndexOf(text, CLOSE);
    if close.Some? then close.value else 0
  }

  function BodyLines(text: string): (lines: seq<string>)
    requires HasEnvelope(text)
    ensures lines != []
  {
    Lines(Trim(Slice(text, Start(text) + |OPEN|, End(text))))
  }

  function EnvelopeRows(text: string): Option<Envelope> {
    if !HasEnvelope(text) then None
    else
      var lines := BodyLines(text);
      var rows := if PREFIX <= lines[0] then lines[1..] else lines;
      if rows == [] || |rows| > MAX_PROMPT_IMAGES then None else Some(Envelope(Start(text), rows))
  }

  predicate AllParse(rows: seq<string>, parse: string -> Option<Image>) {
    forall row :: row in rows ==> parse(row).Some?
  }

  function Parsed(rows: seq<string>, parse: string -> Option<Image>): seq<Image>
    requires AllParse(rows, parse)
  {
    seq(|rows|, i requires 0 <= i < |rows| => assert rows[i] in rows; parse(rows[i]).value)
  }

  /** `imagePromptDisplay` */
  function Display(text: string, parse: string -> Option<Image>): Shown {
    var envelope := EnvelopeRows(text);
    if envelope.None? || !AllParse(envelope.value.rows, parse) then Shown(text, None)
    else Shown(TrimEnd(text[..envelope.value.start]), Some(Parsed(envelope.value.rows, parse)))
  }

  /** `withoutImageInstruction` */
  function WithoutInstruction(text: string): string {
    if !HasEnvelope(text) || !(PREFIX <= BodyLines(text)[0]) then text
    else text[..Start(text) + |OPEN|] + "\n" + Join(BodyLines(text)[1..]) + "\n" + text[End(text)..]
  }

  // ---------- the shape of a text with an envelope ----------

  function Enclosed(before: string, body: string, after: string): string {
    before + OPEN + body + CLOSE + after
  }

  /** '<' only opens a tag, and the two tags differ in their second character. */
  lemma TagChars()
    ensures |OPEN| == 22 && |CLOSE| == 23
    ensures OPEN[0] == '<' && CLOSE[0] == '<' && OPEN[1] == 'a' && CLOSE[1] == '/'
    ensures forall k :: 0 < k < |OPEN| ==> OPEN[k] != '<'
    ensures forall k :: 0 < k < |CLOSE| ==> CLOSE[k] != '<'
    ensures !IsSpace(CLOSE[22])
  {
  }

  lemma TagsAreOneLine()
    ensures OneLine(OPEN) && OneLine(CLOSE) && OneLine(PREFIX)
  {
  }

  predicate Plain(s: string) {
    '\n' !in s && '<' !in s
  }

  lemma PrefixIsPlain()
    ensures Plain(PREFIX) && |PREFIX| > 2 && !IsSpace(PREFIX[0])
  {
  }

  lemma AnsweringIsPlain()
    ensures Plain(ANSWERING) && Plain(OTHERWISE)
  {
  }

  lemma PlainAppend(s: string, t: string)
    requires Plain(s) && Plain(t)
    ensures Plain(s + t) && s <= s + t
  {
  }

  lemma InstructionChars(provider: Provider)
    ensures Plain(Instruction(provider)) && PREFIX <= Instruction(provider) && Instruction(provider) != ""
    ensures !IsSpace(Instruction(provider)[0])
  {
    PrefixIsPlain();
    AnsweringIsPlain();
    assert Plain(ToolName(provider));
    PlainAppend(PREFIX, ToolName(provider));
    PlainAppend(PREFIX + ToolName(provider), ANSWERING);
    PlainAppend(PREFIX + ToolName(provider) + ANSWERING, OTHERWISE);
  }

  lemma CharAt(before: string, body: string, after: string, i: nat)
    requires |before| <= i < |Enclosed(before, body, after)|
    ensures var bodyAt, closeAt := |before| + |OPEN|, |before| + |OPEN| + |body|;
      Enclosed(before, body, after)[i]
      == if i < bodyAt then OPEN[i - |before|] else if i < closeAt then body[i - bodyAt]
         else if i < closeAt + |CLOSE| then CLOSE[i - closeAt] else after[i - closeAt - |CLOSE|]
  {
  }

  /** Where '<' stands after the opening tag: only in the body or at the start of the closing tag. */
  lemma AngleAfterOpen(before: string, body: string, after: string, i: nat)
    requires Blank(after) && |before| < i < |Enclosed(before, body, after)| && Enclosed(before, body, after)[i] == '<'
    ensures |before| + |OPEN| <= i <= |before| + |OPEN| + |body|
  {
    TagChars();
    CharAt(before, body, after, i);
  }

  lemma OpenIsLast(before: string, body: string, after: string)
    requires Blank(after) && !Contains(body, OPEN)
    ensures LastIndexOf(Enclosed(before, body, after), OPEN) == Some(|before|)
  {
    var text := Enclosed(before, body, after);
    TagChars();
    LastIndexIs(text, OPEN);
    assert text[|before|..|before| + |OPEN|] == OPEN;
    assert OccursAt(text, OPEN, |before|);
    forall i | i > |before| && OccursAt(text, OPEN, i) ensures false {
      NoOpenLater(before, body, after, i);
    }
  }

  /** An opening tag inside the body, seen from the whole text. */
  lemma OccursInBody(before: string, body: string, after: string, i: int)
    requires 0 <= i && i + |OPEN| <= |body|
    ensures OccursAt(Enclosed(before, body, after), OPEN, |before| + |OPEN| + i) <==> OccursAt(body, OPEN, i)
  {
    var at := |before| + |OPEN| + i;
    assert Enclosed(before, body, after) == before + OPEN + (body + (CLOSE + after));
    assert Enclosed(before, body, after)[at..at + |OPEN|] == body[i..i + |OPEN|];
  }

  lemma NoOpenLater(before: string, body: string, after: string, i: nat)
    requires Blank(after) && !Contains(body, OPEN) && i > |before|
    ensures !OccursAt(Enclosed(before, body, after), OPEN, i)
  {
    TagChars();
    var text := Enclosed(before, body, after);
    var bodyAt, closeAt := |before| + |OPEN|, |before| + |OPEN| + |body|;
    if OccursAt(text, OPEN, i) {
      OccursReads(text, OPEN, i, i);
      OccursReads(text, OPEN, i, i + 1);
      AngleAfterOpen(before, body, after, i);
      if i + |OPEN| <= closeAt {
        OccursInBody(before, body, after, i - bodyAt);
      } else {
        assert text[closeAt] == CLOSE[0] && text[closeAt + 1] == CLOSE[1];
        OccursReads(text, OPEN, i, closeAt);
      }
    }
  }

  lemma CloseIsLast(before: string, body: string, after: string)
    requires Blank(after)
    ensures LastIndexOf(Enclosed(before, body, after), CLOSE) == Some(|before| + |OPEN| + |body|)
  {
    var text, closeAt := Enclosed(before, body, after), |before| + |OPEN| + |body|;
    TagChars();
    LastIndexIs(text, CLOSE);
    assert text[closeAt..closeAt + |CLOSE|] == CLOSE;
    assert OccursAt(text, CLOSE, closeAt);
    forall i | i > closeAt ensures !OccursAt(text, CLOSE, i) {
      OccursReads(text, CLOSE, i, i);
      if OccursAt(text, CLOSE, i) {
        AngleAfterOpen(before, body, after, i);
      }
    }
  }

  lemma EndsClosed(before: string, body: string, after: string)
    requires Blank(after)
    ensures EndsWith(TrimEnd(Enclosed(before, body, after)), CLOSE)
  {
    TagChars();
    var inner := before + OPEN + body + CLOSE;
    assert inner[|inner| - 1] == CLOSE[22];
    TrimEndDrops(inner, after);
    assert inner[|inner| - |CLOSE|..] == CLOSE;
  }

  /** A text of this shape has the envelope one reads off it. */
  lemma EnclosedHasEnvelope(before: string, body: string, after: string)
    requires Blank(after) && !Contains(body, OPEN)
    ensures var text := Enclosed(before, body, after);
      && HasEnvelope(text) && Start(text) == |before| && End(text) == |before| + |OPEN| + |body|
      && BodyLines(text) == Lines(Trim(body))
      && text[..Start(text) + |OPEN|] == before + OPEN && text[End(text)..] == CLOSE + after && text[..Start(text)] == before
  {
    var text := Enclosed(before, body, after);
    OpenIsLast(before, body, after);
    CloseIsLast(before, body, after);
    EndsClosed(before, body, after);
    EnclosedParts(before, OPEN, body, CLOSE, after);
  }

  lemma EnclosedParts(before: string, open: string, body: string, close: string, after: string)
    ensures var text, bodyAt := before + open + body + close + after, |before| + |open|;
      && text[..|before|] == before && text[..bodyAt] == before + open
      && text[bodyAt..bodyAt + |body|] == body && text[bodyAt + |body|..] == close + after
  {
  }

  /** Every text with an envelope has this shape. */
  lemma EnvelopeIsEnclosed(text: string) returns (before: string, body: string, after: string)
    requires HasEnvelope(text)
    ensures text == Enclosed(before, body, after) && Blank(after) && !Contains(body, OPEN)
  {
    LastIndexIs(text, OPEN);
    TrimEndIs(text);
    var start, trimmed := Start(text), TrimEnd(text);
    var bodyAt, closeAt := start + |OPEN|, |trimmed| - |CLOSE|;
    assert text[closeAt..|trimmed|] == CLOSE;
    OpenBeforeClose(text, start, closeAt);
    before, body, after := text[..start], text[bodyAt..closeAt], text[|trimmed|..];
    Reassemble(text, start, bodyAt, closeAt, |trimmed|);
    NoneBehind(text, OPEN, start, bodyAt, closeAt);
  }

  lemma Reassemble(text: string, a: nat, b: nat, c: nat, d: nat)
    requires a <= b <= c <= d <= |text|
    ensures text == text[..a] + text[a..b] + text[b..c] + text[c..d] + text[d..]
  {
  }

  lemma NoAngleAfterClose(text: string, close: nat, i: nat)
    requires OccursAt(text, CLOSE, close) && Blank(text[close + |CLOSE|..]) && close < i < |text|
    ensures text[i] != '<'
  {
    TagChars();
    OccursReads(text, CLOSE, close, i);
    if i >= close + |CLOSE| {
      assert text[close + |CLOSE|..][i - close - |CLOSE|] == text[i];
    }
  }

  lemma OpenBeforeClose(text: string, open: nat, close: nat)
    requires OccursAt(text, OPEN, open) && OccursAt(text, CLOSE, close) && Blank(text[close + |CLOSE|..])
    ensures open + |OPEN| <= close
  {
    TagChars();
    if open > close {
      NoAngleAfterClose(text, close, open);
      OccursReads(text, OPEN, open, open);
    } else {
      TagsDoNotOverlap(text, open, close);
    }
  }

  /** An opening tag before a closing one ends before it. */
  lemma TagsDoNotOverlap(text: string, open: nat, close: nat)
    requires OccursAt(text, OPEN, open) && OccursAt(text, CLOSE, close) && open <= close
    ensures open + |OPEN| <= close
  {
    TagChars();
    OccursReads(text, CLOSE, close, close);
    OccursReads(text, CLOSE, close, close + 1);
    OccursReads(text, OPEN, open, close);
    OccursReads(text, OPEN, open, close + 1);
  }

  // ---------- printing, then displaying ----------

  /** A row as JSON.stringify prints it: one line, no blank ends. */
  predicate IsRow(row: string) {
    OneLine(row) && NoBlankEnds(row)
  }

  ghost predicate HasOpen(rows: seq<string>) {
    exists row :: row in rows && Contains(row, OPEN)
  }

  function Body(rows: seq<string>, provider: Provider): string {
    Framed(Instruction(provider), Join(rows))
  }

  lemma PrintedIsEnclosed(caption: string, rows: seq<string>, provider: Provider)
    ensures caption + Suffix(rows, provider) == Enclosed(caption + "\n", Body(rows, provider), "")
  {
    Regroup(caption, "\n", OPEN, Instruction(provider), Join(rows), CLOSE);
  }

  lemma Regroup(c: string, n: string, open: string, i: string, j: string, close: string)
    ensures c + (n + open + n + i + n + j + n + close) == c + n + open + (n + i + n + j + n) + close + ""
  {
  }

  lemma PlainHasNoOpen(s: string)
    requires Plain(s)
    ensures !Contains(s, OPEN)
  {
    TagChars();
    forall i ensures !OccursAt(s, OPEN, i) {
      OccursReads(s, OPEN, i, i);
      assert 0 <= i < |s| ==> s[i] in s;
    }
  }

  /** The body holds an opening tag exactly when a row does. */
  lemma BodyOpens(rows: seq<string>, provider: Provider)
    ensures Contains(Body(rows, provider), OPEN) <==> HasOpen(rows)
  {
    TagsAreOneLine();
    InstructionChars(provider);
    PlainHasNoOpen(Instruction(provider));
    JoinOccurs(rows, OPEN);
    FramedContains(Instruction(provider), Join(rows), OPEN);
  }

  lemma {:induction false} RowsJoinWithoutBlankEnds(rows: seq<string>)
    requires rows != [] && forall row :: row in rows ==> IsRow(row)
    ensures NoBlankEnds(Join(rows))
  {
    assert rows[0] in rows;
    if |rows| > 1 {
      RowsJoinWithoutBlankEnds(rows[1..]);
    }
  }

  lemma PrintedLines(rows: seq<string>, provider: Provider)
    requires rows != [] && forall row :: row in rows ==> IsRow(row)
    ensures Lines(Trim(Body(rows, provider))) == [Instruction(provider)] + rows
  {
    InstructionChars(provider);
    RowsJoinWithoutBlankEnds(rows);
    FramedTrims(Instruction(provider), Join(rows));
    FirstLine(Instruction(provider), Join(rows));
    LinesOfJoin(rows);
  }

  predicate Prints(rows: seq<string>, images: seq<Image>, parse: string -> Option<Image>) {
    && 1 <= |rows| == |images| <= MAX_PROMPT_IMAGES
    && (forall row :: row in rows ==> IsRow(row))
    && (forall i :: 0 <= i < |rows| ==> parse(rows[i]) == Some(images[i]))
  }

  lemma RoundTrip(caption: string, rows: seq<string>, images: seq<Image>, provider: Provider, parse: string -> Option<Image>)
    requires Prints(rows, images, parse) && TrimEnd(caption) == caption && !HasOpen(rows)
    ensures Display(caption + Suffix(rows, provider), parse) == Shown(caption, Some(images))
  {
    var text, body := caption + Suffix(rows, provider), Body(rows, provider);
    PrintedIsEnclosed(caption, rows, provider);
    BodyOpens(rows, provider);
    EnclosedHasEnvelope(caption + "\n", body, "");
    PrintedLines(rows, provider);
    InstructionChars(provider);
    assert EnvelopeRows(text) == Some(Envelope(|caption| + 1, rows)) by {
      assert ([Instruction(provider)] + rows)[1..] == rows;
    }
    forall row | row in rows ensures parse(row).Some? {
      var i :| 0 <= i < |rows| && rows[i] == row;
    }
    assert Parsed(rows, parse) == images;
    TrimmedCaption(caption);
  }

  lemma TrimmedCaption(caption: string)
    requires TrimEnd(caption) == caption
    ensures TrimEnd(caption + "\n") == caption
  {
    assert (caption + "\n")[..|caption|] == caption;
  }

  /** A later opening tag makes the envelope start later, so that more than the caption is shown. */
  lemma OpenInRowBreaks(caption: string, rows: seq<string>, provider: Provider, parse: string -> Option<Image>)
    requires HasOpen(rows)
    ensures Display(caption + Suffix(rows, provider), parse).text != caption
  {
    PrintedIsEnclosed(caption, rows, provider);
    BodyOpens(rows, provider);
    LaterOpenShowsMore(caption + "\n", Body(rows, provider), parse);
  }

  lemma LaterOpenShowsMore(before: string, body: string, parse: string -> Option<Image>)
    requires Contains(body, OPEN)
    ensures |Display(Enclosed(before, body, ""), parse).text| > |before|
  {
    var text := Enclosed(before, body, "");
    var i :| OccursAt(body, OPEN, i);
    TagChars();
    OccursInBody(before, body, "", i);
    LastIndexIs(text, OPEN);
    if HasEnvelope(text) {
      CharAt(before, body, "", |before|);
      TrimReaches(text[..Start(text)], |before|);
    }
  }

  /** Trimming the end stops at anything that is not blank. */
  lemma TrimReaches(s: string, i: nat)
    requires i < |s| && !IsSpace(s[i])
    ensures |TrimEnd(s)| > i
  {
    TrimEndIs(s);
    var n := |TrimEnd(s)|;
    if n <= i {
      BlankTail(s, n, i);
    }
  }

  /** What is printed after a caption is displayed again as that caption and those images exactly when no row holds the opening
      tag. The caption may hold tags; a row may hold the closing one. */
  lemma RoundTripIff(caption: string, rows: seq<string>, images: seq<Image>, provider: Provider, parse: string -> Option<Image>)
    requires Prints(rows, images, parse) && TrimEnd(caption) == caption
    ensures Display(caption + Suffix(rows, provider), parse) == Shown(caption, Some(images)) <==> !HasOpen(rows)
  {
    if HasOpen(rows) {
      OpenInRowBreaks(caption, rows, provider, parse);
    } else {
      RoundTrip(caption, rows, images, provider, parse);
    }
  }

  // ---------- without the instruction line ----------

  predicate HasInstruction(text: string) {
    HasEnvelope(text) && PREFIX <= BodyLines(text)[0]
  }

  /** What follows the instruction line in the envelope. */
  function Remainder(text: string): string
    requires HasEnvelope(text)
  {
    Join(BodyLines(text)[1..])
  }

  /** The first line of a text and the rest of it. */
  lemma CutFirstLine(s: string)
    ensures var first, rest := Lines(s)[0], Join(Lines(s)[1..]);
      if |Lines(s)| == 1 then s == first && rest == "" else s == first + "\n" + rest
  {
    JoinOfLines(s);
  }

  /** A tag in the remainder is a tag in the body. */
  lemma RemainderHasNoOpen(body: string)
    requires !Contains(body, OPEN)
    ensures !Contains(Join(Lines(Trim(body))[1..]), OPEN)
  {
    var from, to := TrimIs(body);
    var trimmed := Trim(body);
    var rest := Join(Lines(trimmed)[1..]);
    CutFirstLine(trimmed);
    if Contains(rest, OPEN) {
      assert rest == trimmed[|trimmed| - |rest|..|trimmed|];
      SliceContains(trimmed, |trimmed| - |rest|, |trimmed|, OPEN);
      SliceContains(body, from, to, OPEN);
    }
  }

  /** Stripping keeps the text around the envelope and leaves the remainder between its tags. */
  lemma StrippedIsEnclosed(text: string) returns (before: string, body: string, after: string)
    requires HasInstruction(text)
    ensures text == Enclosed(before, body, after) && Blank(after)
    ensures WithoutInstruction(text) == Enclosed(before, "\n" + Remainder(text) + "\n", after)
    ensures !Contains("\n" + Remainder(text) + "\n", OPEN)
    ensures BodyLines(text) == Lines(Trim(body)) && Start(text) == |before|
  {
    before, body, after := EnvelopeIsEnclosed(text);
    EnclosedHasEnvelope(before, body, after);
    RemainderHasNoOpen(body);
    TagsAreOneLine();
    var rest := Remainder(text);
    assert "\n" + rest + "\n" == "" + "\n" + (rest + "\n" + "");
    ContainsBesideNewline("", rest + "\n" + "", OPEN);
    ContainsBesideNewline(rest, "", OPEN);
    PlainHasNoOpen("");
    Restore(before, rest, after);
  }

  lemma Restore(before: string, rest: string, after: string)
    ensures before + OPEN + "\n" + rest + "\n" + (CLOSE + after) == Enclosed(before, "\n" + rest + "\n", after)
  {
    Reassociate(before, OPEN, "\n", rest, CLOSE, after);
  }

  lemma Reassociate(b: string, open: string, n: string, r: string, close: string, a: string)
    ensures b + open + n + r + n + (close + a) == b + open + (n + r + n) + close + a
  {
  }

  /** Stripping again looks at the remainder, trimmed. */
  lemma StrippedLines(text: string)
    requires HasInstruction(text)
    ensures HasEnvelope(WithoutInstruction(text)) && Start(WithoutInstruction(text)) == Start(text)
    ensures WithoutInstruction(text)[..Start(text)] == text[..Start(text)]
    ensures BodyLines(WithoutInstruction(text)) == Lines(Trim(Remainder(text)))
    ensures |WithoutInstruction(text)| < |text|
  {
    var before, body, after := StrippedIsEnclosed(text);
    EnclosedHasEnvelope(before, "\n" + Remainder(text) + "\n", after);
    TrimBetweenNewlines(Remainder(text));
    PrefixIsPlain();
    var from, to := TrimIs(body);
    CutFirstLine(Trim(body));
    assert |PREFIX| <= |BodyLines(text)[0]|;
    assert text[..|before|] == before;
  }

  lemma TrimBetweenNewlines(s: string)
    ensures Trim("\n" + s + "\n") == Trim(s)
  {
    var from, to := TrimIs(s);
    var t := Trim(s);
    if t == "" {
      assert Blank("\n" + s + "\n") by {
        assert s == s[..from] + s[to..];
      }
      BlankTrims("\n" + s + "\n");
    } else {
      assert "\n" + s + "\n" == ("\n" + s[..from]) + t + (s[to..] + "\n");
      TrimDrops("\n" + s[..from], t, s[to..] + "\n");
    }
  }

  lemma BlankTrims(s: string)
    requires Blank(s)
    ensures Trim(s) == ""
  {
    TrimEndDrops("", s);
    assert "" + s == s;
  }

  /** Stripping changes a text exactly when its envelope opens with the instruction line. */
  lemma StrippingChangesIff(text: string)
    ensures WithoutInstruction(text) != text <==> HasInstruction(text)
  {
    if HasInstruction(text) {
      StrippedLines(text);
    }
  }

  /** Stripping twice is stripping once, exactly when no second instruction line follows the first. */
  lemma StrippingIsIdempotentIff(text: string)
    ensures WithoutInstruction(WithoutInstruction(text)) == WithoutInstruction(text)
            <==> !(HasInstruction(text) && PREFIX <= Trim(Remainder(text)))
  {
    if HasInstruction(text) {
      var stripped := WithoutInstruction(text);
      StrippedLines(text);
      TagsAreOneLine();
      PrefixOfFirstLine(Trim(Remainder(text)), PREFIX);
      StrippingChangesIff(stripped);
    }
  }

  const ONE_INSTRUCTION := PREFIX + "x"

  /** An envelope with two instruction lines loses one at each call. */
  lemma TwoInstructionsAreStrippedInTurn()
    ensures var text := Enclosed("", Framed(ONE_INSTRUCTION, ONE_INSTRUCTION), "");
      WithoutInstruction(WithoutInstruction(text)) != WithoutInstruction(text)
  {
    var line, body := ONE_INSTRUCTION, Framed(ONE_INSTRUCTION, ONE_INSTRUCTION);
    PrefixIsPlain();
    TagsAreOneLine();
    PlainAppend(PREFIX, "x");
    PlainHasNoOpen(line);
    FramedContains(line, line, OPEN);
    EnclosedHasEnvelope("", body, "");
    assert line[0] == PREFIX[0] && line[|line| - 1] == 'x';
    FramedTrims(line, line);
    FirstLine(line, line);
    SingleLine(line);
    TrimKeeps(line);
    StrippingIsIdempotentIff(Enclosed("", body, ""));
  }

  // ---------- what is displayed ----------

  /** A row that parses is not blank, is no instruction, and parses the same without leading blanks. */
  predicate JsonRow(parse: string -> Option<Image>, row: string) {
    parse(row).Some? ==> !(PREFIX <= row) && !Blank(row) && parse(TrimStart(row)) == parse(row)
  }

  ghost predicate ParsesJson(parse: string -> Option<Image>) {
    forall row :: JsonRow(parse, row)
  }

  /** The remainder ends where the trimmed body ends. */
  lemma RemainderHasNoBlankEnd(text: string)
    requires HasInstruction(text)
    ensures TrimEnd(Remainder(text)) == Remainder(text)
    ensures forall row :: row in BodyLines(text)[1..] ==> OneLine(row)
  {
    var before, body, after := StrippedIsEnclosed(text);
    var trimmed := Trim(body);
    var from, to := TrimIs(body);
    var rest := Remainder(text);
    JoinOfLines(trimmed);
    CutFirstLine(trimmed);
    assert rest != "" ==> rest[|rest| - 1] == trimmed[|trimmed| - 1];
  }

  predicate ParseAlike(rows: seq<string>, kept: seq<string>, parse: string -> Option<Image>) {
    |kept| == |rows| && forall i :: 0 <= i < |rows| ==> parse(kept[i]) == parse(rows[i])
  }

  lemma ParsedAlike(rows: seq<string>, kept: seq<string>, parse: string -> Option<Image>)
    requires ParseAlike(rows, kept, parse) && AllParse(rows, parse)
    ensures AllParse(kept, parse) && Parsed(kept, parse) == Parsed(rows, parse)
  {
    forall row | row in kept ensures parse(row).Some? {
      var i :| 0 <= i < |kept| && kept[i] == row;
      assert rows[i] in rows;
    }
  }

  /** Images shown after an instruction line come from the lines that follow it. */
  lemma DisplayBehindInstruction(text: string, parse: string -> Option<Image>)
    requires HasInstruction(text) && Display(text, parse).images.Some?
    ensures var rows := BodyLines(text)[1..];
      && rows != [] && |rows| <= MAX_PROMPT_IMAGES && AllParse(rows, parse)
      && Display(text, parse) == Shown(TrimEnd(text[..Start(text)]), Some(Parsed(rows, parse)))
  {
  }

  lemma DisplayOfRows(text: string, parse: string -> Option<Image>)
    requires HasEnvelope(text) && !(PREFIX <= BodyLines(text)[0]) && |BodyLines(text)| <= MAX_PROMPT_IMAGES
    requires AllParse(BodyLines(text), parse)
    ensures Display(text, parse) == Shown(TrimEnd(text[..Start(text)]), Some(Parsed(BodyLines(text), parse)))
  {
  }

  /** Trimmed as the body of an envelope, rows that parse are the same rows but for blanks before the first. */
  lemma TrimmedRowsParse(rows: seq<string>, text: string, parse: string -> Option<Image>)
    requires ParsesJson(parse) && rows != [] && AllParse(rows, parse) && (forall row :: row in rows ==> OneLine(row))
    requires text == Join(rows) && TrimEnd(text) == text
    ensures var kept := Lines(Trim(text)); ParseAlike(rows, kept, parse) && !(PREFIX <= kept[0])
  {
    var first, rest := rows[0], rows[1..];
    assert first in rows && JsonRow(parse, first);
    assert rows == [first] + rest;
    TrimmedRows(first, rest, text);
    KeptParse(first, rest, parse);
  }

  lemma KeptParse(first: string, rest: seq<string>, parse: string -> Option<Image>)
    requires ParsesJson(parse) && parse(first).Some?
    ensures ParseAlike([first] + rest, [TrimStart(first)] + rest, parse) && !(PREFIX <= TrimStart(first))
  {
    assert JsonRow(parse, first) && JsonRow(parse, TrimStart(first));
  }

  lemma ShownImagesSurvive(text: string, parse: string -> Option<Image>)
    requires ParsesJson(parse) && HasInstruction(text) && Display(text, parse).images.Some?
    ensures Display(WithoutInstruction(text), parse) == Display(text, parse)
  {
    var rows := BodyLines(text)[1..];
    StrippedLines(text);
    RemainderHasNoBlankEnd(text);
    DisplayBehindInstruction(text, parse);
    TrimmedRowsParse(rows, Remainder(text), parse);
    ParsedAlike(rows, BodyLines(WithoutInstruction(text)), parse);
    DisplayOfRows(WithoutInstruction(text), parse);
  }

  /** Between one and four rows follow the instruction line, and each of them is an image. */
  predicate RowsAreImages(text: string, parse: string -> Option<Image>)
    requires HasEnvelope(text)
  {
    var rows := BodyLines(text)[1..];
    1 <= |rows| <= 4 && AllParse(rows, parse)
  }

  /** Stripping leaves what is displayed alone exactly when nothing is stripped, or the lines behind the instruction line are
      one to four rows that all parse. */
  lemma StrippingKeepsDisplayIff(text: string, parse: string -> Option<Image>)
    requires ParsesJson(parse)
    ensures Display(WithoutInstruction(text), parse) == Display(text, parse)
            <==> !HasInstruction(text) || RowsAreImages(text, parse)
  {
    StrippingChangesIff(text);
    if HasInstruction(text) && RowsAreImages(text, parse) {
      ShownImagesSurvive(text, parse);
    }
  }

  /** An instruction line and one row behind it. */
  const ONE_ROW := Enclosed("", Framed(ONE_INSTRUCTION, "x"), "")

  lemma OneRowBehindInstruction()
    ensures HasInstruction(ONE_ROW) && BodyLines(ONE_ROW) == [ONE_INSTRUCTION, "x"]
  {
    var line, body := ONE_INSTRUCTION, Framed(ONE_INSTRUCTION, "x");
    PrefixIsPlain();
    TagsAreOneLine();
    PlainAppend(PREFIX, "x");
    PlainHasNoOpen(line);
    PlainHasNoOpen("x");
    FramedContains(line, "x", OPEN);
    EnclosedHasEnvelope("", body, "");
    FramedTrims(line, "x");
    FirstLine(line, "x");
    SingleLine("x");
  }

  /** When that row is no image, nothing is shown as images, and stripping changes the text that is displayed. */
  lemma ARefusedRowIsDisplayedDifferently(parse: string -> Option<Image>)
    requires ParsesJson(parse) && parse("x").None?
    ensures Display(ONE_ROW, parse) == Shown(ONE_ROW, None)
    ensures Display(WithoutInstruction(ONE_ROW), parse) != Display(ONE_ROW, parse)
  {
    OneRowBehindInstruction();
    assert "x" in BodyLines(ONE_ROW)[1..];
    StrippingKeepsDisplayIff(ONE_ROW, parse);
  }
}
