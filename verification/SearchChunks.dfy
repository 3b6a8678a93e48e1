/** Splitting prose into index rows (apps/server/src/search/conversation-search.ts). */
module SearchChunks {
  import opened Common
  import opened Text
  import opened SearchWords

  const MAX_CHARS := 1200
  const LATE := MAX_CHARS * 55 / 100

  /** So long a word may still be moved to the next chunk as a whole. */
  const LONGEST_KEPT := MAX_CHARS - LATE - 2

  predicate Short(words: seq<string>) {
    forall word :: word in words ==> |word| <= LONGEST_KEPT
  }

  lemma ShortParts(a: seq<string>, b: seq<string>)
    ensures Short(a + b) <==> Short(a) && Short(b)
  {
    if Short(a + b) {
      forall word | word in a ensures |word| <= LONGEST_KEPT {
        assert word in a + b;
      }
      forall word | word in b ensures |word| <= LONGEST_KEPT {
        assert word in a + b;
      }
    }
  }

  /** The text with every blank left out. */
  function Ink(s: string): string {
    if s == "" then "" else if IsSpace(s[|s| - 1]) then Ink(s[..|s| - 1]) else Ink(s[..|s| - 1]) + [s[|s| - 1]]
  }

  function InkOf(chunks: seq<string>): string {
    if chunks == [] then "" else InkOf(chunks[..|chunks| - 1]) + Ink(chunks[|chunks| - 1])
  }

  /** Every chunk holds something and fits a row. */
  predicate Fit(chunks: seq<string>) {
    forall chunk :: chunk in chunks ==> 1 <= |chunk| <= MAX_CHARS
  }

  lemma {:induction false} InkAppend(s: string, t: string)
    ensures Ink(s + t) == Ink(s) + Ink(t)
    decreases |t|
  {
    if t == "" {
      assert s + t == s;
    } else {
      assert (s + t)[..|s + t| - 1] == s + t[..|t| - 1];
      InkAppend(s, t[..|t| - 1]);
    }
  }

  lemma {:induction false} BlankHasNoInk(s: string)
    requires Blank(s)
    ensures Ink(s) == ""
  {
    if s != "" {
      BlankHasNoInk(s[..|s| - 1]);
    }
  }

  lemma TrimKeepsInk(s: string)
    ensures Ink(Trim(s)) == Ink(s)
  {
    var from, to := TrimIs(s);
    assert s == s[..from] + s[from..to] + s[to..];
    InkAppend(s[..from] + s[from..to], s[to..]);
    InkAppend(s[..from], s[from..to]);
    BlankHasNoInk(s[..from]);
    BlankHasNoInk(s[to..]);
  }

  lemma {:induction false} InkOfAppend(a: seq<string>, b: seq<string>)
    ensures InkOf(a + b) == InkOf(a) + InkOf(b)
    decreases |b|
  {
    if b == [] {
      assert a + b == a;
    } else {
      assert (a + b)[..|a + b| - 1] == a + b[..|b| - 1];
      InkOfAppend(a, b[..|b| - 1]);
    }
  }

  // ---------- long paragraphs ----------

  function Later(a: Option<nat>, b: Option<nat>): Option<nat> {
    if a.None? then b else if b.None? || b.value < a.value then a else b
  }

  /** Where the window is cut: behind its last sentence end or space, unless that comes too early. */
  function CutAt(window: string): (cut: nat)
    requires |window| == MAX_CHARS
    ensures 1 <= cut <= MAX_CHARS
  {
    LastIndexIs(window, ". ");
    LastIndexIs(window, "? ");
    LastIndexIs(window, "! ");
    LastIndexIs(window, " ");
    var at := Later(Later(LastIndexOf(window, ". "), LastIndexOf(window, "? ")), Later(LastIndexOf(window, "! "), LastIndexOf(window, " ")));
    if at.Some? && at.value > LATE then at.value + 1 else MAX_CHARS
  }

  /** A sentence end is followed by its space, so the last space always wins: the cut is behind it, or at the window's end. */
  lemma CutIsBehindLastSpace(window: string)
    requires |window| == MAX_CHARS
    ensures var space := LastIndexOf(window, " ");
      CutAt(window) == if space.Some? && space.value > 660 then space.value + 1 else 1200
  {
    EndIsBeforeSpace(window, '.');
    EndIsBeforeSpace(window, '?');
    EndIsBeforeSpace(window, '!');
    assert ['.', ' '] == ". " && ['?', ' '] == "? " && ['!', ' '] == "! ";
  }

  lemma EndIsBeforeSpace(window: string, mark: char)
    ensures var end, space := LastIndexOf(window, [mark, ' ']), LastIndexOf(window, " ");
      end.Some? ==> space.Some? && end.value < space.value
  {
    LastIndexIs(window, [mark, ' ']);
    LastIndexIs(window, " ");
    var end := LastIndexOf(window, [mark, ' ']);
    if end.Some? {
      OccursReads(window, [mark, ' '], end.value, end.value + 1);
      assert OccursAt(window, " ", end.value + 1);
    }
  }

  lemma {:induction false} TrimLeavesSomething(s: string)
    requires s != "" && !IsSpace(s[0])
    ensures Trim(s) != ""
  {
    if |s| > 1 && IsSpace(s[|s| - 1]) {
      TrimLeavesSomething(s[..|s| - 1]);
    }
  }

  lemma SpaceOccurs(window: string, i: nat)
    requires i < |window|
    ensures OccursAt(window, " ", i) <==> window[i] == ' '
  {
  }

  /** Either there is a space late enough to cut at, or a word that is too long to be kept. */
  lemma LateSpaceOrLongWord(remaining: string)
    requires |remaining| > MAX_CHARS && OnlySpaces(remaining)
    ensures var space := LastIndexOf(remaining[..MAX_CHARS], " ");
      (space.Some? && space.value > LATE) || HasLong(remaining, LONGEST_KEPT + 1)
  {
    var window := remaining[..MAX_CHARS];
    LastIndexIs(window, " ");
    var space := LastIndexOf(window, " ");
    if !(space.Some? && space.value > LATE) {
      forall i | LATE + 1 <= i < MAX_CHARS ensures !IsSpace(remaining[i]) {
        SpaceOccurs(window, i);
      }
      RunIsInAWord(remaining, LATE + 1, MAX_CHARS);
    }
  }

  lemma ShortIsNotLong(s: string)
    requires Short(Words(s))
    ensures !HasLong(s, LONGEST_KEPT + 1)
  {
  }

  lemma ShortWordsLeaveASpace(remaining: string)
    requires |remaining| > MAX_CHARS && OnlySpaces(remaining) && Short(Words(remaining))
    ensures var cut := CutAt(remaining[..MAX_CHARS]); IsSpace(remaining[cut - 1])
  {
    var window := remaining[..MAX_CHARS];
    CutIsBehindLastSpace(window);
    LastIndexIs(window, " ");
    LateSpaceOrLongWord(remaining);
    ShortIsNotLong(remaining);
    SpaceOccurs(window, CutAt(window) - 1);
  }

  lemma TrimmedSpaces(s: string, from: nat, to: nat)
    requires from <= to <= |s| && OnlySpaces(s)
    ensures OnlySpaces(Trim(s[from..to]))
  {
    var i, j := TrimIs(s[from..to]);
    SliceOfSlice(s, from, to, i, j);
    var t := s[from + i..from + j];
    forall k | 0 <= k < |t| && IsSpace(t[k]) ensures t[k] == ' ' {
      assert t[k] == s[from + i + k];
    }
  }

  lemma ApartWords(a: string, b: string, whole: string)
    requires whole == a + b && Apart(a, b)
    ensures Words(a) + Words(b) == Words(whole)
  {
    WordsAppend(a, b);
  }

  lemma CutApart(s: string, cut: nat)
    requires 1 <= cut <= |s| && IsSpace(s[cut - 1])
    ensures s == s[..cut] + s[cut..] && Apart(s[..cut], s[cut..])
  {
  }

  /** A text of short words, cut behind a space, loses none and breaks none. */
  lemma CutKeepsWords(remaining: string)
    requires |remaining| > MAX_CHARS && OnlySpaces(remaining) && Short(Words(remaining))
    ensures var cut := CutAt(remaining[..MAX_CHARS]);
      var chunk, rest := Trim(remaining[..cut]), Trim(remaining[cut..]);
      Words(chunk) + Words(rest) == Words(remaining) && Short(Words(rest))
  {
    var cut := CutAt(remaining[..MAX_CHARS]);
    ShortWordsLeaveASpace(remaining);
    CutApart(remaining, cut);
    ApartWords(remaining[..cut], remaining[cut..], remaining);
    TrimKeepsWords(remaining[..cut]);
    TrimKeepsWords(remaining[cut..]);
    ShortParts(Words(remaining[..cut]), Words(remaining[cut..]));
  }

  /** The words of `remaining` are those of the chunk and of the rest, if none is too long. */
  ghost predicate WordsAreCut(remaining: string, chunk: string, rest: string) {
    OnlySpaces(remaining) ==>
      OnlySpaces(rest)
      && (Short(Words(remaining)) ==> Words(chunk) + Words(rest) == Words(remaining) && Short(Words(rest)))
  }

  /** One cut of a trimmed text: both sides are trimmed, the front is a proper chunk, the rest is shorter, no ink is lost. */
  method CutOnce(remaining: string) returns (chunk: string, rest: string)
    requires |remaining| > MAX_CHARS && !IsSpace(remaining[0])
    ensures 1 <= |chunk| <= MAX_CHARS && |rest| < |remaining|
    ensures rest != "" ==> !IsSpace(rest[0])
    ensures Ink(chunk) + Ink(rest) == Ink(remaining) && WordsAreCut(remaining, chunk, rest)
  {
    var cut := CutAt(remaining[..MAX_CHARS]);
    var front, back := remaining[..cut], remaining[cut..];
    chunk, rest := Trim(front), Trim(back);
    TrimLeavesSomething(front);
    var _, _ := TrimIs(front);
    var _, _ := TrimIs(back);
    TrimKeepsInk(front);
    TrimKeepsInk(back);
    InkAppend(front, back);
    assert front + back == remaining;
    CutWords(remaining);
  }

  lemma CutWords(remaining: string)
    requires |remaining| > MAX_CHARS
    ensures var cut := CutAt(remaining[..MAX_CHARS]); WordsAreCut(remaining, Trim(remaining[..cut]), Trim(remaining[cut..]))
  {
    if OnlySpaces(remaining) {
      TrimmedSpaces(remaining, CutAt(remaining[..MAX_CHARS]), |remaining|);
      assert remaining[CutAt(remaining[..MAX_CHARS])..] == remaining[CutAt(remaining[..MAX_CHARS])..|remaining|];
      if Short(Words(remaining)) {
        CutKeepsWords(remaining);
      }
    }
  }

  /** Moving a chunk from the text to the list moves its ink. */
  lemma MoveInk(chunks: seq<string>, chunk: string, remaining: string, rest: string)
    requires Ink(chunk) + Ink(rest) == Ink(remaining)
    ensures InkOf(chunks + [chunk]) + Ink(rest) == InkOf(chunks) + Ink(remaining)
  {
    assert (chunks + [chunk])[..|chunks|] == chunks;
    Regroup(InkOf(chunks), Ink(chunk), Ink(rest));
  }

  /** Moving a chunk moves its words. */
  lemma MoveWords(chunks: seq<string>, chunk: string, remaining: string, rest: string, whole: seq<string>)
    requires WordsOf(chunks) + Words(remaining) == whole && Words(chunk) + Words(rest) == Words(remaining)
    ensures WordsOf(chunks + [chunk]) + Words(rest) == whole
  {
    assert (chunks + [chunk])[..|chunks|] == chunks;
    Regroup(WordsOf(chunks), Words(chunk), Words(rest));
  }

  /** The paragraph has one kind of blank and no word that is too long. */
  ghost predicate Cuttable(text: string) {
    OnlySpaces(text) && Short(Words(text))
  }

  lemma TrimStaysCuttable(text: string)
    requires Cuttable(text)
    ensures Cuttable(Trim(text)) && Words(Trim(text)) == Words(text)
  {
    TrimKeepsWords(text);
    TrimmedSpaces(text, 0, |text|);
    assert text[0..|text|] == text;
  }

  method SplitLongText(text: string) returns (chunks: seq<string>)
    ensures Fit(chunks) && InkOf(chunks) == Ink(text)
    ensures Cuttable(text) ==> WordsOf(chunks) == Words(text)
  {
    chunks := [];
    var remaining := Trim(text);
    var _, _ := TrimIs(text);
    TrimKeepsInk(text);
    if Cuttable(text) { TrimStaysCuttable(text); }
    while |remaining| > MAX_CHARS
      invariant Fit(chunks) && InkOf(chunks) + Ink(remaining) == Ink(text)
      invariant remaining != "" ==> !IsSpace(remaining[0])
      invariant Cuttable(text) ==> Cuttable(remaining) && WordsOf(chunks) + Words(remaining) == Words(text)
      decreases |remaining|
    {
      var chunk, rest := CutOnce(remaining);
      MoveInk(chunks, chunk, remaining, rest);
      if Cuttable(text) { MoveWords(chunks, chunk, remaining, rest, Words(text)); }
      chunks, remaining := chunks + [chunk], rest;
    }
    if remaining != "" {
      MoveInk(chunks, remaining, remaining, "");
      if Cuttable(text) { MoveWords(chunks, remaining, remaining, "", Words(text)); }
      chunks := chunks + [remaining];
    }
  }

  // ---------- whole messages ----------

  /** normalizeWhitespace before its trim: each run of blanks becomes one space. */
  function Collapse(s: string): string {
    if s == "" then ""
    else
      var rest, c := Collapse(s[..|s| - 1]), s[|s| - 1];
      if !IsSpace(c) then rest + [c] else if rest != "" && rest[|rest| - 1] == ' ' then rest else rest + " "
  }

  function Normalize(s: string): string {
    Trim(Collapse(s))
  }

  lemma {:induction false} CollapseKeepsInk(s: string)
    ensures Ink(Collapse(s)) == Ink(s)
  {
    if s != "" {
      var rest := Collapse(s[..|s| - 1]);
      CollapseKeepsInk(s[..|s| - 1]);
      InkAppend(rest, [s[|s| - 1]]);
      InkAppend(rest, " ");
    }
  }

  lemma NormalizeKeepsInk(s: string)
    ensures Ink(Normalize(s)) == Ink(s)
  {
    CollapseKeepsInk(s);
    TrimKeepsInk(Collapse(s));
  }

  lemma {:induction false} CollapseEnds(s: string)
    ensures var r := Collapse(s); (r == "" <==> s == "") && OnlySpaces(r)
    ensures s != "" ==> (IsSpace(s[|s| - 1]) <==> Collapse(s)[|Collapse(s)| - 1] == ' ')
  {
    if s != "" {
      CollapseEnds(s[..|s| - 1]);
    }
  }

  /** A run of blanks becomes one blank, so no two words grow together. */
  lemma {:induction false} CollapseKeepsWords(s: string)
    ensures Words(Collapse(s)) == Words(s)
  {
    if s != "" {
      var init, c := s[..|s| - 1], s[|s| - 1];
      var rest := Collapse(init);
      CollapseKeepsWords(init);
      CollapseEnds(init);
      assert (rest + [c])[..|rest|] == rest && (rest + " ")[..|rest|] == rest;
    }
  }

  lemma NormalizeKeepsWords(s: string)
    ensures Words(Normalize(s)) == Words(s) && OnlySpaces(Normalize(s))
  {
    CollapseKeepsWords(s);
    CollapseEnds(s);
    TrimKeepsWords(Collapse(s));
    TrimmedSpaces(Collapse(s), 0, |Collapse(s)|);
    assert Collapse(s)[0..|Collapse(s)|] == Collapse(s);
  }

  lemma {:induction false} ParagraphsKeepWords(lines: seq<string>)
    ensures WordsOf(Paragraphs(lines)) == WordsOf(lines) && forall p :: p in Paragraphs(lines) ==> OnlySpaces(p)
  {
    if lines != [] {
      var init, last := lines[..|lines| - 1], lines[|lines| - 1];
      ParagraphsKeepWords(init);
      NormalizeKeepsWords(last);
      WordsOfAppend(Paragraphs(init), [Normalize(last)]);
      WordsOfOne(Normalize(last));
    }
  }

  /** The paragraphs: lines, normalised, without the empty ones. Splitting at runs of newlines only drops empty lines sooner. */
  function Paragraphs(lines: seq<string>): seq<string> {
    if lines == [] then []
    else
      var rest, last := Paragraphs(lines[..|lines| - 1]), Normalize(lines[|lines| - 1]);
      if last == "" then rest else rest + [last]
  }

  lemma {:induction false} ParagraphsKeepInk(lines: seq<string>)
    ensures InkOf(Paragraphs(lines)) == InkOf(lines) && forall p :: p in Paragraphs(lines) ==> p != ""
  {
    if lines != [] {
      var init, last := lines[..|lines| - 1], lines[|lines| - 1];
      ParagraphsKeepInk(init);
      NormalizeKeepsInk(last);
      InkOfAppend(Paragraphs(init), [Normalize(last)]);
    }
  }

  lemma {:induction false} JoinKeepsInk(lines: seq<string>)
    ensures Ink(Join(lines)) == InkOf(lines)
  {
    if lines != [] {
      assert lines == [lines[0]] + lines[1..];
      InkOfAppend([lines[0]], lines[1..]);
      JoinKeepsInk(lines[1..]);
      if |lines| > 1 {
        InkAppend(lines[0] + "\n", Join(lines[1..]));
        InkAppend(lines[0], "\n");
      }
    }
  }

  /** Every chunk holds something and fits a row, and together, in order, the chunks hold exactly the text's characters, blanks
      apart. Unless the text has a word of more than 538 characters, they also hold exactly its words. */
  method ChunkSearchableText(text: string) returns (chunks: seq<string>)
    ensures forall chunk :: chunk in chunks ==> 1 <= |chunk| <= 1200
    ensures InkOf(chunks) == Ink(text)
    ensures (forall word :: word in Words(text) ==> |word| <= 538) ==> WordsOf(chunks) == Words(text)
  {
    JoinOfLines(text);
    JoinKeepsInk(Lines(text));
    JoinKeepsWords(Lines(text));
    ParagraphsKeepInk(Lines(text));
    ParagraphsKeepWords(Lines(text));
    chunks := FillChunks(Paragraphs(Lines(text)));
  }

  lemma InkOfFirst(paragraphs: seq<string>, i: nat)
    requires i < |paragraphs|
    ensures InkOf(paragraphs[..i + 1]) == InkOf(paragraphs[..i]) + Ink(paragraphs[i])
  {
    assert paragraphs[..i + 1][..i] == paragraphs[..i];
  }

  lemma WordsOfFirst(paragraphs: seq<string>, i: nat)
    requires i < |paragraphs|
    ensures WordsOf(paragraphs[..i + 1]) == WordsOf(paragraphs[..i]) + Words(paragraphs[i])
  {
    assert paragraphs[..i + 1][..i] == paragraphs[..i];
  }

  lemma {:induction false} AllAreShort(paragraphs: seq<string>)
    requires Short(WordsOf(paragraphs))
    ensures forall p :: p in paragraphs ==> Short(Words(p))
  {
    if paragraphs != [] {
      var init, last := paragraphs[..|paragraphs| - 1], paragraphs[|paragraphs| - 1];
      ShortParts(WordsOf(init), Words(last));
      AllAreShort(init);
      assert forall p :: p in paragraphs ==> p in init || p == last;
    }
  }

  method FillChunks(paragraphs: seq<string>) returns (chunks: seq<string>)
    requires forall p :: p in paragraphs ==> p != "" && OnlySpaces(p)
    ensures Fit(chunks) && InkOf(chunks) == InkOf(paragraphs)
    ensures Short(WordsOf(paragraphs)) ==> WordsOf(chunks) == WordsOf(paragraphs)
  {
    if Short(WordsOf(paragraphs)) { AllAreShort(paragraphs); }
    chunks := [];
    var current := "";
    ghost var done := "";
    for i := 0 to |paragraphs|
      invariant Fit(chunks) && |current| <= MAX_CHARS
      invariant done == InkOf(paragraphs[..i]) && InkOf(chunks) + Ink(current) == done
      invariant Short(WordsOf(paragraphs)) ==> WordsOf(chunks) + Words(current) == WordsOf(paragraphs[..i])
    {
      InkOfFirst(paragraphs, i);
      WordsOfFirst(paragraphs, i);
      assert paragraphs[i] in paragraphs;
      done := done + Ink(paragraphs[i]);
      chunks, current := AddParagraph(chunks, current, paragraphs[i]);
    }
    assert paragraphs[..|paragraphs|] == paragraphs;
    chunks := Close(chunks, current);
  }

  /** One turn of the loop. */
  method AddParagraph(chunks: seq<string>, current: string, paragraph: string) returns (chunks': seq<string>, current': string)
    requires Fit(chunks) && |current| <= MAX_CHARS && paragraph != "" && OnlySpaces(paragraph)
    ensures Fit(chunks') && |current'| <= MAX_CHARS
    ensures InkOf(chunks') + Ink(current') == InkOf(chunks) + Ink(current) + Ink(paragraph)
    ensures Short(Words(paragraph)) ==> WordsOf(chunks') + Words(current') == WordsOf(chunks) + Words(current) + Words(paragraph)
  {
    if |paragraph| > MAX_CHARS {
      chunks' := Close(chunks, current);
      var parts := SplitLongText(paragraph);
      InkOfAppend(chunks', parts);
      WordsOfAppend(chunks', parts);
      chunks', current' := chunks' + parts, "";
      return;
    }
    var next := if current != "" then current + "\n" + paragraph else paragraph;
    if |next| > MAX_CHARS {
      chunks' := Close(chunks, current);
      current' := paragraph;
      return;
    }
    JoinInk(current, paragraph);
    JoinWords(current, paragraph);
    Regroup(InkOf(chunks), Ink(current), Ink(paragraph));
    Regroup(WordsOf(chunks), Words(current), Words(paragraph));
    chunks', current' := chunks, next;
  }

  /** The current chunk is done, if there is one. */
  method Close(chunks: seq<string>, current: string) returns (closed: seq<string>)
    requires Fit(chunks) && |current| <= MAX_CHARS
    ensures Fit(closed) && InkOf(closed) == InkOf(chunks) + Ink(current)
    ensures WordsOf(closed) == WordsOf(chunks) + Words(current)
  {
    closed := chunks;
    if current != "" {
      MoveInk(chunks, current, current, "");
      MoveWords(chunks, current, current, "", WordsOf(chunks) + Words(current));
      closed := chunks + [current];
    }
  }

  lemma JoinWords(current: string, paragraph: string)
    ensures Words(if current != "" then current + "\n" + paragraph else paragraph) == Words(current) + Words(paragraph)
  {
    if current != "" {
      LineApart(current, paragraph);
    }
  }

  lemma JoinInk(current: string, paragraph: string)
    ensures Ink(if current != "" then current + "\n" + paragraph else paragraph) == Ink(current) + Ink(paragraph)
  {
    InkAppend(current + "\n", paragraph);
    InkAppend(current, "\n");
  }
}
