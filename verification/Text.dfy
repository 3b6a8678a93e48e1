/** The string helpers of the source's language that several components use: trimming, searching, splitting into lines. */
module Text {
  import opened Common

  /** What trim() strips and \s matches. */
  predicate IsSpace(c: char) {
    || c == ' ' || '\t' <= c <= '\r' || c == '\U{00A0}' || c == '\U{1680}' || '\U{2000}' <= c <= '\U{200A}' || c == '\U{2028}'
    || c == '\U{2029}' || c == '\U{202F}' || c == '\U{205F}' || c == '\U{3000}' || c == '\U{FEFF}'
  }

  function TrimEnd(s: string): string {
    if s != "" && IsSpace(s[|s| - 1]) then TrimEnd(s[..|s| - 1]) else s
  }

  function TrimStart(s: string): string {
    if s != "" && IsSpace(s[0]) then TrimStart(s[1..]) else s
  }

  function Trim(s: string): string {
    TrimStart(TrimEnd(s))
  }

  predicate Blank(s: string) {
    forall i :: 0 <= i < |s| ==> IsSpace(s[i])
  }

  // ---------- trimming ----------

  /** Trimming the end cuts off exactly the blank tail. */
  lemma {:induction false} TrimEndIs(s: string)
    ensures |TrimEnd(s)| <= |s| && TrimEnd(s) == s[..|TrimEnd(s)|] && Blank(s[|TrimEnd(s)|..])
    ensures TrimEnd(s) != "" ==> !IsSpace(TrimEnd(s)[|TrimEnd(s)| - 1])
  {
    if s != "" && IsSpace(s[|s| - 1]) {
      var init := s[..|s| - 1];
      TrimEndIs(init);
      var n := |TrimEnd(init)|;
      assert s[n..] == init[n..] + [s[|s| - 1]];
    }
  }

  lemma {:induction false} TrimStartIs(s: string)
    ensures |TrimStart(s)| <= |s| && TrimStart(s) == s[|s| - |TrimStart(s)|..] && Blank(s[..|s| - |TrimStart(s)|])
    ensures TrimStart(s) != "" ==> !IsSpace(TrimStart(s)[0])
  {
    if s != "" && IsSpace(s[0]) {
      TrimStartIs(s[1..]);
      var n := |s| - |TrimStart(s[1..])|;
      assert s[..n] == [s[0]] + s[1..][..n - 1];
    }
  }

  /** A trimmed string is a slice of the original between blank ends, and has no blank ends itself. */
  lemma TrimIs(s: string) returns (from: nat, to: nat)
    ensures from <= to <= |s| && Trim(s) == s[from..to] && Blank(s[..from]) && Blank(s[to..])
    ensures Trim(s) != "" ==> !IsSpace(Trim(s)[0]) && !IsSpace(Trim(s)[|Trim(s)| - 1])
  {
    TrimEndIs(s);
    var t := TrimEnd(s);
    TrimStartIs(t);
    to := |t|;
    from := |t| - |TrimStart(t)|;
    assert s[..from] == t[..from];
  }

  /** Nothing is stripped from a string without blank ends. */
  lemma TrimKeeps(s: string)
    requires s == "" || (!IsSpace(s[0]) && !IsSpace(s[|s| - 1]))
    ensures Trim(s) == s
  {
  }

  /** Blank text around a string without blank ends is all that goes. */
  lemma {:induction false} TrimEndDrops(s: string, blank: string)
    requires Blank(blank) && (s == "" || !IsSpace(s[|s| - 1]))
    ensures TrimEnd(s + blank) == s
    decreases |blank|
  {
    if blank == "" {
      assert s + blank == s;
    } else {
      var init := blank[..|blank| - 1];
      assert (s + blank)[..|s + blank| - 1] == s + init;
      TrimEndDrops(s, init);
    }
  }

  lemma {:induction false} TrimStartDrops(blank: string, s: string)
    requires Blank(blank) && (s == "" || !IsSpace(s[0]))
    ensures TrimStart(blank + s) == s
    decreases |blank|
  {
    if blank == "" {
      assert blank + s == s;
    } else {
      assert (blank + s)[1..] == blank[1..] + s;
      TrimStartDrops(blank[1..], s);
    }
  }

  lemma TrimDrops(before: string, s: string, after: string)
    requires Blank(before) && Blank(after) && s != "" && !IsSpace(s[0]) && !IsSpace(s[|s| - 1])
    ensures Trim(before + s + after) == s
  {
    TrimEndDrops(before + s, after);
    TrimStartDrops(before, s);
  }

  lemma BlankTail(s: string, from: nat, i: nat)
    requires from <= i < |s| && Blank(s[from..])
    ensures IsSpace(s[i])
  {
    assert s[from..][i - from] == s[i];
  }

  lemma SliceOfSlice(s: string, from: nat, to: nat, i: nat, j: nat)
    requires from <= to <= |s| && i <= j <= to - from
    ensures s[from..to][i..j] == s[from + i..from + j]
  {
    var a, b := s[from..to][i..j], s[from + i..from + j];
    assert forall k :: 0 <= k < j - i ==> a[k] == b[k];
    assert a == b;
  }

  // ---------- searching ----------

  predicate OccursAt(s: string, t: string, i: int) {
    0 <= i && i + |t| <= |s| && s[i..i + |t|] == t
  }

  ghost predicate Contains(s: string, t: string) {
    exists i :: OccursAt(s, t, i)
  }

  function LastIndexFrom(s: string, t: string, i: int): Option<nat>
    requires i <= |s|
    decreases i + 1
  {
    if i < 0 then None else if OccursAt(s, t, i) then Some(i) else LastIndexFrom(s, t, i - 1)
  }

  /** `lastIndexOf` */
  function LastIndexOf(s: string, t: string): Option<nat> {
    LastIndexFrom(s, t, |s|)
  }

  lemma {:induction false} LastIndexFromIs(s: string, t: string, i: int)
    requires i <= |s|
    ensures var r := LastIndexFrom(s, t, i);
      if r.Some? then r.value <= i && OccursAt(s, t, r.value) && forall k :: r.value < k <= i ==> !OccursAt(s, t, k)
      else forall k :: k <= i ==> !OccursAt(s, t, k)
    decreases i + 1
  {
    if 0 <= i && !OccursAt(s, t, i) {
      LastIndexFromIs(s, t, i - 1);
    }
  }

  /** The answer is the greatest position, or None when there is none. */
  lemma LastIndexIs(s: string, t: string)
    ensures var r := LastIndexOf(s, t);
      if r.Some? then OccursAt(s, t, r.value) && forall k :: k > r.value ==> !OccursAt(s, t, k)
      else !Contains(s, t)
  {
    LastIndexFromIs(s, t, |s|);
  }

  /** An occurrence in s + t lies in s, or reaches into t. */
  lemma OccursInAppend(s: string, t: string, u: string, i: int)
    ensures OccursAt(s, u, i) ==> OccursAt(s + t, u, i)
    ensures OccursAt(t, u, i) ==> OccursAt(s + t, u, |s| + i)
    ensures OccursAt(s + t, u, i) && i + |u| <= |s| ==> OccursAt(s, u, i)
    ensures OccursAt(s + t, u, i) && i >= |s| ==> OccursAt(t, u, i - |s|)
  {
    if OccursAt(s, u, i) {
      assert (s + t)[i..i + |u|] == s[i..i + |u|];
    }
    if OccursAt(t, u, i) {
      assert (s + t)[|s| + i..|s| + i + |u|] == t[i..i + |u|];
    }
    if OccursAt(s + t, u, i) && i + |u| <= |s| {
      assert (s + t)[i..i + |u|] == s[i..i + |u|];
    }
    if OccursAt(s + t, u, i) && i >= |s| {
      assert (s + t)[i..i + |u|] == t[i - |s|..i - |s| + |u|];
    }
  }

  lemma OccursReads(s: string, u: string, i: int, k: int)
    ensures OccursAt(s, u, i) && i <= k < i + |u| ==> u[k - i] == s[k]
  {
  }

  // ---------- lines ----------

  predicate OneLine(s: string) {
    '\n' !in s
  }

  lemma NoNewlineAt(s: string, i: nat)
    requires OneLine(s) && i < |s|
    ensures s[i] != '\n'
  {
  }

  /** Something with no newline in it does not straddle one. */
  lemma OccursBesideNewline(s: string, t: string, u: string, i: int)
    requires OneLine(u) && u != ""
    ensures OccursAt(s + "\n" + t, u, i) <==> OccursAt(s, u, i) || OccursAt(t, u, i - |s| - 1)
  {
    var whole := s + "\n" + t;
    assert whole == s + ("\n" + t);
    OccursInAppend(s, "\n" + t, u, i);
    OccursInAppend(s + "\n", t, u, i);
    OccursInAppend(s + "\n", t, u, i - |s| - 1);
    if i <= |s| < i + |u| {
      NoNewlineAt(u, |s| - i);
      OccursReads(whole, u, i, |s|);
    }
  }

  /** A line break separates what can contain `u`. */
  lemma ContainsBesideNewline(s: string, t: string, u: string)
    requires OneLine(u) && u != ""
    ensures Contains(s + "\n" + t, u) <==> Contains(s, u) || Contains(t, u)
  {
    if i :| OccursAt(s + "\n" + t, u, i) {
      OccursBesideNewline(s, t, u, i);
    }
    if i :| OccursAt(s, u, i) {
      OccursBesideNewline(s, t, u, i);
    }
    if i :| OccursAt(t, u, i) {
      OccursBesideNewline(s, t, u, i + |s| + 1);
    }
  }

  /** A slice contains no more than the whole. */
  lemma SliceContains(s: string, from: nat, to: nat, u: string)
    requires from <= to <= |s| && Contains(s[from..to], u)
    ensures Contains(s, u)
  {
    var i :| OccursAt(s[from..to], u, i);
    SliceOfSlice(s, from, to, i, i + |u|);
    assert OccursAt(s, u, from + i);
  }

  /** Behind the last occurrence there is none. */
  lemma NoneBehind(s: string, u: string, last: nat, from: nat, to: nat)
    requires last < from <= to <= |s| && forall k :: k > last ==> !OccursAt(s, u, k)
    ensures !Contains(s[from..to], u)
  {
    forall i ensures !OccursAt(s[from..to], u, i) {
      if 0 <= i && i + |u| <= to - from {
        SliceOfSlice(s, from, to, i, i + |u|);
        assert !OccursAt(s, u, from + i);
      }
    }
  }

  /** split('\n') */
  function Lines(s: string): (lines: seq<string>)
    ensures lines != []
  {
    if s == "" then [""]
    else if s[0] == '\n' then [""] + Lines(s[1..])
    else
      var rest := Lines(s[1..]);
      [[s[0]] + rest[0]] + rest[1..]
  }

  /** join('\n') */
  function Join(lines: seq<string>): string {
    if lines == [] then "" else if |lines| == 1 then lines[0] else lines[0] + "\n" + Join(lines[1..])
  }

  lemma JoinAfter(line: string, lines: seq<string>)
    requires lines != []
    ensures Join([line] + lines) == line + "\n" + Join(lines)
  {
    assert ([line] + lines)[1..] == lines;
  }

  lemma JoinGrows(c: char, lines: seq<string>)
    requires lines != []
    ensures Join([[c] + lines[0]] + lines[1..]) == [c] + Join(lines)
  {
    if |lines| > 1 {
      JoinAfter([c] + lines[0], lines[1..]);
      ConsAppend(c, lines[0], "\n");
      ConsAppend(c, lines[0] + "\n", Join(lines[1..]));
    }
  }

  lemma ConsAppend(c: char, s: string, t: string)
    ensures [c] + s + t == [c] + (s + t)
  {
  }

  lemma {:induction false} JoinOfLines(s: string)
    ensures Join(Lines(s)) == s && forall line :: line in Lines(s) ==> OneLine(line)
  {
    if s != "" {
      JoinOfLines(s[1..]);
      var rest := Lines(s[1..]);
      assert s == [s[0]] + s[1..];
      if s[0] == '\n' {
        assert Lines(s) == [""] + rest;
        JoinAfter("", rest);
      } else {
        assert Lines(s) == [[s[0]] + rest[0]] + rest[1..];
        JoinGrows(s[0], rest);
        assert rest[0] in rest;
        assert OneLine([s[0]] + rest[0]);
      }
    }
  }

  lemma {:induction false} FirstLine(line: string, rest: string)
    requires OneLine(line)
    ensures Lines(line + "\n" + rest) == [line] + Lines(rest)
    decreases |line|
  {
    if line == "" {
      assert (line + "\n" + rest)[1..] == rest;
    } else {
      assert (line + "\n" + rest)[1..] == line[1..] + "\n" + rest;
      FirstLine(line[1..], rest);
      assert [line[0]] + line[1..] == line;
    }
  }

  lemma {:induction false} SingleLine(line: string)
    requires OneLine(line)
    ensures Lines(line) == [line]
  {
    if line != "" {
      SingleLine(line[1..]);
      assert [line[0]] + line[1..] == line;
    }
  }

  lemma {:induction false} LinesOfJoin(lines: seq<string>)
    requires lines != [] && forall line :: line in lines ==> OneLine(line)
    ensures Lines(Join(lines)) == lines
  {
    if |lines| == 1 {
      SingleLine(lines[0]);
    } else {
      LinesOfJoin(lines[1..]);
      FirstLine(lines[0], Join(lines[1..]));
    }
  }

  /** A text starts with a prefix that has no newline exactly when its first line does. */
  lemma PrefixOfFirstLine(s: string, prefix: string)
    requires OneLine(prefix)
    ensures prefix <= Lines(s)[0] <==> prefix <= s
  {
    JoinOfLines(s);
    var lines := Lines(s);
    if |lines| > 1 {
      assert s == lines[0] + "\n" + Join(lines[1..]);
      if |prefix| > |lines[0]| {
        NoNewlineAt(prefix, |lines[0]|);
        assert s[|lines[0]|] == '\n';
      }
    }
  }

  lemma {:induction false} JoinOccurs(lines: seq<string>, u: string)
    requires OneLine(u) && u != ""
    ensures Contains(Join(lines), u) <==> exists line :: line in lines && Contains(line, u)
  {
    if |lines| == 1 {
      assert lines[0] in lines;
    } else if |lines| > 1 {
      var first, rest := lines[0], Join(lines[1..]);
      JoinOccurs(lines[1..], u);
      if i :| OccursAt(Join(lines), u, i) {
        OccursBesideNewline(first, rest, u, i);
        if OccursAt(first, u, i) {
          assert first in lines;
        } else {
          assert Contains(rest, u);
          var line :| line in lines[1..] && Contains(line, u);
          assert line in lines;
        }
      }
      if line :| line in lines && Contains(line, u) {
        if line == first {
          var i :| OccursAt(first, u, i);
          OccursBesideNewline(first, rest, u, i);
        } else {
          assert line in lines[1..];
          var i :| OccursAt(rest, u, i);
          OccursBesideNewline(first, rest, u, i + |first| + 1);
        }
      }
    }
  }

  lemma {:induction false} TrimStartStaysInFirst(first: string, rest: string)
    requires !Blank(first)
    ensures TrimStart(first + rest) == TrimStart(first) + rest
    decreases |first|
  {
    if first != "" && IsSpace(first[0]) {
      assert (first + rest)[1..] == first[1..] + rest;
      assert first == [first[0]] + first[1..];
      TrimStartStaysInFirst(first[1..], rest);
    }
  }

  lemma TrimStartIsOneLine(s: string)
    requires OneLine(s)
    ensures OneLine(TrimStart(s))
  {
    TrimStartIs(s);
  }

  lemma LinesAfterFirst(first: string, rest: seq<string>)
    requires OneLine(first) && rest != [] && forall row :: row in rest ==> OneLine(row)
    ensures Lines(first + ("\n" + Join(rest))) == [first] + rest
  {
    assert first + ("\n" + Join(rest)) == first + "\n" + Join(rest);
    FirstLine(first, Join(rest));
    LinesOfJoin(rest);
  }

  /** Lines whose text has no blank end: trimming it only trims the first line's start. */
  lemma TrimmedRows(first: string, rest: seq<string>, text: string)
    requires OneLine(first) && !Blank(first) && forall row :: row in rest ==> OneLine(row)
    requires text == Join([first] + rest) && TrimEnd(text) == text
    ensures Lines(Trim(text)) == [TrimStart(first)] + rest
  {
    TrimStartIsOneLine(first);
    assert Trim(text) == TrimStart(text);
    if rest == [] {
      assert text == first;
      SingleLine(TrimStart(first));
    } else {
      JoinAfter(first, rest);
      var tail := "\n" + Join(rest);
      assert text == first + tail;
      TrimStartStaysInFirst(first, tail);
      LinesAfterFirst(TrimStart(first), rest);
    }
  }

  // ---------- two texts between newlines ----------

  function Framed(s: string, t: string): string {
    "\n" + s + "\n" + t + "\n"
  }

  lemma FramedContains(s: string, t: string, u: string)
    requires OneLine(u) && u != ""
    ensures Contains(Framed(s, t), u) <==> Contains(s, u) || Contains(t, u)
  {
    assert Framed(s, t) == "" + "\n" + (s + "\n" + (t + "\n" + ""));
    ContainsBesideNewline("", s + "\n" + (t + "\n" + ""), u);
    ContainsBesideNewline(s, t + "\n" + "", u);
    ContainsBesideNewline(t, "", u);
  }

  predicate NoBlankEnds(s: string) {
    s != "" && !IsSpace(s[0]) && !IsSpace(s[|s| - 1])
  }

  lemma FramedTrims(s: string, t: string)
    requires s != "" && !IsSpace(s[0]) && NoBlankEnds(t)
    ensures Trim(Framed(s, t)) == s + "\n" + t
  {
    var inner := s + "\n" + t;
    assert inner[0] == s[0] && inner[|inner| - 1] == t[|t| - 1];
    assert Framed(s, t) == "\n" + inner + "\n";
    TrimDrops("\n", inner, "\n");
  }
}
