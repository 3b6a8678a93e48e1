/** The words of a text, which trimming, collapsing blanks and cutting at a blank leave alone. */
module SearchWords {
  import opened Text

  function Extended(words: seq<string>, c: char): seq<string>
    requires words != []
  {
    words[..|words| - 1] + [words[|words| - 1] + [c]]
  }

  /** The longest runs without a blank, in order. */
  function Words(s: string): (words: seq<string>)
    ensures s != "" && !IsSpace(s[|s| - 1]) ==> words != []
  {
    if s == "" then []
    else
      var init, c := s[..|s| - 1], s[|s| - 1];
      if IsSpace(c) then Words(init)
      else if init == "" || IsSpace(init[|init| - 1]) then Words(init) + [[c]]
      else Extended(Words(init), c)
  }

  function WordsOf(texts: seq<string>): seq<string> {
    if texts == [] then [] else WordsOf(texts[..|texts| - 1]) + Words(texts[|texts| - 1])
  }

  /** No word goes across from `s` to `t`. */
  predicate Apart(s: string, t: string) {
    s == "" || t == "" || IsSpace(s[|s| - 1]) || IsSpace(t[0])
  }

  lemma Regroup<T>(a: seq<T>, b: seq<T>, c: seq<T>)
    ensures a + (b + c) == a + b + c
  {
  }

  lemma ExtendLater(a: seq<string>, b: seq<string>, c: char)
    requires b != []
    ensures Extended(a + b, c) == a + Extended(b, c)
  {
    assert (a + b)[..|a + b| - 1] == a + b[..|b| - 1];
    Regroup(a, b[..|b| - 1], [b[|b| - 1] + [c]]);
  }

  /** One more character: nothing for a blank, a new word behind a blank, or one more in the last word. */
  lemma WordsOneMore(s: string, c: char)
    ensures IsSpace(c) ==> Words(s + [c]) == Words(s)
    ensures !IsSpace(c) && (s == "" || IsSpace(s[|s| - 1])) ==> Words(s + [c]) == Words(s) + [[c]]
    ensures !IsSpace(c) && s != "" && !IsSpace(s[|s| - 1]) ==> Words(s + [c]) == Extended(Words(s), c)
  {
    assert (s + [c])[..|s|] == s;
  }

  ghost predicate Splits(s: string, t: string) {
    Words(s + t) == Words(s) + Words(t)
  }

  lemma BlankSplits(s: string, init: string, c: char)
    requires Splits(s, init) && IsSpace(c)
    ensures Splits(s, init + [c])
  {
    Regroup(s, init, [c]);
    WordsOneMore(s + init, c);
    WordsOneMore(init, c);
  }

  lemma NewWordSplits(s: string, init: string, c: char)
    requires Splits(s, init) && !IsSpace(c) && (s + init == "" || IsSpace((s + init)[|s + init| - 1]))
    requires init == "" || IsSpace(init[|init| - 1])
    ensures Splits(s, init + [c])
  {
    Regroup(s, init, [c]);
    WordsOneMore(s + init, c);
    WordsOneMore(init, c);
    Regroup(Words(s), Words(init), [[c]]);
  }

  lemma LongerWordSplits(s: string, init: string, c: char)
    requires Splits(s, init) && !IsSpace(c) && init != "" && !IsSpace(init[|init| - 1])
    ensures Splits(s, init + [c])
  {
    Regroup(s, init, [c]);
    assert (s + init)[|s + init| - 1] == init[|init| - 1];
    WordsOneMore(s + init, c);
    WordsOneMore(init, c);
    ExtendLater(Words(s), Words(init), c);
  }

  lemma {:induction false} ApartSplits(s: string, t: string)
    requires Apart(s, t)
    ensures Splits(s, t)
    decreases |t|
  {
    if t == "" {
      assert s + t == s && Words(s) + [] == Words(s);
    } else {
      var init, c := t[..|t| - 1], t[|t| - 1];
      ApartSplits(s, init);
      assert t == init + [c];
      if IsSpace(c) {
        BlankSplits(s, init, c);
      } else if init == "" || IsSpace(init[|init| - 1]) {
        LastOf(s, init);
        NewWordSplits(s, init, c);
      } else {
        LongerWordSplits(s, init, c);
      }
    }
  }

  lemma LastOf(s: string, t: string)
    ensures s + t != "" ==> (s + t)[|s + t| - 1] == if t == "" then s[|s| - 1] else t[|t| - 1]
  {
    assert t == "" ==> s + t == s;
  }

  lemma WordsAppend(s: string, t: string)
    requires Apart(s, t)
    ensures Words(s + t) == Words(s) + Words(t)
  {
    ApartSplits(s, t);
  }

  lemma {:induction false} BlankHasNoWords(s: string)
    requires Blank(s)
    ensures Words(s) == []
  {
    if s != "" {
      BlankHasNoWords(s[..|s| - 1]);
    }
  }

  lemma TrimKeepsWords(s: string)
    ensures Words(Trim(s)) == Words(s)
  {
    var from, to := TrimIs(s);
    assert s == s[..from] + (s[from..to] + s[to..]);
    BlankHasNoWords(s[..from]);
    BlankHasNoWords(s[to..]);
    WordsAppend(s[from..to], s[to..]);
    WordsAppend(s[..from], s[from..to] + s[to..]);
  }

  lemma {:induction false} WordsOfAppend(a: seq<string>, b: seq<string>)
    ensures WordsOf(a + b) == WordsOf(a) + WordsOf(b)
    decreases |b|
  {
    if b == [] {
      assert a + b == a;
    } else {
      assert (a + b)[..|a + b| - 1] == a + b[..|b| - 1];
      WordsOfAppend(a, b[..|b| - 1]);
      Regroup(WordsOf(a), WordsOf(b[..|b| - 1]), Words(b[|b| - 1]));
    }
  }

  lemma WordsOfOne(s: string)
    ensures WordsOf([s]) == Words(s)
  {
    assert [s][..0] == [];
  }

  lemma {:induction false} JoinKeepsWords(lines: seq<string>)
    ensures Words(Join(lines)) == WordsOf(lines)
  {
    if lines != [] {
      assert lines == [lines[0]] + lines[1..];
      WordsOfAppend([lines[0]], lines[1..]);
      WordsOfOne(lines[0]);
      JoinKeepsWords(lines[1..]);
      if |lines| > 1 {
        LineApart(lines[0], Join(lines[1..]));
      }
    }
  }

  lemma LineApart(line: string, rest: string)
    ensures Words(line + "\n" + rest) == Words(line) + Words(rest)
  {
    WordsAppend(line + "\n", rest);
    WordsAppend(line, "\n");
    BlankHasNoWords("\n");
  }

  // ---------- long runs ----------

  ghost predicate HasLong(s: string, n: nat) {
    exists word :: word in Words(s) && |word| >= n
  }

  lemma {:induction false} RunIsInLastWord(s: string, n: nat)
    requires 1 <= n <= |s| && forall i :: |s| - n <= i < |s| ==> !IsSpace(s[i])
    ensures Words(s) != [] && |Words(s)[|Words(s)| - 1]| >= n
    decreases n
  {
    var init := s[..|s| - 1];
    if n > 1 {
      RunIsInLastWord(init, n - 1);
    }
  }

  lemma LongGrows(s: string, c: char, n: nat)
    requires HasLong(s, n)
    ensures HasLong(s + [c], n)
  {
    var word :| word in Words(s) && |word| >= n;
    var i :| 0 <= i < |Words(s)| && Words(s)[i] == word;
    WordsOneMore(s, c);
    assert i < |Words(s + [c])| && |Words(s + [c])[i]| >= n;
    assert Words(s + [c])[i] in Words(s + [c]);
  }

  lemma LongOneMore(s: string, c: char, whole: string, n: nat)
    requires HasLong(s, n) && whole == s + [c]
    ensures HasLong(whole, n)
  {
    LongGrows(s, c, n);
  }

  lemma {:induction false} LongStaysLong(s: string, t: string, n: nat)
    requires HasLong(s, n)
    ensures HasLong(s + t, n)
    decreases |t|
  {
    if t == "" {
      assert s + t == s;
    } else {
      LongStaysLong(s, t[..|t| - 1], n);
      LastApart(s, t);
      LongOneMore(s + t[..|t| - 1], t[|t| - 1], s + t, n);
    }
  }

  lemma LastApart(s: string, t: string)
    requires t != ""
    ensures s + t == s + t[..|t| - 1] + [t[|t| - 1]]
  {
  }

  /** A run without blanks lies in one word. */
  lemma RunIsInAWord(s: string, from: nat, to: nat)
    requires from < to <= |s| && forall i :: from <= i < to ==> !IsSpace(s[i])
    ensures HasLong(s, to - from)
  {
    var front, back := s[..to], s[to..];
    RunIsInLastWord(front, to - from);
    assert Words(front)[|Words(front)| - 1] in Words(front);
    LongStaysLong(front, back, to - from);
    assert s == front + back;
  }

  // ---------- one kind of blank ----------

  predicate OnlySpaces(s: string) {
    forall i :: 0 <= i < |s| && IsSpace(s[i]) ==> s[i] == ' '
  }
}
