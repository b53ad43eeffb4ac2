/** What the answer to a drain query means, told from its text. */
module DrainText {
  import opened Api
  import opened Text
  import opened Drain

  // Trimming does not touch words.

  /** Trimming takes spaces off both ends and nothing else. */
  lemma {:induction false} LeftTrims(s: string) returns (a: nat)
    ensures a <= |s| && TrimLeft(s) == s[a..] && forall i :: 0 <= i < a ==> IsSpace(s[i])
    decreases |s|
  {
    a := 0;
    if s != "" && IsSpace(s[0]) {
      var b := LeftTrims(s[1..]);
      a := b + 1;
      forall i | 0 <= i < a ensures IsSpace(s[i]) { if i > 0 { assert s[1..][i - 1] == s[i]; } }
    }
  }

  lemma {:induction false} RightTrims(s: string) returns (b: nat)
    ensures b <= |s| && TrimRight(s) == s[..b] && forall i :: b <= i < |s| ==> IsSpace(s[i])
    decreases |s|
  {
    b := |s|;
    if s != "" && IsSpace(s[|s| - 1]) {
      b := RightTrims(s[..|s| - 1]);
      assert s[..|s| - 1][..b] == s[..b];
    }
  }

  lemma SpaceTrims(s: string) returns (a: nat, b: nat)
    ensures a <= b <= |s| && TrimSpace(s) == s[a..b]
    ensures (forall i :: 0 <= i < a ==> IsSpace(s[i])) && forall i :: b <= i < |s| ==> IsSpace(s[i])
  {
    a := LeftTrims(s);
    var c := RightTrims(s[a..]);
    b := a + c;
    forall i | b <= i < |s| ensures IsSpace(s[i]) { assert s[a..][i - a] == s[i]; }
  }

  lemma {:induction false} DotTrims(s: string) returns (a: nat, b: nat)
    ensures a <= b <= |s| && TrimDots(s) == s[a..b]
    ensures (forall i :: 0 <= i < a ==> s[i] == '.') && forall i :: b <= i < |s| ==> s[i] == '.'
    decreases |s|
  {
    a, b := 0, |s|;
    if s != "" && s[0] == '.' {
      a, b := DotTrims(s[1..]);
      forall i | 0 <= i < a + 1 ensures s[i] == '.' { if i > 0 { assert s[1..][i - 1] == s[i]; } }
      forall i | b + 1 <= i < |s| ensures s[i] == '.' { assert s[1..][i - 1] == s[i]; }
      a, b := a + 1, b + 1;
    } else if s != "" && s[|s| - 1] == '.' {
      a, b := DotTrims(s[..|s| - 1]);
      assert s[..|s| - 1][a..b] == s[a..b];
      forall i | b <= i < |s| ensures s[i] == '.' { if i < |s| - 1 { assert s[..|s| - 1][i] == s[i]; } }
    }
  }

  lemma SliceOfSlice(s: string, a: nat, b: nat, i: nat, j: nat)
    requires a <= b <= |s| && i <= j <= b - a
    ensures s[a..b][i..j] == s[a + i..a + j]
  {
    var x, y := s[a..b][i..j], s[a + i..a + j];
    forall k | 0 <= k < |x| ensures x[k] == y[k] {}
  }

  /** A word that neither starts nor ends with what is cut off is in the middle exactly when it is there at all. */
  lemma CutKeepsWord(s: string, a: nat, b: nat, t: string, cut: char -> bool)
    requires a <= b <= |s| && t != "" && !cut(t[0]) && !cut(t[|t| - 1])
    requires (forall i :: 0 <= i < a ==> cut(s[i])) && forall i :: b <= i < |s| ==> cut(s[i])
    ensures Contains(s[a..b], t) <==> Contains(s, t)
  {
    if Contains(s, t) {
      var i :| 0 <= i <= |s| && StartsAt(s, t, i);
      assert s[i] == s[i..i + |t|][0] && s[i + |t| - 1] == s[i..i + |t|][|t| - 1];
      assert a <= i && i + |t| <= b;
      SliceOfSlice(s, a, b, i - a, i - a + |t|);
      assert StartsAt(s[a..b], t, i - a);
    }
    if Contains(s[a..b], t) {
      var i :| 0 <= i <= |s[a..b]| && StartsAt(s[a..b], t, i);
      SliceOfSlice(s, a, b, i, i + |t|);
      assert StartsAt(s, t, a + i);
    }
  }

  lemma LowerKeepsSpace(c: char)
    ensures IsSpace(Lower(c)) <==> IsSpace(c)
    ensures Lower(c) == ':' <==> c == ':'
  {
  }

  // One line.

  /** What a line says of the drain state: the line is about draining, and so is the part behind its first colon. */
  predicate Says(line: string, draining: bool) {
    var low := ToLower(line);
    var i := Find(low, ':');
    && Contains(low, "drain") && i < |low|
    && if draining then Contains(low[i + 1..], "draining") && !Contains(low[i + 1..], "not draining")
       else Contains(low[i + 1..], "not draining")
  }

  /** The words the reading looks for, in the trimmed and in the whole text. */
  lemma SameWords(text: string, word: string)
    requires word != "" && !IsSpace(word[0]) && !IsSpace(word[|word| - 1]) && word[0] != '.' && word[|word| - 1] != '.'
    ensures Contains(TrimDots(TrimSpace(text)), word) <==> Contains(text, word)
    ensures Contains(TrimSpace(text), word) <==> Contains(text, word)
  {
    var a, b := SpaceTrims(text);
    CutKeepsWord(text, a, b, word, IsSpace);
    var c, d := DotTrims(TrimSpace(text));
    CutKeepsWord(TrimSpace(text), c, d, word, x => x == '.');
  }

  lemma LowerSlice(line: string, a: nat, b: nat)
    requires a <= b <= |line|
    ensures ToLower(line[a..b]) == ToLower(line)[a..b]
    ensures forall i :: 0 <= i < |line| ==> (IsSpace(ToLower(line)[i]) <==> IsSpace(line[i]))
  {
    forall i | 0 <= i < |line| ensures IsSpace(ToLower(line)[i]) <==> IsSpace(line[i]) { LowerKeepsSpace(line[i]); }
    var x, y := ToLower(line[a..b]), ToLower(line)[a..b];
    forall i | 0 <= i < |x| ensures x[i] == y[i] {}
  }

  /** The first colon of a text is the first colon of its trimmed part. */
  lemma ColonInside(low: string, a: nat, b: nat)
    requires a <= b <= |low|
    requires (forall i :: 0 <= i < a ==> IsSpace(low[i])) && forall i :: b <= i < |low| ==> IsSpace(low[i])
    ensures var cut := low[a..b];
      && (Find(cut, ':') < |cut| <==> Find(low, ':') < |low|)
      && (Find(low, ':') < |low| ==> Find(low, ':') == a + Find(cut, ':') < b)
  {
    hide Find;
    var cut := low[a..b];
    var i, k := Find(low, ':'), Find(cut, ':');
    assert forall j :: 0 <= j < |cut| ==> cut[j] == low[a + j];
    if i < |low| {
      assert !IsSpace(low[i]);
      assert cut[i - a] == ':';
    }
    if k < |cut| {
      assert low[a + k] == ':';
    }
  }

  /** Lowering and trimming go together, and the first colon is the same one. */
  lemma TrimmedLine(line: string) returns (a: nat, b: nat)
    ensures a <= b <= |line| && ToLower(TrimSpace(line)) == ToLower(line)[a..b]
    ensures (forall i :: 0 <= i < a ==> IsSpace(ToLower(line)[i]))
    ensures forall i :: b <= i < |line| ==> IsSpace(ToLower(line)[i])
    ensures var low, cut := ToLower(line), ToLower(TrimSpace(line));
      && (Find(cut, ':') < |cut| <==> Find(low, ':') < |low|)
      && (Find(low, ':') < |low| ==> Find(low, ':') == a + Find(cut, ':') < b)
  {
    hide TrimSpace, ToLower, IsSpace, Find;
    a, b := SpaceTrims(line);
    LowerSlice(line, a, b);
    ColonInside(ToLower(line), a, b);
  }

  /** A word behind the first colon, in the trimmed text and in the whole line. */
  lemma WordBehindColon(low: string, a: nat, b: nat, i: nat, word: string)
    requires a <= i < b <= |low| && forall j :: b <= j < |low| ==> IsSpace(low[j])
    requires word != "" && !IsSpace(word[0]) && !IsSpace(word[|word| - 1]) && word[0] != '.' && word[|word| - 1] != '.'
    ensures Contains(TrimDots(TrimSpace(low[a..b][i - a + 1..])), word) <==> Contains(low[i + 1..], word)
  {
    var rest := low[i + 1..];
    SliceOfSlice(low, a, b, i - a + 1, b - a);
    assert low[a..b][i - a + 1..] == rest[0..b - i - 1];
    assert forall j :: b - i - 1 <= j < |rest| ==> rest[j] == low[i + 1 + j];
    CutKeepsWord(rest, 0, b - i - 1, word, IsSpace);
    SameWords(rest[0..b - i - 1], word);
  }

  /** The reading of one line is what the line says. */
  lemma LineMeans(line: string)
    ensures LineState(line) == Some(true) <==> Says(line, true)
    ensures LineState(line) == Some(false) <==> Says(line, false)
  {
    hide Contains, TrimSpace, TrimDots, ToLower;
    var a, b := TrimmedLine(line);
    var low := ToLower(line);
    CutKeepsWord(low, a, b, "drain", IsSpace);
    var i := Find(low, ':');
    if i < |low| {
      WordBehindColon(low, a, b, i, "not draining");
      WordBehindColon(low, a, b, i, "draining");
    }
  }

  // The whole answer.

  predicate SaysNothing(line: string) {
    !Says(line, true) && !Says(line, false)
  }

  ghost predicate FirstToSay(lines: seq<string>, i: int, draining: bool) {
    0 <= i < |lines| && Says(lines[i], draining) && forall j :: 0 <= j < i ==> SaysNothing(lines[j])
  }

  /** The first line that says anything says this. */
  ghost predicate Answers(out: string, draining: bool) {
    exists i :: FirstToSay(Split(TrimSpace(out), '\n'), i, draining)
  }

  lemma {:induction false} FirstStateMeans(lines: seq<string>, draining: bool)
    ensures FirstState(lines) == Some(draining) <==> exists i :: FirstToSay(lines, i, draining)
    decreases |lines|
  {
    hide Says, LineState;
    if lines != [] {
      var rest := lines[1..];
      LineMeans(lines[0]);
      FirstStateMeans(rest, draining);
      if LineState(lines[0]).None? {
        assert SaysNothing(lines[0]);
        if i :| FirstToSay(lines, i, draining) {
          assert FirstToSay(rest, i - 1, draining) by {
            forall j | 0 <= j < i - 1 ensures SaysNothing(rest[j]) { assert rest[j] == lines[j + 1]; }
          }
        }
        if i :| FirstToSay(rest, i, draining) {
          assert FirstToSay(lines, i + 1, draining) by {
            forall j | 0 <= j < i + 1 ensures SaysNothing(lines[j]) { if j > 0 { assert lines[j] == rest[j - 1]; } }
          }
        }
      } else {
        var said := LineState(lines[0]).value;
        assert LineState(lines[0]) == Some(said);
        assert Says(lines[0], said) by { if said {} else {} }
        OneAnswer(lines[0]);
        assert FirstToSay(lines, 0, said);
      }
    }
  }

  lemma OneAnswer(line: string)
    ensures !(Says(line, true) && Says(line, false))
  {
  }

  /** The reading of a drain query is what its text answers. */
  lemma DrainStateMeans(out: string, draining: bool)
    ensures DrainState(out) == Some(draining) <==> Answers(out, draining)
  {
    hide Says, FirstState;
    FirstStateMeans(Split(TrimSpace(out), '\n'), draining);
    if TrimSpace(out) == "" {
      assert Split("", '\n') == [""];
      EmptySaysNothing(draining);
    }
  }

  lemma EmptySaysNothing(draining: bool)
    ensures !Says("", draining)
  {
  }

  // Lines as they are printed.

  function Printed(draining: bool, stop: bool): string {
    (if draining then ": draining" else ": not draining") + if stop then "." else ""
  }

  lemma PrintedTail(draining: bool, stop: bool)
    ensures var t := Printed(draining, stop)[1..];
      Contains(t, "draining") && (Contains(t, "not draining") <==> !draining)
  {
    var t := Printed(draining, stop)[1..];
    if draining {
      assert t[1..9] == "draining";
      assert StartsAt(t, "draining", 1);
      forall i | 0 <= i <= |t| ensures !StartsAt(t, "not draining", i) { }
    } else {
      var word := "not draining";
      assert t == " " + word + if stop then "." else "";
      assert t[1..13] == word;
      assert StartsAt(t, word, 1);
      assert word[4..12] == "draining";
      SliceOfSlice(t, 1, 13, 4, 12);
      assert StartsAt(t, "draining", 5);
    }
  }

  /** A printed line in lower case: what stands before the colon, and the tail as it is. */
  lemma PrintedLow(pre: string, tail: string)
    requires tail != "" && tail[0] == ':' && ToLower(tail) == tail && ':' !in pre
    ensures var low := ToLower(pre + tail);
      && |low| == |pre| + |tail| && low[..|pre|] == ToLower(pre) && low[|pre| + 1..] == tail[1..]
      && Find(low, ':') == |pre|
  {
    hide Find;
    var line := pre + tail;
    var low := ToLower(line);
    forall i | 0 <= i < |pre| ensures low[i] == ToLower(pre)[i] && low[i] != ':' {
      LowerKeepsSpace(pre[i]);
      assert line[i] == pre[i] && low[i] == Lower(pre[i]);
    }
    forall i | 0 <= i < |tail| ensures low[|pre| + i] == tail[i] {
      assert line[|pre| + i] == tail[i] && ToLower(tail)[i] == Lower(tail[i]);
    }
    assert low[..|pre|] == ToLower(pre);
    assert low[|pre| + 1..] == tail[1..];
    assert low[|pre|] == ':';
  }

  lemma PrintedIsLow(draining: bool, stop: bool)
    ensures ToLower(Printed(draining, stop)) == Printed(draining, stop)
  {
    var t := Printed(draining, stop);
    forall i | 0 <= i < |t| ensures Lower(t[i]) == t[i] {}
  }

  lemma PrefixKeepsWord(s: string, n: nat, word: string)
    requires n <= |s| && Contains(s[..n], word)
    ensures Contains(s, word)
  {
    var i :| 0 <= i <= n && StartsAt(s[..n], word, i);
    SliceOfSlice(s, 0, n, i, i + |word|);
    assert s[0..n] == s[..n];
    assert StartsAt(s, word, i);
  }

  /** A line about draining that ends with ": draining" or ": not draining", perhaps with a stop, says just that. */
  lemma PrintedLine(pre: string, draining: bool, stop: bool)
    requires ':' !in pre && Contains(ToLower(pre), "drain")
    ensures Says(pre + Printed(draining, stop), draining) && !Says(pre + Printed(draining, stop), !draining)
  {
    hide Contains, ToLower, Find, Printed;
    var tail := Printed(draining, stop);
    assert tail != "" && tail[0] == ':' by { PrintedStarts(draining, stop); }
    PrintedIsLow(draining, stop);
    PrintedLow(pre, tail);
    PrefixKeepsWord(ToLower(pre + tail), |pre|, "drain");
    PrintedTail(draining, stop);
  }

  lemma PrintedStarts(draining: bool, stop: bool)
    ensures Printed(draining, stop) != "" && Printed(draining, stop)[0] == ':'
  {
  }

  lemma PrintedEnds(draining: bool, stop: bool)
    ensures var t := Printed(draining, stop); !IsSpace(t[|t| - 1]) && '\n' !in t
  {
  }

  /** A query that prints just such a line is read as what it prints. */
  lemma PrintedAnswer(pre: string, draining: bool, stop: bool)
    requires pre != "" && !IsSpace(pre[0]) && '\n' !in pre && ':' !in pre && Contains(ToLower(pre), "drain")
    ensures DrainState(pre + Printed(draining, stop)) == Some(draining)
    ensures DrainState(pre + Printed(draining, stop) + "\n") == Some(draining)
  {
    hide Says, DrainState, Contains, ToLower, IsSpace, TrimSpace, Printed, Split;
    var line := pre + Printed(draining, stop);
    PrintedStarts(draining, stop);
    PrintedEnds(draining, stop);
    TrimEdges(line);
    SplitOne(line, '\n', "");
    PrintedLine(pre, draining, stop);
    assert FirstToSay([line], 0, draining);
    DrainStateMeans(line, draining);
    DrainStateMeans(line + "\n", draining);
  }

  // The first field of a line.

  /** Blanks, a word without blanks, and nothing or a blank behind it: the first field is that word. */
  lemma {:induction false} FirstFieldIs(lead: string, word: string, rest: string)
    requires (forall c :: c in lead ==> IsSpace(c)) && forall c :: c in word ==> !IsSpace(c)
    requires word != "" && (rest == "" || IsSpace(rest[0]))
    ensures FirstField(lead + word + rest) == word
    decreases |lead|
  {
    hide IsSpace;
    var s := lead + word + rest;
    if lead == "" {
      assert s == word + rest && s[0] == word[0];
      WordEnds(word, rest);
    } else {
      assert s[0] == lead[0] && s[1..] == lead[1..] + word + rest;
      FirstFieldIs(lead[1..], word, rest);
    }
  }

  lemma {:induction false} WordEnds(word: string, rest: string)
    requires (forall c :: c in word ==> !IsSpace(c)) && (rest == "" || IsSpace(rest[0]))
    ensures UntilSpace(word + rest) == word
    decreases |word|
  {
    hide IsSpace;
    if word == "" {
      assert word + rest == rest;
    } else {
      assert (word + rest)[0] == word[0] && (word + rest)[1..] == word[1..] + rest;
      WordEnds(word[1..], rest);
    }
  }

  // Loaded modules.

  /** A line of lsmod: a module and what is told of it. */
  datatype Row = Row(name: string, rest: string)

  function RowText(r: Row): string {
    r.name + " " + r.rest
  }

  function RowTexts(rows: seq<Row>): (lines: seq<string>)
    ensures |lines| == |rows| && forall i :: 0 <= i < |rows| ==> lines[i] == RowText(rows[i])
  {
    seq(|rows|, i requires 0 <= i < |rows| => RowText(rows[i]))
  }

  ghost predicate CleanRow(r: Row) {
    && r.name != "" && (forall c :: c in r.name ==> !IsSpace(c))
    && r.rest != "" && '\n' !in r.rest && !IsSpace(r.rest[|r.rest| - 1])
  }

  lemma {:induction false} JoinEdges(lines: seq<string>, sep: char)
    requires lines != [] && forall i :: 0 <= i < |lines| ==> lines[i] != ""
    ensures var text := Join(lines, sep); var last := lines[|lines| - 1];
      text != "" && text[0] == lines[0][0] && text[|text| - 1] == last[|last| - 1]
    decreases |lines|
  {
    if |lines| > 1 {
      JoinEdges(lines[1..], sep);
      assert lines[1..][|lines| - 2] == lines[|lines| - 1];
    }
  }

  lemma RowMeans(r: Row)
    requires CleanRow(r)
    ensures FirstField(RowText(r)) == r.name && '\n' !in RowText(r) && RowText(r) != ""
    ensures var t := RowText(r); !IsSpace(t[0]) && !IsSpace(t[|t| - 1])
  {
    var rest := " " + r.rest;
    assert RowText(r) == "" + r.name + rest;
    FirstFieldIs("", r.name, rest);
    assert RowText(r)[0] == r.name[0] && r.name[0] in r.name;
    assert IsSpace('\n');
    assert '\n' !in r.name;
  }

  /** Reading what lsmod printed, a module counts as loaded exactly when it has a row. */
  lemma LoadedMeans(rows: seq<Row>, name: string)
    requires rows != [] && forall i :: 0 <= i < |rows| ==> CleanRow(rows[i])
    ensures Loaded(Join(RowTexts(rows), '\n') + "\n", name) <==> exists i :: 0 <= i < |rows| && rows[i].name == name
  {
    hide FirstField, RowText, CleanRow, TrimSpace, Split, Join, IsSpace;
    var lines := RowTexts(rows);
    forall i | 0 <= i < |rows|
      ensures FirstField(lines[i]) == rows[i].name && '\n' !in lines[i] && lines[i] != ""
    {
      RowMeans(rows[i]);
    }
    JoinEdges(lines, '\n');
    RowMeans(rows[0]);
    RowMeans(rows[|rows| - 1]);
    TrimEdges(Join(lines, '\n'));
    SplitJoined(lines, '\n');
    if i :| 0 <= i < |rows| && rows[i].name == name { assert lines[i] in lines; }
  }
}
