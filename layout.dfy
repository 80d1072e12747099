/** create_multi_line_label: a greedy word wrapper over `text.split()` and
    the stack of labels it places, one every 15 units. A label is modelled
    only as text at a position, in a colour. */
module Layout {
  import opened Text

  /** The spacing between stacked lines. */
  const LineHeight: int := 15
  /** The default `max_chars` budget. */
  const LineBudget: int := 50

  datatype Label = Label(text: string, x: int, y: int, color: int)

  /** One turn of the wrap loop: the lines so far and `current_line` after
      `word`. The first word of the text goes in without a trailing blank, so
      the next word is glued to it. */
  function WrapStep(lines: seq<string>, cur: string, word: string, max: int): (r: (seq<string>, string))
    ensures lines <= r.0 && |r.0| <= |lines| + 1
    ensures |r.0| == |lines| + 1 <==> cur != [] && |cur + word + " "| > max
    ensures r.1 != [] || word == []
  {
    var test := cur + (if cur != [] then word + " " else word);
    if |test| <= max then (lines, test)
    else ((if cur != [] then lines + [Strip(cur)] else lines), word + " ")
  }

  /** The wrap loop over the remaining words `ws`, followed by the final
      flush of `current_line`. */
  function WrapFrom(ws: seq<string>, max: int, lines: seq<string>, cur: string): (r: seq<string>)
    ensures lines <= r
    decreases |ws|
  {
    if ws == [] then
      if cur != [] then lines + [Strip(cur)] else lines
    else
      var (lines', cur') := WrapStep(lines, cur, ws[0], max);
      WrapFrom(ws[1..], max, lines', cur')
  }

  /** The lines create_multi_line_label lays out for `text`. */
  function Wrap(text: string, max: int): seq<string> {
    WrapFrom(SplitWords(text), max, [], [])
  }

  /** The shape `current_line` always has: empty, a single first word, or
      trimmed text followed by one blank. */
  predicate CurrentShape(cur: string) {
    cur == [] || Trimmed(cur) || (Trimmed(cur[..|cur| - 1]) && cur[|cur| - 1] == ' ')
  }

  /** What `current_line.strip()` yields for a line of that shape. */
  lemma StripCurrent(cur: string)
    requires cur != [] && CurrentShape(cur)
    ensures Trimmed(Strip(cur))
    ensures Strip(cur) == if Trimmed(cur) then cur else cur[..|cur| - 1]
  {
    if Trimmed(cur) {
      StripTrimmed(cur);
    } else {
      StripTrimmed(cur[..|cur| - 1]);
      assert cur[..|cur| - 1] + " " == cur;
    }
  }

  /** A line is within the budget, or it is one of the words, placed alone. */
  predicate Fits(l: string, max: int, words: seq<string>) {
    |l| <= max || l in words
  }

  /** What holds of the wrap loop's state between words. */
  predicate LinesFit(lines: seq<string>, max: int, words: seq<string>) {
    forall j :: 0 <= j < |lines| ==> lines[j] != [] && Fits(lines[j], max, words)
  }

  predicate WrapState(lines: seq<string>, cur: string, max: int, words: seq<string>) {
    && CurrentShape(cur)
    && (cur != [] ==> Fits(Strip(cur), max, words))
    && LinesFit(lines, max, words)
  }

  lemma FlushFits(lines: seq<string>, cur: string, max: int, words: seq<string>)
    requires WrapState(lines, cur, max, words) && cur != []
    ensures LinesFit(lines + [Strip(cur)], max, words)
  {
    StripCurrent(cur);
    var l := lines + [Strip(cur)];
    forall j | 0 <= j < |l| ensures l[j] != [] && Fits(l[j], max, words) {
      if j < |lines| { assert l[j] == lines[j]; }
    }
  }

  /** Appending a word to a non-empty `current_line` keeps its shape. */
  lemma ExtendShape(cur: string, w: string)
    requires cur != [] && CurrentShape(cur) && IsWord(w)
    ensures var c := cur + w + " "; CurrentShape(c) && Strip(c) == cur + w
  {
    var body := cur + w;
    var c := cur + w + " ";
    assert c == body + " ";
    assert body[0] == cur[0];
    assert !IsSpace(cur[0]) by {
      if !Trimmed(cur) { assert cur[0] == cur[..|cur| - 1][0]; }
    }
    assert body[|body| - 1] == w[|w| - 1];
    StripTrimmed(body);
    assert c[..|c| - 1] == body;
  }

  lemma WrapStepKeeps(lines: seq<string>, cur: string, w: string, max: int, words: seq<string>)
    requires WrapState(lines, cur, max, words)
    requires IsWord(w) && w in words
    ensures var (lines', cur') := WrapStep(lines, cur, w, max);
      WrapState(lines', cur', max, words)
  {
    var test := cur + (if cur != [] then w + " " else w);
    if |test| <= max {
      KeepsWhenFits(lines, cur, w, max, words);
    } else {
      KeepsWhenFull(lines, cur, w, max, words);
    }
  }

  /** The word joins `current_line`. */
  lemma KeepsWhenFits(lines: seq<string>, cur: string, w: string, max: int, words: seq<string>)
    requires WrapState(lines, cur, max, words)
    requires IsWord(w) && w in words
    requires |cur + (if cur != [] then w + " " else w)| <= max
    ensures WrapState(lines, cur + (if cur != [] then w + " " else w), max, words)
  {
    if cur != [] {
      ExtendKeeps(lines, cur, w, max, words);
    } else {
      StripTrimmed(w);
      assert cur + w == w;
    }
  }

  lemma ExtendKeeps(lines: seq<string>, cur: string, w: string, max: int, words: seq<string>)
    requires WrapState(lines, cur, max, words) && cur != []
    requires IsWord(w) && |cur + (w + " ")| <= max
    ensures WrapState(lines, cur + (w + " "), max, words)
  {
    var c := cur + (w + " ");
    assert c == cur + w + " ";
    ExtendShape(cur, w);
    assert Strip(c) == cur + w;
    assert |Strip(c)| <= max;
  }

  /** The word starts a fresh `current_line`, after the old one is flushed. */
  lemma KeepsWhenFull(lines: seq<string>, cur: string, w: string, max: int, words: seq<string>)
    requires WrapState(lines, cur, max, words)
    requires IsWord(w) && w in words
    ensures WrapState(if cur != [] then lines + [Strip(cur)] else lines, w + " ", max, words)
  {
    StripTrimmed(w);
    var c := w + " ";
    assert c[..|c| - 1] == w;
    if cur != [] {
      FlushFits(lines, cur, max, words);
    }
  }

  lemma {:induction false} WrapFromBounds(ws: seq<string>, max: int, lines: seq<string>, cur: string, words: seq<string>)
    requires forall i :: 0 <= i < |ws| ==> IsWord(ws[i]) && ws[i] in words
    requires WrapState(lines, cur, max, words)
    ensures LinesFit(WrapFrom(ws, max, lines, cur), max, words)
    decreases |ws|
  {
    if ws == [] {
      if cur != [] {
        FlushFits(lines, cur, max, words);
      }
    } else {
      var (lines', cur') := WrapStep(lines, cur, ws[0], max);
      WrapStepKeeps(lines, cur, ws[0], max, words);
      WrapFromBounds(ws[1..], max, lines', cur', words);
    }
  }

  lemma WrapStepContent(lines: seq<string>, cur: string, w: string, max: int)
    requires IsWord(w)
    ensures var (lines', cur') := WrapStep(lines, cur, w, max);
      NonSpace(Concat(lines')) + NonSpace(cur') == NonSpace(Concat(lines)) + NonSpace(cur) + w
  {
    var test := cur + (if cur != [] then w + " " else w);
    NonSpaceOfWord(w);
    assert NonSpace(" ") == [];
    NonSpaceAppend(w, " ");
    if |test| <= max {
      if cur != [] {
        assert test == cur + (w + " ");
        NonSpaceAppend(cur, w + " ");
      } else {
        assert test == w;
      }
    } else if cur != [] {
      ConcatAppend(lines, Strip(cur));
      NonSpaceAppend(Concat(lines), Strip(cur));
    }
  }

  lemma {:induction false} WrapFromContent(ws: seq<string>, max: int, lines: seq<string>, cur: string)
    requires forall i :: 0 <= i < |ws| ==> IsWord(ws[i])
    ensures NonSpace(Concat(WrapFrom(ws, max, lines, cur))) == NonSpace(Concat(lines)) + NonSpace(cur) + Concat(ws)
    decreases |ws|
  {
    if ws == [] {
      WrapEndContent(lines, cur);
    } else {
      var (lines', cur') := WrapStep(lines, cur, ws[0], max);
      WrapFromContent(ws[1..], max, lines', cur');
      assert WrapFrom(ws, max, lines, cur) == WrapFrom(ws[1..], max, lines', cur');
      assert ws == [ws[0]] + ws[1..];
      WrapStepThenContent(ws[0], ws[1..], max, lines, cur, WrapFrom(ws[1..], max, lines', cur'));
    }
  }

  /** One step of the wrap followed by lines `r` that keep the rest of the
      words keeps them all. */
  lemma WrapStepThenContent(w: string, rest: seq<string>, max: int, lines: seq<string>, cur: string, r: seq<string>)
    requires IsWord(w)
    requires var (lines', cur') := WrapStep(lines, cur, w, max);
      NonSpace(Concat(r)) == NonSpace(Concat(lines')) + NonSpace(cur') + Concat(rest)
    ensures NonSpace(Concat(r)) == NonSpace(Concat(lines)) + NonSpace(cur) + Concat([w] + rest)
  {
    var (lines', cur') := WrapStep(lines, cur, w, max);
    var a, b := NonSpace(Concat(lines)), NonSpace(cur);
    var x, y := NonSpace(Concat(lines')), NonSpace(cur');
    var c := Concat(rest);
    assert x + y == a + b + w by { WrapStepContent(lines, cur, w, max); }
    assert Concat([w] + rest) == w + c by {
      assert ([w] + rest)[1..] == rest;
    }
    AppendAssoc(a + b, w, c);
  }

  lemma AppendAssoc<T>(p: seq<T>, q: seq<T>, r: seq<T>)
    ensures (p + q) + r == p + (q + r)
  {
  }

  /** Flushing the current line keeps its non-blank characters. */
  lemma WrapEndContent(lines: seq<string>, cur: string)
    ensures NonSpace(Concat(WrapFrom([], 0, lines, cur))) == NonSpace(Concat(lines)) + NonSpace(cur)
  {
    if cur != [] {
      ConcatAppend(lines, Strip(cur));
      NonSpaceAppend(Concat(lines), Strip(cur));
    } else {
      assert NonSpace(cur) == [];
    }
  }

  lemma {:induction false} WrapFromCount(ws: seq<string>, max: int, lines: seq<string>, cur: string)
    requires forall i :: 0 <= i < |ws| ==> IsWord(ws[i])
    ensures var n := |WrapFrom(ws, max, lines, cur)|;
      && |lines| + (if cur != [] || ws != [] then 1 else 0) <= n
      && n <= |lines| + |ws| + (if cur != [] then 1 else 0)
    decreases |ws|
  {
    if ws != [] {
      var (lines', cur') := WrapStep(lines, cur, ws[0], max);
      assert cur' != [];
      assert |lines'| <= |lines| + (if cur != [] then 1 else 0);
      WrapFromCount(ws[1..], max, lines', cur');
    }
  }

  /** Every line is non-empty, and a line longer than the budget is a single
      word of the text placed on its own. */
  lemma WrapLinesFit(text: string, max: int)
    ensures var lines := Wrap(text, max);
      forall j :: 0 <= j < |lines| ==> lines[j] != [] && (|lines[j]| <= max || lines[j] in SplitWords(text))
  {
    var words := SplitWords(text);
    WrapFromBounds(words, max, [], [], words);
  }

  /** The lines hold every non-blank character of the text, in order, and no
      other. */
  lemma WrapKeepsText(text: string, max: int)
    ensures NonSpace(Concat(Wrap(text, max))) == NonSpace(text)
  {
    WrapFromContent(SplitWords(text), max, [], []);
  }

  /** There are at most as many lines as words, and a text with a word in it
      takes at least one line; blank text takes none. */
  lemma WrapLineCount(text: string, max: int)
    ensures |Wrap(text, max)| <= |SplitWords(text)|
    ensures Wrap(text, max) == [] <==> AllSpace(text)
  {
    WrapFromCount(SplitWords(text), max, [], []);
    SplitWordsEmptyIff(text);
  }

  lemma SplitThree(a: string, b: string, c: string)
    requires IsWord(a) && IsWord(b) && IsWord(c)
    ensures SplitWords(a + " " + b + " " + c) == [a, b, c]
  {
    assert AllSpace(" ");
    assert a + " " + b + " " + c == a + " " + (b + " " + c);
    SplitWordThen(a, " ", b + " " + c);
    SplitWordThen(b, " ", c);
    SplitSingleWord(c);
  }

  /** The first word goes in without a blank, so the second is glued to it:
      "User: hello there" wraps to "User:hello there". */
  lemma FirstWordGlued(a: string, b: string, c: string, max: int)
    requires IsWord(a) && IsWord(b) && IsWord(c)
    requires |a| + |b| + |c| + 2 <= max
    ensures Wrap(a + " " + b + " " + c, max) == [a + b + " " + c]
  {
    SplitThree(a, b, c);
    var words := [a, b, c];
    var c1 := a;
    var c2 := a + b + " ";
    var c3 := a + b + " " + c + " ";
    assert WrapStep([], [], a, max) == ([], c1) by {
      assert [] + a == a;
    }
    assert WrapFrom(words, max, [], []) == WrapFrom(words[1..], max, [], c1);
    assert WrapFrom(words[1..], max, [], c1) == WrapFrom(words[2..], max, [], c2) by {
      assert words[1..][0] == b && words[1..][1..] == words[2..];
      assert c1 + (b + " ") == c2;
      assert WrapStep([], c1, b, max) == ([], c2);
    }
    assert WrapFrom(words[2..], max, [], c2) == WrapFrom([], max, [], c3) by {
      assert words[2..] == [c];
      assert c2 + (c + " ") == c3;
    }
    var line := a + b + " " + c;
    assert c3 == line + " ";
    assert line[0] == a[0];
    assert line[|line| - 1] == c[|c| - 1];
    StripTrimmed(line);
  }

  /** create_multi_line_label: the labels of `Wrap(text, maxChars)`, stacked
      from `startY` one line height apart, and their total height. */
  method CreateMultiLineLabel(text: string, x: int, startY: int, color: int, maxChars: int)
    returns (labels: seq<Label>, height: int)
    ensures |labels| == |Wrap(text, maxChars)|
    ensures forall i :: 0 <= i < |labels| ==>
              labels[i] == Label(Wrap(text, maxChars)[i], x, startY + LineHeight * i, color)
    ensures height == LineHeight * |labels|
  {
    var words := SplitWords(text);
    var lines: seq<string> := [];
    var current: string := "";
    for i := 0 to |words|
      invariant WrapFrom(words[i..], maxChars, lines, current) == Wrap(text, maxChars)
    {
      var word := words[i];
      var testLine := current + (if current != [] then word + " " else word);
      if |testLine| <= maxChars {
        current := testLine;
      } else {
        if current != [] {
          lines := lines + [Strip(current)];
        }
        current := word + " ";
      }
      assert words[i..][1..] == words[i + 1..];
    }
    if current != [] {
      lines := lines + [Strip(current)];
    }
    labels := [];
    var yOffset := startY;
    for i := 0 to |lines|
      invariant |labels| == i
      invariant yOffset == startY + LineHeight * i
      invariant forall k :: 0 <= k < i ==> labels[k] == Label(lines[k], x, startY + LineHeight * k, color)
    {
      labels := labels + [Label(lines[i], x, yOffset, color)];
      yOffset := yOffset + LineHeight;
    }
    height := yOffset - startY;
  }
}
