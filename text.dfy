/** Python string helpers the session relies on: `str.isspace`, `str.split()`
    with no separator, `str.strip()` with no argument, `str.startswith`, and
    `str(int)`. */
module Text {

  /** The characters CircuitPython's `str.isspace` accepts, the ones
      `split()` and `strip()` cut on: blank, tab, line feed, vertical tab,
      form feed and carriage return. */
  const SpaceChars: set<char> := {' ', '\t', '\n', '\U{000B}', '\U{000C}', '\r'}

  predicate IsSpace(c: char) {
    c in SpaceChars
  }

  predicate AllSpace(s: string) {
    forall i :: 0 <= i < |s| ==> IsSpace(s[i])
  }

  predicate NoSpace(s: string) {
    forall i :: 0 <= i < |s| ==> !IsSpace(s[i])
  }

  /** A word as `split()` yields it: non-empty, without whitespace. */
  predicate IsWord(w: string) {
    w != [] && NoSpace(w)
  }

  /** The non-whitespace characters of `s`, in order. */
  function NonSpace(s: string): string {
    if s == [] then []
    else if IsSpace(s[0]) then NonSpace(s[1..])
    else [s[0]] + NonSpace(s[1..])
  }

  function Concat(ws: seq<string>): string {
    if ws == [] then [] else ws[0] + Concat(ws[1..])
  }

  lemma {:induction false} NonSpaceAppend(a: string, b: string)
    ensures NonSpace(a + b) == NonSpace(a) + NonSpace(b)
  {
    if a != [] {
      assert (a + b)[0] == a[0];
      assert (a + b)[1..] == a[1..] + b;
      NonSpaceAppend(a[1..], b);
      if IsSpace(a[0]) {
        assert NonSpace(a + b) == NonSpace(a[1..] + b);
      } else {
        assert NonSpace(a + b) == [a[0]] + NonSpace(a[1..] + b);
      }
    } else {
      assert a + b == b;
    }
  }

  lemma {:induction false} NonSpaceOfWord(w: string)
    requires NoSpace(w)
    ensures NonSpace(w) == w
  {
    if w != [] {
      NonSpaceOfWord(w[1..]);
    }
  }

  lemma {:induction false} NonSpaceOfSpaces(s: string)
    requires AllSpace(s)
    ensures NonSpace(s) == []
  {
    if s != [] {
      NonSpaceOfSpaces(s[1..]);
    }
  }

  lemma {:induction false} NonSpaceEmptyIff(s: string)
    ensures NonSpace(s) == [] <==> AllSpace(s)
  {
    if s != [] {
      NonSpaceEmptyIff(s[1..]);
      if IsSpace(s[0]) {
        if AllSpace(s[1..]) {
          forall i | 0 <= i < |s| ensures IsSpace(s[i]) {
            if i > 0 { assert s[i] == s[1..][i - 1]; }
          }
        }
      }
    }
  }

  lemma {:induction false} ConcatAppend(ws: seq<string>, w: string)
    ensures Concat(ws + [w]) == Concat(ws) + w
  {
    if ws == [] {
      assert ws + [w] == [w];
    } else {
      assert (ws + [w])[1..] == ws[1..] + [w];
      ConcatAppend(ws[1..], w);
    }
  }

  /** Length of the whitespace run at the start of `s`. */
  function LeadingSpaces(s: string): (n: nat)
    ensures n <= |s|
    ensures AllSpace(s[..n])
    ensures n < |s| ==> !IsSpace(s[n])
  {
    if s != [] && IsSpace(s[0]) then
      var m := LeadingSpaces(s[1..]);
      assert s[..m + 1] == [s[0]] + s[1..][..m];
      m + 1
    else 0
  }

  /** Length of the whitespace run at the end of `s`. */
  function TrailingSpaces(s: string): (n: nat)
    ensures n <= |s|
    ensures AllSpace(s[|s| - n..])
    ensures n < |s| ==> !IsSpace(s[|s| - n - 1])
  {
    if s != [] && IsSpace(s[|s| - 1]) then
      var t := s[..|s| - 1];
      var m := TrailingSpaces(t);
      assert s == t + [s[|s| - 1]];
      assert s[|s| - (m + 1)..] == t[|t| - m..] + [s[|s| - 1]];
      AllSpaceSnoc(t[|t| - m..], s[|s| - 1]);
      assert m + 1 < |s| ==> s[|s| - (m + 1) - 1] == t[|t| - m - 1];
      m + 1
    else 0
  }

  lemma AllSpaceSnoc(s: string, c: char)
    requires AllSpace(s) && IsSpace(c)
    ensures AllSpace(s + [c])
  {
    forall i | 0 <= i < |s + [c]| ensures IsSpace((s + [c])[i]) {
      if i < |s| {
        assert (s + [c])[i] == s[i];
      }
    }
  }

  /** Length of the whitespace-free run at the start of `s`. */
  function WordLength(s: string): (n: nat)
    ensures n <= |s|
    ensures NoSpace(s[..n])
    ensures n < |s| ==> IsSpace(s[n])
  {
    if s != [] && !IsSpace(s[0]) then
      var m := WordLength(s[1..]);
      assert s[..m + 1] == [s[0]] + s[1..][..m];
      m + 1
    else 0
  }

  /** Python's `s.split()`: the maximal whitespace-free runs of `s`, in order.
      The words hold exactly the non-whitespace characters of `s`. */
  function SplitWords(s: string): (ws: seq<string>)
    ensures forall i :: 0 <= i < |ws| ==> IsWord(ws[i])
    ensures Concat(ws) == NonSpace(s)
    decreases |s|, 1
  {
    var a := LeadingSpaces(s);
    assert s == s[..a] + s[a..];
    NonSpaceOfSpaces(s[..a]);
    NonSpaceAppend(s[..a], s[a..]);
    SplitTrimmed(s[a..])
  }

  /** The split of a text that does not start with whitespace. */
  function SplitTrimmed(t: string): (ws: seq<string>)
    requires t == [] || !IsSpace(t[0])
    ensures forall i :: 0 <= i < |ws| ==> IsWord(ws[i])
    ensures Concat(ws) == NonSpace(t)
    decreases |t|, 0
  {
    if t == [] then []
    else
      var n := WordLength(t);
      assert t == t[..n] + t[n..];
      NonSpaceOfWord(t[..n]);
      NonSpaceAppend(t[..n], t[n..]);
      [t[..n]] + SplitWords(t[n..])
  }

  /** `split()` yields no word exactly when the text is blank. */
  lemma SplitWordsEmptyIff(s: string)
    ensures SplitWords(s) == [] <==> AllSpace(s)
  {
    NonSpaceEmptyIff(s);
    var ws := SplitWords(s);
    if ws != [] {
      assert Concat(ws) == ws[0] + Concat(ws[1..]);
      assert |ws[0]| > 0;
    }
  }

  /** Leading whitespace never changes the split. */
  lemma SplitSkipsSpace(sp: string, s: string)
    requires AllSpace(sp)
    ensures SplitWords(sp + s) == SplitWords(s)
  {
    LeadingSpacesOf(sp, s);
    var k := LeadingSpaces(s);
    var t := sp + s;
    assert t[|sp| + k..] == s[k..];
    SameRestSameSplit(t, s, |sp| + k, k);
  }

  /** Two texts that agree after their leading whitespace split alike. */
  lemma SameRestSameSplit(x: string, y: string, a: nat, b: nat)
    requires a == LeadingSpaces(x) && b == LeadingSpaces(y)
    requires x[a..] == y[b..]
    ensures SplitWords(x) == SplitWords(y)
  {
  }

  lemma {:induction false} LeadingSpacesOf(sp: string, s: string)
    requires AllSpace(sp)
    ensures LeadingSpaces(sp + s) == |sp| + LeadingSpaces(s)
  {
    if sp == [] {
      assert sp + s == s;
    } else {
      assert (sp + s)[0] == sp[0];
      assert (sp + s)[1..] == sp[1..] + s;
      LeadingSpacesOf(sp[1..], s);
    }
  }

  lemma {:induction false} WordLengthOf(w: string, rest: string)
    requires NoSpace(w)
    requires rest == [] || IsSpace(rest[0])
    ensures WordLength(w + rest) == |w|
  {
    if w == [] {
      assert w + rest == rest;
    } else {
      assert (w + rest)[0] == w[0];
      assert (w + rest)[1..] == w[1..] + rest;
      WordLengthOf(w[1..], rest);
    }
  }

  /** A word followed by whitespace or by nothing is split off as the first
      token. */
  lemma SplitWordFirst(w: string, rest: string)
    requires IsWord(w)
    requires rest == [] || IsSpace(rest[0])
    ensures SplitWords(w + rest) == [w] + SplitWords(rest)
  {
    var s := w + rest;
    assert s[0] == w[0];
    assert LeadingSpaces(s) == 0;
    assert s[0..] == s;
    WordLengthOf(w, rest);
    assert s[..|w|] == w;
    assert s[|w|..] == rest;
  }

  /** A word followed by whitespace is split off as the first token. */
  lemma SplitWordThen(w: string, sp: string, rest: string)
    requires IsWord(w)
    requires sp != [] && AllSpace(sp)
    ensures SplitWords(w + sp + rest) == [w] + SplitWords(rest)
  {
    var s := w + sp + rest;
    assert LeadingSpaces(s) == 0;
    assert s[0..] == w + (sp + rest);
    WordLengthOf(w, sp + rest);
    assert s[0..|w|] == w;
    assert s[|w|..] == sp + rest;
    SplitSkipsSpace(sp, rest);
  }

  /** A lone word splits to itself. */
  lemma SplitSingleWord(w: string)
    requires IsWord(w)
    ensures SplitWords(w) == [w]
  {
    assert LeadingSpaces(w) == 0;
    assert w[0..] == w + [];
    WordLengthOf(w, []);
    assert w[0..|w|] == w;
    assert w[|w|..] == [];
  }

  /** Python's `s.strip()`: the piece of `s` that starts right after its
      leading whitespace and is followed only by whitespace, so nothing inside
      it is removed. It keeps every non-whitespace character and is empty only
      for blank text. */
  function Strip(s: string): (r: string)
    ensures |r| <= |s|
    ensures NonSpace(r) == NonSpace(s)
    ensures r == [] <==> AllSpace(s)
    ensures r != [] ==> !IsSpace(r[0]) && !IsSpace(r[|r| - 1])
    ensures LeadingSpaces(s) + |r| <= |s| && s[LeadingSpaces(s)..LeadingSpaces(s) + |r|] == r
    ensures AllSpace(s[LeadingSpaces(s) + |r|..])
  {
    var a := LeadingSpaces(s);
    NonSpaceEmptyIff(s);
    if a == |s| then
      assert s[..a] == s;
      []
    else
      var b := TrailingSpaces(s);
      TrailingStopsAtWord(s, a);
      MiddleKeepsText(s, a, b);
      assert !AllSpace(s) by { assert !IsSpace(s[a]); }
      var r := s[a..|s| - b];
      assert s[a..a + |r|] == r && s[a + |r|..] == s[|s| - b..];
      r
  }

  /** Cutting whitespace off both ends keeps every other character. */
  lemma MiddleKeepsText(s: string, a: nat, b: nat)
    requires a + b <= |s|
    requires AllSpace(s[..a]) && AllSpace(s[|s| - b..])
    ensures NonSpace(s[a..|s| - b]) == NonSpace(s)
  {
    var r := s[a..|s| - b];
    assert s == s[..a] + (r + s[|s| - b..]);
    NonSpaceOfSpaces(s[..a]);
    NonSpaceOfSpaces(s[|s| - b..]);
    NonSpaceAppend(s[..a], r + s[|s| - b..]);
    NonSpaceAppend(r, s[|s| - b..]);
  }

  lemma TrailingStopsAtWord(s: string, a: nat)
    requires a < |s| && !IsSpace(s[a])
    ensures TrailingSpaces(s) < |s| - a
  {
  }

  /** A non-empty text that neither starts nor ends with whitespace. */
  predicate Trimmed(x: string) {
    x != [] && !IsSpace(x[0]) && !IsSpace(x[|x| - 1])
  }

  /** `strip()` leaves a trimmed text alone and removes one trailing blank
      after it. */
  lemma StripTrimmed(x: string)
    requires Trimmed(x)
    ensures Strip(x) == x
    ensures Strip(x + " ") == x
  {
    assert LeadingSpaces(x) == 0;
    assert TrailingSpaces(x) == 0;
    assert x[0..|x| - 0] == x;
    var s := x + " ";
    assert s[0] == x[0];
    assert LeadingSpaces(s) == 0;
    assert TrailingSpaces(s) == 1 by {
      assert s[..|s| - 1] == x;
      assert s[|s| - 1] == ' ';
    }
    assert s[0..|s| - 1] == x;
  }

  predicate StartsWith(s: string, prefix: string) {
    |prefix| <= |s| && s[..|prefix|] == prefix
  }

  function DigitChar(d: int): char
    requires 0 <= d < 10
  {
    "0123456789"[d]
  }

  /** Python's `str(n)` for an integer: decimal digits, `-` for negatives. */
  function IntToString(n: int): (r: string)
    ensures r != []
    decreases if n < 0 then 1 - n else n
  {
    if n < 0 then "-" + IntToString(-n)
    else if n < 10 then [DigitChar(n)]
    else IntToString(n / 10) + [DigitChar(n % 10)]
  }
}
