/** The string library calls the core relies on: `str.lower`, `re.findall(r"\w+", …)`,
    `str.strip`, `"sep".join` and the decimal rendering of an `int` in an f-string.
    Character classes are those of ASCII (plus the Latin-1 spaces for `strip`). */
module Strings {

  /** `\w` on ASCII: letters, digits and the underscore. */
  predicate IsWordChar(c: char) {
    ('a' <= c <= 'z') || ('A' <= c <= 'Z') || ('0' <= c <= '9') || c == '_'
  }

  function LowerChar(c: char): char {
    if 'A' <= c <= 'Z' then (c as int + 32) as char else c
  }

  /** `s.lower()`. */
  function Lower(s: string): string {
    seq(|s|, i requires 0 <= i < |s| => LowerChar(s[i]))
  }

  /** The length of the run of word characters that `s` starts with. */
  function RunLength(s: string): (n: nat)
    ensures n <= |s|
    ensures forall i :: 0 <= i < n ==> IsWordChar(s[i])
    ensures n < |s| ==> !IsWordChar(s[n])
  {
    if s == [] || !IsWordChar(s[0]) then 0 else 1 + RunLength(s[1..])
  }

  /** A non-empty string of word characters only. */
  predicate IsWord(w: string) {
    w != [] && forall c :: c in w ==> IsWordChar(c)
  }

  /** `re.findall(r"\w+", s)`: the maximal runs of word characters, left to right. Every token
      is a word. */
  function Words(s: string): (ws: seq<string>)
    ensures forall w :: w in ws ==> IsWord(w)
    decreases |s|
  {
    if s == [] then []
    else if !IsWordChar(s[0]) then Words(s[1..])
    else
      var n := RunLength(s);
      [s[..n]] + Words(s[n..])
  }

  /** Words separated (and followed) by one space each. */
  function Unwords(ws: seq<string>): string {
    if ws == [] then "" else ws[0] + " " + Unwords(ws[1..])
  }

  lemma {:induction false} RunLengthOfWord(w: string, rest: string)
    requires IsWord(w)
    requires rest == [] || !IsWordChar(rest[0])
    ensures RunLength(w + rest) == |w|
    decreases |w|
  {
    if |w| > 1 {
      assert (w + rest)[1..] == w[1..] + rest;
      RunLengthOfWord(w[1..], rest);
    } else {
      assert (w + rest)[1..] == rest;
    }
  }

  /** Tokenising words written out with single spaces gives back exactly those words. */
  lemma {:induction false} WordsOfUnwords(ws: seq<string>)
    requires forall w :: w in ws ==> IsWord(w)
    ensures Words(Unwords(ws)) == ws
  {
    if ws != [] {
      var w, rest := ws[0], Unwords(ws[1..]);
      var s := w + " " + rest;
      assert Unwords(ws) == w + (" " + rest);
      RunLengthOfWord(w, " " + rest);
      assert s[..|w|] == w;
      assert s[|w|..] == " " + rest;
      assert Words(" " + rest) == Words(rest) by {
        assert (" " + rest)[1..] == rest;
      }
      WordsOfUnwords(ws[1..]);
    }
  }

  /** `s[i..j]` is a maximal run of word characters: non-empty, made of word characters, and
      bordered on each side by the end of `s` or a non-word character. */
  predicate MaximalRun(s: string, i: int, j: int) {
    0 <= i < j <= |s|
    && (forall k :: i <= k < j ==> IsWordChar(s[k]))
    && (i == 0 || !IsWordChar(s[i - 1]))
    && (j == |s| || !IsWordChar(s[j]))
  }

  /** A maximal run of a suffix `s[d..]` is one of `s` too, shifted by `d`, unless it starts the
      suffix right after a word character. */
  lemma ShiftRun(s: string, d: nat, i: int, j: int)
    requires d <= |s| && MaximalRun(s[d..], i, j)
    requires i > 0 || d == 0 || !IsWordChar(s[d - 1])
    ensures MaximalRun(s, d + i, d + j) && s[d + i..d + j] == s[d..][i..j]
  {
    forall k | d + i <= k < d + j
      ensures IsWordChar(s[k])
    {
      assert s[k] == s[d..][k - d];
    }
    if i > 0 {
      assert s[d + i - 1] == s[d..][i - 1];
    }
    if d + j < |s| {
      assert s[d + j] == s[d..][j];
    }
  }

  /** A maximal run of `s` that starts at or after `d` is one of the suffix `s[d..]`. */
  lemma UnshiftRun(s: string, d: nat, i: int, j: int)
    requires MaximalRun(s, i, j) && d <= i
    ensures MaximalRun(s[d..], i - d, j - d) && s[d..][i - d..j - d] == s[i..j]
  {
    var t := s[d..];
    forall k | i - d <= k < j - d
      ensures IsWordChar(t[k])
    {
      assert t[k] == s[k + d];
    }
    if i - d > 0 {
      assert t[i - d - 1] == s[i - 1];
    }
    if j - d < |t| {
      assert t[j - d] == s[j];
    }
  }

  /** Every token is a maximal run of word characters of the input. */
  lemma {:induction false} WordIsRun(s: string, w: string)
    requires w in Words(s)
    ensures exists i, j :: MaximalRun(s, i, j) && s[i..j] == w
    decreases |s|
  {
    if !IsWordChar(s[0]) {
      WordIsRun(s[1..], w);
      var i, j :| MaximalRun(s[1..], i, j) && s[1..][i..j] == w;
      ShiftRun(s, 1, i, j);
    } else {
      var n := RunLength(s);
      if w == s[..n] {
        assert MaximalRun(s, 0, n) && s[0..n] == w;
      } else {
        WordIsRun(s[n..], w);
        var i, j :| MaximalRun(s[n..], i, j) && s[n..][i..j] == w;
        ShiftRun(s, n, i, j);
      }
    }
  }

  /** Every maximal run of word characters of the input is a token. */
  lemma {:induction false} RunIsWord(s: string, i: int, j: int)
    requires MaximalRun(s, i, j)
    ensures s[i..j] in Words(s)
    decreases |s|
  {
    if !IsWordChar(s[0]) {
      UnshiftRun(s, 1, i, j);
      RunIsWord(s[1..], i - 1, j - 1);
    } else {
      var n := RunLength(s);
      if i == 0 {
        assert s[i..j] == s[..n];
      } else {
        UnshiftRun(s, n, i, j);
        RunIsWord(s[n..], i - n, j - n);
      }
    }
  }

  /** The tokens of `re.findall(r"\w+", s)` are exactly the maximal runs of word characters of
      `s`: nothing is dropped, including a run that ends the string, and nothing is added. */
  lemma WordsAreMaximalRuns(s: string, w: string)
    ensures w in Words(s) <==> exists i, j :: MaximalRun(s, i, j) && s[i..j] == w
  {
    if w in Words(s) {
      WordIsRun(s, w);
    }
    if exists i, j :: MaximalRun(s, i, j) && s[i..j] == w {
      var i, j :| MaximalRun(s, i, j) && s[i..j] == w;
      RunIsWord(s, i, j);
    }
  }

  /** The characters `str.isspace` accepts below U+0100. */
  predicate IsSpace(c: char) {
    (9 <= c as int <= 13) || (28 <= c as int <= 32) || c as int == 0x85 || c as int == 0xA0
  }

  /** The end of the run of whitespace that starts at `i`. */
  function SpaceRun(s: string, i: nat): (j: nat)
    requires i <= |s|
    ensures i <= j <= |s|
    ensures forall k :: i <= k < j ==> IsSpace(s[k])
    ensures j < |s| ==> !IsSpace(s[j])
    decreases |s| - i
  {
    if i < |s| && IsSpace(s[i]) then SpaceRun(s, i + 1) else i
  }

  /** The end of `s[lo..j]` once its trailing whitespace is dropped. */
  function TextEnd(s: string, lo: nat, j: nat): (hi: nat)
    requires lo <= j <= |s|
    ensures lo <= hi <= j
    ensures forall k :: hi <= k < j ==> IsSpace(s[k])
    ensures hi > lo ==> !IsSpace(s[hi - 1])
    decreases j
  {
    if j > lo && IsSpace(s[j - 1]) then TextEnd(s, lo, j - 1) else j
  }

  /** `s.strip()`: the slice between the leading and the trailing whitespace. */
  function Strip(s: string): string {
    var lo := SpaceRun(s, 0);
    s[lo..TextEnd(s, lo, |s|)]
  }

  /** `strip` removes whitespace from both ends and nothing else: the result is a slice of `s`,
      everything cut off is whitespace, and the result neither starts nor ends with whitespace. */
  lemma StripRemovesOnlyOuterSpace(s: string)
    ensures var r, lo := Strip(s), SpaceRun(s, 0);
      lo + |r| <= |s| && r == s[lo..lo + |r|]
        && (forall i :: 0 <= i < lo ==> IsSpace(s[i]))
        && (forall i :: lo + |r| <= i < |s| ==> IsSpace(s[i]))
    ensures Strip(s) != [] ==> !IsSpace(Strip(s)[0]) && !IsSpace(Strip(s)[|Strip(s)| - 1])
  {
  }

  /** `sep.join(parts)`. */
  function Join(parts: seq<string>, sep: string): string {
    if parts == [] then ""
    else if |parts| == 1 then parts[0]
    else parts[0] + sep + Join(parts[1..], sep)
  }

  /** `"".join(parts)`. */
  function Concat(parts: seq<string>): string {
    if parts == [] then "" else Concat(parts[..|parts| - 1]) + parts[|parts| - 1]
  }

  function Digit(d: nat): char
    requires d < 10
  {
    "0123456789"[d]
  }

  /** The decimal rendering of a natural number, as `f"{n}"` gives it. */
  function Decimal(n: nat): (s: string)
    ensures s != []
    ensures forall i :: 0 <= i < |s| ==> '0' <= s[i] <= '9'
    ensures s[0] == '0' ==> n == 0
  {
    if n < 10 then [Digit(n)] else Decimal(n / 10) + [Digit(n % 10)]
  }

  /** The number a string of decimal digits denotes. */
  function DecimalValue(s: string): nat
    requires forall i :: 0 <= i < |s| ==> '0' <= s[i] <= '9'
  {
    if s == [] then 0
    else 10 * DecimalValue(s[..|s| - 1]) + (s[|s| - 1] as int - '0' as int)
  }

  /** Reading back the decimal rendering of `n` gives `n`. */
  lemma {:induction false} DecimalRoundTrip(n: nat)
    ensures DecimalValue(Decimal(n)) == n
  {
    if n >= 10 {
      var s := Decimal(n);
      assert s[..|s| - 1] == Decimal(n / 10);
      DecimalRoundTrip(n / 10);
    }
  }
}
