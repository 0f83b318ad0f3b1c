/** JavaScript string operations the services rely on, stated over `seq<char>`.
    Lengths are counted in characters (Unicode scalar values). */
module Strings {

  predicate StartsWith(s: string, prefix: string) {
    |prefix| <= |s| && forall i :: 0 <= i < |prefix| ==> s[i] == prefix[i]
  }

  /** The WhiteSpace and LineTerminator code points of ECMAScript: what `trim` removes. */
  const JsWhitespace: set<char> := {
    '\t', '\n', '\U{000B}', '\U{000C}', '\r', ' ', '\U{00A0}', '\U{1680}',
    '\U{2000}', '\U{2001}', '\U{2002}', '\U{2003}', '\U{2004}', '\U{2005}', '\U{2006}',
    '\U{2007}', '\U{2008}', '\U{2009}', '\U{200A}',
    '\U{2028}', '\U{2029}', '\U{202F}', '\U{205F}', '\U{3000}', '\U{FEFF}'
  }

  predicate IsJsWhitespace(c: char) {
    c in JsWhitespace
  }

  /** Neither end of `s` is blank. */
  predicate Trimmed(s: string) {
    s == [] || (!IsJsWhitespace(s[0]) && !IsJsWhitespace(s[|s| - 1]))
  }

  predicate AllWhitespace(s: string) {
    forall i :: 0 <= i < |s| ==> IsJsWhitespace(s[i])
  }

  /** The number of whitespace characters `s` starts with. */
  function LeadingWhitespace(s: string): (n: nat)
    ensures n <= |s| && forall i :: 0 <= i < n ==> IsJsWhitespace(s[i])
    ensures n == |s| || !IsJsWhitespace(s[n])
  {
    if |s| > 0 && IsJsWhitespace(s[0]) then 1 + LeadingWhitespace(s[1..]) else 0
  }

  /** The number of whitespace characters `s` ends with. */
  function TrailingWhitespace(s: string): (n: nat)
    ensures n <= |s| && forall i :: |s| - n <= i < |s| ==> IsJsWhitespace(s[i])
    ensures n == |s| || !IsJsWhitespace(s[|s| - n - 1])
  {
    if |s| > 0 && IsJsWhitespace(s[|s| - 1]) then 1 + TrailingWhitespace(s[..|s| - 1]) else 0
  }

  /** `String.prototype.trim`: both ends stripped of whitespace. */
  function Trim(s: string): string {
    var t := s[LeadingWhitespace(s)..];
    t[..|t| - TrailingWhitespace(t)]
  }

  /** What `trim` keeps is an infix of `s` that neither starts nor ends with whitespace,
      everything around it being whitespace. */
  lemma TrimIsInfix(s: string)
    ensures LeadingWhitespace(s) + |Trim(s)| <= |s|
    ensures Trim(s) == s[LeadingWhitespace(s)..LeadingWhitespace(s) + |Trim(s)|]
    ensures AllWhitespace(s[..LeadingWhitespace(s)])
    ensures AllWhitespace(s[LeadingWhitespace(s) + |Trim(s)|..])
    ensures Trimmed(Trim(s))
  {
    var k := LeadingWhitespace(s);
    var t := s[k..];
    var m := TrailingWhitespace(t);
    TrimSlice(s, k, m);
    LeadingIsWhitespace(s, k);
    TrailingIsWhitespace(s, k, m);
    TrimEnds(s, k, m);
  }

  lemma TrimSlice(s: string, k: nat, m: nat)
    requires k == LeadingWhitespace(s) && m == TrailingWhitespace(s[k..])
    ensures |Trim(s)| == |s| - k - m && Trim(s) == s[k..|s| - m]
  {
  }

  lemma LeadingIsWhitespace(s: string, k: nat)
    requires k == LeadingWhitespace(s)
    ensures AllWhitespace(s[..k])
  {
    forall i | 0 <= i < k
      ensures IsJsWhitespace(s[..k][i])
    {
      assert s[..k][i] == s[i];
    }
  }

  /** What `TrailingWhitespace` counts is a whitespace suffix. */
  lemma {:induction false} TrailingSuffix(t: string)
    ensures AllWhitespace(t[|t| - TrailingWhitespace(t)..])
  {
    if |t| > 0 && IsJsWhitespace(t[|t| - 1]) {
      var u := t[..|t| - 1];
      TrailingSuffix(u);
      var w := u[|u| - TrailingWhitespace(u)..];
      assert t[|t| - TrailingWhitespace(t)..] == w + [t[|t| - 1]];
      WhitespaceAppend(w, t[|t| - 1]);
    } else {
      assert t[|t|..] == [];
    }
  }

  lemma WhitespaceAppend(w: string, c: char)
    requires AllWhitespace(w) && IsJsWhitespace(c)
    ensures AllWhitespace(w + [c])
  {
    forall i | 0 <= i < |w| + 1
      ensures IsJsWhitespace((w + [c])[i])
    {
      if i < |w| {
        assert (w + [c])[i] == w[i];
      }
    }
  }

  lemma TrailingIsWhitespace(s: string, k: nat, m: nat)
    requires k == LeadingWhitespace(s) && m == TrailingWhitespace(s[k..])
    ensures AllWhitespace(s[|s| - m..])
  {
    TrailingSuffix(s[k..]);
    SuffixOfDrop(s, k, m);
  }

  lemma SuffixOfDrop<T>(s: seq<T>, k: nat, m: nat)
    requires k + m <= |s|
    ensures s[k..][|s| - k - m..] == s[|s| - m..]
  {
  }

  lemma TrimEnds(s: string, k: nat, m: nat)
    requires k == LeadingWhitespace(s) && m == TrailingWhitespace(s[k..])
    ensures Trimmed(Trim(s))
  {
    var t := s[k..];
    var r := t[..|t| - m];
    assert Trim(s) == r;
    if r != [] {
      assert r[0] == t[0];
      assert r[|r| - 1] == t[|t| - m - 1];
    }
  }

  /** Trimming twice is trimming once. */
  lemma TrimIdempotent(s: string)
    ensures Trim(Trim(s)) == Trim(s)
  {
    var r := Trim(s);
    TrimIsInfix(s);
    if r != [] {
      assert LeadingWhitespace(r) == 0;
      assert r[0..] == r;
      assert TrailingWhitespace(r) == 0;
    }
  }

  /** `s.slice(0, n)`: the first `n` characters, or all of `s` when it is shorter. */
  function Prefix<T>(s: seq<T>, n: nat): (r: seq<T>)
    ensures |r| == if |s| <= n then |s| else n
    ensures r == s[..|r|]
  {
    if |s| <= n then s else s[..n]
  }

  /** `s.split("\n")`: the pieces between line feeds; there is always at least one. */
  function SplitLines(s: string): (r: seq<string>)
    ensures |r| >= 1
    ensures forall i, j :: 0 <= i < |r| && 0 <= j < |r[i]| ==> r[i][j] != '\n'
  {
    if |s| == 0 then [""]
    else
      var rest := SplitLines(s[1..]);
      if s[0] == '\n' then [""] + rest
      else [[s[0]] + rest[0]] + rest[1..]
  }

  /** `xs.join(sep)`. */
  function Join(xs: seq<string>, sep: string): string {
    if |xs| == 0 then ""
    else if |xs| == 1 then xs[0]
    else xs[0] + sep + Join(xs[1..], sep)
  }

  /** Joining the pieces of a split with line feeds gives the text back. */
  lemma {:induction false} JoinSplitLines(s: string)
    ensures Join(SplitLines(s), "\n") == s
  {
    if |s| > 0 {
      var rest := SplitLines(s[1..]);
      JoinSplitLines(s[1..]);
      if s[0] == '\n' {
        assert SplitLines(s) == [""] + rest;
        assert s == [s[0]] + s[1..];
      } else {
        var r := SplitLines(s);
        assert r == [[s[0]] + rest[0]] + rest[1..];
        if |rest| == 1 {
          assert s == [s[0]] + s[1..];
        } else {
          assert r[1..] == rest[1..];
          assert Join(rest, "\n") == rest[0] + "\n" + Join(rest[1..], "\n");
          assert s == [s[0]] + s[1..];
        }
      }
    }
  }

  /** The first line of a split is what comes before the first line feed. */
  lemma {:induction false} SplitLinesFirst(s: string, k: nat)
    requires k <= |s|
    requires forall i :: 0 <= i < k ==> s[i] != '\n'
    requires k == |s| || s[k] == '\n'
    ensures SplitLines(s)[0] == s[..k]
  {
    if k > 0 {
      SplitLinesFirst(s[1..], k - 1);
      assert s[..k] == [s[0]] + s[1..][..k - 1];
    }
  }

  /** A line feed followed by the remaining text adds exactly one line. */
  lemma {:induction false} SplitLinesAppend(a: string, b: string)
    requires forall i :: 0 <= i < |a| ==> a[i] != '\n'
    ensures SplitLines(a + "\n" + b) == [a] + SplitLines(b)
  {
    if |a| == 0 {
      assert a + "\n" + b == "\n" + b;
      assert ("\n" + b)[1..] == b;
    } else {
      SplitLinesAppend(a[1..], b);
      assert (a + "\n" + b)[1..] == a[1..] + "\n" + b;
      assert [a[0]] + a[1..] == a;
    }
  }

  lemma {:induction false} SplitLinesSingle(a: string)
    requires forall i :: 0 <= i < |a| ==> a[i] != '\n'
    ensures SplitLines(a) == [a]
  {
    if |a| > 0 {
      SplitLinesSingle(a[1..]);
      assert [a[0]] + a[1..] == a;
    }
  }

  // ---------------------------------------------------------------------------
  // Decimal digits
  // ---------------------------------------------------------------------------

  predicate IsDigit(c: char) { '0' <= c <= '9' }

  predicate AllDigits(s: string) { forall i :: 0 <= i < |s| ==> IsDigit(s[i]) }

  function DigitChar(d: nat): (c: char)
    requires d < 10
    ensures IsDigit(c)
  {
    (48 + d) as char
  }

  function DigitValue(c: char): (d: nat)
    requires IsDigit(c)
    ensures d < 10 && DigitChar(d) == c
  {
    (c as int) - 48
  }

  /** The decimal notation of `n`, as a template literal prints a whole number. */
  function NatToString(n: nat): string
  {
    if n < 10 then [DigitChar(n)] else NatToString(n / 10) + [DigitChar(n % 10)]
  }

  /** `Number(s)` for a non-empty string of decimal digits (leading zeros allowed). */
  function DecimalValue(s: string): nat
    requires AllDigits(s)
  {
    if |s| == 0 then 0 else 10 * DecimalValue(s[..|s| - 1]) + DigitValue(s[|s| - 1])
  }

  /** Printing a number and reading it back gives the number: the notation is all digits,
      non-empty, and unambiguous. */
  lemma {:induction false} DecimalRoundTrip(n: nat)
    ensures |NatToString(n)| > 0 && AllDigits(NatToString(n))
    ensures DecimalValue(NatToString(n)) == n
  {
    if n >= 10 {
      DecimalRoundTrip(n / 10);
      var s := NatToString(n);
      assert s[..|s| - 1] == NatToString(n / 10);
    }
  }

  lemma NatToStringInjective(m: nat, n: nat)
    requires NatToString(m) == NatToString(n)
    ensures m == n
  {
    DecimalRoundTrip(m);
    DecimalRoundTrip(n);
  }

  /** The length of the run of digits at the start of `s`. */
  function DigitRun(s: string): (k: nat)
    ensures k <= |s| && AllDigits(s[..k])
    ensures k == |s| || !IsDigit(s[k])
  {
    if |s| > 0 && IsDigit(s[0]) then
      var k := DigitRun(s[1..]);
      assert s[..k + 1] == [s[0]] + s[1..][..k];
      k + 1
    else 0
  }

  lemma {:induction false} DigitRunOfDigits(d: string, t: string)
    requires AllDigits(d)
    requires t == [] || !IsDigit(t[0])
    ensures DigitRun(d + t) == |d|
  {
    if |d| > 0 {
      DigitRunOfDigits(d[1..], t);
      assert (d + t)[1..] == d[1..] + t;
    }
  }

  /** `s.replace(pattern, "")` with a string pattern: only the first occurrence is removed. */
  function RemoveFirst(s: string, pattern: string): (r: string)
    requires |pattern| > 0
    decreases |s|
  {
    if |s| < |pattern| then s
    else if s[..|pattern|] == pattern then s[|pattern|..]
    else [s[0]] + RemoveFirst(s[1..], pattern)
  }

  predicate NoLineFeed(s: string) { forall j :: 0 <= j < |s| ==> s[j] != '\n' }

  /** Splitting lines that were joined with line feeds gives the lines back. */
  lemma {:induction false} SplitJoinLines(xs: seq<string>)
    requires |xs| > 0
    requires LinesWithoutLineFeed(xs)
    ensures SplitLines(Join(xs, "\n")) == xs
  {
    if |xs| == 1 {
      SplitLinesSingle(xs[0]);
    } else {
      SplitJoinLines(xs[1..]);
      SplitLinesAppend(xs[0], Join(xs[1..], "\n"));
    }
  }

  lemma JoinStartsWith(xs: seq<string>, p: string)
    requires |xs| > 0 && StartsWith(xs[0], p)
    ensures StartsWith(Join(xs, "\n"), p)
  {
    if |xs| > 1 {
      assert Join(xs, "\n") == xs[0] + ("\n" + Join(xs[1..], "\n"));
      assert (xs[0] + ("\n" + Join(xs[1..], "\n")))[..|p|] == xs[0][..|p|];
    }
  }

  /** Trimming keeps everything from the first to the last non-whitespace character. */
  lemma TrimKeeps(s: string, n: nat)
    requires 0 < n <= |s|
    requires !IsJsWhitespace(s[0]) && !IsJsWhitespace(s[n - 1])
    ensures |Trim(s)| >= n
  {
    assert s[0..] == s;
  }

  /** `trim` gives the empty string exactly when the text is all whitespace. */
  lemma TrimEmptyIffWhitespace(s: string)
    ensures |Trim(s)| == 0 <==> AllWhitespace(s)
  {
    var k := LeadingWhitespace(s);
    if k < |s| {
      var t := s[k..];
      assert t[0] == s[k];
    }
  }

  lemma StartsWithConcat(p: string, q: string)
    ensures StartsWith(p + q, p)
  {
    assert (p + q)[..|p|] == p;
  }

  lemma NoLineFeedConcat(a: string, b: string)
    requires NoLineFeed(a) && NoLineFeed(b)
    ensures NoLineFeed(a + b)
  {
    forall j | 0 <= j < |a + b| ensures (a + b)[j] != '\n' {
      if j < |a| { assert (a + b)[j] == a[j]; } else { assert (a + b)[j] == b[j - |a|]; }
    }
  }

  lemma DigitsNoLineFeed(s: string)
    requires AllDigits(s)
    ensures NoLineFeed(s)
  {
  }

  /** Every line of a sequence is free of line feeds. */
  predicate LinesWithoutLineFeed(xs: seq<string>) {
    forall i :: 0 <= i < |xs| ==> NoLineFeed(xs[i])
  }

  lemma LinesConcat(xs: seq<string>, ys: seq<string>)
    requires LinesWithoutLineFeed(xs) && LinesWithoutLineFeed(ys)
    ensures LinesWithoutLineFeed(xs + ys)
  {
    forall i | 0 <= i < |xs + ys| ensures NoLineFeed((xs + ys)[i]) {
      if i < |xs| { assert (xs + ys)[i] == xs[i]; } else { assert (xs + ys)[i] == ys[i - |xs|]; }
    }
  }

  lemma NoLineFeedNotIn(s: string)
    ensures NoLineFeed(s) <==> '\n' !in s
  {
  }

  /** A trailing line feed adds one empty line at the end. */
  lemma {:induction false} SplitLinesTrailing(d: string)
    ensures SplitLines(d + "\n") == SplitLines(d) + [""]
  {
    if |d| > 0 {
      var t := d + "\n";
      assert t[0] == d[0] && t[1..] == d[1..] + "\n";
      SplitLinesTrailing(d[1..]);
      var rest := SplitLines(d[1..]);
      if d[0] != '\n' {
        assert (rest + [""])[1..] == rest[1..] + [""];
      }
    } else {
      assert d + "\n" == "\n";
      assert "\n"[1..] == "";
    }
  }

  lemma NotStartsWith(s: string, p: string)
    requires |s| > 0 && |p| > 0 && s[0] != p[0]
    ensures !StartsWith(s, p)
  {
  }

  /** A text that starts with `q` starts with every prefix of `q`. */
  lemma StartsWithTrans(s: string, q: string, p: string)
    requires StartsWith(s, q) && StartsWith(q, p)
    ensures StartsWith(s, p)
  {
    assert s[..|p|] == s[..|q|][..|p|];
  }

  /** Equal texts with the same surroundings have equal middles. */
  lemma MiddleCancel(a: string, x: string, y: string, b: string)
    requires a + x + b == a + y + b
    ensures x == y
  {
    var s := a + x + b;
    assert |x| == |y|;
    assert x == s[|a|..|a| + |x|];
    assert y == (a + y + b)[|a|..|a| + |y|];
  }

  /** The same cancellation, for the middle of a longer concatenation. */
  lemma Cancel4(a: string, x: string, y: string, b: string, c: string, d: string, e: string, f: string)
    requires a + x + b + c + d + e + f == a + y + b + c + d + e + f
    ensures x == y
  {
    var t := b + c + d + e + f;
    assert a + x + b + c + d + e + f == a + x + t;
    assert a + y + b + c + d + e + f == a + y + t;
    MiddleCancel(a, x, y, t);
  }

  lemma Cancel3(a: string, x: string, y: string, b: string, c: string, d: string)
    requires a + x + b + c + d == a + y + b + c + d
    ensures x == y
  {
    var t := b + c + d;
    assert a + x + b + c + d == a + x + t;
    assert a + y + b + c + d == a + y + t;
    MiddleCancel(a, x, y, t);
  }
}
