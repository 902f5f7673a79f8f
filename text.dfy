/**
 * String helpers shared by the web client and the backend.
 *
 * JavaScript's `String.prototype.trim` and Python's `str.strip()` both remove
 * leading and trailing whitespace, but they disagree on which characters are
 * whitespace. The model therefore never fixes that set: every trimming
 * function takes the whitespace class as a parameter `isSpace`.
 */
module Text {

  predicate StartsWith(s: string, prefix: string) {
    |prefix| <= |s| && s[..|prefix|] == prefix
  }

  predicate EndsWith(s: string, suffix: string) {
    |suffix| <= |s| && s[|s| - |suffix|..] == suffix
  }

  /** A prefix stays a prefix when more text is appended. */
  lemma StartsWithAppend(s: string, prefix: string, t: string)
    requires StartsWith(s, prefix)
    ensures StartsWith(s + t, prefix)
  {
    assert (s + t)[..|prefix|] == s[..|prefix|];
  }

  lemma EndsWithConcat(s: string, suffix: string)
    ensures EndsWith(s + suffix, suffix)
  {
    assert (s + suffix)[|s|..] == suffix;
  }

  /** Every character of `s` is whitespace (vacuously true of the empty string). */
  predicate AllSpace(s: string, isSpace: char -> bool) {
    forall i :: 0 <= i < |s| ==> isSpace(s[i])
  }

  /** `s` neither starts nor ends with whitespace. */
  predicate NoEdgeSpace(s: string, isSpace: char -> bool) {
    s == [] || (!isSpace(s[0]) && !isSpace(s[|s| - 1]))
  }

  /** `s` with its leading whitespace removed: a suffix of `s` preceded only by whitespace. */
  function TrimStart(s: string, isSpace: char -> bool): (r: string)
    ensures |r| <= |s| && r == s[|s| - |r|..]
    ensures AllSpace(s[..|s| - |r|], isSpace)
    ensures r == [] || !isSpace(r[0])
  {
    if s != [] && isSpace(s[0]) then
      var r := TrimStart(s[1..], isSpace);
      assert s[..|s| - |r|] == [s[0]] + s[1..][..|s| - 1 - |r|];
      r
    else
      s
  }

  /** `s` with its trailing whitespace removed: a prefix of `s` followed only by whitespace. */
  function TrimEnd(s: string, isSpace: char -> bool): (r: string)
    ensures |r| <= |s| && r == s[..|r|]
    ensures AllSpace(s[|r|..], isSpace)
    ensures r == [] || !isSpace(r[|r| - 1])
  {
    if s != [] && isSpace(s[|s| - 1]) then
      var r := TrimEnd(s[..|s| - 1], isSpace);
      assert s[|r|..] == s[..|s| - 1][|r|..] + [s[|s| - 1]];
      r
    else
      s
  }

  /** Both ends trimmed: at most as long as `s` and without edge whitespace. */
  function Trim(s: string, isSpace: char -> bool): (r: string)
    ensures |r| <= |s|
    ensures NoEdgeSpace(r, isSpace)
  {
    var t := TrimStart(s, isSpace);
    var r := TrimEnd(t, isSpace);
    assert r != [] ==> r[0] == t[0];
    r
  }

  /** The trimmed text is empty exactly when `s` holds nothing but whitespace. */
  lemma TrimEmpty(s: string, isSpace: char -> bool)
    ensures Trim(s, isSpace) == [] <==> AllSpace(s, isSpace)
  {
    var t := TrimStart(s, isSpace);
    var r := TrimEnd(t, isSpace);
    assert s == s[..|s| - |t|] + t;
    AllSpaceConcat(s[..|s| - |t|], t, isSpace);
    if AllSpace(s, isSpace) {
      assert s + [] == s;
      TrimStartSkipsSpace(s, [], isSpace);
    }
    if r == [] {
      assert t == r + t[|r|..];
      AllSpaceConcat(r, t[|r|..], isSpace);
    }
  }

  /** `!s.trim()` / `not s.strip()`: nothing is left after trimming. */
  function Blank(s: string, isSpace: char -> bool): (b: bool)
    ensures b <==> AllSpace(s, isSpace)
  {
    TrimEmpty(s, isSpace);
    Trim(s, isSpace) == []
  }

  lemma {:induction false} AllSpaceConcat(a: string, b: string, isSpace: char -> bool)
    ensures AllSpace(a + b, isSpace) <==> AllSpace(a, isSpace) && AllSpace(b, isSpace)
  {
    if AllSpace(a, isSpace) && AllSpace(b, isSpace) {
      forall i | 0 <= i < |a + b| ensures isSpace((a + b)[i]) {
        if i < |a| { assert (a + b)[i] == a[i]; } else { assert (a + b)[i] == b[i - |a|]; }
      }
    }
    if AllSpace(a + b, isSpace) {
      forall i | 0 <= i < |a| ensures isSpace(a[i]) { assert a[i] == (a + b)[i]; }
      forall i | 0 <= i < |b| ensures isSpace(b[i]) { assert b[i] == (a + b)[|a| + i]; }
    }
  }

  /** Text that neither starts nor ends with whitespace is left as it is. */
  lemma TrimUnchanged(s: string, isSpace: char -> bool)
    requires NoEdgeSpace(s, isSpace)
    ensures Trim(s, isSpace) == s
  {
  }

  /** Leading whitespace is skipped whatever follows it. */
  lemma {:induction false} TrimStartSkipsSpace(w: string, x: string, isSpace: char -> bool)
    requires AllSpace(w, isSpace)
    ensures TrimStart(w + x, isSpace) == TrimStart(x, isSpace)
  {
    if w != [] {
      assert (w + x)[1..] == w[1..] + x;
      assert AllSpace(w[1..], isSpace) by {
        forall i | 0 <= i < |w[1..]| ensures isSpace(w[1..][i]) { assert w[1..][i] == w[i + 1]; }
      }
      assert isSpace((w + x)[0]) by { assert (w + x)[0] == w[0]; }
      TrimStartSkipsSpace(w[1..], x, isSpace);
    } else {
      assert w + x == x;
    }
  }

  /** Trailing whitespace is skipped whatever precedes it. */
  lemma {:induction false} TrimEndSkipsSpace(x: string, w: string, isSpace: char -> bool)
    requires AllSpace(w, isSpace)
    ensures TrimEnd(x + w, isSpace) == TrimEnd(x, isSpace)
  {
    if w != [] {
      var w' := w[..|w| - 1];
      assert (x + w)[..|x + w| - 1] == x + w';
      assert AllSpace(w', isSpace) by {
        forall i | 0 <= i < |w'| ensures isSpace(w'[i]) { assert w'[i] == w[i]; }
      }
      assert isSpace((x + w)[|x + w| - 1]) by { assert (x + w)[|x + w| - 1] == w[|w| - 1]; }
      TrimEndSkipsSpace(x, w', isSpace);
    } else {
      assert x + w == x;
    }
  }

  /** Trimming whitespace padding off a text without edge whitespace gives back that text. */
  lemma TrimPadded(left: string, x: string, right: string, isSpace: char -> bool)
    requires AllSpace(left, isSpace) && AllSpace(right, isSpace)
    requires NoEdgeSpace(x, isSpace)
    ensures Trim(left + x + right, isSpace) == x
  {
    assert left + x + right == left + (x + right);
    TrimStartSkipsSpace(left, x + right, isSpace);
    if x == [] {
      assert x + right == right + [];
      TrimStartSkipsSpace(right, [], isSpace);
    } else {
      assert (x + right)[0] == x[0];
      assert TrimStart(x + right, isSpace) == x + right;
      TrimEndSkipsSpace(x, right, isSpace);
    }
  }

  // Decimal rendering of natural numbers, as a JavaScript template literal prints them.

  predicate IsDigits(s: string) {
    forall i :: 0 <= i < |s| ==> '0' <= s[i] <= '9'
  }

  function Digit(d: nat): (c: char)
    requires d < 10
    ensures '0' <= c <= '9'
  {
    ('0' as int + d) as char
  }

  /** The decimal numeral of `n`: digits only, never empty, no leading zero. */
  function NatToString(n: nat): (r: string)
    ensures r != [] && IsDigits(r)
    ensures r[0] == '0' ==> n == 0 && |r| == 1
    decreases n
  {
    if n < 10 then [Digit(n)] else NatToString(n / 10) + [Digit(n % 10)]
  }

  /** The number a string of decimal digits denotes. */
  function DigitsValue(s: string): nat
    requires IsDigits(s)
  {
    if s == [] then 0 else DigitsValue(s[..|s| - 1]) * 10 + (s[|s| - 1] as int - '0' as int)
  }

  /** Reading the numeral back gives the number. */
  lemma {:induction false} NatToStringRoundTrip(n: nat)
    ensures DigitsValue(NatToString(n)) == n
    decreases n
  {
    if n >= 10 {
      var r := NatToString(n);
      assert r[..|r| - 1] == NatToString(n / 10);
      NatToStringRoundTrip(n / 10);
    }
  }

  /** Distinct numbers have distinct numerals. */
  lemma NatToStringInjective(m: nat, n: nat)
    requires NatToString(m) == NatToString(n)
    ensures m == n
  {
    NatToStringRoundTrip(m);
    NatToStringRoundTrip(n);
  }
}
