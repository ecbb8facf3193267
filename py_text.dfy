/** The few Python string operations DorkRecon relies on: `str.isspace()` on one
    character, `str.strip()` with no argument, `str.startswith` and `str(n)` for a
    non-negative integer. Strings are sequences of Unicode scalar values. */
module PyText {

  /** The characters Python's `str.isspace()` accepts, which are exactly the ones
      `str.strip()` removes when called without an argument. */
  predicate IsSpace(c: char) {
    ('\t' <= c <= '\r') || ('\U{1C}' <= c <= ' ') || c == '\U{85}' || c == '\U{A0}'
    || c == '\U{1680}' || ('\U{2000}' <= c <= '\U{200A}') || c == '\U{2028}' || c == '\U{2029}'
    || c == '\U{202F}' || c == '\U{205F}' || c == '\U{3000}'
  }

  /** True when `s.strip()` is the empty string (Python: `not s.strip()`). */
  predicate IsBlank(s: string) {
    forall i :: 0 <= i < |s| ==> IsSpace(s[i])
  }

  /** `s.lstrip()`. */
  function StripLeading(s: string): string {
    if s != [] && IsSpace(s[0]) then StripLeading(s[1..]) else s
  }

  /** `s.rstrip()`. */
  function StripTrailing(s: string): string {
    if s != [] && IsSpace(s[|s| - 1]) then StripTrailing(s[..|s| - 1]) else s
  }

  /** `s.strip()`. */
  function Strip(s: string): string {
    StripTrailing(StripLeading(s))
  }

  /** `lstrip` removes a whitespace prefix and leaves a suffix that does not start with
      whitespace. */
  lemma {:induction false} StripLeadingShape(s: string)
    ensures var r := StripLeading(s);
      |r| <= |s| && r == s[|s| - |r|..] && IsBlank(s[..|s| - |r|]) && (r == [] || !IsSpace(r[0]))
  {
    if s != [] && IsSpace(s[0]) {
      StripLeadingShape(s[1..]);
      var r := StripLeading(s);
      assert s[..|s| - |r|] == [s[0]] + s[1..][..|s| - 1 - |r|];
    }
  }

  /** `rstrip` removes a whitespace suffix and leaves a prefix that does not end with
      whitespace. */
  lemma {:induction false} StripTrailingShape(s: string)
    ensures var r := StripTrailing(s);
      |r| <= |s| && r == s[..|r|] && IsBlank(s[|r|..]) && (r == [] || !IsSpace(r[|r| - 1]))
  {
    if s != [] && IsSpace(s[|s| - 1]) {
      var t := s[..|s| - 1];
      StripTrailingShape(t);
      var r := StripTrailing(s);
      assert s[|r|..] == t[|r|..] + [s[|s| - 1]];
    }
  }

  /** Whitespace followed by whitespace is whitespace. */
  lemma BlankConcat(a: string, b: string)
    requires IsBlank(a) && IsBlank(b)
    ensures IsBlank(a + b)
  {
    forall i | 0 <= i < |a + b| ensures IsSpace((a + b)[i]) {
      if i < |a| { assert (a + b)[i] == a[i]; } else { assert (a + b)[i] == b[i - |a|]; }
    }
  }

  /** `s.strip()` is empty exactly when `s` is all whitespace; otherwise it neither starts
      nor ends with whitespace. */
  lemma StripShape(s: string)
    ensures Strip(s) == [] <==> IsBlank(s)
    ensures Strip(s) == [] || (!IsSpace(Strip(s)[0]) && !IsSpace(Strip(s)[|Strip(s)| - 1]))
  {
    var t := StripLeading(s);
    StripLeadingShape(s);
    var k := |s| - |t|;
    var r := StripTrailing(t);
    StripTrailingShape(t);
    if r == [] {
      assert t[|r|..] == t;
      assert s == s[..k] + t;
      BlankConcat(s[..k], t);
    } else {
      assert r[0] == t[0] == s[k];
    }
  }

  /** Python's `s.startswith(prefix)`. */
  predicate StartsWith(s: string, prefix: string) {
    |prefix| <= |s| && s[..|prefix|] == prefix
  }

  /** Leading whitespace in front of a string that does not start with whitespace is
      exactly what `lstrip` removes. */
  lemma {:induction false} StripLeadingSkipsBlank(a: string, t: string)
    requires IsBlank(a)
    requires t == [] || !IsSpace(t[0])
    ensures StripLeading(a + t) == t
  {
    if a != [] {
      assert (a + t)[0] == a[0];
      assert (a + t)[1..] == a[1..] + t;
      StripLeadingSkipsBlank(a[1..], t);
    }
  }

  /** Trailing whitespace behind a string that does not end with whitespace is exactly
      what `rstrip` removes. */
  lemma {:induction false} StripTrailingSkipsBlank(t: string, b: string)
    requires IsBlank(b)
    requires t == [] || !IsSpace(t[|t| - 1])
    ensures StripTrailing(t + b) == t
  {
    if b != [] {
      var b' := b[..|b| - 1];
      assert (t + b)[|t + b| - 1] == b[|b| - 1];
      assert (t + b)[..|t + b| - 1] == t + b';
      StripTrailingSkipsBlank(t, b');
    } else {
      assert t + b == t;
    }
  }

  /** `strip` is determined by what it keeps: whitespace around a core that neither
      starts nor ends with whitespace strips to that core. */
  lemma StripExact(a: string, m: string, b: string)
    requires IsBlank(a) && IsBlank(b)
    requires m == [] || (!IsSpace(m[0]) && !IsSpace(m[|m| - 1]))
    ensures Strip(a + m + b) == m
  {
    if m == [] {
      assert a + m + b == a + b;
      StripShape(a + b);
      BlankConcat(a, b);
    } else {
      assert a + m + b == a + (m + b);
      assert (m + b)[0] == m[0];
      StripLeadingSkipsBlank(a, m + b);
      StripTrailingSkipsBlank(m, b);
    }
  }

  /** Stripping twice is stripping once. */
  lemma StripIdempotent(s: string)
    ensures Strip(Strip(s)) == Strip(s)
  {
    var r := Strip(s);
    StripShape(s);
    assert r == [] + r + [];
    StripExact([], r, []);
  }

  /** A string made only of the digits '0'..'9'. */
  predicate IsDigits(s: string) {
    forall i :: 0 <= i < |s| ==> '0' <= s[i] <= '9'
  }

  function DigitChar(d: nat): (c: char)
    requires d < 10
    ensures '0' <= c <= '9'
    ensures c as int == 48 + d
  {
    (48 + d) as char
  }

  /** `str(n)` for a non-negative integer: its decimal digits, no leading zero. */
  function DecimalString(n: nat): (r: string)
    ensures |r| >= 1 && IsDigits(r)
    ensures r[0] == '0' ==> r == "0"
  {
    if n < 10 then [DigitChar(n)] else DecimalString(n / 10) + [DigitChar(n % 10)]
  }

  /** `int(s)` for a string of decimal digits. */
  function DecimalValue(s: string): nat
    requires IsDigits(s)
  {
    if s == [] then 0 else 10 * DecimalValue(s[..|s| - 1]) + (s[|s| - 1] as int - 48)
  }

  /** Reading back the decimal string of `n` gives `n`. */
  lemma {:induction false} DecimalRoundTrip(n: nat)
    ensures DecimalValue(DecimalString(n)) == n
  {
    if n >= 10 {
      var r := DecimalString(n);
      assert r[..|r| - 1] == DecimalString(n / 10);
      DecimalRoundTrip(n / 10);
    }
  }
}
