/**
 * The few pieces of Python string and integer behaviour the server relies on:
 * `str.strip()`, `int(s)` on a stripped string, and `str(n)` for an integer.
 */
module PyText {
  import opened Wrappers

  /** The characters for which Python's `str.isspace()` holds; `str.strip()` removes these. */
  predicate IsSpace(c: char) {
    var n := c as int;
    (0x09 <= n <= 0x0d) || (0x1c <= n <= 0x20) || n == 0x85 || n == 0xa0 || n == 0x1680
    || (0x2000 <= n <= 0x200a) || n == 0x2028 || n == 0x2029 || n == 0x202f
    || n == 0x205f || n == 0x3000
  }

  /** Neither the first nor the last character is whitespace. */
  predicate Unpadded(s: string) {
    s == [] || (!IsSpace(s[0]) && !IsSpace(s[|s| - 1]))
  }

  /** `s.strip()`: leading and trailing whitespace removed (see StripUnpadded and StripOfUnpadded). */
  function Strip(s: string): (r: string)
  {
    if s != [] && IsSpace(s[0]) then Strip(s[1..])
    else if s != [] && IsSpace(s[|s| - 1]) then Strip(s[..|s| - 1])
    else s
  }

  /** Whatever `strip()` returns has no whitespace at either end. */
  lemma {:induction false} StripUnpadded(s: string)
    ensures Unpadded(Strip(s))
    decreases |s|
  {
    if s != [] && IsSpace(s[0]) {
      StripUnpadded(s[1..]);
    } else if s != [] && IsSpace(s[|s| - 1]) {
      StripUnpadded(s[..|s| - 1]);
    }
  }

  /** `strip()` leaves a string without whitespace at either end as it is. */
  lemma StripOfUnpadded(s: string)
    requires Unpadded(s)
    ensures Strip(s) == s
  {
  }

  /** A string of whitespace only strips to the empty string. */
  lemma {:induction false} StripAllSpace(s: string)
    requires forall k :: 0 <= k < |s| ==> IsSpace(s[k])
    ensures Strip(s) == ""
    decreases |s|
  {
    if s != [] {
      StripAllSpace(s[1..]);
    }
  }

  /**
   * `strip()` removes exactly the whitespace around the text: whitespace `a` before and
   * `b` after a non-empty `t` with no whitespace at its ends leaves `t`.
   */
  lemma {:induction false} StripSurrounding(a: string, t: string, b: string)
    requires forall k :: 0 <= k < |a| ==> IsSpace(a[k])
    requires forall k :: 0 <= k < |b| ==> IsSpace(b[k])
    requires t != [] && Unpadded(t)
    ensures Strip(a + t + b) == t
    decreases |a| + |b|
  {
    var s := a + t + b;
    if a != [] {
      assert s[0] == a[0];
      assert s[1..] == a[1..] + t + b;
      StripSurrounding(a[1..], t, b);
    } else if b != [] {
      assert s == t + b;
      assert s[0] == t[0];
      assert s[|s| - 1] == b[|b| - 1];
      assert s[..|s| - 1] == [] + t + b[..|b| - 1];
      StripSurrounding([], t, b[..|b| - 1]);
    } else {
      assert s == t;
    }
  }

  /** `strip()` is idempotent. */
  lemma StripIdempotent(s: string)
    ensures Strip(Strip(s)) == Strip(s)
  {
    StripUnpadded(s);
  }

  predicate IsDigit(c: char) {
    '0' <= c <= '9'
  }

  predicate AllDigits(s: string) {
    forall k :: 0 <= k < |s| ==> IsDigit(s[k])
  }

  /** The value of a string of decimal digits, most significant first. */
  function DigitsValue(s: string): nat
    requires AllDigits(s)
  {
    if s == [] then 0 else 10 * DigitsValue(s[..|s| - 1]) + (s[|s| - 1] as int - '0' as int)
  }

  function DigitChar(d: nat): (c: char)
    requires d < 10
    ensures IsDigit(c) && c as int - '0' as int == d
  {
    ('0' as int + d) as char
  }

  /** The shortest decimal spelling of `n`. */
  function NatDigits(n: nat): (s: string)
    ensures s != [] && AllDigits(s)
  {
    if n < 10 then [DigitChar(n)] else NatDigits(n / 10) + [DigitChar(n % 10)]
  }

  /**
   * Python's `int(s)` for a string `s` that has already been stripped: an optional
   * sign followed by one or more decimal digits; anything else raises (None here).
   */
  function ParseInt(s: string): (r: Option<int>)
    ensures r.Some? ==> s != [] && !IsSpace(s[0]) && !IsSpace(s[|s| - 1])
  {
    if s != [] && (s[0] == '-' || s[0] == '+') then
      var digits := s[1..];
      if digits != [] && AllDigits(digits) then
        var magnitude: int := DigitsValue(digits);
        Some(if s[0] == '-' then -magnitude else magnitude)
      else
        None
    else if s != [] && AllDigits(s) then
      Some(DigitsValue(s))
    else
      None
  }

  /** Python's `str(n)` for an integer `n`. */
  function FormatInt(n: int): (s: string)
  {
    if n < 0 then "-" + NatDigits(-n) else NatDigits(n)
  }

  /**
   * How the handlers read the run-count cell: an empty cell, or one that is blank
   * after stripping, counts as "0"; text that is not an integer counts as 0.
   * An empty cell reads as "".
   */
  function ParseRunCount(cell: string): (n: int)
    ensures ParseInt(Strip(cell)).Some? ==> n == ParseInt(Strip(cell)).value
    ensures ParseInt(Strip(cell)).None? ==> n == 0
  {
    assert Strip("0") == "0" && ParseInt("0") == Some(0);
    var v := if cell == "" then "0" else cell;
    var t := Strip(v);
    ParseInt(if t == "" then "0" else t).GetOr(0)
  }

  lemma {:induction false} DigitsRoundTrip(n: nat)
    ensures DigitsValue(NatDigits(n)) == n
  {
    if n >= 10 {
      var s := NatDigits(n);
      assert s[..|s| - 1] == NatDigits(n / 10);
      DigitsRoundTrip(n / 10);
    } else {
      assert NatDigits(n)[..0] == [];
    }
  }

  /** `int(str(n)) == n`. */
  lemma FormatIntRoundTrip(n: int)
    ensures ParseInt(FormatInt(n)) == Some(n)
  {
    var s := FormatInt(n);
    if n < 0 {
      assert s[1..] == NatDigits(-n);
      DigitsRoundTrip(-n);
    } else {
      DigitsRoundTrip(n);
    }
  }

  /** A blank cell, or one holding only whitespace, reads as run count 0. */
  lemma BlankRunCount(cell: string)
    requires forall k :: 0 <= k < |cell| ==> IsSpace(cell[k])
    ensures ParseRunCount(cell) == 0
  {
    StripAllSpace(cell);
  }

  /** `str(n)` starts with a sign or a digit and ends with a digit. */
  lemma FormatIntUnpadded(n: int)
    ensures FormatInt(n) != [] && Unpadded(FormatInt(n))
  {
  }

  /** A run-count cell written as `str(n)` reads back as `n`. */
  lemma RunCountRoundTrip(n: int)
    ensures ParseRunCount(FormatInt(n)) == n
  {
    FormatIntUnpadded(n);
    FormatIntRoundTrip(n);
  }
}
