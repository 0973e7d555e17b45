/**
 * Ruby's `String#to_i` (base 10) and `nil.to_i`, used on the `master_port`
 * field of the slave's INFO reply, and the decimal rendering of a port.
 */
module RubyString {
  import opened Base

  /** Ruby's whitespace set for `to_i`: space, tab, newline, vertical tab, form feed, return. */
  predicate IsSpace(c: char) {
    c == ' ' || (9 <= c as int <= 13)
  }

  predicate IsDigit(c: char) {
    '0' <= c <= '9'
  }

  predicate AllDigits(s: string) {
    forall j :: 0 <= j < |s| ==> IsDigit(s[j])
  }

  /** Drops the leading whitespace. */
  function SkipSpace(s: string): (r: string)
    ensures |r| <= |s| && r == s[|s| - |r|..]
    ensures forall j :: 0 <= j < |s| - |r| ==> IsSpace(s[j])
    ensures r == [] || !IsSpace(r[0])
  {
    if s != [] && IsSpace(s[0]) then SkipSpace(s[1..]) else s
  }

  /** The longest prefix of `s` made of decimal digits. */
  function DigitPrefix(s: string): (r: string)
    ensures r <= s
    ensures AllDigits(r)
    ensures |r| == |s| || !IsDigit(s[|r|])
  {
    if s != [] && IsDigit(s[0]) then [s[0]] + DigitPrefix(s[1..]) else []
  }

  /** The number a string of decimal digits denotes, most significant digit first. */
  function DigitsValue(ds: string): (n: nat)
    requires AllDigits(ds)
  {
    if ds == [] then 0
    else DigitsValue(ds[..|ds| - 1]) * 10 + (ds[|ds| - 1] as int - '0' as int)
  }

  /**
   * `String#to_i`: skip leading whitespace, read an optional sign, then as many
   * digits as follow; anything else ends the number, and no digits at all give 0.
   */
  function ToI(s: string): (n: int) {
    var u := SkipSpace(s);
    if u != [] && u[0] == '-' then -(DigitsValue(DigitPrefix(u[1..])) as int)
    else if u != [] && u[0] == '+' then DigitsValue(DigitPrefix(u[1..]))
    else DigitsValue(DigitPrefix(u))
  }

  /** `x.to_i` for a value that may be `nil`; `nil.to_i` is 0. */
  function NilToI(s: Option<string>): (n: int)
    ensures s.None? ==> n == 0
  {
    match s
    case None => 0
    case Some(t) => ToI(t)
  }

  function DigitChar(d: nat): (c: char)
    requires d < 10
    ensures IsDigit(c) && c as int - '0' as int == d
  {
    ('0' as int + d) as char
  }

  /** The decimal rendering of `n`, as INFO prints a port. */
  function ShowNat(n: nat): (s: string)
    ensures s != [] && AllDigits(s)
  {
    if n < 10 then [DigitChar(n)] else ShowNat(n / 10) + [DigitChar(n % 10)]
  }

  lemma {:induction false} DigitsValueShowNat(n: nat)
    ensures DigitsValue(ShowNat(n)) == n
  {
    if n >= 10 {
      var s := ShowNat(n);
      assert s[..|s| - 1] == ShowNat(n / 10);
      DigitsValueShowNat(n / 10);
    }
  }

  lemma {:induction false} DigitPrefixStops(ds: string, rest: string)
    requires AllDigits(ds)
    requires rest == [] || !IsDigit(rest[0])
    ensures DigitPrefix(ds + rest) == ds
  {
    if ds != [] {
      assert (ds + rest)[1..] == ds[1..] + rest;
      DigitPrefixStops(ds[1..], rest);
    } else {
      assert ds + rest == rest;
    }
  }

  /**
   * Reading back a rendered number, with whatever non-digit text follows it
   * (a trailing "\r", say), gives the number.
   */
  lemma ToIShowNat(n: nat, rest: string)
    requires rest == [] || !IsDigit(rest[0])
    ensures ToI(ShowNat(n) + rest) == n
  {
    var s := ShowNat(n);
    assert (s + rest)[0] == s[0];
    assert SkipSpace(s + rest) == s + rest;
    DigitPrefixStops(s, rest);
    DigitsValueShowNat(n);
  }

  /** A leading minus sign negates what follows. */
  lemma ToINegative(n: nat)
    ensures ToI("-" + ShowNat(n)) == -(n as int)
  {
    var s := ShowNat(n);
    var u := "-" + s;
    assert SkipSpace(u) == u by { assert u[0] == '-'; }
    assert u[1..] == s + [];
    DigitPrefixStops(s, []);
    DigitsValueShowNat(n);
  }
}
