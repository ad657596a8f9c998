/**
 * String helpers shared by the modelled code: Rust's `starts_with`,
 * `strip_prefix`, `strip_suffix`, and the decimal text of small integers
 * (`u8::from_str` and the `{}` formatting of a `u8`).
 */
module Text {
  import opened Wrappers

  /** An unsigned 8-bit integer, Rust's `u8`. */
  type U8 = n: nat | n < 256

  predicate StartsWith(s: string, prefix: string) {
    |prefix| <= |s| && s[..|prefix|] == prefix
  }

  predicate EndsWith(s: string, suffix: string) {
    |suffix| <= |s| && s[|s| - |suffix|..] == suffix
  }

  /** `str::strip_prefix`: the rest of `s` after `prefix`, if `s` starts with it. */
  function StripPrefix(s: string, prefix: string): (r: Option<string>)
    ensures r.Some? <==> StartsWith(s, prefix)
    ensures r.Some? ==> s == prefix + r.value
  {
    if StartsWith(s, prefix) then Some(s[|prefix|..]) else None
  }

  /** `str::strip_suffix`: what precedes `suffix` in `s`, if `s` ends with it. */
  function StripSuffix(s: string, suffix: string): (r: Option<string>)
    ensures r.Some? <==> EndsWith(s, suffix)
    ensures r.Some? ==> s == r.value + suffix
  {
    if EndsWith(s, suffix) then Some(s[..|s| - |suffix|]) else None
  }

  lemma StripPrefixOfConcat(prefix: string, rest: string)
    ensures StripPrefix(prefix + rest, prefix) == Some(rest)
  {
    assert (prefix + rest)[..|prefix|] == prefix;
    assert (prefix + rest)[|prefix|..] == rest;
  }

  lemma StripSuffixOfConcat(front: string, suffix: string)
    ensures StripSuffix(front + suffix, suffix) == Some(front)
  {
    assert (front + suffix)[|front + suffix| - |suffix|..] == suffix;
    assert (front + suffix)[..|front|] == front;
  }

  predicate IsDigit(c: char) {
    '0' <= c <= '9'
  }

  predicate AllDigits(s: string) {
    forall i :: 0 <= i < |s| ==> IsDigit(s[i])
  }

  /** The value of a string of decimal digits, read most significant first. */
  function DigitsValue(s: string): nat
    requires AllDigits(s)
  {
    if s == [] then 0
    else DigitsValue(s[..|s| - 1]) * 10 + (s[|s| - 1] as int - '0' as int)
  }

  /** The text `u8::from_str` reads as digits: `s` without one leading `+`. */
  function UnsignedDigits(s: string): (d: string)
    ensures |s| > 0 && s[0] == '+' ==> s == "+" + d
    ensures (|s| == 0 || s[0] != '+') ==> d == s
  {
    if |s| > 0 && s[0] == '+' then s[1..] else s
  }

  /** `u8::from_str`: an optional `+`, then one or more decimal digits whose value fits in 8 bits. */
  function ParseU8(s: string): (r: Option<U8>)
    ensures r.Some? <==>
      UnsignedDigits(s) != [] && AllDigits(UnsignedDigits(s)) && DigitsValue(UnsignedDigits(s)) < 256
    ensures r.Some? ==> r.value == DigitsValue(UnsignedDigits(s))
    ensures r.Some? ==> |s| > 0 && (s[0] == '+' || IsDigit(s[0]))
  {
    var digits := UnsignedDigits(s);
    if digits == [] || !AllDigits(digits) then None
    else
      var v := DigitsValue(digits);
      if v < 256 then Some(v) else None
  }

  /** The `{}` formatting of a natural number: its decimal digits without leading zeros. */
  function Decimal(n: nat): (r: string)
    ensures |r| > 0 && AllDigits(r)
    ensures DigitsValue(r) == n
    ensures |r| > 1 ==> r[0] != '0'
  {
    if n < 10 then [('0' as int + n) as char]
    else
      var front := Decimal(n / 10);
      assert (front + [('0' as int + n % 10) as char])[..|front|] == front;
      front + [('0' as int + n % 10) as char]
  }

  /** Parsing the formatted text of a `u8` gives it back. */
  lemma ParseDecimal(n: U8)
    ensures ParseU8(Decimal(n)) == Some(n)
  {
  }

  /** Leading zeros are accepted: they do not change the value. */
  lemma {:induction false} LeadingZerosIgnored(zeros: nat, n: U8)
    ensures ParseU8(seq(zeros, _ => '0') + Decimal(n)) == Some(n)
  {
    var z := seq(zeros, _ => '0');
    var d := Decimal(n);
    assert AllDigits(z + d);
    ZerosValue(zeros, d);
  }

  lemma {:induction false} ZerosValue(zeros: nat, d: string)
    requires AllDigits(d)
    ensures AllDigits(seq(zeros, _ => '0') + d)
    ensures DigitsValue(seq(zeros, _ => '0') + d) == DigitsValue(d)
  {
    var z := seq(zeros, _ => '0');
    assert AllDigits(z + d);
    if d == [] {
      assert z + d == z;
      ZerosOnly(zeros);
    } else {
      var n := |d| - 1;
      assert (z + d)[..|z + d| - 1] == z + d[..n];
      ZerosValue(zeros, d[..n]);
    }
  }

  lemma {:induction false} ZerosOnly(zeros: nat)
    ensures AllDigits(seq(zeros, _ => '0'))
    ensures DigitsValue(seq(zeros, _ => '0')) == 0
  {
    if zeros > 0 {
      assert seq(zeros, _ => '0')[..zeros - 1] == seq(zeros - 1, _ => '0');
      ZerosOnly(zeros - 1);
    }
  }

  /** One leading `+` is accepted. */
  lemma ParsePlusDecimal(n: U8)
    ensures ParseU8("+" + Decimal(n)) == Some(n)
  {
    assert ("+" + Decimal(n))[1..] == Decimal(n);
  }

  /** A sign other than `+` is rejected: the type is unsigned. */
  lemma MinusRejected(t: string)
    ensures ParseU8("-" + t) == None
  {
    assert ("-" + t)[0] == '-';
  }
}
