/** Decimal numerals: the text a `u32` is read from (Rust's `str::parse::<u32>`,
    used for post ids, for the page number in a redirect path, and for the
    next-page link) and the text `format!("{}", n)` renders it as. */
module Numerals {
  import opened Types

  predicate IsDigit(c: char) {
    '0' <= c <= '9'
  }

  predicate AllDigits(s: string) {
    forall i :: 0 <= i < |s| ==> IsDigit(s[i])
  }

  function DigitValue(c: char): (d: nat)
    requires IsDigit(c)
    ensures d < 10
  {
    (c as int) - ('0' as int)
  }

  function DigitChar(d: nat): (c: char)
    requires d < 10
    ensures IsDigit(c) && DigitValue(c) == d
  {
    (('0' as int) + d) as char
  }

  /** The number the digit string `s` denotes, most significant digit first. */
  function ValueOf(s: string): nat
    requires AllDigits(s)
  {
    if s == [] then 0 else ValueOf(s[..|s| - 1]) * 10 + DigitValue(s[|s| - 1])
  }

  /** `format!("{}", n)`: the shortest decimal numeral for `n`. */
  function Decimal(n: nat): (s: string)
    ensures |s| > 0 && AllDigits(s)
    ensures s[0] != '0' || s == "0"
  {
    if n < 10 then [DigitChar(n)] else Decimal(n / 10) + [DigitChar(n % 10)]
  }

  /** The digits left once one leading '+' is dropped: for an unsigned type
      Rust accepts a single '+' sign and nothing else. */
  function Unsigned(s: string): (t: string)
    ensures t == s || (|s| > 0 && s[0] == '+' && t == s[1..])
  {
    if |s| > 0 && s[0] == '+' then s[1..] else s
  }

  /** Leading zeros removed, keeping a single digit of an all-zero numeral. */
  function DropLeadingZeros(s: string): (t: string)
    ensures |t| <= |s| && (|s| > 0 ==> |t| > 0)
    ensures t == s[|s| - |t|..]
  {
    if |s| > 1 && s[0] == '0' then DropLeadingZeros(s[1..]) else s
  }

  /** Rust's `str::parse::<u32>`: an optional '+', at least one ASCII digit,
      nothing else, and a value that fits in 32 bits. */
  function ParseU32(s: string): (r: Option<U32>)
    ensures r.Some? ==> |s| > 0 && AllDigits(Unsigned(s)) && Unsigned(s) != []
  {
    var digits := Unsigned(s);
    if digits == [] || !AllDigits(digits) then None
    else
      var v := ValueOf(digits);
      if v <= U32_MAX then Some(v) else None
  }

  lemma {:induction false} ValueOfDecimal(n: nat)
    ensures ValueOf(Decimal(n)) == n
  {
    if n >= 10 {
      var s := Decimal(n);
      assert s[..|s| - 1] == Decimal(n / 10);
      ValueOfDecimal(n / 10);
    }
  }

  /** A leading zero does not change the value of a digit string. */
  lemma {:induction false} ValueOfLeadingZero(s: string)
    requires AllDigits(s)
    ensures AllDigits("0" + s) && ValueOf("0" + s) == ValueOf(s)
  {
    var z := "0" + s;
    assert AllDigits(z) by {
      forall i | 0 <= i < |z| ensures IsDigit(z[i]) {
        if i > 0 { assert z[i] == s[i - 1]; }
      }
    }
    if s != [] {
      assert z[..|z| - 1] == "0" + s[..|s| - 1];
      ValueOfLeadingZero(s[..|s| - 1]);
    }
  }

  lemma {:induction false} ValueOfDropLeadingZeros(s: string)
    requires AllDigits(s)
    ensures ValueOf(DropLeadingZeros(s)) == ValueOf(s)
  {
    if |s| > 1 && s[0] == '0' {
      assert s == "0" + s[1..];
      ValueOfLeadingZero(s[1..]);
      ValueOfDropLeadingZeros(s[1..]);
    }
  }

  lemma {:induction false} ValueOfPositive(s: string)
    requires |s| > 0 && AllDigits(s) && s[0] != '0'
    ensures ValueOf(s) >= 1
  {
    if |s| > 1 {
      ValueOfPositive(s[..|s| - 1]);
    }
  }

  /** A numeral without leading zeros is the rendering of its own value. */
  lemma {:induction false} DecimalOfValue(s: string)
    requires |s| > 0 && AllDigits(s) && (s[0] != '0' || |s| == 1)
    ensures Decimal(ValueOf(s)) == s
  {
    if |s| > 1 {
      var init := s[..|s| - 1];
      var d := DigitValue(s[|s| - 1]);
      ValueOfPositive(init);
      DecimalOfValue(init);
      var v := ValueOf(s);
      assert v == ValueOf(init) * 10 + d;
      assert v / 10 == ValueOf(init) && v % 10 == d;
      assert DigitChar(d) == s[|s| - 1];
      assert s == init + [s[|s| - 1]];
    }
  }

  lemma {:induction false} DecimalOfDropLeadingZeros(s: string)
    requires |s| > 0 && AllDigits(s)
    ensures Decimal(ValueOf(s)) == DropLeadingZeros(s)
  {
    if |s| > 1 && s[0] == '0' {
      assert s == "0" + s[1..];
      ValueOfLeadingZero(s[1..]);
      DecimalOfDropLeadingZeros(s[1..]);
    } else {
      DecimalOfValue(s);
    }
  }

  /** What `parse::<u32>` accepts, exactly: `s` parses to `v` if and only if,
      after an optional '+', `s` is made of digits and is the decimal numeral
      of `v` padded with leading zeros, and `v` fits in 32 bits. */
  lemma ParseU32Iff(s: string, v: nat)
    ensures ParseU32(s) == Some(v) <==>
      (v <= U32_MAX && AllDigits(Unsigned(s)) && DropLeadingZeros(Unsigned(s)) == Decimal(v))
  {
    var t := Unsigned(s);
    if ParseU32(s) == Some(v) {
      DecimalOfDropLeadingZeros(t);
    }
    if v <= U32_MAX && AllDigits(t) && DropLeadingZeros(t) == Decimal(v) {
      ValueOfDropLeadingZeros(t);
      ValueOfDecimal(v);
    }
  }

  /** Parsing the rendering of a `u32`, with or without a '+' sign, gives it back. */
  lemma ParseDecimal(n: U32)
    ensures ParseU32(Decimal(n)) == Some(n)
    ensures ParseU32("+" + Decimal(n)) == Some(n)
  {
    ValueOfDecimal(n);
    assert Unsigned("+" + Decimal(n)) == Decimal(n);
  }

  /** Texts that never parse: the empty text, a bare sign, a minus sign. */
  lemma ParseRejects(s: string)
    ensures ParseU32("") == None && ParseU32("+") == None
    ensures ParseU32("-" + s) == None
  {
    var m := "-" + s;
    assert !IsDigit(m[0]);
  }
}
