/** Decimal text for 32-bit signed integers: what `format!("{}", v)`
    writes for an `i32` and what `str::parse::<i32>` accepts. */
module Decimal {
  import opened Protocol

  const MinI32: int := -0x8000_0000
  const MaxI32: int := 0x7fff_ffff

  /** The values of Rust's `i32`. */
  type I32 = x: int | MinI32 <= x <= MaxI32

  predicate IsDigit(c: char) {
    '0' <= c <= '9'
  }

  predicate AllDigits(s: string) {
    forall i :: 0 <= i < |s| ==> IsDigit(s[i])
  }

  function DigitChar(d: nat): (c: char)
    requires d < 10
    ensures IsDigit(c)
  {
    (48 + d) as char
  }

  function DigitValue(c: char): (d: nat)
    requires IsDigit(c)
    ensures d < 10 && DigitChar(d) == c
  {
    c as int - 48
  }

  /** The shortest decimal spelling of `n`: at least one digit, and no
      leading zero unless `n` is zero itself. */
  function NatDigits(n: nat): (s: string)
    ensures |s| >= 1 && AllDigits(s)
    ensures s[0] == '0' ==> n == 0
    decreases n
  {
    if n < 10 then [DigitChar(n)] else NatDigits(n / 10) + [DigitChar(n % 10)]
  }

  /** The number a non-empty run of decimal digits denotes (most
      significant digit first). */
  function DigitsValue(s: string): nat
    requires AllDigits(s)
    decreases |s|
  {
    if s == [] then 0 else DigitsValue(s[..|s| - 1]) * 10 + DigitValue(s[|s| - 1])
  }

  /** `format!("{}", n)`: a minus sign for negative numbers, then the digits
      of the magnitude. */
  function FormatInt(n: int): (s: string)
    ensures |s| >= 1
    ensures s[0] == '-' <==> n < 0
    ensures n >= 0 ==> AllDigits(s)
    ensures var d := if n < 0 then s[1..] else s;
            |d| >= 1 && AllDigits(d) && (d[0] == '0' ==> n == 0)
  {
    if n < 0 then
      assert ("-" + NatDigits(-n))[1..] == NatDigits(-n);
      "-" + NatDigits(-n)
    else NatDigits(n)
  }

  /** `str::parse::<i32>`: an optional `+` or `-`, then one or more ASCII
      digits, denoting a value inside the `i32` range; anything else
      (empty text, a lone sign, another character, an overflow) fails. */
  function ParseI32(s: string): (r: Option<I32>)
    ensures |s| <= 1 && !(|s| == 1 && IsDigit(s[0])) ==> r == None
    ensures r.Some? ==> |s| >= 1 && (IsDigit(s[0]) || s[0] == '+' || s[0] == '-') && AllDigits(s[1..])
    ensures r.Some? && r.value < 0 ==> s[0] == '-'
  {
    if |s| == 0 then None
    else if (s[0] == '+' || s[0] == '-') && |s| == 1 then None
    else
      var negative := s[0] == '-';
      var digits := if s[0] == '+' || s[0] == '-' then s[1..] else s;
      if !AllDigits(digits) then None
      else
        var magnitude: int := DigitsValue(digits);
        var v := if negative then -magnitude else magnitude;
        if MinI32 <= v <= MaxI32 then Some(v) else None
  }

  lemma {:induction false} DigitsValueOfNatDigits(n: nat)
    ensures DigitsValue(NatDigits(n)) == n
    decreases n
  {
    var t := NatDigits(n);
    if n >= 10 {
      DigitsValueOfNatDigits(n / 10);
      assert t[..|t| - 1] == NatDigits(n / 10);
      assert DigitValue(t[|t| - 1]) == n % 10;
    } else {
      assert t[..|t| - 1] == [];
      assert DigitValue(t[0]) == n;
    }
  }

  /** Parsing what `format!` wrote gives back the same `i32`. */
  lemma ParseFormat(n: I32)
    ensures ParseI32(FormatInt(n)) == Some(n)
  {
    var s := FormatInt(n);
    if n < 0 {
      var m: nat := -(n as int);
      DigitsValueOfNatDigits(m);
      assert s == "-" + NatDigits(m);
      assert s[1..] == NatDigits(m);
      assert |s| > 1;
    } else {
      var m: nat := n as int;
      DigitsValueOfNatDigits(m);
      assert s == NatDigits(m);
      assert s[0] != '+' && s[0] != '-';
    }
  }

  /** Two different `i32` values are never formatted alike. */
  lemma FormatInjective(a: I32, b: I32)
    ensures FormatInt(a) == FormatInt(b) ==> a == b
  {
    ParseFormat(a);
    ParseFormat(b);
  }

  /** Text containing a character that is neither a digit nor a leading
      sign is rejected. */
  lemma ParseRejectsNonDigit(s: string, i: nat)
    requires 0 < i < |s| && !IsDigit(s[i])
    ensures ParseI32(s) == None
  {
    if s[0] == '+' || s[0] == '-' {
      assert s[1..][i - 1] == s[i];
    }
  }

  /** Text whose value lies outside the `i32` range is rejected, whether
      it is unsigned, has a `+` or has a `-`. */
  lemma ParseRejectsOverflow(sign: string, digits: string)
    requires sign == "" || sign == "+" || sign == "-"
    requires |digits| >= 1 && AllDigits(digits)
    requires if sign == "-" then DigitsValue(digits) > -MinI32 else DigitsValue(digits) > MaxI32
    ensures ParseI32(sign + digits) == None
  {
    var s := sign + digits;
    if sign == "" {
      assert s == digits;
      assert IsDigit(s[0]);
    } else {
      assert s[0] == sign[0] && s[1..] == digits;
    }
  }

  /** An optional sign followed by digits whose value lies in the `i32`
      range is accepted, with that value: "+7" and "007" give 7, "-0"
      gives 0. */
  lemma ParseAccepts(sign: string, digits: string)
    requires sign == "" || sign == "+" || sign == "-"
    requires |digits| >= 1 && AllDigits(digits)
    requires if sign == "-" then DigitsValue(digits) <= -MinI32 else DigitsValue(digits) <= MaxI32
    ensures var m: int := DigitsValue(digits);
            var v: int := if sign == "-" then -m else m;
            MinI32 <= v <= MaxI32 && ParseI32(sign + digits) == Some(v)
  {
    var s := sign + digits;
    if sign == "" {
      assert s == digits;
    } else {
      assert s[0] == sign[0] && s[1..] == digits;
    }
  }
}
