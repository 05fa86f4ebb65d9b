/**
 Decimal numbers as text: how Python prints an integer and a non-negative `Decimal`, how the text is read
 back, and the normal form of `Decimal.normalize`.
 */
module DecimalText {
  import opened Wrappers

  // ---- integers ---------------------------------------------------------------------

  predicate IsDigit(c: char)
  {
    '0' <= c <= '9'
  }

  function Digit(n: nat): char
    requires n < 10
  {
    ['0', '1', '2', '3', '4', '5', '6', '7', '8', '9'][n]
  }

  function DigitValue(c: char): nat
    requires IsDigit(c)
  {
    c as int - '0' as int
  }

  predicate AllDigits(s: string)
  {
    forall i :: 0 <= i < |s| ==> IsDigit(s[i])
  }

  /** `str(n)` */
  function Decimal(n: nat): string
  {
    if n < 10 then [Digit(n)] else Decimal(n / 10) + [Digit(n % 10)]
  }

  /** The number a string of digits stands for. */
  function Value(s: string): nat
    requires AllDigits(s)
  {
    if s == [] then 0 else 10 * Value(s[..|s| - 1]) + DigitValue(s[|s| - 1])
  }

  lemma {:induction false} DecimalDigits(n: nat)
    ensures Decimal(n) != [] && AllDigits(Decimal(n))
  {
    if n >= 10 {
      DecimalDigits(n / 10);
    }
  }

  lemma {:induction false} ValueOfDecimal(n: nat)
    ensures AllDigits(Decimal(n)) && Value(Decimal(n)) == n
  {
    DecimalDigits(n);
    if n >= 10 {
      ValueOfDecimal(n / 10);
      var s := Decimal(n);
      assert s[..|s| - 1] == Decimal(n / 10);
    }
  }

  /** Different numbers are printed differently. */
  lemma DecimalInjective(m: nat, n: nat)
    requires Decimal(m) == Decimal(n)
    ensures m == n
  {
    ValueOfDecimal(m);
    ValueOfDecimal(n);
  }

  function Zeros(n: nat): (s: string)
    ensures |s| == n && AllDigits(s)
  {
    if n == 0 then [] else ['0'] + Zeros(n - 1)
  }

  lemma {:induction false} LeadingZero(s: string)
    requires AllDigits(s)
    ensures AllDigits(['0'] + s) && Value(['0'] + s) == Value(s)
  {
    var t := ['0'] + s;
    if s != [] {
      LeadingZero(s[..|s| - 1]);
      assert t[..|t| - 1] == ['0'] + s[..|s| - 1];
    } else {
      assert t[..|t| - 1] == [];
    }
  }

  lemma {:induction false} LeadingZeros(n: nat, s: string)
    requires AllDigits(s)
    ensures AllDigits(Zeros(n) + s) && Value(Zeros(n) + s) == Value(s)
  {
    if n == 0 {
      assert Zeros(0) + s == s;
    } else {
      LeadingZeros(n - 1, s);
      assert Zeros(n) + s == ['0'] + (Zeros(n - 1) + s);
      LeadingZero(Zeros(n - 1) + s);
    }
  }

  // ---- decimals ---------------------------------------------------------------------

  /** `coefficient` times ten to the `exponent`; trailing zeros count. */
  datatype Amount = Amount(coefficient: nat, exponent: int)

  function Mantissa(digits: string, dot: int): string
  {
    if dot <= 0 then "0." + Zeros(-dot) + digits
    else if dot >= |digits| then digits + Zeros(dot - |digits|)
    else digits[..dot] + "." + digits[dot..]
  }

  function Signed(n: int): string
  {
    if n >= 0 then "+" + Decimal(n) else "-" + Decimal(-n)
  }

  /** `str(Decimal)`: the scientific string of the General Decimal Arithmetic specification. */
  function Print(d: Amount): string
  {
    var digits := Decimal(d.coefficient);
    var left := d.exponent + |digits|;
    if d.exponent <= 0 && left > -6 then Mantissa(digits, left)
    else Mantissa(digits, 1) + "E" + Signed(left - 1)
  }

  function IndexOf(c: char, s: string): (i: nat)
    ensures i <= |s| && c !in s[..i] && (i < |s| ==> s[i] == c)
  {
    if s == [] || s[0] == c then 0
    else
      var i := 1 + IndexOf(c, s[1..]);
      assert s[..i] == [s[0]] + s[1..][..i - 1];
      i
  }

  function PartBefore(c: char, s: string): string
  {
    s[..IndexOf(c, s)]
  }

  function PartAfter(c: char, s: string): string
  {
    if IndexOf(c, s) == |s| then [] else s[IndexOf(c, s) + 1..]
  }

  function ParseSigned(s: string): Option<int>
  {
    if s == [] then Some(0)
    else if !AllDigits(s[1..]) then None
    else
      var n: int := Value(s[1..]);
      if s[0] == '+' then Some(n) else if s[0] == '-' then Some(-n) else None
  }

  /** `Decimal(text)` for digits with an optional point and an optional signed exponent. */
  function Parse(text: string): Option<Amount>
  {
    var mantissa, exponent := PartBefore('E', text), ParseSigned(PartAfter('E', text));
    var whole, fraction := PartBefore('.', mantissa), PartAfter('.', mantissa);
    if whole == [] || !AllDigits(whole + fraction) || exponent.None? then None
    else Some(Amount(Value(whole + fraction), exponent.value - |fraction|))
  }

  lemma {:induction false} IndexIs(c: char, a: string, b: string)
    requires c !in a
    ensures IndexOf(c, a + [c] + b) == |a|
  {
    if a != [] {
      IndexIs(c, a[1..], b);
      assert (a + [c] + b)[1..] == a[1..] + [c] + b;
    }
  }

  lemma SplitAt(c: char, a: string, b: string)
    requires c !in a
    ensures PartBefore(c, a + [c] + b) == a && PartAfter(c, a + [c] + b) == b
  {
    hide IndexOf;
    IndexIs(c, a, b);
  }

  lemma NoSplit(c: char, s: string)
    requires c !in s
    ensures PartBefore(c, s) == s && PartAfter(c, s) == []
  {
    assert IndexOf(c, s) == |s|;
  }

  lemma DigitsOnly(s: string, c: char)
    requires AllDigits(s) && !IsDigit(c)
    ensures c !in s
  {
  }

  /** A mantissa holds the digits, and so many of them behind the point. */
  predicate Reads(m: string, digits: string, behind: int)
    requires AllDigits(digits)
  {
    var whole, fraction := PartBefore('.', m), PartAfter('.', m);
    && 'E' !in m && whole != [] && AllDigits(whole + fraction)
    && Value(whole + fraction) == Value(digits) && |fraction| == behind
  }

  lemma SmallReads(digits: string, zeros: nat)
    requires AllDigits(digits)
    ensures Reads("0" + ['.'] + (Zeros(zeros) + digits), digits, zeros + |digits|)
  {
    hide Value, PartBefore, PartAfter;
    var fraction := Zeros(zeros) + digits;
    LeadingZeros(zeros, digits);
    LeadingZero(fraction);
    SplitAt('.', "0", fraction);
    DigitsOnly(fraction, 'E');
    assert "0" + fraction == ['0'] + fraction;
  }

  lemma PointReads(digits: string, dot: nat)
    requires AllDigits(digits) && 0 < dot < |digits|
    ensures Reads(digits[..dot] + ['.'] + digits[dot..], digits, |digits| - dot)
  {
    hide Value, PartBefore, PartAfter;
    DigitsOnly(digits[..dot], '.');
    DigitsOnly(digits, 'E');
    SplitAt('.', digits[..dot], digits[dot..]);
    assert digits[..dot] + digits[dot..] == digits;
  }

  lemma WholeReads(digits: string)
    requires AllDigits(digits) && digits != []
    ensures Reads(digits, digits, 0)
  {
    hide Value, PartBefore, PartAfter;
    DigitsOnly(digits, '.');
    DigitsOnly(digits, 'E');
    NoSplit('.', digits);
    assert digits + [] == digits;
  }

  /** Reading a mantissa back. */
  lemma MantissaReads(digits: string, dot: int)
    requires AllDigits(digits) && digits != [] && dot <= |digits|
    ensures Reads(Mantissa(digits, dot), digits, |digits| - dot)
  {
    hide Reads, AllDigits;
    var m := Mantissa(digits, dot);
    if dot <= 0 {
      assert m == "0" + ['.'] + (Zeros(-dot) + digits);
      SmallReads(digits, -dot);
    } else if dot == |digits| {
      assert m == digits;
      WholeReads(digits);
    } else {
      assert m == digits[..dot] + ['.'] + digits[dot..];
      PointReads(digits, dot);
    }
  }

  lemma SignedReads(n: int)
    ensures ParseSigned(Signed(n)) == Some(n) && Signed(n) != []
  {
    hide Value, Decimal, AllDigits;
    var m := if n >= 0 then n else -n;
    ValueOfDecimal(m);
    assert Signed(n)[1..] == Decimal(m);
  }

  lemma NothingSigned()
    ensures ParseSigned([]) == Some(0)
  {
  }

  /** A printed decimal is read back as it was, trailing zeros included. */
  lemma PrintReads(d: Amount)
    ensures Parse(Print(d)) == Some(d)
  {
    hide Value, Mantissa, Decimal, PartBefore, PartAfter, ParseSigned, Signed, AllDigits;
    var digits := Decimal(d.coefficient);
    var left := d.exponent + |digits|;
    DecimalDigits(d.coefficient);
    ValueOfDecimal(d.coefficient);
    if d.exponent <= 0 && left > -6 {
      MantissaReads(digits, left);
      NoSplit('E', Print(d));
      NothingSigned();
    } else {
      MantissaReads(digits, 1);
      SignedReads(left - 1);
      assert Print(d) == Mantissa(digits, 1) + ['E'] + Signed(left - 1);
      SplitAt('E', Mantissa(digits, 1), Signed(left - 1));
    }
  }

  // ---- the normal form --------------------------------------------------------------

  /** `Decimal.normalize` */
  function Normalize(d: Amount): (n: Amount)
    decreases d.coefficient
  {
    if d.coefficient == 0 then Amount(0, 0)
    else if d.coefficient % 10 == 0 then Normalize(Amount(d.coefficient / 10, d.exponent + 1))
    else d
  }

  function Pow10(n: nat): nat
  {
    if n == 0 then 1 else 10 * Pow10(n - 1)
  }

  lemma {:induction false} NormalizeScaled(c: nat, e: int, k: nat)
    ensures Normalize(Amount(c * Pow10(k), e - k)) == Normalize(Amount(c, e))
  {
    if k > 0 && c > 0 {
      NormalizeScaled(c, e, k - 1);
      Pow10Positive(k - 1);
      DropZero(c, Pow10(k - 1), e - k);
    } else if c > 0 {
      assert c * 1 == c;
    } else {
      assert c * Pow10(k) == 0;
    }
  }

  lemma DropZero(c: nat, p: nat, e: int)
    requires c > 0 && p > 0
    ensures Normalize(Amount(c * (10 * p), e)) == Normalize(Amount(c * p, e + 1))
  {
    assert c * (10 * p) == 10 * (c * p);
    assert c * p > 0;
  }

  lemma {:induction false} Pow10Positive(k: nat)
    ensures Pow10(k) > 0
  {
    if k > 0 {
      Pow10Positive(k - 1);
    }
  }

  lemma {:induction false} NormalizeResult(d: Amount)
    ensures var n := Normalize(d);
            n == Amount(0, 0) || (n.coefficient % 10 != 0 && n.exponent >= d.exponent)
    decreases d.coefficient
  {
    if d.coefficient != 0 && d.coefficient % 10 == 0 {
      NormalizeResult(Amount(d.coefficient / 10, d.exponent + 1));
    }
  }
}
