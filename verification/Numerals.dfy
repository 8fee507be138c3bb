/** Unsigned decimal numerals. */
module Numerals {
  predicate Digit(c: char) {
    '0' <= c <= '9'
  }

  predicate Digits(text: string) {
    text != "" && AllDigits(text)
  }

  predicate AllDigits(text: string) {
    forall i :: 0 <= i < |text| ==> Digit(text[i])
  }

  function DecimalValue(text: string): nat
    requires AllDigits(text)
  {
    if text == "" then 0 else DecimalValue(text[..|text| - 1]) * 10 + (text[|text| - 1] as int - '0' as int)
  }

  function DigitOf(d: nat): char
    requires d < 10
  {
    (d + '0' as int) as char
  }

  /** The shortest numeral, as `str` prints it. */
  function DecimalText(n: nat): (text: string)
    ensures Digits(text)
  {
    if n < 10 then [DigitOf(n)] else DecimalText(n / 10) + [DigitOf(n % 10)]
  }

  /** Exactly `width` digits, with leading zeros. */
  function PaddedText(n: nat, width: nat): (text: string)
    ensures |text| == width && AllDigits(text)
  {
    if width == 0 then "" else PaddedText(n / 10, width - 1) + [DigitOf(n % 10)]
  }

  function Pow10(k: nat): nat {
    if k == 0 then 1 else 10 * Pow10(k - 1)
  }

  function Product(a: nat, b: nat): nat {
    a * b
  }

  function Quotient(n: nat, unit: nat): nat
    requires unit > 0
  {
    n / unit
  }

  lemma Pow10Positive(k: nat)
    ensures Pow10(k) > 0
  {
  }

  lemma ValueSnoc(text: string, c: char)
    requires AllDigits(text) && Digit(c)
    ensures AllDigits(text + [c]) && DecimalValue(text + [c]) == DecimalValue(text) * 10 + (c as int - '0' as int)
  {
    assert (text + [c])[..|text|] == text;
  }

  lemma {:induction false} ValueOfText(n: nat)
    ensures DecimalValue(DecimalText(n)) == n
  {
    if n < 10 {
      ValueSnoc("", DigitOf(n));
      assert "" + [DigitOf(n)] == [DigitOf(n)];
    } else {
      ValueOfText(n / 10);
      ValueSnoc(DecimalText(n / 10), DigitOf(n % 10));
    }
  }

  lemma {:induction false} ValueOfPadded(n: nat, width: nat)
    requires n < Pow10(width)
    ensures DecimalValue(PaddedText(n, width)) == n
  {
    if width > 0 {
      ValueOfPadded(n / 10, width - 1);
      ValueSnoc(PaddedText(n / 10, width - 1), DigitOf(n % 10));
    }
  }

  /** Reading two numerals one after the other. */
  lemma {:induction false} ValueOfConcat(a: string, b: string)
    requires AllDigits(a) && AllDigits(b)
    ensures AllDigits(a + b) && DecimalValue(a + b) == DecimalValue(a) * Pow10(|b|) + DecimalValue(b)
  {
    if b == "" {
      assert a + b == a;
    } else {
      var init, last := b[..|b| - 1], b[|b| - 1];
      ValueOfConcat(a, init);
      assert a + b == (a + init) + [last];
      ValueSnoc(a + init, last);
      ShiftOnce(DecimalValue(a), |b|);
    }
  }

  /** How many digits a text starts with. */
  function LeadingDigits(text: string): (n: nat)
    ensures n <= |text| && AllDigits(text[..n])
    ensures n < |text| ==> !Digit(text[n])
  {
    if text == "" || !Digit(text[0]) then 0
    else
      var n := LeadingDigits(text[1..]);
      assert text[..n + 1] == [text[0]] + text[1..][..n];
      n + 1
  }

  predicate NoDigitFirst(rest: string) {
    rest == "" || !Digit(rest[0])
  }

  lemma {:induction false} LeadingDigitsOf(digits: string, rest: string)
    requires AllDigits(digits) && NoDigitFirst(rest)
    ensures LeadingDigits(digits + rest) == |digits|
  {
    if digits == "" {
      assert digits + rest == rest;
    } else {
      assert (digits + rest)[1..] == digits[1..] + rest;
      LeadingDigitsOf(digits[1..], rest);
    }
  }

  /** A text cut after its leading digits. */
  function SplitDigits(text: string): (parts: (string, string))
    ensures AllDigits(parts.0) && text == parts.0 + parts.1
  {
    var n := LeadingDigits(text);
    (text[..n], text[n..])
  }

  lemma SplitOf(digits: string, rest: string)
    requires AllDigits(digits) && NoDigitFirst(rest)
    ensures SplitDigits(digits + rest) == (digits, rest)
  {
    LeadingDigitsOf(digits, rest);
  }

  lemma {:induction false} Pow10Add(a: nat, b: nat)
    ensures Pow10(a + b) == Pow10(a) * Pow10(b)
  {
    if a > 0 { Pow10Add(a - 1, b); }
  }

  lemma ShiftOnce(n: nat, k: nat)
    requires k > 0
    ensures n * Pow10(k) == 10 * (n * Pow10(k - 1))
  {
    assert Pow10(k) == 10 * Pow10(k - 1);
  }

  lemma TextOfTenfold(n: nat)
    requires n > 0
    ensures |DecimalText(10 * n)| == |DecimalText(n)| + 1
  {
    assert 10 * n / 10 == n;
  }

  /** Every power of ten adds one digit. */
  lemma {:induction false} TextOfShifted(n: nat, k: nat)
    requires n > 0
    ensures n * Pow10(k) > 0 && |DecimalText(n * Pow10(k))| == |DecimalText(n)| + k
  {
    if k > 0 {
      TextOfShifted(n, k - 1);
      ShiftOnce(n, k);
      TextOfTenfold(n * Pow10(k - 1));
    } else {
      assert n * Pow10(k) == n;
    }
  }

  // ------------------------------------------------------------ quotients

  lemma ProductIsMonotone(a: int, b: int, unit: nat)
    requires a <= b
    ensures a * unit <= b * unit
  {
    assert 0 <= (b - a) * unit;
  }

  lemma QuotientBounds(n: nat, unit: nat)
    requires unit > 0
    ensures n / unit * unit <= n < (n / unit + 1) * unit
  {
    assert (n / unit + 1) * unit == n / unit * unit + unit;
  }

  lemma QuotientIsUnique(n: nat, unit: nat, q: nat)
    requires unit > 0 && q * unit <= n < (q + 1) * unit
    ensures n / unit == q
  {
    var q' := n / unit;
    QuotientBounds(n, unit);
    if q' < q {
      ProductIsMonotone(q' + 1, q, unit);
    } else if q < q' {
      ProductIsMonotone(q + 1, q', unit);
    }
  }

  lemma DividesExactly(q: nat, unit: nat)
    requires unit > 0
    ensures q * unit / unit == q && q * unit % unit == 0
  {
    assert (q + 1) * unit == q * unit + unit;
    QuotientIsUnique(q * unit, unit, q);
  }

  lemma Regroup(a: int, b: int, c: int)
    ensures a * (b * c) == a * b * c
  {
  }

  lemma ProductIsPositive(a: nat, b: nat)
    requires a > 0 && b > 0
    ensures a * b > 0
  {
  }

  lemma ProductIsStrict(a: int, b: int, unit: nat)
    requires a < b && unit > 0
    ensures a * unit < b * unit
  {
    ProductIsMonotone(a + 1, b, unit);
    assert (a + 1) * unit == a * unit + unit;
  }

  lemma CancelFactor(n: nat, unit: nat, more: nat)
    requires unit > 0 && more > 0
    ensures unit * more > 0 && n * more / (unit * more) == n / unit
  {
    var q := n / unit;
    QuotientBounds(n, unit);
    ProductIsPositive(unit, more);
    ScaledBounds(n, q, unit, more);
    QuotientIsUnique(n * more, unit * more, q);
  }

  lemma ScaledBounds(n: nat, q: nat, unit: nat, more: nat)
    requires more > 0 && q * unit <= n < (q + 1) * unit
    ensures q * (unit * more) <= n * more < (q + 1) * (unit * more)
  {
    ProductIsMonotone(q * unit, n, more);
    ProductIsStrict(n, (q + 1) * unit, more);
    Regroup(q, unit, more);
    Regroup(q + 1, unit, more);
  }

  lemma ProductsAgree(a: int, b: int, unit: nat)
    requires unit > 0
    ensures a * unit == b * unit <==> a == b
  {
    if a < b {
      ProductIsStrict(a, b, unit);
    } else if b < a {
      ProductIsStrict(b, a, unit);
    }
  }

  lemma RemainderScales(n: nat, unit: nat, more: nat)
    requires unit > 0 && more > 0
    ensures unit * more > 0 && n * more % (unit * more) == n % unit * more
  {
    var q, r := n / unit, n % unit;
    CancelFactor(n, unit, more);
    assert n == q * unit + r;
    Distribute(q * unit, r, more);
    Regroup(q, unit, more);
  }

  lemma Distribute(a: int, b: int, c: int)
    ensures (a + b) * c == a * c + b * c
  {
  }

  lemma NestedBounds(n: nat, a: nat, q: nat, unit: nat, more: nat)
    requires a * unit <= n < (a + 1) * unit && q * more <= a < (q + 1) * more
    ensures q * (more * unit) <= n < (q + 1) * (more * unit)
  {
    ProductIsMonotone(q * more, a, unit);
    ProductIsMonotone(a + 1, (q + 1) * more, unit);
    Regroup(q, more, unit);
    Regroup(q + 1, more, unit);
  }

  lemma QuotientNests(n: nat, a: nat, q: nat, unit: nat, more: nat)
    requires unit > 0 && more > 0
    requires a * unit <= n < (a + 1) * unit && q * more <= a < (q + 1) * more
    ensures more * unit > 0 && n / (more * unit) == q
  {
    ProductIsPositive(more, unit);
    NestedBounds(n, a, q, unit, more);
    QuotientIsUnique(n, more * unit, q);
  }

  /** Dividing twice is dividing by the product. */
  lemma DividingTwice(n: nat, unit: nat, more: nat)
    requires unit > 0 && more > 0
    ensures more * unit > 0 && n / unit / more == n / (more * unit)
  {
    var a := n / unit;
    var q := a / more;
    QuotientBounds(n, unit);
    QuotientBounds(a, more);
    QuotientNests(n, a, q, unit, more);
  }

  /** The next number falls under the same quotient unless it is a multiple. */
  lemma NextQuotient(n: nat, q: nat, unit: nat)
    requires unit > 0 && q * unit <= n < (q + 1) * unit
    ensures (n + 1) / unit == q <==> (n + 1) % unit != 0
  {
    if n + 1 < (q + 1) * unit {
      BelowMultiple(n + 1, q, unit);
    } else {
      AtMultiple(n + 1, q + 1, unit);
    }
  }

  lemma AtMultiple(n: nat, q: nat, unit: nat)
    requires unit > 0 && n == q * unit
    ensures n / unit == q && n % unit == 0
  {
    DividesExactly(q, unit);
  }

  lemma BelowMultiple(n: nat, q: nat, unit: nat)
    requires unit > 0 && q * unit < n < (q + 1) * unit
    ensures n / unit == q && n % unit != 0
  {
    QuotientIsUnique(n, unit, q);
  }
}
