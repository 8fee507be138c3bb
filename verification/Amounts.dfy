/**
 Satoshi amounts as decimal text. Decimal numbers carry a sign, a coefficient and an
 exponent; arithmetic rounds half-even to 28 digits, Python's default decimal context.
 */
module Amounts {
  import opened Prelude
  import opened Numerals

  const PRECISION: nat := 28
  const MAX_EXPONENT := 999999

  datatype Problem = InvalidCoreAmount | InvalidOperation | Overflow

  /** The number (-1 if negative) * coefficient * 10^exponent. */
  datatype Decimal = Decimal(negative: bool, coefficient: nat, exponent: int)

  function Signed(negative: bool, magnitude: nat): int {
    if negative then 0 - magnitude else magnitude
  }

  function Magnitude(n: int): nat {
    if n < 0 then -n else n
  }

  // ------------------------------------------------------------ decimal arithmetic

  /** How many digits a coefficient has beyond the precision. */
  function Excess(c: nat): (k: nat)
    ensures c < Pow10(PRECISION) ==> k == 0
    decreases c
  {
    Pow10Positive(PRECISION);
    if c < Pow10(PRECISION) then 0 else 1 + Excess(c / 10)
  }

  function HalfEven(c: nat, unit: nat): nat
    requires unit > 0
  {
    var q, r := c / unit, c % unit;
    if 2 * r > unit || (2 * r == unit && q % 2 == 1) then q + 1 else q
  }

  /** What the context does to every result: at most 28 digits, rounded half-even. */
  function Round(d: Decimal): Decimal {
    var k := Excess(d.coefficient);
    Pow10Positive(k);
    Decimal(d.negative, HalfEven(d.coefficient, Pow10(k)), d.exponent + k)
  }

  /** The magnitude in units of 10^scale, without the digits below (`ROUND_DOWN`). */
  function TruncateTo(d: Decimal, scale: int): nat {
    if d.exponent >= scale then Product(d.coefficient, Pow10(d.exponent - scale))
    else
      Pow10Positive(scale - d.exponent);
      Quotient(d.coefficient, Pow10(scale - d.exponent))
  }

  /** `quantize(Decimal("0.00000001"), ROUND_DOWN)`: the result must fit the precision. */
  function Quantize(d: Decimal): Result<Decimal, Problem> {
    var c := TruncateTo(d, -8);
    if c >= Pow10(PRECISION) then Err(InvalidOperation) else Ok(Decimal(d.negative, c, -8))
  }

  /** `format(amount, "f")` for an amount with eight decimals. */
  function PlainText(negative: bool, coefficient: nat): string {
    PointText(negative, coefficient / Pow10(8), coefficient % Pow10(8))
  }

  function PointText(negative: bool, whole: nat, fraction: nat): string {
    var digits := DecimalText(whole) + ("." + PaddedText(fraction, 8));
    if negative then "-" + digits else digits
  }

  function SatsToBtcText(sats: int): Result<string, Problem> {
    match Quantize(Round(Decimal(sats < 0, Magnitude(sats), -8)))
    case Err(e) => Err(e)
    case Ok(d) => Ok(PlainText(d.negative, d.coefficient))
  }

  // ------------------------------------------------------------ decimal text

  /** `Decimal(text)`: sign, digits with an optional point, optional exponent; exact. */
  function ReadDecimal(text: string): Option<Decimal> {
    if text != "" && text[0] == '-' then ReadUnsigned(text[1..], true)
    else if text != "" && text[0] == '+' then ReadUnsigned(text[1..], false)
    else ReadUnsigned(text, false)
  }

  function ReadUnsigned(text: string, negative: bool): Option<Decimal> {
    match ReadMagnitude(text)
    case None => None
    case Some((c, e)) => Some(Decimal(negative, c, e))
  }

  function ReadMagnitude(text: string): Option<(nat, int)> {
    var (whole, rest) := SplitDigits(text);
    var (fraction, after) := ReadFraction(rest);
    if whole + fraction == "" then None
    else
      match ReadExponent(after)
      case None => None
      case Some(e) => Some((DecimalValue(whole + fraction), e - |fraction|))
  }

  function ReadFraction(text: string): (parts: (string, string))
    ensures AllDigits(parts.0)
  {
    if text != "" && text[0] == '.' then SplitDigits(text[1..]) else ("", text)
  }

  function ReadExponent(text: string): Option<int> {
    if text == "" then Some(0)
    else if text[0] != 'e' && text[0] != 'E' then None
    else if |text| > 1 && text[1] == '-' then
      if Digits(text[2..]) then Some(0 - DecimalValue(text[2..])) else None
    else if |text| > 1 && text[1] == '+' then
      if Digits(text[2..]) then Some(DecimalValue(text[2..])) else None
    else if Digits(text[1..]) then Some(DecimalValue(text[1..]))
    else None
  }

  /** `amount * SATOSHIS_PER_BTC`, truncated to an integer. */
  function ToSats(amount: Decimal): Result<int, Problem> {
    var product := Round(amount.(coefficient := amount.coefficient * Pow10(8)));
    if product.coefficient > 0 && |DecimalText(product.coefficient)| - 1 + product.exponent > MAX_EXPONENT
    then Err(Overflow)
    else Ok(Signed(amount.negative, TruncateTo(product, 0)))
  }

  function BtcToSats(text: string): Result<int, Problem> {
    match ReadDecimal(text)
    case None => Err(InvalidCoreAmount)
    case Some(amount) => ToSats(amount)
  }

  // ------------------------------------------------------------ rounding within the precision

  lemma {:induction false} ExcessOfShifted(c: nat, k: nat)
    requires c < Pow10(PRECISION)
    ensures Excess(c * Pow10(k)) <= k
  {
    var p := c * Pow10(k);
    if k > 0 && p >= Pow10(PRECISION) {
      ShiftOnce(c, k);
      assert p / 10 == c * Pow10(k - 1);
      ExcessOfShifted(c, k - 1);
    }
  }

  lemma ExactHalfEven(q: nat, unit: nat)
    requires unit > 0
    ensures HalfEven(q * unit, unit) == q
  {
    DividesExactly(q, unit);
  }

  /** A product with a power of ten whose other factor fits the precision is not rounded. */
  lemma ShiftedIsExact(c: nat, k: nat, negative: bool, exponent: int)
    requires c < Pow10(PRECISION)
    ensures var j := Excess(c * Pow10(k));
      j <= k && Round(Decimal(negative, c * Pow10(k), exponent)) == Decimal(negative, c * Pow10(k - j), exponent + j)
  {
    var j := Excess(c * Pow10(k));
    ExcessOfShifted(c, k);
    Pow10Positive(j);
    Pow10Add(k - j, j);
    Regroup(c, Pow10(k - j), Pow10(j));
    ExactHalfEven(c * Pow10(k - j), Pow10(j));
  }

  // ------------------------------------------------------------ truncation

  /** The integer `sats` is `amount` in satoshis without its fraction, sign apart. */
  predicate TruncatedSats(amount: Decimal, sats: nat) {
    var e := amount.exponent + 8;
    if e >= 0 then sats == amount.coefficient * Pow10(e)
    else sats * Pow10(-e) <= amount.coefficient < (sats + 1) * Pow10(-e)
  }

  lemma WholeCancels(c: nat, j: nat, e: int)
    requires j <= 8 && e + j >= 0
    ensures c * Pow10(8 - j) * Pow10(e + j) == c * Pow10(e + 8)
  {
    Pow10Add(8 - j, e + j);
    Regroup(c, Pow10(8 - j), Pow10(e + j));
  }

  lemma PartCancels(c: nat, j: nat, e: int)
    requires j <= 8 && e + j < 0 <= e + 8
    ensures Pow10(-(e + j)) > 0 && c * Pow10(8 - j) / Pow10(-(e + j)) == c * Pow10(e + 8)
  {
    var unit := Pow10(-(e + j));
    Pow10Positive(-(e + j));
    Pow10Add(e + 8, -(e + j));
    Regroup(c, Pow10(e + 8), unit);
    DividesExactly(c * Pow10(e + 8), unit);
  }

  lemma FractionCancels(c: nat, j: nat, e: int)
    requires j <= 8 && e + 8 < 0
    ensures Pow10(-(e + j)) > 0 && Pow10(-(e + 8)) > 0
    ensures c * Pow10(8 - j) / Pow10(-(e + j)) == c / Pow10(-(e + 8))
  {
    Pow10Positive(-(e + j));
    Pow10Positive(-(e + 8));
    Pow10Positive(8 - j);
    Pow10Add(-(e + 8), 8 - j);
    CancelFactor(c, Pow10(-(e + 8)), Pow10(8 - j));
  }

  /** Moving `8 - j` zeros between coefficient and exponent does not change the satoshis. */
  lemma TruncationCancels(c: nat, j: nat, e: int, negative: bool)
    requires j <= 8
    ensures TruncatedSats(Decimal(negative, c, e), TruncateTo(Decimal(negative, c * Pow10(8 - j), e + j), 0))
  {
    if e + j >= 0 {
      WholeCancels(c, j, e);
    } else if e + 8 >= 0 {
      PartCancels(c, j, e);
    } else {
      FractionCancels(c, j, e);
      QuotientBounds(c, Pow10(-(e + 8)));
    }
  }

  /** The largest amounts leave the exponent range of the context. */
  predicate TooLarge(amount: Decimal) {
    amount.coefficient > 0 && |DecimalText(amount.coefficient)| + 7 + amount.exponent > MAX_EXPONENT
  }

  /**
   Within the precision an amount becomes the integer obtained by dropping the fraction of
   a satoshi: truncated towards zero, whatever the sign, and off by less than one satoshi.
   */
  lemma TruncatesTowardZero(amount: Decimal)
    requires amount.coefficient < Pow10(PRECISION)
    ensures if TooLarge(amount) then ToSats(amount) == Err(Overflow)
            else exists sats :: TruncatedSats(amount, sats) && ToSats(amount) == Ok(Signed(amount.negative, sats))
  {
    ProductWithin(amount);
  }

  lemma ProductWithin(amount: Decimal)
    requires amount.coefficient < Pow10(PRECISION)
    ensures var product := Round(amount.(coefficient := amount.coefficient * Pow10(8)));
      && product.negative == amount.negative && TruncatedSats(amount, TruncateTo(product, 0))
      && (product.coefficient > 0 <==> amount.coefficient > 0)
      && (amount.coefficient > 0 ==>
            |DecimalText(product.coefficient)| + product.exponent
            == |DecimalText(amount.coefficient)| + amount.exponent + 8)
  {
    var c := amount.coefficient;
    var j := Excess(c * Pow10(8));
    ShiftedIsExact(c, 8, amount.negative, amount.exponent);
    MovedZeros(amount, j, Decimal(amount.negative, c * Pow10(8 - j), amount.exponent + j));
  }

  lemma MovedZeros(amount: Decimal, j: nat, product: Decimal)
    requires j <= 8
    requires product == Decimal(amount.negative, amount.coefficient * Pow10(8 - j), amount.exponent + j)
    ensures TruncatedSats(amount, TruncateTo(product, 0)) && (product.coefficient > 0 <==> amount.coefficient > 0)
    ensures amount.coefficient > 0 ==>
      |DecimalText(product.coefficient)| + product.exponent == |DecimalText(amount.coefficient)| + amount.exponent + 8
  {
    TruncationCancels(amount.coefficient, j, amount.exponent, amount.negative);
    if amount.coefficient > 0 {
      TextOfShifted(amount.coefficient, 8 - j);
    }
  }

  /** At most one integer is the truncation of an amount. */
  lemma TruncationIsUnique(amount: Decimal, a: nat, b: nat)
    requires TruncatedSats(amount, a) && TruncatedSats(amount, b)
    ensures a == b
  {
    var e := amount.exponent + 8;
    if e < 0 {
      Pow10Positive(-e);
      QuotientIsUnique(amount.coefficient, Pow10(-e), a);
      QuotientIsUnique(amount.coefficient, Pow10(-e), b);
    }
  }

  lemma {:induction false} ExcessAddsUp(c: nat, k: nat)
    requires c >= Pow10(PRECISION)
    ensures Excess(c * Pow10(k)) == Excess(c) + k
  {
    if k > 0 {
      ShiftOnce(c, k);
      ExcessAddsUp(c, k - 1);
      Pow10Positive(k - 1);
      ProductIsMonotone(1, Pow10(k - 1), c);
      assert c * Pow10(k) / 10 == c * Pow10(k - 1);
    }
  }

  lemma Powers()
    ensures Pow10(8) == 100000000 && Pow10(9) == 1000000000
    ensures Pow10(28) == 10000000000000000000000000000 && Pow10(29) == 100000000000000000000000000000
  {
    assert Pow10(8) == 100000000;
    Pow10Add(8, 8);
    Pow10Add(8, 16);
    Pow10Add(4, 24);
    assert Pow10(4) == 10000;
  }

  // ------------------------------------------------------------ text

  lemma PointReads(a: string, b: string, negative: bool)
    requires Digits(a) && AllDigits(b)
    ensures AllDigits(a + b)
    ensures ReadUnsigned(a + ("." + b), negative) == Some(Decimal(negative, DecimalValue(a + b), -|b|))
  {
    var rest := "." + b;
    SplitOf(a, rest);
    FractionReads(b);
    PartsRead(a + rest, a, b, rest, "", 0);
  }

  lemma PartsRead(text: string, whole: string, fraction: string, rest: string, exponent: string, e: int)
    requires AllDigits(whole) && AllDigits(fraction) && whole != ""
    requires SplitDigits(text) == (whole, rest) && ReadFraction(rest) == (fraction, exponent)
    requires ReadExponent(exponent) == Some(e)
    ensures AllDigits(whole + fraction) && ReadMagnitude(text) == Some((DecimalValue(whole + fraction), e - |fraction|))
  {
    hide SplitDigits, ReadFraction, ReadExponent;
  }

  lemma FractionReads(digits: string)
    requires AllDigits(digits)
    ensures ReadFraction("." + digits) == (digits, "")
  {
    assert ("." + digits)[1..] == digits && digits + "" == digits;
    SplitOf(digits, "");
  }

  lemma JoinedValue(q: nat, r: nat, k: nat)
    requires r < Pow10(k)
    ensures DecimalValue(DecimalText(q) + PaddedText(r, k)) == q * Pow10(k) + r
  {
    ValueOfConcat(DecimalText(q), PaddedText(r, k));
    ValueOfText(q);
    ValueOfPadded(r, k);
  }

  lemma SignReads(text: string, negative: bool)
    requires text != "" && Digit(text[0])
    ensures ReadDecimal(if negative then "-" + text else text) == ReadUnsigned(text, negative)
  {
    assert ("-" + text)[1..] == text;
  }

  lemma WholeText(negative: bool, c: nat)
    ensures ReadDecimal(PlainText(negative, c)) == Some(Decimal(negative, c, -8))
  {
    hide ReadDecimal, PointText;
    Powers();
    TextOf(negative, c / Pow10(8), c % Pow10(8));
  }

  lemma TextOf(negative: bool, q: nat, r: nat)
    requires r < Pow10(8)
    ensures ReadDecimal(PointText(negative, q, r)) == Some(Decimal(negative, q * Pow10(8) + r, -8))
  {
    SignReads(DecimalText(q) + ("." + PaddedText(r, 8)), negative);
    DigitsRead(negative, q, r);
  }

  lemma DigitsRead(negative: bool, q: nat, r: nat)
    requires r < Pow10(8)
    ensures ReadUnsigned(DecimalText(q) + ("." + PaddedText(r, 8)), negative)
      == Some(Decimal(negative, q * Pow10(8) + r, -8))
  {
    JoinedValue(q, r, 8);
    PointReads(DecimalText(q), PaddedText(r, 8), negative);
  }

  lemma {:induction false} ExcessBounds(c: nat, low: nat)
    requires c >= Pow10(PRECISION) == 10 * low
    ensures Excess(c) > 0 && low * Pow10(Excess(c)) <= c
    decreases c
  {
    Pow10Positive(PRECISION);
    if c / 10 >= Pow10(PRECISION) {
      ExcessBounds(c / 10, low);
      ShiftOnce(low, Excess(c));
    } else {
      assert Excess(c) == 1 && Pow10(1) == 10;
    }
  }

  /** Rounding never brings a coefficient down below the precision. */
  lemma LongStaysLong(c: nat, q: nat, unit: nat, low: nat)
    requires c >= Pow10(PRECISION) == 10 * low && unit == Pow10(Excess(c))
    requires c < (q + 1) * unit
    ensures q * unit >= Pow10(PRECISION)
  {
    ExcessBounds(c, low);
    if q + 1 <= low {
      ProductIsMonotone(q + 1, low, unit);
    }
    ProductIsMonotone(low, q, unit);
    AtLeastTenfold(low, Excess(c));
  }

  lemma AtLeastTenfold(n: nat, k: nat)
    requires k > 0
    ensures n * Pow10(k) >= 10 * n
  {
    ShiftOnce(n, k);
    Pow10Positive(k - 1);
    ProductIsMonotone(1, Pow10(k - 1), n);
  }

  lemma PrintsExactly(sats: int)
    ensures SatsToBtcText(sats) ==
      if Magnitude(sats) < Pow10(PRECISION) then Ok(PlainText(sats < 0, Magnitude(sats))) else Err(InvalidOperation)
  {
    var c := Magnitude(sats);
    if c < Pow10(PRECISION) {
      FitsUnchanged(Decimal(sats < 0, c, -8));
    } else {
      LongRefused(Decimal(sats < 0, c, -8));
    }
  }

  lemma FitsUnchanged(d: Decimal)
    requires d.coefficient < Pow10(PRECISION) && d.exponent == -8
    ensures Quantize(Round(d)) == Ok(d)
  {
    assert d.coefficient * Pow10(0) == d.coefficient;
  }

  lemma LongRefused(d: Decimal)
    requires d.coefficient >= Pow10(PRECISION) && d.exponent == -8
    ensures Quantize(Round(d)) == Err(InvalidOperation)
  {
    var k := Excess(d.coefficient);
    Pow10Positive(k);
    var q := d.coefficient / Pow10(k);
    QuotientBounds(d.coefficient, Pow10(k));
    LongStaysLong(d.coefficient, q, Pow10(k), Pow10(PRECISION - 1));
    ProductIsMonotone(q, HalfEven(d.coefficient, Pow10(k)), Pow10(k));
  }

  /** What is printed reads back as the same number of satoshis; printing fails from 10^28 on. */
  lemma RoundTrip(sats: int)
    ensures SatsToBtcText(sats).Ok? <==> Magnitude(sats) < Pow10(PRECISION)
    ensures SatsToBtcText(sats).Ok? ==> BtcToSats(SatsToBtcText(sats).value) == Ok(sats)
  {
    PrintsExactly(sats);
    if Magnitude(sats) < Pow10(PRECISION) {
      WholeText(sats < 0, Magnitude(sats));
      SatoshisAreWhole(sats);
    }
  }

  lemma SatoshisAreWhole(sats: int)
    requires Magnitude(sats) < Pow10(PRECISION)
    ensures ToSats(Decimal(sats < 0, Magnitude(sats), -8)) == Ok(sats)
  {
    var amount := Decimal(sats < 0, Magnitude(sats), -8);
    TruncatesTowardZero(amount);
    FewDigits(amount.coefficient, PRECISION);
  }

  lemma {:induction false} FewDigits(n: nat, k: nat)
    requires n < Pow10(k)
    ensures |DecimalText(n)| <= k + 1
  {
    if n >= 10 { FewDigits(n / 10, k - 1); }
  }

  predicate ExponentMark(mark: string) {
    mark in {"e-", "e+", "E-", "E+"}
  }

  lemma ExponentReads(mark: string, digits: string)
    requires ExponentMark(mark) && Digits(digits)
    ensures ReadExponent(mark + digits) == Some(Signed(mark[1] == '-', DecimalValue(digits)))
  {
    assert (mark + digits)[2..] == digits;
    assert (mark + digits)[0] == mark[0] && (mark + digits)[1] == mark[1];
  }

  /** What follows the whole part: an optional fraction, then the exponent. */
  function Trailing(fraction: string, exponent: string): string {
    if fraction == "" then exponent else "." + (fraction + exponent)
  }

  lemma TrailingReads(fraction: string, exponent: string)
    requires AllDigits(fraction) && NoDigitFirst(exponent) && (exponent != "" ==> exponent[0] != '.')
    ensures NoDigitFirst(Trailing(fraction, exponent))
    ensures ReadFraction(Trailing(fraction, exponent)) == (fraction, exponent)
  {
    if fraction != "" {
      assert Trailing(fraction, exponent)[1..] == fraction + exponent;
      SplitOf(fraction, exponent);
    }
  }

  /** Scientific notation: digits, an optional fraction, a signed exponent with any leading zeros. */
  lemma ScientificReads(whole: string, fraction: string, mark: string, digits: string)
    requires Digits(whole) && AllDigits(fraction) && ExponentMark(mark) && Digits(digits)
    ensures AllDigits(whole + fraction)
    ensures ReadDecimal(whole + Trailing(fraction, mark + digits))
      == Some(Decimal(false, DecimalValue(whole + fraction),
                      Signed(mark[1] == '-', DecimalValue(digits)) - |fraction|))
  {
    hide ReadDecimal, ReadExponent, Trailing;
    ExponentReads(mark, digits);
    MarkFirst(mark, digits);
    MantissaReads(whole, fraction, mark + digits, Signed(mark[1] == '-', DecimalValue(digits)));
  }

  lemma MantissaReads(whole: string, fraction: string, exponent: string, e: int)
    requires Digits(whole) && AllDigits(fraction) && NoDigitFirst(exponent) && (exponent != "" ==> exponent[0] != '.')
    requires ReadExponent(exponent) == Some(e)
    ensures AllDigits(whole + fraction)
    ensures ReadDecimal(whole + Trailing(fraction, exponent))
      == Some(Decimal(false, DecimalValue(whole + fraction), e - |fraction|))
  {
    hide ReadDecimal, ReadMagnitude, ReadFraction, ReadExponent, Trailing;
    var rest := Trailing(fraction, exponent);
    TrailingReads(fraction, exponent);
    SplitOf(whole, rest);
    PartsRead(whole + rest, whole, fraction, rest, exponent, e);
    UnsignedReads(whole, rest);
  }

  lemma MarkFirst(mark: string, digits: string)
    requires ExponentMark(mark)
    ensures var tail := mark + digits; tail != "" && NoDigitFirst(tail) && tail[0] != '.'
  {
    assert (mark + digits)[0] == mark[0];
  }

  lemma UnsignedReads(whole: string, rest: string)
    requires Digits(whole)
    ensures ReadDecimal(whole + rest) == ReadUnsigned(whole + rest, false)
  {
    assert (whole + rest)[0] == whole[0] && Digit(whole[0]);
  }

  lemma TwoDigits(a: char, b: char)
    requires Digit(a) && Digit(b)
    ensures Digits([a, b]) && DecimalValue([a]) == a as int - '0' as int
    ensures DecimalValue([a, b]) == 10 * (a as int - '0' as int) + (b as int - '0' as int)
  {
    ValueSnoc("", a);
    ValueSnoc([a], b);
    assert "" + [a] == [a] && [a] + [b] == [a, b];
  }

  lemma OneSatoshiReads()
    ensures ReadDecimal("1e-08") == Some(Decimal(false, 1, -8))
  {
    hide ReadDecimal;
    TwoDigits('0', '8');
    TwoDigits('1', '0');
    ScientificReads("1", "", "e-", "08");
    assert "1" + "" == "1" && "e-" + "08" == "e-08" && "1" + "e-08" == "1e-08";
  }

  lemma FifteenSatoshisRead()
    ensures ReadDecimal("1.5e-07") == Some(Decimal(false, 15, -8))
  {
    hide ReadDecimal;
    TwoDigits('0', '7');
    TwoDigits('1', '5');
    ScientificReads("1", "5", "e-", "07");
    assert "1" + "5" == "15" && "e-" + "07" == "e-07" && "1" + ("." + ("5" + "e-07")) == "1.5e-07";
  }

  /** Two floats in the range of satoshis, as Python prints them. */
  lemma SmallFloatsRead()
    ensures BtcToSats("1e-08") == Ok(1) && BtcToSats("1.5e-07") == Ok(15)
  {
    hide ReadDecimal, ToSats;
    OneSatoshiReads();
    FifteenSatoshisRead();
    Powers();
    SatoshisAreWhole(1);
    SatoshisAreWhole(15);
  }

  function Negate(result: Result<int, Problem>): Result<int, Problem> {
    match result case Ok(sats) => Ok(-sats) case Err(e) => Err(e)
  }

  lemma SatsNegate(d: Decimal)
    requires !d.negative
    ensures ToSats(d.(negative := true)) == Negate(ToSats(d))
  {
    var p, q := Round(d.(coefficient := d.coefficient * Pow10(8))),
      Round(d.(negative := true).(coefficient := d.coefficient * Pow10(8)));
    assert q == p.(negative := true);
    assert TruncateTo(q, 0) == TruncateTo(p, 0);
  }

  /** Negating a text that begins with a digit or a point negates the result, and changes no refusal. */
  lemma OddSymmetry(text: string)
    requires text != "" && (Digit(text[0]) || text[0] == '.')
    ensures BtcToSats("-" + text) == Negate(BtcToSats(text))
  {
    assert ("-" + text)[1..] == text;
    if ReadUnsigned(text, false).Some? {
      SatsNegate(ReadUnsigned(text, false).value);
    }
  }
}
