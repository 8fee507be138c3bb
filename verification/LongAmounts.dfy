/**
 Amounts with more digits than the decimal context holds. The product with 10^8 is rounded
 half-even to 28 digits before it is truncated; here is exactly when that shows.
 */
module LongAmounts {
  import opened Prelude
  import opened Numerals
  import opened Amounts

  /** Dropping the digits below `unit`, half-even rounding takes the lower neighbour. */
  predicate RoundsDown(c: nat, unit: nat)
    requires unit > 0
  {
    2 * (c % unit) < unit || (2 * (c % unit) == unit && c / unit % 2 == 0)
  }

  /**
   Read off the digits of an amount: k of them do not fit, and the last digit that does
   counts 10^x satoshis. If that is a satoshi or less, the result is right when the digits
   are rounded down, or when rounding up does not carry into the satoshis. If it is more,
   the result is right when the digits that do not fit are worth less than a satoshi.
   */
  predicate KeepsSatoshis(amount: Decimal) {
    var c, k := amount.coefficient, Excess(amount.coefficient);
    var x := amount.exponent + 8 + k;
    Pow10Positive(k);
    if x <= 0 then
      Pow10Positive(-x);
      RoundsDown(c, Pow10(k)) || (c / Pow10(k) + 1) % Pow10(-x) != 0
    else c % Pow10(k) < Pow10(if x <= k then k - x else 0)
  }

  // ------------------------------------------------------------ the rounded product

  lemma HalfEvenScales(c: nat, unit: nat, more: nat)
    requires unit > 0 && more > 0
    ensures unit * more > 0 && HalfEven(c * more, unit * more) == HalfEven(c, unit)
  {
    var r := c % unit;
    CancelFactor(c, unit, more);
    RemainderScales(c, unit, more);
    ProductsCompare(2 * r, unit, more);
    Regroup(2, r, more);
  }

  lemma ProductsCompare(a: nat, b: nat, unit: nat)
    requires unit > 0
    ensures a * unit > b * unit <==> a > b
    ensures a * unit == b * unit <==> a == b
  {
    ProductsAgree(a, b, unit);
    if a > b {
      ProductIsStrict(b, a, unit);
    } else {
      ProductIsMonotone(a, b, unit);
    }
  }

  lemma LongProduct(amount: Decimal, k: nat)
    requires amount.coefficient >= Pow10(PRECISION) && k == Excess(amount.coefficient)
    ensures Pow10(k) > 0 && Round(amount.(coefficient := amount.coefficient * Pow10(8)))
      == Decimal(amount.negative, HalfEven(amount.coefficient, Pow10(k)), amount.exponent + 8 + k)
  {
    Pow10Positive(k);
    Pow10Positive(8);
    ExcessAddsUp(amount.coefficient, 8);
    Pow10Add(k, 8);
    HalfEvenScales(amount.coefficient, Pow10(k), Pow10(8));
  }

  // ------------------------------------------------------------ comparing with the truncation

  lemma TruncatedIsQuotient(c: nat, unit: nat, sats: nat)
    requires unit > 0
    ensures sats * unit <= c < (sats + 1) * unit <==> sats == c / unit
  {
    QuotientBounds(c, unit);
    if sats * unit <= c < (sats + 1) * unit { QuotientIsUnique(c, unit, sats); }
  }

  /** The last kept digit counts a satoshi or less. */
  lemma FineDigits(c: nat, k: nat, m: nat)
    requires Pow10(k) > 0 && Pow10(m) > 0 && Pow10(k + m) > 0
    ensures HalfEven(c, Pow10(k)) / Pow10(m) == c / Pow10(k + m)
      <==> RoundsDown(c, Pow10(k)) || (c / Pow10(k) + 1) % Pow10(m) != 0
  {
    NestedPowers(c, k, m);
    QuotientBounds(c / Pow10(k), Pow10(m));
    NextQuotient(c / Pow10(k), c / Pow10(k) / Pow10(m), Pow10(m));
  }

  lemma NestedPowers(c: nat, k: nat, m: nat)
    requires Pow10(k) > 0 && Pow10(m) > 0 && Pow10(k + m) > 0
    ensures c / Pow10(k) / Pow10(m) == c / Pow10(k + m)
  {
    Pow10Add(m, k);
    DividingTwice(c, Pow10(k), Pow10(m));
  }

  lemma WholePart(c: nat, unit: nat)
    requires unit > 0
    ensures c == c / unit * unit + c % unit && (c / unit + 1) * unit == c / unit * unit + unit
  {
  }

  /** Only multiples of the unit survive the rounding unchanged. */
  lemma RoundedIsSame(c: nat, unit: nat)
    requires unit > 0
    ensures HalfEven(c, unit) * unit == c <==> c % unit == 0
  {
    WholePart(c, unit);
  }

  /** The last kept digit counts at least as much as the last digit dropped counts satoshis. */
  lemma CoarseDigits(c: nat, k: nat, x: nat)
    requires x >= k && Pow10(k) > 0
    ensures HalfEven(c, Pow10(k)) * Pow10(x) == c * Pow10(x - k) <==> c % Pow10(k) < 1
  {
    var q := HalfEven(c, Pow10(k));
    Pow10Add(k, x - k);
    Regroup(q, Pow10(k), Pow10(x - k));
    Pow10Positive(x - k);
    ProductsAgree(q * Pow10(k), c, Pow10(x - k));
    RoundedIsSame(c, Pow10(k));
  }

  lemma SmallRest(c: nat, unit: nat, part: nat)
    requires unit > 0 && 10 * part <= unit
    ensures var q := HalfEven(c, unit); q * unit <= c < q * unit + part <==> c % unit < part
  {
    WholePart(c, unit);
  }

  /** The satoshi lies among the digits dropped. */
  lemma MiddleDigits(c: nat, k: nat, x: nat)
    requires 0 < x < k && Pow10(k) > 0
    ensures var sats := HalfEven(c, Pow10(k)) * Pow10(x);
      sats * Pow10(k - x) <= c < (sats + 1) * Pow10(k - x) <==> c % Pow10(k) < Pow10(k - x)
  {
    var q := HalfEven(c, Pow10(k));
    var part := Pow10(k - x);
    Pow10Add(x, k - x);
    Regroup(q, Pow10(x), part);
    Distribute(q * Pow10(x), 1, part);
    Pow10Positive(k - x);
    Pow10Positive(x - 1);
    TenParts(x, k - x);
    SmallRest(c, Pow10(k), part);
  }

  lemma TenParts(x: nat, m: nat)
    requires x > 0
    ensures 10 * Pow10(m) <= Pow10(x + m)
  {
    Pow10Add(x - 1, m + 1);
    Pow10Positive(x - 1);
    ProductIsMonotone(1, Pow10(x - 1), Pow10(m + 1));
  }

  // ------------------------------------------------------------ theorem

  lemma ShortKeepsSatoshis(amount: Decimal)
    requires amount.coefficient < Pow10(PRECISION)
    ensures KeepsSatoshis(amount)
  {
    assert Pow10(0) == 1 && amount.coefficient % 1 == 0;
  }

  lemma LongKeepsSatoshis(amount: Decimal, k: nat, product: Decimal)
    requires k == Excess(amount.coefficient) > 0 && Pow10(k) > 0
    requires product == Decimal(amount.negative, HalfEven(amount.coefficient, Pow10(k)), amount.exponent + 8 + k)
    ensures TruncatedSats(amount, TruncateTo(product, 0)) <==> KeepsSatoshis(amount)
  {
    var c, x := amount.coefficient, amount.exponent + 8 + k;
    if x <= 0 {
      Pow10Positive(-x);
      Pow10Positive(k - x);
      FineDigits(c, k, -x);
      TruncatedIsQuotient(c, Pow10(k - x), TruncateTo(product, 0));
      assert x == 0 ==> product.coefficient * Pow10(0) == product.coefficient == product.coefficient / Pow10(0);
    } else if x < k {
      MiddleDigits(c, k, x);
    } else {
      CoarseDigits(c, k, x);
    }
  }

  // how many digits the rounded product has

  lemma {:induction false} DigitCount(n: nat, m: nat)
    requires Pow10(m) <= n < Pow10(m + 1)
    ensures |DecimalText(n)| == m + 1
  {
    if m == 0 {
      assert Pow10(0) == 1 && Pow10(1) == 10;
    } else {
      Pow10Positive(m - 1);
      assert Pow10(m) == 10 * Pow10(m - 1) && Pow10(m + 1) == 10 * Pow10(m);
      DigitCount(n / 10, m - 1);
    }
  }

  lemma {:induction false} ExcessBoundsAbove(c: nat)
    ensures c < Pow10(PRECISION + Excess(c))
    decreases c
  {
    Pow10Positive(PRECISION);
    if c >= Pow10(PRECISION) {
      ExcessBoundsAbove(c / 10);
      assert Pow10(PRECISION + Excess(c)) == 10 * Pow10(PRECISION + Excess(c / 10));
    }
  }

  /** The kept digits of a long coefficient are 28 in number, and it has 28 more than it has beyond. */
  lemma KeptDigits(c: nat)
    requires c >= Pow10(PRECISION)
    ensures var k := Excess(c);
      && k > 0 && Pow10(k) > 0 && |DecimalText(c)| == PRECISION + k
      && Pow10(PRECISION - 1) <= c / Pow10(k) < Pow10(PRECISION)
  {
    var k := Excess(c);
    Pow10Positive(k);
    ExcessBounds(c, Pow10(PRECISION - 1));
    ExcessBoundsAbove(c);
    Pow10Add(PRECISION - 1, k);
    Pow10Add(PRECISION, k);
    DigitCount(c, PRECISION - 1 + k);
    WithinQuotient(c, Pow10(k), Pow10(PRECISION - 1), Pow10(PRECISION));
  }

  lemma WithinQuotient(c: nat, unit: nat, low: nat, high: nat)
    requires unit > 0 && low * unit <= c < high * unit
    ensures low <= c / unit < high
  {
    QuotientBounds(c, unit);
    if c / unit < low { ProductIsMonotone(c / unit + 1, low, unit); }
    if c / unit >= high { ProductIsMonotone(high, c / unit, unit); }
  }

  /** The digits that fit are all nines and are rounded up: the result has a digit more. */
  predicate CarriesOver(c: nat) {
    var k := Excess(c);
    Pow10Positive(k);
    c / Pow10(k) + 1 == Pow10(PRECISION) && !RoundsDown(c, Pow10(k))
  }

  /** The amount in satoshis, rounded to 28 digits, leaves the exponent range of the context. */
  predicate Overflows(amount: Decimal) {
    var c := amount.coefficient;
    c > 0 && |DecimalText(c)| + 7 + amount.exponent + (if CarriesOver(c) then 1 else 0) > MAX_EXPONENT
  }

  lemma RoundedDigits(c: nat)
    requires c >= Pow10(PRECISION)
    ensures Pow10(Excess(c)) > 0 && HalfEven(c, Pow10(Excess(c))) > 0
    ensures |DecimalText(HalfEven(c, Pow10(Excess(c))))| == PRECISION + (if CarriesOver(c) then 1 else 0)
  {
    KeptDigits(c);
    Pow10Positive(PRECISION - 1);
    assert Pow10(PRECISION + 1) == 10 * Pow10(PRECISION);
    var h := HalfEven(c, Pow10(Excess(c)));
    DigitCount(h, if h == Pow10(PRECISION) then PRECISION else PRECISION - 1);
  }

  lemma ShortNeverCarries(c: nat)
    requires c < Pow10(PRECISION)
    ensures !CarriesOver(c)
  {
    assert Pow10(0) == 1 && c % 1 == 0;
  }

  lemma OverflowsExactlyWhen(amount: Decimal)
    ensures ToSats(amount) == Err(Overflow) <==> Overflows(amount)
  {
    var c := amount.coefficient;
    if c < Pow10(PRECISION) {
      ShortNeverCarries(c);
      TruncatesTowardZero(amount);
    } else {
      LongProduct(amount, Excess(c));
      KeptDigits(c);
      RoundedDigits(c);
    }
  }

  // the theorem

  /**
   For every amount: it overflows if and only if its digits and exponent say so; otherwise the
   result is the amount in satoshis, truncated toward zero, if and only if the digits that do not
   fit the precision leave the satoshis alone.
   */
  lemma TruncatesExactlyWhen(amount: Decimal)
    ensures if Overflows(amount) then ToSats(amount) == Err(Overflow)
            else && ToSats(amount).Ok?
                 && ToSats(amount).value == Signed(amount.negative, Magnitude(ToSats(amount).value))
                 && (TruncatedSats(amount, Magnitude(ToSats(amount).value)) <==> KeepsSatoshis(amount))
  {
    hide Overflows, KeepsSatoshis, TruncatedSats;
    OverflowsExactlyWhen(amount);
    if ToSats(amount).Ok? { ResultKeepsSatoshis(amount); }
  }

  lemma ResultKeepsSatoshis(amount: Decimal)
    requires ToSats(amount).Ok?
    ensures TruncatedSats(amount, Magnitude(ToSats(amount).value)) <==> KeepsSatoshis(amount)
  {
    if amount.coefficient < Pow10(PRECISION) {
      ProductWithin(amount);
      ShortKeepsSatoshis(amount);
    } else {
      var k := Excess(amount.coefficient);
      KeptDigits(amount.coefficient);
      LongProduct(amount, k);
      LongKeepsSatoshis(amount, k, Round(amount.(coefficient := amount.coefficient * Pow10(8))));
    }
  }

  // ------------------------------------------------------------ two texts that go wrong

  const NINES: nat := 99999999999999999999999999999  // 29 digits

  lemma NinesRoundUp()
    ensures Round(Decimal(false, NINES * Pow10(8), -29)) == Decimal(false, Pow10(28), -20)
  {
    Powers();
    assert Excess(NINES / 10) == 0;
    assert Excess(NINES) == 1;
    ExcessAddsUp(NINES, 8);
    assert HalfEven(9999999999999999999999999999900000000, 1000000000) == 10000000000000000000000000000;
  }

  lemma HundredMillion()
    ensures TruncateTo(Decimal(false, Pow10(28), -20), 0) == 100000000
    ensures |DecimalText(Pow10(28))| == 29
  {
    Powers();
    Pow10Add(8, 20);
    DividesExactly(Pow10(8), Pow10(20));
    TextOfShifted(1, 28);
    assert 1 * Pow10(28) == Pow10(28);
  }

  lemma NinesTruncate()
    ensures TruncatedSats(Decimal(false, NINES, -29), 99999999)
  {
    Powers();
    Pow10Add(8, 21);
    assert 99999999 * Pow10(21) + Pow10(21) == Pow10(29);
    Pow10Positive(21);
    assert Pow10(29) == 100000000 * Pow10(21);
  }

  lemma NinesRead()
    ensures ReadDecimal("0" + ("." + PaddedText(NINES, 29))) == Some(Decimal(false, NINES, -29))
  {
    Powers();
    PointReads("0", PaddedText(NINES, 29), false);
    ValueOfText(0);
    assert DecimalText(0) == "0";
    ValueOfConcat("0", PaddedText(NINES, 29));
    ValueOfPadded(NINES, 29);
    UnsignedReads("0", "." + PaddedText(NINES, 29));
  }

  /** "0." and 29 nines: less than one bitcoin, read as one bitcoin. */
  lemma NinesComeOutHigh()
    ensures BtcToSats("0" + ("." + PaddedText(NINES, 29))) == Ok(100000000)
    ensures ReadDecimal("0" + ("." + PaddedText(NINES, 29))) == Some(Decimal(false, NINES, -29))
    ensures TruncatedSats(Decimal(false, NINES, -29), 99999999)
  {
    NinesRead();
    NinesRoundUp();
    HundredMillion();
    NinesTruncate();
  }

  const HUGE: nat := 10000000000000000000000000001  // 10^28 + 1

  lemma HugeRead()
    ensures ReadDecimal(DecimalText(HUGE)) == Some(Decimal(false, HUGE, 0))
  {
    var text := DecimalText(HUGE);
    ValueOfText(HUGE);
    MantissaReads(text, "", "", 0);
    assert text + "" == text;
  }

  lemma HugeRounds()
    ensures Round(Decimal(false, HUGE * Pow10(8), 0)) == Decimal(false, Pow10(27), 9)
  {
    Powers();
    assert Pow10(28) == 10 * Pow10(27);
    assert Excess(HUGE / 10) == 0;
    assert Excess(HUGE) == 1;
    ExcessAddsUp(HUGE, 8);
    assert HalfEven(1000000000000000000000000000100000000, 1000000000) == 1000000000000000000000000000;
  }

  /** The integer 10^28 + 1, as any JSON integer is printed: a whole bitcoin is lost. */
  lemma HugeComesOutLow()
    ensures BtcToSats(DecimalText(HUGE)) == Ok(Pow10(36))
    ensures ReadDecimal(DecimalText(HUGE)) == Some(Decimal(false, HUGE, 0))
    ensures TruncatedSats(Decimal(false, HUGE, 0), Pow10(36) + 100000000)
  {
    Powers();
    HugeRead();
    HugeRounds();
    Pow10Add(27, 9);
    Pow10Add(28, 8);
    TextOfShifted(1, 27);
    assert 1 * Pow10(27) == Pow10(27);
    assert |DecimalText(1)| == 1;
  }
}
