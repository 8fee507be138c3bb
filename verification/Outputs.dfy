/** Reading and merging the outputs of a send request. */
module Outputs {
  import opened Prelude
  import opened Json
  import opened Numerals
  import opened Sorting

  datatype Problem =
    InvalidOutputs | TooManyOutputs | InvalidOutput | InvalidAddress | InvalidInteger | AmountExceedsLimit

  datatype Output = Output(address: string, amountSats: int)

  // ------------------------------------------------------------ one item

  predicate Alphanumeric(c: char) {
    'A' <= c <= 'Z' || 'a' <= c <= 'z' || '0' <= c <= '9'
  }

  predicate AddressLiteral(v: Json) {
    v.Str? && 14 <= |v.s| <= 120 && forall i :: 0 <= i < |v.s| ==> Alphanumeric(v.s[i])
  }

  /** `_parse_unsigned_int`: a JSON integer as it is, or a text of digits; never a boolean. */
  function ParseUnsigned(v: Json): Result<int, Problem> {
    match v
    case Int(n) => Ok(n)
    case Str(s) => if Digits(s) then Ok(DecimalValue(s)) else Err(InvalidInteger)
    case _ => Err(InvalidInteger)
  }

  function ReadItem(item: Json): Result<Output, Problem> {
    if !item.Obj? then Err(InvalidOutput)
    else
      var address := Get(item.fields, "address");
      if !AddressLiteral(address) then Err(InvalidAddress)
      else
        match ParseUnsigned(Get(item.fields, "amountSats"))
        case Err(e) => Err(e)
        case Ok(sats) => if sats <= 0 then Err(InvalidInteger) else Ok(Output(address.s, sats))
  }

  // ------------------------------------------------------------ merging

  /** `merged[address] = merged.get(address, 0) + sats`, on a dict that keeps insertion order. */
  function AddTo(merged: seq<Output>, address: string, sats: int): seq<Output> {
    if merged == [] then [Output(address, sats)]
    else if merged[0].address == address then [Output(address, merged[0].amountSats + sats)] + merged[1..]
    else [merged[0]] + AddTo(merged[1..], address, sats)
  }

  function AmountAt(merged: seq<Output>, address: string): int {
    if merged == [] then 0
    else AmountAt(merged[1..], address) + (if merged[0].address == address then merged[0].amountSats else 0)
  }

  function SumAmounts(merged: seq<Output>): int {
    if merged == [] then 0 else merged[0].amountSats + SumAmounts(merged[1..])
  }

  /** The merge loop, item by item, with the first problem it meets. */
  function Merge(items: seq<Json>, limit: int): Result<seq<Output>, Problem> {
    if items == [] then Ok([])
    else
      match Merge(items[..|items| - 1], limit)
      case Err(e) => Err(e)
      case Ok(merged) =>
        match ReadItem(items[|items| - 1])
        case Err(e) => Err(e)
        case Ok(o) =>
          if o.amountSats > limit then Err(AmountExceedsLimit)
          else
            var merged' := AddTo(merged, o.address, o.amountSats);
            if AmountAt(merged', o.address) > limit then Err(AmountExceedsLimit) else Ok(merged')
  }

  /** `sorted(merged.items())`; the addresses of a dict are distinct. */
  function SortByAddress(outputs: seq<Output>): seq<Output> {
    Sort(outputs, (o: Output) => o.address)
  }

  function Normalize(raw: Json, maxOutputs: int, maxSend: int): Result<seq<Output>, Problem> {
    if !raw.Arr? || raw.items == [] then Err(InvalidOutputs)
    else if |raw.items| > maxOutputs then Err(TooManyOutputs)
    else
      match Merge(raw.items, maxSend)
      case Err(e) => Err(e)
      case Ok(merged) =>
        if SumAmounts(merged) > maxSend then Err(AmountExceedsLimit) else Ok(SortByAddress(merged))
  }

  lemma {:induction false} FirstProblemStays(items: seq<Json>, limit: int, i: nat)
    requires i <= |items| && Merge(items[..i], limit).Err?
    ensures Merge(items, limit) == Merge(items[..i], limit)
  {
    if i < |items| {
      assert items[..|items| - 1][..i] == items[..i];
      FirstProblemStays(items[..|items| - 1], limit, i);
    } else {
      assert items[..i] == items;
    }
  }

  /** `normalize_outputs`. */
  method NormalizeOutputs(body: seq<Field>, maxOutputs: int, maxSend: int)
    returns (result: Result<seq<Output>, Problem>)
    ensures result == Normalize(Get(body, "outputs"), maxOutputs, maxSend)
  {
    var raw := Get(body, "outputs");
    if !raw.Arr? || raw.items == [] {
      return Err(InvalidOutputs);
    }
    var items := raw.items;
    if |items| > maxOutputs {
      return Err(TooManyOutputs);
    }
    var merged: seq<Output> := [];
    for i := 0 to |items|
      invariant Merge(items[..i], maxSend) == Ok(merged)
    {
      assert items[..i + 1][..i] == items[..i];
      var item := ReadItem(items[i]);
      if item.Err? {
        FirstProblemStays(items, maxSend, i + 1);
        return Err(item.error);
      }
      if item.value.amountSats > maxSend {
        FirstProblemStays(items, maxSend, i + 1);
        return Err(AmountExceedsLimit);
      }
      merged := AddTo(merged, item.value.address, item.value.amountSats);
      if AmountAt(merged, item.value.address) > maxSend {
        FirstProblemStays(items, maxSend, i + 1);
        return Err(AmountExceedsLimit);
      }
    }
    assert items[..|items|] == items;
    if SumAmounts(merged) > maxSend {
      return Err(AmountExceedsLimit);
    }
    return Ok(SortByAddress(merged));
  }

  // ------------------------------------------------------------ what it promises

  /** A sum over the items, in any order. */
  function SumBy(items: seq<Json>, weight: Json -> int): int {
    if items == [] then 0 else weight(items[0]) + SumBy(items[1..], weight)
  }

  function Amount(item: Json): int {
    match ReadItem(item) case Ok(o) => o.amountSats case Err(_) => 0
  }

  function AmountFor(address: string): Json -> int {
    (item: Json) => match ReadItem(item)
                    case Ok(o) => if o.address == address then o.amountSats else 0
                    case Err(_) => 0
  }

  predicate AllValid(items: seq<Json>) {
    forall i :: 0 <= i < |items| ==> ReadItem(items[i]).Ok?
  }

  predicate Acceptable(raw: Json, maxOutputs: int, maxSend: int) {
    && raw.Arr? && raw.items != [] && |raw.items| <= maxOutputs
    && AllValid(raw.items) && SumBy(raw.items, Amount) <= maxSend
  }

  predicate StrictlySorted(outputs: seq<Output>) {
    forall i, j :: 0 <= i < j < |outputs| ==> TextLess(outputs[i].address, outputs[j].address)
  }

  predicate AllPositive(outputs: seq<Output>) {
    forall i :: 0 <= i < |outputs| ==> outputs[i].amountSats > 0
  }

  predicate DistinctAddresses(outputs: seq<Output>) {
    forall i, j :: 0 <= i < j < |outputs| ==> outputs[i].address != outputs[j].address
  }

  predicate Literals(outputs: seq<Output>) {
    forall i :: 0 <= i < |outputs| ==> AddressLiteral(Str(outputs[i].address))
  }

  // -- sums

  lemma {:induction false} SumBySnoc(items: seq<Json>, weight: Json -> int)
    requires items != []
    ensures SumBy(items, weight) == SumBy(items[..|items| - 1], weight) + weight(items[|items| - 1])
  {
    if |items| > 1 {
      assert items[1..][..|items| - 2] == items[..|items| - 1][1..];
      SumBySnoc(items[1..], weight);
    }
  }

  lemma {:induction false} SumByConcat(a: seq<Json>, b: seq<Json>, weight: Json -> int)
    ensures SumBy(a + b, weight) == SumBy(a, weight) + SumBy(b, weight)
  {
    if a == [] {
      assert a + b == b;
    } else {
      assert (a + b)[1..] == a[1..] + b;
      SumByConcat(a[1..], b, weight);
    }
  }

  lemma WithoutOne(a: seq<Json>, b: seq<Json>, i: nat)
    requires multiset(a) == multiset(b) && a != [] && i < |b| && b[i] == a[0]
    ensures multiset(a[1..]) == multiset(b[..i] + b[i + 1..])
  {
    var rest := b[..i] + b[i + 1..];
    assert a == [a[0]] + a[1..];
    assert b == b[..i] + [b[i]] + b[i + 1..];
    assert multiset(b) == multiset(rest) + multiset{b[i]};
    assert multiset(a) == multiset(a[1..]) + multiset{a[0]};
    assert multiset(a[1..]) == multiset(a) - multiset{a[0]};
  }

  /** A sum does not depend on the order of the items. */
  lemma {:induction false} SumByPermutes(a: seq<Json>, b: seq<Json>, weight: Json -> int)
    requires multiset(a) == multiset(b)
    ensures SumBy(a, weight) == SumBy(b, weight)
    decreases |a|
  {
    if a == [] {
      assert |multiset(b)| == 0;
    } else {
      assert a[0] in multiset(b);
      var i :| 0 <= i < |b| && b[i] == a[0];
      var rest := b[..i] + b[i + 1..];
      assert b == b[..i] + ([b[i]] + b[i + 1..]);
      WithoutOne(a, b, i);
      SumByPermutes(a[1..], rest, weight);
      SumByConcat(b[..i], b[i + 1..], weight);
      SumByConcat(b[..i], [b[i]] + b[i + 1..], weight);
      assert ([b[i]] + b[i + 1..])[1..] == b[i + 1..];
    }
  }

  lemma {:induction false} AddToAmounts(merged: seq<Output>, address: string, sats: int, other: string)
    ensures AmountAt(AddTo(merged, address, sats), other)
      == AmountAt(merged, other) + (if other == address then sats else 0)
    ensures SumAmounts(AddTo(merged, address, sats)) == SumAmounts(merged) + sats
  {
    if merged != [] {
      AddToAmounts(merged[1..], address, sats, other);
      if merged[0].address != address {
        assert AddTo(merged, address, sats)[1..] == AddTo(merged[1..], address, sats);
      } else {
        assert AddTo(merged, address, sats)[1..] == merged[1..];
      }
    }
  }

  /** Every entry is the new address, or keeps the address that stood there. */
  lemma {:induction false} AddToEntry(merged: seq<Output>, address: string, sats: int, i: nat)
    requires AllPositive(merged) && sats > 0 && i < |AddTo(merged, address, sats)|
    ensures |AddTo(merged, address, sats)| <= |merged| + 1
    ensures var o := AddTo(merged, address, sats)[i];
      o.amountSats > 0 && (o.address == address || (i < |merged| && o.address == merged[i].address))
  {
    if merged != [] && merged[0].address != address {
      AddToEntry(merged[1..], address, sats, if i > 0 then i - 1 else 0);
    }
  }

  lemma {:induction false} AddToStaysDistinct(merged: seq<Output>, address: string, sats: int)
    requires DistinctAddresses(merged) && AllPositive(merged) && sats > 0
    ensures AddTo(merged, address, sats) != [] && DistinctAddresses(AddTo(merged, address, sats))
  {
    if merged != [] && merged[0].address != address {
      var rest := AddTo(merged[1..], address, sats);
      AddToStaysDistinct(merged[1..], address, sats);
      forall i | 0 <= i < |rest|
        ensures rest[i].address != merged[0].address
      {
        AddToEntry(merged[1..], address, sats, i);
      }
    }
  }

  /** Merging keeps one entry per address, valid addresses and positive amounts, and never grows past the items. */
  lemma AddToShape(merged: seq<Output>, address: string, sats: int)
    requires DistinctAddresses(merged) && AllPositive(merged) && Literals(merged)
    requires sats > 0 && AddressLiteral(Str(address))
    ensures var merged' := AddTo(merged, address, sats);
      && DistinctAddresses(merged') && AllPositive(merged') && Literals(merged') && |merged'| <= |merged| + 1
  {
    AddToStaysDistinct(merged, address, sats);
    AddToEntry(merged, address, sats, 0);
    forall i | 0 <= i < |AddTo(merged, address, sats)|
      ensures AddTo(merged, address, sats)[i].amountSats > 0
      ensures AddressLiteral(Str(AddTo(merged, address, sats)[i].address))
    {
      AddToEntry(merged, address, sats, i);
    }
  }

  lemma {:induction false} AmountWithin(merged: seq<Output>, address: string)
    requires AllPositive(merged)
    ensures 0 <= AmountAt(merged, address) <= SumAmounts(merged)
  {
    if merged != [] { AmountWithin(merged[1..], address); }
  }

  /** The merge loop: what it accepts, and what it has then accumulated. */
  lemma {:induction false} MergeAccumulates(items: seq<Json>, limit: int, address: string)
    ensures AllValid(items) && SumBy(items, Amount) <= limit ==> Merge(items, limit).Ok?
    ensures Merge(items, limit).Ok? ==>
      var merged := Merge(items, limit).value;
      && AllValid(items)
      && AmountAt(merged, address) == SumBy(items, AmountFor(address))
      && SumAmounts(merged) == SumBy(items, Amount)
      && DistinctAddresses(merged) && AllPositive(merged) && Literals(merged) && |merged| <= |items|
      && (items != [] ==> merged != [])
  {
    if items != [] {
      var n := |items| - 1;
      var init, last := items[..n], items[n];
      SumBySnoc(items, Amount);
      SumBySnoc(items, AmountFor(address));
      MergeAccumulates(init, limit, address);
      assert AllValid(items) <==> AllValid(init) && ReadItem(last).Ok? by {
        assert forall i :: 0 <= i < n ==> init[i] == items[i];
      }
      if ReadItem(last).Ok? && Merge(init, limit).Ok? {
        var o, merged := ReadItem(last).value, Merge(init, limit).value;
        AddToAmounts(merged, o.address, o.amountSats, address);
        AddToAmounts(merged, o.address, o.amountSats, o.address);
        AddToShape(merged, o.address, o.amountSats);
        AmountWithin(AddTo(merged, o.address, o.amountSats), o.address);
        AmountWithin(merged, o.address);
        assert SumAmounts(merged) >= 0;
      } else if AllValid(items) {
        AmountsNotNegative(init);
      }
    }
  }

  lemma {:induction false} AmountsNotNegative(items: seq<Json>)
    ensures SumBy(items, Amount) >= 0
  {
    if items != [] { AmountsNotNegative(items[1..]); }
  }

  // -- sorting

  lemma {:induction false} InsertAmounts(sorted: seq<Output>, o: Output, key: Output -> string, address: string)
    ensures AmountAt(Insert(sorted, o, key), address)
      == AmountAt(sorted, address) + (if o.address == address then o.amountSats else 0)
    ensures SumAmounts(Insert(sorted, o, key)) == SumAmounts(sorted) + o.amountSats
  {
    if sorted != [] && !TextLess(key(o), key(sorted[0])) {
      InsertAmounts(sorted[1..], o, key, address);
      assert Insert(sorted, o, key)[1..] == Insert(sorted[1..], o, key);
    } else {
      assert Insert(sorted, o, key)[1..] == sorted;
    }
  }

  lemma {:induction false} SortAmounts(outputs: seq<Output>, key: Output -> string, address: string)
    ensures AmountAt(Sort(outputs, key), address) == AmountAt(outputs, address)
    ensures SumAmounts(Sort(outputs, key)) == SumAmounts(outputs)
  {
    if outputs != [] {
      SortAmounts(outputs[1..], key, address);
      InsertAmounts(Sort(outputs[1..], key), outputs[0], key, address);
    }
  }

  // -- uniqueness of the normal form

  lemma {:induction false} AbsentAmount(outputs: seq<Output>, address: string)
    requires forall i :: 0 <= i < |outputs| ==> outputs[i].address != address
    ensures AmountAt(outputs, address) == 0
  {
    if outputs != [] { AbsentAmount(outputs[1..], address); }
  }

  /** The head of a sorted list holds all of its address. */
  lemma HeadAmount(outputs: seq<Output>)
    requires outputs != [] && StrictlySorted(outputs)
    ensures AmountAt(outputs, outputs[0].address) == outputs[0].amountSats
    ensures forall a :: TextLess(a, outputs[0].address) ==> AmountAt(outputs, a) == 0
  {
    forall i | 1 <= i < |outputs|
      ensures outputs[i].address != outputs[0].address
    {
      TextLessTrichotomy(outputs[0].address, outputs[i].address);
    }
    AbsentAmount(outputs[1..], outputs[0].address);
    forall a | TextLess(a, outputs[0].address)
      ensures AmountAt(outputs, a) == 0
    {
      forall i | 0 <= i < |outputs|
        ensures outputs[i].address != a
      {
        if i > 0 { TextLessTransitive(a, outputs[0].address, outputs[i].address); }
        TextLessTrichotomy(a, outputs[i].address);
      }
      AbsentAmount(outputs, a);
    }
  }

  /** A strictly sorted list of positive amounts is determined by the amount it gives each address. */
  lemma {:induction false} NormalFormIsUnique(a: seq<Output>, b: seq<Output>)
    requires StrictlySorted(a) && StrictlySorted(b) && AllPositive(a) && AllPositive(b)
    requires forall address :: AmountAt(a, address) == AmountAt(b, address)
    ensures a == b
    decreases |a|
  {
    if a != [] {
      HeadAmount(a);
      assert AmountAt(b, a[0].address) == a[0].amountSats;
    }
    if b != [] {
      HeadAmount(b);
      assert AmountAt(a, b[0].address) == b[0].amountSats;
    }
    if a != [] && b != [] {
      TextLessTrichotomy(a[0].address, b[0].address);
      assert a[0].address == b[0].address;
      assert a[0] == b[0];
      forall address
        ensures AmountAt(a[1..], address) == AmountAt(b[1..], address)
      {
        assert AmountAt(a, address) == AmountAt(b, address);
      }
      NormalFormIsUnique(a[1..], b[1..]);
      assert a == [a[0]] + a[1..] && b == [b[0]] + b[1..];
    }
  }

  // -- theorems

  /** Accepted exactly when the list is non-empty, within the count, valid throughout and within the total. */
  lemma AcceptsExactly(raw: Json, maxOutputs: int, maxSend: int)
    ensures Normalize(raw, maxOutputs, maxSend).Ok? <==> Acceptable(raw, maxOutputs, maxSend)
  {
    if raw.Arr? {
      MergeAccumulates(raw.items, maxSend, "");
    }
  }

  /** Value is conserved, address by address and in total, in a strictly sorted list of positive amounts. */
  lemma ConservesValue(raw: Json, maxOutputs: int, maxSend: int, address: string)
    requires Normalize(raw, maxOutputs, maxSend).Ok?
    ensures var outputs := Normalize(raw, maxOutputs, maxSend).value;
      && raw.Arr? && outputs != [] && |outputs| <= |raw.items|
      && StrictlySorted(outputs) && AllPositive(outputs) && Literals(outputs)
      && AmountAt(outputs, address) == SumBy(raw.items, AmountFor(address))
      && SumAmounts(outputs) == SumBy(raw.items, Amount) <= maxSend
  {
    var merged := Merge(raw.items, maxSend).value;
    var outputs := SortByAddress(merged);
    MergeAccumulates(raw.items, maxSend, address);
    SortAmounts(merged, (o: Output) => o.address, address);
    SortIsStrict(merged, (o: Output) => o.address);
    SortMember(merged, (o: Output) => o.address, merged[0]);
    forall i | 0 <= i < |outputs|
      ensures outputs[i].amountSats > 0 && AddressLiteral(Str(outputs[i].address))
    {
      SortMember(merged, (o: Output) => o.address, outputs[i]);
      assert outputs[i] in merged;
    }
  }

  /** The order of the items is irrelevant: every permutation is accepted alike and gives the same list. */
  lemma OrderIsIrrelevant(a: seq<Json>, b: seq<Json>, maxOutputs: int, maxSend: int)
    requires multiset(a) == multiset(b)
    ensures Normalize(Arr(a), maxOutputs, maxSend).Ok? <==> Normalize(Arr(b), maxOutputs, maxSend).Ok?
    ensures Normalize(Arr(a), maxOutputs, maxSend).Ok? ==>
      Normalize(Arr(a), maxOutputs, maxSend) == Normalize(Arr(b), maxOutputs, maxSend)
  {
    AcceptsExactly(Arr(a), maxOutputs, maxSend);
    AcceptsExactly(Arr(b), maxOutputs, maxSend);
    SumByPermutes(a, b, Amount);
    SameItems(a, b);
    SameItems(b, a);
    assert |a| == |multiset(a)| == |multiset(b)| == |b|;
    if Normalize(Arr(a), maxOutputs, maxSend).Ok? {
      var x, y := Normalize(Arr(a), maxOutputs, maxSend).value, Normalize(Arr(b), maxOutputs, maxSend).value;
      forall address
        ensures AmountAt(x, address) == AmountAt(y, address)
      {
        ConservesValue(Arr(a), maxOutputs, maxSend, address);
        ConservesValue(Arr(b), maxOutputs, maxSend, address);
        SumByPermutes(a, b, AmountFor(address));
      }
      ConservesValue(Arr(a), maxOutputs, maxSend, "");
      ConservesValue(Arr(b), maxOutputs, maxSend, "");
      NormalFormIsUnique(x, y);
    }
  }

  lemma SameItems(a: seq<Json>, b: seq<Json>)
    requires multiset(a) == multiset(b)
    ensures AllValid(a) ==> AllValid(b)
  {
    forall i | 0 <= i < |b|
      ensures b[i] in a
    {
      assert b[i] in multiset(b);
    }
  }

  /** The normal form as a request again. */
  function AsItems(outputs: seq<Output>): seq<Json> {
    seq(|outputs|, i requires 0 <= i < |outputs| =>
      Obj([Field("address", Str(outputs[i].address)), Field("amountSats", Int(outputs[i].amountSats))]))
  }

  lemma ItemReadsBack(o: Output)
    requires AddressLiteral(Str(o.address)) && o.amountSats > 0
    ensures ReadItem(Obj([Field("address", Str(o.address)), Field("amountSats", Int(o.amountSats))])) == Ok(o)
  {
    var fields := [Field("address", Str(o.address)), Field("amountSats", Int(o.amountSats))];
    assert Get(fields, "amountSats") == Get(fields[1..], "amountSats");
  }

  lemma {:induction false} ItemsSumBack(outputs: seq<Output>, address: string)
    requires Literals(outputs) && AllPositive(outputs)
    ensures AllValid(AsItems(outputs))
    ensures SumBy(AsItems(outputs), Amount) == SumAmounts(outputs)
    ensures SumBy(AsItems(outputs), AmountFor(address)) == AmountAt(outputs, address)
  {
    if outputs != [] {
      ItemReadsBack(outputs[0]);
      ItemsSumBack(outputs[1..], address);
      assert AsItems(outputs)[1..] == AsItems(outputs[1..]);
      forall i | 0 <= i < |outputs|
        ensures ReadItem(AsItems(outputs)[i]).Ok?
      {
        ItemReadsBack(outputs[i]);
      }
    }
  }

  /** Normalizing again changes nothing. */
  lemma NormalizeIsIdempotent(raw: Json, maxOutputs: int, maxSend: int)
    requires Normalize(raw, maxOutputs, maxSend).Ok?
    ensures Normalize(Arr(AsItems(Normalize(raw, maxOutputs, maxSend).value)), maxOutputs, maxSend)
      == Normalize(raw, maxOutputs, maxSend)
  {
    var outputs := Normalize(raw, maxOutputs, maxSend).value;
    var again := Arr(AsItems(outputs));
    ConservesValue(raw, maxOutputs, maxSend, "");
    ItemsSumBack(outputs, "");
    AcceptsExactly(again, maxOutputs, maxSend);
    var outputs' := Normalize(again, maxOutputs, maxSend).value;
    ConservesValue(again, maxOutputs, maxSend, "");
    forall address
      ensures AmountAt(outputs', address) == AmountAt(outputs, address)
    {
      ConservesValue(again, maxOutputs, maxSend, address);
      ItemsSumBack(outputs, address);
    }
    NormalFormIsUnique(outputs', outputs);
  }

  // ------------------------------------------------------------ items, and the first problem

  function Zeros(k: nat): string {
    seq(k, i => '0')
  }

  /** Digits without a leading zero are the text of their number. */
  lemma {:induction false} NoLeadingZero(s: string)
    requires Digits(s) && s[0] != '0'
    ensures DecimalValue(s) > 0 && DecimalText(DecimalValue(s)) == s
  {
    var init, c := s[..|s| - 1], s[|s| - 1];
    var d := c as int - '0' as int;
    assert s == init + [c] && DigitOf(d) == c;
    ValueSnoc(init, c);
    if init == "" {
      assert DecimalValue("") == 0 && DecimalText(d) == [c];
    } else {
      NoLeadingZero(init);
      TextSnoc(DecimalValue(init), d);
    }
  }

  lemma TextSnoc(v: nat, d: nat)
    requires v > 0 && d < 10
    ensures DecimalText(v * 10 + d) == DecimalText(v) + [DigitOf(d)]
  {
    assert (v * 10 + d) / 10 == v && (v * 10 + d) % 10 == d;
  }

  /** Any digits are the text of their number after some zeros. */
  lemma {:induction false} DigitsAreTheirNumber(s: string) returns (k: nat)
    requires Digits(s)
    ensures s == Zeros(k) + DecimalText(DecimalValue(s))
  {
    if s[0] != '0' {
      NoLeadingZero(s);
      k := 0;
    } else if |s| == 1 {
      assert s == "0" == "" + ['0'];
      ValueSnoc("", '0');
      k := 0;
    } else {
      var rest := s[1..];
      var m := DigitsAreTheirNumber(rest);
      k := m + 1;
      assert s == ['0'] + rest && Zeros(k) == ['0'] + Zeros(m);
      ZerosAddNothing(1, rest);
      assert Zeros(1) == ['0'];
    }
  }

  /** The amount is written as this number: as a JSON integer, or as its digits with any leading zeros. */
  ghost predicate Writes(v: Json, n: nat) {
    v == Int(n) || (v.Str? && exists k: nat :: v.s == Zeros(k) + DecimalText(n))
  }

  lemma {:induction false} ZerosAddNothing(k: nat, text: string)
    requires Digits(text)
    ensures Digits(Zeros(k) + text) && DecimalValue(Zeros(k) + text) == DecimalValue(text)
    decreases |text|
  {
    var init, c := text[..|text| - 1], text[|text| - 1];
    assert Zeros(k) + text == Zeros(k) + init + [c] && text == init + [c];
    ValueSnoc(init, c);
    if init == "" {
      assert Zeros(k) + init == Zeros(k);
      ZerosAreZero(k);
      ValueSnoc(Zeros(k), c);
    } else {
      ZerosAddNothing(k, init);
      ValueSnoc(Zeros(k) + init, c);
    }
  }

  lemma {:induction false} ZerosAreZero(k: nat)
    ensures AllDigits(Zeros(k)) && DecimalValue(Zeros(k)) == 0
  {
    if k > 0 {
      ZerosAreZero(k - 1);
      assert Zeros(k) == Zeros(k - 1) + ['0'];
      ValueSnoc(Zeros(k - 1), '0');
    }
  }

  /**
   Which items are read, and as what: an object whose address is 14 to 120 ASCII letters and digits and
   whose amount writes a positive number, as exactly that address and that number.
   */
  lemma ItemsAreReadExactly(item: Json, o: Output)
    ensures ReadItem(item) == Ok(o) <==>
      && item.Obj? && o.amountSats > 0
      && Get(item.fields, "address") == Str(o.address) && 14 <= |o.address| <= 120
      && (forall i :: 0 <= i < |o.address| ==>
            'A' <= o.address[i] <= 'Z' || 'a' <= o.address[i] <= 'z' || '0' <= o.address[i] <= '9')
      && Writes(Get(item.fields, "amountSats"), o.amountSats)
  {
    hide DecimalValue, DecimalText, Zeros;
    if item.Obj? {
      AmountsAreReadExactly(Get(item.fields, "amountSats"), o.amountSats);
    }
  }

  lemma AmountsAreReadExactly(v: Json, n: int)
    ensures n > 0 ==> (ParseUnsigned(v) == Ok(n) <==> Writes(v, n))
  {
    hide Zeros, DecimalText, DecimalValue;
    if n > 0 && v.Str? {
      if Digits(v.s) && DecimalValue(v.s) == n {
        var k := DigitsAreTheirNumber(v.s);
      }
      forall k: nat | v.s == Zeros(k) + DecimalText(n)
        ensures Digits(v.s) && DecimalValue(v.s) == n
      {
        ZerosAddNothing(k, DecimalText(n));
        ValueOfText(n);
      }
    }
  }

  /** The problem of an item that is not read: what it is not, tested in this order. */
  function ItemProblem(item: Json): Problem {
    if !item.Obj? then InvalidOutput
    else if !AddressLiteral(Get(item.fields, "address")) then InvalidAddress
    else InvalidInteger
  }

  /** Up to here every item is read, and every address stays within the limit. */
  ghost predicate FineUpTo(items: seq<Json>, limit: int, i: nat) {
    i <= |items| && AllValid(items[..i]) && forall address :: SumBy(items[..i], AmountFor(address)) <= limit
  }

  lemma {:induction false} MergesUpTo(items: seq<Json>, limit: int, i: nat)
    requires i <= |items| && limit >= 0
    requires forall j :: 0 <= j <= i ==> FineUpTo(items, limit, j)
    ensures Merge(items[..i], limit).Ok?
  {
    if i > 0 {
      var init, item := items[..i - 1], items[i - 1];
      assert items[..i][..i - 1] == init && items[..i][i - 1] == item;
      MergesUpTo(items, limit, i - 1);
      assert FineUpTo(items, limit, i);
      assert ReadItem(items[..i][i - 1]).Ok?;
      var o := ReadItem(item).value;
      MergeAccumulates(init, limit, o.address);
      SumBySnoc(items[..i], AmountFor(o.address));
      AmountsForNotNegative(init, o.address);
      AddToAmounts(Merge(init, limit).value, o.address, o.amountSats, o.address);
    }
  }

  lemma {:induction false} AmountsForNotNegative(items: seq<Json>, address: string)
    ensures SumBy(items, AmountFor(address)) >= 0
  {
    if items != [] { AmountsForNotNegative(items[1..], address); }
  }

  /**
   Which problem is reported: the first item that is not read, or that takes its address beyond the
   limit, decides, whatever comes after it.
   */
  lemma FirstProblemDecides(items: seq<Json>, maxOutputs: int, maxSend: int, i: nat)
    requires i < |items| <= maxOutputs && maxSend >= 0
    requires forall j :: 0 <= j <= i ==> FineUpTo(items, maxSend, j)
    requires !FineUpTo(items, maxSend, i + 1)
    ensures Normalize(Arr(items), maxOutputs, maxSend) ==
      Err(if ReadItem(items[i]).Err? then ItemProblem(items[i]) else AmountExceedsLimit)
  {
    MergesUpTo(items, maxSend, i);
    assert items[..i + 1][..i] == items[..i] && items[..i + 1][i] == items[i];
    if ReadItem(items[i]).Ok? {
      OverTheLimit(items, maxSend, i);
    }
    FirstProblemStays(items, maxSend, i + 1);
  }

  lemma OverTheLimit(items: seq<Json>, limit: int, i: nat)
    requires i < |items| && FineUpTo(items, limit, i) && !FineUpTo(items, limit, i + 1)
    requires ReadItem(items[i]).Ok? && Merge(items[..i], limit).Ok? && limit >= 0
    ensures Merge(items[..i + 1], limit) == Err(AmountExceedsLimit)
  {
    var o, merged := ReadItem(items[i]).value, Merge(items[..i], limit).value;
    assert items[..i + 1][..i] == items[..i] && items[..i + 1][i] == items[i];
    assert AllValid(items[..i + 1]);
    var address :| SumBy(items[..i + 1], AmountFor(address)) > limit;
    SumBySnoc(items[..i + 1], AmountFor(address));
    assert i == 0 ==> SumBy(items[..i], AmountFor(address)) == 0;
    assert address == o.address;
    MergeAccumulates(items[..i], limit, o.address);
    AddToAmounts(merged, o.address, o.amountSats, o.address);
  }
}
