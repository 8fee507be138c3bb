/**
 The canonical request text: what is hashed to recognise a repeated request. Keys are
 sorted at every depth, so equal requests have equal texts whatever order their keys came in.
 */
module RequestFingerprint {
  import opened Prelude
  import opened Json
  import opened JsonText
  import opened Sorting

  function KeyOf(field: Field): string {
    field.key
  }

  /** `sort_keys=True`: the same value with the keys sorted at every depth. */
  function SortKeys(v: Json): Json
    decreases v, 1
  {
    match v
    case Obj(fields) => Obj(Sort(SortKeysOfFields(fields), KeyOf))
    case Arr(items) => Arr(SortKeysOfItems(items))
    case _ => v
  }

  function SortKeysOfFields(fields: seq<Field>): (r: seq<Field>)
    ensures |r| == |fields|
    decreases fields, 0
  {
    if fields == [] then []
    else [Field(fields[0].key, SortKeys(fields[0].value))] + SortKeysOfFields(fields[1..])
  }

  function SortKeysOfItems(items: seq<Json>): (r: seq<Json>)
    ensures |r| == |items|
    decreases items, 0
  {
    if items == [] then [] else [SortKeys(items[0])] + SortKeysOfItems(items[1..])
  }

  /** The object that is serialised; a missing body counts as an empty object. */
  function Envelope(verb: string, path: string, body: Json): Json {
    Obj([
      Field("method", Str(Upper(verb))),
      Field("path", Str(path)),
      Field("body", BodyOf(body))
    ])
  }

  function BodyOf(body: Json): Json {
    if body.Null? then Obj([]) else body
  }

  /** `request_fingerprint` up to the hash. */
  function CanonicalText(verb: string, path: string, body: Json): string {
    Print(SortKeys(Envelope(verb, path, body)))
  }

  // ------------------------------------------------------------ the same request

  /** Equal as Python values: dicts compare without regard to the order of their keys. */
  ghost predicate Same(a: Json, b: Json)
    decreases a
  {
    match (a, b)
    case (Arr(x), Arr(y)) => |x| == |y| && forall i :: 0 <= i < |x| ==> Same(x[i], y[i])
    case (Obj(x), Obj(y)) =>
      && (forall j :: 0 <= j < |y| ==> Has(x, y[j].key))
      && (forall i :: 0 <= i < |x| ==> Has(y, x[i].key) && Same(x[i].value, Get(y, x[i].key)))
    case _ => a == b
  }

  // ------------------------------------------------------------ sorting keys decides sameness

  lemma {:induction false} SortedFieldAt(fields: seq<Field>, i: nat)
    requires i < |fields|
    ensures SortKeysOfFields(fields)[i] == Field(fields[i].key, SortKeys(fields[i].value))
  {
    if i > 0 { SortedFieldAt(fields[1..], i - 1); }
  }

  lemma {:induction false} SortedItemAt(items: seq<Json>, i: nat)
    requires i < |items|
    ensures SortKeysOfItems(items)[i] == SortKeys(items[i])
  {
    if i > 0 { SortedItemAt(items[1..], i - 1); }
  }

  lemma {:induction false} GetIsAField(fields: seq<Field>, key: string) returns (i: nat)
    requires Has(fields, key)
    ensures i < |fields| && fields[i] == Field(key, Get(fields, key))
  {
    var k :| 0 <= k < |fields| && fields[k].key == key;
    if fields[0].key == key {
      i := 0;
    } else {
      assert fields[1..][k - 1].key == key;
      i := GetIsAField(fields[1..], key);
      i := i + 1;
    }
  }

  lemma StaysDistinct(fields: seq<Field>)
    requires DistinctKeys(fields)
    ensures Distinct(SortKeysOfFields(fields), KeyOf)
  {
    forall i, j | 0 <= i < j < |fields|
      ensures KeyOf(SortKeysOfFields(fields)[i]) != KeyOf(SortKeysOfFields(fields)[j])
    {
      SortedFieldAt(fields, i);
      SortedFieldAt(fields, j);
    }
  }

  /** Every field of the sorted object is the sorted image of a field of the original. */
  lemma SortedFieldFrom(fields: seq<Field>, f: Field) returns (i: nat)
    requires f in SortKeysOfFields(fields)
    ensures i < |fields| && f == Field(fields[i].key, SortKeys(fields[i].value))
  {
    i :| 0 <= i < |SortKeysOfFields(fields)| && SortKeysOfFields(fields)[i] == f;
    SortedFieldAt(fields, i);
  }

  lemma SortedFieldIn(fields: seq<Field>, i: nat)
    requires i < |fields|
    ensures Field(fields[i].key, SortKeys(fields[i].value)) in SortKeysOfFields(fields)
  {
    SortedFieldAt(fields, i);
  }

  /** Fields that sort to the same members sort to the same sequence, and conversely. */
  lemma SameMembersSameOrder(x: seq<Field>, y: seq<Field>)
    requires DistinctKeys(x) && DistinctKeys(y)
    ensures SortKeys(Obj(x)) == SortKeys(Obj(y))
      <==> (forall f :: f in SortKeysOfFields(x) <==> f in SortKeysOfFields(y))
  {
    var a, b := SortKeysOfFields(x), SortKeysOfFields(y);
    StaysDistinct(x);
    StaysDistinct(y);
    SortIsStrict(a, KeyOf);
    SortIsStrict(b, KeyOf);
    forall f: Field
      ensures f in Sort(a, KeyOf) <==> f in a
      ensures f in Sort(b, KeyOf) <==> f in b
    {
      SortMember(a, KeyOf, f);
      SortMember(b, KeyOf, f);
    }
    if forall f :: f in a <==> f in b {
      StrictIsUnique(Sort(a, KeyOf), Sort(b, KeyOf), KeyOf);
    }
    if Sort(a, KeyOf) == Sort(b, KeyOf) {
      forall f: Field
        ensures f in a <==> f in b
      {
        SortMember(a, KeyOf, f);
        SortMember(b, KeyOf, f);
      }
    }
  }

  lemma {:induction false} SortDecidesSame(a: Json, b: Json)
    requires WellFormed(a) && WellFormed(b)
    ensures SortKeys(a) == SortKeys(b) <==> Same(a, b)
    decreases a
  {
    match (a, b)
    case (Arr(x), Arr(y)) => ItemsDecide(x, y);
    case (Obj(x), Obj(y)) =>
      SameMembersSameOrder(x, y);
      forall i, j | 0 <= i < |x| && 0 <= j < |y|
        ensures SortKeys(x[i].value) == SortKeys(y[j].value) <==> Same(x[i].value, y[j].value)
      {
        SortDecidesSame(x[i].value, y[j].value);
      }
      if Same(a, b) {
        SameFieldsSort(x, y);
      }
      if SortKeys(a) == SortKeys(b) {
        SortedFieldsAreSame(x, y);
      }
    case _ =>
  }

  lemma ItemsDecide(x: seq<Json>, y: seq<Json>)
    requires WellFormed(Arr(x)) && WellFormed(Arr(y))
    ensures SortKeys(Arr(x)) == SortKeys(Arr(y)) <==> Same(Arr(x), Arr(y))
    decreases x
  {
    if |x| == |y| {
      forall i | 0 <= i < |x|
        ensures SortKeysOfItems(x)[i] == SortKeysOfItems(y)[i] <==> Same(x[i], y[i])
      {
        SortedItemAt(x, i);
        SortedItemAt(y, i);
        SortDecidesSame(x[i], y[i]);
      }
    }
  }

  /** Agreement of the values pairwise, between two objects. */
  ghost predicate ValuesDecided(x: seq<Field>, y: seq<Field>) {
    forall i, j :: 0 <= i < |x| && 0 <= j < |y| ==>
      (SortKeys(x[i].value) == SortKeys(y[j].value) <==> Same(x[i].value, y[j].value))
  }

  lemma SameFieldsSort(x: seq<Field>, y: seq<Field>)
    requires DistinctKeys(x) && DistinctKeys(y) && ValuesDecided(x, y) && Same(Obj(x), Obj(y))
    ensures forall f :: f in SortKeysOfFields(x) <==> f in SortKeysOfFields(y)
  {
    forall f | f in SortKeysOfFields(x)
      ensures f in SortKeysOfFields(y)
    {
      var i := SortedFieldFrom(x, f);
      var j := GetIsAField(y, x[i].key);
      assert Same(x[i].value, y[j].value);
      SortedFieldIn(y, j);
    }
    forall f | f in SortKeysOfFields(y)
      ensures f in SortKeysOfFields(x)
    {
      var j := SortedFieldFrom(y, f);
      var i := GetIsAField(x, y[j].key);
      GetFinds(y, j);
      assert Same(x[i].value, y[j].value);
      SortedFieldIn(x, i);
    }
  }

  lemma SortedFieldsAreSame(x: seq<Field>, y: seq<Field>)
    requires DistinctKeys(x) && DistinctKeys(y) && ValuesDecided(x, y)
    requires forall f :: f in SortKeysOfFields(x) <==> f in SortKeysOfFields(y)
    ensures Same(Obj(x), Obj(y))
  {
    forall i | 0 <= i < |x|
      ensures Has(y, x[i].key) && Same(x[i].value, Get(y, x[i].key))
    {
      SortedFieldIn(x, i);
      var j := SortedFieldFrom(y, Field(x[i].key, SortKeys(x[i].value)));
      GetFinds(y, j);
    }
    forall j | 0 <= j < |y|
      ensures Has(x, y[j].key)
    {
      SortedFieldIn(y, j);
      var i := SortedFieldFrom(x, Field(y[j].key, SortKeys(y[j].value)));
    }
  }

  // ------------------------------------------------------------ theorems

  lemma EnvelopeIsWellFormed(verb: string, path: string, body: Json)
    requires WellFormed(body)
    ensures WellFormed(Envelope(verb, path, body))
  {
  }

  lemma EnvelopesAgree(verb: string, path: string, body: Json, verb': string, path': string, body': Json)
    ensures Same(Envelope(verb, path, body), Envelope(verb', path', body'))
      <==> Upper(verb) == Upper(verb') && path == path' && Same(BodyOf(body), BodyOf(body'))
  {
    var x, y := Envelope(verb, path, body).fields, Envelope(verb', path', body').fields;
    assert x[0].key == y[0].key == "method" && x[1].key == y[1].key == "path" && x[2].key == y[2].key == "body";
    assert DistinctKeys(y);
    GetFinds(y, 0);
    GetFinds(y, 1);
    GetFinds(y, 2);
  }

  /**
   Two requests have the same canonical text exactly when they are the same request: the
   same method up to case, the same path, and equal bodies up to key order.
   */
  lemma TextIdentifiesTheRequest(verb: string, path: string, body: Json, verb': string, path': string, body': Json)
    requires WellFormed(body) && WellFormed(body')
    ensures CanonicalText(verb, path, body) == CanonicalText(verb', path', body')
      <==> Upper(verb) == Upper(verb') && path == path' && Same(BodyOf(body), BodyOf(body'))
  {
    var a, b := Envelope(verb, path, body), Envelope(verb', path', body');
    EnvelopeIsWellFormed(verb, path, body);
    EnvelopeIsWellFormed(verb', path', body');
    SortDecidesSame(a, b);
    EnvelopesAgree(verb, path, body, verb', path', body');
    if Print(SortKeys(a)) == Print(SortKeys(b)) {
      PrintIsInjective(SortKeys(a), SortKeys(b));
    }
  }

  /** Reading the text back gives the method in upper case, the path and the body with sorted keys. */
  lemma TextReadsBack(verb: string, path: string, body: Json)
    ensures ReadValue(CanonicalText(verb, path, body)) == Some((Obj([
        Field("body", SortKeys(BodyOf(body))),
        Field("method", Str(Upper(verb))),
        Field("path", Str(path))
      ]), ""))
  {
    var v := SortKeys(Envelope(verb, path, body));
    EnvelopeSorts(verb, path, body);
    ValueReadsBack(v, "");
    assert Print(v) + "" == Print(v);
  }

  lemma EnvelopeSorts(verb: string, path: string, body: Json)
    ensures SortKeys(Envelope(verb, path, body)) == Obj([
        Field("body", SortKeys(BodyOf(body))),
        Field("method", Str(Upper(verb))),
        Field("path", Str(path))
      ])
  {
    var m, p, b := Field("method", Str(Upper(verb))), Field("path", Str(path)), Field("body", SortKeys(BodyOf(body)));
    var fields := Envelope(verb, path, body).fields;
    assert SortKeysOfFields(fields) == [m, p, b] by {
      SortedFieldAt(fields, 0);
      SortedFieldAt(fields, 1);
      SortedFieldAt(fields, 2);
    }
    assert TextLess("body", "path") && TextLess("body", "method") && TextLess("method", "path");
    TextLessTrichotomy("body", "method");
    assert Sort([b], KeyOf) == [b];
    assert [p, b] == [p] + [b];
    assert Sort([p, b], KeyOf) == Insert([b], p, KeyOf);
    TextLessTrichotomy("body", "path");
    assert Insert([b], p, KeyOf) == [b, p];
    assert [m, p, b][1..] == [p, b];
    assert [b, p][1..] == [p];
    assert Insert([p], m, KeyOf) == [m, p];
    assert Insert([b, p], m, KeyOf) == [b] + [m, p];
  }

  /** The order in which the keys of the body arrived does not matter. */
  lemma KeyOrderIsIrrelevant(verb: string, path: string, x: seq<Field>, y: seq<Field>)
    requires WellFormed(Obj(x)) && WellFormed(Obj(y)) && multiset(x) == multiset(y)
    ensures CanonicalText(verb, path, Obj(x)) == CanonicalText(verb, path, Obj(y))
  {
    forall f
      ensures f in x <==> f in y
    {
      assert f in multiset(x) <==> f in multiset(y);
    }
    forall i | 0 <= i < |x|
      ensures Has(y, x[i].key) && Same(x[i].value, Get(y, x[i].key))
    {
      assert x[i] in y;
      var j :| 0 <= j < |y| && y[j] == x[i];
      GetFinds(y, j);
      SortDecidesSame(x[i].value, x[i].value);
    }
    forall j | 0 <= j < |y|
      ensures Has(x, y[j].key)
    {
      assert y[j] in x;
    }
    TextIdentifiesTheRequest(verb, path, Obj(x), verb, path, Obj(y));
  }
}
