/**
 The values both services exchange: what `json.loads` builds. An object keeps
 its fields in insertion order, as a Python dict does.
 */
module Json {
  datatype Json =
    | Null
    | Bool(b: bool)
    | Int(n: int)
    | Str(s: string)
    | Arr(items: seq<Json>)
    | Obj(fields: seq<Field>)

  datatype Field = Field(key: string, value: Json)

  /** `dict.get`: the value stored under a key, or `Null` when there is none. */
  function Get(fields: seq<Field>, key: string): Json {
    if fields == [] then Null
    else if fields[0].key == key then fields[0].value
    else Get(fields[1..], key)
  }

  /** `key in dict` */
  predicate Has(fields: seq<Field>, key: string) {
    exists i :: 0 <= i < |fields| && fields[i].key == key
  }

  /** No key occurs twice, at this level. */
  ghost predicate DistinctKeys(fields: seq<Field>) {
    forall i, j :: 0 <= i < j < |fields| ==> fields[i].key != fields[j].key
  }

  /** What every Python dict satisfies: keys are distinct, at every depth. */
  ghost predicate WellFormed(v: Json) {
    match v
    case Arr(items) => forall i :: 0 <= i < |items| ==> WellFormed(items[i])
    case Obj(fields) =>
      DistinctKeys(fields) && forall i :: 0 <= i < |fields| ==> WellFormed(fields[i].value)
    case _ => true
  }

  /** With distinct keys `Get` finds the one field that carries the key. */
  lemma {:induction false} GetFinds(fields: seq<Field>, i: nat)
    requires DistinctKeys(fields) && i < |fields|
    ensures Get(fields, fields[i].key) == fields[i].value
  {
    if i > 0 {
      assert fields[0].key != fields[i].key;
      GetFinds(fields[1..], i - 1);
    }
  }
}
