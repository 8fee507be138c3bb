/** The recursive response stripper that decides what a Lightning replay shows. */
module StripKeys {
  import opened Prelude
  import opened Json

  predicate Forbidden(key: string, keys: set<string>) {
    key in keys || Lower(key) in keys
  }

  function Strip(v: Json, keys: set<string>): Json
    decreases v, 1
  {
    match v
    case Obj(fields) => Obj(StripFields(fields, keys))
    case Arr(items) => Arr(StripItems(items, keys))
    case _ => v
  }

  function StripFields(fields: seq<Field>, keys: set<string>): seq<Field>
    decreases fields, 0
  {
    if fields == [] then []
    else
      var rest := StripFields(fields[1..], keys);
      if Forbidden(fields[0].key, keys) then rest
      else [Field(fields[0].key, Strip(fields[0].value, keys))] + rest
  }

  function StripItems(items: seq<Json>, keys: set<string>): seq<Json>
    decreases items, 0
  {
    if items == [] then [] else [Strip(items[0], keys)] + StripItems(items[1..], keys)
  }

  // ------------------------------------------------------------ where a value sits

  datatype Hop = Key(key: string) | Index(index: nat)

  /** The value reached by following keys and list positions, if there is one. */
  function At(v: Json, path: seq<Hop>): Option<Json>
    decreases path
  {
    if path == [] then Some(v)
    else
      match (path[0], v)
      case (Key(k), Obj(fields)) => if Has(fields, k) then At(Get(fields, k), path[1..]) else None
      case (Index(i), Arr(items)) => if i < |items| then At(items[i], path[1..]) else None
      case _ => None
  }

  predicate Crosses(path: seq<Hop>, keys: set<string>) {
    exists i :: 0 <= i < |path| && path[i].Key? && Forbidden(path[i].key, keys)
  }

  lemma {:induction false} StrippedField(fields: seq<Field>, keys: set<string>, k: string)
    ensures Has(StripFields(fields, keys), k) <==> Has(fields, k) && !Forbidden(k, keys)
    ensures Has(StripFields(fields, keys), k) ==> Get(StripFields(fields, keys), k) == Strip(Get(fields, k), keys)
  {
    if fields != [] {
      var rest := StripFields(fields[1..], keys);
      var all := StripFields(fields, keys);
      StrippedField(fields[1..], keys, k);
      assert Has(fields, k) <==> fields[0].key == k || Has(fields[1..], k) by {
        if Has(fields[1..], k) {
          var i :| 0 <= i < |fields[1..]| && fields[1..][i].key == k;
          assert fields[i + 1].key == k;
        }
      }
      if !Forbidden(fields[0].key, keys) {
        assert all[1..] == rest;
        assert Has(all, k) <==> all[0].key == k || Has(rest, k) by {
          if Has(rest, k) {
            var i :| 0 <= i < |rest| && rest[i].key == k;
            assert all[i + 1].key == k;
          }
        }
      }
    }
  }

  lemma {:induction false} StrippedItem(items: seq<Json>, keys: set<string>, i: nat)
    ensures |StripItems(items, keys)| == |items|
    ensures i < |items| ==> StripItems(items, keys)[i] == Strip(items[i], keys)
  {
    if items != [] {
      StrippedItem(items[1..], keys, if i > 0 then i - 1 else 0);
    }
  }

  /**
   Exactly the paths through a forbidden key disappear; every other value stays where it
   was, itself stripped. In particular no forbidden key is left at any depth.
   */
  lemma {:induction false} StripKeepsTheRestInPlace(v: Json, keys: set<string>, path: seq<Hop>)
    ensures At(Strip(v, keys), path) ==
      if Crosses(path, keys) then None
      else match At(v, path) case Some(found) => Some(Strip(found, keys)) case None => None
    decreases path
  {
    if path != [] {
      assert Crosses(path, keys)
        <==> (path[0].Key? && Forbidden(path[0].key, keys)) || Crosses(path[1..], keys) by {
        if Crosses(path[1..], keys) {
          var i :| 0 <= i < |path[1..]| && path[1..][i].Key? && Forbidden(path[1..][i].key, keys);
          assert path[i + 1] == path[1..][i];
        }
      }
      match (path[0], v)
      case (Key(k), Obj(fields)) =>
        StrippedField(fields, keys, k);
        StripKeepsTheRestInPlace(Get(fields, k), keys, path[1..]);
      case (Index(i), Arr(items)) =>
        StrippedItem(items, keys, i);
        if i < |items| { StripKeepsTheRestInPlace(items[i], keys, path[1..]); }
      case _ =>
    }
  }

  // ------------------------------------------------------------ algebra

  lemma {:induction false} StripTwice(v: Json, first: set<string>, second: set<string>)
    ensures Strip(Strip(v, first), second) == Strip(v, first + second)
    decreases v, 1
  {
    match v
    case Obj(fields) => StripFieldsTwice(fields, first, second);
    case Arr(items) => StripItemsTwice(items, first, second);
    case _ =>
  }

  lemma {:induction false} StripFieldsTwice(fields: seq<Field>, first: set<string>, second: set<string>)
    ensures StripFields(StripFields(fields, first), second) == StripFields(fields, first + second)
    decreases fields, 0
  {
    if fields != [] {
      StripFieldsTwice(fields[1..], first, second);
      StripTwice(fields[0].value, first, second);
      var once := StripFields(fields, first);
      if !Forbidden(fields[0].key, first) {
        assert once[1..] == StripFields(fields[1..], first);
      }
    }
  }

  lemma {:induction false} StripItemsTwice(items: seq<Json>, first: set<string>, second: set<string>)
    ensures StripItems(StripItems(items, first), second) == StripItems(items, first + second)
    decreases items, 0
  {
    if items != [] {
      StripTwice(items[0], first, second);
      StripItemsTwice(items[1..], first, second);
      assert StripItems(items, first)[1..] == StripItems(items[1..], first);
    }
  }

  /** Stripping again changes nothing, and the order of two strippings does not matter. */
  lemma StripIsIdempotentAndCommutes(v: Json, first: set<string>, second: set<string>)
    ensures Strip(Strip(v, first), first) == Strip(v, first)
    ensures Strip(Strip(v, first), second) == Strip(Strip(v, second), first)
  {
    StripTwice(v, first, first);
    StripTwice(v, first, second);
    StripTwice(v, second, first);
    assert first + first == first && first + second == second + first;
  }
}
