/**
 The abstract object both stores implement: per key, a register that hands out
 one owner at a time, lets the owner commit one artefact, and keeps one result.
 `used` holds every token ever issued, so a fresh token is one outside it.
 */
module FencedRegister {
  import opened Prelude

  datatype Cell<+R, +A, +D> =
    | Absent
    | Owned(request: R, token: string, artefact: Option<A>)
    | Done(request: R, result: D)

  datatype Register<R, A, D> = Register(cells: map<string, Cell<R, A, D>>, used: set<string>)

  datatype Act<+R, +A, +D> =
    | Idle
    | Begin(key: string, request: R, token: string)
    | Renew(key: string, request: R, token: string)
    | TakeOver(key: string, token: string)
    | Commit(key: string, token: string, artefact: A)
    | Settle(key: string, token: string, result: D)
    | Expire(keys: set<string>)

  function At<R, A, D>(r: Register<R, A, D>, key: string): Cell<R, A, D> {
    if key in r.cells then r.cells[key] else Absent
  }

  /** Every other key keeps its cell. */
  ghost predicate OnlyAt<R(!new), A(!new), D(!new)>(r: Register<R, A, D>, r': Register<R, A, D>, keys: set<string>) {
    forall k :: k !in keys ==> At(r', k) == At(r, k)
  }

  ghost predicate Next<R(!new), A(!new), D(!new)>(r: Register<R, A, D>, r': Register<R, A, D>, act: Act<R, A, D>) {
    match act
    case Idle => r.used <= r'.used && OnlyAt(r, r', {})  // an identifier may be drawn and wasted
    case Begin(k, request, t) =>
      && t !in r.used && r'.used == r.used + {t} && OnlyAt(r, r', {k})
      && At(r, k).Absent? && At(r', k) == Owned(request, t, None)
    case Renew(k, request, t) =>  // the one act that discards a cell in use
      && t !in r.used && r'.used == r.used + {t} && OnlyAt(r, r', {k})
      && !At(r, k).Absent? && At(r', k) == Owned(request, t, None)
    case TakeOver(k, t) =>
      && t !in r.used && r'.used == r.used + {t} && OnlyAt(r, r', {k})
      && At(r, k).Owned? && At(r', k) == At(r, k).(token := t)
    case Commit(k, t, a) =>
      && r'.used == r.used && OnlyAt(r, r', {k})
      && At(r, k).Owned? && At(r, k).token == t && At(r, k).artefact == None
      && At(r', k) == At(r, k).(artefact := Some(a))
    case Settle(k, t, d) =>
      && r'.used == r.used && OnlyAt(r, r', {k})
      && At(r, k).Owned? && At(r, k).token == t && At(r', k) == Done(At(r, k).request, d)
    case Expire(ks) =>
      r'.used == r.used && OnlyAt(r, r', ks) && forall k :: k in ks ==> At(r', k) == Absent
  }

  ghost predicate IsRun<R(!new), A(!new), D(!new)>(run: seq<Register<R, A, D>>, acts: seq<Act<R, A, D>>) {
    |run| == |acts| + 1 && forall i :: 0 <= i < |acts| ==> Next(run[i], run[i + 1], acts[i])
  }

  /** The token owns nothing now, although it was issued. */
  ghost predicate Spent<R(!new), A(!new), D(!new)>(r: Register<R, A, D>, token: string) {
    token in r.used && forall k :: At(r, k).Owned? ==> At(r, k).token != token
  }

  /** Does this act discard what the key's cell holds? */
  ghost predicate EndsLife<R, A, D>(act: Act<R, A, D>, key: string) {
    (act.Renew? && act.key == key) || (act.Expire? && key in act.keys)
  }

  /** Fencing: a token that has lost its key never owns any key again. */
  lemma {:induction false} SpentForever<R(!new), A(!new), D(!new)>(
      run: seq<Register<R, A, D>>, acts: seq<Act<R, A, D>>, i: nat, j: nat, token: string)
    requires IsRun(run, acts) && i <= j < |run|
    requires Spent(run[i], token)
    ensures Spent(run[j], token)
    decreases j - i
  {
    if i < j {
      assert Next(run[i], run[i + 1], acts[i]);
      assert Spent(run[i + 1], token);
      SpentForever(run, acts, i + 1, j, token);
    }
  }

  /**
   One life of a key, from its first claim on: the request never changes, a committed
   artefact is never replaced, and a result is never replaced.
   */
  ghost predicate Keeps<R, A, D>(c: Cell<R, A, D>, c': Cell<R, A, D>) {
    match c
    case Absent => true
    case Owned(request, _, artefact) =>
      !c'.Absent? && c'.request == request && (c'.Owned? && artefact.Some? ==> c'.artefact == artefact)
    case Done(_, _) => c' == c
  }

  lemma {:induction false} LifeKeeps<R(!new), A(!new), D(!new)>(
      run: seq<Register<R, A, D>>, acts: seq<Act<R, A, D>>, i: nat, j: nat, key: string)
    requires IsRun(run, acts) && i <= j < |run|
    requires forall m :: i <= m < j ==> !EndsLife(acts[m], key)
    ensures Keeps(At(run[i], key), At(run[j], key))
    decreases j - i
  {
    if i < j {
      assert Next(run[i], run[i + 1], acts[i]);
      assert !EndsLife(acts[i], key);
      assert Keeps(At(run[i], key), At(run[i + 1], key));
      LifeKeeps(run, acts, i + 1, j, key);
    }
  }

  /** At most once: two commits on one key are separated by the end of a life. */
  lemma {:induction false} CommitOncePerLife<R(!new), A(!new), D(!new)>(
      run: seq<Register<R, A, D>>, acts: seq<Act<R, A, D>>, i: nat, j: nat)
    requires IsRun(run, acts) && i < j < |acts|
    requires acts[i].Commit? && acts[j].Commit? && acts[i].key == acts[j].key
    ensures exists m :: i < m < j && EndsLife(acts[m], acts[i].key)
  {
    var key := acts[i].key;
    if forall m :: i < m < j ==> !EndsLife(acts[m], key) {
      assert Next(run[i], run[i + 1], acts[i]) && Next(run[j], run[j + 1], acts[j]);
      LifeKeeps(run, acts, i + 1, j, key);
    }
  }
}
