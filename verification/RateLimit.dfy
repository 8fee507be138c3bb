/**
 The two in-memory request limiters: per key a queue of the granted calls, trimmed from
 the front and extended at the back. Times are the readings of a monotonic clock.
 */
module RateLimit {
  import opened Prelude

  /** Drop the grants older than `window` at time `now` from the front of the queue. */
  function Trim(queue: seq<real>, now: real, window: real): seq<real> {
    if queue != [] && now - queue[0] > window then Trim(queue[1..], now, window) else queue
  }

  /** The queue and the answer after one call. */
  function Admit(queue: seq<real>, limit: int, window: real, now: real): (seq<real>, bool) {
    var live := Trim(queue, now, window);
    if |live| >= limit then (live, false) else (live + [now], true)
  }

  // ------------------------------------------------------------ the naive limiter

  /** How many of the times lie in the closed window that ends at `now`. */
  function InWindow(times: seq<real>, now: real, window: real): nat {
    if times == [] then 0 else InWindow(times[1..], now, window) + (if now - times[0] <= window then 1 else 0)
  }

  /** Remember every grant ever made; grant when fewer than `limit` of them lie in the window. */
  function NaiveGrants(calls: seq<real>, limit: int, window: real): seq<real> {
    if calls == [] then []
    else
      var earlier := NaiveGrants(calls[..|calls| - 1], limit, window);
      var now := calls[|calls| - 1];
      if InWindow(earlier, now, window) < limit then earlier + [now] else earlier
  }

  function NaiveAnswer(calls: seq<real>, limit: int, window: real): bool
    requires calls != []
  {
    InWindow(NaiveGrants(calls[..|calls| - 1], limit, window), calls[|calls| - 1], window) < limit
  }

  /** The queue of the limiter after a sequence of calls on one key. */
  function QueueAfter(calls: seq<real>, limit: int, window: real): seq<real> {
    if calls == [] then []
    else Admit(QueueAfter(calls[..|calls| - 1], limit, window), limit, window, calls[|calls| - 1]).0
  }

  function AnswerTo(calls: seq<real>, limit: int, window: real): bool
    requires calls != []
  {
    Admit(QueueAfter(calls[..|calls| - 1], limit, window), limit, window, calls[|calls| - 1]).1
  }

  ghost predicate Ascending(times: seq<real>) {
    forall i, j :: 0 <= i < j < |times| ==> times[i] <= times[j]
  }

  // ------------------------------------------------------------ agreement

  lemma {:induction false} TrimIsSuffix(queue: seq<real>, now: real, window: real)
    requires Ascending(queue)
    ensures var live := Trim(queue, now, window);
      && |live| <= |queue| && live == queue[|queue| - |live|..]
      && (forall i :: 0 <= i < |queue| ==> (now - queue[i] <= window <==> |queue| - |live| <= i))
  {
    if queue != [] && now - queue[0] > window {
      TrimIsSuffix(queue[1..], now, window);
      forall i | 0 <= i < |queue|
        ensures now - queue[i] <= window <==> |queue| - |Trim(queue, now, window)| <= i
      {
        if i > 0 { assert queue[i] == queue[1..][i - 1]; }
      }
    }
  }

  lemma {:induction false} WindowOfConcat(a: seq<real>, b: seq<real>, now: real, window: real)
    ensures InWindow(a + b, now, window) == InWindow(a, now, window) + InWindow(b, now, window)
  {
    if a == [] {
      assert a + b == b;
    } else {
      assert (a + b)[1..] == a[1..] + b;
      WindowOfConcat(a[1..], b, now, window);
    }
  }

  lemma {:induction false} WindowAllOrNone(times: seq<real>, now: real, window: real)
    ensures (forall i :: 0 <= i < |times| ==> now - times[i] <= window) ==> InWindow(times, now, window) == |times|
    ensures (forall i :: 0 <= i < |times| ==> now - times[i] > window) ==> InWindow(times, now, window) == 0
  {
    if times != [] {
      WindowAllOrNone(times[1..], now, window);
    }
  }

  /** The live part of an ascending list of grants counts the grants in the window. */
  lemma TrimCounts(grants: seq<real>, now: real, window: real)
    requires Ascending(grants)
    ensures |Trim(grants, now, window)| == InWindow(grants, now, window)
  {
    var live := Trim(grants, now, window);
    TrimIsSuffix(grants, now, window);
    var old_ := grants[..|grants| - |live|];
    assert grants == old_ + live;
    WindowOfConcat(old_, live, now, window);
    WindowAllOrNone(old_, now, window);
    WindowAllOrNone(live, now, window);
  }

  /** Trimming at two instants in turn is trimming at the later one. */
  lemma {:induction false} TrimAgain(queue: seq<real>, earlier: real, now: real, window: real)
    requires earlier <= now
    ensures Trim(Trim(queue, earlier, window), now, window) == Trim(queue, now, window)
  {
    if queue != [] && earlier - queue[0] > window {
      TrimAgain(queue[1..], earlier, now, window);
    }
  }

  lemma {:induction false} GrantsAscend(calls: seq<real>, limit: int, window: real)
    requires Ascending(calls)
    ensures var grants := NaiveGrants(calls, limit, window);
      && Ascending(grants) && (calls == [] ==> grants == [])
      && (calls != [] ==> forall i :: 0 <= i < |grants| ==> grants[i] <= calls[|calls| - 1])
  {
    if calls != [] {
      GrantsAscend(calls[..|calls| - 1], limit, window);
    }
  }

  lemma {:induction false} TrimAppend(queue: seq<real>, now: real, window: real)
    requires window >= 0.0
    ensures Trim(queue + [now], now, window) == Trim(queue, now, window) + [now]
  {
    if queue != [] && now - queue[0] > window {
      assert (queue + [now])[1..] == queue[1..] + [now];
      TrimAppend(queue[1..], now, window);
    }
  }

  /**
   On every non-decreasing sequence of calls the queue holds exactly the grants of the
   last window, in order: forgetting older grants loses nothing.
   */
  lemma {:induction false} QueueIsTheWindow(calls: seq<real>, limit: int, window: real)
    requires Ascending(calls) && window >= 0.0
    ensures calls == [] ==> QueueAfter(calls, limit, window) == []
    ensures calls != [] ==>
      QueueAfter(calls, limit, window) == Trim(NaiveGrants(calls, limit, window), calls[|calls| - 1], window)
  {
    if calls != [] {
      var before, now := calls[..|calls| - 1], calls[|calls| - 1];
      var grants := NaiveGrants(before, limit, window);
      QueueIsTheWindow(before, limit, window);
      GrantsAscend(before, limit, window);
      if before != [] {
        TrimAgain(grants, before[|before| - 1], now, window);
      }
      assert Trim(QueueAfter(before, limit, window), now, window) == Trim(grants, now, window);
      TrimCounts(grants, now, window);
      TrimAppend(grants, now, window);
    }
  }

  /** The limiter answers as the full history would: it refuses exactly when the window holds `limit` grants. */
  lemma LimiterIsExact(calls: seq<real>, limit: int, window: real)
    requires Ascending(calls) && window >= 0.0 && calls != []
    ensures AnswerTo(calls, limit, window) == NaiveAnswer(calls, limit, window)
  {
    var before, now := calls[..|calls| - 1], calls[|calls| - 1];
    var grants := NaiveGrants(before, limit, window);
    QueueIsTheWindow(before, limit, window);
    GrantsAscend(before, limit, window);
    if before != [] {
      TrimAgain(grants, before[|before| - 1], now, window);
    }
    TrimCounts(grants, now, window);
  }

  // ------------------------------------------------------------ every window

  /** How many of the times lie in the closed interval. */
  function Between(times: seq<real>, from: real, to: real): nat {
    if times == [] then 0 else Between(times[1..], from, to) + (if from <= times[0] <= to then 1 else 0)
  }

  lemma {:induction false} BetweenSnoc(times: seq<real>, t: real, from: real, to: real)
    ensures Between(times + [t], from, to) == Between(times, from, to) + (if from <= t <= to then 1 else 0)
  {
    if times == [] {
      assert times + [t] == [t];
    } else {
      assert (times + [t])[1..] == times[1..] + [t];
      BetweenSnoc(times[1..], t, from, to);
    }
  }

  lemma {:induction false} BetweenIsInWindow(times: seq<real>, from: real, to: real, now: real, window: real)
    requires from <= now <= to && to - from <= window
    ensures Between(times, from, to) <= InWindow(times, now, window) + Between(times, now, to)
    ensures (forall i :: 0 <= i < |times| ==> times[i] <= now) ==>
      Between(times, from, to) <= InWindow(times, now, window)
  {
    if times != [] {
      BetweenIsInWindow(times[1..], from, to, now, window);
    }
  }

  lemma {:induction false} NoWindowOverflowsNaively(calls: seq<real>, limit: int, window: real, from: real)
    requires Ascending(calls) && window >= 0.0 && limit >= 0
    ensures Between(NaiveGrants(calls, limit, window), from, from + window) <= limit
  {
    if calls != [] {
      var before, now := calls[..|calls| - 1], calls[|calls| - 1];
      var grants := NaiveGrants(before, limit, window);
      NoWindowOverflowsNaively(before, limit, window, from);
      if InWindow(grants, now, window) < limit {
        BetweenSnoc(grants, now, from, from + window);
        if from <= now <= from + window {
          GrantsAscend(before, limit, window);
          BetweenIsInWindow(grants, from, from + window, now, window);
        }
      }
    }
  }

  /** The calls the limiter itself has granted. */
  function Granted(calls: seq<real>, limit: int, window: real): seq<real> {
    if calls == [] then []
    else
      var earlier := Granted(calls[..|calls| - 1], limit, window);
      if AnswerTo(calls, limit, window) then earlier + [calls[|calls| - 1]] else earlier
  }

  /** The limiter grants the calls the full-history count would grant, and no others. */
  lemma {:induction false} GrantsTheSame(calls: seq<real>, limit: int, window: real)
    requires Ascending(calls) && window >= 0.0
    ensures Granted(calls, limit, window) == NaiveGrants(calls, limit, window)
  {
    if calls != [] {
      GrantsTheSame(calls[..|calls| - 1], limit, window);
      LimiterIsExact(calls, limit, window);
    }
  }

  /** Of the calls the limiter granted, at most `limit` lie in any closed window, wherever it starts. */
  lemma NoWindowOverflows(calls: seq<real>, limit: int, window: real, from: real)
    requires Ascending(calls) && window >= 0.0 && limit >= 0
    ensures Between(Granted(calls, limit, window), from, from + window) <= limit
  {
    GrantsTheSame(calls, limit, window);
    NoWindowOverflowsNaively(calls, limit, window, from);
  }

  /** One more call: the queue and the answer follow from the queue before. */
  lemma OneMoreCall(before: seq<real>, now: real, limit: int, window: real)
    ensures (QueueAfter(before + [now], limit, window), AnswerTo(before + [now], limit, window))
      == Admit(QueueAfter(before, limit, window), limit, window, now)
  {
    assert (before + [now])[..|before|] == before;
  }

  function Lookup(times: map<string, seq<real>>, key: string): seq<real> {
    if key in times then times[key] else []
  }

  /** Every key's queue is the one its calls lead to. */
  ghost predicate Tracks(queues: map<string, seq<real>>, calls: map<string, seq<real>>, limit: int, window: real) {
    forall key :: Lookup(queues, key) == QueueAfter(Lookup(calls, key), limit, window)
  }

  lemma TracksOneMore(queues: map<string, seq<real>>, calls: map<string, seq<real>>, limit: int, window: real,
                      key: string, now: real)
    requires Tracks(queues, calls, limit, window)
    ensures var (queue, granted) := Admit(Lookup(queues, key), limit, window, now);
      var after := Lookup(calls, key) + [now];
      && Tracks(queues[key := queue], calls[key := after], limit, window)
      && granted == AnswerTo(after, limit, window)
      && (Ascending(after) && window >= 0.0 ==> granted == NaiveAnswer(after, limit, window))
  {
    var after := Lookup(calls, key) + [now];
    var queues', calls' := queues[key := Admit(Lookup(queues, key), limit, window, now).0], calls[key := after];
    OneMoreCall(Lookup(calls, key), now, limit, window);
    if Ascending(after) && window >= 0.0 {
      LimiterIsExact(after, limit, window);
    }
    forall k
      ensures Lookup(queues', k) == QueueAfter(Lookup(calls', k), limit, window)
    {
      assert Lookup(queues, k) == QueueAfter(Lookup(calls, k), limit, window);
    }
  }

  // ------------------------------------------------------------ the two classes

  /** `calls` remembers, for the proof only, every call made under each key. */
  class FixedWindowLimiter {
    const limit: int
    const window: real
    var events: map<string, seq<real>>
    ghost var calls: map<string, seq<real>>

    ghost predicate Valid()
      reads this
    {
      Tracks(events, calls, limit, window)
    }

    constructor (limit: int, window: real)
      ensures Valid() && this.limit == limit && this.window == window && calls == map[]
    {
      this.limit, this.window := limit, window;
      events, calls := map[], map[];
    }

    /** On a clock that never steps back, the answer is the one a limiter with a perfect memory would give. */
    method Allow(key: string, now: real) returns (granted: bool)
      requires Valid()
      modifies this
      ensures Valid() && calls == old(calls)[key := Lookup(old(calls), key) + [now]]
      ensures events == old(events)[key := Admit(Lookup(old(events), key), limit, window, now).0]
      ensures Ascending(calls[key]) && window >= 0.0 ==> granted == NaiveAnswer(calls[key], limit, window)
      ensures granted == AnswerTo(calls[key], limit, window)
    {
      TracksOneMore(events, calls, limit, window, key, now);
      var queue := Lookup(events, key);
      while queue != [] && now - queue[0] > window
        invariant Trim(queue, now, window) == Trim(Lookup(events, key), now, window)
        decreases |queue|
      {
        queue := queue[1..];
      }
      granted := |queue| < limit;
      if granted {
        queue := queue + [now];
      }
      events := events[key := queue];
      calls := calls[key := Lookup(calls, key) + [now]];
    }
  }

  datatype Verdict = Passed | RateLimited

  class RateLimiter {
    const limit: int
    var hits: map<string, seq<real>>
    ghost var calls: map<string, seq<real>>

    ghost predicate Valid()
      reads this
    {
      Tracks(hits, calls, limit, 60.0)
    }

    constructor (limitPerMinute: int)
      ensures Valid() && limit == Max(1, limitPerMinute) && calls == map[]
    {
      limit := Max(1, limitPerMinute);
      hits, calls := map[], map[];
    }

    /** The same answer as the other limiter gives with this limit and a window of a minute. */
    method Check(key: string, now: real) returns (verdict: Verdict)
      requires Valid()
      modifies this
      ensures Valid() && calls == old(calls)[key := Lookup(old(calls), key) + [now]]
      ensures hits == old(hits)[key := Admit(Lookup(old(hits), key), limit, 60.0, now).0]
      ensures Ascending(calls[key]) ==> (verdict == Passed <==> NaiveAnswer(calls[key], limit, 60.0))
      ensures verdict == Passed <==> AnswerTo(calls[key], limit, 60.0)
    {
      TracksOneMore(hits, calls, limit, 60.0, key, now);
      var bucket := Lookup(hits, key);
      var cutoff := now - 60.0;
      while bucket != [] && bucket[0] < cutoff
        invariant Trim(bucket, now, 60.0) == Trim(Lookup(hits, key), now, 60.0)
        decreases |bucket|
      {
        bucket := bucket[1..];
      }
      calls := calls[key := Lookup(calls, key) + [now]];
      if |bucket| >= limit {
        hits := hits[key := bucket];
        return RateLimited;
      }
      hits := hits[key := bucket + [now]];
      return Passed;
    }
  }
}
