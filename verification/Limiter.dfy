/** The failed-attempt limiter (src/api/reviewer_tokens.py), with its use in src/api/auth.py. */
module Limiter {
  type Queues = map<string, seq<real>>

  /** What `retry_after` answers; an empty queue at the limit raises IndexError. */
  datatype Answer = Free | Wait(seconds: int) | Raises

  function QueueOf(s: Queues, key: string): seq<real> {
    if key in s then s[key] else []
  }

  /** `_prune`: drops failures from the front that are at least a window old. */
  function Pruned(q: seq<real>, now: real, window: real): seq<real> {
    if q != [] && now - q[0] >= window then Pruned(q[1..], now, window) else q
  }

  function Stored(s: Queues, key: string, q: seq<real>): Queues {
    if q == [] then s - {key} else s[key := q]
  }

  function AfterQuery(s: Queues, key: string, now: real, window: real): Queues {
    Stored(s, key, Pruned(QueueOf(s, key), now, window))
  }

  function AfterFailure(s: Queues, key: string, now: real, window: real): Queues {
    s[key := Pruned(QueueOf(s, key), now, window) + [now]]
  }

  /** The answer for a pruned queue. */
  function AnswerFor(q: seq<real>, max: int, window: real, now: real): Answer {
    if |q| < max then Free
    else if q == [] then Raises
    else
      var left := (window - (now - q[0])).Floor + 1;
      Wait(if left < 1 then 1 else left)
  }

  class FailureLimiter {
    const maxFailures: int
    const window: real
    var failures: Queues

    constructor (maxFailures: int, window: real)
      ensures this.maxFailures == maxFailures && this.window == window && failures == map[]
    {
      this.maxFailures, this.window := maxFailures, window;
      failures := map[];
    }

    method Prune(key: string, now: real) returns (q: seq<real>)
      modifies this
      ensures q == Pruned(QueueOf(old(failures), key), now, window)
      ensures failures == AfterQuery(old(failures), key, now, window)
    {
      q := QueueOf(failures, key);
      while q != [] && now - q[0] >= window
        invariant Pruned(q, now, window) == Pruned(QueueOf(old(failures), key), now, window)
        invariant failures == old(failures)
        decreases |q|
      {
        q := q[1..];
      }
      if q == [] {
        failures := failures - {key};
      } else {
        failures := failures[key := q];
      }
    }

    method RetryAfter(key: string, now: real) returns (answer: Answer)
      modifies this
      ensures answer == AnswerFor(Pruned(QueueOf(old(failures), key), now, window), maxFailures, window, now)
      ensures failures == AfterQuery(old(failures), key, now, window)
    {
      var q := Prune(key, now);
      if |q| < maxFailures {
        return Free;
      }
      if q == [] {
        return Raises;
      }
      var left := (window - (now - q[0])).Floor + 1;
      answer := Wait(if left < 1 then 1 else left);
    }

    method RecordFailure(key: string, now: real)
      modifies this
      ensures failures == AfterFailure(old(failures), key, now, window)
    {
      var q := Prune(key, now);
      failures := failures[key := q + [now]];
    }
  }

  // ---- Call histories ----------------------------------------------------------

  datatype Call = Failure(key: string, at: real) | Query(key: string, at: real)

  function After(calls: seq<Call>, window: real): Queues {
    if calls == [] then map[]
    else
      var s := After(calls[..|calls| - 1], window);
      match calls[|calls| - 1]
      case Failure(key, at) => AfterFailure(s, key, at, window)
      case Query(key, at) => AfterQuery(s, key, at, window)
  }

  predicate InOrder(calls: seq<Call>) {
    forall i, j :: 0 <= i < j < |calls| ==> calls[i].at <= calls[j].at
  }

  /** When a client failed. */
  function FailedAt(calls: seq<Call>, key: string): seq<real> {
    if calls == [] then []
    else
      var rest := FailedAt(calls[..|calls| - 1], key);
      var last := calls[|calls| - 1];
      if last.Failure? && last.key == key then rest + [last.at] else rest
  }

  /** Those of `times` younger than the window. */
  function Younger(times: seq<real>, now: real, window: real): seq<real> {
    if times == [] then []
    else
      var rest := Younger(times[..|times| - 1], now, window);
      if now - times[|times| - 1] < window then rest + [times[|times| - 1]] else rest
  }

  predicate Sorted(q: seq<real>) {
    forall i, j :: 0 <= i < j < |q| ==> q[i] <= q[j]
  }

  lemma {:induction false} YoungerDropsOld(q: seq<real>, now: real, window: real)
    requires q != [] && now - q[0] >= window
    ensures Younger(q, now, window) == Younger(q[1..], now, window)
  {
    if |q| > 1 {
      YoungerDropsOld(q[..|q| - 1], now, window);
      assert q[..|q| - 1][1..] == q[1..][..|q| - 2];
    }
  }

  lemma {:induction false} YoungerKeepsAll(q: seq<real>, now: real, window: real)
    requires forall i :: 0 <= i < |q| ==> now - q[i] < window
    ensures Younger(q, now, window) == q
  {
    if q != [] {
      YoungerKeepsAll(q[..|q| - 1], now, window);
    }
  }

  /** On a sorted queue, dropping from the front is dropping whatever is old. */
  lemma {:induction false} PruneIsYounger(q: seq<real>, now: real, window: real)
    requires Sorted(q)
    ensures Pruned(q, now, window) == Younger(q, now, window)
    ensures Sorted(Pruned(q, now, window))
    ensures forall i :: 0 <= i < |Pruned(q, now, window)| ==> Pruned(q, now, window)[i] in q
  {
    if q != [] && now - q[0] >= window {
      YoungerDropsOld(q, now, window);
      PruneIsYounger(q[1..], now, window);
    } else {
      YoungerKeepsAll(q, now, window);
    }
  }

  lemma {:induction false} YoungerTwice(times: seq<real>, before: real, now: real, window: real)
    requires before <= now
    ensures Younger(Younger(times, before, window), now, window) == Younger(times, now, window)
  {
    if times != [] {
      var init, last := times[..|times| - 1], times[|times| - 1];
      YoungerTwice(init, before, now, window);
      if before - last < window {
        var kept := Younger(init, before, window);
        assert (kept + [last])[..|kept|] == kept;
      }
    }
  }

  lemma YoungerAppend(times: seq<real>, last: real, now: real, window: real)
    ensures Younger(times + [last], now, window)
            == Younger(times, now, window) + if now - last < window then [last] else []
  {
    assert (times + [last])[..|times|] == times;
  }

  /** What a client's queue says of its failures from time `from` on. */
  ghost predicate Tracks(q: seq<real>, failed: seq<real>, from: real, window: real) {
    && Sorted(q) && (forall i :: 0 <= i < |q| ==> q[i] <= from)
    && forall now: real :: from <= now ==> Younger(q, now, window) == Younger(failed, now, window)
  }

  lemma PruneTracks(q: seq<real>, failed: seq<real>, from: real, at: real, window: real)
    requires Tracks(q, failed, from, window) && from <= at
    ensures Tracks(Pruned(q, at, window), failed, at, window)
  {
    PruneIsYounger(q, at, window);
    forall now: real | at <= now
      ensures Younger(Pruned(q, at, window), now, window) == Younger(failed, now, window)
    {
      YoungerTwice(q, at, now, window);
    }
  }

  lemma FailureTracks(q: seq<real>, failed: seq<real>, at: real, window: real)
    requires Tracks(q, failed, at, window)
    ensures Tracks(q + [at], failed + [at], at, window)
  {
    forall now: real | at <= now
      ensures Younger(q + [at], now, window) == Younger(failed + [at], now, window)
    {
      YoungerAppend(q, at, now, window);
      YoungerAppend(failed, at, now, window);
    }
  }

  lemma {:induction false} QueueTracks(calls: seq<Call>, key: string, from: real, window: real)
    requires InOrder(calls) && (forall i :: 0 <= i < |calls| ==> calls[i].at <= from)
    ensures Tracks(QueueOf(After(calls, window), key), FailedAt(calls, key), from, window)
  {
    if calls != [] {
      var init, last := calls[..|calls| - 1], calls[|calls| - 1];
      QueueTracks(init, key, last.at, window);
      var q := QueueOf(After(init, window), key);
      if last.key == key {
        PruneTracks(q, FailedAt(init, key), last.at, last.at, window);
        if last.Failure? {
          FailureTracks(Pruned(q, last.at, window), FailedAt(init, key), last.at, window);
        }
      }
    }
  }

  /** The limiter counts the failures younger than the window, for every history of calls in time order. */
  lemma CountsYoungFailures(calls: seq<Call>, key: string, now: real, max: int, window: real)
    requires InOrder(calls) && (forall i :: 0 <= i < |calls| ==> calls[i].at <= now)
    ensures var q := Pruned(QueueOf(After(calls, window), key), now, window);
            && q == Younger(FailedAt(calls, key), now, window)
            && (AnswerFor(q, max, window, now) == Free <==> |Younger(FailedAt(calls, key), now, window)| < max)
  {
    QueueTracks(calls, key, now, window);
    PruneIsYounger(QueueOf(After(calls, window), key), now, window);
  }

  /** `retry_after` raises exactly when nothing is recent and no failure at all is allowed. */
  lemma RaisesIff(q: seq<real>, max: int, window: real, now: real)
    ensures AnswerFor(q, max, window, now) == Raises <==> q == [] && max <= 0
  {
  }

  // ---- When waiting is enough --------------------------------------------------

  lemma {:induction false} PrunedShorter(q: seq<real>, now: real, window: real)
    ensures |Pruned(q, now, window)| <= |q|
    ensures Pruned(Pruned(q, now, window), now, window) == Pruned(q, now, window)
  {
    if q != [] && now - q[0] >= window {
      PrunedShorter(q[1..], now, window);
    }
  }

  /** Pruning leaves fewer than `max` failures exactly when the `max`-th from the end is old. */
  lemma {:induction false} FewLeftIff(q: seq<real>, max: nat, window: real, later: real)
    requires Sorted(q) && 0 < max <= |q|
    ensures |Pruned(q, later, window)| < max <==> later - q[|q| - max] >= window
  {
    if later - q[0] >= window {
      if |q| == max {
        PrunedShorter(q[1..], later, window);
      } else {
        FewLeftIff(q[1..], max, window, later);
      }
    }
  }

  /** Waiting the returned seconds frees the client exactly when the `max`-th failure from the end is old by then. */
  lemma WaitingFreesIff(q: seq<real>, max: int, window: real, now: real)
    requires Sorted(q) && AnswerFor(q, max, window, now).Wait?
    ensures var later := now + AnswerFor(q, max, window, now).seconds as real;
            AnswerFor(Pruned(q, later, window), max, window, later) == Free
            <==> 0 < max && later - q[|q| - max] >= window
  {
    if 0 < max {
      FewLeftIff(q, max, window, now + AnswerFor(q, max, window, now).seconds as real);
    }
  }

  lemma WaitIsLongEnough(q: seq<real>, max: int, window: real, now: real)
    requires AnswerFor(q, max, window, now).Wait?
    ensures now + AnswerFor(q, max, window, now).seconds as real - q[0] > window
  {
    var left := window - (now - q[0]);
    assert left < (left.Floor + 1) as real;
  }

  /** On a queue within the limit waiting always frees the client. */
  lemma WaitingFrees(q: seq<real>, max: nat, window: real, now: real)
    requires Sorted(q) && |q| <= max && AnswerFor(q, max, window, now).Wait?
    ensures var later := now + AnswerFor(q, max, window, now).seconds as real;
            AnswerFor(Pruned(q, later, window), max, window, later) == Free
  {
    WaitIsLongEnough(q, max, window, now);
    WaitingFreesIff(q, max, window, now);
  }

  /** The client is blocked; waiting as told frees it exactly when the `max`-th of `y` from the end is old by then. */
  predicate BlockedUntil(y: seq<real>, max: nat, window: real, now: real)
    requires 0 < max <= |y|
  {
    && AnswerFor(y, max, window, now).Wait?
    && var later := now + AnswerFor(y, max, window, now).seconds as real;
       AnswerFor(Pruned(y, later, window), max, window, later) == Free <==> later - y[|y| - max] >= window
  }

  lemma BlockedWhenFull(y: seq<real>, max: nat, window: real, now: real)
    requires Sorted(y) && 0 < max <= |y|
    ensures BlockedUntil(y, max, window, now)
  {
    WaitingFreesIff(y, max, window, now);
  }

  /**
   * On histories: the queue is `y`, the failures younger than the window, so
   * it is over the limit exactly when more than `max` of them are; and a
   * client blocked by them is freed as `BlockedUntil` says.
   */
  lemma WaitSufficesIff(calls: seq<Call>, key: string, now: real, max: nat, window: real, y: seq<real>)
    requires InOrder(calls) && (forall i :: 0 <= i < |calls| ==> calls[i].at <= now)
    requires y == Younger(FailedAt(calls, key), now, window)
    ensures Pruned(QueueOf(After(calls, window), key), now, window) == y
    ensures 0 < max <= |y| ==> BlockedUntil(y, max, window, now)
  {
    QueueTracks(calls, key, now, window);
    PruneIsYounger(QueueOf(After(calls, window), key), now, window);
    if 0 < max <= |y| {
      BlockedWhenFull(y, max, window, now);
    }
  }

  // ---- One request after the other ---------------------------------------------

  /**
   * An attempt in src/api/auth.py: the token is only looked at for a free
   * client, and a failure is recorded with a clock reading of its own.
   */
  datatype Attempt = Attempt(key: string, checkedAt: real, failedAt: real, valid: bool)

  function Served(attempts: seq<Attempt>, max: int, window: real): Queues {
    if attempts == [] then map[]
    else
      var s := Served(attempts[..|attempts| - 1], max, window);
      var a := attempts[|attempts| - 1];
      var q := Pruned(QueueOf(s, a.key), a.checkedAt, window);
      var t := AfterQuery(s, a.key, a.checkedAt, window);
      if AnswerFor(q, max, window, a.checkedAt) == Free && !a.valid then AfterFailure(t, a.key, a.failedAt, window)
      else t
  }

  /** When each failure is recorded before the next client is let in, no queue exceeds the limit. */
  lemma {:induction false} NeverOverLimit(attempts: seq<Attempt>, key: string, max: nat, window: real)
    ensures |QueueOf(Served(attempts, max, window), key)| <= max
  {
    if attempts != [] {
      var init, a := attempts[..|attempts| - 1], attempts[|attempts| - 1];
      NeverOverLimit(init, key, max, window);
      var q := QueueOf(Served(init, max, window), a.key);
      PrunedShorter(q, a.checkedAt, window);
      PrunedShorter(Pruned(q, a.checkedAt, window), a.failedAt, window);
    }
  }

  // ---- Two requests at once ----------------------------------------------------

  const MAX_FAILURES := 10
  const WINDOW := 60.0

  function Repeat<T>(x: T, n: nat): (r: seq<T>)
    ensures |r| == n && forall i :: 0 <= i < n ==> r[i] == x
  {
    if n == 0 then [] else Repeat(x, n - 1) + [x]
  }

  lemma {:induction false} FailedAtRepeat(calls: seq<Call>, key: string, at: real, n: nat)
    ensures FailedAt(calls + Repeat(Failure(key, at), n), key) == FailedAt(calls, key) + Repeat(at, n)
  {
    if n == 0 {
      assert calls + Repeat(Failure(key, at), 0) == calls;
    } else {
      var all := calls + Repeat(Failure(key, at), n);
      FailedAtRepeat(calls, key, at, n - 1);
      assert all[..|all| - 1] == calls + Repeat(Failure(key, at), n - 1);
    }
  }

  lemma QueryKeepsFailures(calls: seq<Call>, key: string, at: real)
    ensures FailedAt(calls + [Query(key, at)], key) == FailedAt(calls, key)
  {
    assert (calls + [Query(key, at)])[..|calls|] == calls;
  }

  /** One failure at 0 and `n` at `s`: the client's calls before the race. */
  function Before(s: real, n: nat): seq<Call> {
    [Failure("c", 0.0)] + Repeat(Failure("c", s), n)
  }

  /** Two requests are checked, and then both failures are recorded. */
  function Race(s: real, max: nat): seq<Call>
    requires max >= 2
  {
    Before(s, max - 2) + [Query("c", s)] + [Query("c", s)] + Repeat(Failure("c", s), 2)
  }

  lemma FailedBefore(s: real, n: nat)
    ensures FailedAt(Before(s, n), "c") == [0.0] + Repeat(s, n)
  {
    var first := [Failure("c", 0.0)];
    assert first[..0] == [];
    assert FailedAt(first, "c") == [0.0];
    FailedAtRepeat(first, "c", s, n);
  }

  lemma FailedInRace(s: real, max: nat)
    requires max >= 2
    ensures FailedAt(Before(s, max - 2) + [Query("c", s)], "c") == [0.0] + Repeat(s, max - 2)
    ensures |FailedAt(Race(s, max), "c")| == max + 1
    ensures forall i :: 0 <= i <= max ==> FailedAt(Race(s, max), "c")[i] == if i == 0 then 0.0 else s
  {
    var b := Before(s, max - 2);
    FailedBefore(s, max - 2);
    QueryKeepsFailures(b, "c", s);
    QueryKeepsFailures(b + [Query("c", s)], "c", s);
    FailedAtRepeat(b + [Query("c", s)] + [Query("c", s)], "c", s, 2);
  }

  lemma RaceInOrder(s: real, max: nat)
    requires max >= 2 && 0.0 < s
    ensures InOrder(Race(s, max)) && forall i :: 0 <= i < |Race(s, max)| ==> Race(s, max)[i].at <= s
  {
    assert forall i :: 0 <= i < |Race(s, max)| ==> Race(s, max)[i].at == if i == 0 then 0.0 else s;
  }

  /** A client with `max - 1` young failures is let in. */
  lemma LetIn(calls: seq<Call>, max: nat, window: real, s: real)
    requires max >= 2 && 0.0 < s < window
    requires InOrder(calls) && (forall i :: 0 <= i < |calls| ==> calls[i].at <= s)
    requires FailedAt(calls, "c") == [0.0] + Repeat(s, max - 2)
    ensures AnswerFor(Pruned(QueueOf(After(calls, window), "c"), s, window), max, window, s) == Free
  {
    YoungerKeepsAll(FailedAt(calls, "c"), s, window);
    CountsYoungFailures(calls, "c", s, max, window);
  }

  /** Both requests of the race are let in. */
  lemma RaceLetsBothIn(max: nat, window: real, s: real)
    requires max >= 2 && 0.0 < s < window
    ensures var first, second := Before(s, max - 2), Before(s, max - 2) + [Query("c", s)];
            && AnswerFor(Pruned(QueueOf(After(first, window), "c"), s, window), max, window, s) == Free
            && AnswerFor(Pruned(QueueOf(After(second, window), "c"), s, window), max, window, s) == Free
  {
    FailedBefore(s, max - 2);
    FailedInRace(s, max);
    LetIn(Before(s, max - 2), max, window, s);
    LetIn(Before(s, max - 2) + [Query("c", s)], max, window, s);
  }

  /**
   * Two requests that are both let in before either failure is recorded pass
   * the limit, and the wait is then too short: for every limit of two or more,
   * the source's 10 failures in 60 seconds among them.
   */
  lemma RacePassesLimit(max: nat, window: real, s: real, q: seq<real>)
    requires max >= 2 && 1.0 < s < window
    requires q == Pruned(QueueOf(After(Race(s, max), window), "c"), s, window)
    ensures |q| == max + 1 && AnswerFor(q, max, window, s).Wait?
    ensures var later := s + AnswerFor(q, max, window, s).seconds as real;
            AnswerFor(Pruned(q, later, window), max, window, later) != Free
  {
    var failed := FailedAt(Race(s, max), "c");
    FailedInRace(s, max);
    RaceInOrder(s, max);
    YoungerKeepsAll(failed, s, window);
    WaitSufficesIff(Race(s, max), "c", s, max, window, failed);
    WaitIsShort(failed, max, window, s);
  }

  lemma WaitIsShort(q: seq<real>, max: nat, window: real, s: real)
    requires |q| >= max > 0 && q[0] == 0.0 && 1.0 < s < window
    ensures s + AnswerFor(q, max, window, s).seconds as real - s < window
  {
    var left := window - s;
    assert left.Floor as real <= left;
  }

  /** The limiter the application builds can be passed this way. */
  lemma DefaultCanBePassed()
    ensures MAX_FAILURES >= 2 && 1.0 < WINDOW / 2.0 < WINDOW
  {
  }
}
