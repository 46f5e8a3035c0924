/** Retries: opening a provider stream until its first event arrives, and the generic helper. */
module Retry {
  import opened Prelude
  import opened ProviderEvents
  import Messages
  import SessionStores
  import TurnModel

  /** Delays are exact reals here; the source computes them in floating point. */
  datatype RetryConfig = RetryConfig(maxAttempts: int, initial: real, multiplier: real, maxDelay: real)

  datatype Ending = Ends | Fails(retryable: bool)

  /** What one `provider.stream(...)` yields and how it ends. */
  datatype Attempt = Attempt(events: seq<ProviderEvent>, ending: Ending)

  datatype Outcome = Finished | Raised(retryable: bool) | Closed | NoAttempt

  function Power(base: real, k: nat): real {
    if k == 0 then 1.0 else base * Power(base, k - 1)
  }

  function Uncapped(c: RetryConfig, growth: real): real {
    c.initial * growth
  }

  /** The delay after attempt number `attempt`, counted from 1. */
  function Backoff(c: RetryConfig, attempt: nat): real
    requires attempt >= 1
  {
    var delay := Uncapped(c, Power(c.multiplier, attempt - 1));
    if delay <= c.maxDelay then delay else c.maxDelay
  }

  function Delays(c: RetryConfig, n: nat): seq<real> {
    if n == 0 then [] else Delays(c, n - 1) + [Backoff(c, n)]
  }

  /** An attempt after which the opener tries again: nothing was yielded, and the error is of the
      retryable kind. */
  predicate FailsQuietly(a: Attempt) {
    a.events == [] && a.ending == Fails(true)
  }

  /** The attempt an opener ends with: the first that does not fail quietly, or the last allowed. */
  function LastAttempt(c: RetryConfig, attempts: nat -> Attempt, from: nat): nat
    decreases c.maxAttempts - from
  {
    if from >= c.maxAttempts || !FailsQuietly(attempts(from)) then from
    else LastAttempt(c, attempts, from + 1)
  }

  /** How many streams one opener opens. */
  function StreamsOpened(c: RetryConfig, attempts: nat -> Attempt): nat {
    if c.maxAttempts <= 0 then 0 else LastAttempt(c, attempts, 1)
  }

  lemma {:induction false} LastAttemptIs(c: RetryConfig, attempts: nat -> Attempt, from: nat, last: nat)
    requires from <= last <= c.maxAttempts && forall k :: from <= k < last ==> FailsQuietly(attempts(k))
    requires last == c.maxAttempts || !FailsQuietly(attempts(last))
    ensures LastAttempt(c, attempts, from) == last
    decreases last - from
  {
    if from < last {
      LastAttemptIs(c, attempts, from + 1, last);
    }
  }

  lemma {:induction false} LastAttemptBound(c: RetryConfig, attempts: nat -> Attempt, from: nat)
    requires from <= c.maxAttempts
    ensures from <= LastAttempt(c, attempts, from) <= c.maxAttempts
    decreases c.maxAttempts - from
  {
    if from < c.maxAttempts && FailsQuietly(attempts(from)) {
      LastAttemptBound(c, attempts, from + 1);
    }
  }

  function OutcomeOf(a: Attempt): Outcome {
    if a.ending.Ends? then Finished else Raised(a.ending.retryable)
  }

  /** `_open_provider_stream_with_retry`, for a consumer that closes after `wanted` events. What
      it yields is a prefix of the events of the one attempt it ends with; the attempts before
      yielded nothing and failed retryably; it stops at the first attempt that did not. */
  method OpenStream(c: RetryConfig, attempts: nat -> Attempt, wanted: Option<nat>)
    returns (out: seq<ProviderEvent>, outcome: Outcome, streams: nat, slept: seq<real>)
    requires wanted != Some(0)
    ensures streams == StreamsOpened(c, attempts)
    ensures c.maxAttempts <= 0 ==> out == [] && outcome == NoAttempt && streams == 0 && slept == []
    ensures c.maxAttempts > 0 ==>
              && 1 <= streams <= c.maxAttempts
              && (forall k :: 1 <= k < streams ==> FailsQuietly(attempts(k)))
              && (streams < c.maxAttempts ==> !FailsQuietly(attempts(streams)))
              && out <= attempts(streams).events
              && slept == Delays(c, streams - 1)
              && (outcome == Closed <==> wanted.Some? && wanted.value <= |attempts(streams).events|)
              && (if outcome == Closed then |out| == wanted.value
                  else out == attempts(streams).events && outcome == OutcomeOf(attempts(streams)))
  {
    out, streams, slept := [], 0, [];
    var attempt: nat := 1;
    while attempt <= c.maxAttempts
      invariant attempt == streams + 1 && out == []
      invariant streams == 0 || streams < c.maxAttempts
      invariant slept == Delays(c, streams)
      invariant forall k :: 1 <= k < attempt ==> FailsQuietly(attempts(k))
      decreases c.maxAttempts - attempt
    {
      streams := streams + 1;
      var stream := attempts(attempt);
      if !FailsQuietly(stream) || attempt == c.maxAttempts {
        LastAttemptIs(c, attempts, 1, attempt);
      }
      if stream.events == [] {
        if stream.ending.Ends? {
          return out, Finished, streams, slept;
        }
        if stream.ending.retryable && attempt < c.maxAttempts {
          slept := slept + [Backoff(c, attempt)];
          attempt := attempt + 1;
          continue;
        }
        return out, Raised(stream.ending.retryable), streams, slept;
      }
      for k := 0 to |stream.events|
        invariant out == stream.events[..k]
        invariant wanted.Some? ==> |out| < wanted.value
      {
        TakeMore(stream.events, k);
        out := out + [stream.events[k]];
        if wanted == Some(|out|) {
          return out, Closed, streams, slept;
        }
      }
      TakeAll(stream.events);
      return out, OutcomeOf(stream), streams, slept;
    }
    outcome := NoAttempt;
  }

  datatype Answer<T> = Success(value: T) | Failure(retryable: bool)

  /** `retry_with_backoff`: the first answer that is not a retryable failure, or the last one. */
  method RetryWithBackoff<T>(c: RetryConfig, calls: nat -> Answer<T>)
    returns (answer: Option<Answer<T>>, made: nat, slept: seq<real>)
    ensures c.maxAttempts <= 0 ==> answer == None && made == 0
    ensures c.maxAttempts > 0 ==>
              && 1 <= made <= c.maxAttempts && answer == Some(calls(made))
              && (forall k :: 1 <= k < made ==> calls(k) == Failure(true))
              && (made < c.maxAttempts ==> calls(made) != Failure(true))
              && slept == Delays(c, made - 1)
  {
    answer, made, slept := None, 0, [];
    var attempt: nat := 1;
    while attempt <= c.maxAttempts
      invariant attempt == made + 1
      invariant made == 0 || made < c.maxAttempts
      invariant made == 0 ==> answer == None
      invariant slept == Delays(c, made)
      invariant forall k :: 1 <= k < attempt ==> calls(k) == Failure(true)
      decreases c.maxAttempts - attempt
    {
      made := made + 1;
      answer := Some(calls(attempt));
      if calls(attempt) != Failure(true) {
        return;
      }
      if attempt >= c.maxAttempts {
        break;
      }
      slept := slept + [Backoff(c, attempt)];
      attempt := attempt + 1;
    }
  }

  // ---- delays -----------------------------------------------------------------------------------

  /** `asyncio.sleep` returns at once for a negative delay. */
  function Waited(delay: real): real {
    if delay < 0.0 then 0.0 else delay
  }

  function TotalWait(delays: seq<real>): real {
    if delays == [] then 0.0 else TotalWait(delays[..|delays| - 1]) + Waited(delays[|delays| - 1])
  }

  lemma OneMoreWait(delays: seq<real>, d: real)
    ensures TotalWait(delays + [d]) == TotalWait(delays) + Waited(d)
  {
    assert (delays + [d])[..|delays|] == delays;
  }

  lemma {:induction false} SleepBound(c: RetryConfig, n: nat)
    ensures |Delays(c, n)| == n && TotalWait(Delays(c, n)) <= n as real * Waited(c.maxDelay)
  {
    hide TotalWait, Backoff;
    var most := Waited(c.maxDelay);
    if n == 0 {
      NoWait();
      assert 0.0 * most == 0.0;
    } else {
      SleepBound(c, n - 1);
      OneMoreWait(Delays(c, n - 1), Backoff(c, n));
      WaitedAtMost(c, n);
      OneMoreTimes(n - 1, most);
    }
  }

  lemma NoWait()
    ensures TotalWait([]) == 0.0
  {
  }

  lemma WaitedAtMost(c: RetryConfig, attempt: nat)
    requires attempt >= 1
    ensures Waited(Backoff(c, attempt)) <= Waited(c.maxDelay)
  {
  }

  lemma OneMoreTimes(k: nat, d: real)
    ensures (k + 1) as real * d == k as real * d + d
  {
  }

  /** Over all retries of one opener the sleep is at most (max_attempts - 1) * max_delay_s. */
  lemma TotalSleep(c: RetryConfig, streams: nat)
    requires 1 <= streams <= c.maxAttempts
    ensures TotalWait(Delays(c, streams - 1)) <= (c.maxAttempts - 1) as real * Waited(c.maxDelay)
  {
    hide TotalWait, Delays;
    SleepBound(c, streams - 1);
    Times((streams - 1) as real, (c.maxAttempts - 1) as real, Waited(c.maxDelay));
  }

  predicate Grows(c: RetryConfig, attempt: nat)
    requires attempt >= 1
  {
    Backoff(c, attempt) <= Backoff(c, attempt + 1)
  }

  lemma Times(x: real, y: real, z: real)
    requires x <= y && z >= 0.0
    ensures x * z <= y * z
    ensures x < y && z > 0.0 ==> x * z < y * z
  {
    assert (y - x) * z >= 0.0;
  }

  lemma Quotient(q: real, e: real)
    requires e > 0.0
    ensures q > 0.0 ==> q / e > 0.0
    ensures q / e * e == q
  {
  }

  /** Bernoulli's inequality. */
  lemma {:induction false} PowerGrows(base: real, d: real, k: nat)
    requires base == 1.0 + d && d >= 0.0
    ensures Power(base, k) >= 1.0 + k as real * d
  {
    if k == 0 {
      assert 0.0 * d == 0.0;
    } else {
      var p, j := Power(base, k - 1), (k - 1) as real;
      PowerGrows(base, d, k - 1);
      Times(0.0, j, d);
      Times(1.0, p, d);
      assert k as real * d == j * d + d;
      assert base * p == p + p * d;
    }
  }

  lemma PowerPositive(base: real, k: nat)
    requires base >= 1.0
    ensures Power(base, k) >= 1.0
  {
    PowerGrows(base, base - 1.0, k);
    Times(0.0, k as real, base - 1.0);
  }

  lemma NextPower(base: real, k: nat)
    ensures Power(base, k + 1) == base * Power(base, k)
  {
  }

  lemma Rises(x: real, m: real, p: real, q: real)
    requires x >= 0.0 && m >= 1.0 && p >= 1.0 && q == m * p
    ensures x * p <= x * q
  {
    Times(1.0, m, p);
    assert p <= q;
    Times(p, q, x);
    Commute(p, x);
    Commute(q, x);
  }

  lemma Falls(x: real, m: real, p: real, q: real)
    requires x < 0.0 && m > 1.0 && p >= 1.0 && q == m * p
    ensures x * q < x * p
  {
    Times(1.0, m, p);
    assert p < q;
    Times(p, q, -x);
    Opposite(p, x);
    Opposite(q, x);
  }

  lemma Commute(x: real, y: real)
    ensures x * y == y * x
  {
  }

  lemma Opposite(x: real, y: real)
    ensures x * -y == -(y * x)
  {
  }

  lemma GrowingDelays(c: RetryConfig, attempt: nat)
    requires attempt >= 1 && c.multiplier >= 1.0 && (c.initial >= 0.0 || c.multiplier == 1.0)
    ensures Grows(c, attempt)
  {
    hide Power, Uncapped;
    var p, q := Power(c.multiplier, attempt - 1), Power(c.multiplier, attempt);
    PowerPositive(c.multiplier, attempt - 1);
    NextPower(c.multiplier, attempt - 1);
    if c.multiplier == 1.0 {
      assert 1.0 * p == p;
    } else {
      UncappedRises(c, p, q);
    }
  }

  lemma UncappedRises(c: RetryConfig, p: real, q: real)
    requires c.initial >= 0.0 && c.multiplier >= 1.0 && p >= 1.0 && q == c.multiplier * p
    ensures Uncapped(c, p) <= Uncapped(c, q)
  {
    Rises(c.initial, c.multiplier, p, q);
  }

  lemma UncappedFalls(c: RetryConfig, p: real, q: real)
    requires c.initial < 0.0 && c.multiplier > 1.0 && p >= 1.0 && q == c.multiplier * p
    ensures Uncapped(c, q) < Uncapped(c, p)
  {
    Falls(c.initial, c.multiplier, p, q);
  }

  lemma Distribute(low: real, x: real, y: real, z: real, e: real)
    requires low == 1.0 + x * y && e == z * y
    ensures low * z == z + x * e
  {
    assert low * z == z + x * y * z;
    assert x * y * z == x * (z * y);
  }

  lemma Negated(x: real, y: real)
    ensures -x * y == -(y * x)
  {
  }

  lemma GetsBelow(d: real, m: real, e: real, steps: real, p: real, cap: real)
    requires d > 0.0 && e == d * m && p >= 1.0 + steps * m && steps * e > -cap
    ensures -d * p < cap
  {
    var low := 1.0 + steps * m;
    Distribute(low, steps, m, d, e);
    Times(low, p, d);
    assert p * d > -cap;
    Negated(d, p);
    assert -d * p == -(p * d);
  }

  /** A delay below the cap is followed by a smaller one. */
  lemma BelowTheCap(c: RetryConfig, k: nat)
    requires c.multiplier > 1.0 && c.initial < 0.0
    requires Uncapped(c, Power(c.multiplier, k)) < c.maxDelay
    ensures !Grows(c, k + 1)
  {
    hide Power, Uncapped;
    PowerPositive(c.multiplier, k);
    NextPower(c.multiplier, k);
    UncappedFalls(c, Power(c.multiplier, k), Power(c.multiplier, k + 1));
  }

  lemma EnoughSteps(e: real, cap: real) returns (k: nat)
    requires e > 0.0
    ensures k as real * e > -cap
  {
    var low := -cap;
    var need := if low > 0.0 then low / e else 0.0;
    k := need.Floor + 1;
    var steps := k as real;
    Times(need, steps, e);
    assert need * e < steps * e;
    if low > 0.0 {
      Quotient(low, e);
      assert need * e == low;
    } else {
      assert need * e == 0.0;
    }
    assert steps * e > low;
    assert k as real * e > low;
  }

  /** With a negative first delay and a multiplier above 1 the delays get below any cap. */
  lemma ShrinkingDelay(c: RetryConfig) returns (attempt: nat)
    requires c.multiplier > 1.0 && c.initial < 0.0
    ensures attempt >= 1 && !Grows(c, attempt)
  {
    hide Grows, Power;
    var d, m := -c.initial, c.multiplier - 1.0;
    var e := d * m;
    Times(0.0, d, m);
    var k := EnoughSteps(e, c.maxDelay);
    PowerGrows(c.multiplier, m, k);
    GetsBelow(d, m, e, k as real, Power(c.multiplier, k), c.maxDelay);
    BelowTheCap(c, k);
    attempt := k + 1;
  }

  /** With a multiplier of at least 1 the delays never fall exactly when the first delay is not
      negative (or the multiplier is 1). */
  lemma DelaysGrowIff(c: RetryConfig)
    requires c.multiplier >= 1.0
    ensures (forall attempt: nat :: attempt >= 1 ==> Grows(c, attempt)) <==>
              c.initial >= 0.0 || c.multiplier == 1.0
  {
    if c.initial >= 0.0 || c.multiplier == 1.0 {
      forall attempt: nat | attempt >= 1 ensures Grows(c, attempt) {
        GrowingDelays(c, attempt);
      }
    } else {
      var attempt := ShrinkingDelay(c);
    }
  }

  // ---- a whole turn -------------------------------------------------------------------------------

  function Total(s: seq<nat>): nat {
    if s == [] then 0 else Total(s[..|s| - 1]) + s[|s| - 1]
  }

  lemma {:induction false} TotalBound(s: seq<nat>, most: nat)
    requires forall k :: 0 <= k < |s| ==> s[k] <= most
    ensures Total(s) <= |s| * most
  {
    if s != [] {
      TotalBound(s[..|s| - 1], most);
    }
  }

  lemma TimesInt(a: int, b: int, x: int, y: int)
    requires 0 <= a <= b && 0 <= x <= y
    ensures a * x <= b * y
  {
    assert (b - a) * x >= 0 && b * (y - x) >= 0;
  }

  /** The openers of a turn's successive requests, each with the attempts its provider makes. */
  method OpenAll(c: RetryConfig, attempts: nat -> nat -> Attempt, wanted: nat -> Option<nat>, n: nat)
    returns (counts: seq<nat>, outs: seq<seq<ProviderEvent>>)
    requires forall k: nat :: wanted(k) != Some(0)
    ensures |counts| == |outs| == n
    ensures forall k :: 0 <= k < n ==> counts[k] == StreamsOpened(c, attempts(k))
    ensures forall k :: 0 <= k < n ==> outs[k] <= attempts(k)(counts[k]).events || (counts[k] == 0 && outs[k] == [])
  {
    counts, outs := [], [];
    for i := 0 to n
      invariant |counts| == |outs| == i
      invariant forall k :: 0 <= k < i ==> counts[k] == StreamsOpened(c, attempts(k))
      invariant forall k :: 0 <= k < i ==>
                  outs[k] <= attempts(k)(counts[k]).events || (counts[k] == 0 && outs[k] == [])
    {
      var out, outcome, streams, slept := OpenStream(c, attempts(i), wanted(i));
      counts, outs := counts + [streams], outs + [out];
    }
  }

  lemma {:induction false} SnapshotCount(w: TurnModel.World, opening: seq<Messages.Message>, n: nat)
    ensures |TurnModel.Snapshots(w, opening, n)| == n
  {
    hide TurnModel.History;
    if n > 0 {
      SnapshotCount(w, opening, n - 1);
    }
  }

  /** A turn, completed or broken off anywhere, has made at most max_iterations requests. */
  lemma RequestsPerTurn(w: TurnModel.World, loaded: SessionStores.Record, user: Messages.Message, at: nat,
                        t: TurnModel.Trace)
    requires TurnModel.Unwound(w, loaded, user, at, t)
          || (TurnModel.Rounds(w, at) && t == TurnModel.TraceWhole(w, loaded, user, at))
    ensures |t.snapshots| <= if w.maxIterations > 0 then w.maxIterations else 0
  {
    hide TurnModel.Snapshots, TurnModel.SessionInRound, TurnModel.RoundEvents, TurnModel.SessionAt;
    SnapshotCount(w, loaded.messages + [user], at);
    if at > 0 {
      assert !TurnModel.Over(w, at - 1);
    }
  }

  /** A turn, completed or broken off anywhere, opens at most max_iterations * max_attempts provider
      streams: one opener per request, the last perhaps broken off before opening all of its own. */
  lemma StreamsPerTurn(w: TurnModel.World, loaded: SessionStores.Record, user: Messages.Message, at: nat,
                       t: TurnModel.Trace, c: RetryConfig, attempts: nat -> nat -> Attempt, counts: seq<nat>)
    requires TurnModel.Unwound(w, loaded, user, at, t)
          || (TurnModel.Rounds(w, at) && t == TurnModel.TraceWhole(w, loaded, user, at))
    requires |counts| == |t.snapshots|
    requires forall k :: 0 <= k < |counts| ==> counts[k] <= StreamsOpened(c, attempts(k))
    ensures Total(counts) <= Limit(w.maxIterations) * Limit(c.maxAttempts)
  {
    hide Total, StreamsOpened, TurnModel.Unwound, TurnModel.Rounds, TurnModel.TraceWhole;
    RequestsPerTurn(w, loaded, user, at, t);
    forall k | 0 <= k < |counts| ensures counts[k] <= Limit(c.maxAttempts) {
      OpenedBound(c, attempts(k));
    }
    TotalBound(counts, Limit(c.maxAttempts));
    TimesInt(|counts|, Limit(w.maxIterations), Limit(c.maxAttempts), Limit(c.maxAttempts));
  }

  function Limit(configured: int): nat {
    if configured > 0 then configured else 0
  }

  lemma OpenedBound(c: RetryConfig, attempts: nat -> Attempt)
    ensures StreamsOpened(c, attempts) <= Limit(c.maxAttempts)
  {
    if c.maxAttempts > 0 {
      LastAttemptBound(c, attempts, 1);
    }
  }
}
