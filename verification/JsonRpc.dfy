/**
 The JSON-RPC client: bounded retries with exponential backoff, a rate limiter, and the 1..10 block
 guard of `eth_getLogs`. What the provider does is an arbitrary script: attempt number k may be
 answered or fail in any of the ways the client tells apart.
 */
module JsonRpc {
  import opened Wrappers
  import opened Arithmetic
  import opened Chain

  const MAX_BLOCKS_PER_LOG_REQUEST: nat := 10

  type Seconds = r: real | r >= 0.0 witness 0.0

  /** The ways one attempt can fail before an answer arrives. */
  datatype Fault = Transient | RangeTooLarge | TooManyResults | Rejected

  /**
   Forbidden is HTTP 403 on an old block, NoSuchBlock the answer `null` for one that is not there yet, and
   BadRange the client's own ValueError.
   */
  datatype RpcError = Failed(fault: Fault) | Forbidden | NoSuchBlock | BadRange

  predicate Retryable(e: RpcError) {
    e.Failed? && !e.fault.Rejected?
  }

  predicate MustSplitInsteadOfRetry(f: Fault) {
    f.RangeTooLarge? || f.TooManyResults?
  }

  /**
   The world behind the client. Numeric block lookups below `oldest` are refused; the finalized head is served
   by tag, and the provider has `ahead` blocks above it. `faults[k]` says how attempt k fails; the other
   attempts are answered.
   */
  datatype Provider = Provider(
    chainId: int,
    chain: Chain,
    head: nat,
    ahead: nat,
    oldest: nat,
    faults: imap<nat, Fault>,
    jitter: imap<nat, real>)
  {
    function FaultAt(attempt: nat): Option<Fault> {
      if attempt in faults then Some(faults[attempt]) else None
    }

    function JitterAt(attempt: nat): real {
      if attempt in jitter then jitter[attempt] else 0.0
    }
  }

  /**
   The attempt is where a call with the given number of retries gives up: it fails in a way that is not retried,
   or it is the last of maxRetries + 1 transient failures in a row.
   */
  ghost predicate CallFails(provider: Provider, maxRetries: nat, attempt: int, fault: Fault) {
    && 0 <= attempt && provider.FaultAt(attempt) == Some(fault)
    && (fault.Transient? ==>
          && maxRetries <= attempt
          && forall k: nat | attempt - maxRetries <= k <= attempt :: provider.FaultAt(k) == Some(Transient))
  }

  /** The error is one that some call really ends with. */
  ghost predicate Faulted(provider: Provider, maxRetries: nat, e: RpcError) {
    e.Failed? && exists k: nat :: CallFails(provider, maxRetries, k, e.fault)
  }

  lemma FaultedAt(provider: Provider, maxRetries: nat, attempt: int, e: RpcError)
    requires e.Failed? && CallFails(provider, maxRetries, attempt, e.fault)
    ensures Faulted(provider, maxRetries, e)
  {
  }

  /** One of the attempts k, ..., k + maxRetries is answered. */
  ghost predicate AnsweredFrom(provider: Provider, maxRetries: nat, k: nat) {
    exists i: nat :: k <= i <= k + maxRetries && provider.FaultAt(i).None?
  }

  /** Nothing that retrying does not overcome: every fault is transient, and none lasts longer than the retries. */
  ghost predicate Calm(provider: Provider, maxRetries: nat) {
    && (forall k: nat :: provider.FaultAt(k) in {None, Some(Transient)})
    && (forall k: nat :: AnsweredFrom(provider, maxRetries, k))
  }

  /** Then no call fails, however the provider's faults are spread over the attempts. */
  lemma CalmNeverFails(provider: Provider, maxRetries: nat, e: RpcError)
    requires Calm(provider, maxRetries)
    ensures !Faulted(provider, maxRetries, e)
  {
    if e.Failed? {
      forall k: nat ensures !CallFails(provider, maxRetries, k, e.fault) {
        if maxRetries <= k {
          assert AnsweredFrom(provider, maxRetries, k - maxRetries);
        }
      }
    }
  }

  /** One `eth_getLogs` call: its block range and None when it succeeded. */
  datatype LogCall = LogCall(fromBlock: nat, toBlock: nat, error: Option<RpcError>)

  /** Recorded request times, each at least `gap` after the one before. */
  ghost predicate Spaced(times: seq<real>, gap: real) {
    forall i | 0 < i < |times| :: times[i] - times[i - 1] >= gap
  }

  lemma SpacedAppend(times: seq<real>, gap: real, now: real)
    requires Spaced(times, gap) && (times != [] ==> now - times[|times| - 1] >= gap)
    ensures Spaced(times + [now], gap)
  {
  }

  ghost function Span(steps: nat, gap: real): real {
    if steps == 0 then 0.0 else Span(steps - 1, gap) + gap
  }

  lemma {:induction false} SpanClosedForm(steps: nat, gap: real)
    ensures Span(steps, gap) == steps as real * gap
  {
    if steps == 0 {
    } else {
      SpanClosedForm(steps - 1, gap);
    }
  }

  lemma {:induction false} SpacedSpan(times: seq<real>, gap: real, i: nat, j: nat)
    requires Spaced(times, gap) && i <= j < |times|
    ensures times[j] - times[i] >= Span(j - i, gap)
    ensures gap > 0.0 ==> times[i] <= times[j]
  {
    if i == j {
    } else {
      SpacedSpan(times, gap, i, j - 1);
    }
  }

  function MinInterval(requestsPerSecond: real): (interval: real)
    requires requestsPerSecond > 0.0
    ensures interval > 0.0 && interval * requestsPerSecond == 1.0
  {
    1.0 / requestsPerSecond
  }

  /** Any two recorded requests are as far apart as their distance in the record demands. */
  lemma SpacedPairs(times: seq<real>, requestsPerSecond: real, i: nat, j: nat)
    requires requestsPerSecond > 0.0
    requires Spaced(times, MinInterval(requestsPerSecond)) && i <= j < |times|
    ensures times[j] - times[i] >= (j - i) as real * MinInterval(requestsPerSecond)
  {
    SpacedSpan(times, MinInterval(requestsPerSecond), i, j);
    SpanClosedForm(j - i, MinInterval(requestsPerSecond));
  }

  /** How many of the recorded requests fall into the window [from, from + length]. */
  ghost function CountInWindow(times: seq<real>, from: real, length: real): nat {
    if times == [] then 0
    else
      var last := times[|times| - 1];
      CountInWindow(times[..|times| - 1], from, length) + if from <= last <= from + length then 1 else 0
  }

  /** No window of the given length, wherever it starts, holds more than floor(length * rate) + 1 requests. */
  lemma RateLimitHolds(times: seq<real>, requestsPerSecond: real, from: real, length: real)
    requires requestsPerSecond > 0.0 && length >= 0.0
    requires Spaced(times, MinInterval(requestsPerSecond))
    ensures CountInWindow(times, from, length) <= (length * requestsPerSecond).Floor + 1
  {
    SpacedCount(times, requestsPerSecond, MinInterval(requestsPerSecond), from, length);
  }

  lemma SpacedCount(times: seq<real>, rate: real, gap: real, from: real, length: real)
    requires rate > 0.0 && gap > 0.0 && gap * rate == 1.0 && length >= 0.0
    requires Spaced(times, gap)
    ensures CountInWindow(times, from, length) <= (length * rate).Floor + 1
  {
    var n := CountInWindow(times, from, length);
    if n > 0 {
      var i, j := WindowEnds(times, gap, from, length);
      SpacedSpan(times, gap, i, j);
      assert Span(n - 1, gap) <= length;
      StepsFit(n - 1, length, rate, gap);
    } else {
      StepsFit(0, length, rate, gap);
    }
  }

  lemma StepsFit(steps: nat, length: real, rate: real, gap: real)
    requires rate > 0.0 && length >= 0.0 && gap * rate == 1.0
    requires Span(steps, gap) <= length
    ensures steps <= (length * rate).Floor
  {
    SpanClosedForm(steps, gap);
    var s, p := steps as real, steps as real * gap;
    assert p * rate <= length * rate;
    assert p * rate == s * (gap * rate) == s;
  }

  /** The requests inside a window are consecutive, so the first and last of them are n - 1 apart. */
  lemma {:induction false} WindowEnds(times: seq<real>, gap: real, from: real, length: real)
    returns (i: nat, j: nat)
    requires gap > 0.0
    requires Spaced(times, gap) && CountInWindow(times, from, length) > 0
    ensures i <= j < |times| && j - i == CountInWindow(times, from, length) - 1
    ensures from <= times[i] && from <= times[j] <= from + length
    ensures forall k | j < k < |times| :: times[k] > from + length
  {
    var last := |times| - 1;
    var front := times[..last];
    if CountInWindow(front, from, length) == 0 {
      i, j := last, last;
    } else {
      i, j := WindowEnds(front, gap, from, length);
      SpacedSpan(times, gap, j, last);
      if times[last] <= from + length {
        j := last;
      }
    }
  }

  /** The backoff base after it has been doubled once per earlier attempt. */
  function Doubled(base: Seconds, attempt: nat): Seconds {
    base * Pow(2, attempt) as real
  }

  /** What the first `retries` pauses add up to when each has the same jitter. */
  ghost function BackoffTotal(base: Seconds, jitter: Seconds, retries: nat): real {
    if retries == 0 then 0.0
    else BackoffTotal(base, jitter, retries - 1) + Doubled(base, retries - 1) + jitter
  }

  lemma {:induction false} BackoffClosedForm(base: Seconds, jitter: Seconds, retries: nat)
    ensures BackoffTotal(base, jitter, retries)
         == base * (Pow(2, retries) - 1) as real + retries as real * jitter
  {
    if retries == 0 {
    } else {
      BackoffClosedForm(base, jitter, retries - 1);
      var p := Pow(2, retries - 1) as real;
      assert Pow(2, retries) as real == 2.0 * p;
      assert base * (p - 1.0) + base * p == base * (2.0 * p - 1.0);
    }
  }

  /** One call's backoff is at most what all the allowed retries add up to. */
  lemma BackoffBound(base: Seconds, jitter: Seconds, retries: nat, maxRetries: nat)
    requires retries <= maxRetries
    ensures BackoffTotal(base, jitter, retries)
         <= base * (Pow(2, maxRetries) - 1) as real + maxRetries as real * jitter
  {
    BackoffMonotone(base, jitter, retries, maxRetries);
    BackoffClosedForm(base, jitter, maxRetries);
  }

  lemma {:induction false} BackoffMonotone(base: Seconds, jitter: Seconds, a: nat, b: nat)
    requires a <= b
    ensures BackoffTotal(base, jitter, a) <= BackoffTotal(base, jitter, b)
  {
    if a == b {
    } else {
      BackoffMonotone(base, jitter, a, b - 1);
    }
  }

  /** Monotonic time. Any amount of time may pass before a reading and after a sleep. */
  class Clock {
    const lag: imap<nat, Seconds>
    var now: real
    var ticks: nat
    /** How much sleep has been asked for so far. */
    ghost var asked: real

    constructor (lag: imap<nat, Seconds>) {
      this.lag := lag;
      now := 0.0;
      ticks := 0;
      asked := 0.0;
    }

    function LagAt(tick: nat): Seconds {
      if tick in lag then lag[tick] else 0.0
    }

    method Monotonic() returns (reading: real)
      modifies this`now, this`ticks
      ensures reading == now >= old(now)
    {
      now, ticks := now + LagAt(ticks), ticks + 1;
      reading := now;
    }

    /** Sleeping lasts at least as long as was asked for. */
    method Sleep(duration: real)
      modifies this
      ensures now >= old(now) + duration && asked == old(asked) + duration
    {
      asked := asked + duration;
      now, ticks := now + duration + LagAt(ticks), ticks + 1;
    }
  }

  class RpcClient {
    const provider: Provider
    const clock: Clock
    const maxRetries: nat
    const requestsPerSecond: real
    const minInterval: real
    const retryBackoff: Seconds
    const retryJitter: Seconds
    var lastRequestAt: Option<real>
    /** The number of attempts made so far, which is also the last JSON-RPC id that was used. */
    var attempts: nat

    ghost var times: seq<real>
    ghost var backoffSlept: real
    ghost var lookups: seq<nat>
    ghost var logCalls: seq<LogCall>

    ghost predicate Valid()
      reads this, clock
    {
      && 0.0 < requestsPerSecond <= 4.0
      && minInterval == MinInterval(requestsPerSecond)
      && Spaced(times, minInterval)
      && |times| == attempts
      && (times == [] <==> lastRequestAt == None)
      && (times != [] ==> lastRequestAt == Some(times[|times| - 1]) && times[|times| - 1] <= clock.now)
    }

    constructor (provider: Provider, clock: Clock, maxRetries: nat, requestsPerSecond: real,
                 retryBackoff: Seconds, retryJitter: Seconds)
      requires 0.0 < requestsPerSecond <= 4.0
      ensures Valid() && this.provider == provider && this.clock == clock
      ensures this.maxRetries == maxRetries && this.requestsPerSecond == requestsPerSecond
      ensures this.retryBackoff == retryBackoff && this.retryJitter == retryJitter
      ensures attempts == 0 && lookups == [] && logCalls == []
    {
      this.provider, this.clock := provider, clock;
      this.maxRetries, this.requestsPerSecond := maxRetries, requestsPerSecond;
      minInterval := MinInterval(requestsPerSecond);
      this.retryBackoff, this.retryJitter := retryBackoff, retryJitter;
      lastRequestAt, attempts := None, 0;
      times, backoffSlept, lookups, logCalls := [], 0.0, [], [];
    }

    /** Rates outside (0, 4] are refused before a client exists. */
    static method Connect(provider: Provider, clock: Clock, maxRetries: nat, requestsPerSecond: real,
                          retryBackoff: Seconds, retryJitter: Seconds)
      returns (client: RpcClient?)
      ensures client == null <==> !(0.0 < requestsPerSecond <= 4.0)
      ensures client != null ==>
        && fresh(client) && client.Valid() && client.provider == provider && client.clock == clock
        && client.maxRetries == maxRetries && client.requestsPerSecond == requestsPerSecond
        && client.retryBackoff == retryBackoff && client.retryJitter == retryJitter && client.attempts == 0
    {
      if requestsPerSecond <= 0.0 || requestsPerSecond > 4.0 {
        return null;
      }
      client := new RpcClient(provider, clock, maxRetries, requestsPerSecond, retryBackoff, retryJitter);
    }

    /**
     Wait until the minimum interval since the last request has passed, then record this request. No wait is
     longer than the interval, and none is made when the interval has passed already.
     */
    method RateLimit()
      requires Valid()
      modifies this`lastRequestAt, this`times, this`attempts, clock
      ensures Valid()
      ensures |times| == |old(times)| + 1 && old(times) == times[..|old(times)|]
      ensures lastRequestAt == Some(clock.now) && clock.now >= old(clock.now)
      ensures 0.0 <= clock.asked - old(clock.asked) <= minInterval
      ensures old(lastRequestAt).None? || old(clock.now) - old(lastRequestAt).value >= minInterval ==>
        clock.asked == old(clock.asked)
    {
      hide Spaced, MinInterval;
      var now := clock.Monotonic();
      if lastRequestAt.Some? {
        var elapsed := now - lastRequestAt.value;
        var remaining := minInterval - elapsed;
        if remaining > 0.0 {
          clock.Sleep(remaining);
          now := clock.Monotonic();
        }
      }
      SpacedAppend(times, minInterval, now);
      lastRequestAt := Some(now);
      times := times + [now];
      attempts := attempts + 1;
    }

    /** The pause before retry number `attempt`: the base doubled each time, plus a bounded jitter. */
    method BackoffDelay(attempt: nat) returns (delay: real)
      ensures Doubled(retryBackoff, attempt) <= delay <= Doubled(retryBackoff, attempt) + retryJitter
      ensures 0.0 <= provider.JitterAt(attempts) <= retryJitter ==>
        delay == Doubled(retryBackoff, attempt) + provider.JitterAt(attempts)
    {
      var drawn := provider.JitterAt(attempts);
      var jitter := if drawn < 0.0 then 0.0 else if drawn > retryJitter then retryJitter else drawn;
      delay := Doubled(retryBackoff, attempt) + jitter;
    }

    /**
     Attempt a request until it is answered, fails in a way that must not be retried, or the retries
     run out. Returns how the last attempt ended.
     */
    method Request() returns (failure: Option<Fault>)
      requires Valid()
      modifies this`lastRequestAt, this`times, this`attempts, this`backoffSlept, clock
      ensures Valid() && old(attempts) < attempts <= old(attempts) + maxRetries + 1
      ensures old(times) == times[..|old(times)|]
      ensures failure == provider.FaultAt(attempts - 1)
      ensures forall k | old(attempts) <= k < attempts - 1 :: provider.FaultAt(k) == Some(Transient)
      ensures failure == Some(Transient) ==> attempts == old(attempts) + maxRetries + 1
      ensures failure.Some? ==> CallFails(provider, maxRetries, attempts - 1, failure.value)
      ensures var retries := attempts - old(attempts) - 1;
        BackoffTotal(retryBackoff, 0.0, retries) <= backoffSlept - old(backoffSlept)
        <= BackoffTotal(retryBackoff, retryJitter, retries)
    {
      hide Spaced;
      var attempt := 0;
      while true
        invariant Valid() && attempts == old(attempts) + attempt && attempt <= maxRetries
        invariant old(times) == times[..|old(times)|]
        invariant forall k | old(attempts) <= k < attempts :: provider.FaultAt(k) == Some(Transient)
        invariant BackoffTotal(retryBackoff, 0.0, attempt) <= backoffSlept - old(backoffSlept)
               <= BackoffTotal(retryBackoff, retryJitter, attempt)
        decreases maxRetries - attempt
      {
        RateLimit();
        failure := provider.FaultAt(attempts - 1);
        if failure.None? || failure.value.Rejected?
          || MustSplitInsteadOfRetry(failure.value) || attempt >= maxRetries
        {
          return;
        }
        var delay := BackoffDelay(attempt);
        clock.Sleep(delay);
        backoffSlept := backoffSlept + delay;
        attempt := attempt + 1;
      }
    }

    /** The time of a block by number; blocks below the provider's boundary are refused, blocks past its end unknown. */
    method GetBlockByNumber(number: nat) returns (r: Result<int, RpcError>)
      requires Valid()
      modifies this`lastRequestAt, this`times, this`attempts, this`backoffSlept, this`lookups, clock
      ensures Valid() && old(attempts) < attempts <= old(attempts) + maxRetries + 1
      ensures lookups == old(lookups) + [number]
      ensures r.Success? ==>
        r.value == provider.chain.Time(number) && provider.oldest <= number <= provider.head + provider.ahead
      ensures r.Failure? ==>
        || (r.error == Forbidden && number < provider.oldest)
        || (r.error == NoSuchBlock && provider.head + provider.ahead < number)
        || (r.error.Failed? && CallFails(provider, maxRetries, attempts - 1, r.error.fault))
      ensures provider.FaultAt(attempts - 1).Some? ==> r.Failure? && r.error.Failed?
    {
      var failure := Request();
      lookups := lookups + [number];
      if failure.Some? {
        return Failure(Failed(failure.value));
      }
      if number < provider.oldest {
        return Failure(Forbidden);
      }
      if number > provider.head + provider.ahead {
        return Failure(NoSuchBlock);
      }
      return Success(provider.chain.Time(number));
    }

    /** The finalized head's number and time, asked for by tag. */
    method GetFinalizedBlock() returns (r: Result<(nat, int), RpcError>)
      requires Valid()
      modifies this`lastRequestAt, this`times, this`attempts, this`backoffSlept, clock
      ensures Valid() && old(attempts) < attempts <= old(attempts) + maxRetries + 1
      ensures r.Success? ==> r.value == (provider.head, provider.chain.Time(provider.head))
      ensures r.Success? <==> provider.FaultAt(attempts - 1).None?
      ensures r.Failure? ==> r.error.Failed? && CallFails(provider, maxRetries, attempts - 1, r.error.fault)
    {
      var failure := Request();
      if failure.Some? {
        return Failure(Failed(failure.value));
      }
      return Success((provider.head, provider.chain.Time(provider.head)));
    }

    method GetChainId() returns (r: Result<int, RpcError>)
      requires Valid()
      modifies this`lastRequestAt, this`times, this`attempts, this`backoffSlept, clock
      ensures Valid() && old(attempts) < attempts <= old(attempts) + maxRetries + 1
      ensures r.Success? ==> r.value == provider.chainId
      ensures r.Success? <==> provider.FaultAt(attempts - 1).None?
      ensures r.Failure? ==> r.error.Failed? && CallFails(provider, maxRetries, attempts - 1, r.error.fault)
    {
      var failure := Request();
      if failure.Some? {
        return Failure(Failed(failure.value));
      }
      return Success(provider.chainId);
    }

    /** The logs of an inclusive block range; a range outside 1..10 blocks is refused without a request. */
    method GetLogs(fromBlock: nat, toBlock: nat) returns (r: Result<seq<RawLog>, RpcError>)
      requires Valid()
      modifies this`lastRequestAt, this`times, this`attempts, this`backoffSlept, this`logCalls, clock
      ensures Valid() && old(attempts) <= attempts <= old(attempts) + maxRetries + 1
      ensures logCalls == old(logCalls) + [LogCall(fromBlock, toBlock, if r.Success? then None else Some(r.error))]
      ensures r == Failure(BadRange) <==> !(1 <= toBlock - fromBlock + 1 <= 10)
      ensures r == Failure(BadRange) ==> attempts == old(attempts)
      ensures r.Success? ==> r.value == BlockLogs(provider.chain, fromBlock, toBlock + 1)
      ensures r.Failure? && r.error != BadRange ==>
        r.error.Failed? && attempts > old(attempts) && CallFails(provider, maxRetries, attempts - 1, r.error.fault)
      ensures r.Success? ==> attempts > old(attempts) && provider.FaultAt(attempts - 1).None?
    {
      if toBlock - fromBlock + 1 < 1 || toBlock - fromBlock + 1 > MAX_BLOCKS_PER_LOG_REQUEST {
        logCalls := logCalls + [LogCall(fromBlock, toBlock, Some(BadRange))];
        return Failure(BadRange);
      }
      var failure := Request();
      if failure.Some? {
        logCalls := logCalls + [LogCall(fromBlock, toBlock, Some(Failed(failure.value)))];
        return Failure(Failed(failure.value));
      }
      logCalls := logCalls + [LogCall(fromBlock, toBlock, None)];
      return Success(BlockLogs(provider.chain, fromBlock, toBlock + 1));
    }
  }
}
