/**
 From a UTC interval [start, end) to the inclusive block range that holds exactly its blocks: a
 galloping search back from the finalized head, a binary search for the provider's access boundary,
 and two lower-bound searches, all sharing one timestamp cache.
 */
module BlockRange {
  import opened Wrappers
  import opened Arithmetic
  import opened Chain
  import opened JsonRpc

  const RECENT_SEARCH_MIN_SECONDS_PER_BLOCK := 6
  const RECENT_SEARCH_SAFETY_BLOCKS := 256

  datatype RangeError =
    | NegativeBlock
    | StartNotBeforeEnd
    | NotFinalized
    | WindowTooShort
    | EmptyInterval
    | Rpc(error: RpcError)

  datatype IntervalBlockRange = IntervalBlockRange(
    start: int,
    end: int,
    finalizedNumber: nat,
    finalizedTimestamp: int,
    fromBlock: nat,
    endExclusive: nat,
    toBlock: int)

  /** The per-run cache of block timestamps. */
  class TimestampCache {
    var entries: map<nat, int>

    constructor (number: nat, timestamp: int)
      ensures entries == map[number := timestamp]
    {
      entries := map[number := timestamp];
    }
  }

  // --- What a run may know and ask ---

  /**
   From position `base` on, no block was looked up twice, and the head, known by its tag, not at all. A block that
   the provider refuses lies above all those it refused before.
   */
  ghost predicate Orderly(lookups: seq<nat>, base: nat, provider: Provider) {
    && (forall i | base <= i < |lookups| :: lookups[i] != provider.head)
    && (forall i, j | base <= i < j < |lookups| :: lookups[i] != lookups[j])
    && (forall i, j | base <= i < j < |lookups| && lookups[j] < provider.oldest ::
          lookups[i] < lookups[j] || provider.oldest <= lookups[i])
  }

  ghost predicate Usable(lookups: seq<nat>, base: nat, end: int, oldest: nat) {
    forall k | base <= k < end && k < |lookups| :: oldest <= lookups[k]
  }

  ghost predicate Later(lookups: seq<nat>, base: nat, end: int, chain: Chain, start: int) {
    forall k | base <= k < end && k < |lookups| :: start < chain.Time(lookups[k])
  }

  /** Either nothing was refused, or whatever was answered before the first refusal is later than the start. */
  ghost predicate RefusedInTime(lookups: seq<nat>, base: nat, provider: Provider, start: int) {
    exists r: nat :: base <= r <= |lookups| && Usable(lookups, base, r, provider.oldest)
      && (r < |lookups| ==> lookups[r] < provider.oldest && Later(lookups, base, r, provider.chain, start))
  }

  /**
   No block is refused any more once the lower limit is known: either a block at or before the start was answered
   and nothing had been refused until then, or the block below the provider's boundary has been refused.
   */
  lemma LimitIsKnown(lookups: seq<nat>, base: nat, provider: Provider, start: int, i: nat, j: nat)
    requires Orderly(lookups, base, provider) && RefusedInTime(lookups, base, provider, start)
    requires base <= i < j < |lookups|
    requires
      || lookups[i] + 1 == provider.oldest
      || (provider.chain.Time(lookups[i]) <= start && Usable(lookups, base, i + 1, provider.oldest))
    ensures provider.oldest <= lookups[j]
  {
    if lookups[i] + 1 != provider.oldest {
      var r: nat :| base <= r <= |lookups| && Usable(lookups, base, r, provider.oldest)
        && (r < |lookups| ==> lookups[r] < provider.oldest && Later(lookups, base, r, provider.chain, start));
      assert r < |lookups| ==> i < r;
    }
  }

  ghost predicate Accessible(provider: Provider, b: nat) {
    provider.oldest <= b || b == provider.head
  }

  /** The error is what the provider really answered to the last attempt. */
  ghost predicate Honest(client: RpcClient, e: RpcError)
    reads client
  {
    e.Failed? && CallFails(client.provider, client.maxRetries, client.attempts - 1, e.fault)
  }

  /**
   Every cache entry agrees with the chain and is usable, and every lookup made since `base` either
   filled the cache or was refused at a block below `floor`.
   */
  ghost predicate Tracked(client: RpcClient, cache: TimestampCache, base: nat, floor: nat)
    reads client, cache
  {
    && base <= |client.lookups|
    && client.provider.head in cache.entries
    && (forall b | b in cache.entries ::
          cache.entries[b] == client.provider.chain.Time(b) && Accessible(client.provider, b))
    && (forall i | base <= i < |client.lookups| ::
          client.lookups[i] in cache.entries || client.lookups[i] < floor)
    && Orderly(client.lookups, base, client.provider)
  }

  /** Since `before` at most `budget` blocks were looked up, all of them in lo..hi. */
  ghost predicate Asked(before: seq<nat>, after: seq<nat>, lo: int, hi: int, budget: int) {
    && |before| <= |after| <= |before| + budget
    && before == after[..|before|]
    && forall i | |before| <= i < |after| :: lo <= after[i] <= hi
  }

  /** A probe of the middle of left..right stays within what halving the range allows. */
  lemma ProbeMiddle(before: seq<nat>, middle: seq<nat>, after: seq<nat>,
                    lo: int, hi: int, left: int, right: int, budget: int)
    requires lo <= left <= right <= hi && 0 <= lo
    requires Asked(before, middle, lo, hi, budget - Halvings(right - left + 1))
    requires after == middle || after == middle + [Middle(left, right)]
    ensures Asked(before, after, lo, hi, budget)
    ensures Asked(before, after, lo, hi, budget - Halvings(Middle(left, right) - left))
    ensures Asked(before, after, lo, hi, budget - Halvings(right - Middle(left, right)))
  {
    ProbeHalves(left, right);
  }

  lemma NothingAsked(lookups: seq<nat>, lo: int, hi: int, budget: nat)
    ensures Asked(lookups, lookups, lo, hi, budget)
    ensures Halvings(0) == 0
  {
  }

  lemma AskedThen(before: seq<nat>, middle: seq<nat>, after: seq<nat>,
                  lo: int, hi: int, budget: int, lo': int, hi': int, budget': int)
    requires Asked(before, middle, lo, hi, budget) && Asked(middle, after, lo', hi', budget')
    requires lo <= lo' && hi' <= hi
    ensures Asked(before, after, lo, hi, budget + budget')
  {
  }

  lemma AskedExtends(before: seq<nat>, after: seq<nat>, lo: int, hi: int, budget: int)
    requires Asked(before, after, lo, hi, budget)
    ensures before <= after
  {
  }

  lemma AskedWithin(before: seq<nat>, after: seq<nat>, lo: int, hi: int, used: int, budget: int)
    requires Asked(before, after, lo, hi, used) && used <= budget
    ensures Asked(before, after, lo, hi, budget)
  {
  }

  lemma AskedMore(before: seq<nat>, middle: seq<nat>, after: seq<nat>, lo: int, hi: int, used: int, budget: int,
                  number: nat)
    requires Asked(before, middle, lo, hi, used) && lo <= number <= hi && used < budget
    requires after == middle || after == middle + [number]
    ensures Asked(before, after, lo, hi, used + 1) && Asked(before, after, lo, hi, budget)
  {
  }

  // --- The searches ---

  /** A block's timestamp, from the cache when it is there and from the provider otherwise. */
  method BlockTimestamp(client: RpcClient, number: nat, cache: TimestampCache, ghost base: nat, ghost floor: nat)
    returns (r: Result<int, RpcError>)
    requires client.Valid() && Tracked(client, cache, base, floor)
    requires floor <= number || number in cache.entries
    modifies client, client.clock, cache
    ensures client.Valid()
    ensures Orderly(client.lookups, base, client.provider)
    ensures client.lookups ==
      if number in old(cache.entries) then old(client.lookups) else old(client.lookups) + [number]
    ensures r.Success? ==>
      && Tracked(client, cache, base, floor)
      && r.value == client.provider.chain.Time(number)
      && number in cache.entries
      && Accessible(client.provider, number)
    ensures r.Failure? ==> number !in cache.entries
    ensures old(cache.entries.Keys) <= cache.entries.Keys
    ensures r == Failure(Forbidden) ==>
      && number < client.provider.oldest && !Accessible(client.provider, number)
      && Tracked(client, cache, base, number + 1)
    ensures r == Failure(NoSuchBlock) ==> client.provider.head + client.provider.ahead < number
    ensures r.Failure? && r.error != Forbidden && r.error != NoSuchBlock ==> Honest(client, r.error)
  {
    if number !in cache.entries {
      var answer := client.GetBlockByNumber(number);
      if answer.Failure? {
        return answer;
      }
      cache.entries := cache.entries[number := answer.value];
    }
    r := Success(cache.entries[number]);
  }

  /** Block b is the first of low..high at or after the target, or high + 1 when there is none. */
  ghost predicate IsLowerBound(chain: Chain, target: int, low: nat, high: nat, b: int) {
    && low <= b <= high + 1
    && (forall k: nat | low <= k < b :: chain.Time(k) < target)
    && (b <= high ==> target <= chain.Time(b))
  }

  /** What the search knows: the blocks next to left..right lie on the right sides of the target. */
  ghost predicate Narrowed(chain: Chain, target: int, low: nat, high: nat, left: int, right: int) {
    && low <= left <= right + 1 <= high + 1
    && (left == low || chain.Time(left - 1) < target)
    && (right == high || target <= chain.Time(right + 1))
  }

  lemma NarrowedStart(chain: Chain, target: int, low: nat, high: nat)
    requires low <= high
    ensures Narrowed(chain, target, low, high, low, high)
  {
  }

  lemma NarrowedStep(chain: Chain, target: int, low: nat, high: nat, left: int, right: int, mid: nat)
    requires Narrowed(chain, target, low, high, left, right) && left <= mid <= right
    ensures chain.Time(mid) < target ==> Narrowed(chain, target, low, high, mid + 1, right)
    ensures chain.Time(mid) >= target ==> Narrowed(chain, target, low, high, left, mid - 1)
  {
  }

  lemma NarrowedToOne(chain: Chain, target: int, low: nat, high: nat, b: nat)
    requires StrictlyIncreasing(chain) && Narrowed(chain, target, low, high, b, b - 1)
    ensures IsLowerBound(chain, target, low, high, b)
  {
    forall k: nat | low <= k < b ensures chain.Time(k) < target {
      assert k == b - 1 || chain.Time(k) < chain.Time(b - 1);
    }
  }

  /** The binary search itself: the first block of low..high at or after the target, high + 1 when there is none. */
  method LowerBound(client: RpcClient, target: int, low: nat, high: nat, cache: TimestampCache,
                    ghost base: nat, ghost floor: nat)
    returns (r: Result<int, RpcError>)
    requires client.Valid() && Tracked(client, cache, base, floor)
    requires floor <= low <= high
    requires StrictlyIncreasing(client.provider.chain)
    modifies client, client.clock, cache
    ensures client.Valid()
    ensures r.Success? ==>
      Tracked(client, cache, base, floor) && IsLowerBound(client.provider.chain, target, low, high, r.value)
    ensures r.Failure? ==> Honest(client, r.error) || RefusedInside(client.provider, low, high, r.error)
    ensures Orderly(client.lookups, base, client.provider)
    ensures Asked(old(client.lookups), client.lookups, low, high, Halvings(high - low + 1))
  {
    hide *;
    NothingAsked(client.lookups, low, high, 0);
    TrackedOrderly(client, cache, base, floor);
    ghost var chain := client.provider.chain;
    ghost var size := Halvings(high - low + 1);
    var left, right, result := low as int, high as int, high + 1;
    NarrowedStart(chain, target, low, high);
    while left <= right
      invariant client.Valid()
      invariant Tracked(client, cache, base, floor)
      invariant low <= left <= right + 1 <= high + 1 && result == right + 1
      invariant Narrowed(chain, target, low, high, left, right)
      invariant Asked(old(client.lookups), client.lookups, low, high, size - Halvings(right - left + 1))
      decreases right - left
    {
      var mid := Middle(left, right);
      ghost var before := client.lookups;
      var answer := BlockTimestamp(client, mid, cache, base, floor);
      ProbeMiddle(old(client.lookups), before, client.lookups, low, high, left, right, size);
      if answer.Failure? {
        if answer.error == Forbidden || answer.error == NoSuchBlock {
          RefusedAt(client.provider, low, high, mid, answer.error);
        }
        return answer;
      }
      NarrowedStep(chain, target, low, high, left, right, mid);
      if answer.value >= target {
        result := mid;
        right := mid - 1;
      } else {
        left := mid + 1;
      }
    }
    TrackedOrderly(client, cache, base, floor);
    NarrowedToOne(chain, target, low, high, left);
    return Success(result);
  }

  /** A refusal that comes from a block of low..high which is not usable, or not there yet. */
  ghost predicate RefusedInside(provider: Provider, low: nat, high: nat, e: RpcError) {
    || (e == Forbidden && exists b: nat :: low <= b <= high && !Accessible(provider, b))
    || (e == NoSuchBlock && provider.head + provider.ahead < high)
  }

  lemma RefusedAt(provider: Provider, low: nat, high: nat, b: nat, e: RpcError)
    requires low <= b <= high
    requires (e == Forbidden && !Accessible(provider, b)) || (e == NoSuchBlock && provider.head + provider.ahead < b)
    ensures RefusedInside(provider, low, high, e)
  {
  }

  /** The first block of low..high at or after the target, with the source's checks of its arguments. */
  method FindFirstBlockAtOrAfter(client: RpcClient, target: int, low: int, high: int, cache: TimestampCache,
                                 ghost base: nat, ghost floor: nat)
    returns (r: Result<nat, RangeError>)
    requires client.Valid() && Tracked(client, cache, base, floor)
    requires 0 <= low ==> floor <= low
    requires StrictlyIncreasing(client.provider.chain)
    modifies client, client.clock, cache
    ensures client.Valid()
    ensures r == Failure(NegativeBlock) <==> low < 0 || high < 0
    ensures r.Success? ==> Tracked(client, cache, base, floor)
    ensures r.Success? && low > high ==> r.value == high + 1
    ensures r.Success? && low <= high ==>
      IsLowerBound(client.provider.chain, target, low, high, r.value)
    ensures r.Failure? ==>
      || r.error == NegativeBlock
      || (r.error.Rpc? && 0 <= low <= high
          && (Honest(client, r.error.error) || RefusedInside(client.provider, low, high, r.error.error)))
    ensures Orderly(client.lookups, base, client.provider)
    ensures Asked(old(client.lookups), client.lookups, low, high,
                  if 0 <= low <= high then Halvings(high - low + 1) else 0)
  {
    if high < 0 || low < 0 {
      return Failure(NegativeBlock);
    }
    if low > high {
      return Success(high + 1);
    }
    hide Chain.Time, Tracked, Orderly, StrictlyIncreasing, Asked, Halvings, Middle, RpcClient.Valid, RefusedInside,
         IsLowerBound;
    var answer := LowerBound(client, target, low, high, cache, base, floor);
    r := if answer.Success? then Success(answer.value) else Failure(Rpc(answer.error));
  }

  lemma UsableOrHead(provider: Provider, b: nat)
    ensures Accessible(provider, b) <==> provider.oldest <= b || b == provider.head
  {
  }

  lemma TrackedOrderly(client: RpcClient, cache: TimestampCache, base: nat, floor: nat)
    requires Tracked(client, cache, base, floor)
    ensures Orderly(client.lookups, base, client.provider) && client.provider.head in cache.entries
    ensures forall b | b in cache.entries :: Accessible(client.provider, b)
    ensures forall floor': nat | floor <= floor' :: Tracked(client, cache, base, floor')
  {
  }

  /** The oldest usable block above a refused one: the provider's boundary, or the head if nothing older is usable. */
  method FindOldestAccessibleBlock(client: RpcClient, failedLow: nat, knownOk: nat, cache: TimestampCache,
                                   ghost base: nat)
    returns (r: Result<nat, RpcError>)
    requires client.Valid() && Tracked(client, cache, base, failedLow + 1)
    requires failedLow < knownOk <= client.provider.head && knownOk in cache.entries
    requires failedLow < client.provider.oldest
    modifies client, client.clock, cache
    ensures client.Valid()
    ensures r.Success? ==>
      && r.value == (if client.provider.oldest <= knownOk then client.provider.oldest else knownOk)
      && r.value in cache.entries
      && Tracked(client, cache, base, r.value)
    ensures r.Failure? ==> Honest(client, r.error)
    ensures Orderly(client.lookups, base, client.provider)
    ensures old(cache.entries.Keys) <= cache.entries.Keys
    ensures Asked(old(client.lookups), client.lookups, failedLow + 1, knownOk, Halvings(knownOk - failedLow))
  {
    hide *;
    NothingAsked(client.lookups, failedLow + 1, knownOk, 0);
    TrackedOrderly(client, cache, base, failedLow + 1);
    ghost var size := Halvings(knownOk - failedLow);
    var left: nat, right: int, oldestOk: nat := failedLow + 1, knownOk, knownOk;
    while left <= right
      invariant client.Valid()
      invariant Tracked(client, cache, base, left)
      invariant failedLow < left <= right + 1 && left <= oldestOk <= knownOk
      invariant oldestOk == right + 1 || oldestOk == right == knownOk
      invariant oldestOk in cache.entries && Accessible(client.provider, oldestOk) && left <= client.provider.oldest
      invariant old(cache.entries.Keys) <= cache.entries.Keys
      invariant Asked(old(client.lookups), client.lookups, failedLow + 1, knownOk, size - Halvings(right - left + 1))
      decreases right - left
    {
      var mid := Middle(left, right);
      ghost var before := client.lookups;
      var answer := BlockTimestamp(client, mid, cache, base, left);
      ProbeMiddle(old(client.lookups), before, client.lookups, failedLow + 1, knownOk, left, right, size);
      if answer.Success? {
        oldestOk := mid;
        right := mid - 1;
      } else if answer.error == Forbidden {
        left := mid + 1;
      } else {
        return Failure(answer.error);
      }
    }
    TrackedOrderly(client, cache, base, left);
    UsableOrHead(client.provider, oldestOk);
    return Success(oldestOk);
  }

  // --- The galloping search for a lower limit ---

  /** What the search for a lower limit must deliver when it succeeds. */
  ghost predicate GoodLowBlock(provider: Provider, target: int, high: nat, low: nat) {
    && low <= high
    && (provider.chain.Time(low) <= target || low == 0)
    && Accessible(provider, low)
  }

  /** Where the gallop stands after `steps` doublings: the newest block it knows is still too late. */
  ghost predicate Galloping(provider: Provider, target: int, high: nat, newestOk: nat, step: nat, steps: nat) {
    && step == Pow(2, steps)
    && newestOk <= high && target < provider.chain.Time(newestOk)
    && (if steps == 0 then newestOk == high else newestOk == high - step / 2 && newestOk > 0)
  }

  /**
   The provider refuses some block, and its oldest block is later than the target. A head that is
   block 0 needs no numeric lookup, so then nothing is out of the window.
   */
  ghost predicate OutOfWindow(provider: Provider, target: int) {
    0 < provider.head && 0 < provider.oldest && target < provider.chain.Time(provider.oldest)
  }

  lemma GallopStart(provider: Provider, target: int, high: nat)
    requires target < provider.chain.Time(high)
    ensures Galloping(provider, target, high, high, 1, 0)
  {
  }

  /** A gallop step never leaves the last 2 * depth blocks, and few steps are ever needed. */
  lemma GallopReach(provider: Provider, target: int, high: nat, newestOk: nat, step: nat, steps: nat)
    requires StrictlyIncreasing(provider.chain) && Galloping(provider, target, high, newestOk, step, steps)
    ensures var depth := Depth(provider.chain, high, target);
      && 0 < depth
      && step > 0 && target < provider.chain.Time(newestOk)
      && high - step > high - 2 * depth
      && newestOk - (high - step) <= depth
      && (high > 0 ==> high - step < newestOk)
      && steps <= Halvings(depth)
  {
    DepthSplits(provider.chain, high, target, newestOk);
    PowPositive(2, steps);
    if steps > 0 {
      assert Pow(2, steps) == 2 * Pow(2, steps - 1);
      Log2Bound(steps - 1, Depth(provider.chain, high, target));
    }
  }

  lemma GallopOn(provider: Provider, target: int, high: nat, newestOk: nat, step: nat, steps: nat, candidate: nat)
    requires Galloping(provider, target, high, newestOk, step, steps)
    requires candidate == high - step && candidate > 0 && target < provider.chain.Time(candidate)
    ensures Galloping(provider, target, high, candidate, 2 * step, steps + 1)
  {
  }

  lemma LowBlockFound(provider: Provider, target: int, high: nat, low: nat)
    requires low <= high && Accessible(provider, low)
    requires provider.chain.Time(low) <= target || low == 0
    ensures GoodLowBlock(provider, target, high, low)
  {
  }

  /**
   What the gallop does when block `refused` is forbidden: find the provider's boundary, and give up when even
   that block is later than the target.
   */
  method AtBoundary(client: RpcClient, target: int, refused: nat, newestKnownOk: nat, cache: TimestampCache,
                    ghost base: nat, ghost before: seq<nat>, ghost lo: int, ghost high: nat, ghost used: nat)
    returns (r: Result<nat, RangeError>)
    requires client.Valid() && Tracked(client, cache, base, refused + 1)
    requires StrictlyIncreasing(client.provider.chain)
    requires refused < newestKnownOk <= high == client.provider.head && newestKnownOk in cache.entries
    requires Asked(before, client.lookups, lo, high, used) && lo <= refused
    requires refused < client.provider.oldest && target < client.provider.chain.Time(newestKnownOk)
    modifies client, client.clock, cache
    ensures client.Valid() && Orderly(client.lookups, base, client.provider) && old(client.lookups) <= client.lookups
    ensures r.Success? ==>
      && GoodLowBlock(client.provider, target, high, r.value)
      && refused < r.value
      && Tracked(client, cache, base, r.value)
    ensures r.Failure? ==>
      || (r.error.Rpc? && Honest(client, r.error.error))
      || (r.error == WindowTooShort && OutOfWindow(client.provider, target))
    ensures Asked(before, client.lookups, lo, high, used + Halvings(newestKnownOk - refused))
  {
    hide *;
    ghost var middle := client.lookups;
    var boundary := FindOldestAccessibleBlock(client, refused, newestKnownOk, cache, base);
    AskedThen(before, middle, client.lookups, lo, high, used,
              refused + 1, newestKnownOk, Halvings(newestKnownOk - refused));
    AskedExtends(middle, client.lookups, refused + 1, newestKnownOk, Halvings(newestKnownOk - refused));
    if boundary.Failure? {
      return Failure(Rpc(boundary.error));
    }
    var oldest := boundary.value;
    var answer := BlockTimestamp(client, oldest, cache, base, oldest);
    assert answer.Success?;
    BoundaryDecides(client.provider, target, newestKnownOk, high, oldest);
    if answer.value > target {
      return Failure(WindowTooShort);
    }
    return Success(oldest);
  }

  lemma BoundaryDecides(provider: Provider, target: int, newestOk: nat, high: nat, oldest: nat)
    requires StrictlyIncreasing(provider.chain) && target < provider.chain.Time(newestOk)
    requires oldest == (if provider.oldest <= newestOk then provider.oldest else newestOk) && 0 < provider.oldest
    requires Accessible(provider, oldest) && newestOk <= high && 0 < provider.head
    ensures if provider.chain.Time(oldest) > target then OutOfWindow(provider, target)
            else GoodLowBlock(provider, target, high, oldest)
  {
    assert newestOk < provider.oldest ==> provider.chain.Time(newestOk) < provider.chain.Time(provider.oldest);
  }

  /** Until the gallop meets its target or a refusal, everything it was told is later than the target. */
  ghost predicate AllLater(lookups: seq<nat>, base: nat, provider: Provider, target: int) {
    && base <= |lookups|
    && Usable(lookups, base, |lookups|, provider.oldest) && Later(lookups, base, |lookups|, provider.chain, target)
  }

  lemma NothingRefused(lookups: seq<nat>, provider: Provider, target: int)
    ensures AllLater(lookups, |lookups|, provider, target) && RefusedInTime(lookups, |lookups|, provider, target)
  {
    assert Usable(lookups, |lookups|, |lookups|, provider.oldest);
  }

  lemma LookupAnswered(middle: seq<nat>, after: seq<nat>, base: nat, provider: Provider, target: int, number: nat)
    requires AllLater(middle, base, provider, target) && Accessible(provider, number)
    requires after == middle || after == middle + [number]
    requires Orderly(after, base, provider)
    ensures RefusedInTime(after, base, provider, target)
    ensures target < provider.chain.Time(number) ==> AllLater(after, base, provider, target)
  {
    assert after == middle + [number] ==> after[|middle|] == number;
    assert Usable(after, base, |after|, provider.oldest);
  }

  lemma FirstRefused(middle: seq<nat>, refused: seq<nat>, after: seq<nat>, base: nat, provider: Provider, target: int,
                     number: nat)
    requires AllLater(middle, base, provider, target) && refused == middle + [number] && refused <= after
    requires number < provider.oldest
    ensures RefusedInTime(after, base, provider, target)
  {
    assert middle <= after && after[|middle|] == number;
    assert Usable(after, base, |middle|, provider.oldest);
  }

  lemma LastFailed(middle: seq<nat>, after: seq<nat>, base: nat, provider: Provider, target: int, number: nat)
    requires AllLater(middle, base, provider, target) && after == middle + [number]
    ensures RefusedInTime(after, base, provider, target)
  {
    if number < provider.oldest {
      FirstRefused(middle, after, after, base, provider, target, number);
    } else {
      assert Usable(after, base, |after|, provider.oldest);
    }
  }

  /** Usable lookups do not disturb that. */
  lemma RefusedInTimeStill(gallop: seq<nat>, after: seq<nat>, base: nat, provider: Provider, target: int)
    requires RefusedInTime(gallop, base, provider, target) && gallop <= after
    requires forall i | |gallop| <= i < |after| :: provider.oldest <= after[i]
    ensures RefusedInTime(after, base, provider, target)
  {
    var r: nat :| base <= r <= |gallop| && Usable(gallop, base, r, provider.oldest)
      && (r < |gallop| ==> gallop[r] < provider.oldest && Later(gallop, base, r, provider.chain, target));
    if r < |gallop| {
      assert Usable(after, base, r, provider.oldest) && Later(after, base, r, provider.chain, target);
    } else {
      assert Usable(after, base, |after|, provider.oldest);
    }
  }

  /**
   Gallop back from the head by 1, 2, 4, ... blocks until a block at or before the target (or block 0)
   is found. When the provider refuses a block, fall back to its access boundary.
   */
  method FindSearchLowBlock(client: RpcClient, target: int, high: nat, highTimestamp: int, cache: TimestampCache,
                            ghost base: nat)
    returns (r: Result<nat, RangeError>)
    requires client.Valid() && Tracked(client, cache, base, 0)
    requires StrictlyIncreasing(client.provider.chain)
    requires high == client.provider.head && highTimestamp == client.provider.chain.Time(high)
    requires base == |client.lookups|
    modifies client, client.clock, cache
    ensures client.Valid() && Orderly(client.lookups, base, client.provider)
    ensures r.Success? ==>
      GoodLowBlock(client.provider, target, high, r.value) && Tracked(client, cache, base, r.value)
    ensures r.Success? && target < highTimestamp ==> high - r.value < 2 * Depth(client.provider.chain, high, target)
    ensures RefusedInTime(client.lookups, base, client.provider, target)
    ensures r.Failure? ==>
      || (r.error.Rpc? && Honest(client, r.error.error))
      || (r.error == WindowTooShort && OutOfWindow(client.provider, target))
    ensures var depth := Depth(client.provider.chain, high, target);
      Asked(old(client.lookups), client.lookups, high - 2 * depth + 1, high, 2 * Halvings(depth) + 1)
  {
    hide *;
    TrackedOrderly(client, cache, base, 0);
    ghost var depth := Depth(client.provider.chain, high, target);
    ghost var lo, budget := high - 2 * depth + 1, 2 * Halvings(depth) + 1;
    ghost var before := client.lookups;
    NothingRefused(before, client.provider, target);
    if highTimestamp <= target {
      LowBlockFound(client.provider, target, high, high);
      NothingAsked(client.lookups, lo, high, budget);
      return Success(high);
    }
    NothingAsked(client.lookups, lo, high, 0);
    GallopStart(client.provider, target, high);
    var newestKnownOk: nat, step: nat := high, 1;
    ghost var steps: nat := 0;
    while true
      invariant client.Valid() && Tracked(client, cache, base, 0)
      invariant newestKnownOk in cache.entries && newestKnownOk <= high
      invariant Galloping(client.provider, target, high, newestKnownOk, step, steps)
      invariant steps > 0 ==> step < 2 * high
      invariant Asked(before, client.lookups, lo, high, steps)
      invariant AllLater(client.lookups, base, client.provider, target)
      decreases 2 * high - step
    {
      GallopReach(client.provider, target, high, newestKnownOk, step, steps);
      var candidate: nat := if high - step > 0 then high - step else 0;
      ghost var asked := client.lookups;
      var answer := BlockTimestamp(client, candidate, cache, base, 0);
      AskedMore(before, asked, client.lookups, lo, high, steps, budget, candidate);
      if answer.Failure? {
        if answer.error == Forbidden {
          HalvingsMonotone(newestKnownOk - candidate, depth);
          ghost var refused := client.lookups;
          r := AtBoundary(client, target, candidate, newestKnownOk, cache, base, before, lo, high, steps + 1);
          AskedWithin(before, client.lookups, lo, high, steps + 1 + Halvings(newestKnownOk - candidate), budget);
          FirstRefused(asked, refused, client.lookups, base, client.provider, target, candidate);
        } else {
          LastFailed(asked, client.lookups, base, client.provider, target, candidate);
          r := Failure(Rpc(answer.error));
        }
        return;
      }
      LookupAnswered(asked, client.lookups, base, client.provider, target, candidate);
      ghost var previous := newestKnownOk;
      newestKnownOk := candidate;
      if answer.value <= target || candidate == 0 {
        LowBlockFound(client.provider, target, high, candidate);
        TrackedOrderly(client, cache, base, 0);
        return Success(candidate);
      }
      GallopOn(client.provider, target, high, previous, step, steps, candidate);
      step, steps := 2 * step, steps + 1;
    }
  }

  // --- Resolving an interval ---

  /** The interval is one, and the finalized head has reached its end. */
  ghost predicate Ready(provider: Provider, start: int, end: int) {
    start < end <= provider.chain.Time(provider.head)
  }

  /** What each result of a resolve run means; Rpc errors carry their own account. */
  ghost predicate Resolves(provider: Provider, start: int, end: int, r: Result<IntervalBlockRange, RangeError>) {
    match r
    case Success(v) =>
      && Ready(provider, start, end) && !OutOfWindow(provider, start)
      && v.start == start && v.end == end
      && v.finalizedNumber == provider.head && v.finalizedTimestamp == provider.chain.Time(provider.head)
      && FirstAtOrAfter(provider.chain, start, v.fromBlock)
      && FirstAtOrAfter(provider.chain, end, v.endExclusive)
      && v.toBlock == v.endExclusive - 1 && v.fromBlock <= v.toBlock
    case Failure(StartNotBeforeEnd) => end <= start
    case Failure(NotFinalized) => start < end && provider.chain.Time(provider.head) < end
    case Failure(WindowTooShort) => Ready(provider, start, end) && OutOfWindow(provider, start)
    case Failure(EmptyInterval) =>
      && Ready(provider, start, end) && !OutOfWindow(provider, start)
      && forall b: nat :: !(start <= provider.chain.Time(b) < end)
    case Failure(NegativeBlock) => false
    case Failure(Rpc(_)) => true
  }

  /**
   Everything a resolve run may have asked the provider: recent blocks only, few of them, none twice, and each
   refused one above all that were refused before.
   */
  ghost predicate FrugalLookups(provider: Provider, start: int, before: seq<nat>, after: seq<nat>) {
    var depth := Depth(provider.chain, provider.head, start);
    && |before| <= |after| && before == after[..|before|]
    && Orderly(after, |before|, provider) && RefusedInTime(after, |before|, provider, start)
    && (forall i | |before| <= i < |after| :: after[i] <= provider.head && provider.head - after[i] < 2 * depth)
    && |after| - |before| <= 4 * Log2(provider.head + 1) + 5
    && (depth > 0 ==> |after| - |before| <= 4 * Log2(depth) + 7)
  }

  // The three ways a run can have left the provider alone, or asked it, before it ends.

  lemma NoLookups(provider: Provider, start: int, before: seq<nat>)
    ensures FrugalLookups(provider, start, before, before)
  {
    NothingRefused(before, provider, start);
  }

  lemma LookupsOfGallop(provider: Provider, start: int, before: seq<nat>, after: seq<nat>)
    requires Orderly(after, |before|, provider) && RefusedInTime(after, |before|, provider, start)
    requires var depth := Depth(provider.chain, provider.head, start);
      Asked(before, after, provider.head - 2 * depth + 1, provider.head, 2 * Halvings(depth) + 1)
    ensures FrugalLookups(provider, start, before, after)
  {
    var depth := Depth(provider.chain, provider.head, start);
    HalvingsMonotone(depth, provider.head + 1);
  }

  lemma LookupsOfSearches(provider: Provider, start: int, before: seq<nat>, gallop: seq<nat>, first: seq<nat>,
                          after: seq<nat>, low: nat, from: nat)
    requires StrictlyIncreasing(provider.chain) && start < provider.chain.Time(provider.head)
    requires GoodLowBlock(provider, start, provider.head, low) && low <= from <= provider.head
    requires Orderly(after, |before|, provider) && RefusedInTime(gallop, |before|, provider, start)
    requires var depth := Depth(provider.chain, provider.head, start);
      && provider.head - low < 2 * depth
      && Asked(before, gallop, provider.head - 2 * depth + 1, provider.head, 2 * Halvings(depth) + 1)
    requires Asked(gallop, first, low, provider.head, Halvings(provider.head - low + 1))
    requires Asked(first, after, from, provider.head, Halvings(provider.head - from + 1))
    ensures FrugalLookups(provider, start, before, after)
  {
    hide Asked, Orderly, RefusedInTime, GoodLowBlock, StrictlyIncreasing, Depth;
    var depth := Depth(provider.chain, provider.head, start);
    var wide := Halvings(provider.head - low + 1);
    DepthSplits(provider.chain, provider.head, start, provider.head);
    HalvingsMonotone(provider.head - from + 1, provider.head - low + 1);
    AskedWithin(first, after, from, provider.head, Halvings(provider.head - from + 1), wide);
    AskedThen(gallop, first, after, low, provider.head, wide, from, provider.head, wide);
    AskedJoin(before, gallop, after, provider.head - 2 * depth + 1, low, provider.head, 2 * Halvings(depth) + 1,
              2 * wide);
    SearchesAccessible(provider, start, before, gallop, after, low, wide);
    AskedExtends(gallop, after, low, provider.head, 2 * wide);
    RefusedInTimeStill(gallop, after, |before|, provider, start);
    LookupBudget(provider.head, depth, provider.head - low + 1);
    FrugalFrom(provider, start, before, after, 2 * Halvings(depth) + 1 + 2 * wide);
  }

  lemma LookupBudget(head: nat, depth: nat, n: nat)
    requires 0 < depth <= head + 1 && n <= head + 1 && n <= 2 * depth
    ensures 2 * Halvings(depth) + 1 + 2 * Halvings(n) <= 4 * Log2(head + 1) + 5
    ensures 2 * Halvings(depth) + 1 + 2 * Halvings(n) <= 4 * Log2(depth) + 7
  {
    Log2Monotone(depth, head + 1);
    HalvingsMonotone(n, head + 1);
    HalvingsMonotone(n, 2 * depth);
  }

  lemma SearchesAccessible(provider: Provider, start: int, before: seq<nat>, gallop: seq<nat>, after: seq<nat>,
                           low: nat, wide: nat)
    requires GoodLowBlock(provider, start, provider.head, low)
    requires |before| <= |gallop| && Orderly(after, |before|, provider)
    requires Asked(gallop, after, low, provider.head, 2 * wide)
    ensures forall i | |gallop| <= i < |after| :: provider.oldest <= after[i]
  {
    forall i | |gallop| <= i < |after| ensures provider.oldest <= after[i] {
      assert low <= after[i] <= provider.head && after[i] != provider.head;
    }
  }

  lemma FrugalFrom(provider: Provider, start: int, before: seq<nat>, after: seq<nat>, budget: nat)
    requires Orderly(after, |before|, provider) && RefusedInTime(after, |before|, provider, start)
    requires var depth := Depth(provider.chain, provider.head, start);
      && Asked(before, after, provider.head - 2 * depth + 1, provider.head, budget)
      && budget <= 4 * Log2(provider.head + 1) + 5
      && (depth > 0 ==> budget <= 4 * Log2(depth) + 7)
    ensures FrugalLookups(provider, start, before, after)
  {
  }

  lemma AskedJoin(before: seq<nat>, middle: seq<nat>, after: seq<nat>, lo: int, lo': int, hi: int, budget: nat,
                  budget': nat)
    requires Asked(before, middle, lo, hi, budget) && Asked(middle, after, lo', hi, budget') && lo <= lo'
    ensures Asked(before, after, lo, hi, budget + budget') && |before| <= |middle| <= |after|
  {
    AskedThen(before, middle, after, lo, hi, budget, lo', hi, budget');
  }

  lemma RefusalImpossible(provider: Provider, target: int, low: nat, from: nat, e: RpcError)
    requires GoodLowBlock(provider, target, provider.head, low) && low <= from
    ensures !RefusedInside(provider, from, provider.head, e)
  {
  }

  /** The first search returns a block of the chain, and the first one at or after the start. */
  lemma StartFound(provider: Provider, start: int, end: int, low: nat, from: nat)
    requires StrictlyIncreasing(provider.chain) && Ready(provider, start, end)
    requires GoodLowBlock(provider, start, provider.head, low)
    requires IsLowerBound(provider.chain, start, low, provider.head, from)
    ensures from <= provider.head && FirstAtOrAfter(provider.chain, start, from) && !OutOfWindow(provider, start)
  {
    forall k: nat | k < from ensures provider.chain.Time(k) < start {
      assert k < low ==> provider.chain.Time(k) < provider.chain.Time(low);
    }
    assert provider.oldest < low ==> provider.chain.Time(provider.oldest) < provider.chain.Time(low);
  }

  lemma RangeFound(provider: Provider, start: int, end: int, low: nat, from: nat, endExclusive: nat)
    requires StrictlyIncreasing(provider.chain) && Ready(provider, start, end)
    requires GoodLowBlock(provider, start, provider.head, low)
    requires IsLowerBound(provider.chain, start, low, provider.head, from)
    requires IsLowerBound(provider.chain, end, from, provider.head, endExclusive)
    ensures Resolves(provider, start, end,
      if from > endExclusive - 1 then Failure(EmptyInterval)
      else Success(IntervalBlockRange(start, end, provider.head, provider.chain.Time(provider.head),
                                      from, endExclusive, endExclusive - 1)))
  {
    StartFound(provider, start, end, low, from);
    forall k: nat | k < endExclusive ensures provider.chain.Time(k) < end {
      assert k < from ==> provider.chain.Time(k) < start;
    }
    assert FirstAtOrAfter(provider.chain, end, endExclusive);
    if endExclusive <= from {
      forall b: nat ensures !(start <= provider.chain.Time(b) < end) {
        assert b > endExclusive ==> provider.chain.Time(endExclusive) < provider.chain.Time(b);
      }
    }
  }

  lemma CacheStarts(client: RpcClient, cache: TimestampCache)
    requires cache.entries == map[client.provider.head := client.provider.chain.Time(client.provider.head)]
    ensures Tracked(client, cache, |client.lookups|, 0)
  {
  }

  method ResolveIntervalBlockRange(client: RpcClient, start: int, end: int)
    returns (r: Result<IntervalBlockRange, RangeError>)
    requires client.Valid() && StrictlyIncreasing(client.provider.chain)
    modifies client, client.clock
    ensures client.Valid()
    ensures Resolves(client.provider, start, end, r)
    ensures r.Failure? && r.error.Rpc? ==> Honest(client, r.error.error)
    ensures FrugalLookups(client.provider, start, old(client.lookups), client.lookups)
  {
    hide RpcClient.Valid, StrictlyIncreasing, Chain.Time, Tracked, FrugalLookups, FirstAtOrAfter, OutOfWindow,
         CallFails;
    ghost var before := client.lookups;
    NoLookups(client.provider, start, before);
    if start >= end {
      return Failure(StartNotBeforeEnd);
    }
    var finalized := client.GetFinalizedBlock();
    if finalized.Failure? {
      return Failure(Rpc(finalized.error));
    }
    var (number, timestamp) := finalized.value;
    if timestamp < end {
      return Failure(NotFinalized);
    }
    var cache := new TimestampCache(number, timestamp);
    CacheStarts(client, cache);
    r := ResolveReady(client, start, end, number, timestamp, cache);
  }

  /** The part of a resolve run that follows the finality check. */
  method ResolveReady(client: RpcClient, start: int, end: int, number: nat, timestamp: int, cache: TimestampCache)
    returns (r: Result<IntervalBlockRange, RangeError>)
    requires client.Valid() && StrictlyIncreasing(client.provider.chain)
    requires number == client.provider.head && timestamp == client.provider.chain.Time(number)
    requires Ready(client.provider, start, end) && start < timestamp
    requires Tracked(client, cache, |client.lookups|, 0)
    modifies client, client.clock, cache
    ensures client.Valid()
    ensures Resolves(client.provider, start, end, r)
    ensures r.Failure? && r.error.Rpc? ==> Honest(client, r.error.error)
    ensures FrugalLookups(client.provider, start, old(client.lookups), client.lookups)
  {
    hide RpcClient.Valid, StrictlyIncreasing, Chain.Time, Tracked, FrugalLookups, RefusedInTime, Orderly, Asked, Depth,
         Halvings, FirstAtOrAfter, OutOfWindow, RefusedInside, CallFails, Accessible;
    ghost var before := client.lookups;
    var low := FindSearchLowBlock(client, start, number, timestamp, cache, |before|);
    ghost var gallop := client.lookups;
    LookupsOfGallop(client.provider, start, before, gallop);
    if low.Failure? {
      return Failure(low.error);
    }
    var from := FindFirstBlockAtOrAfter(client, start, low.value, number, cache, |before|, low.value);
    ghost var first := client.lookups;
    if from.Failure? {
      NothingAsked(first, low.value, number, Halvings(number - low.value + 1));
      LookupsOfSearches(client.provider, start, before, gallop, first, first, low.value, low.value);
      RefusalImpossible(client.provider, start, low.value, low.value, from.error.error);
      return Failure(from.error);
    }
    StartFound(client.provider, start, end, low.value, from.value);
    var endExclusive := FindFirstBlockAtOrAfter(client, end, from.value, number, cache, |before|, low.value);
    LookupsOfSearches(client.provider, start, before, gallop, first, client.lookups, low.value, from.value);
    if endExclusive.Failure? {
      RefusalImpossible(client.provider, start, low.value, from.value, endExclusive.error.error);
      return Failure(endExclusive.error);
    }
    RangeFound(client.provider, start, end, low.value, from.value, endExclusive.value);
    var pastEnd: int := endExclusive.value;
    var toBlock := pastEnd - 1;
    if from.value > toBlock {
      return Failure(EmptyInterval);
    }
    return Success(IntervalBlockRange(start, end, number, timestamp, from.value, endExclusive.value, toBlock));
  }

  // --- What resolved ranges mean ---

  /** Up to rpc failures, the interval and the provider's window determine the result. */
  lemma ResolutionIsDetermined(provider: Provider, start: int, end: int,
                               r: Result<IntervalBlockRange, RangeError>, r': Result<IntervalBlockRange, RangeError>)
    requires StrictlyIncreasing(provider.chain)
    requires Resolves(provider, start, end, r) && Resolves(provider, start, end, r')
    ensures r == r' || (r.Failure? && r.error.Rpc?) || (r'.Failure? && r'.error.Rpc?)
  {
    if r.Success? && r'.Success? {
      FirstBlockUnique(provider.chain, start, r.value.fromBlock);
      FirstBlockUnique(provider.chain, start, r'.value.fromBlock);
      FirstBlockUnique(provider.chain, end, r.value.endExclusive);
      FirstBlockUnique(provider.chain, end, r'.value.endExclusive);
    } else if r.Success? && r' == Failure(EmptyInterval) {
      ExactBlocks(provider, start, end, r, r.value.fromBlock);
    } else if r'.Success? && r == Failure(EmptyInterval) {
      ExactBlocks(provider, start, end, r', r'.value.fromBlock);
    }
  }

  /**
   The one case in which a provider may refuse the blocks of the start and still no window error is due: the
   head is block 0, which the search gets from the finality check and never asks for by number.
   */
  lemma GenesisHeadHidesTheWindow()
    ensures exists provider: Provider, start, end ::
      && StrictlyIncreasing(provider.chain) && Ready(provider, start, end)
      && 0 < provider.oldest && start < provider.chain.Time(provider.oldest)
      && Resolves(provider, start, end, Failure(EmptyInterval))
      && !Resolves(provider, start, end, Failure(WindowTooShort))
  {
    var chain := Chain(imap b: nat | true :: 12 * b, imap[]);
    var provider := Provider(1, chain, 0, 0, 1, imap[], imap[]);
    assert forall b: nat :: chain.Time(b) == 12 * b;
    assert Resolves(provider, -5, 0, Failure(EmptyInterval));
  }

  /** The block range a result stands for; an empty interval stands for no blocks. */
  ghost predicate Covers(r: Result<IntervalBlockRange, RangeError>, b: nat) {
    r.Success? && r.value.fromBlock <= b <= r.value.toBlock
  }

  /** A returned range, or the verdict that it is empty, is exactly the set of the interval's blocks. */
  lemma ExactBlocks(provider: Provider, start: int, end: int, r: Result<IntervalBlockRange, RangeError>, b: nat)
    requires StrictlyIncreasing(provider.chain) && Resolves(provider, start, end, r)
    requires r.Success? || r == Failure(EmptyInterval)
    ensures Covers(r, b) <==> start <= provider.chain.Time(b) < end
    ensures start < end
  {
    if r.Success? {
      FirstBlockUnique(provider.chain, start, r.value.fromBlock);
      FirstBlockUnique(provider.chain, end, r.value.endExclusive);
      IntervalIsBlockRange(provider.chain, start, end, b);
    }
  }

  /** Adjacent intervals resolved one after the other, each at its own head, on one chain. */
  ghost predicate AdjacentRuns(chain: Chain, providers: seq<Provider>, bounds: seq<int>,
                               results: seq<Result<IntervalBlockRange, RangeError>>)
  {
    && StrictlyIncreasing(chain)
    && |providers| == |results| && |bounds| == |results| + 1
    && (forall i | 0 <= i < |results| ::
          && providers[i].chain == chain
          && (results[i].Success? || results[i] == Failure(EmptyInterval))
          && Resolves(providers[i], bounds[i], bounds[i + 1], results[i]))
  }

  /** Each range ends where the next one begins. */
  lemma NeighboursMeet(chain: Chain, providers: seq<Provider>, bounds: seq<int>,
                       results: seq<Result<IntervalBlockRange, RangeError>>, i: nat)
    requires AdjacentRuns(chain, providers, bounds, results)
    requires i + 1 < |results| && results[i].Success? && results[i + 1].Success?
    ensures results[i].value.endExclusive == results[i + 1].value.fromBlock
  {
    assert Resolves(providers[i], bounds[i], bounds[i + 1], results[i]);
    assert Resolves(providers[i + 1], bounds[i + 1], bounds[i + 2], results[i + 1]);
    FirstBlockUnique(chain, bounds[i + 1], results[i].value.endExclusive);
    FirstBlockUnique(chain, bounds[i + 1], results[i + 1].value.fromBlock);
  }

  /** Every block of the union of the intervals is in exactly one range, and no other block is in any. */
  lemma {:induction false} RangesTile(chain: Chain, providers: seq<Provider>, bounds: seq<int>,
                                      results: seq<Result<IntervalBlockRange, RangeError>>, b: nat)
    requires AdjacentRuns(chain, providers, bounds, results)
    ensures bounds[0] <= bounds[|results|]
    ensures (exists i :: 0 <= i < |results| && Covers(results[i], b))
       <==> bounds[0] <= chain.Time(b) < bounds[|results|]
    ensures forall i, j | 0 <= i < j < |results| :: !(Covers(results[i], b) && Covers(results[j], b))
  {
    hide Resolves, StrictlyIncreasing, Covers;
    var n := |results|;
    if n == 0 {
    } else {
      var last := n - 1;
      RangesTile(chain, providers[..last], bounds[..n], results[..last], b);
      ExactBlocks(providers[last], bounds[last], bounds[n], results[last], b);
      forall i | 0 <= i < last ensures Covers(results[i], b) ==> chain.Time(b) < bounds[last] {
        assert results[..last][i] == results[i];
      }
      if bounds[0] <= chain.Time(b) < bounds[last] {
        var i :| 0 <= i < last && Covers(results[..last][i], b);
        assert Covers(results[i], b);
      }
    }
  }

  // --- The estimate of how far back a recent interval can reach ---

  function CeilDiv(a: nat, b: nat): nat
    requires b > 0
  {
    (a + b - 1) / b
  }

  function EstimateRecentSearchLowBlock(finalizedNumber: nat, finalizedTimestamp: int, target: int): nat {
    var ageSeconds := if finalizedTimestamp > target then finalizedTimestamp - target else 0;
    var lookback := CeilDiv(ageSeconds, RECENT_SEARCH_MIN_SECONDS_PER_BLOCK) + RECENT_SEARCH_SAFETY_BLOCKS;
    if finalizedNumber > lookback then finalizedNumber - lookback else 0
  }

  /** The estimate allows just as many blocks of six seconds as cover the target's age, and 256 more. */
  lemma EstimateIsExact(finalizedNumber: nat, finalizedTimestamp: int, target: int)
    ensures var low := EstimateRecentSearchLowBlock(finalizedNumber, finalizedTimestamp, target);
      var age := Max(0, finalizedTimestamp - target);
      && low <= finalizedNumber && 6 * (finalizedNumber - low - 257) < age
      && (low > 0 ==> age <= 6 * (finalizedNumber - low - 256))
  {
  }

  /** With blocks at least `spacing` seconds apart, a deep search means an old target. */
  lemma {:induction false} DepthIsAge(chain: Chain, head: nat, target: int, spacing: nat)
    requires forall i: nat | i < head :: chain.Time(i + 1) - chain.Time(i) >= spacing
    requires target < chain.Time(head)
    ensures var depth := Depth(chain, head, target);
      depth > 0 && (depth - 1) * spacing < chain.Time(head) - target
  {
    if head > 0 && target < chain.Time(head - 1) {
      DepthIsAge(chain, head - 1, target, spacing);
      var d := Depth(chain, head - 1, target);
      MulStep(d - 1, spacing);
    }
  }

  /** When blocks are at least 12 seconds apart, no lookup of a run goes below the estimate. */
  lemma LookupsStayRecent(provider: Provider, start: int, before: seq<nat>, after: seq<nat>, i: nat)
    requires start < provider.chain.Time(provider.head)
    requires forall b: nat | b < provider.head :: provider.chain.Time(b + 1) - provider.chain.Time(b) >= 12
    requires FrugalLookups(provider, start, before, after) && |before| <= i < |after|
    ensures EstimateRecentSearchLowBlock(provider.head, provider.chain.Time(provider.head), start) <= after[i]
  {
    DepthIsAge(provider.chain, provider.head, start, 12);
  }
}
