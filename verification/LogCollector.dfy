/** Collection of the raw logs of a block range, halving a chunk whose request keeps failing. */
module LogCollector {
  import opened Wrappers
  import opened Arithmetic
  import opened Chain
  import opened JsonRpc
  import opened Chunking

  datatype CollectError =
    | BadRequest(chunk: ChunkError)
    | SingleBlockFailed(block: nat)
    | Propagated(error: RpcError)

  /** A call whose failure ends the collection: it was rejected for good, or it cannot be split any further. */
  predicate Fatal(call: LogCall) {
    call.error.Some? && (call.error == Some(Failed(Rejected)) || call.fromBlock == call.toBlock)
  }

  /** The error names the call that ended the collection, and says how it failed. */
  predicate Explains(call: LogCall, e: CollectError) {
    && call.error.Some?
    && (e.SingleBlockFailed? ==>
          && call.fromBlock == call.toBlock == e.block
          && call.error.value in {Failed(Transient), Failed(RangeTooLarge), Failed(TooManyResults)})
    && (e.Propagated? ==> e.error == call.error.value == Failed(Rejected))
    && !e.BadRequest?
  }

  /** A call for at most maxBlocks blocks, all inside lo..hi, that the client's own range guard let pass. */
  predicate Inside(maxBlocks: int, call: LogCall, lo: int, hi: int) {
    && lo <= call.fromBlock <= call.toBlock <= hi && call.toBlock - call.fromBlock + 1 <= maxBlocks
    && call.error != Some(BadRange)
  }

  /** The provider is to blame for the error. */
  ghost predicate Blames(provider: Provider, maxRetries: nat, e: CollectError) {
    match e
    case BadRequest(_) => true
    case SingleBlockFailed(_) => exists f | f != Rejected :: Faulted(provider, maxRetries, Failed(f))
    case Propagated(rpc) => rpc == Failed(Rejected) && Faulted(provider, maxRetries, rpc)
  }

  lemma BlamesAnswer(provider: Provider, maxRetries: nat, lo: nat, attempt: int, e: RpcError)
    requires e.Failed? && CallFails(provider, maxRetries, attempt, e.fault)
    ensures !Retryable(e) ==> Blames(provider, maxRetries, Propagated(e))
    ensures Retryable(e) ==> Blames(provider, maxRetries, SingleBlockFailed(lo))
  {
    FaultedAt(provider, maxRetries, attempt, e);
  }

  lemma BlamesNobody(provider: Provider, maxRetries: nat, e: ChunkError)
    ensures Blames(provider, maxRetries, BadRequest(e))
  {
  }

  /** Since `before` there were at most `budget` calls, none fatal, each for at most maxBlocks blocks of lo..hi. */
  ghost predicate CleanCalls(maxBlocks: int, before: seq<LogCall>, after: seq<LogCall>, lo: int, hi: int, budget: int) {
    && |before| <= |after| <= |before| + budget && before == after[..|before|]
    && forall i | |before| <= i < |after| :: Inside(maxBlocks, after[i], lo, hi) && !Fatal(after[i])
  }

  /** Like CleanCalls, except that the last call was fatal and is what `e` tells about. */
  ghost predicate FatalCalls(maxBlocks: int, before: seq<LogCall>, after: seq<LogCall>, lo: int, hi: int, budget: int,
                             e: CollectError) {
    && |before| < |after| <= |before| + budget
    && CleanCalls(maxBlocks, before, after[..|after| - 1], lo, hi, budget)
    && Inside(maxBlocks, after[|after| - 1], lo, hi) && Fatal(after[|after| - 1]) && Explains(after[|after| - 1], e)
  }

  /** The result of collecting lo..hi agrees with the calls that were made for it. */
  ghost predicate Collected(maxBlocks: int, chain: Chain, before: seq<LogCall>, after: seq<LogCall>,
                            lo: int, hi: int, budget: int, r: Result<seq<RawLog>, CollectError>)
  {
    match r
    case Success(logs) =>
      0 <= lo <= hi + 1 && logs == BlockLogs(chain, lo, hi + 1) && CleanCalls(maxBlocks, before, after, lo, hi, budget)
    case Failure(e) => FatalCalls(maxBlocks, before, after, lo, hi, budget, e)
  }

  /** The most attempts that the client's retries allow for a number of calls. */
  ghost function AttemptBudget(calls: int, maxRetries: nat): int {
    calls * (maxRetries + 1)
  }

  lemma BudgetAdds(a: int, b: int, maxRetries: nat)
    ensures AttemptBudget(a, maxRetries) + AttemptBudget(b, maxRetries) == AttemptBudget(a + b, maxRetries)
    ensures AttemptBudget(0, maxRetries) == 0 && AttemptBudget(1, maxRetries) == maxRetries + 1
  {
  }

  lemma NoCalls(maxBlocks: int, chain: Chain, calls: seq<LogCall>, lo: nat)
    ensures Collected(maxBlocks, chain, calls, calls, lo, lo - 1, 0, Success([]))
  {
  }

  /** One call: it succeeds, fails for good, or may be split. */
  lemma OneCall(maxBlocks: int, chain: Chain, before: seq<LogCall>, after: seq<LogCall>, lo: nat, hi: nat,
                answer: Result<seq<RawLog>, RpcError>)
    requires lo <= hi && hi - lo + 1 <= maxBlocks
    requires after == before + [LogCall(lo, hi, if answer.Success? then None else Some(answer.error))]
    requires answer.Success? ==> answer.value == BlockLogs(chain, lo, hi + 1)
    requires answer.Failure? ==> answer.error.Failed?
    ensures answer.Success? ==> Collected(maxBlocks, chain, before, after, lo, hi, 1, Success(answer.value))
    ensures answer.Failure? && !Retryable(answer.error) ==>
      Collected(maxBlocks, chain, before, after, lo, hi, 1, Failure(Propagated(answer.error)))
    ensures answer.Failure? && Retryable(answer.error) ==>
      if lo == hi then Collected(maxBlocks, chain, before, after, lo, hi, 1, Failure(SingleBlockFailed(lo)))
      else CleanCalls(maxBlocks, before, after, lo, hi, 1)
  {
    assert after[..|after| - 1] == before;
  }

  /**
   So halving recovers every failure but two: when no call of a collection is rejected and every call for a single
   block is answered, the collection succeeds.
   */
  lemma HalvingRecovers(maxBlocks: int, chain: Chain, before: seq<LogCall>, after: seq<LogCall>, lo: int, hi: int,
                        budget: int, r: Result<seq<RawLog>, CollectError>)
    requires Collected(maxBlocks, chain, before, after, lo, hi, budget, r)
    requires forall i | |before| <= i < |after| ::
      after[i].error != Some(Failed(Rejected)) && (after[i].fromBlock == after[i].toBlock ==> after[i].error == None)
    ensures r == Success(BlockLogs(chain, lo, hi + 1))
  {
    hide BlockLogs;
  }

  lemma CleanThenClean(maxBlocks: int, before: seq<LogCall>, middle: seq<LogCall>, after: seq<LogCall>,
                       lo: int, hi: int, budget: int, lo': int, hi': int, budget': int)
    requires CleanCalls(maxBlocks, before, middle, lo, hi, budget)
    requires CleanCalls(maxBlocks, middle, after, lo', hi', budget')
    ensures CleanCalls(maxBlocks, before, after, Min(lo, lo'), Max(hi, hi'), budget + budget')
  {
  }

  lemma CleanThenFatal(maxBlocks: int, before: seq<LogCall>, middle: seq<LogCall>, after: seq<LogCall>,
                       lo: int, hi: int, budget: int, lo': int, hi': int, budget': int, e: CollectError)
    requires CleanCalls(maxBlocks, before, middle, lo, hi, budget)
    requires FatalCalls(maxBlocks, middle, after, lo', hi', budget', e)
    ensures FatalCalls(maxBlocks, before, after, Min(lo, lo'), Max(hi, hi'), budget + budget', e)
  {
    CleanThenClean(maxBlocks, before, middle, after[..|after| - 1], lo, hi, budget, lo', hi', budget');
  }

  /** Collecting lo..mid and then mid + 1..hi is collecting lo..hi. */
  lemma CollectedThen(maxBlocks: int, chain: Chain, before: seq<LogCall>, middle: seq<LogCall>, after: seq<LogCall>,
                      lo: int, mid: int, hi: int, budget: int, budget': int,
                      left: Result<seq<RawLog>, CollectError>, right: Result<seq<RawLog>, CollectError>)
    requires left.Success? && 0 <= lo <= mid + 1 <= hi + 1
    requires Collected(maxBlocks, chain, before, middle, lo, mid, budget, left)
    requires Collected(maxBlocks, chain, middle, after, mid + 1, hi, budget', right)
    ensures Collected(maxBlocks, chain, before, after, lo, hi, budget + budget',
                      if right.Success? then Success(left.value + right.value) else right)
  {
    hide CleanCalls, FatalCalls, BlockLogs;
    if right.Success? {
      CleanThenClean(maxBlocks, before, middle, after, lo, mid, budget, mid + 1, hi, budget');
      BlockLogsSplit(chain, lo, mid + 1, hi + 1);
    } else {
      CleanThenFatal(maxBlocks, before, middle, after, lo, mid, budget, mid + 1, hi, budget', right.error);
    }
  }

  /** A failure of the first half is the failure of the whole. */
  lemma CollectedPartly(maxBlocks: int, chain: Chain, before: seq<LogCall>, after: seq<LogCall>,
                        lo: int, mid: int, hi: int, budget: int, budget': int, left: Result<seq<RawLog>, CollectError>)
    requires left.Failure? && mid <= hi && budget <= budget'
    requires Collected(maxBlocks, chain, before, after, lo, mid, budget, left)
    ensures Collected(maxBlocks, chain, before, after, lo, hi, budget', left)
    ensures !left.error.BadRequest?
  {
  }

  /** After a first call that may be split, collecting the range costs one call more. */
  lemma CollectedAfterSplit(maxBlocks: int, chain: Chain, before: seq<LogCall>, middle: seq<LogCall>,
                            after: seq<LogCall>, lo: int, hi: int, budget: int, r: Result<seq<RawLog>, CollectError>)
    requires CleanCalls(maxBlocks, before, middle, lo, hi, 1)
    requires Collected(maxBlocks, chain, middle, after, lo, hi, budget, r)
    ensures Collected(maxBlocks, chain, before, after, lo, hi, budget + 1, r)
  {
    hide CleanCalls, FatalCalls, BlockLogs;
    if r.Success? {
      CleanThenClean(maxBlocks, before, middle, after, lo, hi, 1, lo, hi, budget);
    } else {
      CleanThenFatal(maxBlocks, before, middle, after, lo, hi, 1, lo, hi, budget, r.error);
    }
  }

  /**
   Collect one chunk. A retryable failure of more than one block is answered by collecting the two halves;
   of a single block, by giving up and naming it.
   */
  method CollectChunk(client: RpcClient, ghost maxBlocks: int, lo: nat, hi: nat)
    returns (r: Result<seq<RawLog>, CollectError>)
    requires client.Valid()
    requires lo <= hi && hi - lo + 1 <= maxBlocks <= 10
    modifies client, client.clock
    ensures client.Valid() && client.lookups == old(client.lookups)
    ensures r.Failure? ==> Blames(client.provider, client.maxRetries, r.error)
    ensures Collected(maxBlocks, client.provider.chain, old(client.logCalls), client.logCalls, lo, hi,
                      2 * (hi - lo + 1) - 1, r)
    ensures client.attempts - old(client.attempts)
         <= AttemptBudget(|client.logCalls| - |old(client.logCalls)|, client.maxRetries)
    decreases hi - lo
  {
    hide *;
    ghost var chain, before := client.provider.chain, client.logCalls;
    var answer := client.GetLogs(lo, hi);
    ghost var asked := client.logCalls;
    OneCall(maxBlocks, chain, before, asked, lo, hi, answer);
    BudgetAdds(1, 0, client.maxRetries);
    ghost var budget := 2 * (hi - lo + 1) - 1;
    if answer.Success? {
      CollectedWithin(maxBlocks, chain, before, asked, lo, hi, 1, budget, Success(answer.value));
      return Success(answer.value);
    }
    BlamesAnswer(client.provider, client.maxRetries, lo, client.attempts - 1, answer.error);
    if !Retryable(answer.error) {
      CollectedWithin(maxBlocks, chain, before, asked, lo, hi, 1, budget, Failure(Propagated(answer.error)));
      return Failure(Propagated(answer.error));
    }
    if lo == hi {
      return Failure(SingleBlockFailed(lo));
    }
    var mid := Middle(lo, hi);
    var left := CollectChunk(client, maxBlocks, lo, mid);
    ghost var half := client.logCalls;
    BudgetAdds(1, |half| - |asked|, client.maxRetries);
    if left.Failure? {
      CollectedPartly(maxBlocks, chain, asked, half, lo, mid, hi, 2 * (mid - lo + 1) - 1, budget - 1, left);
      CollectedAfterSplit(maxBlocks, chain, before, asked, half, lo, hi, budget - 1, left);
      return left;
    }
    var right := CollectChunk(client, maxBlocks, mid + 1, hi);
    r := if right.Success? then Success(left.value + right.value) else right;
    BudgetAdds(|half| - |before|, |client.logCalls| - |half|, client.maxRetries);
    CollectedThen(maxBlocks, chain, asked, half, client.logCalls, lo, mid, hi,
                  2 * (mid - lo + 1) - 1, 2 * (hi - mid) - 1, left, right);
    CollectedAfterSplit(maxBlocks, chain, before, asked, client.logCalls, lo, hi, budget - 1, r);
  }

  lemma CollectedWithin(maxBlocks: int, chain: Chain, before: seq<LogCall>, after: seq<LogCall>, lo: int, hi: int,
                        budget: int, budget': int, r: Result<seq<RawLog>, CollectError>)
    requires Collected(maxBlocks, chain, before, after, lo, hi, budget, r) && budget <= budget'
    ensures Collected(maxBlocks, chain, before, after, lo, hi, budget', r)
  {
  }

  /**
   Collect a range chunk by chunk: all of its logs in block order, or the error of the one call that ended it.
   */
  method CollectRawLogs(client: RpcClient, fromBlock: int, toBlock: int, maxBlocks: int)
    returns (r: Result<seq<RawLog>, CollectError>, ghost chunkCount: nat)
    requires client.Valid()
    modifies client, client.clock
    ensures client.Valid() && client.lookups == old(client.lookups)
    ensures r.Failure? ==> Blames(client.provider, client.maxRetries, r.error)
    ensures (r.Failure? && r.error.BadRequest?) <==>
      !(0 <= fromBlock <= toBlock && 1 <= maxBlocks <= 10)
    ensures r.Failure? && r.error.BadRequest? ==> client.logCalls == old(client.logCalls)
    ensures !(r.Failure? && r.error.BadRequest?) ==>
      && (chunkCount - 1) * maxBlocks < toBlock - fromBlock + 1 <= chunkCount * maxBlocks
      && Collected(maxBlocks, client.provider.chain, old(client.logCalls), client.logCalls, fromBlock, toBlock,
                   2 * (toBlock - fromBlock + 1) - chunkCount, r)
    ensures client.attempts - old(client.attempts)
         <= AttemptBudget(|client.logCalls| - |old(client.logCalls)|, client.maxRetries)
  {
    hide *;
    chunkCount := 0;
    BudgetAdds(0, 0, client.maxRetries);
    var chunking := IterBlockChunks(fromBlock, toBlock, maxBlocks);
    if chunking.Failure? {
      BlamesNobody(client.provider, client.maxRetries, chunking.error);
      return Failure(BadRequest(chunking.error)), chunkCount;
    }
    var chunks := chunking.value;
    chunkCount := |chunks|;
    ChunkCount(chunks, fromBlock, toBlock, maxBlocks);
    ghost var chain, before := client.provider.chain, client.logCalls;
    var logs: seq<RawLog> := [];
    ghost var next: nat := fromBlock;
    NoCalls(maxBlocks, chain, before, fromBlock);
    TilesStart(chunks, fromBlock, toBlock, maxBlocks);
    for i := 0 to |chunks|
      invariant client.Valid() && client.lookups == old(client.lookups)
      invariant TiledUpTo(chunks, fromBlock, toBlock, maxBlocks, i, next)
      invariant Collected(maxBlocks, chain, before, client.logCalls, fromBlock, next - 1, 2 * (next - fromBlock) - i,
                          Success(logs))
      invariant client.attempts - old(client.attempts)
             <= AttemptBudget(|client.logCalls| - |before|, client.maxRetries)
    {
      ghost var half := client.logCalls;
      TilesNext(chunks, fromBlock, toBlock, maxBlocks, i, next);
      var chunk := CollectChunk(client, maxBlocks, chunks[i].fromBlock, chunks[i].toBlock);
      BudgetAdds(|half| - |before|, |client.logCalls| - |half|, client.maxRetries);
      CollectedThen(maxBlocks, chain, before, half, client.logCalls, fromBlock, next - 1, chunks[i].toBlock,
                    2 * (next - fromBlock) - i, 2 * (chunks[i].toBlock - next + 1) - 1, Success(logs), chunk);
      if chunk.Failure? {
        // The chunks that are left would have cost at least one call each.
        CollectedPartly(maxBlocks, chain, before, client.logCalls, fromBlock, chunks[i].toBlock, toBlock,
                        2 * (chunks[i].toBlock + 1 - fromBlock) - i - 1,
                        2 * (toBlock - fromBlock + 1) - chunkCount, chunk);
        return chunk, chunkCount;
      }
      logs := logs + chunk.value;
      next := chunks[i].toBlock + 1;
    }
    TilesEnd(chunks, fromBlock, toBlock, maxBlocks, next);
    return Success(logs), chunkCount;
  }
}
