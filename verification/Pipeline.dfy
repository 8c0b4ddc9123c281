/** One run of the pipeline: from a UTC window to rows in the raw, silver and gold tables. */
module Pipeline {
  import opened Wrappers
  import opened Chain
  import opened JsonRpc
  import opened Text
  import opened LogCollector
  import opened LogNormalizer
  import opened Incremental
  import opened Silver
  import opened Gold
  import opened DbtTests
  import R = BlockRange
  import D = DeltaWriter

  // --- The effect of a run, as a function on the three tables ---

  datatype Tables = Tables(raw: seq<LogRow>, silver: seq<TransferRow>, gold: seq<FlowRow>)

  /** What stays the same over all runs: the chain, its id, and the configuration. */
  datatype Setup = Setup(chain: Chain, chainId: int, cfg: Config)

  /** How far a run got. The three writes are not one transaction. */
  datatype Stage = Aborted | RawLanded | SilverBuilt | GoldBuilt {
    function Rank(): nat {
      match this
      case Aborted => 0
      case RawLanded => 1
      case SilverBuilt => 2
      case GoldBuilt => 3
    }
  }

  /** The logs of the blocks whose time lies in the window, in block order. */
  ghost function WindowLogs(chain: Chain, w: Window): seq<RawLog>
    requires StrictlyIncreasing(chain)
  {
    BlockLogs(chain, FirstBlock(chain, w.start), FirstBlock(chain, w.end))
  }

  /** A log normalized with the time of the block it names. */
  function FactOnChain(s: Setup, l: RawLog, w: Window): Option<LogFact> {
    var number := HexQuantity(l.blockNumber);
    if number.None? then None else NormalizeFact(l, s.chain.Time(number.value), s.chainId, w)
  }

  function RowsOnChain(s: Setup, logs: seq<RawLog>, w: Window, ingestedAt: int): seq<LogRow> {
    if logs == [] then []
    else
      var front := RowsOnChain(s, logs[..|logs| - 1], w, ingestedAt);
      var fact := FactOnChain(s, logs[|logs| - 1], w);
      if fact.None? then front else front + [LogRow(fact.value, ingestedAt)]
  }

  /** The batch of a window: what every run that reaches the raw table offers it. */
  ghost function WindowRows(s: Setup, w: Window, ingestedAt: int): seq<LogRow>
    requires StrictlyIncreasing(s.chain)
  {
    RowsOnChain(s, WindowLogs(s.chain, w), w, ingestedAt)
  }

  /** The window's logs are all well-formed and do not contradict each other. */
  ghost predicate Landable(s: Setup, w: Window)
    requires StrictlyIncreasing(s.chain)
  {
    && (forall l | l in WindowLogs(s.chain, w) :: FactOnChain(s, l, w).Some?)
    && D.Acceptable(WindowRows(s, w, 0))
  }

  ghost function Effect(s: Setup, t: Tables, w: Window, stage: Stage, ingestedAt: int, updatedAt: int): Tables
    requires StrictlyIncreasing(s.chain)
  {
    if stage.Aborted? then t
    else
      var raw := D.InsertRows(t.raw, WindowRows(s, w, ingestedAt));
      var silver := if stage.Rank() >= 2 then DeleteInsert(t.silver, SilverQuery(s.cfg, raw, w)) else t.silver;
      var gold := if stage.Rank() >= 3 then DeleteInsert(t.gold, GoldQuery(s.cfg, silver, w, updatedAt)) else t.gold;
      Tables(raw, silver, gold)
  }

  // --- Block timestamps of the collected logs ---

  /** Python's int(text, 16) on hexadecimal digits, with or without the prefix 0x. */
  function LooseHex(s: string): Option<nat> {
    if IsHexText(s) && |s| > 2 then Some(HexValue(s[2..]))
    else if s != [] && AllHex(s) then Some(HexValue(s))
    else None
  }

  /** It reads hexadecimal digits, of which there is at least one, after a prefix or without it, and nothing else. */
  lemma LooseHexReads(digits: string)
    ensures LooseHex(digits).Some? ==>
      exists t :: t != "" && AllHex(t) && digits in {t, "0x" + t} && LooseHex(digits) == Some(HexValue(t))
    ensures digits != "" && AllHex(digits) ==> LooseHex(digits) == LooseHex("0x" + digits) == Some(HexValue(digits))
  {
    hide HexValue;
    assert ("0x" + digits)[2..] == digits;
    if IsHexText(digits) {
      HexTexts(digits);
    }
  }

  ghost predicate NamesBlock(logs: seq<RawLog>, b: nat) {
    exists l :: l in logs && l.blockNumber.Text? && LooseHex(l.blockNumber.text) == Some(b)
  }

  predicate IsSmallest(numbers: set<nat>, b: nat) {
    b in numbers && forall c | c in numbers :: b <= c
  }

  lemma {:induction false} SmallestExists(numbers: set<nat>) returns (b: nat)
    requires numbers != {}
    ensures IsSmallest(numbers, b) && b in numbers
    decreases |numbers|
  {
    var x :| x in numbers;
    var rest := numbers - {x};
    assert numbers == {x} + rest;
    if rest == {} {
      b := x;
    } else {
      b := SmallestExists(rest);
      if x < b { b := x; }
    }
  }

  method Smallest(numbers: set<nat>) returns (b: nat)
    requires numbers != {}
    ensures IsSmallest(numbers, b) && b in numbers && |numbers - {b}| < |numbers|
  {
    hide IsSmallest;
    ghost var smallest := SmallestExists(numbers);
    b :| b in numbers && IsSmallest(numbers, b);
  }

  /** Every block number the logs give as text is a number. */
  ghost predicate NumbersReadable(logs: seq<RawLog>) {
    forall l | l in logs && l.blockNumber.Text? :: LooseHex(l.blockNumber.text).Some?
  }

  /** The numbers are those of the blocks the logs name. */
  ghost predicate NamedBlocks(logs: seq<RawLog>, numbers: set<nat>) {
    forall b: nat :: b in numbers <==> NamesBlock(logs, b)
  }

  /** The block numbers the logs name; None when one of them is not a number. */
  method BlockNumbers(logs: seq<RawLog>) returns (r: Option<set<nat>>)
    ensures r.Some? <==> NumbersReadable(logs)
    ensures r.Some? ==> NamedBlocks(logs, r.value)
  {
    hide LooseHex;
    var numbers: set<nat> := {};
    for i := 0 to |logs|
      invariant forall j | 0 <= j < i && logs[j].blockNumber.Text? :: LooseHex(logs[j].blockNumber.text).Some?
      invariant forall b: nat :: b in numbers <==> NamesBlock(logs[..i], b)
    {
      NamesAppend(logs, i);
      if logs[i].blockNumber.Text? {
        var number := LooseHex(logs[i].blockNumber.text);
        if number.None? {
          assert logs[i] in logs;
          return None;
        }
        numbers := numbers + {number.value};
      }
    }
    assert logs[..|logs|] == logs;
    return Some(numbers);
  }

  lemma NamesAppend(logs: seq<RawLog>, i: nat)
    requires i < |logs|
    ensures forall b: nat :: NamesBlock(logs[..i + 1], b) <==>
      NamesBlock(logs[..i], b) || (logs[i].blockNumber.Text? && LooseHex(logs[i].blockNumber.text) == Some(b))
  {
    assert logs[..i + 1] == logs[..i] + [logs[i]];
    assert forall l :: l in logs[..i + 1] <==> l in logs[..i] || l == logs[i];
  }

  datatype LoadError = BadBlockNumber | BlockLookup(error: RpcError)

  /** The provider answers numeric lookups of all the blocks the logs name. */
  ghost predicate BlocksAccessible(provider: Provider, logs: seq<RawLog>) {
    forall b: nat | NamesBlock(logs, b) :: provider.oldest <= b <= provider.head + provider.ahead
  }

  /** Why the times of the logs' blocks could not be loaded. */
  ghost predicate LoadFailure(provider: Provider, maxRetries: nat, logs: seq<RawLog>, e: LoadError) {
    match e
    case BadBlockNumber => !NumbersReadable(logs)
    case BlockLookup(rpc) =>
      || Faulted(provider, maxRetries, rpc)
      || ((rpc == Forbidden || rpc == NoSuchBlock) && !BlocksAccessible(provider, logs))
  }

  /** The loaded timestamps are the right ones for exactly the blocks the logs name. */
  ghost predicate Loaded(provider: Provider, logs: seq<RawLog>, timestamps: map<nat, int>) {
    && NumbersReadable(logs) && BlocksAccessible(provider, logs)
    && (forall b: nat :: b in timestamps <==> NamesBlock(logs, b))
    && (forall b | b in timestamps :: timestamps[b] == provider.chain.Time(b))
  }

  /** Strictly ascending lookups appended to earlier ones. */
  ghost predicate AscendingLookups(before: seq<nat>, after: seq<nat>) {
    && before <= after
    && forall i, j | |before| <= i < j < |after| :: after[i] < after[j]
  }

  /** The lookups are those of the blocks that are done, and these lie below the ones that are still pending. */
  ghost predicate LookedUp(before: seq<nat>, after: seq<nat>, done: set<nat>, pending: set<nat>) {
    && AscendingLookups(before, after) && |after| == |before| + |done|
    && (forall i | |before| <= i < |after| :: after[i] in done)
    && (forall b, c | b in done && c in pending :: b < c)
  }

  lemma LookUpNext(before: seq<nat>, middle: seq<nat>, done: set<nat>, pending: set<nat>, b: nat)
    requires LookedUp(before, middle, done, pending) && IsSmallest(pending, b)
    ensures LookedUp(before, middle + [b], done + {b}, pending - {b})
    ensures b in pending && b !in done
  {
    assert |done + {b}| == |done| + 1;
  }

  /** Every block is either still pending or has its right timestamp. */
  ghost predicate Loading(provider: Provider, before: seq<nat>, after: seq<nat>, timestamps: map<nat, int>,
                          pending: set<nat>, numbers: set<nat>)
  {
    && timestamps.Keys + pending == numbers
    && LookedUp(before, after, timestamps.Keys, pending)
    && (forall b | b in timestamps ::
          timestamps[b] == provider.chain.Time(b) && provider.oldest <= b <= provider.head + provider.ahead)
  }

  lemma LoadingStart(provider: Provider, lookups: seq<nat>, numbers: set<nat>)
    ensures Loading(provider, lookups, lookups, map[], numbers, numbers)
  {
  }

  lemma LoadingStep(provider: Provider, before: seq<nat>, middle: seq<nat>, timestamps: map<nat, int>,
                    pending: set<nat>, numbers: set<nat>, b: nat)
    requires Loading(provider, before, middle, timestamps, pending, numbers) && IsSmallest(pending, b)
    ensures AscendingLookups(before, middle + [b]) && b in numbers
    ensures provider.oldest <= b <= provider.head + provider.ahead ==>
      Loading(provider, before, middle + [b], timestamps[b := provider.chain.Time(b)], pending - {b}, numbers)
  {
    hide IsSmallest;
    LookUpNext(before, middle, timestamps.Keys, pending, b);
    assert LookedUp(before, middle + [b], timestamps.Keys + {b}, pending - {b});
    hide LookedUp, AscendingLookups;
    assert timestamps[b := provider.chain.Time(b)].Keys == timestamps.Keys + {b};
    assert timestamps.Keys + {b} + (pending - {b}) == timestamps.Keys + pending;
  }

  /** What each result of loading means: each block was looked up once, in ascending order, or something failed. */
  ghost predicate LoadResult(provider: Provider, maxRetries: nat, logs: seq<RawLog>, before: seq<nat>, after: seq<nat>,
                             r: Result<map<nat, int>, LoadError>)
  {
    && AscendingLookups(before, after)
    && match r
       case Success(timestamps) => Loaded(provider, logs, timestamps) && |after| == |before| + |timestamps|
       case Failure(e) => LoadFailure(provider, maxRetries, logs, e)
  }

  lemma UnreadableNumber(provider: Provider, maxRetries: nat, logs: seq<RawLog>, lookups: seq<nat>)
    ensures !NumbersReadable(logs) ==> LoadResult(provider, maxRetries, logs, lookups, lookups, Failure(BadBlockNumber))
  {
  }

  lemma LookupFailed(provider: Provider, maxRetries: nat, logs: seq<RawLog>, numbers: set<nat>,
                     before: seq<nat>, after: seq<nat>, b: nat, attempt: int, e: RpcError)
    requires NamedBlocks(logs, numbers) && b in numbers && AscendingLookups(before, after)
    requires
      || (e == Forbidden && b < provider.oldest) || (e == NoSuchBlock && provider.head + provider.ahead < b)
      || (e.Failed? && CallFails(provider, maxRetries, attempt, e.fault))
    ensures LoadResult(provider, maxRetries, logs, before, after, Failure(BlockLookup(e)))
  {
  }

  lemma LoadedAll(provider: Provider, maxRetries: nat, logs: seq<RawLog>, before: seq<nat>, after: seq<nat>,
                  timestamps: map<nat, int>, numbers: set<nat>)
    requires NumbersReadable(logs) && NamedBlocks(logs, numbers)
    requires Loading(provider, before, after, timestamps, {}, numbers)
    ensures LoadResult(provider, maxRetries, logs, before, after, Success(timestamps))
  {
    assert forall b: nat :: b in timestamps <==> b in numbers;
  }

  /** Look up the smallest of the pending blocks. */
  method LoadNext(client: RpcClient, ghost logs: seq<RawLog>, b: nat, timestamps: map<nat, int>, ghost before: seq<nat>,
                  ghost pending: set<nat>, ghost numbers: set<nat>)
    returns (r: Result<map<nat, int>, LoadError>)
    requires client.Valid() && NamedBlocks(logs, numbers) && IsSmallest(pending, b)
    requires Loading(client.provider, before, client.lookups, timestamps, pending, numbers)
    modifies client, client.clock
    ensures client.Valid()
    ensures r.Success? ==> Loading(client.provider, before, client.lookups, r.value, pending - {b}, numbers)
    ensures r.Failure? ==> LoadResult(client.provider, client.maxRetries, logs, before, client.lookups, r)
  {
    hide *;
    LoadingStep(client.provider, before, client.lookups, timestamps, pending, numbers, b);
    var answer := client.GetBlockByNumber(b);
    if answer.Failure? {
      LookupFailed(client.provider, client.maxRetries, logs, numbers, before, client.lookups, b, client.attempts - 1,
                   answer.error);
      return Failure(BlockLookup(answer.error));
    }
    return Success(timestamps[b := answer.value]);
  }

  method LoadBlockTimestamps(client: RpcClient, logs: seq<RawLog>) returns (r: Result<map<nat, int>, LoadError>)
    requires client.Valid()
    modifies client, client.clock
    ensures client.Valid()
    ensures LoadResult(client.provider, client.maxRetries, logs, old(client.lookups), client.lookups, r)
  {
    hide *;
    ghost var before := client.lookups;
    UnreadableNumber(client.provider, client.maxRetries, logs, before);
    var numbers := BlockNumbers(logs);
    if numbers.None? {
      return Failure(BadBlockNumber);
    }
    var pending := numbers.value;
    r := Success(map[]);
    LoadingStart(client.provider, before, pending);
    while pending != {}
      invariant client.Valid() && r.Success?
      invariant Loading(client.provider, before, client.lookups, r.value, pending, numbers.value)
      decreases |pending|
    {
      var b := Smallest(pending);
      r := LoadNext(client, logs, b, r.value, before, pending, numbers.value);
      if r.Failure? {
        return;
      }
      pending := pending - {b};
    }
    LoadedAll(client.provider, client.maxRetries, logs, before, client.lookups, r.value, numbers.value);
  }

  /** With the right timestamps loaded, normalizing is normalizing on the chain. */
  lemma {:induction false} NormalizedOnChain(s: Setup, logs: seq<RawLog>, timestamps: map<nat, int>, w: Window,
                                             ingestedAt: int)
    requires forall l | l in logs :: NormalizeLog(l, timestamps, s.chainId, w, ingestedAt).Some?
    requires forall b | b in timestamps :: timestamps[b] == s.chain.Time(b)
    ensures forall l | l in logs :: FactOnChain(s, l, w).Some?
    ensures NormalizedRows(logs, timestamps, s.chainId, w, ingestedAt) == RowsOnChain(s, logs, w, ingestedAt)
  {
    hide NormalizeFact, HexQuantity;
    if logs == [] {
    } else {
      var front, l := logs[..|logs| - 1], logs[|logs| - 1];
      NormalizedOnChain(s, front, timestamps, w, ingestedAt);
      assert forall k :: k in logs <==> k in front || k == l;
    }
  }

  /** When a batch is ingested is no part of what it says. */
  lemma {:induction false} IngestionTimeIsNoFact(s: Setup, logs: seq<RawLog>, w: Window, a: int, b: int)
    ensures |RowsOnChain(s, logs, w, a)| == |RowsOnChain(s, logs, w, b)|
    ensures forall i | 0 <= i < |RowsOnChain(s, logs, w, a)| ::
      RowsOnChain(s, logs, w, a)[i].fact == RowsOnChain(s, logs, w, b)[i].fact
  {
    hide FactOnChain;
    if logs == [] {
    } else {
      IngestionTimeIsNoFact(s, logs[..|logs| - 1], w, a, b);
    }
  }

  lemma AcceptableIgnoresIngestion(s: Setup, logs: seq<RawLog>, w: Window, a: int, b: int)
    requires D.Acceptable(RowsOnChain(s, logs, w, a))
    ensures D.Acceptable(RowsOnChain(s, logs, w, b))
    ensures D.Facts(RowsOnChain(s, logs, w, a)) == D.Facts(RowsOnChain(s, logs, w, b))
  {
    var x, y := RowsOnChain(s, logs, w, a), RowsOnChain(s, logs, w, b);
    IngestionTimeIsNoFact(s, logs, w, a, b);
    SameFacts(x, y);
    D.ConflictMeans(x);
    D.ConflictMeans(y);
    forall r | r in y ensures D.ValidateUint256Contract(r.fact).None? {
      var i :| 0 <= i < |y| && y[i] == r;
      assert x[i] in x;
    }
  }

  lemma SameFacts(x: seq<LogRow>, y: seq<LogRow>)
    requires |x| == |y| && forall i | 0 <= i < |x| :: x[i].fact == y[i].fact
    ensures D.Facts(x) == D.Facts(y)
  {
    forall f ensures f in D.Facts(x) <==> f in D.Facts(y) {
      if f in D.Facts(x) {
        var i :| 0 <= i < |x| && x[i].fact == f;
        assert y[i] in y;
      }
    }
  }

  /** A log normalizes with the loaded timestamps exactly when it does on the chain. */
  lemma NormalizesOnChain(s: Setup, logs: seq<RawLog>, timestamps: map<nat, int>, w: Window, ingestedAt: int, l: RawLog)
    requires l in logs
    requires forall b: nat :: b in timestamps <==> NamesBlock(logs, b)
    requires forall b | b in timestamps :: timestamps[b] == s.chain.Time(b)
    ensures NormalizeLog(l, timestamps, s.chainId, w, ingestedAt).Some? <==> FactOnChain(s, l, w).Some?
  {
    var number := HexQuantity(l.blockNumber);
    if number.Some? {
      assert LooseHex(l.blockNumber.text) == Some(number.value);
      assert NamesBlock(logs, number.value);
    }
  }

  // --- The run ---

  datatype RunError =
    | BadInterval
    | ChainLookup(rpc: RpcError)
    | ChainMismatch
    | Range(range: R.RangeError)
    | Collect(collect: CollectError)
    | Timestamps(load: LoadError)
    | SourceSchemaInvalid(count: nat)
    | DeltaWrite(write: D.WriteError)
    | DbtBuild

  datatype RunReport = RunReport(
    fromBlock: nat,
    toBlock: int,
    rawLogCount: nat,
    normalizedLogCount: nat,
    write: D.WriteResult)

  /** What a run has fetched before it touches a table. */
  datatype Fetched = Fetched(range: R.IntervalBlockRange, logs: seq<RawLog>, timestamps: map<nat, int>)

  /** Where the dbt build stops for reasons of its own: never, or before, between or after its two stored models. */
  datatype DbtFault = DbtOk | BeforeSilver | AfterSilver | AfterGold

  /** The fetched logs are those of the window's blocks, with the time of every block they name. */
  ghost predicate FetchedWindow(chain: Chain, w: Window, f: Fetched)
    requires StrictlyIncreasing(chain)
  {
    && w.start < w.end
    && f.range.fromBlock == FirstBlock(chain, w.start) && f.range.toBlock == FirstBlock(chain, w.end) - 1
    && f.logs == WindowLogs(chain, w)
    && (forall b: nat :: b in f.timestamps <==> NamesBlock(f.logs, b))
    && (forall b | b in f.timestamps :: f.timestamps[b] == chain.Time(b))
  }

  /** Why a run ended before it had anything to write. */
  ghost predicate FetchError(provider: Provider, maxRetries: nat, expectedChainId: int, w: Window, maxBlocks: int,
                             e: RunError)
    requires StrictlyIncreasing(provider.chain)
  {
    match e
    case BadInterval => w.end <= w.start
    case ChainMismatch => provider.chainId != expectedChainId
    case ChainLookup(rpc) => Faulted(provider, maxRetries, rpc)
    case Range(range) =>
      && w.start < w.end && R.Resolves(provider, w.start, w.end, Failure(range))
      && (range.Rpc? ==> Faulted(provider, maxRetries, range.error))
    case Collect(collect) =>
      && Blames(provider, maxRetries, collect)
      && (collect.BadRequest? ==> !(1 <= maxBlocks <= 10))
      && (collect.SingleBlockFailed? ==> InWindow(provider.chain.Time(collect.block), w))
    case Timestamps(load) => LoadFailure(provider, maxRetries, WindowLogs(provider.chain, w), load)
    case SourceSchemaInvalid(_) => false
    case DeltaWrite(_) => false
    case DbtBuild => false
  }

  /** What must hold for a window to be fetched from a provider whose faults the retries overcome. */
  ghost predicate Fetchable(provider: Provider, expectedChainId: int, w: Window, maxBlocks: int)
    requires StrictlyIncreasing(provider.chain)
  {
    && provider.chainId == expectedChainId
    && R.Ready(provider, w.start, w.end) && !R.OutOfWindow(provider, w.start)
    && FirstBlock(provider.chain, w.start) < FirstBlock(provider.chain, w.end)
    && 1 <= maxBlocks <= 10
    && NumbersReadable(WindowLogs(provider.chain, w)) && BlocksAccessible(provider, WindowLogs(provider.chain, w))
  }

  /** When no fault outlasts the retries, only a window that cannot be fetched ends a run this early. */
  lemma CalmFetch(provider: Provider, maxRetries: nat, expectedChainId: int, w: Window, maxBlocks: int, e: RunError)
    requires StrictlyIncreasing(provider.chain) && Calm(provider, maxRetries)
    requires FetchError(provider, maxRetries, expectedChainId, w, maxBlocks, e)
    ensures !Fetchable(provider, expectedChainId, w, maxBlocks)
  {
    hide StrictlyIncreasing, BlockLogs, NumbersReadable, BlocksAccessible, R.OutOfWindow, Calm, Faulted;
    forall rpc ensures !Faulted(provider, maxRetries, rpc) {
      CalmNeverFails(provider, maxRetries, rpc);
    }
    if e == Range(R.EmptyInterval) {
      EmptyInterval(provider.chain, w);
    }
  }

  lemma EmptyInterval(chain: Chain, w: Window)
    requires StrictlyIncreasing(chain)
    ensures (forall b: nat :: !(w.start <= chain.Time(b) < w.end))
       <==> FirstBlock(chain, w.end) <= FirstBlock(chain, w.start)
  {
    hide StrictlyIncreasing, FirstAtOrAfter;
    IntervalIsBlockRange(chain, w.start, w.end, FirstBlock(chain, w.start));
    forall b: nat
      ensures FirstBlock(chain, w.end) <= FirstBlock(chain, w.start) ==> !(w.start <= chain.Time(b) < w.end)
    {
      IntervalIsBlockRange(chain, w.start, w.end, b);
    }
  }

  lemma ChainLookupFailed(provider: Provider, maxRetries: nat, expectedChainId: int, w: Window, maxBlocks: int,
                          attempt: int, e: RpcError)
    requires StrictlyIncreasing(provider.chain) && e.Failed? && CallFails(provider, maxRetries, attempt, e.fault)
    ensures FetchError(provider, maxRetries, expectedChainId, w, maxBlocks, ChainLookup(e))
  {
  }

  lemma RangeVerdict(client: RpcClient, expectedChainId: int, w: Window, maxBlocks: int, e: R.RangeError)
    requires StrictlyIncreasing(client.provider.chain)
    requires w.start < w.end && R.Resolves(client.provider, w.start, w.end, Failure(e))
    requires e.Rpc? ==> R.Honest(client, e.error)
    ensures FetchError(client.provider, client.maxRetries, expectedChainId, w, maxBlocks, Range(e))
  {
    hide R.Resolves;
  }

  lemma CollectVerdict(provider: Provider, maxRetries: nat, expectedChainId: int, w: Window, maxBlocks: int,
                       range: R.IntervalBlockRange, before: seq<LogCall>, after: seq<LogCall>, budget: int,
                       e: CollectError)
    requires StrictlyIncreasing(provider.chain) && R.Resolves(provider, w.start, w.end, Success(range))
    requires Blames(provider, maxRetries, e)
    requires e.BadRequest? <==> !(0 <= range.fromBlock <= range.toBlock && 1 <= maxBlocks <= 10)
    requires !e.BadRequest? ==> FatalCalls(maxBlocks, before, after, range.fromBlock, range.toBlock, budget, e)
    ensures FetchError(provider, maxRetries, expectedChainId, w, maxBlocks, Collect(e))
  {
    hide Blames, CleanCalls, StrictlyIncreasing;
    if e.SingleBlockFailed? {
      R.ExactBlocks(provider, w.start, w.end, Success(range), e.block);
    }
  }

  lemma LoadVerdict(provider: Provider, maxRetries: nat, expectedChainId: int, w: Window, maxBlocks: int,
                    logs: seq<RawLog>, before: seq<nat>, after: seq<nat>, e: LoadError)
    requires StrictlyIncreasing(provider.chain) && logs == WindowLogs(provider.chain, w)
    requires LoadResult(provider, maxRetries, logs, before, after, Failure(e))
    ensures FetchError(provider, maxRetries, expectedChainId, w, maxBlocks, Timestamps(e))
  {
  }

  /** Exact blocks and complete collection together give the window's logs. */
  lemma CollectedLogs(provider: Provider, w: Window, maxBlocks: int, range: R.IntervalBlockRange,
                      before: seq<LogCall>, after: seq<LogCall>, budget: int, logs: seq<RawLog>)
    requires StrictlyIncreasing(provider.chain)
    requires R.Resolves(provider, w.start, w.end, Success(range))
    requires Collected(maxBlocks, provider.chain, before, after, range.fromBlock, range.toBlock, budget, Success(logs))
    ensures logs == WindowLogs(provider.chain, w) && w.start < w.end
    ensures range.fromBlock == FirstBlock(provider.chain, w.start)
    ensures range.toBlock == FirstBlock(provider.chain, w.end) - 1
  {
    hide BlockLogs, FirstAtOrAfter, StrictlyIncreasing, CleanCalls;
    FirstBlockUnique(provider.chain, w.start, range.fromBlock);
    FirstBlockUnique(provider.chain, w.end, range.endExclusive);
  }

  lemma FetchedMeans(provider: Provider, maxRetries: nat, expectedChainId: int, w: Window, maxBlocks: int, f: Fetched,
                     before: seq<nat>, after: seq<nat>)
    requires StrictlyIncreasing(provider.chain) && w.start < w.end && provider.chainId == expectedChainId
    requires R.Resolves(provider, w.start, w.end, Success(f.range)) && 1 <= maxBlocks <= 10
    requires f.range.fromBlock == FirstBlock(provider.chain, w.start)
    requires f.range.toBlock == FirstBlock(provider.chain, w.end) - 1
    requires f.logs == WindowLogs(provider.chain, w)
    requires LoadResult(provider, maxRetries, f.logs, before, after, Success(f.timestamps))
    ensures FetchedWindow(provider.chain, w, f) && Fetchable(provider, expectedChainId, w, maxBlocks)
  {
    hide NumbersReadable, BlocksAccessible, BlockLogs, StrictlyIncreasing, R.OutOfWindow, R.Ready;
  }

  method FetchWindow(client: RpcClient, expectedChainId: int, w: Window, maxBlocks: int)
    returns (r: Result<Fetched, RunError>)
    requires client.Valid() && StrictlyIncreasing(client.provider.chain)
    modifies client, client.clock
    ensures client.Valid()
    ensures r.Success? ==>
      && FetchedWindow(client.provider.chain, w, r.value)
      && Fetchable(client.provider, expectedChainId, w, maxBlocks)
    ensures r.Failure? ==> FetchError(client.provider, client.maxRetries, expectedChainId, w, maxBlocks, r.error)
  {
    hide RpcClient.Valid, StrictlyIncreasing, R.Resolves, R.Honest, R.FrugalLookups, Blames, LoadFailure, Faulted,
         CallFails, FetchedWindow, Fetchable, WindowLogs;
    if w.start >= w.end {
      return Failure(BadInterval);
    }
    var chainId := client.GetChainId();
    if chainId.Failure? {
      ChainLookupFailed(client.provider, client.maxRetries, expectedChainId, w, maxBlocks, client.attempts - 1,
                        chainId.error);
      return Failure(ChainLookup(chainId.error));
    }
    if chainId.value != expectedChainId {
      return Failure(ChainMismatch);
    }
    var resolved := R.ResolveIntervalBlockRange(client, w.start, w.end);
    if resolved.Failure? {
      RangeVerdict(client, expectedChainId, w, maxBlocks, resolved.error);
      return Failure(Range(resolved.error));
    }
    var range := resolved.value;
    r := FetchLogs(client, expectedChainId, w, maxBlocks, range);
  }

  /** The part of fetching that follows the search for the block range. */
  method FetchLogs(client: RpcClient, expectedChainId: int, w: Window, maxBlocks: int, range: R.IntervalBlockRange)
    returns (r: Result<Fetched, RunError>)
    requires client.Valid() && StrictlyIncreasing(client.provider.chain)
    requires client.provider.chainId == expectedChainId && w.start < w.end
    requires R.Resolves(client.provider, w.start, w.end, Success(range))
    modifies client, client.clock
    ensures client.Valid()
    ensures r.Success? ==>
      && FetchedWindow(client.provider.chain, w, r.value)
      && Fetchable(client.provider, expectedChainId, w, maxBlocks)
    ensures r.Failure? ==> FetchError(client.provider, client.maxRetries, expectedChainId, w, maxBlocks, r.error)
  {
    hide RpcClient.Valid, StrictlyIncreasing, R.Resolves, Blames, LoadResult, CleanCalls, FatalCalls, FetchError,
         FetchedWindow, Fetchable, WindowLogs, BlockLogs, AttemptBudget;
    ghost var before := client.logCalls;
    var collected, chunkCount := CollectRawLogs(client, range.fromBlock, range.toBlock, maxBlocks);
    ghost var budget := 2 * (range.toBlock - range.fromBlock + 1) - chunkCount;
    if collected.Failure? {
      CollectVerdict(client.provider, client.maxRetries, expectedChainId, w, maxBlocks, range, before, client.logCalls,
                     budget, collected.error);
      return Failure(Collect(collected.error));
    }
    CollectedLogs(client.provider, w, maxBlocks, range, before, client.logCalls, budget, collected.value);
    ghost var asked := client.lookups;
    var loaded := LoadBlockTimestamps(client, collected.value);
    if loaded.Failure? {
      LoadVerdict(client.provider, client.maxRetries, expectedChainId, w, maxBlocks, collected.value, asked,
                  client.lookups, loaded.error);
      return Failure(Timestamps(loaded.error));
    }
    r := Success(Fetched(range, collected.value, loaded.value));
    FetchedMeans(client.provider, client.maxRetries, expectedChainId, w, maxBlocks, r.value, asked, client.lookups);
  }

  /** What normalizing the fetched logs gives: the window's batch, or the proof that it cannot be landed. */
  lemma NormalizedWindow(s: Setup, w: Window, f: Fetched, ingestedAt: int, rows: seq<LogRow>, invalidCount: nat)
    requires StrictlyIncreasing(s.chain) && FetchedWindow(s.chain, w, f)
    requires rows == NormalizedRows(f.logs, f.timestamps, s.chainId, w, ingestedAt)
    requires invalidCount == 0 <==>
      forall l | l in f.logs :: NormalizeLog(l, f.timestamps, s.chainId, w, ingestedAt).Some?
    ensures invalidCount == 0 ==> rows == WindowRows(s, w, ingestedAt)
    ensures invalidCount == 0 <==> forall l | l in WindowLogs(s.chain, w) :: FactOnChain(s, l, w).Some?
  {
    hide NormalizeLog, FactOnChain, StrictlyIncreasing, BlockLogs, NamesBlock;
    forall l | l in f.logs
      ensures NormalizeLog(l, f.timestamps, s.chainId, w, ingestedAt).Some? <==> FactOnChain(s, l, w).Some?
    {
      NormalizesOnChain(s, f.logs, f.timestamps, w, ingestedAt, l);
    }
    if invalidCount == 0 {
      NormalizedOnChain(s, f.logs, f.timestamps, w, ingestedAt);
    }
  }

  lemma LandableMeans(s: Setup, w: Window, ingestedAt: int)
    requires StrictlyIncreasing(s.chain)
    ensures Landable(s, w) <==>
      && (forall l | l in WindowLogs(s.chain, w) :: FactOnChain(s, l, w).Some?)
      && D.Acceptable(WindowRows(s, w, ingestedAt))
  {
    hide D.Acceptable, StrictlyIncreasing, FactOnChain, BlockLogs;
    var logs := WindowLogs(s.chain, w);
    if D.Acceptable(RowsOnChain(s, logs, w, 0)) {
      AcceptableIgnoresIngestion(s, logs, w, 0, ingestedAt);
    } else if D.Acceptable(RowsOnChain(s, logs, w, ingestedAt)) {
      AcceptableIgnoresIngestion(s, logs, w, ingestedAt, 0);
    }
  }

  /** The stored tables. */
  class Warehouse {
    const table: D.DeltaTable
    var silver: seq<TransferRow>
    var gold: seq<FlowRow>

    ghost predicate Valid()
      reads this, table
    {
      table.Valid() && Incremental.UniqueKeys(silver) && Incremental.UniqueKeys(gold)
    }

    ghost function State(): Tables
      reads this, table
    {
      Tables(table.rows, silver, gold)
    }

    constructor ()
      ensures Valid() && fresh(table) && State() == Tables([], [], [])
    {
      table := new D.DeltaTable();
      silver, gold := [], [];
    }

    /** delete+insert of the silver query's rows. */
    method BuildSilver(cfg: Config, w: Window)
      requires Valid()
      modifies this`silver
      ensures Valid()
      ensures State() == old(State()).(silver := DeleteInsert(old(silver), SilverQuery(cfg, table.rows, w)))
    {
      hide DeleteInsert, SilverQuery, Incremental.UniqueKeys;
      var batch := SilverQuery(cfg, table.rows, w);
      SilverKeysUnique(cfg, table.rows, w);
      DeleteInsertUnique(silver, batch);
      silver := DeleteInsert(silver, batch);
    }

    /** delete+insert of the gold query's rows. */
    method BuildGold(cfg: Config, w: Window, updatedAt: int)
      requires Valid()
      modifies this`gold
      ensures Valid()
      ensures State() == old(State()).(gold := DeleteInsert(old(gold), GoldQuery(cfg, silver, w, updatedAt)))
    {
      hide DeleteInsert, GoldQuery, Incremental.UniqueKeys;
      var batch := GoldQuery(cfg, silver, w, updatedAt);
      GoldQueryMeans(cfg, silver, w, updatedAt);
      DeleteInsertUnique(gold, batch);
      gold := DeleteInsert(gold, batch);
    }
  }

  lemma SilverKeysUnique(cfg: Config, raw: seq<LogRow>, w: Window)
    ensures Incremental.UniqueKeys(SilverQuery(cfg, raw, w))
  {
    LatestPerKeyMeans(TransferRows(cfg, raw, w));
  }

  lemma WarehouseMeans(warehouse: Warehouse)
    ensures warehouse.State() == Tables(warehouse.table.rows, warehouse.silver, warehouse.gold)
    ensures warehouse.Valid() <==>
      warehouse.table.Valid() && Incremental.UniqueKeys(warehouse.silver) && Incremental.UniqueKeys(warehouse.gold)
  {
  }

  lemma NoEffect(s: Setup, t: Tables, w: Window, ingestedAt: int, updatedAt: int)
    requires StrictlyIncreasing(s.chain)
    ensures Effect(s, t, w, Aborted, ingestedAt, updatedAt) == t
  {
  }

  lemma EffectSteps(s: Setup, t: Tables, w: Window, ingestedAt: int, updatedAt: int, rows: seq<LogRow>)
    requires StrictlyIncreasing(s.chain) && rows == WindowRows(s, w, ingestedAt)
    ensures var landed := t.(raw := D.InsertRows(t.raw, rows));
      var refined := landed.(silver := DeleteInsert(t.silver, SilverQuery(s.cfg, landed.raw, w)));
      && Effect(s, t, w, RawLanded, ingestedAt, updatedAt) == landed
      && Effect(s, t, w, SilverBuilt, ingestedAt, updatedAt) == refined
      && Effect(s, t, w, GoldBuilt, ingestedAt, updatedAt)
         == refined.(gold := DeleteInsert(t.gold, GoldQuery(s.cfg, refined.silver, w, updatedAt)))
  {
    hide D.InsertRows, DeleteInsert, SilverQuery, GoldQuery, WindowRows, StrictlyIncreasing;
  }

  /** All tests of the dbt build pass on the tables that a run leaves when it is finished. */
  ghost predicate TestsPass(s: Setup, t: Tables, w: Window, ingestedAt: int, updatedAt: int)
    requires StrictlyIncreasing(s.chain)
  {
    var after := Effect(s, t, w, GoldBuilt, ingestedAt, updatedAt);
    RawTestsPass(after.raw) && SilverTestsPass(s.cfg, after.silver) && GoldTestsPass(s.cfg, after.gold)
  }

  lemma TestsMean(s: Setup, t: Tables, w: Window, ingestedAt: int, updatedAt: int)
    requires StrictlyIncreasing(s.chain)
    ensures var after := Effect(s, t, w, GoldBuilt, ingestedAt, updatedAt);
      TestsPass(s, t, w, ingestedAt, updatedAt) <==>
        RawTestsPass(after.raw) && SilverTestsPass(s.cfg, after.silver) && GoldTestsPass(s.cfg, after.gold)
  {
  }

  lemma FetchedFacts(chain: Chain, w: Window, f: Fetched)
    requires StrictlyIncreasing(chain) && FetchedWindow(chain, w, f)
    ensures w.start < w.end && f.logs == WindowLogs(chain, w)
    ensures f.range.fromBlock == FirstBlock(chain, w.start) && f.range.toBlock == FirstBlock(chain, w.end) - 1
  {
  }

  /**
   One run: fetch, normalize, commit the raw rows, then build silver and gold. Each step may fail; whatever has
   been written by then stays written, and `stage` says how far that was.
   */
  method RunInterval(client: RpcClient, warehouse: Warehouse, expectedChainId: int, cfg: Config, w: Window,
                     maxBlocks: int,
                     ingestedAt: int, updatedAt: int, engine: D.EngineFault, dbt: DbtFault)
    returns (r: Result<RunReport, RunError>, ghost stage: Stage)
    requires client.Valid() && StrictlyIncreasing(client.provider.chain) && warehouse.Valid()
    modifies client, client.clock, warehouse, warehouse.table
    ensures client.Valid() && warehouse.Valid()
    ensures var s := Setup(client.provider.chain, expectedChainId, cfg);
      && warehouse.State() == Effect(s, old(warehouse.State()), w, stage, ingestedAt, updatedAt)
      && (stage != Aborted ==> Fetchable(client.provider, expectedChainId, w, maxBlocks) && Landable(s, w))
    ensures stage in {SilverBuilt, GoldBuilt} ==> RawTestsPass(warehouse.table.rows)
    ensures stage == GoldBuilt ==> SilverTestsPass(cfg, warehouse.silver)
    ensures r.Success? ==>
      && stage == GoldBuilt
      && r.value.fromBlock == FirstBlock(client.provider.chain, w.start)
      && r.value.toBlock == FirstBlock(client.provider.chain, w.end) - 1
      && r.value.rawLogCount == |WindowLogs(client.provider.chain, w)|
      && r.value.normalizedLogCount == |WindowRows(Setup(client.provider.chain, expectedChainId, cfg), w, ingestedAt)|
      && r.value.write.inserted + r.value.write.duplicatesSkipped == r.value.normalizedLogCount
      && r.value.write.countBefore == |old(warehouse.table.rows)|
      && r.value.write.countAfter == |warehouse.table.rows| == r.value.write.countBefore + r.value.write.inserted
    ensures r.Failure? ==> (stage != Aborted <==> r.error == DbtBuild || r.error == DeltaWrite(D.CountFailed))
    ensures dbt != DbtOk ==> r.Failure?
    ensures dbt == BeforeSilver ==> stage.Rank() <= 1
    ensures dbt == AfterSilver ==> stage.Rank() <= 2
    ensures var s := Setup(client.provider.chain, expectedChainId, cfg);
      r.Failure? && engine == D.NoFault && dbt == DbtOk ==>
        || FetchError(client.provider, client.maxRetries, expectedChainId, w, maxBlocks, r.error)
        || (w.start < w.end && !Landable(s, w))
        || (r.error == DbtBuild && !TestsPass(s, old(warehouse.State()), w, ingestedAt, updatedAt))
    ensures var s := Setup(client.provider.chain, expectedChainId, cfg);
      Calm(client.provider, client.maxRetries) && engine == D.NoFault && dbt == DbtOk ==>
        (r.Success? <==>
          && Fetchable(client.provider, expectedChainId, w, maxBlocks) && Landable(s, w)
          && TestsPass(s, old(warehouse.State()), w, ingestedAt, updatedAt))
  {
    hide RpcClient.Valid, StrictlyIncreasing, Effect, Landable, Fetchable, FetchedWindow, NormalizedRows,
         NormalizeLog, FactOnChain, WindowRows, WindowLogs, D.InsertRows, D.Acceptable, D.Accounts, D.UniqueKeys,
         Warehouse.Valid, Warehouse.State, D.DeltaTable.Valid, Incremental.UniqueKeys, DeleteInsert, SilverQuery,
         GoldQuery, RawTestsPass, SilverTestsPass, GoldTestsPass, TestsPass, R.Resolves, Faulted, Blames, LoadFailure,
         Calm;
    stage := Aborted;
    ghost var s := Setup(client.provider.chain, expectedChainId, cfg);
    ghost var t := warehouse.State();
    WarehouseMeans(warehouse);
    NoEffect(s, t, w, ingestedAt, updatedAt);
    var fetched := FetchWindow(client, expectedChainId, w, maxBlocks);
    if fetched.Failure? {
      if Calm(client.provider, client.maxRetries) {
        CalmFetch(client.provider, client.maxRetries, expectedChainId, w, maxBlocks, fetched.error);
      }
      return Failure(fetched.error), stage;
    }
    var f := fetched.value;
    FetchedFacts(client.provider.chain, w, f);
    var rows, invalidCount := NormalizeLogs(f.logs, f.timestamps, expectedChainId, w, ingestedAt);
    NormalizedWindow(s, w, f, ingestedAt, rows, invalidCount);
    LandableMeans(s, w, ingestedAt);
    if invalidCount > 0 {
      return Failure(SourceSchemaInvalid(invalidCount)), stage;
    }
    EffectSteps(s, t, w, ingestedAt, updatedAt, rows);
    TestsMean(s, t, w, ingestedAt, updatedAt);
    var written := warehouse.table.WriteInsertOnly(rows, engine);
    WarehouseMeans(warehouse);
    if written.Failure? && written.error != D.CountFailed {
      return Failure(DeltaWrite(written.error)), stage;
    }
    stage := RawLanded;
    if written.Failure? {
      return Failure(DeltaWrite(written.error)), stage;
    }
    if dbt == BeforeSilver || !RawTestsPass(warehouse.table.rows) {
      return Failure(DbtBuild), stage;
    }
    warehouse.BuildSilver(cfg, w);
    WarehouseMeans(warehouse);
    stage := SilverBuilt;
    if dbt == AfterSilver || !SilverTestsPass(cfg, warehouse.silver) {
      return Failure(DbtBuild), stage;
    }
    warehouse.BuildGold(cfg, w, updatedAt);
    WarehouseMeans(warehouse);
    stage := GoldBuilt;
    if dbt == AfterGold || !GoldTestsPass(cfg, warehouse.gold) {
      return Failure(DbtBuild), stage;
    }
    return Success(RunReport(f.range.fromBlock, f.range.toBlock, |f.logs|, |rows|, written.value)), stage;
  }
}
