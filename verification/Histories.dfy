/** A list of runs on one warehouse, as the scheduler makes them: one at a time, whatever becomes of each. */
module Histories {
  import opened Wrappers
  import opened Chain
  import opened JsonRpc
  import opened LogNormalizer
  import opened Silver
  import opened Pipeline
  import opened Convergence
  import D = DeltaWriter
  import R = BlockRange

  /** One scheduled or manual run: its window, the provider as it is then, and what happens to storage and dbt. */
  datatype Job = Job(
    window: Window,
    provider: Provider,
    lag: imap<nat, Seconds>,
    maxRetries: nat,
    requestsPerSecond: real,
    maxBlocks: int,
    ingestedAt: int,
    updatedAt: int,
    engine: D.EngineFault,
    dbt: DbtFault)

  /** The jobs are on one chain, at rates that a client accepts. */
  ghost predicate OnChain(chain: Chain, jobs: seq<Job>) {
    forall j | j in jobs :: j.provider.chain == chain && 0.0 < j.requestsPerSecond <= 4.0
  }

  /** Nothing goes wrong outside: storage and dbt do not fail, and the retries overcome the provider's faults. */
  ghost predicate Smooth(j: Job) {
    Calm(j.provider, j.maxRetries) && j.engine == D.NoFault && j.dbt == DbtOk
  }

  /** What a job on these tables comes to: the run that it makes of its window, and the result that it reports. */
  ghost predicate Outcome(s: Setup, t: Tables, j: Job, r: Run, result: Result<RunReport, RunError>)
    requires StrictlyIncreasing(s.chain)
  {
    && j.provider.chain == s.chain
    && r.window == j.window && r.ingestedAt == j.ingestedAt && r.updatedAt == j.updatedAt
    && (r.stage != Aborted ==> Fetchable(j.provider, s.chainId, j.window, j.maxBlocks) && Landable(s, j.window))
    && (result.Success? ==> r.stage == GoldBuilt)
    && (result.Failure? ==> (r.stage != Aborted <==> result.error in {DbtBuild, DeltaWrite(D.CountFailed)}))
    && (Smooth(j) ==>
          (result.Success? <==>
            && Fetchable(j.provider, s.chainId, j.window, j.maxBlocks) && Landable(s, j.window)
            && TestsPass(s, t, j.window, j.ingestedAt, j.updatedAt)))
  }

  /** The runs and results of some jobs, each on the tables that the runs before it left. */
  ghost predicate RunsOf(s: Setup, jobs: seq<Job>, runs: seq<Run>, results: seq<Result<RunReport, RunError>>)
    requires StrictlyIncreasing(s.chain)
  {
    && |runs| == |jobs| == |results| && Feasible(s, runs)
    && forall i | 0 <= i < |jobs| :: Outcome(s, Play(s, runs[..i]), jobs[i], runs[i], results[i])
  }

  lemma NoRuns(s: Setup)
    requires StrictlyIncreasing(s.chain)
    ensures RunsOf(s, [], [], []) && Play(s, []) == Tables([], [], [])
  {
  }

  lemma RunsAdd(s: Setup, jobs: seq<Job>, runs: seq<Run>, results: seq<Result<RunReport, RunError>>, i: nat, r: Run,
                result: Result<RunReport, RunError>)
    requires StrictlyIncreasing(s.chain) && i < |jobs| && RunsOf(s, jobs[..i], runs, results)
    requires Outcome(s, Play(s, runs), jobs[i], r, result)
    ensures RunsOf(s, jobs[..i + 1], runs + [r], results + [result])
    ensures Play(s, runs + [r]) == Effect(s, Play(s, runs), r.window, r.stage, r.ingestedAt, r.updatedAt)
  {
    hide StrictlyIncreasing, Landable, Effect, Outcome, HasBlock;
    if r.stage != Aborted {
      LandedHasBlock(s, Play(s, runs), jobs[i], r, result);
    }
    var all := runs + [r];
    assert all[..|runs|] == runs;
    forall k | 0 <= k < i ensures Outcome(s, Play(s, all[..k]), jobs[k], all[k], (results + [result])[k]) {
      assert all[..k] == runs[..k] && jobs[..i][k] == jobs[k];
    }
  }

  lemma FetchableHasBlock(provider: Provider, chainId: int, w: Window, maxBlocks: int)
    requires StrictlyIncreasing(provider.chain) && Fetchable(provider, chainId, w, maxBlocks)
    ensures HasBlock(provider.chain, w)
  {
    hide StrictlyIncreasing, R.OutOfWindow, NumbersReadable, BlocksAccessible;
    EmptyInterval(provider.chain, w);
    var b: nat :| w.start <= provider.chain.Time(b) < w.end;
  }

  lemma LandedHasBlock(s: Setup, t: Tables, j: Job, r: Run, result: Result<RunReport, RunError>)
    requires StrictlyIncreasing(s.chain) && Outcome(s, t, j, r, result) && r.stage != Aborted
    ensures HasBlock(s.chain, r.window) && Landable(s, r.window)
  {
    hide StrictlyIncreasing, Landable, TestsPass, Smooth, Fetchable, HasBlock;
    FetchableHasBlock(j.provider, s.chainId, j.window, j.maxBlocks);
  }

  lemma OutcomeMeans(s: Setup, t: Tables, j: Job, r: Run, result: Result<RunReport, RunError>)
    requires StrictlyIncreasing(s.chain) && j.provider.chain == s.chain
    requires r == Run(j.window, r.stage, j.ingestedAt, j.updatedAt)
    requires r.stage != Aborted ==> Fetchable(j.provider, s.chainId, j.window, j.maxBlocks) && Landable(s, j.window)
    requires result.Success? ==> r.stage == GoldBuilt
    requires result.Failure? ==> (r.stage != Aborted <==> result.error in {DbtBuild, DeltaWrite(D.CountFailed)})
    requires Calm(j.provider, j.maxRetries) && j.engine == D.NoFault && j.dbt == DbtOk ==>
      (result.Success? <==>
        && Fetchable(j.provider, s.chainId, j.window, j.maxBlocks) && Landable(s, j.window)
        && TestsPass(s, t, j.window, j.ingestedAt, j.updatedAt))
    ensures Outcome(s, t, j, r, result)
  {
    hide StrictlyIncreasing, Landable, TestsPass, Calm, Fetchable;
  }

  lemma JobOnChain(chain: Chain, jobs: seq<Job>, j: Job)
    requires OnChain(chain, jobs) && j in jobs
    ensures j.provider.chain == chain && 0.0 < j.requestsPerSecond <= 4.0
  {
  }

  /**
   Run the jobs one after the other on an empty warehouse, each with a client of its own. The tables are those of
   the history of the runs that were made, so everything that is proved of histories holds of them.
   */
  method RunAll(warehouse: Warehouse, expectedChainId: int, cfg: Config, ghost chain: Chain, jobs: seq<Job>)
    returns (results: seq<Result<RunReport, RunError>>, ghost runs: seq<Run>)
    requires warehouse.Valid() && warehouse.State() == Tables([], [], [])
    requires StrictlyIncreasing(chain) && OnChain(chain, jobs)
    modifies warehouse, warehouse.table
    ensures warehouse.Valid()
    ensures var s := Setup(chain, expectedChainId, cfg);
      RunsOf(s, jobs, runs, results) && warehouse.State() == Play(s, runs)
  {
    hide *;
    ghost var s := Setup(chain, expectedChainId, cfg);
    results, runs := [], [];
    NoRuns(s);
    for i := 0 to |jobs|
      invariant warehouse.Valid()
      invariant RunsOf(s, jobs[..i], runs, results) && warehouse.State() == Play(s, runs)
    {
      var j := jobs[i];
      JobOnChain(chain, jobs, j);
      var clock := new Clock(j.lag);
      var client := new RpcClient(j.provider, clock, j.maxRetries, j.requestsPerSecond, 1.0, 0.25);
      var result, stage := RunInterval(client, warehouse, expectedChainId, cfg, j.window, j.maxBlocks,
                                       j.ingestedAt, j.updatedAt, j.engine, j.dbt);
      ghost var r := Run(j.window, stage, j.ingestedAt, j.updatedAt);
      OutcomeMeans(s, Play(s, runs), j, r, result);
      RunsAdd(s, jobs, runs, results, i, r, result);
      results, runs := results + [result], runs + [r];
    }
    assert jobs[..|jobs|] == jobs;
  }

  // --- Jobs that all succeed ---

  /** The finished runs that the jobs are meant to make. */
  function Planned(jobs: seq<Job>): seq<Run> {
    seq(|jobs|, i requires 0 <= i < |jobs| => Run(jobs[i].window, GoldBuilt, jobs[i].ingestedAt, jobs[i].updatedAt))
  }

  /** Nothing goes wrong outside, every window can be fetched and landed, and all data tests pass on the way. */
  ghost predicate AllGoWell(s: Setup, jobs: seq<Job>)
    requires StrictlyIncreasing(s.chain)
  {
    forall i | 0 <= i < |jobs| ::
      && jobs[i].provider.chain == s.chain && Smooth(jobs[i])
      && Fetchable(jobs[i].provider, s.chainId, jobs[i].window, jobs[i].maxBlocks) && Landable(s, jobs[i].window)
      && TestsPass(s, Play(s, Planned(jobs)[..i]), jobs[i].window, jobs[i].ingestedAt, jobs[i].updatedAt)
  }

  /** Such jobs make just the planned runs, and each of them reports success. */
  lemma {:induction false} WellMeansPlanned(s: Setup, jobs: seq<Job>, runs: seq<Run>,
                                            results: seq<Result<RunReport, RunError>>, n: nat)
    requires StrictlyIncreasing(s.chain) && AllGoWell(s, jobs) && RunsOf(s, jobs, runs, results) && n <= |jobs|
    ensures runs[..n] == Planned(jobs)[..n]
    ensures forall i | 0 <= i < n :: results[i].Success?
  {
    hide StrictlyIncreasing, Landable, Fetchable, TestsPass, Smooth, Play, Feasible;
    if n == 0 {
    } else {
      WellMeansPlanned(s, jobs, runs, results, n - 1);
      assert Outcome(s, Play(s, runs[..n - 1]), jobs[n - 1], runs[n - 1], results[n - 1]);
      assert runs[..n] == runs[..n - 1] + [runs[n - 1]];
    }
  }

  lemma PlannedRuns(s: Setup, jobs: seq<Job>, runs: seq<Run>, results: seq<Result<RunReport, RunError>>)
    requires StrictlyIncreasing(s.chain) && AllGoWell(s, jobs) && RunsOf(s, jobs, runs, results)
    ensures runs == Planned(jobs) && forall i | 0 <= i < |results| :: results[i].Success?
  {
    hide StrictlyIncreasing, AllGoWell, Feasible, Outcome;
    WellMeansPlanned(s, jobs, runs, results, |jobs|);
  }

  ghost predicate AllSucceed(results: seq<Result<RunReport, RunError>>) {
    forall r | r in results :: r.Success?
  }

  /** And such jobs can be made: the planned runs are an outcome of theirs. */
  lemma PlannedIsOutcome(s: Setup, jobs: seq<Job>) returns (results: seq<Result<RunReport, RunError>>)
    requires StrictlyIncreasing(s.chain) && AllGoWell(s, jobs)
    ensures RunsOf(s, jobs, Planned(jobs), results) && AllSucceed(results)
  {
    hide StrictlyIncreasing, Landable, Fetchable, TestsPass, Smooth, HasBlock;
    var report := RunReport(0, 0, 0, 0, D.WriteResult(0, 0, 0, 0));
    results := seq(|jobs|, i => Success(report));
    forall r | r in Planned(jobs) ensures HasBlock(s.chain, r.window) && Landable(s, r.window) {
      var i :| 0 <= i < |jobs| && Planned(jobs)[i] == r;
      FetchableHasBlock(jobs[i].provider, s.chainId, jobs[i].window, jobs[i].maxBlocks);
    }
  }
}
