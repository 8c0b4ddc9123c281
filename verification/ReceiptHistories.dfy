/** Histories on chains of receipts: jobs that all succeed, and what the tables hold after them. */
module ReceiptHistories {
  import opened Wrappers
  import opened Chain
  import opened JsonRpc
  import opened Text
  import opened Uint256
  import opened LogNormalizer
  import opened Incremental
  import opened Silver
  import opened Gold
  import opened DbtTests
  import opened Pipeline
  import opened Convergence
  import opened OverlappingWindows
  import opened OverlappingGold
  import opened Histories
  import opened Receipts
  import T = TestHistories
  import D = DeltaWriter

  /** Windows that runs can finish: none is empty. */
  ghost predicate NoneEmpty(ws: set<Window>) {
    forall w | w in ws :: w.start < w.end
  }

  // --- Jobs on a chain of receipts ---

  lemma {:induction false} Bounds(ws: set<Window>) returns (base: int, top: int)
    ensures base <= top && forall w | w in ws :: base <= w.start && w.end <= top
    decreases |ws|
  {
    if ws == {} {
      base, top := 0, 0;
    } else {
      var w :| w in ws;
      base, top := Bounds(ws - {w});
      base := if w.start < base then w.start else base;
      top := if top < w.end then w.end else top;
    }
  }

  lemma {:induction false} Listed(ws: set<Window>) returns (list: seq<Window>)
    ensures forall w :: w in list <==> w in ws
    decreases |ws|
  {
    if ws == {} {
      list := [];
    } else {
      var w :| w in ws;
      var front := Listed(ws - {w});
      list := front + [w];
    }
  }

  /** A provider of the chain up to the given head, without faults and without limits. */
  function ProviderOf(chainId: int, chain: Chain, head: nat): Provider {
    Provider(chainId, chain, head, 0, 0, imap[], imap[])
  }

  function JobFor(provider: Provider, w: Window): Job {
    Job(w, provider, imap[], 0, 4.0, 10, 0, 0, D.NoFault, DbtOk)
  }

  function JobsFor(provider: Provider, list: seq<Window>): seq<Job> {
    seq(|list|, i requires 0 <= i < |list| => JobFor(provider, list[i]))
  }

  lemma JobIsSmooth(chainId: int, chain: Chain, head: nat, w: Window)
    ensures Smooth(JobFor(ProviderOf(chainId, chain, head), w))
  {
    var provider := ProviderOf(chainId, chain, head);
    forall k: nat ensures AnsweredFrom(provider, 0, k) {
      assert provider.FaultAt(k).None?;
    }
  }

  lemma ReceiptsFetchable(s: Setup, p: Plan, head: nat, w: Window)
    requires HasReceipts(s, p) && SoundChain(s.chain) && p.base <= w.start < w.end <= p.base + head
    ensures Fetchable(ProviderOf(s.chainId, s.chain, head), s.chainId, w, 10)
  {
    hide HasReceipts, StrictlyIncreasing, HonestLogs, OneBlockPerKey, Fetchable, Countable;
    HasReceiptsMeans(s, p);
    ReceiptsHaveBlocks(s, p, w);
    var b: nat :| InWindow(s.chain.Time(b), w);
    HonestWindowIsFetchable(ProviderOf(s.chainId, s.chain, head), s.chainId, w, 10);
  }

  lemma NarrowReceiptsPass(s: Setup, p: Plan, ws: set<Window>)
    requires HasReceipts(s, p) && SoundChain(s.chain) && IsNarrow(p.data)
    ensures T.NoneWide(s.cfg, AllTransfers(s, ws))
  {
    hide HasReceipts, StrictlyIncreasing, HonestLogs, OneBlockPerKey, Countable, IsNarrow, WindowTransfers, ReceiptItem,
         T.IsWide;
    HasReceiptsMeans(s, p);
    forall x | x in AllTransfers(s, ws) ensures !T.IsWide(s.cfg, x.1) {
      var u :| u in ws && x in WindowTransfers(s, u);
      ReceiptsOfWindow(s, p, u, x);
      var k: nat :| k < 2 && InWindow(p.At(k), u) && x == ReceiptItem(s, p, k, u);
      ReceiptItemMeans(s, p, k, u);
    }
  }

  lemma ReceiptRunsFeasible(s: Setup, p: Plan, runs: seq<Run>)
    requires HasReceipts(s, p) && SoundChain(s.chain)
    requires forall r | r in runs :: p.base <= r.window.start < r.window.end
    ensures Feasible(s, runs)
  {
    hide HasReceipts, StrictlyIncreasing, HonestLogs, OneBlockPerKey, Landable, HasBlock;
    forall r | r in runs ensures HasBlock(s.chain, r.window) && Landable(s, r.window) {
      ReceiptsHaveBlocks(s, p, r.window);
      ReceiptsLandable(s, p, r.window);
    }
  }

  /** On the main chain, jobs for windows of narrow receipts all go well, in whatever order. */
  lemma ReceiptJobsGoWell(s: Setup, p: Plan, head: nat, list: seq<Window>)
    requires HasReceipts(s, p) && SoundChain(s.chain) && IsNarrow(p.data) && s.chainId == 1
    requires forall w | w in list :: p.base <= w.start < w.end <= p.base + head
    ensures AllGoWell(s, JobsFor(ProviderOf(1, s.chain, head), list))
  {
    hide HasReceipts, StrictlyIncreasing, HonestLogs, OneBlockPerKey, Landable, HasBlock, Fetchable, TestsPass, Smooth,
         IsNarrow, Feasible, Reached, Play, T.NoneWide, AllTransfers;
    var jobs := JobsFor(ProviderOf(1, s.chain, head), list);
    forall i | 0 <= i < |jobs|
      ensures Smooth(jobs[i])
      ensures Fetchable(jobs[i].provider, 1, jobs[i].window, jobs[i].maxBlocks) && Landable(s, jobs[i].window)
      ensures TestsPass(s, Play(s, Planned(jobs)[..i]), jobs[i].window, 0, 0)
    {
      var w := list[i];
      assert w in list;
      JobIsSmooth(1, s.chain, head, w);
      ReceiptsFetchable(s, p, head, w);
      ReceiptsLandable(s, p, w);
      ReceiptsHaveBlocks(s, p, w);
      var front := Planned(jobs)[..i];
      forall r | r in front ensures p.base <= r.window.start < r.window.end {
        var j :| 0 <= j < i && front[j] == r;
        assert r.window == list[j] && list[j] in list;
      }
      ReceiptRunsFeasible(s, p, front);
      NarrowReceiptsPass(s, p, Reached(front, SilverBuilt) + {w});
      T.TestsOfNextRun(s, front, w, 0, 0);
    }
  }

  // --- What silver holds on such a chain ---

  /** A stored transfer is one of the receipts, collected for some landed window. */
  lemma SilverIsReceipt(s: Setup, p: Plan, runs: seq<Run>, x: Item) returns (k: nat, u: Window)
    requires HasReceipts(s, p) && SoundChain(s.chain) && Feasible(s, runs) && x in Contents(Play(s, runs).silver)
    ensures Countable(s.cfg) && p.Valid() && k < 2
    ensures u in Reached(runs, RawLanded) && InWindow(p.At(k), u) && x == ReceiptItem(s, p, k, u)
  {
    hide HasReceipts, StrictlyIncreasing, HonestLogs, OneBlockPerKey, Feasible, Contents, Play, RawCovers, WindowFacts,
         FactOnChain, Receipt, DecodeTransfer, Reached, Countable, KeysOf, D.UniqueKeys, AllTransfers;
    HasReceiptsMeans(s, p);
    AnyHistoryCovers(s, runs);
    var f :| f in AllFacts(s, Reached(runs, RawLanded)) && DecodeTransfer(s.cfg, f).Some?
      && x == (f.Key(), DecodeTransfer(s.cfg, f).value);
    u :| u in Reached(runs, RawLanded) && f in WindowFacts(s, u);
    k := FactIsReceipt(s, p, u, f);
  }

  /** A receipt that lies in a built window is stored, once. */
  lemma ReceiptIsStored(s: Setup, p: Plan, runs: seq<Run>, k: nat, w: Window) returns (x: Item)
    requires HasReceipts(s, p) && SoundChain(s.chain) && Feasible(s, runs) && k < 2
    requires w in Reached(runs, SilverBuilt) && InWindow(p.At(k), w)
    ensures x in Contents(Play(s, runs).silver) && x.0 == LogKey(s.chainId, Hash(k), 0)
    ensures forall y | y in Contents(Play(s, runs).silver) && y.0 == x.0 :: y == x
  {
    hide HasReceipts, StrictlyIncreasing, HonestLogs, OneBlockPerKey, Feasible, Contents, Play, RawCovers,
         WindowTransfers, Receipt, DecodeTransfer, Reached, Countable, KeysOf, D.UniqueKeys, Incremental.UniqueKeys,
         ReceiptItem, Hash;
    HasReceiptsMeans(s, p);
    AnyHistoryCovers(s, runs);
    var item := ReceiptItem(s, p, k, w);
    ReceiptItemMeans(s, p, k, w);
    ReceiptsOfWindow(s, p, w, item);
    assert item in AllTransfers(s, Reached(runs, SilverBuilt));
    assert item.0 in ItemKeys(AllTransfers(s, Reached(runs, SilverBuilt)));
    KeysAreContents(Play(s, runs).silver);
    x :| x in Contents(Play(s, runs).silver) && x.0 == item.0;
    SilverIsUnique(s, runs);
    UniqueContents(Play(s, runs).silver);
  }

  lemma UniqueContents(rows: seq<TransferRow>)
    requires Incremental.UniqueKeys(rows)
    ensures forall a, b | a in Contents(rows) && b in Contents(rows) && a.0 == b.0 :: a == b
  {
  }

  /** When both receipts lie in built windows, they are what silver holds. */
  lemma PairIsStored(s: Setup, p: Plan, runs: seq<Run>, v: Window, w: Window) returns (x: Item, y: Item)
    requires HasReceipts(s, p) && SoundChain(s.chain) && Feasible(s, runs)
    requires v in Reached(runs, SilverBuilt) && InWindow(p.first, v)
    requires w in Reached(runs, SilverBuilt) && InWindow(p.second, w)
    ensures Contents(Play(s, runs).silver) == {x, y}
    ensures x.1.blockTimestamp == p.first && y.1.blockTimestamp == p.second && p.first != p.second
    ensures IsNarrow(p.data) ==> Counted(s.cfg, x.1) && Counted(s.cfg, y.1)
    ensures HourOf(p.first) == HourOf(p.second) ==> FlowKeyOf(s.cfg, x) == FlowKeyOf(s.cfg, y)
  {
    hide HasReceipts, StrictlyIncreasing, HonestLogs, OneBlockPerKey, Feasible, Contents, Play, Reached, Countable,
         ReceiptItem, Hash, IsNarrow, Counted, FlowKeyOf, HourOf;
    HasReceiptsMeans(s, p);
    x := ReceiptIsStored(s, p, runs, 0, v);
    y := ReceiptIsStored(s, p, runs, 1, w);
    StoredReceipt(s, p, runs, 0, x);
    StoredReceipt(s, p, runs, 1, y);
    forall z | z in Contents(Play(s, runs).silver) ensures z in {x, y} {
      var k, u := SilverIsReceipt(s, p, runs, z);
      ReceiptItemMeans(s, p, k, u);
    }
  }

  lemma StoredReceipt(s: Setup, p: Plan, runs: seq<Run>, k: nat, x: Item)
    requires HasReceipts(s, p) && SoundChain(s.chain) && Feasible(s, runs) && k < 2
    requires x in Contents(Play(s, runs).silver) && x.0 == LogKey(s.chainId, Hash(k), 0)
    ensures x.1.blockTimestamp == p.At(k) && (IsNarrow(p.data) <==> Counted(s.cfg, x.1))
    ensures FlowKeyOf(s.cfg, x)
         == FlowKey(s.chainId, Lower(s.cfg.usdtContract), Lower(s.cfg.treasury), HourOf(p.At(k)), Inflow)
  {
    hide HasReceipts, StrictlyIncreasing, HonestLogs, OneBlockPerKey, Feasible, Contents, Play, Reached, Countable,
         ReceiptItem, Hash, IsNarrow, Counted, FlowKeyOf, HourOf, Lower;
    HasReceiptsMeans(s, p);
    var j, u := SilverIsReceipt(s, p, runs, x);
    ReceiptItemMeans(s, p, j, u);
    HashDiffers(j, k);
  }

  /** The windows in some order with the given one at the end. */
  lemma ListedLast(ws: set<Window>, w: Window) returns (list: seq<Window>)
    requires w in ws
    ensures list != [] && list[|list| - 1] == w && forall u :: u in list <==> u in ws
  {
    var front := Listed(ws - {w});
    list := front + [w];
  }

  lemma PlannedReach(provider: Provider, list: seq<Window>, ws: set<Window>)
    requires forall u :: u in list <==> u in ws
    ensures Reached(Planned(JobsFor(provider, list)), GoldBuilt) == ws
    ensures forall r | r in Planned(JobsFor(provider, list)) :: r.stage == GoldBuilt && r.window in ws
  {
    var runs := Planned(JobsFor(provider, list));
    forall u | u in ws ensures u in Reached(runs, GoldBuilt) {
      var i :| 0 <= i < |list| && list[i] == u;
      assert runs[i] in runs && runs[i].window == u;
    }
    forall r | r in runs ensures r.stage == GoldBuilt && r.window in ws {
      var i :| 0 <= i < |runs| && runs[i] == r;
      assert list[i] in list;
    }
  }

  lemma PlanHasReceipts(s: Setup, p: Plan)
    requires Countable(s.cfg) && p.base <= p.first && p.base <= p.second && p.first != p.second
    requires IsUint256Word(p.data) && IsLower(p.data) && s.chain == ChainOf(s.cfg, p)
    ensures HasReceipts(s, p)
  {
  }

  lemma LastPlanned(provider: Provider, list: seq<Window>)
    requires list != []
    ensures var runs := Planned(JobsFor(provider, list));
      |runs| == |list| && runs[|runs| - 1].stage == GoldBuilt && runs[|runs| - 1].window == list[|list| - 1]
  {
  }

  lemma JobsAreOnChain(chainId: int, chain: Chain, head: nat, list: seq<Window>)
    ensures OnChain(chain, JobsFor(ProviderOf(chainId, chain, head), list))
  {
  }

  // --- One wide transfer ---

  /**
   A history that blocks itself: one window with a transfer of the token for the largest amount there is. Once it
   is in silver, the tests of every later run fail, whatever its window and whatever happens in between.
   */
  lemma OneWideTransferBlocksAll(cfg: Config, chainId: int, w: Window) returns (chain: Chain, run: Run)
    requires Countable(cfg) && w.start < w.end
    ensures var s := Setup(chain, chainId, cfg);
      && SoundChain(chain) && Feasible(s, [run]) && run.window == w && run.stage == SilverBuilt
      && !SilverTestsPass(cfg, Play(s, [run]).silver)
      && forall more, u, ingestedAt, updatedAt |
           Feasible(s, [run] + more) && HasBlock(chain, u) && Landable(s, u) ::
           !TestsPass(s, Play(s, [run] + more), u, ingestedAt, updatedAt)
  {
    hide HasReceipts, StrictlyIncreasing, HonestLogs, OneBlockPerKey, Feasible, Play, Reached, Countable, IsNarrow,
         IsUint256Word, IsLower, ChainOf, SilverTestsPass, TestsPass, Landable, HasBlock, T.NoneWide, AllTransfers,
         ReceiptItem;
    WideIsNotNarrow();
    var p := Plan(w.start, w.start, w.end, WIDE_WORD);
    chain := ChainOf(cfg, p);
    var s := Setup(chain, chainId, cfg);
    PlanHasReceipts(s, p);
    HasReceiptsMeans(s, p);
    run := Run(w, SilverBuilt, 0, 0);
    ReceiptRunsFeasible(s, p, [run]);
    RunWasReached([run], run);
    WideReceiptFails(s, p, w, [run]);
    forall more, u, ingestedAt, updatedAt | Feasible(s, [run] + more) && HasBlock(chain, u) && Landable(s, u)
      ensures !TestsPass(s, Play(s, [run] + more), u, ingestedAt, updatedAt)
    {
      T.TestsOfNextRun(s, [run] + more, u, ingestedAt, updatedAt);
      RunWasReached([run] + more, run);
      WideReceiptCounts(s, p, w, Reached([run] + more, SilverBuilt) + {u});
    }
  }

  lemma RunWasReached(runs: seq<Run>, r: Run)
    requires r in runs && r.stage == SilverBuilt
    ensures r.window in Reached(runs, SilverBuilt)
  {
  }

  lemma WideReceiptCounts(s: Setup, p: Plan, w: Window, ws: set<Window>)
    requires HasReceipts(s, p) && SoundChain(s.chain) && !IsNarrow(p.data) && InWindow(p.first, w) && w in ws
    ensures !T.NoneWide(s.cfg, AllTransfers(s, ws))
  {
    hide HasReceipts, StrictlyIncreasing, HonestLogs, OneBlockPerKey, Countable, IsNarrow, WindowTransfers, ReceiptItem,
         T.IsWide;
    HasReceiptsMeans(s, p);
    var x := ReceiptItem(s, p, 0, w);
    ReceiptItemMeans(s, p, 0, w);
    ReceiptsOfWindow(s, p, w, x);
    assert x in AllTransfers(s, ws);
  }

  lemma WideReceiptFails(s: Setup, p: Plan, w: Window, runs: seq<Run>)
    requires HasReceipts(s, p) && SoundChain(s.chain) && !IsNarrow(p.data) && InWindow(p.first, w)
    requires Feasible(s, runs) && w in Reached(runs, SilverBuilt)
    ensures !SilverTestsPass(s.cfg, Play(s, runs).silver)
  {
    hide HasReceipts, StrictlyIncreasing, HonestLogs, OneBlockPerKey, Feasible, IsNarrow, Play, SilverTestsPass,
         T.NoneWide, AllTransfers;
    WideReceiptCounts(s, p, w, Reached(runs, SilverBuilt));
    T.SilverTestsAfterAnyHistory(s, runs);
  }

  // --- A configuration for which nothing is ever counted ---

  lemma CountedNeedsCountable(cfg: Config, t: Transfer)
    requires T.Derived(cfg, t) && Counted(cfg, t)
    ensures Countable(cfg)
  {
    hide DecodeTransfer, Lower, D.MatchesItsData, DecodeAddress;
    var f :| Normalized(f) && DecodeTransfer(cfg, f) == Some(t);
    TransferColumns(cfg, f);
    AddressShape(f.topic1);
    AddressShape(f.topic2);
  }

  lemma NothingCounted(s: Setup, items: set<Item>)
    requires !Countable(s.cfg) && T.SoundTransfers(s, items)
    ensures CountedItems(s.cfg, items) == {} && Flows(s.cfg, CountedItems(s.cfg, items)) == {}
  {
    hide Countable, Counted, T.Derived, Flows;
    forall x | x in items ensures !Counted(s.cfg, x.1) {
      if Counted(s.cfg, x.1) {
        CountedNeedsCountable(s.cfg, x.1);
      }
    }
    NoGroups(s.cfg);
  }

}
