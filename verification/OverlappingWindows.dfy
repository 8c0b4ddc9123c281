/**
 Histories whose windows may overlap in any way. Which window a row was collected for then depends on the order of
 the runs, and nothing else in raw and silver does.
 */
module OverlappingWindows {
  import opened Chain
  import opened LogNormalizer
  import opened Incremental
  import opened Silver
  import opened Gold
  import opened Pipeline
  import opened Convergence
  import D = DeltaWriter

  // --- Facts and transfers without the window they were collected for ---

  ghost function Bare(f: LogFact): LogFact {
    f.(intervalStart := 0, intervalEnd := 0)
  }

  ghost function BareItem(x: Item): Item {
    (x.0, x.1.(intervalStart := 0, intervalEnd := 0))
  }

  ghost function BareFacts(facts: set<LogFact>): set<LogFact> {
    set f | f in facts :: Bare(f)
  }

  ghost function BareItems(items: set<Item>): set<Item> {
    set x | x in items :: BareItem(x)
  }

  ghost predicate AllLandable(s: Setup, ws: set<Window>)
    requires StrictlyIncreasing(s.chain)
  {
    forall w | w in ws :: Landable(s, w)
  }

  lemma FactForOther(s: Setup, l: RawLog, v: Window, w: Window)
    ensures FactOnChain(s, l, v).Some? <==> FactOnChain(s, l, w).Some?
    ensures FactOnChain(s, l, v).Some? ==>
      FactOnChain(s, l, w).value == FactOnChain(s, l, v).value.(intervalStart := w.start, intervalEnd := w.end)
  {
    hide RequiredHex, TopicOrNone, OptionalHexQuantity, Uint256.DecodeUint256, HexQuantity;
  }

  /** A fact of one window is, up to the interval columns, a fact of every other window that its block lies in. */
  lemma FactOfOtherWindow(s: Setup, v: Window, f: LogFact, w: Window)
    requires SoundChain(s.chain) && f in WindowFacts(s, v) && InWindow(f.blockTimestamp, w)
    ensures f.(intervalStart := w.start, intervalEnd := w.end) in WindowFacts(s, w)
  {
    hide StrictlyIncreasing, HonestLogs, OneBlockPerKey, WindowFacts, FactOnChain;
    var b, l := FactInWindow(s, v, f);
    FactForOther(s, l, v, w);
    FactOfLog(s, w, b, l);
  }

  /** A natural key determines the fact up to the interval columns. */
  lemma KeyDeterminesBareFact(s: Setup, v: Window, w: Window, f: LogFact, g: LogFact)
    requires SoundChain(s.chain) && f in WindowFacts(s, v) && g in WindowFacts(s, w)
    requires f.Key() == g.Key() && Landable(s, v)
    ensures Bare(f) == Bare(g)
  {
    hide FactOnChain, WindowFacts, D.Facts, D.Conflict, StrictlyIncreasing, HonestLogs, D.KeyFunctional, Landable;
    var b, l := FactInWindow(s, v, f);
    var c, m := FactInWindow(s, w, g);
    KeyColumns(s, l, v);
    KeyColumns(s, m, w);
    assert b == c;
    FactOfOtherWindow(s, w, g, v);
    WindowFactsFunctional(s, v);
    SameKeySameFact(WindowFacts(s, v), f, g.(intervalStart := v.start, intervalEnd := v.end));
  }

  lemma SameKeyInAll(s: Setup, ws: set<Window>, f: LogFact, g: LogFact)
    requires SoundChain(s.chain) && AllLandable(s, ws)
    requires f in AllFacts(s, ws) && g in AllFacts(s, ws) && f.Key() == g.Key()
    ensures Bare(f) == Bare(g)
  {
    hide StrictlyIncreasing, HonestLogs, OneBlockPerKey, WindowFacts, Landable;
    var v :| v in ws && f in WindowFacts(s, v);
    var w :| w in ws && g in WindowFacts(s, w);
    KeyDeterminesBareFact(s, v, w, f, g);
  }

  /** The interval columns play no part in decoding. */
  lemma DecodeBare(cfg: Config, f: LogFact, g: LogFact)
    requires Bare(f) == Bare(g)
    ensures DecodeTransfer(cfg, f).Some? <==> DecodeTransfer(cfg, g).Some?
    ensures DecodeTransfer(cfg, f).Some? ==>
      BareItem((f.Key(), DecodeTransfer(cfg, f).value)) == BareItem((g.Key(), DecodeTransfer(cfg, g).value))
    ensures f.blockTimestamp == g.blockTimestamp && f.Key() == g.Key()
  {
    hide DecodeAddress, FixedPoint.TryCast, FixedPoint.AmountText, Text.Lower;
    assert f == g.(intervalStart := f.intervalStart, intervalEnd := f.intervalEnd);
  }

  // --- The raw table ---

  /** The raw rows are facts of the windows, and every key of the windows has one. */
  ghost predicate RawCovers(s: Setup, raw: seq<LogRow>, ws: set<Window>)
    requires StrictlyIncreasing(s.chain)
  {
    && D.Facts(raw) <= AllFacts(s, ws)
    && forall f | f in AllFacts(s, ws) :: f.Key() in D.Keys(raw)
  }

  lemma BatchFacts(s: Setup, w: Window, ingestedAt: int)
    requires StrictlyIncreasing(s.chain)
    ensures D.Facts(WindowRows(s, w, ingestedAt)) == WindowFacts(s, w)
  {
    hide StrictlyIncreasing, RowsOnChain, WindowLogs, D.Facts;
    IngestionTimeIsNoFact(s, WindowLogs(s.chain, w), w, ingestedAt, 0);
    SameFacts(WindowRows(s, w, ingestedAt), WindowRows(s, w, 0));
  }

  lemma RawStaysCovering(s: Setup, raw: seq<LogRow>, ws: set<Window>, w: Window, ingestedAt: int)
    requires StrictlyIncreasing(s.chain) && RawCovers(s, raw, ws)
    ensures RawCovers(s, D.InsertRows(raw, WindowRows(s, w, ingestedAt)), ws + {w})
  {
    hide StrictlyIncreasing, D.Facts, D.Keys, D.InsertRows, WindowRows, WindowFacts, AllFacts;
    BatchFacts(s, w, ingestedAt);
    AllFactsAdd(s, ws, w);
    D.InsertExtends(raw, WindowRows(s, w, ingestedAt));
    D.FactsHaveKeys(WindowRows(s, w, ingestedAt));
  }

  lemma CoveringIsBareEqual(s: Setup, raw: seq<LogRow>, ws: set<Window>)
    requires SoundChain(s.chain) && AllLandable(s, ws) && RawCovers(s, raw, ws)
    ensures BareFacts(D.Facts(raw)) == BareFacts(AllFacts(s, ws))
  {
    hide StrictlyIncreasing, HonestLogs, OneBlockPerKey, AllLandable, AllFacts, D.Facts, D.Keys;
    forall f | f in AllFacts(s, ws) ensures Bare(f) in BareFacts(D.Facts(raw)) {
      D.KeyHasFact(raw, f.Key());
      var g :| g in D.Facts(raw) && g.Key() == f.Key();
      SameKeyInAll(s, ws, f, g);
    }
  }

  // --- The silver table ---

  /** The stored transfers are decoded from facts of landed windows, and their keys are those of the built windows. */
  ghost predicate SilverCovers(s: Setup, silver: seq<TransferRow>, landed: set<Window>, built: set<Window>)
    requires StrictlyIncreasing(s.chain)
  {
    && Contents(silver) <= FullTransfers(s.cfg, AllFacts(s, landed))
    && forall k :: k in KeysOf(silver) <==> k in ItemKeys(AllTransfers(s, built))
  }

  ghost function ItemKeys(items: set<Item>): set<LogKey> {
    set x | x in items :: x.0
  }

  /** The rows that the silver query gives for a landed window have that window's keys. */
  lemma BatchKeys(s: Setup, raw: seq<LogRow>, landed: set<Window>, w: Window)
    requires SoundChain(s.chain) && AllLandable(s, landed) && RawCovers(s, raw, landed) && w in landed
    ensures ItemKeys(Transfers(s.cfg, D.Facts(raw), w)) == ItemKeys(WindowTransfers(s, w))
    ensures Transfers(s.cfg, D.Facts(raw), w) <= FullTransfers(s.cfg, AllFacts(s, landed))
  {
    hide StrictlyIncreasing, HonestLogs, OneBlockPerKey, AllLandable, WindowFacts, D.Facts, D.Keys, DecodeTransfer,
         Bare;
    forall k | k in ItemKeys(WindowTransfers(s, w)) ensures k in ItemKeys(Transfers(s.cfg, D.Facts(raw), w)) {
      var f := FactBehind(s, w, k);
      assert f in AllFacts(s, landed);
      D.KeyHasFact(raw, k);
      var g :| g in D.Facts(raw) && g.Key() == k;
      SameKeyInAll(s, landed, f, g);
      DecodeBare(s.cfg, f, g);
      assert (g.Key(), DecodeTransfer(s.cfg, g).value) in Transfers(s.cfg, D.Facts(raw), w);
    }
    forall k | k in ItemKeys(Transfers(s.cfg, D.Facts(raw), w)) ensures k in ItemKeys(WindowTransfers(s, w)) {
      var g :| g in D.Facts(raw) && InWindow(g.blockTimestamp, w) && DecodeTransfer(s.cfg, g).Some? && g.Key() == k;
      KeyOfOtherWindow(s, landed, g, w);
    }
  }

  lemma FactBehind(s: Setup, w: Window, k: LogKey) returns (f: LogFact)
    requires StrictlyIncreasing(s.chain) && k in ItemKeys(WindowTransfers(s, w))
    ensures f in WindowFacts(s, w) && InWindow(f.blockTimestamp, w) && DecodeTransfer(s.cfg, f).Some? && f.Key() == k
  {
    hide StrictlyIncreasing, WindowFacts, DecodeTransfer;
    var x :| x in WindowTransfers(s, w) && x.0 == k;
    f :| f in WindowFacts(s, w) && InWindow(f.blockTimestamp, w) && DecodeTransfer(s.cfg, f).Some?
      && x == (f.Key(), DecodeTransfer(s.cfg, f).value);
  }

  lemma KeyOfOtherWindow(s: Setup, landed: set<Window>, g: LogFact, w: Window)
    requires SoundChain(s.chain) && g in AllFacts(s, landed)
    requires InWindow(g.blockTimestamp, w) && DecodeTransfer(s.cfg, g).Some?
    ensures g.Key() in ItemKeys(WindowTransfers(s, w))
  {
    hide StrictlyIncreasing, HonestLogs, OneBlockPerKey, WindowFacts, DecodeTransfer;
    var v :| v in landed && g in WindowFacts(s, v);
    FactOfOtherWindow(s, v, g, w);
    var f := g.(intervalStart := w.start, intervalEnd := w.end);
    DecodeBare(s.cfg, f, g);
    assert (f.Key(), DecodeTransfer(s.cfg, f).value) in WindowTransfers(s, w);
  }

  lemma SilverStaysCovering(s: Setup, raw: seq<LogRow>, silver: seq<TransferRow>, landed: set<Window>,
                            built: set<Window>, w: Window)
    requires SoundChain(s.chain) && AllLandable(s, landed) && w in landed
    requires D.UniqueKeys(raw) && RawCovers(s, raw, landed) && SilverCovers(s, silver, landed, built)
    ensures SilverCovers(s, DeleteInsert(silver, SilverQuery(s.cfg, raw, w)), landed, built + {w})
  {
    hide StrictlyIncreasing, HonestLogs, OneBlockPerKey, AllLandable, RawCovers, D.Facts, D.KeyFunctional, D.UniqueKeys,
         AllFacts, AllTransfers, WindowTransfers, Transfers, FullTransfers, SilverQuery, Contents, KeysOf, DeleteInsert;
    var batch := SilverQuery(s.cfg, raw, w);
    D.ConflictMeans(raw);
    UniqueHasNoConflict(raw);
    SilverQueryMeans(s.cfg, raw, w);
    BatchKeys(s, raw, landed, w);
    AllFactsAdd(s, built, w);
    DeleteInsertOverrides(silver, batch);
    DeleteInsertKeys(silver, batch);
    KeysOfItems(batch);
    assert ItemKeys(AllTransfers(s, built) + WindowTransfers(s, w))
        == ItemKeys(AllTransfers(s, built)) + ItemKeys(WindowTransfers(s, w));
  }

  lemma KeysOfItems(rows: seq<TransferRow>)
    ensures KeysOf(rows) == ItemKeys(Contents(rows))
  {
    KeysAreContents(rows);
  }

  lemma UniqueHasNoConflict(rows: seq<LogRow>)
    requires D.UniqueKeys(rows)
    ensures !D.Conflict(rows)
  {
  }

  lemma DeleteInsertKeys<K, F>(target: seq<Row<K, F>>, batch: seq<Row<K, F>>)
    ensures KeysOf(DeleteInsert(target, batch)) == KeysOf(target) + KeysOf(batch)
  {
    hide KeysOf, Without;
    WithoutContents(target, KeysOf(batch));
    RowsAppend(Without(target, KeysOf(batch)), batch);
  }

  lemma SilverIsBareEqual(s: Setup, silver: seq<TransferRow>, landed: set<Window>, built: set<Window>)
    requires SoundChain(s.chain) && AllLandable(s, landed) && built <= landed && SilverCovers(s, silver, landed, built)
    ensures BareItems(Contents(silver)) == BareItems(AllTransfers(s, built))
  {
    hide StrictlyIncreasing, HonestLogs, OneBlockPerKey, AllLandable, WindowFacts, DecodeTransfer, BareItem, KeysOf,
         Contents;
    KeysAreContents(silver);
    forall x, y | x in Contents(silver) && y in AllTransfers(s, built) && x.0 == y.0
      ensures BareItem(x) == BareItem(y)
    {
      var f :| f in AllFacts(s, landed) && DecodeTransfer(s.cfg, f).Some?
        && x == (f.Key(), DecodeTransfer(s.cfg, f).value);
      var w :| w in built && y in WindowTransfers(s, w);
      var g :| g in WindowFacts(s, w) && InWindow(g.blockTimestamp, w) && DecodeTransfer(s.cfg, g).Some?
        && y == (g.Key(), DecodeTransfer(s.cfg, g).value);
      SameKeyInAll(s, landed, f, g);
      DecodeBare(s.cfg, f, g);
    }
    forall x | x in Contents(silver) ensures BareItem(x) in BareItems(AllTransfers(s, built)) {
      assert x.0 in KeysOf(silver);
      var y :| y in AllTransfers(s, built) && y.0 == x.0;
      assert BareItem(y) in BareItems(AllTransfers(s, built));
    }
    forall y | y in AllTransfers(s, built) ensures BareItem(y) in BareItems(Contents(silver)) {
      assert y.0 in ItemKeys(AllTransfers(s, built));
      var x :| x in Contents(silver) && x.0 == y.0;
      assert BareItem(x) in BareItems(Contents(silver));
    }
  }

  // --- Every history ---

  lemma FeasibleMeans(s: Setup, runs: seq<Run>)
    requires StrictlyIncreasing(s.chain) && Feasible(s, runs)
    ensures AllLandable(s, Reached(runs, RawLanded))
    ensures runs != [] ==> Feasible(s, runs[..|runs| - 1])
  {
    hide StrictlyIncreasing, Landable;
  }

  lemma {:induction false} AnyHistoryCovers(s: Setup, runs: seq<Run>)
    requires SoundChain(s.chain) && Feasible(s, runs)
    ensures D.UniqueKeys(Play(s, runs).raw)
    ensures RawCovers(s, Play(s, runs).raw, Reached(runs, RawLanded))
    ensures SilverCovers(s, Play(s, runs).silver, Reached(runs, RawLanded), Reached(runs, SilverBuilt))
  {
    hide StrictlyIncreasing, HonestLogs, OneBlockPerKey, Feasible, AllLandable, RawCovers, SilverCovers, Reached,
         D.UniqueKeys, D.InsertRows, WindowRows, SilverQuery, GoldQuery, DeleteInsert;
    FeasibleMeans(s, runs);
    if runs == [] {
      NothingCovers(s);
    } else {
      var front, r := runs[..|runs| - 1], runs[|runs| - 1];
      assert runs == front + [r];
      AnyHistoryCovers(s, front);
      ReachedAdd(front, r, RawLanded);
      ReachedAdd(front, r, SilverBuilt);
      if r.stage != Aborted {
        var t, rows := Play(s, front), WindowRows(s, r.window, r.ingestedAt);
        RawStaysCovering(s, t.raw, Reached(front, RawLanded), r.window, r.ingestedAt);
        D.InsertKeepsUnique(t.raw, rows);
        MoreLanded(s, t.silver, Reached(front, RawLanded), Reached(runs, RawLanded), Reached(front, SilverBuilt));
        if r.stage.Rank() >= 2 {
          SilverStaysCovering(s, D.InsertRows(t.raw, rows), t.silver, Reached(runs, RawLanded),
                              Reached(front, SilverBuilt), r.window);
        }
      }
    }
  }

  lemma NothingCovers(s: Setup)
    requires StrictlyIncreasing(s.chain)
    ensures D.UniqueKeys([]) && RawCovers(s, [], Reached([], RawLanded))
    ensures SilverCovers(s, [], Reached([], RawLanded), Reached([], SilverBuilt))
  {
    hide StrictlyIncreasing, WindowFacts, WindowTransfers;
    RowsNone<LogKey, Transfer>();
  }

  lemma MoreLanded(s: Setup, silver: seq<TransferRow>, landed: set<Window>, more: set<Window>, built: set<Window>)
    requires StrictlyIncreasing(s.chain) && landed <= more && SilverCovers(s, silver, landed, built)
    ensures SilverCovers(s, silver, more, built)
  {
    hide StrictlyIncreasing, WindowFacts, AllTransfers, DecodeTransfer, Contents, KeysOf;
    assert AllFacts(s, landed) <= AllFacts(s, more);
  }

  /**
   Raw and silver after any history, whatever its windows: up to the interval columns exactly the facts and
   transfers of the windows that some run took that far.
   */
  lemma OverlappingClosedForm(s: Setup, runs: seq<Run>)
    requires SoundChain(s.chain) && Feasible(s, runs)
    ensures BareFacts(D.Facts(Play(s, runs).raw)) == BareFacts(AllFacts(s, Reached(runs, RawLanded)))
    ensures BareItems(Contents(Play(s, runs).silver)) == BareItems(AllTransfers(s, Reached(runs, SilverBuilt)))
  {
    hide *;
    SoundMeans(s.chain);
    FeasibleMeans(s, runs);
    AnyHistoryCovers(s, runs);
    ReachedNested(runs);
    CoveringIsBareEqual(s, Play(s, runs).raw, Reached(runs, RawLanded));
    SilverIsBareEqual(s, Play(s, runs).silver, Reached(runs, RawLanded), Reached(runs, SilverBuilt));
  }

  /** How the instants are cut into windows makes no difference to what they are worth. */
  lemma SameInstantsSameFacts(s: Setup, a: set<Window>, b: set<Window>)
    requires SoundChain(s.chain) && forall t | InSome(t, a) :: InSome(t, b)
    ensures BareFacts(AllFacts(s, a)) <= BareFacts(AllFacts(s, b))
    ensures BareItems(AllTransfers(s, a)) <= BareItems(AllTransfers(s, b))
  {
    hide StrictlyIncreasing, HonestLogs, OneBlockPerKey, WindowFacts, DecodeTransfer;
    forall v, f | v in a && f in WindowFacts(s, v)
      ensures Bare(f) in BareFacts(AllFacts(s, b))
      ensures DecodeTransfer(s.cfg, f).Some? ==>
        BareItem((f.Key(), DecodeTransfer(s.cfg, f).value)) in BareItems(AllTransfers(s, b))
    {
      var c, l := FactInWindow(s, v, f);
      assert InSome(f.blockTimestamp, a);
      var w :| w in b && InWindow(f.blockTimestamp, w);
      CountedThere(s, v, f, b, w);
    }
  }

  lemma CountedThere(s: Setup, v: Window, f: LogFact, b: set<Window>, w: Window)
    requires SoundChain(s.chain) && f in WindowFacts(s, v) && w in b && InWindow(f.blockTimestamp, w)
    ensures Bare(f) in BareFacts(AllFacts(s, b))
    ensures DecodeTransfer(s.cfg, f).Some? ==>
      BareItem((f.Key(), DecodeTransfer(s.cfg, f).value)) in BareItems(AllTransfers(s, b))
  {
    hide StrictlyIncreasing, HonestLogs, OneBlockPerKey, WindowFacts, DecodeTransfer, BareItem;
    FactOfOtherWindow(s, v, f, w);
    var g := f.(intervalStart := w.start, intervalEnd := w.end);
    assert g in AllFacts(s, b) && Bare(g) == Bare(f);
    DecodeBare(s.cfg, f, g);
    if DecodeTransfer(s.cfg, g).Some? {
      var x := (g.Key(), DecodeTransfer(s.cfg, g).value);
      assert x in WindowTransfers(s, w);
      assert x in AllTransfers(s, b);
    }
  }

  /**
   Two histories that landed and built the same instants, by whatever windows and in whatever order, hold the same
   raw rows and the same transfers up to the interval columns.
   */
  lemma SameInstantsSameTables(s: Setup, a: seq<Run>, b: seq<Run>)
    requires SoundChain(s.chain) && Feasible(s, a) && Feasible(s, b)
    requires forall t :: InSome(t, Reached(a, RawLanded)) <==> InSome(t, Reached(b, RawLanded))
    requires forall t :: InSome(t, Reached(a, SilverBuilt)) <==> InSome(t, Reached(b, SilverBuilt))
    ensures BareFacts(D.Facts(Play(s, a).raw)) == BareFacts(D.Facts(Play(s, b).raw))
    ensures BareItems(Contents(Play(s, a).silver)) == BareItems(Contents(Play(s, b).silver))
  {
    hide *;
    SoundMeans(s.chain);
    OverlappingClosedForm(s, a);
    OverlappingClosedForm(s, b);
    SameInstantsSameFacts(s, Reached(a, RawLanded), Reached(b, RawLanded));
    SameInstantsSameFacts(s, Reached(b, RawLanded), Reached(a, RawLanded));
    SameInstantsSameFacts(s, Reached(a, SilverBuilt), Reached(b, SilverBuilt));
    SameInstantsSameFacts(s, Reached(b, SilverBuilt), Reached(a, SilverBuilt));
  }
}
