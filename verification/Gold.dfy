/** The gold model: hourly treasury flows, aggregated from the silver transfers. */
module Gold {
  import opened Arithmetic
  import opened Text
  import opened Uint256
  import opened LogNormalizer
  import opened Incremental
  import opened Silver

  const SECONDS_PER_HOUR := 3600

  datatype Direction = Inflow | Outflow

  datatype FlowKey = FlowKey(
    chainId: int,
    contractAddress: string,
    treasury: string,
    hourStart: int,
    direction: Direction)

  /** The aggregates of one group. */
  datatype Flow = Flow(transferCount: nat, totalRaw: nat, totalUsdt: nat, sourceIntervalStart: int)

  type FlowRow = Row<FlowKey, Flow>

  /** A stored transfer without its load time. */
  type Item = (LogKey, Transfer)

  function HourOf(timestamp: int): int {
    timestamp - timestamp % SECONDS_PER_HOUR
  }

  /** An external transfer of the configured token to or from the treasury, with usable amounts. */
  predicate Counted(cfg: Config, t: Transfer) {
    && t.contractAddress == Lower(cfg.usdtContract)
    && t.amountStatus == STATUS_DECIMAL38_AVAILABLE
    && t.rawAmount.Some? && t.amountUsdt.Some?
    && (t.fromAddress == Lower(cfg.treasury) || t.toAddress == Lower(cfg.treasury))
    && !(t.fromAddress == Lower(cfg.treasury) && t.toAddress == Lower(cfg.treasury))
  }

  function DirectionOf(cfg: Config, t: Transfer): Direction {
    if t.toAddress == Lower(cfg.treasury) then Inflow else Outflow
  }

  function FlowKeyOf(cfg: Config, item: Item): FlowKey {
    FlowKey(item.0.chainId, item.1.contractAddress, Lower(cfg.treasury), HourOf(item.1.blockTimestamp),
            DirectionOf(cfg, item.1))
  }

  /** The rows the query reads: the window's counted transfers. */
  function TreasuryTransfers(cfg: Config, silver: seq<TransferRow>, w: Window): seq<TransferRow> {
    if silver == [] then []
    else
      var front := TreasuryTransfers(cfg, silver[..|silver| - 1], w);
      var row := silver[|silver| - 1];
      if Counted(cfg, row.columns) && InWindow(row.columns.blockTimestamp, w) then front + [row] else front
  }

  /** What one transfer contributes to its group. */
  function One(t: Transfer): Flow {
    Flow(1, if t.rawAmount.Some? then t.rawAmount.value else 0, if t.amountUsdt.Some? then t.amountUsdt.value else 0,
         t.intervalStart)
  }

  /** count, sum, sum and min of two disjoint parts of a group. */
  function Merge(a: Flow, b: Flow): Flow {
    Flow(a.transferCount + b.transferCount, a.totalRaw + b.totalRaw, a.totalUsdt + b.totalUsdt,
         Min(a.sourceIntervalStart, b.sourceIntervalStart))
  }

  function AddToGroup(flows: seq<FlowRow>, key: FlowKey, flow: Flow, now: int): seq<FlowRow> {
    var i := IndexOfKey(flows, key);
    if i == |flows| then flows + [Row(key, flow, now)]
    else flows[i := flows[i].(columns := Merge(flow, flows[i].columns))]
  }

  /** group by chain, contract, treasury, hour and direction. */
  function Aggregate(cfg: Config, rows: seq<TransferRow>, now: int): seq<FlowRow> {
    if rows == [] then []
    else
      var row := rows[|rows| - 1];
      AddToGroup(Aggregate(cfg, rows[..|rows| - 1], now), FlowKeyOf(cfg, (row.key, row.columns)), One(row.columns), now)
  }

  function GoldQuery(cfg: Config, silver: seq<TransferRow>, w: Window, now: int): seq<FlowRow> {
    Aggregate(cfg, TreasuryTransfers(cfg, silver, w), now)
  }

  // --- Aggregates of a set of transfers, independent of any order ---

  /** The aggregate of a non-empty set, taken in whatever order. */
  ghost function Fold(items: set<Item>): Flow
    requires items != {}
  {
    var x :| x in items;
    if items == {x} then One(x.1) else Merge(One(x.1), Fold(items - {x}))
  }

  lemma MergeSwaps(a: Flow, b: Flow, c: Flow)
    ensures Merge(a, b) == Merge(b, a) && Merge(a, Merge(b, c)) == Merge(b, Merge(a, c))
  {
  }

  lemma FoldOne(x: Item)
    ensures Fold({x}) == One(x.1)
  {
  }

  /** Any element may be taken first. */
  lemma {:induction false} FoldAny(items: set<Item>, y: Item)
    requires y in items && items != {y}
    ensures items - {y} != {} && Fold(items) == Merge(One(y.1), Fold(items - {y}))
    decreases |items|
  {
    assert items == {y} + (items - {y});
    var x :| x in items && Fold(items) == (if items == {x} then One(x.1) else Merge(One(x.1), Fold(items - {x})));
    if x != y {
      var rest := items - {x} - {y};
      assert y !in {x} && items != {x};
      if rest == {} {
        assert items - {x} == {y} && items - {y} == {x};
        FoldOne(x);
        FoldOne(y);
        assert Fold(items - {x}) == One(y.1) && Fold(items - {y}) == One(x.1);
        assert Fold(items) == Merge(One(x.1), One(y.1));
        MergeSwaps(One(x.1), One(y.1), One(x.1));
      } else {
        assert items - {x} != {y} && items - {y} != {x};
        FoldAny(items - {x}, y);
        FoldAny(items - {y}, x);
        assert items - {y} - {x} == rest;
        assert Fold(items) == Merge(One(x.1), Merge(One(y.1), Fold(rest)));
        MergeSwaps(One(x.1), One(y.1), Fold(rest));
      }
    }
  }

  lemma FoldAdd(items: set<Item>, y: Item)
    requires y !in items
    ensures Fold(items + {y}) == if items == {} then One(y.1) else Merge(One(y.1), Fold(items))
  {
    if items == {} {
      assert items + {y} == {y};
    } else {
      assert items + {y} - {y} == items;
      FoldAny(items + {y}, y);
    }
  }

  datatype Column = RawAmount | UsdtAmount

  /** The amount in a column of the transfer itself; null counts for nothing in a sum. */
  function Amount(item: Item, column: Column): nat {
    var amount := if column.RawAmount? then item.1.rawAmount else item.1.amountUsdt;
    if amount.Some? then amount.value else 0
  }

  /** The plain sum of a column over a set of transfers. */
  ghost function Sum(items: set<Item>, column: Column): nat {
    if items == {} then 0
    else
      var x :| x in items;
      Amount(x, column) + Sum(items - {x}, column)
  }

  lemma {:induction false} SumAny(items: set<Item>, column: Column, y: Item)
    requires y in items
    ensures Sum(items, column) == Amount(y, column) + Sum(items - {y}, column)
    decreases |items|
  {
    var x :| x in items && Sum(items, column) == Amount(x, column) + Sum(items - {x}, column);
    if x == y {
    } else {
      SumAny(items - {x}, column, y);
      SumAny(items - {y}, column, x);
      assert items - {x} - {y} == items - {y} - {x};
    }
  }

  lemma {:induction false} SumSplit(a: set<Item>, b: set<Item>, column: Column)
    requires a !! b
    ensures Sum(a + b, column) == Sum(a, column) + Sum(b, column)
    decreases |b|
  {
    if b == {} {
      assert a + b == a;
    } else {
      var y :| y in b;
      SumAny(b, column, y);
      SumAny(a + b, column, y);
      assert a + b - {y} == a + (b - {y});
      SumSplit(a, b - {y}, column);
    }
  }

  /** The aggregate of a group is its size, its two plain sums, and its earliest interval start. */
  lemma {:induction false} FoldMeans(items: set<Item>)
    requires items != {}
    ensures Fold(items).transferCount == |items|
    ensures Fold(items).totalRaw == Sum(items, RawAmount) && Fold(items).totalUsdt == Sum(items, UsdtAmount)
    ensures forall x | x in items :: Fold(items).sourceIntervalStart <= x.1.intervalStart
    ensures exists x :: x in items && Fold(items).sourceIntervalStart == x.1.intervalStart
    decreases |items|
  {
    var y :| y in items;
    SumAny(items, RawAmount, y);
    SumAny(items, UsdtAmount, y);
    if items == {y} {
    } else {
      FoldAny(items, y);
      FoldMeans(items - {y});
      var x :| x in items - {y} && Fold(items - {y}).sourceIntervalStart == x.1.intervalStart;
      assert x in items;
    }
  }

  // --- The query as an operation on sets ---

  /** The counted transfers of a set. */
  ghost function CountedItems(cfg: Config, items: set<Item>): set<Item> {
    set x | x in items && Counted(cfg, x.1)
  }

  ghost function WindowItems(items: set<Item>, w: Window): set<Item> {
    set x | x in items && InWindow(x.1.blockTimestamp, w)
  }

  ghost function Group(cfg: Config, items: set<Item>, key: FlowKey): set<Item> {
    set x | x in items && FlowKeyOf(cfg, x) == key
  }

  ghost function GroupKeys(cfg: Config, items: set<Item>): set<FlowKey> {
    set x | x in items :: FlowKeyOf(cfg, x)
  }

  /** The flow of a group. */
  ghost function FlowOf(cfg: Config, items: set<Item>, key: FlowKey): Flow {
    var group := Group(cfg, items, key);
    if group == {} then Flow(0, 0, 0, 0) else Fold(group)
  }

  /** One flow for every group that has a transfer. */
  ghost function Flows(cfg: Config, items: set<Item>): set<(FlowKey, Flow)> {
    set k | k in GroupKeys(cfg, items) :: (k, FlowOf(cfg, items, k))
  }

  /** The stored flows are exactly the flows of the items, one row each. */
  ghost predicate Tallied(cfg: Config, flows: seq<FlowRow>, items: set<Item>) {
    && Incremental.UniqueKeys(flows)
    && KeysOf(flows) == GroupKeys(cfg, items)
    && forall r | r in flows :: r.columns == FlowOf(cfg, items, r.key)
  }

  lemma GroupAdd(cfg: Config, items: set<Item>, x: Item, key: FlowKey)
    requires x !in items
    ensures Group(cfg, items + {x}, key)
         == if FlowKeyOf(cfg, x) == key then Group(cfg, items, key) + {x} else Group(cfg, items, key)
    ensures GroupKeys(cfg, items + {x}) == GroupKeys(cfg, items) + {FlowKeyOf(cfg, x)}
    ensures key in GroupKeys(cfg, items) <==> Group(cfg, items, key) != {}
  {
    forall k ensures k in GroupKeys(cfg, items + {x}) <==> k in GroupKeys(cfg, items) + {FlowKeyOf(cfg, x)} {
      if k == FlowKeyOf(cfg, x) {
        assert x in items + {x};
      } else if k in GroupKeys(cfg, items) {
        var y :| y in items && FlowKeyOf(cfg, y) == k;
        assert y in items + {x};
      }
    }
    if key in GroupKeys(cfg, items) {
      var y :| y in items && FlowKeyOf(cfg, y) == key;
      assert y in Group(cfg, items, key);
    }
  }

  lemma FlowAdd(cfg: Config, items: set<Item>, x: Item, key: FlowKey)
    requires x !in items
    ensures FlowOf(cfg, items + {x}, key) ==
      if key != FlowKeyOf(cfg, x) then FlowOf(cfg, items, key)
      else if key in GroupKeys(cfg, items) then Merge(One(x.1), FlowOf(cfg, items, key))
      else One(x.1)
  {
    hide FlowKeyOf, Group, GroupKeys, Fold;
    GroupAdd(cfg, items, x, key);
    if key == FlowKeyOf(cfg, x) {
      GroupMember(cfg, items, key);
      FoldAdd(Group(cfg, items, key), x);
      assert Group(cfg, items + {x}, key) != {};
    }
  }

  lemma GroupMember(cfg: Config, items: set<Item>, key: FlowKey)
    ensures forall x :: x in Group(cfg, items, key) <==> x in items && FlowKeyOf(cfg, x) == key
  {
  }

  /** Adding one transfer to its group keeps the tally. */
  lemma TallyAdd(cfg: Config, flows: seq<FlowRow>, items: set<Item>, x: Item, now: int)
    requires Tallied(cfg, flows, items) && x !in items
    ensures Tallied(cfg, AddToGroup(flows, FlowKeyOf(cfg, x), One(x.1), now), items + {x})
  {
    hide FlowKeyOf, FlowOf, GroupKeys;
    var key := FlowKeyOf(cfg, x);
    var i := IndexOfKey(flows, key);
    var result := AddToGroup(flows, key, One(x.1), now);
    GroupAdd(cfg, items, x, key);
    forall r | r in result ensures r.columns == FlowOf(cfg, items + {x}, r.key) {
      FlowAdd(cfg, items, x, r.key);
      var j :| 0 <= j < |result| && result[j] == r;
      if j < |flows| { assert flows[j] in flows && flows[j].key in KeysOf(flows); }
    }
    AddedKeys(flows, key, One(x.1), now);
  }

  lemma AddedKeys(flows: seq<FlowRow>, key: FlowKey, flow: Flow, now: int)
    requires Incremental.UniqueKeys(flows)
    ensures KeysOf(AddToGroup(flows, key, flow, now)) == KeysOf(flows) + {key}
    ensures Incremental.UniqueKeys(AddToGroup(flows, key, flow, now))
  {
    var i := IndexOfKey(flows, key);
    var result := AddToGroup(flows, key, flow, now);
    if i == |flows| {
      RowsAppend(flows, [Row(key, flow, now)]);
      RowsOne(Row(key, flow, now));
    } else {
      assert forall j | 0 <= j < |flows| :: result[j].key == flows[j].key;
      forall k ensures k in KeysOf(result) <==> k in KeysOf(flows) {
        if k in KeysOf(flows) {
          var j :| 0 <= j < |flows| && flows[j].key == k;
          assert result[j] in result;
        }
      }
    }
  }

  /** Grouping row by row gives the flows of the set of rows. */
  lemma {:induction false} AggregateTallies(cfg: Config, rows: seq<TransferRow>, now: int)
    requires Incremental.UniqueKeys(rows)
    ensures Tallied(cfg, Aggregate(cfg, rows, now), Contents(rows))
  {
    hide Tallied, FlowKeyOf, AddToGroup, Contents, KeysOf;
    if rows == [] {
      RowsNone<LogKey, Transfer>();
      NothingTallied(cfg);
    } else {
      var front, row := rows[..|rows| - 1], rows[|rows| - 1];
      var x := (row.key, row.columns);
      assert rows == front + [row];
      AggregateTallies(cfg, front, now);
      RowsAppend(front, [row]);
      RowsOne(row);
      Incremental.UniqueAppend(front, row);
      KeysAreContents(front);
      TallyAdd(cfg, Aggregate(cfg, front, now), Contents(front), x, now);
    }
  }

  lemma NothingTallied(cfg: Config)
    ensures Tallied(cfg, [], {})
  {
    RowsNone<FlowKey, Flow>();
  }

  lemma TallyContents(cfg: Config, flows: seq<FlowRow>, items: set<Item>)
    requires Tallied(cfg, flows, items)
    ensures Contents(flows) == Flows(cfg, items)
  {
    forall c | c in Contents(flows) ensures c in Flows(cfg, items) {
      var r :| r in flows && (r.key, r.columns) == c;
      assert r.key in KeysOf(flows);
    }
    forall k | k in GroupKeys(cfg, items) ensures (k, FlowOf(cfg, items, k)) in Contents(flows) {
      var r :| r in flows && r.key == k;
      assert (r.key, r.columns) in Contents(flows);
    }
  }

  lemma {:induction false} TreasuryTransfersMean(cfg: Config, silver: seq<TransferRow>, w: Window)
    ensures Contents(TreasuryTransfers(cfg, silver, w)) == CountedItems(cfg, WindowItems(Contents(silver), w))
    ensures KeysOf(TreasuryTransfers(cfg, silver, w)) <= KeysOf(silver)
    ensures Incremental.UniqueKeys(silver) ==> Incremental.UniqueKeys(TreasuryTransfers(cfg, silver, w))
  {
    hide Counted, Contents, KeysOf, Incremental.UniqueKeys;
    if silver == [] {
      RowsNone<LogKey, Transfer>();
      NoRowsUnique<LogKey, Transfer>();
    } else {
      var front, row := silver[..|silver| - 1], silver[|silver| - 1];
      assert silver == front + [row];
      TreasuryTransfersMean(cfg, front, w);
      var kept := TreasuryTransfers(cfg, front, w);
      RowsAppend(front, [row]);
      RowsAppend(kept, [row]);
      RowsOne(row);
      Incremental.UniqueAppend(front, row);
      Incremental.UniqueAppend(kept, row);
    }
  }

  /** The query yields one row for each group of the window's counted transfers, with that group's aggregates. */
  lemma GoldQueryMeans(cfg: Config, silver: seq<TransferRow>, w: Window, now: int)
    requires Incremental.UniqueKeys(silver)
    ensures Incremental.UniqueKeys(GoldQuery(cfg, silver, w, now))
    ensures Contents(GoldQuery(cfg, silver, w, now))
         == Flows(cfg, CountedItems(cfg, WindowItems(Contents(silver), w)))
  {
    hide Counted, Contents, Flows, CountedItems, WindowItems, TreasuryTransfers, Aggregate;
    TreasuryTransfersMean(cfg, silver, w);
    AggregateTallies(cfg, TreasuryTransfers(cfg, silver, w), now);
    TallyContents(cfg, GoldQuery(cfg, silver, w, now), CountedItems(cfg, WindowItems(Contents(silver), w)));
  }

  /** A group, spelled out: one chain, token and treasury, one clock hour of 3600 seconds, and one direction. */
  lemma GroupMeans(cfg: Config, items: set<Item>, key: FlowKey, x: Item)
    ensures x in Group(cfg, items, key) <==>
      && x in items && key.chainId == x.0.chainId && key.contractAddress == x.1.contractAddress
      && key.treasury == Lower(cfg.treasury)
      && key.hourStart % 3600 == 0 && key.hourStart <= x.1.blockTimestamp < key.hourStart + 3600
      && key.direction == if x.1.toAddress == Lower(cfg.treasury) then Inflow else Outflow
  {
    hide Lower;
    GroupMember(cfg, items, key);
    HourStarts(x.1.blockTimestamp, key.hourStart);
  }

  lemma HourStarts(timestamp: int, hour: int)
    ensures HourOf(timestamp) == hour <==> hour % 3600 == 0 && hour <= timestamp < hour + 3600
  {
  }

  lemma {:induction false} AggregateIsFresh(cfg: Config, rows: seq<TransferRow>, now: int)
    ensures forall r | r in Aggregate(cfg, rows, now) :: r.loadedAt == now
  {
    hide FlowKeyOf;
    if rows == [] {
    } else {
      AggregateIsFresh(cfg, rows[..|rows| - 1], now);
    }
  }

  /**
   A row of the query: the number, the two plain sums and the earliest interval of the transfers of its group, of which
   there is at least one, and the time of the query.
   */
  lemma GoldRowMeans(cfg: Config, silver: seq<TransferRow>, w: Window, now: int, r: FlowRow)
    requires Incremental.UniqueKeys(silver) && r in GoldQuery(cfg, silver, w, now)
    ensures var group := Group(cfg, CountedItems(cfg, WindowItems(Contents(silver), w)), r.key);
      && r.loadedAt == now && group != {} && r.columns.transferCount == |group|
      && r.columns.totalRaw == Sum(group, RawAmount) && r.columns.totalUsdt == Sum(group, UsdtAmount)
      && (forall x | x in group :: r.columns.sourceIntervalStart <= x.1.intervalStart)
      && exists x :: x in group && r.columns.sourceIntervalStart == x.1.intervalStart
  {
    hide Counted, Contents, TreasuryTransfers, Aggregate, FlowKeyOf, Fold, Sum, WindowItems;
    var items := CountedItems(cfg, WindowItems(Contents(silver), w));
    GoldQueryMeans(cfg, silver, w, now);
    AggregateIsFresh(cfg, TreasuryTransfers(cfg, silver, w), now);
    ContentsOf(GoldQuery(cfg, silver, w, now), r);
    var x :| x in items && FlowKeyOf(cfg, x) == r.key;
    assert x in Group(cfg, items, r.key);
    FoldMeans(Group(cfg, items, r.key));
  }

  /** Sets of transfers that share no group can be aggregated apart. */
  lemma FlowsUnion(cfg: Config, a: set<Item>, b: set<Item>)
    requires GroupKeys(cfg, a) !! GroupKeys(cfg, b)
    ensures Flows(cfg, a + b) == Flows(cfg, a) + Flows(cfg, b)
  {
    forall k | k in GroupKeys(cfg, a) ensures FlowOf(cfg, a + b, k) == FlowOf(cfg, a, k) {
      assert forall x | x in b :: FlowKeyOf(cfg, x) in GroupKeys(cfg, b);
      assert Group(cfg, a + b, k) == Group(cfg, a, k);
    }
    forall k | k in GroupKeys(cfg, b) ensures FlowOf(cfg, a + b, k) == FlowOf(cfg, b, k) {
      assert forall x | x in a :: FlowKeyOf(cfg, x) in GroupKeys(cfg, a);
      assert Group(cfg, a + b, k) == Group(cfg, b, k);
    }
    assert GroupKeys(cfg, a + b) == GroupKeys(cfg, a) + GroupKeys(cfg, b);
  }

  lemma NoGroups(cfg: Config)
    ensures GroupKeys(cfg, {}) == {} && Flows(cfg, {}) == {}
  {
  }

  // --- Windows and clock hours ---

  /** No instant of one window shares a clock hour with an instant of the other. */
  ghost predicate HourApart(a: Window, b: Window) {
    forall s, t | InWindow(s, a) && InWindow(t, b) :: HourOf(s) != HourOf(t)
  }

  predicate HourAligned(w: Window) {
    w.start % SECONDS_PER_HOUR == 0 && w.end % SECONDS_PER_HOUR == 0
  }

  predicate Disjoint(a: Window, b: Window) {
    a.end <= b.start || b.end <= a.start
  }

  /** Windows that start and end on the hour share no clock hour unless they share an instant. */
  lemma AlignedWindowsAreHourApart(a: Window, b: Window)
    requires HourAligned(a) && HourAligned(b) && Disjoint(a, b)
    ensures HourApart(a, b)
  {
    forall s, t | InWindow(s, a) && InWindow(t, b) ensures HourOf(s) != HourOf(t) {
      if a.end <= b.start {
        HourBelow(s, t, a.end);
      } else {
        HourBelow(t, s, b.end);
      }
    }
  }

  lemma HourBelow(s: int, t: int, boundary: int)
    requires s < boundary <= t && boundary % SECONDS_PER_HOUR == 0
    ensures HourOf(s) < boundary <= HourOf(t)
  {
    var q, n := boundary / SECONDS_PER_HOUR, t / SECONDS_PER_HOUR;
    assert boundary == SECONDS_PER_HOUR * q && HourOf(t) == SECONDS_PER_HOUR * n;
  }

  lemma HourApartGroups(cfg: Config, a: set<Item>, b: set<Item>, v: Window, w: Window)
    requires HourApart(v, w)
    requires forall x | x in a :: InWindow(x.1.blockTimestamp, v)
    requires forall x | x in b :: InWindow(x.1.blockTimestamp, w)
    ensures GroupKeys(cfg, a) !! GroupKeys(cfg, b)
  {
  }
}
