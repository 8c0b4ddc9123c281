/** The quality summary: totals over the gold rows of one window. */
module QualitySummary {
  import opened LogNormalizer
  import opened Incremental
  import opened Silver
  import opened Gold

  datatype Summary = Summary(
    flowRowCount: nat,
    transferCount: nat,
    directionCount: nat,
    totalInflowRaw: nat,
    totalOutflowRaw: nat,
    totalInflowUsdt: nat,
    totalOutflowUsdt: nat)

  /** The rows whose source interval starts in the window. */
  function WindowFlows(gold: seq<FlowRow>, w: Window): seq<FlowRow> {
    if gold == [] then []
    else
      var front := WindowFlows(gold[..|gold| - 1], w);
      var row := gold[|gold| - 1];
      if InWindow(row.columns.sourceIntervalStart, w) then front + [row] else front
  }

  function TransferCount(rows: seq<FlowRow>): nat {
    if rows == [] then 0 else TransferCount(rows[..|rows| - 1]) + rows[|rows| - 1].columns.transferCount
  }

  /** sum(case when direction = d then the column else 0 end) */
  function Total(rows: seq<FlowRow>, d: Direction, column: Column): nat {
    if rows == [] then 0
    else
      var row := rows[|rows| - 1];
      Total(rows[..|rows| - 1], d, column)
      + if row.key.direction != d then 0 else if column.RawAmount? then row.columns.totalRaw else row.columns.totalUsdt
  }

  function Directions(rows: seq<FlowRow>): set<Direction> {
    set r | r in rows :: r.key.direction
  }

  function Summarize(gold: seq<FlowRow>, w: Window): Summary {
    var rows := WindowFlows(gold, w);
    Summary(|rows|, TransferCount(rows), |Directions(rows)|,
            Total(rows, Inflow, RawAmount), Total(rows, Outflow, RawAmount),
            Total(rows, Inflow, UsdtAmount), Total(rows, Outflow, UsdtAmount))
  }

  ghost function Directed(cfg: Config, items: set<Item>, d: Direction): set<Item> {
    set x | x in items && DirectionOf(cfg, x.1) == d
  }

  /** The items whose group is among the given keys. */
  ghost function Grouped(cfg: Config, items: set<Item>, keys: set<FlowKey>): set<Item> {
    set x | x in items && FlowKeyOf(cfg, x) in keys
  }

  /** The rows are flows of some of the groups of the items, one row each. */
  ghost predicate PartOfTally(cfg: Config, rows: seq<FlowRow>, items: set<Item>) {
    && Incremental.UniqueKeys(rows)
    && forall r | r in rows :: r.key in GroupKeys(cfg, items) && r.columns == FlowOf(cfg, items, r.key)
  }

  lemma PartStep(cfg: Config, rows: seq<FlowRow>, items: set<Item>)
    requires PartOfTally(cfg, rows, items) && rows != []
    ensures var front, row := rows[..|rows| - 1], rows[|rows| - 1];
      && PartOfTally(cfg, front, items)
      && Grouped(cfg, items, KeysOf(rows)) == Grouped(cfg, items, KeysOf(front)) + Group(cfg, items, row.key)
      && Grouped(cfg, items, KeysOf(front)) !! Group(cfg, items, row.key)
      && Group(cfg, items, row.key) != {} && row.columns == Fold(Group(cfg, items, row.key))
  {
    var front, row := rows[..|rows| - 1], rows[|rows| - 1];
    assert rows == front + [row];
    RowsAppend(front, [row]);
    RowsOne(row);
    Incremental.UniqueAppend(front, row);
    assert row in rows;
    var x :| x in items && FlowKeyOf(cfg, x) == row.key;
    assert x in Group(cfg, items, row.key);
  }

  /** Counts and sums over flow rows are counts and sums over the transfers behind them. */
  lemma {:induction false} PartTotals(cfg: Config, rows: seq<FlowRow>, items: set<Item>, d: Direction, column: Column)
    requires PartOfTally(cfg, rows, items)
    ensures TransferCount(rows) == |Grouped(cfg, items, KeysOf(rows))|
    ensures Total(rows, d, column) == Sum(Directed(cfg, Grouped(cfg, items, KeysOf(rows)), d), column)
  {
    hide PartOfTally, FlowKeyOf, Group, Grouped, GroupKeys, KeysOf, Fold, Sum, Directed;
    if rows == [] {
      NothingGrouped(cfg, items, d, column);
      RowsNone<FlowKey, Flow>();
    } else {
      var front, row := rows[..|rows| - 1], rows[|rows| - 1];
      var before, group := Grouped(cfg, items, KeysOf(front)), Group(cfg, items, row.key);
      PartStep(cfg, rows, items);
      PartTotals(cfg, front, items, d, column);
      FoldMeans(group);
      GroupDirected(cfg, items, row.key, d);
      DirectedUnion(cfg, before, group, d);
      SumSplit(Directed(cfg, before, d), Directed(cfg, group, d), column);
    }
  }

  lemma DirectedUnion(cfg: Config, a: set<Item>, b: set<Item>, d: Direction)
    requires a !! b
    ensures Directed(cfg, a + b, d) == Directed(cfg, a, d) + Directed(cfg, b, d)
    ensures Directed(cfg, a, d) !! Directed(cfg, b, d) && |a + b| == |a| + |b|
  {
  }

  lemma NothingGrouped(cfg: Config, items: set<Item>, d: Direction, column: Column)
    ensures Grouped(cfg, items, {}) == {} && Directed(cfg, {}, d) == {} && Sum({}, column) == 0
  {
  }

  /** All transfers of a group have the group's direction. */
  lemma GroupDirected(cfg: Config, items: set<Item>, key: FlowKey, d: Direction)
    ensures Directed(cfg, Group(cfg, items, key), d) == if key.direction == d then Group(cfg, items, key) else {}
    ensures forall column :: Sum({}, column) == 0
  {
  }

  lemma DirectionsTallied(cfg: Config, rows: seq<FlowRow>, items: set<Item>)
    requires Tallied(cfg, rows, items)
    ensures Directions(rows) == set x | x in items :: DirectionOf(cfg, x.1)
  {
    hide DirectionOf, FlowOf;
    forall d ensures d in Directions(rows) <==> d in set x | x in items :: DirectionOf(cfg, x.1) {
      if d in Directions(rows) {
        var r :| r in rows && r.key.direction == d;
        assert r.key in KeysOf(rows);
        var x :| x in items && FlowKeyOf(cfg, x) == r.key;
      }
      if x :| x in items && DirectionOf(cfg, x.1) == d {
        assert FlowKeyOf(cfg, x) in KeysOf(rows);
        var r :| r in rows && r.key == FlowKeyOf(cfg, x);
        assert r.key.direction == d;
      }
    }
  }

  /** Over a full tally nothing is lost and nothing is counted twice. */
  lemma SummaryConserves(cfg: Config, rows: seq<FlowRow>, items: set<Item>, d: Direction, column: Column)
    requires Tallied(cfg, rows, items)
    ensures TransferCount(rows) == |items|
    ensures Total(rows, d, column) == Sum(Directed(cfg, items, d), column)
    ensures |rows| == |GroupKeys(cfg, items)|
  {
    assert forall r | r in rows :: r.key in KeysOf(rows);
    PartTotals(cfg, rows, items, d, column);
    assert Grouped(cfg, items, KeysOf(rows)) == items;
    UniqueIsCount(rows);
  }

  /** The summary's counts and sums are those of the given transfers. */
  ghost predicate Conserves(cfg: Config, summary: Summary, items: set<Item>) {
    && summary.flowRowCount == |GroupKeys(cfg, items)|
    && summary.transferCount == |items|
    && summary.directionCount == |set x | x in items :: DirectionOf(cfg, x.1)|
    && summary.totalInflowRaw == Sum(Directed(cfg, items, Inflow), RawAmount)
    && summary.totalOutflowRaw == Sum(Directed(cfg, items, Outflow), RawAmount)
    && summary.totalInflowUsdt == Sum(Directed(cfg, items, Inflow), UsdtAmount)
    && summary.totalOutflowUsdt == Sum(Directed(cfg, items, Outflow), UsdtAmount)
  }

  /** The window's flow rows are a tally of the transfers: then the summary conserves them. */
  lemma TallyConserves(cfg: Config, gold: seq<FlowRow>, w: Window, items: set<Item>)
    requires Tallied(cfg, WindowFlows(gold, w), items)
    ensures Conserves(cfg, Summarize(gold, w), items)
  {
    hide Tallied, Sum, DirectionOf, Directed, Directions, GroupKeys, Total, TransferCount, WindowFlows;
    var rows := WindowFlows(gold, w);
    DirectionsTallied(cfg, rows, items);
    SummaryConserves(cfg, rows, items, Inflow, RawAmount);
    SummaryConserves(cfg, rows, items, Outflow, RawAmount);
    SummaryConserves(cfg, rows, items, Inflow, UsdtAmount);
    SummaryConserves(cfg, rows, items, Outflow, UsdtAmount);
  }

  /**
   Counted are the transfers of the token with both amounts of which the treasury is just one of the two parties. Each
   is an inflow or an outflow and not both.
   */
  lemma OneDirectionEach(cfg: Config, items: set<Item>)
    ensures forall x | x in items ::
      x in CountedItems(cfg, items) <==>
        && x.1.contractAddress == Text.Lower(cfg.usdtContract)
        && x.1.amountStatus == Uint256.STATUS_DECIMAL38_AVAILABLE && x.1.rawAmount.Some? && x.1.amountUsdt.Some?
        && (x.1.fromAddress == Text.Lower(cfg.treasury) <==> x.1.toAddress != Text.Lower(cfg.treasury))
    ensures CountedItems(cfg, items)
         == Directed(cfg, CountedItems(cfg, items), Inflow) + Directed(cfg, CountedItems(cfg, items), Outflow)
    ensures Directed(cfg, CountedItems(cfg, items), Inflow) !! Directed(cfg, CountedItems(cfg, items), Outflow)
    ensures forall x | x in CountedItems(cfg, items) ::
      x.1.fromAddress != x.1.toAddress
      && (DirectionOf(cfg, x.1) == Inflow <==> x.1.toAddress == Text.Lower(cfg.treasury))
      && (DirectionOf(cfg, x.1) == Outflow <==> x.1.fromAddress == Text.Lower(cfg.treasury))
  {
  }
}
