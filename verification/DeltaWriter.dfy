/** The raw table and its insert-only writer. */
module DeltaWriter {
  import opened Wrappers
  import opened Text
  import opened Uint256
  import opened Chain
  import opened LogNormalizer

  // --- The uint256 contract of one row ---

  datatype ContractError =
    | UnknownStatus
    | BadDataRaw
    | TextOrStatusMismatch
    | NotCanonical
    | AboveDecimal38
    | WithinDecimal38

  /** The writer's check of a row's text and status; None when the row is accepted. */
  function ValidateUint256Contract(f: LogFact): Option<ContractError> {
    if f.decodeStatus !in {STATUS_DECIMAL38_AVAILABLE, STATUS_OUTSIDE_DECIMAL38_RANGE, STATUS_NOT_UINT256_WORD} then
      Some(UnknownStatus)
    else
      var decoded := DecodeUint256(f.dataRaw);
      if decoded.None? then Some(BadDataRaw)
      else if (f.decimalText, f.decodeStatus) != (decoded.value.decimalText, decoded.value.status) then
        Some(TextOrStatusMismatch)
      else if f.decodeStatus == STATUS_NOT_UINT256_WORD then None
      else if f.decimalText.None? || !IsCanonicalDecimal(f.decimalText.value) then Some(NotCanonical)
      else
        var value := FromDecimal(f.decimalText.value);
        if f.decodeStatus == STATUS_DECIMAL38_AVAILABLE && value > DECIMAL38_MAX then Some(AboveDecimal38)
        else if f.decodeStatus == STATUS_OUTSIDE_DECIMAL38_RANGE && value <= DECIMAL38_MAX then Some(WithinDecimal38)
        else None
  }

  /** The row's text and status are the decode of its data. */
  predicate MatchesItsData(f: LogFact) {
    DecodeUint256(f.dataRaw) == Some(Decoded(f.decimalText, f.decodeStatus))
  }

  /**
   The check accepts exactly the rows that match their data, and says of any other row what is wrong with it; the
   guards behind the comparison never fire.
   */
  lemma ContractIsExact(f: LogFact)
    ensures ValidateUint256Contract(f).None? <==> MatchesItsData(f)
    ensures ValidateUint256Contract(f) !in {Some(NotCanonical), Some(AboveDecimal38), Some(WithinDecimal38)}
    ensures ValidateUint256Contract(f) == Some(UnknownStatus) <==>
      f.decodeStatus !in {STATUS_DECIMAL38_AVAILABLE, STATUS_OUTSIDE_DECIMAL38_RANGE, STATUS_NOT_UINT256_WORD}
    ensures ValidateUint256Contract(f) == Some(BadDataRaw) ==> !IsHexText(f.dataRaw)
    ensures ValidateUint256Contract(f) == Some(TextOrStatusMismatch) ==> IsHexText(f.dataRaw)
  {
    if MatchesItsData(f) {
      if IsUint256Word(f.dataRaw) {
        WordTextIsExact(f.dataRaw);
        var value := HexValue(f.dataRaw[2..]);
        LowerKeepsHex(f.dataRaw);
        assert FromDecimal(f.decimalText.value) == value;
      } else {
        OtherDataHasNoText(f.dataRaw);
      }
    }
  }

  /** Every row the normalizer builds is accepted by the writer. */
  lemma NormalizedRowsAreAccepted(l: RawLog, timestamp: int, chainId: int, w: Window)
    requires NormalizeFact(l, timestamp, chainId, w).Some?
    ensures ValidateUint256Contract(NormalizeFact(l, timestamp, chainId, w).value).None?
  {
    hide *;
    RowMatchesItsData(l, timestamp, chainId, w);
    MatchesMeans(NormalizeFact(l, timestamp, chainId, w).value);
    ContractIsExact(NormalizeFact(l, timestamp, chainId, w).value);
  }

  lemma MatchesMeans(f: LogFact)
    ensures MatchesItsData(f) <==> DecodeUint256(f.dataRaw) == Some(Decoded(f.decimalText, f.decodeStatus))
  {
  }

  // --- Rows, keys and conflicts ---

  function RowKey(row: LogRow): LogKey {
    row.fact.Key()
  }

  function Keys(rows: seq<LogRow>): set<LogKey> {
    set r | r in rows :: RowKey(r)
  }

  /** What the rows say about the logs, without the ingestion times. */
  function Facts(rows: seq<LogRow>): set<LogFact> {
    set r | r in rows :: r.fact
  }

  predicate SameImmutableLogPayload(left: LogRow, right: LogRow) {
    left.fact == right.fact
  }

  predicate UniqueKeys(rows: seq<LogRow>) {
    forall i, j | 0 <= i < j < |rows| :: RowKey(rows[i]) != RowKey(rows[j])
  }

  /** Two rows of the batch share a key but differ in an immutable column. */
  ghost predicate Conflict(rows: seq<LogRow>) {
    exists i, j | 0 <= i < j < |rows| ::
      RowKey(rows[i]) == RowKey(rows[j]) && !SameImmutableLogPayload(rows[i], rows[j])
  }

  /** Two rows of the batch have the given key and differ in an immutable column. */
  ghost predicate ConflictOn(rows: seq<LogRow>, key: LogKey) {
    exists i, j | 0 <= i < j < |rows| ::
      RowKey(rows[i]) == key && RowKey(rows[j]) == key && !SameImmutableLogPayload(rows[i], rows[j])
  }

  ghost predicate Acceptable(rows: seq<LogRow>) {
    !Conflict(rows) && forall r | r in rows :: ValidateUint256Contract(r.fact).None?
  }

  /** The simple form of the writer: offer the rows one by one, each is added unless its key is there. */
  function InsertRows(table: seq<LogRow>, batch: seq<LogRow>): seq<LogRow> {
    if batch == [] then table
    else
      var before := InsertRows(table, batch[..|batch| - 1]);
      var row := batch[|batch| - 1];
      if RowKey(row) in Keys(before) then before else before + [row]
  }

  /** The rows whose key is not among the given ones, in order. */
  function NewRows(rows: seq<LogRow>, existing: set<LogKey>): seq<LogRow> {
    if rows == [] then []
    else
      var front := NewRows(rows[..|rows| - 1], existing);
      var row := rows[|rows| - 1];
      if RowKey(row) in existing then front else front + [row]
  }

  lemma KeysAppend(rows: seq<LogRow>, more: seq<LogRow>)
    ensures Keys(rows + more) == Keys(rows) + Keys(more)
    ensures Facts(rows + more) == Facts(rows) + Facts(more)
  {
    assert forall r :: r in rows + more <==> r in rows || r in more;
  }

  lemma KeysOne(row: LogRow)
    ensures Keys([row]) == {RowKey(row)} && Facts([row]) == {row.fact}
  {
    assert row in [row];
  }

  /** Inserting keeps the table's rows in place and adds exactly the missing keys. */
  lemma {:induction false} InsertExtends(table: seq<LogRow>, batch: seq<LogRow>)
    ensures table <= InsertRows(table, batch)
    ensures |InsertRows(table, batch)| <= |table| + |batch|
    ensures Keys(InsertRows(table, batch)) == Keys(table) + Keys(batch)
    ensures Facts(table) <= Facts(InsertRows(table, batch)) <= Facts(table) + Facts(batch)
  {
    hide Keys, Facts;
    if batch == [] {
      NoKeys();
    } else {
      var front, row := batch[..|batch| - 1], batch[|batch| - 1];
      assert batch == front + [row];
      InsertExtends(table, front);
      KeysAppend(front, [row]);
      KeysAppend(InsertRows(table, front), [row]);
      KeysOne(row);
    }
  }

  lemma NoKeys()
    ensures Keys([]) == {} && Facts([]) == {}
  {
  }

  lemma {:induction false} InsertKeepsUnique(table: seq<LogRow>, batch: seq<LogRow>)
    requires UniqueKeys(table)
    ensures UniqueKeys(InsertRows(table, batch))
  {
    if batch == [] {
    } else {
      InsertKeepsUnique(table, batch[..|batch| - 1]);
    }
  }

  /** Splitting a batch changes nothing: the table is the same row for row. */
  lemma {:induction false} InsertSplits(table: seq<LogRow>, a: seq<LogRow>, b: seq<LogRow>)
    ensures InsertRows(table, a + b) == InsertRows(InsertRows(table, a), b)
  {
    if b == [] {
      assert a + b == a;
    } else {
      InsertSplits(table, a, b[..|b| - 1]);
      assert (a + b)[..|a + b| - 1] == a + b[..|b| - 1];
    }
  }

  /** Rows whose keys are all there already change nothing. */
  lemma {:induction false} InsertKnown(table: seq<LogRow>, batch: seq<LogRow>)
    requires Keys(batch) <= Keys(table)
    ensures InsertRows(table, batch) == table
  {
    hide Keys;
    if batch == [] {
    } else {
      var front, row := batch[..|batch| - 1], batch[|batch| - 1];
      assert batch == front + [row];
      KeysAppend(front, [row]);
      KeysOne(row);
      InsertKnown(table, front);
    }
  }

  /** The writer's fast form, which filters the deduplicated batch against the table's keys, is the simple form. */
  lemma {:induction false} FilterIsInsert(table: seq<LogRow>, batch: seq<LogRow>)
    ensures table + NewRows(InsertRows([], batch), Keys(table)) == InsertRows(table, batch)
  {
    hide Keys, RowKey;
    if batch == [] {
    } else {
      var front, row := batch[..|batch| - 1], batch[|batch| - 1];
      FilterIsInsert(table, front);
      InsertExtends(table, front);
      InsertExtends([], front);
      NoKeys();
      var first := InsertRows([], front);
      assert (first + [row])[..|first|] == first;
    }
  }

  // --- Conflicts as a property of the set of facts ---

  /** Facts with one key are one fact. */
  ghost predicate KeyFunctional(facts: set<LogFact>) {
    forall a, b | a in facts && b in facts && a.Key() == b.Key() :: a == b
  }

  lemma ConflictMeans(rows: seq<LogRow>)
    ensures Conflict(rows) <==> !KeyFunctional(Facts(rows))
  {
    if Conflict(rows) {
      var i, j :| 0 <= i < j < |rows|
        && RowKey(rows[i]) == RowKey(rows[j]) && !SameImmutableLogPayload(rows[i], rows[j]);
      assert rows[i].fact in Facts(rows) && rows[j].fact in Facts(rows);
    } else {
      forall a, b | a in Facts(rows) && b in Facts(rows) && a.Key() == b.Key() ensures a == b {
        var i :| 0 <= i < |rows| && rows[i].fact == a;
        var j :| 0 <= j < |rows| && rows[j].fact == b;
        assert RowKey(rows[i]) == RowKey(rows[j]);
      }
    }
  }

  /** As long as no two sightings disagree, the table holds exactly the facts it was offered. */
  lemma {:induction false} InsertIsUnion(table: seq<LogRow>, batch: seq<LogRow>)
    requires KeyFunctional(Facts(table) + Facts(batch))
    ensures Facts(InsertRows(table, batch)) == Facts(table) + Facts(batch)
  {
    hide Facts, Keys;
    if batch == [] {
      NoKeys();
    } else {
      var front, row := batch[..|batch| - 1], batch[|batch| - 1];
      assert batch == front + [row];
      KeysAppend(front, [row]);
      KeysOne(row);
      InsertIsUnion(table, front);
      var before := InsertRows(table, front);
      KeysAppend(before, [row]);
      if RowKey(row) in Keys(before) {
        KeyHasFact(before, RowKey(row));
      }
    }
  }

  lemma KeyHasFact(rows: seq<LogRow>, key: LogKey)
    requires key in Keys(rows)
    ensures exists f :: f in Facts(rows) && f.Key() == key
  {
    var r :| r in rows && RowKey(r) == key;
    assert r.fact in Facts(rows);
  }

  // --- Deduplication and the writer ---

  method DedupeRows(rows: seq<LogRow>) returns (r: Result<(seq<LogRow>, nat), LogKey>)
    ensures r.Failure? <==> Conflict(rows)
    ensures r.Success? ==> r.value.0 == InsertRows([], rows) && r.value.1 == |rows| - |r.value.0|
    ensures r.Failure? ==> ConflictOn(rows, r.error)
  {
    hide Conflict, ConflictOn, Keys, Facts, KeyFunctional, InsertRows;
    var seen: map<LogKey, LogRow> := map[];
    var result: seq<LogRow> := [];
    var duplicates := 0;
    NoKeys();
    NothingSeen();
    for i := 0 to |rows|
      invariant Deduped(rows[..i], seen, result, duplicates)
    {
      assert rows[..i + 1] == rows[..i] + [rows[i]];
      var key := RowKey(rows[i]);
      DedupeStep(rows[..i], seen, result, duplicates, rows[i]);
      if key !in seen {
        seen := seen[key := rows[i]];
        result := result + [rows[i]];
      } else {
        if !SameImmutableLogPayload(seen[key], rows[i]) {
          ConflictGrows(rows, i + 1, key);
          return Failure(key);
        }
        duplicates := duplicates + 1;
      }
    }
    assert rows[..|rows|] == rows;
    DedupedMeans(rows, seen, result, duplicates);
    return Success((result, duplicates));
  }

  /** What the loop has established about the rows read so far. */
  ghost predicate Deduped(rows: seq<LogRow>, seen: map<LogKey, LogRow>, result: seq<LogRow>, duplicates: nat) {
    && !Conflict(rows)
    && seen.Keys == Keys(rows)
    && (forall k | k in seen :: RowKey(seen[k]) == k && seen[k].fact in Facts(rows))
    && result == InsertRows([], rows)
    && |result| + duplicates == |rows|
  }

  lemma NothingSeen()
    ensures Deduped([], map[], [], 0)
  {
  }

  lemma DedupedMeans(rows: seq<LogRow>, seen: map<LogKey, LogRow>, result: seq<LogRow>, duplicates: nat)
    requires Deduped(rows, seen, result, duplicates)
    ensures !Conflict(rows) && result == InsertRows([], rows) && duplicates == |rows| - |result|
  {
  }

  lemma DedupeStep(rows: seq<LogRow>, seen: map<LogKey, LogRow>, result: seq<LogRow>, duplicates: nat, row: LogRow)
    requires Deduped(rows, seen, result, duplicates)
    ensures RowKey(row) !in seen ==>
      Deduped(rows + [row], seen[RowKey(row) := row], result + [row], duplicates)
    ensures RowKey(row) in seen && SameImmutableLogPayload(seen[RowKey(row)], row) ==>
      Deduped(rows + [row], seen, result, duplicates + 1)
    ensures RowKey(row) in seen && !SameImmutableLogPayload(seen[RowKey(row)], row) ==>
      Conflict(rows + [row]) && ConflictOn(rows + [row], RowKey(row))
  {
    hide Conflict, ConflictOn, Keys, Facts;
    ConflictMeans(rows);
    ConflictMeans(rows + [row]);
    KeysAppend(rows, [row]);
    KeysOne(row);
    InsertExtends([], rows);
    NoKeys();
    FactsHaveKeys(rows);
    assert (rows + [row])[..|rows|] == rows;
    if RowKey(row) in seen {
      var prior := seen[RowKey(row)];
      assert prior.fact in Facts(rows + [row]) && row.fact in Facts(rows + [row]);
      LastConflicts(rows, prior.fact, row);
    }
  }

  lemma LastConflicts(rows: seq<LogRow>, prior: LogFact, row: LogRow)
    requires prior in Facts(rows) && prior.Key() == RowKey(row)
    ensures prior != row.fact ==> ConflictOn(rows + [row], RowKey(row))
  {
    var i :| 0 <= i < |rows| && rows[i].fact == prior;
    var all := rows + [row];
    assert all[i] == rows[i] && all[|rows|] == row;
  }

  lemma FactsHaveKeys(rows: seq<LogRow>)
    ensures forall f | f in Facts(rows) :: f.Key() in Keys(rows)
  {
    forall f | f in Facts(rows) ensures f.Key() in Keys(rows) {
      var r :| r in rows && r.fact == f;
      assert RowKey(r) in Keys(rows);
    }
  }

  lemma ConflictGrows(rows: seq<LogRow>, n: nat, key: LogKey)
    requires n <= |rows|
    ensures ConflictOn(rows[..n], key) ==> ConflictOn(rows, key) && Conflict(rows)
  {
    if ConflictOn(rows[..n], key) {
      var i, j :| 0 <= i < j < n && RowKey(rows[..n][i]) == key && RowKey(rows[..n][j]) == key
        && !SameImmutableLogPayload(rows[..n][i], rows[..n][j]);
      assert RowKey(rows[i]) == key && RowKey(rows[j]) == key && !SameImmutableLogPayload(rows[i], rows[j]);
    }
  }

  datatype WriteResult = WriteResult(inserted: nat, duplicatesSkipped: nat, countBefore: nat, countAfter: nat)

  /** CountFailed is the one error that is raised after the rows have been committed. */
  datatype WriteError =
    | BadRow(index: nat, error: ContractError)
    | ConflictingPayloads(key: LogKey)
    | OpenFailed
    | CommitFailed
    | CountFailed

  /** What the storage engine does to one write: each of its three operations may fail. */
  datatype EngineFault = NoFault | OnOpen | OnCommit | OnCount

  /** What each error of a write says about the batch or about the engine. */
  ghost predicate Accounts(input: seq<LogRow>, fault: EngineFault, e: WriteError) {
    match e
    case BadRow(i, problem) =>
      && i < |input| && ValidateUint256Contract(input[i].fact) == Some(problem)
      && forall j | 0 <= j < i :: ValidateUint256Contract(input[j].fact).None?
    case ConflictingPayloads(key) => ConflictOn(input, key)
    case OpenFailed => fault == OnOpen
    case CommitFailed => fault == OnCommit
    case CountFailed => fault == OnCount
  }

  /** The stored table. It comes into being with the first write, even when that write has no rows. */
  class DeltaTable {
    var created: bool
    var rows: seq<LogRow>

    ghost predicate Valid()
      reads this
    {
      UniqueKeys(rows) && (!created ==> rows == [])
    }

    constructor ()
      ensures Valid() && rows == [] && !created
    {
      created, rows := false, [];
    }

    method WriteInsertOnly(input: seq<LogRow>, fault: EngineFault) returns (r: Result<WriteResult, WriteError>)
      requires Valid()
      modifies this
      ensures Valid()
      ensures fault == NoFault ==> (r.Success? <==> Acceptable(input))
      ensures r.Failure? ==> Accounts(input, fault, r.error)
      ensures r == Failure(OpenFailed) <==> Acceptable(input) && fault == OnOpen && old(created)
      ensures r == Failure(CommitFailed) <==>
        Acceptable(input) && fault == OnCommit && (!old(created) || InsertRows(old(rows), input) != old(rows))
      ensures r == Failure(CountFailed) <==> Acceptable(input) && fault == OnCount
      ensures r.Success? || r == Failure(CountFailed) ==>
        Acceptable(input) && created && rows == InsertRows(old(rows), input)
      ensures r.Failure? && r != Failure(CountFailed) ==> rows == old(rows) && created == old(created)
      ensures r.Success? ==>
        && r.value.inserted + r.value.duplicatesSkipped == |input|
        && r.value.countBefore == |old(rows)| && r.value.countAfter == |rows|
        && r.value.countAfter == r.value.countBefore + r.value.inserted
    {
      hide Keys, Conflict, ConflictOn, InsertRows, ValidateUint256Contract, UniqueKeys;
      for i := 0 to |input|
        invariant forall j | 0 <= j < i :: ValidateUint256Contract(input[j].fact).None?
      {
        var problem := ValidateUint256Contract(input[i].fact);
        if problem.Some? {
          assert input[i] in input;
          return Failure(BadRow(i, problem.value));
        }
      }
      var deduped := DedupeRows(input);
      if deduped.Failure? {
        return Failure(ConflictingPayloads(deduped.error));
      }
      var (unique, batchDuplicates) := deduped.value;
      if created && fault == OnOpen {
        return Failure(OpenFailed);
      }
      var existing := Keys(rows);
      var insert := NewRows(unique, existing);
      FilterIsInsert(rows, input);
      NewRowsFewer(unique, existing);
      InsertKeepsUnique(rows, input);
      if insert != [] || !created {
        if fault == OnCommit {
          return Failure(CommitFailed);
        }
      }
      var before := |rows|;
      rows, created := rows + insert, true;
      if fault == OnCount {
        return Failure(CountFailed);
      }
      return Success(WriteResult(|insert|, batchDuplicates + (|unique| - |insert|), before, |rows|));
    }
  }

  lemma {:induction false} NewRowsFewer(rows: seq<LogRow>, existing: set<LogKey>)
    ensures |NewRows(rows, existing)| <= |rows|
  {
    if rows == [] {
    } else {
      NewRowsFewer(rows[..|rows| - 1], existing);
    }
  }

  function CountDuplicateNaturalKeys(rows: seq<LogRow>): int {
    |rows| - |Keys(rows)|
  }

  /** The duplicate count is never negative, and zero exactly when the keys are unique. */
  lemma {:induction false} DuplicateCountIsExact(rows: seq<LogRow>)
    ensures CountDuplicateNaturalKeys(rows) >= 0
    ensures CountDuplicateNaturalKeys(rows) == 0 <==> UniqueKeys(rows)
  {
    hide Keys;
    if rows == [] {
      NoKeys();
    } else {
      var front, row := rows[..|rows| - 1], rows[|rows| - 1];
      assert rows == front + [row];
      DuplicateCountIsExact(front);
      KeysAppend(front, [row]);
      KeysOne(row);
      KeyAt(front, RowKey(row));
      if RowKey(row) in Keys(front) {
        assert Keys(front) + {RowKey(row)} == Keys(front);
      }
      UniqueAppend(front, row);
    }
  }

  lemma KeyAt(rows: seq<LogRow>, key: LogKey)
    ensures key in Keys(rows) <==> exists i :: 0 <= i < |rows| && RowKey(rows[i]) == key
  {
  }

  lemma UniqueAppend(rows: seq<LogRow>, row: LogRow)
    ensures UniqueKeys(rows + [row]) <==> UniqueKeys(rows) && RowKey(row) !in Keys(rows)
  {
    var all := rows + [row];
    assert forall i | 0 <= i < |rows| :: all[i] == rows[i];
    if UniqueKeys(all) {
      forall i | 0 <= i < |rows| ensures RowKey(rows[i]) != RowKey(row) {
        assert RowKey(all[i]) != RowKey(all[|rows|]);
      }
    }
  }

  // --- Whole histories of writes ---

  /** A write either takes the whole batch or, when the batch is refused, leaves the table alone. */
  ghost function Write(table: seq<LogRow>, batch: seq<LogRow>): seq<LogRow> {
    if Acceptable(batch) then InsertRows(table, batch) else table
  }

  ghost function WriteAll(batches: seq<seq<LogRow>>): seq<LogRow> {
    if batches == [] then [] else Write(WriteAll(batches[..|batches| - 1]), batches[|batches| - 1])
  }

  /** After any history the keys are unique, and every earlier table is still there, row for row. */
  lemma {:induction false} HistoryKeepsRows(batches: seq<seq<LogRow>>, k: nat)
    requires k <= |batches|
    ensures UniqueKeys(WriteAll(batches))
    ensures WriteAll(batches[..k]) <= WriteAll(batches)
  {
    hide UniqueKeys, Acceptable, Keys, Facts;
    if batches == [] {
      EmptyIsUnique();
    } else {
      var last := |batches| - 1;
      var front := batches[..last];
      HistoryKeepsRows(front, if k <= last then k else last);
      InsertExtends(WriteAll(front), batches[last]);
      InsertKeepsUnique(WriteAll(front), batches[last]);
      if k <= last {
        assert front[..k] == batches[..k];
      } else {
        assert batches[..k] == batches;
      }
    }
  }

  lemma EmptyIsUnique()
    ensures UniqueKeys([])
  {
  }

  /** Writing any earlier batch again changes nothing. */
  lemma RewriteChangesNothing(batches: seq<seq<LogRow>>, k: nat)
    requires k < |batches|
    ensures Write(WriteAll(batches), batches[k]) == WriteAll(batches)
  {
    hide Keys, Acceptable, UniqueKeys, Facts;
    var upTo := batches[..k + 1];
    assert upTo[..k] == batches[..k] && upTo[k] == batches[k];
    HistoryKeepsRows(batches, k + 1);
    if Acceptable(batches[k]) {
      InsertExtends(WriteAll(upTo[..k]), batches[k]);
      PrefixKeys(WriteAll(upTo), WriteAll(batches));
      InsertKnown(WriteAll(batches), batches[k]);
    }
  }

  lemma PrefixKeys(table: seq<LogRow>, later: seq<LogRow>)
    requires table <= later
    ensures Keys(table) <= Keys(later)
  {
    assert later == table + later[|table|..];
    KeysAppend(table, later[|table|..]);
  }

  /**
   Two acceptable batches may be written as one unless they contradict each other: then, and only then, the
   joint batch is refused; otherwise the tables are the same row for row.
   */
  lemma SplitIsIrrelevant(table: seq<LogRow>, a: seq<LogRow>, b: seq<LogRow>)
    requires Acceptable(a) && Acceptable(b)
    ensures Acceptable(a + b) <==>
      forall f, g | f in Facts(a) && g in Facts(b) && f.Key() == g.Key() :: f == g
    ensures Acceptable(a + b) ==> Write(Write(table, a), b) == Write(table, a + b)
  {
    hide Conflict, Facts, Keys, InsertRows;
    ConflictMeans(a);
    ConflictMeans(b);
    ConflictMeans(a + b);
    KeysAppend(a, b);
    InsertSplits(table, a, b);
    assert forall r :: r in a + b <==> r in a || r in b;
  }

  /** Conversely, what a joint batch accepts, its parts accept. */
  lemma PartsAreAcceptable(a: seq<LogRow>, b: seq<LogRow>)
    requires Acceptable(a + b)
    ensures Acceptable(a) && Acceptable(b)
  {
    hide Conflict, Facts, Keys;
    ConflictMeans(a);
    ConflictMeans(b);
    ConflictMeans(a + b);
    KeysAppend(a, b);
    assert forall r :: r in a + b <==> r in a || r in b;
  }
}
