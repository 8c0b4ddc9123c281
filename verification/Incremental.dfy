/**
 Incremental models: stored rows that are replaced by unique key. A batch first deletes the stored rows
 whose key it brings along, then adds its own rows.
 */
module Incremental {

  /** A stored row: its unique key, its other columns, and when it was loaded. */
  datatype Row<K, F> = Row(key: K, columns: F, loadedAt: int)

  function KeysOf<K(==), F(==)>(rows: seq<Row<K, F>>): set<K> {
    set r | r in rows :: r.key
  }

  /** What the rows say, without their load times. */
  function Contents<K(==), F(==)>(rows: seq<Row<K, F>>): set<(K, F)> {
    set r | r in rows :: (r.key, r.columns)
  }

  predicate UniqueKeys<K(==), F>(rows: seq<Row<K, F>>) {
    forall i, j | 0 <= i < j < |rows| :: rows[i].key != rows[j].key
  }

  /** No key comes with two different contents. */
  ghost predicate Functional<K, F>(contents: set<(K, F)>) {
    forall a, b | a in contents && b in contents && a.0 == b.0 :: a == b
  }

  function Without<K(==), F(==)>(rows: seq<Row<K, F>>, keys: set<K>): seq<Row<K, F>> {
    if rows == [] then []
    else
      var front := Without(rows[..|rows| - 1], keys);
      var row := rows[|rows| - 1];
      if row.key in keys then front else front + [row]
  }

  function DeleteInsert<K(==), F(==)>(target: seq<Row<K, F>>, batch: seq<Row<K, F>>): seq<Row<K, F>> {
    Without(target, KeysOf(batch)) + batch
  }

  lemma RowsAppend<K, F>(rows: seq<Row<K, F>>, more: seq<Row<K, F>>)
    ensures KeysOf(rows + more) == KeysOf(rows) + KeysOf(more)
    ensures Contents(rows + more) == Contents(rows) + Contents(more)
  {
    assert forall r :: r in rows + more <==> r in rows || r in more;
  }

  lemma RowsOne<K, F>(row: Row<K, F>)
    ensures KeysOf([row]) == {row.key} && Contents([row]) == {(row.key, row.columns)}
  {
    assert row in [row];
  }

  lemma RowsNone<K, F>()
    ensures KeysOf<K, F>([]) == {} && Contents<K, F>([]) == {}
  {
  }

  lemma KeysAreContents<K, F>(rows: seq<Row<K, F>>)
    ensures forall k :: k in KeysOf(rows) <==> exists c :: c in Contents(rows) && c.0 == k
  {
    forall k | k in KeysOf(rows) ensures exists c :: c in Contents(rows) && c.0 == k {
      var r :| r in rows && r.key == k;
      assert (r.key, r.columns) in Contents(rows);
    }
    forall c | c in Contents(rows) ensures c.0 in KeysOf(rows) {
      var r :| r in rows && (r.key, r.columns) == c;
      assert r.key in KeysOf(rows);
    }
  }

  /** Deletion keeps the contents of the other keys, and only those. */
  lemma {:induction false} WithoutContents<K, F>(rows: seq<Row<K, F>>, keys: set<K>)
    ensures Contents(Without(rows, keys)) == set c | c in Contents(rows) && c.0 !in keys
    ensures UniqueKeys(rows) ==> UniqueKeys(Without(rows, keys))
    ensures KeysOf(Without(rows, keys)) == KeysOf(rows) - keys
  {
    hide KeysOf, Contents, UniqueKeys;
    if rows == [] {
      RowsNone<K, F>();
      NoRowsUnique<K, F>();
    } else {
      var front, row := rows[..|rows| - 1], rows[|rows| - 1];
      assert rows == front + [row];
      WithoutContents(front, keys);
      RowsAppend(front, [row]);
      RowsAppend(Without(front, keys), [row]);
      RowsOne(row);
      UniqueAppend(front, row);
      UniqueAppend(Without(front, keys), row);
    }
  }

  lemma NoRowsUnique<K, F>()
    ensures UniqueKeys<K, F>([])
  {
  }

  lemma UniqueAppend<K, F>(rows: seq<Row<K, F>>, row: Row<K, F>)
    ensures UniqueKeys(rows + [row]) <==> UniqueKeys(rows) && row.key !in KeysOf(rows)
  {
    var all := rows + [row];
    if UniqueKeys(all) {
      forall i | 0 <= i < |rows| ensures rows[i].key != row.key {
        assert all[i].key != all[|rows|].key;
      }
      forall i, j | 0 <= i < j < |rows| ensures rows[i].key != rows[j].key {
        assert all[i].key != all[j].key;
      }
    }
    assert forall i | 0 <= i < |rows| :: rows[i].key in KeysOf(rows);
  }

  lemma UniqueConcat<K, F>(rows: seq<Row<K, F>>, more: seq<Row<K, F>>)
    requires UniqueKeys(rows) && UniqueKeys(more) && KeysOf(rows) !! KeysOf(more)
    ensures UniqueKeys(rows + more)
  {
    forall i, j | 0 <= i < j < |rows + more| ensures (rows + more)[i].key != (rows + more)[j].key {
      if i < |rows| <= j {
        assert rows[i].key in KeysOf(rows) && more[j - |rows|].key in KeysOf(more);
      }
    }
  }

  /** There are never more keys than rows, and as many exactly when they are unique. */
  lemma {:induction false} UniqueIsCount<K, F>(rows: seq<Row<K, F>>)
    ensures |KeysOf(rows)| <= |rows|
    ensures UniqueKeys(rows) <==> |KeysOf(rows)| == |rows|
  {
    hide KeysOf, UniqueKeys;
    if rows == [] {
      RowsNone<K, F>();
      NoRowsUnique<K, F>();
    } else {
      var front, row := rows[..|rows| - 1], rows[|rows| - 1];
      assert rows == front + [row];
      UniqueIsCount(front);
      RowsAppend(front, [row]);
      RowsOne(row);
      UniqueAppend(front, row);
      if row.key in KeysOf(front) {
        assert KeysOf(front) + {row.key} == KeysOf(front);
      }
    }
  }

  /** Replacing by key keeps keys unique. */
  lemma DeleteInsertUnique<K, F>(target: seq<Row<K, F>>, batch: seq<Row<K, F>>)
    requires UniqueKeys(target) && UniqueKeys(batch)
    ensures UniqueKeys(DeleteInsert(target, batch))
  {
    WithoutContents(target, KeysOf(batch));
    UniqueConcat(Without(target, KeysOf(batch)), batch);
  }

  lemma {:induction false} WithoutRows<K, F>(rows: seq<Row<K, F>>, keys: set<K>, r: Row<K, F>)
    ensures r in Without(rows, keys) <==> r in rows && r.key !in keys
  {
    if rows == [] {
    } else {
      WithoutRows(rows[..|rows| - 1], keys, r);
      assert rows == rows[..|rows| - 1] + [rows[|rows| - 1]];
    }
  }

  /** Row by row, load times included: the batch is stored as it is, and so is what was there under other keys. */
  lemma DeleteInsertRows<K, F>(target: seq<Row<K, F>>, batch: seq<Row<K, F>>, r: Row<K, F>)
    ensures r in DeleteInsert(target, batch) <==> r in batch || (r in target && r.key !in KeysOf(batch))
  {
    WithoutRows(target, KeysOf(batch), r);
  }

  /** In general a batch overrides the stored contents of its keys ... */
  lemma DeleteInsertOverrides<K, F>(target: seq<Row<K, F>>, batch: seq<Row<K, F>>)
    ensures Contents(DeleteInsert(target, batch))
         == (set c | c in Contents(target) && c.0 !in KeysOf(batch)) + Contents(batch)
  {
    WithoutContents(target, KeysOf(batch));
    RowsAppend(Without(target, KeysOf(batch)), batch);
  }

  /** ... and where both say the same about a key, replacing is just adding. */
  lemma DeleteInsertIsUnion<K, F>(target: seq<Row<K, F>>, batch: seq<Row<K, F>>)
    requires Functional(Contents(target) + Contents(batch))
    ensures Contents(DeleteInsert(target, batch)) == Contents(target) + Contents(batch)
  {
    DeleteInsertOverrides(target, batch);
    KeysAreContents(batch);
  }

  // --- row_number() over (partition by key order by loadedAt desc) = 1 ---

  function IndexOfKey<K(==), F>(rows: seq<Row<K, F>>, key: K): (i: nat)
    ensures i <= |rows| && (i < |rows| ==> rows[i].key == key)
    ensures forall j | 0 <= j < i :: rows[j].key != key
  {
    if rows == [] then 0
    else if rows[0].key == key then 0
    else 1 + IndexOfKey(rows[1..], key)
  }

  /** Let one more row compete for its key. */
  function KeepLater<K(==), F>(kept: seq<Row<K, F>>, row: Row<K, F>): seq<Row<K, F>> {
    var i := IndexOfKey(kept, row.key);
    if i == |kept| then kept + [row]
    else if kept[i].loadedAt < row.loadedAt then kept[i := row]
    else kept
  }

  /** Keep one row per key, the one loaded last. */
  function LatestPerKey<K(==), F>(rows: seq<Row<K, F>>): seq<Row<K, F>> {
    if rows == [] then [] else KeepLater(LatestPerKey(rows[..|rows| - 1]), rows[|rows| - 1])
  }

  /** Some kept row has the row's key and was not loaded before it. */
  ghost predicate Outlived<K, F>(kept: seq<Row<K, F>>, row: Row<K, F>) {
    exists r :: r in kept && r.key == row.key && row.loadedAt <= r.loadedAt
  }

  lemma KeepLaterMeans<K, F>(kept: seq<Row<K, F>>, row: Row<K, F>)
    requires UniqueKeys(kept)
    ensures UniqueKeys(KeepLater(kept, row)) && Outlived(KeepLater(kept, row), row)
    ensures forall r | r in KeepLater(kept, row) :: r in kept || r == row
    ensures forall r | Outlived(kept, r) :: Outlived(KeepLater(kept, row), r)
  {
    var result := KeepLater(kept, row);
    var i := IndexOfKey(kept, row.key);
    assert result[i] in result;
    forall r | Outlived(kept, r) ensures Outlived(result, r) {
      var k :| k in kept && k.key == r.key && r.loadedAt <= k.loadedAt;
      var j :| 0 <= j < |kept| && kept[j] == k;
      assert result[j] in result && result[j].key == r.key && r.loadedAt <= result[j].loadedAt;
    }
  }

  /** Each key keeps exactly one of its rows, and none of its rows was loaded later than that one. */
  lemma {:induction false} LatestPerKeyMeans<K, F>(rows: seq<Row<K, F>>)
    ensures UniqueKeys(LatestPerKey(rows))
    ensures forall r | r in LatestPerKey(rows) :: r in rows
    ensures forall r | r in rows :: Outlived(LatestPerKey(rows), r)
  {
    hide UniqueKeys, Outlived, KeepLater;
    if rows == [] {
      NoRowsUnique<K, F>();
    } else {
      LatestPerKeyMeans(rows[..|rows| - 1]);
      KeepLaterMeans(LatestPerKey(rows[..|rows| - 1]), rows[|rows| - 1]);
    }
  }

  lemma ContentsOf<K, F>(rows: seq<Row<K, F>>, row: Row<K, F>)
    requires row in rows
    ensures (row.key, row.columns) in Contents(rows)
  {
  }

  lemma SameContents<K, F>(contents: set<(K, F)>, a: (K, F), b: (K, F))
    requires Functional(contents) && a in contents && b in contents && a.0 == b.0
    ensures a == b
  {
  }

  lemma OutlivedAgrees<K, F>(rows: seq<Row<K, F>>, latest: seq<Row<K, F>>, row: Row<K, F>)
    requires Functional(Contents(rows)) && row in rows && forall k | k in latest :: k in rows
    requires Outlived(latest, row)
    ensures (row.key, row.columns) in Contents(latest)
  {
    hide Functional, Contents;
    var k :| k in latest && k.key == row.key && row.loadedAt <= k.loadedAt;
    ContentsOf(rows, row);
    ContentsOf(rows, k);
    ContentsOf(latest, k);
    SameContents(Contents(rows), (row.key, row.columns), (k.key, k.columns));
  }

  /** When the rows agree about every key, keeping the latest loses nothing. */
  lemma LatestPerKeyContents<K, F>(rows: seq<Row<K, F>>)
    requires Functional(Contents(rows))
    ensures Contents(LatestPerKey(rows)) == Contents(rows)
  {
    hide LatestPerKey, UniqueKeys, Functional, Outlived;
    LatestPerKeyMeans(rows);
    var latest := LatestPerKey(rows);
    forall c | c in Contents(rows) ensures c in Contents(latest) {
      var r :| r in rows && (r.key, r.columns) == c;
      OutlivedAgrees(rows, latest, r);
    }
  }
}
