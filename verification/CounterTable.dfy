/** Tables of counters with a unique key, and the one statement the code runs against them:
    insert the counter, or increment the row that already has the key. */
module CounterTable {
  datatype Row<+K> = Row(key: K, requestCount: int)

  ghost predicate UniqueKeys<K>(rows: seq<Row<K>>) {
    forall i, j :: 0 <= i < j < |rows| ==> rows[i].key != rows[j].key
  }

  ghost predicate Positive<K>(rows: seq<Row<K>>) {
    forall i :: 0 <= i < |rows| ==> rows[i].requestCount >= 1
  }

  predicate HasKey<K(==)>(rows: seq<Row<K>>, key: K) {
    exists i :: 0 <= i < |rows| && rows[i].key == key
  }

  function Upsert<K(==)>(rows: seq<Row<K>>, key: K, count: int): seq<Row<K>> {
    if rows == [] then [Row(key, count)]
    else if rows[0].key == key then [Row(key, rows[0].requestCount + count)] + rows[1..]
    else [rows[0]] + Upsert(rows[1..], key, count)
  }

  /** SELECT SUM(requestCount) over the rows whose key satisfies p; no row gives 0. */
  function SumWhere<K>(rows: seq<Row<K>>, p: K -> bool): int {
    if rows == [] then 0
    else (if p(rows[0].key) then rows[0].requestCount else 0) + SumWhere(rows[1..], p)
  }

  /** However the rows are selected, one upsert adds its count once to every selection holding its key. */
  lemma {:induction false} UpsertAddsToSum<K>(rows: seq<Row<K>>, key: K, count: int, p: K -> bool)
    ensures SumWhere(Upsert(rows, key, count), p) == SumWhere(rows, p) + if p(key) then count else 0
  {
    if rows == [] {
    } else if rows[0].key == key {
      assert Upsert(rows, key, count)[1..] == rows[1..];
    } else {
      UpsertAddsToSum(rows[1..], key, count, p);
      assert Upsert(rows, key, count)[1..] == Upsert(rows[1..], key, count);
    }
  }

  lemma {:induction false} UpsertKeys<K>(rows: seq<Row<K>>, key: K, count: int)
    ensures forall k :: HasKey(Upsert(rows, key, count), k) <==> HasKey(rows, k) || k == key
  {
    var after := Upsert(rows, key, count);
    if rows == [] {
      assert after[0].key == key;
    } else if rows[0].key == key {
      assert forall i :: 0 <= i < |rows| ==> after[i].key == rows[i].key;
      assert forall k :: HasKey(after, k) <==> HasKey(rows, k);
    } else {
      var rest := Upsert(rows[1..], key, count);
      UpsertKeys(rows[1..], key, count);
      KeysOfCons(rows[0], rows[1..]);
      KeysOfCons(rows[0], rest);
      assert [rows[0]] + rows[1..] == rows;
    }
  }

  lemma KeysOfCons<K>(row: Row<K>, rest: seq<Row<K>>)
    ensures forall k :: HasKey([row] + rest, k) <==> k == row.key || HasKey(rest, k)
  {
    forall k
      ensures HasKey([row] + rest, k) <==> k == row.key || HasKey(rest, k)
    {
      if k == row.key {
        assert ([row] + rest)[0].key == k;
      }
      if HasKey(rest, k) {
        var i :| 0 <= i < |rest| && rest[i].key == k;
        assert ([row] + rest)[i + 1].key == k;
      }
    }
  }

  /** The unique index and the positive counts are kept. */
  lemma {:induction false} UpsertKeepsTable<K>(rows: seq<Row<K>>, key: K, count: int)
    requires UniqueKeys(rows)
    ensures UniqueKeys(Upsert(rows, key, count))
    ensures Positive(rows) && count >= 1 ==> Positive(Upsert(rows, key, count))
  {
    if rows != [] && rows[0].key != key {
      UpsertKeepsTable(rows[1..], key, count);
      UpsertKeys(rows[1..], key, count);
      var rest := Upsert(rows[1..], key, count);
      forall i | 0 <= i < |rest|
        ensures rest[i].key != rows[0].key
      {
        assert HasKey(rest, rest[i].key);
      }
    }
  }

  lemma {:induction false} SumOfNone<K>(rows: seq<Row<K>>, p: K -> bool)
    requires forall i :: 0 <= i < |rows| ==> !p(rows[i].key)
    ensures SumWhere(rows, p) == 0
  {
    if rows != [] {
      SumOfNone(rows[1..], p);
    }
  }

  lemma {:induction false} SumOfPositive<K>(rows: seq<Row<K>>, p: K -> bool)
    requires Positive(rows)
    ensures SumWhere(rows, p) >= 0
    ensures SumWhere(rows, p) == 0 <==> forall i :: 0 <= i < |rows| ==> !p(rows[i].key)
  {
    if rows != [] {
      SumOfPositive(rows[1..], p);
      assert (forall i :: 0 <= i < |rows| ==> !p(rows[i].key))
        <==> !p(rows[0].key) && (forall i :: 0 <= i < |rows[1..]| ==> !p(rows[1..][i].key));
    }
  }

  /** With a unique index, the row of a key is the whole sum over that key. */
  lemma {:induction false} RowIsItsSum<K>(rows: seq<Row<K>>, i: nat, p: K -> bool)
    requires UniqueKeys(rows) && i < |rows|
    requires forall k :: p(k) <==> k == rows[i].key
    ensures SumWhere(rows, p) == rows[i].requestCount
  {
    if i == 0 {
      SumOfNone(rows[1..], p);
    } else {
      RowIsItsSum(rows[1..], i - 1, p);
    }
  }
}
