/**
 * The transaction store as `save_to_db` uses it: a table keyed by
 * `transaction_id` into which every canonical row is inserted with
 * `ON CONFLICT (transaction_id) DO NOTHING`, so the first row stored under an
 * identifier stays and later ones are ignored.
 */
module Store {
  import opened Normalize

  type Ledger = map<Cell, Canonical>

  /** One `INSERT ... ON CONFLICT (transaction_id) DO NOTHING`. */
  function Insert(m: Ledger, r: Canonical): Ledger {
    if r.transactionId in m then m else m[r.transactionId := r]
  }

  /** The rows inserted one after another, in order. */
  function InsertAll(m: Ledger, rows: seq<Canonical>): Ledger
    decreases |rows|
  {
    if rows == [] then m else Insert(InsertAll(m, rows[..|rows| - 1]), rows[|rows| - 1])
  }

  /** The identifiers a sequence of rows carries. */
  function Ids(rows: seq<Canonical>): set<Cell> {
    set r | r in rows :: r.transactionId
  }

  /** After the inserts the table holds exactly the old keys and the rows' identifiers. */
  lemma {:induction false} InsertAllKeys(m: Ledger, rows: seq<Canonical>)
    ensures InsertAll(m, rows).Keys == m.Keys + Ids(rows)
    decreases |rows|
  {
    if rows != [] {
      var init := rows[..|rows| - 1];
      InsertAllKeys(m, init);
      assert rows == init + [rows[|rows| - 1]];
      assert Ids(rows) == Ids(init) + {rows[|rows| - 1].transactionId};
    }
  }

  /** A stored row is never overwritten. */
  lemma {:induction false} InsertAllKeepsStored(m: Ledger, rows: seq<Canonical>, k: Cell)
    requires k in m
    ensures k in InsertAll(m, rows) && InsertAll(m, rows)[k] == m[k]
    decreases |rows|
  {
    if rows != [] {
      InsertAllKeepsStored(m, rows[..|rows| - 1], k);
    }
  }

  /** For a new identifier, the first row of the batch that carries it is the one stored. */
  lemma {:induction false} InsertAllFirstWins(m: Ledger, rows: seq<Canonical>, j: nat)
    requires j < |rows| && rows[j].transactionId !in m
    requires forall l :: 0 <= l < j ==> rows[l].transactionId != rows[j].transactionId
    ensures rows[j].transactionId in InsertAll(m, rows)
    ensures InsertAll(m, rows)[rows[j].transactionId] == rows[j]
    decreases |rows|
  {
    var init := rows[..|rows| - 1];
    var k := rows[j].transactionId;
    if j < |rows| - 1 {
      InsertAllFirstWins(m, init, j);
    } else {
      InsertAllKeys(m, init);
      assert k !in Ids(init);
    }
  }

  /** Rows whose identifiers are all stored change nothing. */
  lemma {:induction false} InsertAllStoredIds(m: Ledger, rows: seq<Canonical>)
    requires Ids(rows) <= m.Keys
    ensures InsertAll(m, rows) == m
    decreases |rows|
  {
    if rows != [] {
      var init := rows[..|rows| - 1];
      assert Ids(init) <= Ids(rows);
      InsertAllStoredIds(m, init);
      assert rows[|rows| - 1] in rows;
    }
  }

  /** Saving the same rows a second time leaves the table as the first save left it. */
  lemma InsertAllIdempotent(m: Ledger, rows: seq<Canonical>)
    ensures InsertAll(InsertAll(m, rows), rows) == InsertAll(m, rows)
  {
    InsertAllKeys(m, rows);
    InsertAllStoredIds(InsertAll(m, rows), rows);
  }

  /** The table behind `save_to_db`. */
  class TransactionStore {
    var table: Ledger

    /** `CREATE TABLE IF NOT EXISTS` on an empty database. */
    constructor ()
      ensures table == map[]
    {
      table := map[];
    }

    /** `save_to_db(df)`: each row inserted in order, a clashing identifier ignored. */
    method SaveToDb(rows: seq<Canonical>)
      modifies this
      ensures table == InsertAll(old(table), rows)
    {
      for i := 0 to |rows|
        invariant table == InsertAll(old(table), rows[..i])
      {
        assert rows[..i + 1][..i] == rows[..i];
        table := Insert(table, rows[i]);
      }
      assert rows[..|rows|] == rows;
    }
  }
}
