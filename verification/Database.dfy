/** The tables as the repositories change them: one object whose fields the statements assign. */
module Database {
  import opened Types
  import opened Tables
  import opened Ledger
  import Fefo

  // ---- queries over product_batches

  function Least(ids: set<Id>): (r: Id)
    requires ids != {}
    ensures r in ids && forall x :: x in ids ==> r <= x
  {
    assert exists x :: x in ids;
    ghost var x :| x in ids;
    LeastExists(ids, x);
    var r :| r in ids && forall x :: x in ids ==> r <= x;
    r
  }

  lemma {:induction false} LeastExists(ids: set<Id>, x: Id)
    requires x in ids
    ensures exists r :: r in ids && forall x :: x in ids ==> r <= x
    decreases x
  {
    if y :| y in ids && y < x {
      LeastExists(ids, y);
    } else {
      assert forall z :: z in ids ==> x <= z;
    }
  }

  function Ascend(ids: set<Id>): (r: seq<Id>)
    ensures forall x :: x in r <==> x in ids
    ensures forall i, j :: 0 <= i < j < |r| ==> r[i] < r[j]
    decreases |ids|
  {
    if ids == {} then [] else
      var x := Least(ids);
      [x] + Ascend(ids - {x})
  }

  function BatchesOf(rows: Rows, product: Id): set<Id> {
    set key | key in rows && key.kind == ProductBatches && rows[key].parent == Some(product) && !rows[key].deleted ::
        key.id
  }

  /** domainBatchStatus: every status but active and used_up reads as discarded. */
  function Domain(id: Id, row: Row): Fefo.Batch {
    Fefo.Batch(id, row.expiry, row.quantity, row.version, Available(row.status))
  }

  function DomainAll(rows: Rows, ids: seq<Id>): (r: seq<Fefo.Batch>)
    requires forall x :: x in ids ==> BatchKey(x) in rows
    ensures |r| == |ids| && forall i :: 0 <= i < |ids| ==> r[i] == Domain(ids[i], rows[BatchKey(ids[i])])
  {
    seq(|ids|, i requires 0 <= i < |ids| => Domain(ids[i], rows[BatchKey(ids[i])]))
  }

  function Listed(rows: Rows, product: Id): (r: seq<Fefo.Batch>)
    ensures Fefo.UniqueIds(r)
    ensures forall b :: b in r ==>
              b.id in BatchesOf(rows, product) && BatchKey(b.id) in rows && b == Domain(b.id, rows[BatchKey(b.id)])
    ensures forall id :: id in BatchesOf(rows, product) ==> BatchKey(id) in rows && Domain(id, rows[BatchKey(id)]) in r
  {
    var ids := Ascend(BatchesOf(rows, product));
    var r := DomainAll(rows, ids);
    assert forall id :: id in BatchesOf(rows, product) ==> id in ids;
    assert forall i :: 0 <= i < |ids| ==> r[i].id == ids[i] && ids[i] in ids;
    ListedMembers(rows, product, ids, r);
    r
  }

  lemma ListedMembers(rows: Rows, product: Id, ids: seq<Id>, r: seq<Fefo.Batch>)
    requires forall x :: x in ids <==> x in BatchesOf(rows, product)
    requires |r| == |ids| && forall i :: 0 <= i < |ids| ==>
               BatchKey(ids[i]) in rows && r[i] == Domain(ids[i], rows[BatchKey(ids[i])])
    ensures forall id :: id in BatchesOf(rows, product) ==> BatchKey(id) in rows && Domain(id, rows[BatchKey(id)]) in r
  {
    forall id | id in BatchesOf(rows, product) ensures BatchKey(id) in rows && Domain(id, rows[BatchKey(id)]) in r {
      assert id in ids;
      var i :| 0 <= i < |ids| && ids[i] == id;
      assert r[i] == Domain(id, rows[BatchKey(id)]);
    }
  }

  /** SELECT ... ORDER BY expiry_date ASC NULLS LAST, id ASC FOR UPDATE */
  function SelectBatches(rows: Rows, product: Id): (r: seq<Fefo.Batch>)
    ensures multiset(r) == multiset(Listed(rows, product))
  {
    Fefo.Sort(Listed(rows, product))
  }

  class Database {
    var rows: Rows
    var records: seq<Record>
    var log: seq<Entry>
    var receipts: map<ReceiptKey, Receipt>
    var conflicts: seq<Conflict>
    var sequence: nat
    var foreign: set<Key>

    constructor (db: Db)
      ensures State() == db
    {
      rows, records, log, receipts := db.rows, db.records, db.log, db.receipts;
      conflicts, sequence, foreign := db.conflicts, db.sequence, db.foreign;
    }

    function State(): Db
      reads this
    {
      Db(rows, records, log, receipts, conflicts, sequence, foreign)
    }

    /** ROLLBACK TO SAVEPOINT: the tables are again what they were when `saved` was taken. */
    method Restore(saved: Db)
      modifies this
      ensures State() == saved
    {
      rows, records, log, receipts := saved.rows, saved.records, saved.log, saved.receipts;
      conflicts, sequence, foreign := saved.conflicts, saved.sequence, saved.foreign;
    }
  }

  /** Any statement may fail: a constraint, an out-of-range value, a lost connection. */
  method Statement() returns (fault: Option<SqlState>)
  {
    if * {
      var state: SqlState := *;
      fault := Some(state);
    } else {
      fault := None;
    }
  }
}
