/** Recovery's grouping of pending rows by their frozen batch id. */
module Partition {
  import opened Basics
  import opened BillingStore

  datatype PendingBatch = PendingBatch(batch: Option<Id>, advertiser: Id, rows: seq<PendingRow>)

  /** The rows of one batch, in the order they were read. */
  function OfBatch(rows: seq<PendingRow>, b: Option<Id>): seq<PendingRow> {
    if rows == [] then []
    else
      var last := |rows| - 1;
      OfBatch(rows[..last], b) + if rows[last].batch == b then [rows[last]] else []
  }

  /** One entry per batch id, none of them empty, each with all rows of that batch and no other. */
  ghost predicate IsPartition(batches: seq<PendingBatch>, rows: seq<PendingRow>) {
    && (forall i: nat | i < |batches| ::
          && batches[i].rows == OfBatch(rows, batches[i].batch)
          && batches[i].rows != []
          && batches[i].advertiser == batches[i].rows[0].advertiser)
    && (forall i: nat, j: nat | i < j < |batches| :: batches[i].batch != batches[j].batch)
    && (forall r <- rows :: exists i: nat :: i < |batches| && batches[i].batch == r.batch)
  }

  lemma OfBatchExtends(rows: seq<PendingRow>, r: PendingRow, b: Option<Id>)
    ensures OfBatch(rows + [r], b) == OfBatch(rows, b) + if r.batch == b then [r] else []
  {
    assert (rows + [r])[..|rows|] == rows;
  }

  lemma OfBatchMembers(rows: seq<PendingRow>, b: Option<Id>)
    ensures forall r :: r in OfBatch(rows, b) <==> r in rows && r.batch == b
  {
  }

  lemma NothingOfBatch(rows: seq<PendingRow>, b: Option<Id>)
    requires forall r <- rows :: r.batch != b
    ensures OfBatch(rows, b) == []
  {
  }

  lemma RowJoins(batches: seq<PendingBatch>, rows: seq<PendingRow>, r: PendingRow, i: nat)
    requires IsPartition(batches, rows) && i < |batches| && batches[i].batch == r.batch
    ensures IsPartition(batches[i := batches[i].(rows := batches[i].rows + [r])], rows + [r])
  {
    var more := batches[i := batches[i].(rows := batches[i].rows + [r])];
    forall j: nat | j < |batches|
      ensures more[j].rows == OfBatch(rows + [r], more[j].batch)
    {
      OfBatchExtends(rows, r, batches[j].batch);
    }
    forall q <- rows + [r]
      ensures exists j: nat :: j < |more| && more[j].batch == q.batch
    {
      var j: nat :| j < |batches| && batches[j].batch == q.batch;
      assert more[j].batch == q.batch;
    }
  }

  lemma RowOpens(batches: seq<PendingBatch>, rows: seq<PendingRow>, r: PendingRow)
    requires IsPartition(batches, rows) && forall i: nat | i < |batches| :: batches[i].batch != r.batch
    ensures IsPartition(batches + [PendingBatch(r.batch, r.advertiser, [r])], rows + [r])
  {
    var more := batches + [PendingBatch(r.batch, r.advertiser, [r])];
    NothingOfBatch(rows, r.batch);
    forall j: nat | j < |more|
      ensures more[j].rows == OfBatch(rows + [r], more[j].batch)
    {
      OfBatchExtends(rows, r, more[j].batch);
    }
    forall q <- rows + [r]
      ensures exists j: nat :: j < |more| && more[j].batch == q.batch
    {
      if q in rows {
        var j: nat :| j < |batches| && batches[j].batch == q.batch;
        assert more[j].batch == q.batch;
      } else {
        assert more[|batches|].batch == q.batch;
      }
    }
  }

  /** The map leads from every batch id seen to its entry. */
  ghost predicate Indexes(byBatch: map<Option<Id>, nat>, batches: seq<PendingBatch>) {
    && (forall b <- byBatch :: byBatch[b] < |batches| && batches[byBatch[b]].batch == b)
    && (forall i: nat | i < |batches| :: batches[i].batch in byBatch)
  }

  method PartitionPendingByBatch(rows: seq<PendingRow>) returns (batches: seq<PendingBatch>)
    ensures IsPartition(batches, rows)
  {
    batches := [];
    var byBatch: map<Option<Id>, nat> := map[];
    for k := 0 to |rows|
      invariant IsPartition(batches, rows[..k])
      invariant Indexes(byBatch, batches)
    {
      var r := rows[k];
      assert rows[..k + 1] == rows[..k] + [r];
      if r.batch in byBatch {
        var i := byBatch[r.batch];
        RowJoins(batches, rows[..k], r, i);
        batches := batches[i := batches[i].(rows := batches[i].rows + [r])];
      } else {
        RowOpens(batches, rows[..k], r);
        byBatch := byBatch[r.batch := |batches|];
        batches := batches + [PendingBatch(r.batch, r.advertiser, [r])];
      }
    }
    assert rows[..|rows|] == rows;
  }
}
