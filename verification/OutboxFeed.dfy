/** The rows that an order's changes write reach the outbox in the order the relay relies on. */
module OutboxFeed {
  import opened Common
  import opened OrderRecords
  import opened OrderInvariants
  import opened Outbox

  // Commits the first n rows of an order, with fresh event identifiers, among whatever else the outbox holds.
  function Feed(box: Box, r: Record, ids: seq<EventId>, n: nat): Box
    requires n <= |ids| == |r.facts|
  {
    if n == 0 then box
    else
      var row := r.facts[n - 1];
      Insert(Feed(box, r, ids, n - 1), ids[n - 1], row.order, row.revision, row.ordinal)
  }

  ghost predicate AreFresh(box: Box, ids: seq<EventId>) {
    && (forall i :: 0 <= i < |ids| ==> ids[i] !in box.items)
    && forall i, j :: 0 <= i < j < |ids| ==> ids[i] != ids[j]
  }

  function ItemOf(row: Row): Item {
    Item(row.order, row.revision, row.ordinal, None, None)
  }

  // The outbox gained exactly the first n rows.
  ghost predicate IsFed(box: Box, r: Record, ids: seq<EventId>, n: nat, fed: Box)
    requires n <= |ids| == |r.facts|
  {
    && (forall i :: 0 <= i < n ==> ids[i] in fed.items && fed.items[ids[i]] == ItemOf(r.facts[i]))
    && (forall e :: e in fed.items <==> e in box.items || e in ids[..n])
    && forall e :: e in box.items ==> fed.items[e] == box.items[e]
  }

  lemma FedNext(box: Box, r: Record, ids: seq<EventId>, n: nat, fed: Box)
    requires FactsOk(r.order, r.facts) && n < |ids| == |r.facts| && AreFresh(box, ids) && IsFed(box, r, ids, n, fed)
    requires forall e :: e in box.items ==> box.items[e].order != r.order.id
    ensures IsNext(fed, ids[n], r.facts[n].order, r.facts[n].revision, r.facts[n].ordinal)
  {
    forall e | e in fed.items && fed.items[e].order == r.facts[n].order
      ensures IsEarlier(fed.items[e], ItemOf(r.facts[n]))
    {
      assert RowFits(r.order, r.facts[n]);
      assert e in ids[..n];
      var i :| 0 <= i < n && ids[i] == e;
      assert RowFits(r.order, r.facts[i]) && IsBefore(r.facts[i], r.facts[n]);
    }
  }

  lemma FedOneMore(box: Box, r: Record, ids: seq<EventId>, n: nat, fed: Box)
    requires 0 < n <= |ids| == |r.facts| && AreFresh(box, ids) && IsFed(box, r, ids, n - 1, fed)
    ensures IsFed(box, r, ids, n, fed.(items := fed.items[ids[n - 1] := ItemOf(r.facts[n - 1])]))
  {
    assert ids[..n] == ids[..n - 1] + [ids[n - 1]];
  }

  lemma InsertNext(fed: Box, e: EventId, row: Row)
    requires IsNext(fed, e, row.order, row.revision, row.ordinal)
    ensures Insert(fed, e, row.order, row.revision, row.ordinal) == fed.(items := fed.items[e := ItemOf(row)])
  {}

  lemma NothingFed(box: Box, r: Record, ids: seq<EventId>)
    requires |ids| == |r.facts|
    ensures IsFed(box, r, ids, 0, box)
  {}

  /** Committing the rows of an order in the order its changes wrote them never breaks the rule of the outbox: each
      row comes after every stored row of its order, and all of them are stored with their own columns. */
  lemma {:induction false} RowsCommitInOrder(box: Box, r: Record, ids: seq<EventId>, n: nat)
    requires RecordOk(r) && n <= |ids| == |r.facts| && AreFresh(box, ids)
    requires forall e :: e in box.items ==> box.items[e].order != r.order.id
    ensures IsFed(box, r, ids, n, Feed(box, r, ids, n))
  {
    hide RecordOk, IsFed, IsNext, Insert, AreFresh;
    if n == 0 {
      NothingFed(box, r, ids);
    } else {
      var fed := Feed(box, r, ids, n - 1);
      RowsCommitInOrder(box, r, ids, n - 1);
      FactsAreOk(r);
      FedNext(box, r, ids, n - 1, fed);
      InsertNext(fed, ids[n - 1], r.facts[n - 1]);
      FedOneMore(box, r, ids, n, fed);
    }
  }

  lemma FactsAreOk(r: Record)
    requires RecordOk(r)
    ensures FactsOk(r.order, r.facts)
  {}
}
