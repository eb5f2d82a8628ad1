/** What an order's end means in money, from the order's own rows to Credit's accounts, in every reachable state. */
module SagaSettlement {
  import opened Common
  import opened Orders
  import opened OrderRecords
  import opened OrderInvariants
  import opened Saga
  import opened SagaInvariants
  import opened SagaSafety
  import opened SagaTheorems
  import opened SagaDelivery
  import opened CreditBooks
  import opened CreditEffects
  import C = Credit
  import L = CreditLedger
  import Lateness

  // The courier's share of what an order that ended after pickup holds.
  function EarnedBy(o: Order): int
    requires o.status == Completed ==> o.pickedUpAt.Some? && o.deliveredAt.Some?
  {
    if o.status == Completed then
      Lateness.Payable(o.reserved, Micros(o.deliveredAt.value) - Micros(o.pickedUpAt.value),
                       Micros(o.deliveryDuration))
    else o.reserved
  }

  // The end pays a courier: a completed delivery, or a cancellation by the requester once the item was picked up.
  predicate PaysCourier(o: Order) {
    o.status == Completed || (o.status == Cancelled && o.pickedUpAt.Some?)
  }

  // What the end of an order moves between two states of Credit.
  ghost predicate EndsInMoney(o: Order, hold: int, s: C.State, s': C.State) {
    if PaysCourier(o) then
      && o.courier.Some? && (o.status == Completed ==> o.pickedUpAt.Some? && o.deliveredAt.Some?)
      && hold == o.reserved && 0 <= EarnedBy(o) <= hold
      && Pays(s, s', o.requester, o.courier.value, hold, EarnedBy(o))
    else MovesHold(s, s', o.requester, -hold)
  }

  // While the reservation is open, the holder of a picked-up order is still assigned to it at the order's price.
  lemma HolderIsStillAssigned(r: Record, b: C.Book)
    requires RecordOk(r) && BookOk(b) && Ties(r, b)
    requires r.order.courier.Some? && !MayLose(r.order) && b.current.Some? && !b.current.value.IsTerminal()
    ensures AssignedAgrees(r, b)
  {
    var i := LatestSucceeded(r.attempts).value;
    assert AttemptTie(r, b, i);
    AppliedMeansAssigned(b, i);
  }

  lemma EndEventSpeaks(o: Order)
    requires HasOutcome(o.status)
    ensures PaysCourier(o) <==> IsSettlement(EndEvent(o))
    ensures !PaysCourier(o) ==> ReleaseOf(EndEvent(o)).Some?
    ensures PaysCourier(o) && (o.status == Completed ==> o.pickedUpAt.Some? && o.deliveredAt.Some?) ==>
              forall hold :: o.reserved == hold ==> ShareOf(hold, EndEvent(o)) == EarnedBy(o)
  {}

  // An order that pays its courier still has it, and has lost nothing.
  lemma PayingKeeps(r: Record)
    requires RecordOk(r) && PaysCourier(r.order)
    ensures r.order.courier.Some? && !MayLose(r.order)
    ensures r.order.status == Completed ==> r.order.pickedUpAt.Some? && r.order.deliveredAt.Some?
  {}

  lemma AppliedMoves(s: World, o: OrderId)
    requires WorldOk(s) && o in s.cells && HasOutcome(s.cells[o].record.order.status)
    requires var reply := C.ApplyOutcome(s.credit, EndEvent(s.cells[o].record.order), C.LatenessPayout).1;
             reply.Ok? && reply.value.applied
    requires BookIn(s, o).current.Some? && !BookIn(s, o).current.value.IsTerminal()
    ensures var order := s.cells[o].record.order;
            var s' := C.ApplyOutcome(s.credit, EndEvent(order), C.LatenessPayout).0;
            EndsInMoney(order, BookIn(s, o).current.value.reserved, s.credit, s')
  {
    hide L.StateOk, C.ApplyOutcome, RecordOk, Ties, BookOk, KeysOk, NetOk, EndEvent, Pays, MovesHold, ShareOf, EarnedBy,
         AssignedAgrees;
    var r, b := s.cells[o].record, BookIn(s, o);
    assert CellOk(o, s.cells[o], b);
    EndEventSpeaks(r.order);
    var event := EndEvent(r.order);
    assert event.order == o && event.requester == r.order.requester && event.courier == r.order.courier by {
      EndEventNames(r.order);
    }
    if PaysCourier(r.order) {
      PayingKeeps(r);
      HolderIsStillAssigned(r, b);
      AssignedHold(r, b);
      SettlementExactly(s.credit, event);
    } else {
      ReleaseOutcomeExactly(s.credit, event);
    }
  }

  lemma EndEventNames(o: Order)
    ensures EndEvent(o).order == o.id && EndEvent(o).requester == o.requester && EndEvent(o).courier == o.courier
  {}

  lemma AssignedHold(r: Record, b: C.Book)
    requires AssignedAgrees(r, b)
    ensures b.current.value.reserved == r.order.reserved
  {}

  /** An order's end in money. The first delivery of its outcome, whatever else was lost, late or repeated, moves
      exactly this: a completed order pays its own courier by lateness out of its own price, and the rest returns; a
      requester who cancelled after pickup pays the whole price; every other end returns the whole hold. Nobody else's
      account moves. */
  lemma SettlesAsItEnded(labels: seq<Label>, o: OrderId, k: nat)
    requires o in Run(START, labels).cells && EventOf(Run(START, labels).cells[o].record, k).Some?
    requires !WasDelivered(START, labels, o)
    ensures var s := Run(START, labels);
            var s' := C.ApplyOutcome(s.credit, EventOf(s.cells[o].record, k).value, C.LatenessPayout).0;
            && BookIn(s, o).current.Some?
            && EndsInMoney(s.cells[o].record.order, BookIn(s, o).current.value.reserved, s.credit, s')
  {
    hide WorldOk, Run, C.ApplyOutcome, EventOf, WasDelivered, EndsInMoney;
    ReachedOk(labels);
    var s := Run(START, labels);
    FirstDeliveryApplies(labels, o, k);
    EventAccepted(s, o, k);
    EventIsTheEnd(s, o, k);
    AppliedMoves(s, o);
  }

  // The event of an undelivered outcome describes the order as it ended, and its reservation exists.
  lemma EventIsTheEnd(s: World, o: OrderId, k: nat)
    requires WorldOk(s) && o in s.cells && EventOf(s.cells[o].record, k).Some?
    ensures EventOf(s.cells[o].record, k).value == EndEvent(s.cells[o].record.order)
    ensures HasOutcome(s.cells[o].record.order.status) && BookIn(s, o).current.Some?
  {
    hide L.StateOk, KeysOk, BookOk, NetOk, EventOf, EndEvent;
    assert CellOk(o, s.cells[o], BookIn(s, o));
    EventIsEnd(o, s.cells[o], BookIn(s, o), k);
  }
}
