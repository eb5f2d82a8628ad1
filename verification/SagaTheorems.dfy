/** What the invariant means to the people who use the two services, over every run of the system. */
module SagaTheorems {
  import opened Common
  import opened Orders
  import opened OrderRecords
  import opened OrderInvariants
  import opened Encoding
  import opened Saga
  import opened SagaInvariants
  import opened SagaCredit
  import opened SagaSafety
  import opened CreditBooks
  import opened CreditFences
  import C = Credit
  import L = CreditLedger

  // Agreement

  // From assignment to delivery, unless a withdrawal is pending.
  ghost predicate IsUnderway(o: Order) {
    || (o.status == AwaitingPickup && o.pendingCancellation.None?)
    || o.status == Delivering
    || o.status == Delivered
  }

  // Credit has assigned the hold to the order's latest succeeded attempt, at its price, for its courier.
  ghost predicate AssignedAgrees(r: Record, b: C.Book) {
    var i := LatestSucceeded(r.attempts);
    && i.Some? && b.current.Some?
    && var v := b.current.value;
       && v.status == C.Status.Assigned && v.assignment == i && v.requester == Some(r.order.requester)
       && i.value in b.assignments && b.assignments[i.value].status == C.Applied
       && b.assignments[i.value].courier == r.order.courier
       && b.assignments[i.value].offer == v.reserved == r.order.reserved
  }

  // Credit holds the original amount for the requester and has applied no offer.
  ghost predicate HeldAgrees(r: Record, b: C.Book) {
    && b.current.Some?
    && var v := b.current.value;
       && v.status == C.Status.Held && v.requester == Some(r.order.requester)
       && v.reserved == v.original == r.order.reserved == r.workflow.amount
       && forall a: AttemptId :: !IsApplied(b, a)
  }

  lemma AppliedMeansAssigned(b: C.Book, a: AttemptId)
    requires BookOk(b) && IsApplied(b, a) && !b.current.value.IsTerminal()
    ensures b.current.value.status == C.Status.Assigned && b.current.value.assignment == Some(a)
    ensures b.assignments[a].offer == b.current.value.reserved
  {
    assert b.history[|b.history| - 1] == b.current.value;
  }

  lemma HolderIsAssigned(r: Record, b: C.Book)
    requires RecordOk(r) && BookOk(b) && Ties(r, b)
    requires IsUnderway(r.order)
    ensures AssignedAgrees(r, b)
  {
    var i := LatestSucceeded(r.attempts).value;
    assert AttemptTie(r, b, i);
    AppliedMeansAssigned(b, i);
  }

  lemma OpenIsHeld(r: Record, b: C.Book)
    requires RecordOk(r) && BookOk(b) && Ties(r, b)
    requires r.order.status == AwaitingCourier && NoActive(r.attempts)
    ensures HeldAgrees(r, b)
  {
    forall a: AttemptId
      ensures !IsApplied(b, a)
    {
      if a in b.assignments {
        assert AttemptTie(r, b, a);
      }
    }
    CurrentShape(b);
  }

  /** Order and Credit agree in every reachable state: from assignment to delivery the hold belongs to exactly the
      order's courier and price, and an open order without an attempt in flight holds exactly its reward. */
  lemma ServicesAgree(labels: seq<Label>, o: OrderId)
    ensures var s := Run(START, labels);
            o in s.cells ==>
              var r := s.cells[o].record;
              && (IsUnderway(r.order) ==> AssignedAgrees(r, BookIn(s, o)))
              && (r.order.status == AwaitingCourier && NoActive(r.attempts) ==> HeldAgrees(r, BookIn(s, o)))
  {
    hide Run, RecordOk, Ties, BookOk, L.StateOk, KeysOk, AssignedAgrees, HeldAgrees;
    ReachedOk(labels);
    var s := Run(START, labels);
    if o in s.cells {
      var r, b := s.cells[o].record, BookIn(s, o);
      assert CellOk(o, s.cells[o], b);
      if r.order.status == AwaitingCourier && NoActive(r.attempts) {
        OpenIsHeld(r, b);
      } else if IsUnderway(r.order) {
        HolderIsAssigned(r, b);
      }
    }
  }

  // Outcomes

  lemma EventAccepted(s: World, o: OrderId, k: nat)
    requires WorldOk(s) && o in s.cells && EventOf(s.cells[o].record, k).Some?
    ensures var event := EventOf(s.cells[o].record, k).value;
            var reply := C.ApplyOutcome(s.credit, event, C.LatenessPayout).1;
            && event.order == o && reply.Ok?
            && (reply.value.applied <==> BookIn(s, o).current.None? || !BookIn(s, o).current.value.IsTerminal())
  {
    hide CellOk, KeysOk, L.StateOk, OutcomeOf, C.ApplyOutcome, Agrees;
    var event := EventOf(s.cells[o].record, k).value;
    assert CellOk(o, s.cells[o], BookIn(s, o));
    EventIsEnd(o, s.cells[o], BookIn(s, o), k);
    OutcomesAreAcceptedExactly(s.credit, event);
  }

  /** No settlement is stranded: in every reachable state Credit accepts every outcome the order ever stored, and it
      applies it exactly if the reservation has not ended yet. */
  lemma NoStrandedSettlement(labels: seq<Label>, o: OrderId, k: nat)
    ensures var s := Run(START, labels);
            o in s.cells && EventOf(s.cells[o].record, k).Some? ==>
              var reply := C.ApplyOutcome(s.credit, EventOf(s.cells[o].record, k).value, C.LatenessPayout).1;
              && reply.Ok?
              && (reply.value.applied <==> BookIn(s, o).current.None? || !BookIn(s, o).current.value.IsTerminal())
  {
    hide Run, WorldOk, C.ApplyOutcome, OutcomeOf;
    ReachedOk(labels);
    var s := Run(START, labels);
    if o in s.cells && EventOf(s.cells[o].record, k).Some? {
      EventAccepted(s, o, k);
    }
  }

  /** An ended order's outcome is missing only if a skewed clock dated its delivery before its pickup. */
  lemma OutcomeMissingExactly(labels: seq<Label>, o: OrderId, k: nat)
    ensures var s := Run(START, labels);
            o in s.cells && k < |s.cells[o].record.facts| && s.cells[o].record.facts[k].fact.kind == Outcome ==>
              (EventOf(s.cells[o].record, k).Some? <==> InOrder(s.cells[o].record.facts[k].fact.payload))
  {
    hide Run, RecordOk, Ties, BookOk, L.StateOk, KeysOk;
    ReachedOk(labels);
    var s := Run(START, labels);
    if o in s.cells && k < |s.cells[o].record.facts| && s.cells[o].record.facts[k].fact.kind == Outcome {
      assert CellOk(o, s.cells[o], BookIn(s, o));
      OutcomeIsEnd(s.cells[o].record, k);
    }
  }

  /** Credits are conserved in the whole system: no saga, however its messages are lost or repeated, creates, destroys
      or strands a credit. */
  lemma SystemConservesCredits(labels: seq<Label>)
    ensures var bank, books := Run(START, labels).credit.bank, Run(START, labels).credit.books;
            && Total(L.Balances(bank.accounts)) == C.STARTING_CREDITS * |bank.accounts|
            && forall u :: u in bank.accounts ==>
                 && bank.accounts[u].reserved == Total(L.Holds(books, u))
                 && 0 <= bank.accounts[u].reserved <= bank.accounts[u].balance
  {
    hide Run, CellOk, KeysOk;
    ReachedOk(labels);
    var s := Run(START, labels).credit;
    assert forall u :: u in s.bank.accounts ==> s.bank.accounts[u].reserved == L.ReservedIn(s.bank.accounts, u);
  }

  /** Every fact any order has stored encodes, unless it was stamped with the zero instant or is the outcome of a
      delivery dated before its pickup: nothing else can block an order's outbox. */
  lemma FactsNeverBlock(labels: seq<Label>, o: OrderId, k: nat)
    ensures var s := Run(START, labels);
            o in s.cells && k < |s.cells[o].record.facts| ==>
              var f := s.cells[o].record.facts[k].fact;
              Encode(s.cells[o].record.facts[k]).Some? <==>
              f.payload.at != ZERO_TIME && (f.kind == Outcome ==> InOrder(f.payload))
  {
    hide Run, RecordOk, Ties, BookOk, L.StateOk, KeysOk, Encode;
    ReachedOk(labels);
    var s := Run(START, labels);
    if o in s.cells && k < |s.cells[o].record.facts| {
      assert CellOk(o, s.cells[o], BookIn(s, o));
      StoredFactsEncodeExactly(s.cells[o].record, k);
    }
  }
}
