/** The first delivery of an order's outcome is the one that applies, and only the first. */
module SagaDelivery {
  import opened Common
  import opened OrderRecords
  import opened OrderInvariants
  import opened Encoding
  import opened Saga
  import opened SagaInvariants
  import opened SagaCredit
  import opened SagaSafety
  import opened SagaTheorems
  import opened SagaHistory
  import opened CreditBooks
  import opened CreditFences
  import C = Credit
  import L = CreditLedger

  // The step delivers an outcome of the order, one that encodes.
  ghost predicate Delivers(s: World, l: Label, o: OrderId) {
    && l.On? && l.order == o && l.step.DeliverOutcome?
    && o in s.cells && EventOf(s.cells[o].record, l.step.fact).Some?
  }

  ghost predicate WasDelivered(s: World, labels: seq<Label>, o: OrderId)
    decreases |labels|
  {
    labels != [] && (Delivers(s, labels[0], o) || WasDelivered(Take(s, labels[0]), labels[1..], o))
  }

  ghost predicate HasEnded(b: C.Book) {
    b.current.Some? && b.current.value.IsTerminal()
  }

  ghost predicate IsAborted(r: Record) {
    r.workflow.phase == AbortPending || r.workflow.phase == CreationRejected
  }

  // While no outcome has been delivered, only the release of an aborted creation ends the reservation.
  ghost predicate IsOpen(s: World, o: OrderId) {
    o in s.cells && HasEnded(BookIn(s, o)) ==> IsAborted(s.cells[o].record)
  }

  // Calls

  lemma CallKeepsOpen(r: Record, b: C.Book, o: OrderId, work: Work, enough: bool)
    requires BookOk(b) && WorkOk(r, work) && CallOf(r, o, work).Some? && (HasEnded(b) ==> IsAborted(r))
    ensures HasEnded(C.Serve(b, CallOf(r, o, work).value, enough).book) ==> IsAborted(r)
  {
    hide C.Serve, BookOk;
    match work {
      case CreationWork(_, creation) =>
        ReleaseReleases(b, o, C.ReleaseReason.Expired, enough);
        ReserveHolds(b, o, r.workflow.requester, r.workflow.amount, enough);
      case AttemptWork(i, _, _) =>
        RevertFencesIt(b, o, i, enough);
        AdjustApplies(b, o, i, r.attempts[i].courier, r.attempts[i].amount, enough);
      case WithdrawalWork(c, _) => RevertFencesIt(b, o, r.cancellations[c].assignment.value, enough);
    }
  }

  lemma CallLeavesOpen(s: World, p: OrderId, work: Work, o: OrderId)
    requires WorldOk(s) && p in s.cells && Claim(work) in s.cells[p].net && IsOpen(s, o)
    requires CallOf(s.cells[p].record, p, work).Some?
    ensures var (credit, reply) := C.Handle(s.credit, CallOf(s.cells[p].record, p, work).value);
            IsOpen(Put(s.(credit := credit), p, Learnt(s.cells[p], ReplyToken(work, reply))), o)
  {
    hide L.StateOk, KeysOk, C.Handle, C.Serve, RecordOk, Ties, BookOk, WorkOk, ReplyToken, HasEnded, IsAborted;
    var cell := s.cells[p];
    assert CellOk(p, cell, BookIn(s, p));
    assert TokenOk(cell.record, BookIn(s, p), Claim(work));
    var call := CallOf(cell.record, p, work).value;
    assert call.order == p;
    HandleServes(s.credit, call);
    if p == o {
      CallKeepsOpen(cell.record, BookIn(s, p), p, work, EnoughFor(s.credit, call));
    }
  }

  // Everything else

  // The row moves on while its reservation stands still.
  lemma RowLeavesOpen(s: World, s': World, o: OrderId)
    requires IsOpen(s, o) && WorldLater(s, s') && BookIn(s', o) == BookIn(s, o) && (o in s'.cells ==> o in s.cells)
    ensures IsOpen(s', o)
  {
    if o in s.cells {
      assert CellLater(s, s', o);
    }
  }

  lemma OtherOutcome(s: World, p: OrderId, k: nat, o: OrderId)
    requires WorldOk(s) && p in s.cells && p != o && EventOf(s.cells[p].record, k).Some?
    ensures C.BookOf(C.ApplyOutcome(s.credit, EventOf(s.cells[p].record, k).value, C.LatenessPayout).0, o)
         == BookIn(s, o)
  {
    hide L.StateOk, KeysOk, C.ApplyOutcome, EventOf, RecordOk, BookOk, Ties, NetOk;
    assert CellOk(p, s.cells[p], BookIn(s, p));
    EventIsEnd(p, s.cells[p], BookIn(s, p), k);
    OutcomeKeepsOthers(s.credit, EventOf(s.cells[p].record, k).value, o);
  }

  // What a step other than a call or a delivery leaves of the reservations.
  lemma SameBooks(s: World, p: OrderId, step: Saga.Step, o: OrderId)
    requires p in s.cells && !step.CallCredit? && !step.DeliverOutcome?
    ensures BookIn(TakeOn(s, p, step), o) == BookIn(s, o) && TakeOn(s, p, step).cells.Keys == s.cells.Keys
  {
    hide ClaimStep, ApplyWork, Act, AcceptOrder, ReadToken;
  }

  lemma StepLeavesOpen(s: World, p: OrderId, step: Saga.Step, o: OrderId)
    requires WorldOk(s) && p in s.cells && IsOpen(s, o) && !Delivers(s, On(p, step), o)
    ensures IsOpen(TakeOn(s, p, step), o)
  {
    hide WorldOk, IsOpen, WorldLater, EventOf, CallOf, C.ApplyOutcome;
    match step {
      case CallCredit(work) =>
        if Claim(work) in s.cells[p].net && CallOf(s.cells[p].record, p, work).Some? {
          CallLeavesOpen(s, p, work, o);
        }
      case DeliverOutcome(k) =>
        if p != o && EventOf(s.cells[p].record, k).Some? {
          OtherOutcome(s, p, k, o);
          StepLater(s, p, step);
          RowLeavesOpen(s, TakeOn(s, p, step), o);
        }
      case _ =>
        SameBooks(s, p, step, o);
        StepLater(s, p, step);
        RowLeavesOpen(s, TakeOn(s, p, step), o);
    }
  }

  lemma AdmitLeavesOpen(s: World, p: OrderId, requester: UserId, input: CreateInput, now: Time, o: OrderId)
    requires WorldOk(s) && IsOpen(s, o)
    ensures IsOpen(Take(s, Admit(p, requester, input, now)), o)
  {
    hide CellOk, KeysOk, L.StateOk, AdmitCreation;
  }

  lemma TakeLeavesOpen(s: World, l: Label, o: OrderId)
    requires WorldOk(s) && IsOpen(s, o) && !Delivers(s, l, o)
    ensures IsOpen(Take(s, l), o)
  {
    hide WorldOk, TakeOn, Delivers, AdmitCreation;
    match l {
      case OpenAccount(_) =>
      case Admit(p, requester, input, now) => AdmitLeavesOpen(s, p, requester, input, now, o);
      case On(p, step) =>
        if p in s.cells {
          StepLeavesOpen(s, p, step, o);
        }
    }
  }

  lemma {:induction false} UndeliveredIsOpen(s: World, labels: seq<Label>, o: OrderId)
    requires WorldOk(s) && IsOpen(s, o) && !WasDelivered(s, labels, o)
    ensures IsOpen(Run(s, labels), o)
    decreases |labels|
  {
    hide WorldOk, IsOpen, Take, Delivers;
    if labels != [] {
      TakeKeepsWorld(s, labels[0]);
      TakeLeavesOpen(s, labels[0], o);
      UndeliveredIsOpen(Take(s, labels[0]), labels[1..], o);
    }
  }

  // After a delivery

  lemma DeliveredHasEnded(s: World, l: Label, o: OrderId)
    requires WorldOk(s) && Delivers(s, l, o)
    ensures o in Take(s, l).cells && HasEnded(BookIn(Take(s, l), o))
  {
    hide WorldOk, EventOf, TakeOn;
    DeliveryEnds(s, o, l.step.fact);
  }

  lemma EndedStaysSo(s: World, labels: seq<Label>, o: OrderId)
    requires WorldOk(s) && o in s.cells && HasEnded(BookIn(s, o))
    ensures HasEnded(BookIn(Run(s, labels), o))
  {
    hide WorldOk, Run;
    RunLater(s, labels);
    assert CellLater(s, Run(s, labels), o);
    TerminalStays(s, Run(s, labels), o);
  }

  lemma {:induction false} DeliveredEnds(s: World, labels: seq<Label>, o: OrderId)
    requires WorldOk(s) && WasDelivered(s, labels, o)
    ensures HasEnded(BookIn(Run(s, labels), o))
    decreases |labels|
  {
    hide WorldOk, Take, Delivers, HasEnded;
    TakeKeepsWorld(s, labels[0]);
    if Delivers(s, labels[0], o) {
      DeliveredHasEnded(s, labels[0], o);
      EndedStaysSo(Take(s, labels[0]), labels[1..], o);
    } else {
      DeliveredEnds(Take(s, labels[0]), labels[1..], o);
    }
  }

  // An order with an outcome was opened.
  lemma EndedWasOpened(s: World, o: OrderId, k: nat)
    requires WorldOk(s) && o in s.cells && EventOf(s.cells[o].record, k).Some?
    ensures !IsAborted(s.cells[o].record)
  {
    hide L.StateOk, KeysOk, BookOk, Ties, NetOk, OutcomeOf;
    assert CellOk(o, s.cells[o], BookIn(s, o));
    OutcomeIsEnd(s.cells[o].record, k);
  }

  /** The first delivery settles: in every reachable state Credit accepts an order's outcome, and applies it exactly if
      no delivery of it has happened before, whatever else was lost, late or repeated. */
  lemma FirstDeliveryApplies(labels: seq<Label>, o: OrderId, k: nat)
    requires o in Run(START, labels).cells && EventOf(Run(START, labels).cells[o].record, k).Some?
    ensures var s := Run(START, labels);
            var reply := C.ApplyOutcome(s.credit, EventOf(s.cells[o].record, k).value, C.LatenessPayout).1;
            && reply.Ok?
            && (reply.value.applied <==> !WasDelivered(START, labels, o))
  {
    hide WorldOk, Run, C.ApplyOutcome, EventOf, WasDelivered;
    StartOk();
    ReachedOk(labels);
    var s := Run(START, labels);
    EventAccepted(s, o, k);
    EndedWasOpened(s, o, k);
    if WasDelivered(START, labels, o) {
      DeliveredEnds(START, labels, o);
    } else {
      UndeliveredIsOpen(START, labels, o);
    }
  }
}
