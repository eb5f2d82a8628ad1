/** Whatever call of the saga reaches Credit, however late or often, the order's rows and its book stay tied. */
module SagaCredit {
  import opened Common
  import opened Orders
  import opened OrderRecords
  import opened OrderInvariants
  import opened Encoding
  import opened Saga
  import opened SagaInvariants
  import opened CreditBooks
  import opened CreditFences
  import C = Credit

  // What each call can do to a book

  ghost predicate Holds(b: C.Book, b': C.Book, requester: UserId, amount: int) {
    && b'.assignments == b.assignments
    && (|| b'.current == b.current
        || (&& b.current.None? && b'.current.Some?
            && b'.current.value.status == C.Status.Held && b'.current.value.requester == Some(requester)
            && b'.current.value.original == amount))
  }

  ghost predicate Releases(b: C.Book, b': C.Book) {
    && b'.assignments == b.assignments
    && (b'.current == b.current || (b'.current.Some? && b'.current.value.status == C.Status.Released))
  }

  // Open reservations stay open and keep their requester and original amount.
  ghost predicate StaysOpen(b: C.Book, b': C.Book) {
    && b.current.Some? && b'.current.Some?
    && b'.current.value.requester == b.current.value.requester
    && b'.current.value.original == b.current.value.original
    && (b'.current.value.IsTerminal() ==> b'.current == b.current)
  }

  ghost predicate Applies(b: C.Book, b': C.Book, a: AttemptId, courier: UserId, offer: int) {
    || (b'.assignments == b.assignments && b'.current == b.current)
    || (&& StaysOpen(b, b') && !b'.current.value.IsTerminal()
        && a !in b.assignments
        && b'.assignments == b.assignments[a := C.Assignment(Some(courier), offer, C.Applied)])
  }

  ghost predicate Fences(b: C.Book, b': C.Book, a: AttemptId) {
    || (b'.assignments == b.assignments && b'.current == b.current)
    || (&& StaysOpen(b, b')
        && b'.assignments == b.assignments[a :=
             if a in b.assignments then b.assignments[a].(status := C.Reverted)
             else C.Assignment(None, 0, C.Reverted)])
  }

  lemma ReserveHolds(b: C.Book, o: OrderId, requester: UserId, amount: int, enough: bool)
    ensures Holds(b, C.Serve(b, C.Call.Reserve(o, requester, amount), enough).book, requester, amount)
  {}

  lemma ReleaseReleases(b: C.Book, o: OrderId, reason: C.ReleaseReason, enough: bool)
    ensures Releases(b, C.Serve(b, C.Call.Release(o, reason), enough).book)
  {}

  lemma AdjustApplies(b: C.Book, o: OrderId, a: AttemptId, courier: UserId, offer: int, enough: bool)
    ensures Applies(b, C.Serve(b, C.Call.Adjust(o, a, courier, offer), enough).book, a, courier, offer)
  {}

  lemma RevertFencesIt(b: C.Book, o: OrderId, a: AttemptId, enough: bool)
    ensures Fences(b, C.Serve(b, C.Call.Revert(o, a), enough).book, a)
  {}

  // Each call keeps the ties

  // Attempts and withdrawals only look at the assignments.
  lemma SameAssignmentsTie(r: Record, b: C.Book, b': C.Book)
    requires AttemptsTie(r, b) && WithdrawalsTie(r, b) && b'.assignments == b.assignments
    ensures AttemptsTie(r, b') && WithdrawalsTie(r, b')
  {
    forall i | 0 <= i < |r.attempts|
      ensures AttemptTie(r, b', i)
    {
      assert AttemptTie(r, b, i);
    }
    forall c | 0 <= c < |r.cancellations|
      ensures WithdrawalTie(r, b', r.cancellations[c])
    {
      assert WithdrawalTie(r, b, r.cancellations[c]);
    }
  }

  lemma HoldsTies(r: Record, b: C.Book, b': C.Book)
    requires RecordOk(r) && Ties(r, b) && BookStep(b, b')
    requires Holds(b, b', r.workflow.requester, r.workflow.amount)
    ensures Ties(r, b')
  {
    SameAssignmentsTie(r, b, b');
  }

  lemma ReleasesTies(r: Record, b: C.Book, b': C.Book)
    requires RecordOk(r) && Ties(r, b) && BookStep(b, b') && Releases(b, b')
    requires r.workflow.phase == AbortPending || r.workflow.phase == CreationRejected
    ensures Ties(r, b')
  {
    SameAssignmentsTie(r, b, b');
  }

  // The part of the ties that looks at the reservation, when an open one stays open.
  lemma OpenTies(r: Record, b: C.Book, b': C.Book)
    requires BookOk(b) && CreationTie(r, b) && EndTie(r, b) && StaysOpen(b, b') && r.workflow.phase == CreationOpened
    requires b'.current == b.current ==> forall a :: a in b.assignments ==>
               a in b'.assignments && b'.assignments[a].courier == b.assignments[a].courier
    ensures CreationTie(r, b') && EndTie(r, b')
  {
    if b'.current.value.IsTerminal() && HasOutcome(r.order.status) {
      assert Agrees(b, EndEvent(r.order));
    }
  }

  // The book gains the offer of an attempt that Credit has not seen.
  lemma AppliedTie(r: Record, b: C.Book, b': C.Book, a: AttemptId)
    requires AttemptsTie(r, b) && WithdrawalsTie(r, b) && a < |r.attempts| && r.attempts[a].offer.Some?
    requires a !in b.assignments
    requires b'.assignments ==
             b.assignments[a := C.Assignment(Some(r.attempts[a].courier), r.attempts[a].amount, C.Applied)]
    ensures AttemptsTie(r, b') && WithdrawalsTie(r, b')
  {
    forall i | 0 <= i < |r.attempts|
      ensures AttemptTie(r, b', i)
    {
      assert AttemptTie(r, b, i);
      assert i != a ==> IsFenced(b', i) == IsFenced(b, i);
    }
    forall c | 0 <= c < |r.cancellations|
      ensures WithdrawalTie(r, b', r.cancellations[c])
    {
      assert WithdrawalTie(r, b, r.cancellations[c]);
    }
  }

  lemma AppliesTies(r: Record, b: C.Book, b': C.Book, a: AttemptId)
    requires RecordOk(r) && BookOk(b) && Ties(r, b) && a < |r.attempts| && r.attempts[a].offer.Some?
    requires Applies(b, b', a, r.attempts[a].courier, r.attempts[a].amount)
    ensures Ties(r, b')
  {
    if b'.assignments == b.assignments {
      SameAssignmentsTie(r, b, b');
    } else {
      AppliedTie(r, b, b', a);
      OpenTies(r, b, b');
    }
  }

  // The order may lose this offer: its attempt is being reverted, was rejected, or was withdrawn from.
  ghost predicate MayFence(r: Record, b: C.Book, a: AttemptId) {
    && a < |r.attempts| && r.attempts[a].offer.Some?
    && (|| r.attempts[a].phase == RevertPending
        || r.attempts[a].phase == AssignmentRejected
        || (r.attempts[a].phase == AssignmentSucceeded && (IsFenced(b, a) || MayLose(r.order))))
  }

  lemma FencedTie(r: Record, b: C.Book, b': C.Book, a: AttemptId)
    requires AttemptsTie(r, b) && WithdrawalsTie(r, b) && MayFence(r, b, a)
    requires b'.assignments == b.assignments[a :=
               if a in b.assignments then b.assignments[a].(status := C.Reverted)
               else C.Assignment(None, 0, C.Reverted)]
    ensures AttemptsTie(r, b') && WithdrawalsTie(r, b')
  {
    forall i | 0 <= i < |r.attempts|
      ensures AttemptTie(r, b', i)
    {
      assert AttemptTie(r, b, i);
      assert i != a ==> IsFenced(b', i) == IsFenced(b, i);
    }
    forall c | 0 <= c < |r.cancellations|
      ensures WithdrawalTie(r, b', r.cancellations[c])
    {
      assert WithdrawalTie(r, b, r.cancellations[c]);
    }
  }

  lemma FencesTies(r: Record, b: C.Book, b': C.Book, a: AttemptId)
    requires RecordOk(r) && BookOk(b) && Ties(r, b) && MayFence(r, b, a) && Fences(b, b', a)
    ensures Ties(r, b')
  {
    if b'.assignments == b.assignments && b'.current == b.current {
      SameAssignmentsTie(r, b, b');
    } else {
      FencedTie(r, b, b', a);
      OpenTies(r, b, b');
    }
  }

  // A withdrawal's revert only ever reaches an offer that the order may lose.
  lemma WithdrawalMayFence(r: Record, b: C.Book, c: nat)
    requires RecordOk(r) && Ties(r, b) && c < |r.cancellations| && r.cancellations[c].assignment.Some?
    ensures MayFence(r, b, r.cancellations[c].assignment.value)
  {
    var w := r.cancellations[c];
    assert CancellationOk(r.order, r.attempts, c, w);
    assert WithdrawalTie(r, b, w);
    assert AttemptOk(r.order.requester, r.workflow.amount, r.offers, r.attempts[w.assignment.value]);
  }

  /** A claimed step's call keeps the ties, whatever has happened since the claim. */
  lemma CallKeepsTies(r: Record, b: C.Book, o: OrderId, work: Work, enough: bool)
    requires RecordOk(r) && BookOk(b) && Ties(r, b) && WorkOk(r, work) && CallOf(r, o, work).Some?
    requires BookStep(b, C.Serve(b, CallOf(r, o, work).value, enough).book)
    ensures Ties(r, C.Serve(b, CallOf(r, o, work).value, enough).book)
  {
    var b' := C.Serve(b, CallOf(r, o, work).value, enough).book;
    match work {
      case CreationWork(_, creation) =>
        if creation == AbortPending {
          ReleaseReleases(b, o, C.ReleaseReason.Expired, enough);
          ReleasesTies(r, b, b');
        } else {
          ReserveHolds(b, o, r.workflow.requester, r.workflow.amount, enough);
          HoldsTies(r, b, b');
        }
      case AttemptWork(i, _, phase) =>
        if phase == RevertPending {
          RevertFencesIt(b, o, i, enough);
          FencesTies(r, b, b', i);
        } else {
          AdjustApplies(b, o, i, r.attempts[i].courier, r.attempts[i].amount, enough);
          AppliesTies(r, b, b', i);
        }
      case WithdrawalWork(c, _) =>
        var a := r.cancellations[c].assignment.value;
        RevertFencesIt(b, o, a, enough);
        WithdrawalMayFence(r, b, c);
        FencesTies(r, b, b', a);
    }
  }

  // A reply tells the truth about the book it leaves.
  lemma ReplyIsOk(r: Record, b: C.Book, o: OrderId, work: Work, enough: bool)
    requires BookOk(b) && WorkOk(r, work) && CallOf(r, o, work).Some?
    ensures var served := C.Serve(b, CallOf(r, o, work).value, enough);
            ReplyToken(work, served.reply).Some? ==> TokenOk(r, served.book, ReplyToken(work, served.reply).value)
  {
    var call := CallOf(r, o, work).value;
    var served := C.Serve(b, call, enough);
    if TakesBack(work) {
      if served.reply.Ok? {
        RevertFences(b, o, call.attempt, enough);
      }
    } else if work.CreationWork? && served.reply == Err(C.InsufficientCredits) && AsksForHold(work) {
      CallEndsHold(b, call, enough);
    }
  }

  // Outcomes

  lemma EndEffect(b: C.Book, out: C.OrderOutcome)
    requires BookOk(b) && C.IsValidOutcome(out) && C.End(b, out, C.LatenessPayout).Accept?
    ensures C.End(b, out, C.LatenessPayout).book.assignments == b.assignments
  {}

  lemma AgreesAlike(b: C.Book, o: Order, out: C.OrderOutcome)
    requires out.kind == EndName(o) && out.requester == o.requester && out.courier == o.courier
    ensures Agrees(b, out) <==> Agrees(b, EndEvent(o))
  {}

  /** Delivering an order's outcome keeps the ties. */
  lemma EndKeepsTies(r: Record, b: C.Book, out: C.OrderOutcome)
    requires RecordOk(r) && BookOk(b) && Ties(r, b) && HasOutcome(r.order.status)
    requires out.kind == EndName(r.order) && out.requester == r.order.requester && out.courier == r.order.courier
    requires C.IsValidOutcome(out) && C.End(b, out, C.LatenessPayout).Accept?
    ensures Ties(r, C.End(b, out, C.LatenessPayout).book)
  {
    var b' := C.End(b, out, C.LatenessPayout).book;
    EndEffect(b, out);
    EndKeepsBook(b, out, C.LatenessPayout);
    EndAgrees(b, out);
    AgreesAlike(b', r.order, out);
    SameAssignmentsTie(r, b, b');
  }

  lemma CurrentShape(b: C.Book)
    requires BookOk(b) && b.current.Some?
    ensures ShapeOk(b.current.value)
  {
    assert b.history[|b.history| - 1] == b.current.value;
  }

  /** Once an order has ended, its reservation agrees with that end: it may still take the outcome, or already did. */
  lemma EndedAgrees(r: Record, b: C.Book)
    requires RecordOk(r) && BookOk(b) && Ties(r, b) && HasOutcome(r.order.status)
    ensures Agrees(b, EndEvent(r.order))
  {
    if b.current.Some? && !b.current.value.IsTerminal() {
      CurrentShape(b);
      if C.ReasonOf(EndEvent(r.order)).None? {
        var i := LatestSucceeded(r.attempts).value;
        assert AttemptTie(r, b, i);
        assert IsApplied(b, i);
      }
    }
  }
}
