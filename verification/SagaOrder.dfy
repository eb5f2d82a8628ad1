/** Whatever transaction commits on an order's rows, the rows and the book at Credit stay tied. */
module SagaOrder {
  import opened Common
  import opened Orders
  import opened OrderRecords
  import opened OrderInvariants
  import opened OrderSteps
  import opened CancellationSteps
  import opened Saga
  import opened SagaInvariants
  import opened CreditBooks
  import opened CreditFences
  import C = Credit

  // The rows move from r to r' while the book stands still.
  ghost predicate TiedStep(r: Record, r': Record, b: C.Book) {
    RecordOk(r) && RecordOk(r') && Follows(r, r') && BookOk(b) && Ties(r, b)
  }

  // Steps that leave attempts and withdrawals alone

  lemma SameRowsTie(r: Record, r': Record, b: C.Book)
    requires AttemptsTie(r, b) && WithdrawalsTie(r, b)
    requires r'.attempts == r.attempts && r'.cancellations == r.cancellations
    requires r'.order.courier == r.order.courier
    requires MayLose(r.order) ==> MayLose(r'.order)
    requires r.order.status == Cancelled ==> r'.order.status == Cancelled && r'.order.pickedUpAt == r.order.pickedUpAt
    ensures AttemptsTie(r', b) && WithdrawalsTie(r', b)
  {
    forall i | 0 <= i < |r'.attempts|
      ensures AttemptTie(r', b, i)
    {
      assert AttemptTie(r, b, i);
    }
    forall c | 0 <= c < |r'.cancellations|
      ensures WithdrawalTie(r', b, r'.cancellations[c])
    {
      assert WithdrawalTie(r, b, r.cancellations[c]);
    }
  }

  // An order only ends while its reservation is open, and stays ended as it did.
  lemma EndLasts(r: Record, r': Record, b: C.Book)
    requires CreationTie(r, b) && EndTie(r, b) && r.workflow.phase == CreationOpened && Keeps(r.order, r'.order)
    ensures EndTie(r', b)
  {
    if HasOutcome(r'.order.status) && b.current.value.IsTerminal() {
      assert HasOutcome(r.order.status) && r'.order.status == r.order.status;
      assert Agrees(b, EndEvent(r.order));
    }
  }

  lemma OpenedLasts(r: Record, r': Record, b: C.Book)
    requires CreationTie(r, b) && r.workflow.phase == CreationOpened && r'.workflow == r.workflow
    requires Keeps(r.order, r'.order)
    ensures CreationTie(r', b)
  {}

  lemma MoveTies(r: Record, r': Record, b: C.Book)
    requires TiedStep(r, r', b) && Moves(r, r') && r.workflow.phase == CreationOpened
    ensures Ties(r', b)
  {
    SameRowsTie(r, r', b);
    EndLasts(r, r', b);
    OpenedLasts(r, r', b);
  }

  // Creation

  lemma CreationWaitsTies(r: Record, r': Record, b: C.Book)
    requires TiedStep(r, r', b) && r'.order == r.order && r'.attempts == r.attempts
    requires r'.cancellations == r.cancellations && r.order.status == PendingReservation
    requires r'.workflow.phase == ReservePending || r'.workflow.phase == AbortPending
    requires r'.workflow.phase == ReservePending ==> r.workflow.phase == ReservePending
    ensures Ties(r', b)
  {
    SameRowsTie(r, r', b);
  }

  // The book has what the new status needs: a hold of the amount to open, none ever to reject.
  lemma CreationEndsTies(r: Record, r': Record, b: C.Book, action: Action)
    requires TiedStep(r, r', b) && CreationEnds(r, r', action)
    requires r'.order.status == Rejected ==> NoHold(b)
    requires r'.order.status == AwaitingCourier ==>
               && r.workflow.phase == ReservePending && b.current.Some?
    ensures Ties(r', b)
  {
    assert r.attempts == [] && r'.attempts == [] && r'.cancellations == [];
  }

  // Attempts

  // The attempts of an order without a courier change where only Order decides.
  ghost predicate AttemptMayBecome(b: C.Book, i: AttemptId, w: Attempt, w': Attempt) {
    && AttemptFollows(w, w')
    && (w'.phase == AdjustmentPending ==> w.phase == AdjustmentPending)
    && (w'.phase == AssignmentRejected && w'.offer.Some? && w.phase != AssignmentRejected ==> IsFenced(b, i))
    && (w'.phase == AssignmentSucceeded ==> w == w')
  }

  lemma AttemptsChangeTie(r: Record, r': Record, b: C.Book)
    requires TiedStep(r, r', b) && |r'.attempts| == |r.attempts|
    requires r'.order.courier == r.order.courier && (MayLose(r.order) ==> MayLose(r'.order))
    requires forall i :: 0 <= i < |r.attempts| ==> AttemptMayBecome(b, i, r.attempts[i], r'.attempts[i])
    requires LatestSucceeded(r'.attempts) == LatestSucceeded(r.attempts)
    ensures AttemptsTie(r', b)
  {
    forall i | 0 <= i < |r'.attempts|
      ensures AttemptTie(r', b, i)
    {
      assert AttemptTie(r, b, i);
      assert AttemptMayBecome(b, i, r.attempts[i], r'.attempts[i]);
    }
  }

  lemma SameWithdrawalsTie(r: Record, r': Record, b: C.Book)
    requires WithdrawalsTie(r, b) && r'.cancellations == r.cancellations
    requires r.order.status == Cancelled ==> r'.order.status == Cancelled && r'.order.pickedUpAt == r.order.pickedUpAt
    ensures WithdrawalsTie(r', b)
  {
    forall c | 0 <= c < |r'.cancellations|
      ensures WithdrawalTie(r', b, r'.cancellations[c])
    {
      assert WithdrawalTie(r, b, r.cancellations[c]);
    }
  }

  lemma LatestAfterOne(s: seq<Attempt>, s': seq<Attempt>, i: nat)
    requires i < |s| == |s'| && s' == s[i := s'[i]]
    requires s[i].phase != AssignmentSucceeded && s'[i].phase != AssignmentSucceeded
    ensures LatestSucceeded(s') == LatestSucceeded(s)
  {
    LatestAfterUpdate(s, i, s'[i]);
  }

  // One attempt moves without success; the order's courier does not.
  lemma OneAttemptTies(r: Record, r': Record, b: C.Book, i: AttemptId)
    requires TiedStep(r, r', b) && i < |r.attempts| == |r'.attempts|
    requires r'.attempts == r.attempts[i := r'.attempts[i]]
    requires !r.attempts[i].IsResolved() && r'.attempts[i].phase != AssignmentSucceeded
    requires AttemptMayBecome(b, i, r.attempts[i], r'.attempts[i])
    requires r'.workflow == r.workflow && r'.cancellations == r.cancellations
    requires r'.order.courier == r.order.courier && (MayLose(r.order) ==> MayLose(r'.order))
    ensures Ties(r', b)
  {
    UnresolvedHasNoCourier(r, i);
    LatestAfterOne(r.attempts, r'.attempts, i);
    AttemptsChangeTie(r, r', b);
    SameWithdrawalsTie(r, r', b);
    EndLasts(r, r', b);
    OpenedLasts(r, r', b);
  }

  // The attempt that Credit has applied becomes the order's assignment; all earlier ones are fenced.
  lemma SuccessTies(r: Record, r': Record, b: C.Book, i: AttemptId)
    requires TiedStep(r, r', b) && i < |r.attempts| == |r'.attempts|
    requires r'.attempts == r.attempts[i := r'.attempts[i]]
    requires r.attempts[i].phase == AdjustmentPending && r'.attempts[i].phase == AssignmentSucceeded
    requires r'.workflow == r.workflow && r'.cancellations == r.cancellations && r'.order.courier.Some?
    requires i in b.assignments && b.assignments[i].courier.Some?
    ensures Ties(r', b)
  {
    UnresolvedHasNoCourier(r, i);
    ActiveIsTheOne(r, i);
    assert LatestSucceeded(r'.attempts) == Some(i);
    forall j | 0 <= j < |r'.attempts|
      ensures AttemptTie(r', b, j)
    {
      assert AttemptTie(r, b, j);
    }
    SameWithdrawalsTie(r, r', b);
    EndLasts(r, r', b);
    OpenedLasts(r, r', b);
  }

  // A new attempt has an identity that Credit has never seen.
  lemma NewAttemptTies(r: Record, r': Record, b: C.Book)
    requires TiedStep(r, r', b) && |r'.attempts| == |r.attempts| + 1
    requires r'.attempts == r.attempts + [r'.attempts[|r.attempts|]]
    requires var w := r'.attempts[|r.attempts|];
             w.phase == AdjustmentPending || (w.phase == AssignmentRejected && w.offer.None?)
    requires r.order.courier.None? && r'.order.courier.None? && r.order.status == AwaitingCourier
    requires r'.workflow == r.workflow && r'.cancellations == r.cancellations
    ensures Ties(r', b)
  {
    forall i | 0 <= i < |r'.attempts|
      ensures AttemptTie(r', b, i)
    {
      if i < |r.attempts| {
        assert AttemptTie(r, b, i);
      }
    }
    SameWithdrawalsTie(r, r', b);
    EndLasts(r, r', b);
    OpenedLasts(r, r', b);
  }

  // Withdrawals

  lemma BeginsWithdrawalTies(r: Record, r': Record, b: C.Book, caller: UserId)
    requires TiedStep(r, r', b) && BeginsWithdrawal(r, r', caller)
    ensures Ties(r', b)
  {
    forall i | 0 <= i < |r'.attempts|
      ensures AttemptTie(r', b, i)
    {
      assert AttemptTie(r, b, i);
    }
    forall c | 0 <= c < |r'.cancellations|
      ensures WithdrawalTie(r', b, r'.cancellations[c])
    {
      if c < |r.cancellations| {
        assert WithdrawalTie(r, b, r.cancellations[c]);
      }
    }
    EndLasts(r, r', b);
    OpenedLasts(r, r', b);
  }

  lemma SavesCancellationTies(r: Record, c: nat, r': Record, b: C.Book)
    requires TiedStep(r, r', b) && SavesCancellation(r, c, r')
    ensures Ties(r', b)
  {
    forall i | 0 <= i < |r'.attempts|
      ensures AttemptTie(r', b, i)
    {
      assert AttemptTie(r, b, i);
    }
    forall d | 0 <= d < |r'.cancellations|
      ensures WithdrawalTie(r', b, r'.cancellations[d])
    {
      assert WithdrawalTie(r, b, r.cancellations[d]);
    }
    EndLasts(r, r', b);
    OpenedLasts(r, r', b);
  }

  // Giving the order back is safe once Credit has fenced the offer.
  lemma WithdrawsTies(r: Record, c: nat, r': Record, b: C.Book)
    requires TiedStep(r, r', b) && Withdraws(r, c, r')
    requires TakenBack(r, b, WithdrawalWork(c, 0))
    ensures Ties(r', b)
  {
    var w := r.cancellations[c];
    assert CancellationOk(r.order, r.attempts, c, w);
    forall i | 0 <= i < |r'.attempts|
      ensures AttemptTie(r', b, i)
    {
      assert AttemptTie(r, b, i);
    }
    forall d | 0 <= d < |r'.cancellations|
      ensures WithdrawalTie(r', b, r'.cancellations[d])
    {
      assert WithdrawalTie(r, b, r.cancellations[d]);
    }
    EndLasts(r, r', b);
    OpenedLasts(r, r', b);
  }

  // Cancelling supersedes only before pickup.
  lemma SupersededTie(r: Record, r': Record, b: C.Book)
    requires WithdrawalsTie(r, b) && CancellationsOk(r) && Supersedes(r, r')
    requires r.order.status != Cancelled && r'.order.pickedUpAt == r.order.pickedUpAt
    requires r.order.pendingCancellation.Some? ==> r'.order.status == Cancelled && r.order.pickedUpAt.None?
    ensures WithdrawalsTie(r', b)
  {
    forall c | 0 <= c < |r'.cancellations|
      ensures WithdrawalTie(r', b, r'.cancellations[c])
    {
      if c < |r.cancellations| {
        assert WithdrawalTie(r, b, r.cancellations[c]);
        assert CancellationOk(r.order, r.attempts, c, r.cancellations[c]);
        assert CancellationFollows(r.cancellations[c], r'.cancellations[c]);
      }
    }
  }

  // The active attempt is left to be reverted.
  lemma FencedActiveTie(r: Record, r': Record, b: C.Book, now: Time)
    requires TiedStep(r, r', b) && r'.attempts == FenceActive(r, now)
    requires r'.order.courier == r.order.courier && (MayLose(r.order) ==> MayLose(r'.order))
    ensures AttemptsTie(r', b)
  {
    var active := ActiveAssignment(r);
    if active.Some? {
      LatestAfterOne(r.attempts, r'.attempts, active.value);
    }
    forall i | 0 <= i < |r.attempts|
      ensures AttemptMayBecome(b, i, r.attempts[i], r'.attempts[i])
    {
      assert AttemptFollows(r.attempts[i], r'.attempts[i]);
    }
    AttemptsChangeTie(r, r', b);
  }

  lemma CancelsNowTies(r: Record, r': Record, b: C.Book, caller: UserId, now: Time)
    requires TiedStep(r, r', b) && CancelsNow(r, r', caller) && r'.attempts == FenceActive(r, now)
    requires !IsTerminal(r.order.status)
    requires r.order.pendingCancellation.Some? ==> r'.order.status == Cancelled
    requires r'.order.pickedUpAt == r.order.pickedUpAt
    ensures Ties(r', b)
  {
    FencedActiveTie(r, r', b, now);
    SupersededTie(r, r', b);
    EndLasts(r, r', b);
    OpenedLasts(r, r', b);
  }
}
