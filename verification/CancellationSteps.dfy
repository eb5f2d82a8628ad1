/** Withdrawals and cancellations keep the invariants of an order's rows and take nothing back. */
module CancellationSteps {
  import opened Common
  import opened Orders
  import opened OrderRecords
  import opened OrderInvariants
  import opened OrderSteps

  // Admission of a withdrawal

  lemma HolderIsCurrent(r: Record)
    requires HasHolder(r.order, r.attempts)
    ensures CurrentSuccessfulAssignment(r) == LatestSucceeded(r.attempts)
  {
    var i := LatestSucceeded(r.attempts).value;
    var p := (a: Attempt) =>
      a.phase == AssignmentSucceeded && Some(a.courier) == r.order.courier && Some(a.updatedAt) == r.order.assignedAt;
    assert p(r.attempts[i]);
  }

  ghost predicate BeginsWithdrawal(r: Record, r': Record, caller: UserId) {
    var o := r.order;
    && o.status == AwaitingPickup && o.IsAssignedTo(Some(caller)) && o.pendingCancellation.None?
    && r' == r.(order := r'.order, facts := r'.facts, cancellations := r'.cancellations)
    && r'.order == o.(revision := r'.order.revision, updatedAt := r'.order.updatedAt,
                      pendingCancellation := Some(|r.cancellations|))
    && NewChange(Some(o), r'.order, UserActor(caller), BeginWithdrawal).Ok?
    && r'.facts == r.facts + Emitted(o, r'.order, UserActor(caller), BeginWithdrawal)
    && |r'.cancellations| == |r.cancellations| + 1
    && r'.cancellations == r.cancellations + [r'.cancellations[|r.cancellations|]]
    && var w := r'.cancellations[|r.cancellations|];
       && w.status == CancellationPending && w.caller == caller && w.courier == Some(caller)
       && w.assignedAt == o.assignedAt
       && w.assignment == LatestSucceeded(r.attempts) && w.assignment.Some?
       && w.original == r.attempts[w.assignment.value].original
  }

  lemma BeginsWithdrawalOk(r: Record, r': Record, caller: UserId)
    requires RecordOk(r) && BeginsWithdrawal(r, r', caller)
    ensures RecordOk(r') && Follows(r, r')
  {
    NextRevision(r.order, r'.order, UserActor(caller), BeginWithdrawal);
    WriteFacts(r, r'.order, UserActor(caller), BeginWithdrawal);
    OffersKeepAttempts(r, r');
    forall c | 0 <= c < |r'.cancellations|
      ensures CancellationOk(r'.order, r'.attempts, c, r'.cancellations[c])
    {
      if c < |r.cancellations| {
        assert CancellationOk(r.order, r.attempts, c, r.cancellations[c]);
      }
    }
  }

  lemma BeginWithdrawSteps(r: Record, caller: UserId, reason: OrderText, now: Time)
    requires r.order.status == AwaitingPickup && r.order.IsAssignedTo(Some(caller))
    requires r.order.pendingCancellation.None? && HasHolder(r.order, r.attempts)
    requires BeginWithdraw(r, caller, reason, now).Ok?
    ensures BeginsWithdrawal(r, BeginWithdraw(r, caller, reason, now).value.record, caller)
  {
    HolderIsCurrent(r);
  }

  // Cancelling at once

  // The attempts after fencing the active one.
  ghost predicate FencesActive(r: Record, r': Record) {
    && |r'.attempts| == |r.attempts|
    && AttemptsOk(r') && SameSuccesses(r.attempts, r'.attempts)
    && (NoActive(r.attempts) ==> r'.attempts == r.attempts)
    && forall i :: 0 <= i < |r.attempts| ==> AttemptFollows(r.attempts[i], r'.attempts[i])
  }

  // The withdrawals after the pending one lost its fence, and the new entry.
  ghost predicate Supersedes(r: Record, r': Record) {
    && |r'.cancellations| == |r.cancellations| + 1
    && (forall c :: 0 <= c < |r.cancellations| ==>
          && CancellationFollows(r.cancellations[c], r'.cancellations[c])
          && (r.cancellations[c].status == CancellationPending ==>
                r'.cancellations[c].status == CancellationSuperseded))
    && r'.cancellations[|r.cancellations|].status == CancellationSucceeded
    && r'.cancellations[|r.cancellations|].assignment.None?
  }

  ghost predicate CancelsNow(r: Record, r': Record, caller: UserId) {
    var o, o' := r.order, r'.order;
    && o.status != PendingReservation && o.status != Rejected
    && NewChange(Some(o), o', UserActor(caller), Action.Cancel).Ok? && OrderShape(o', r.workflow.amount)
    && r'.facts == r.facts + Emitted(o, o', UserActor(caller), Action.Cancel)
    && (o'.status == Cancelled || o'.status == Failed) && o'.pendingCancellation.None?
    && o'.courier == o.courier && o'.assignedAt == o.assignedAt && o'.reserved == o.reserved && o'.reward == o.reward
    && r'.workflow == r.workflow && SameOffers(r.offers, r'.offers) && |r'.offers| == |r.offers|
    && FencesActive(r, r') && Supersedes(r, r')
  }

  lemma CancelKeepsCancellations(r: Record, r': Record)
    requires CancellationsOk(r) && r'.order.pendingCancellation.None?
    requires SameSuccesses(r.attempts, r'.attempts) && Supersedes(r, r')
    ensures CancellationsOk(r')
  {
    forall c | 0 <= c < |r'.cancellations|
      ensures CancellationOk(r'.order, r'.attempts, c, r'.cancellations[c])
    {
      if c < |r.cancellations| {
        assert CancellationOk(r.order, r.attempts, c, r.cancellations[c]);
      }
    }
  }

  lemma CancelsNowOk(r: Record, r': Record, caller: UserId)
    requires RecordOk(r) && CancelsNow(r, r', caller)
    ensures RecordOk(r') && Follows(r, r')
  {
    NextRevision(r.order, r'.order, UserActor(caller), Action.Cancel);
    WriteFacts(r, r'.order, UserActor(caller), Action.Cancel);
    CancelKeepsCancellations(r, r');
  }

  lemma FenceActiveOk(r: Record, r': Record, now: Time)
    requires AttemptsOk(r) && r'.attempts == FenceActive(r, now)
    requires r'.order.requester == r.order.requester && r'.workflow == r.workflow
    requires SameOffers(r.offers, r'.offers)
    ensures FencesActive(r, r')
  {
    var active := ActiveAssignment(r);
    if active.Some? {
      AttemptMoved(r, active.value, r'.attempts, r'.offers);
    } else {
      OffersKeepAttempts(r, r');
    }
  }

  lemma SupersedeOk(r: Record, r': Record, caller: UserId, reason: OrderText, now: Time)
    requires CancellationsOk(r) && Supersede(r, now).Ok?
    requires r'.cancellations
          == Supersede(r, now).value + [NewCancellation(caller, reason, CancellationSucceeded, now)]
    ensures Supersedes(r, r')
  {
    forall c | 0 <= c < |r.cancellations|
      ensures CancellationFollows(r.cancellations[c], r'.cancellations[c])
      ensures r.cancellations[c].status == CancellationPending ==>
                r'.cancellations[c].status == CancellationSuperseded
    {
      assert CancellationOk(r.order, r.attempts, c, r.cancellations[c]);
    }
  }

  // The shape of a cancelled or failed order.
  lemma CancelShape(o: Order, after: Order, caller: UserId, amount: int)
    requires OrderShape(o, amount) && NewChange(Some(o), after, UserActor(caller), Action.Cancel).Ok?
    requires after == o.(status := after.status, revision := after.revision, updatedAt := after.updatedAt,
                         closedAt := after.closedAt, closeReason := after.closeReason, pendingCancellation := None)
    requires after.status != o.status
    ensures OrderShape(after, amount) && (after.status == Cancelled || after.status == Failed)
    ensures o.status != PendingReservation && o.status != Rejected
  {}

  lemma CancelNowSteps(r: Record, caller: UserId, reason: OrderText, next: Status, now: Time)
    requires RecordOk(r) && next != r.order.status && CancelNow(r, caller, reason, next, now).Ok?
    ensures CancelsNow(r, CancelNow(r, caller, reason, next, now).value.record, caller)
  {
    var r' := CancelNow(r, caller, reason, next, now).value.record;
    CancelShape(r.order, r'.order, caller, r.workflow.amount);
    FenceActiveOk(r, r', now);
    SupersedeOk(r, r', caller, reason, now);
  }

  lemma CancelOk(r: Record, caller: UserId, reason: OrderText, revision: Option<int>, now: Time)
    requires RecordOk(r) && CancelOrder(r, caller, reason, revision, now).Ok?
    ensures var r' := CancelOrder(r, caller, reason, revision, now).value.record;
            RecordOk(r') && Follows(r, r')
  {
    var r' := CancelOrder(r, caller, reason, revision, now).value.record;
    CancelSteps(r, caller, reason, revision, now);
    if r' == r {
      FollowsSelf(r);
    } else if BeginsWithdrawal(r, r', caller) {
      BeginsWithdrawalOk(r, r', caller);
    } else {
      CancelsNowOk(r, r', caller);
    }
  }

  lemma CancelSteps(r: Record, caller: UserId, reason: OrderText, revision: Option<int>, now: Time)
    requires RecordOk(r) && CancelOrder(r, caller, reason, revision, now).Ok?
    ensures var r' := CancelOrder(r, caller, reason, revision, now).value.record;
            r' == r || BeginsWithdrawal(r, r', caller) || CancelsNow(r, r', caller)
  {
    var o := r.order;
    var withdraws := o.status == AwaitingPickup && o.IsAssignedTo(Some(caller));
    if o.pendingCancellation.Some? && o.IsAssignedTo(Some(caller)) {
    } else if withdraws {
      BeginWithdrawSteps(r, caller, reason, now);
    } else {
      var decision := Transition(o, Action.Cancel, UserActor(caller));
      assert decision.Go? && decision.next != o.status;
      CancelNowSteps(r, caller, reason, decision.next, now);
    }
  }

  // Leased withdrawal steps

  ghost predicate SavesCancellation(r: Record, c: nat, r': Record) {
    && c < |r.cancellations| && r.cancellations[c].status == CancellationPending
    && |r'.cancellations| == |r.cancellations|
    && r' == r.(cancellations := r.cancellations[c := r'.cancellations[c]])
    && CancellationFollows(r.cancellations[c], r'.cancellations[c])
    && r'.cancellations[c].status == CancellationPending
    && r'.cancellations[c].assignedAt == r.cancellations[c].assignedAt
  }

  lemma SavesCancellationOk(r: Record, c: nat, r': Record)
    requires RecordOk(r) && SavesCancellation(r, c, r')
    ensures RecordOk(r') && Follows(r, r')
  {
    forall d | 0 <= d < |r'.cancellations|
      ensures CancellationOk(r'.order, r'.attempts, d, r'.cancellations[d])
    {
      assert CancellationOk(r.order, r.attempts, d, r.cancellations[d]);
    }
    OffersKeepAttempts(r, r');
  }

  lemma ClaimCancellationOk(r: Record, c: nat, now: Time)
    requires RecordOk(r) && ClaimCancellation(r, c, now).Ok?
    ensures RecordOk(ClaimCancellation(r, c, now).value.record) && Follows(r, ClaimCancellation(r, c, now).value.record)
  {
    var r' := ClaimCancellation(r, c, now).value.record;
    if r' == r {
      FollowsSelf(r);
    } else {
      SavesCancellationOk(r, c, r');
    }
  }

  // A confirmed withdrawal gives the order back to the open list at its original price.
  ghost predicate Withdraws(r: Record, c: nat, r': Record) {
    && c < |r.cancellations| && r.cancellations[c].status == CancellationPending
    && r.order.status == AwaitingPickup && r.order.pendingCancellation == Some(c)
    && |r'.cancellations| == |r.cancellations|
    && r' == r.(order := r'.order, facts := r'.facts,
                cancellations := r.cancellations[c := r'.cancellations[c]])
    && CancellationFollows(r.cancellations[c], r'.cancellations[c])
    && r'.cancellations[c].status == CancellationSucceeded
    && var w := r.cancellations[c];
       && w.original > 0 && r'.order == ReopenOrder(r.order, w, r'.order.updatedAt)
       && NewChange(Some(r.order), r'.order, UserActor(w.caller), Action.Withdraw).Ok?
       && r'.facts == r.facts + Emitted(r.order, r'.order, UserActor(w.caller), Action.Withdraw)
  }

  lemma WithdrawsOk(r: Record, c: nat, r': Record)
    requires RecordOk(r) && Withdraws(r, c, r')
    ensures RecordOk(r') && Follows(r, r')
  {
    var w := r.cancellations[c];
    assert CancellationOk(r.order, r.attempts, c, w);
    assert AttemptOk(r.order.requester, r.workflow.amount, r.offers, r.attempts[w.assignment.value]);
    NextRevision(r.order, r'.order, UserActor(w.caller), Action.Withdraw);
    WriteFacts(r, r'.order, UserActor(w.caller), Action.Withdraw);
    OffersKeepAttempts(r, r');
    forall d | 0 <= d < |r'.cancellations|
      ensures CancellationOk(r'.order, r'.attempts, d, r'.cancellations[d])
    {
      assert CancellationOk(r.order, r.attempts, d, r.cancellations[d]);
    }
  }

  lemma ApplyCancellationSteps(r: Record, c: nat, generation: int, seen: Seen, now: Time, jitter: Jitter)
    requires ApplyCancellation(r, c, generation, seen, now, jitter).Ok?
    ensures var r' := ApplyCancellation(r, c, generation, seen, now, jitter).value;
            r' == r || SavesCancellation(r, c, r') || Withdraws(r, c, r')
  {}

  lemma ApplyCancellationOk(r: Record, c: nat, generation: int, seen: Seen, now: Time, jitter: Jitter)
    requires RecordOk(r) && ApplyCancellation(r, c, generation, seen, now, jitter).Ok?
    ensures var r' := ApplyCancellation(r, c, generation, seen, now, jitter).value;
            RecordOk(r') && Follows(r, r')
  {
    var r' := ApplyCancellation(r, c, generation, seen, now, jitter).value;
    ApplyCancellationSteps(r, c, generation, seen, now, jitter);
    if r' == r {
      FollowsSelf(r);
    } else if SavesCancellation(r, c, r') {
      SavesCancellationOk(r, c, r');
    } else {
      WithdrawsOk(r, c, r');
    }
  }
}
