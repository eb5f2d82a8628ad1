/** What a cancellation, a withdrawal and an expiry decide and store. */
module CancellationEffects {
  import opened Common
  import opened Orders
  import opened OrderRecords
  import opened OrderInvariants
  import opened OrderSteps
  import opened CancellationSteps
  import opened Lifecycle
  import opened AssignmentEffects

  // What a closed order leaves of its offers: none open, none being accepted.
  ghost predicate ClosesOffers(fs: seq<Offer>, gs: seq<Offer>) {
    && |gs| == |fs|
    && forall f :: 0 <= f < |fs| ==>
         && gs[f] == fs[f].(status := gs[f].status)
         && gs[f].status == if fs[f].status == OfferAccepted then OfferAccepted else OfferVoid
  }

  // The attempt in flight, if any, is turned into a revert that is due now.
  ghost predicate FencesAttempts(ws: seq<Attempt>, vs: seq<Attempt>, now: Time) {
    && |vs| == |ws|
    && forall i :: 0 <= i < |ws| ==>
         vs[i] == if !IsPending(ws[i]) then ws[i]
                  else ws[i].(phase := RevertPending, rejection := OrderUnavailable,
                              generation := ws[i].generation + 1, leaseUntil := now, nextAttemptAt := now,
                              updatedAt := now)
  }

  // A pending withdrawal is superseded, and the new cancellation is on record as done.
  ghost predicate SupersedesWithdrawals(ws: seq<Cancellation>, vs: seq<Cancellation>, caller: UserId,
                                        reason: OrderText, now: Time) {
    && |vs| == |ws| + 1
    && vs[|ws|] == Cancellation(caller, reason, CancellationSucceeded, None, None, None, 0, 0, 0, now, now, now)
    && forall c :: 0 <= c < |ws| ==>
         vs[c] == if ws[c].status != CancellationPending then ws[c]
                  else ws[c].(status := CancellationSuperseded, generation := ws[c].generation + 1, updatedAt := now)
  }

  function ClosedAs(o: Order, status: Status, reason: OrderText, now: Time): Order {
    o.(status := status, closedAt := Some(now), closeReason := if reason == "" then None else Some(reason),
       pendingCancellation := None, revision := o.revision + 1, updatedAt := now)
  }

  // Where a cancellation at once takes the order: a courier's fails the delivery.
  function CancelTarget(o: Order, caller: UserId): Option<Status> {
    if o.status == Delivering && o.courier == Some(caller) then Some(Failed)
    else if caller == o.requester && o.status in {AwaitingCourier, AwaitingPickup, Delivering} then Some(Cancelled)
    else None
  }

  ghost predicate CancelsAtOnce(r: Record, r': Record, caller: UserId, reason: OrderText, now: Time) {
    && CancelTarget(r.order, caller).Some?
    && r'.order == ClosedAs(r.order, CancelTarget(r.order, caller).value, reason, now)
    && r'.facts == r.facts + Emitted(r.order, r'.order, UserActor(caller), Action.Cancel)
    && r'.workflow == r.workflow
    && ClosesOffers(r.offers, r'.offers) && FencesAttempts(r.attempts, r'.attempts, now)
    && SupersedesWithdrawals(r.cancellations, r'.cancellations, caller, reason, now)
  }

  // The courier's withdrawal is on its way, tied to the assignment it gives back.
  ghost predicate StartsWithdrawal(r: Record, r': Record, caller: UserId, reason: OrderText, now: Time) {
    var n := |r.cancellations|;
    && r'.order == r.order.(pendingCancellation := Some(n), revision := r.order.revision + 1, updatedAt := now)
    && r' == r.(order := r'.order, cancellations := r'.cancellations)
    && LatestSucceeded(r.attempts).Some?
    && var a := LatestSucceeded(r.attempts).value;
       r'.cancellations == r.cancellations
         + [Cancellation(caller, reason, CancellationPending, Some(a), Some(caller), r.order.assignedAt,
                         r.attempts[a].original, 0, 0, now, now, now)]
  }

  // A participant's request that says what it cancels: a reason that fits, and the revision it was confirmed for.
  predicate IsAboutThis(o: Order, caller: UserId, reason: OrderText, revision: Option<int>) {
    && |reason| <= 500 && (caller == o.requester || o.courier == Some(caller))
    && (revision.Some? ==> revision.value == o.revision)
  }

  /** Requests that are not about this order as it is now: too long a reason, a stranger, and exactly Conflict for a
      participant who confirmed another revision. Nothing is cancelled past what was confirmed. */
  lemma StaleIsRefused(r: Record, caller: UserId, reason: OrderText, revision: Option<int>, now: Time)
    ensures var result := CancelOrder(r, caller, reason, revision, now);
            var participant := caller == r.order.requester || r.order.courier == Some(caller);
            && (500 < |reason| ==> result == Err(Invalid))
            && (|reason| <= 500 && !participant ==> result == Err(Forbidden))
            && (|reason| <= 500 && participant && revision.Some? && revision.value != r.order.revision ==>
                  result == Err(Conflict))
            && (result.Ok? ==> IsAboutThis(r.order, caller, reason, revision))
  {}

  lemma ClosesAs(r: Record, caller: UserId, reason: OrderText, now: Time)
    requires RecordOk(r) && CancelTarget(r.order, caller).Some?
    ensures Transition(r.order, Action.Cancel, UserActor(caller)) == Go(CancelTarget(r.order, caller).value)
    ensures var after := ClosedAs(r.order, CancelTarget(r.order, caller).value, reason, now);
            NewChange(Some(r.order), after, UserActor(caller), Action.Cancel).Ok?
  {
    hide Transition, NewChange;
    var o, next := r.order, CancelTarget(r.order, caller).value;
    GoesByTheTable(o, Action.Cancel, UserActor(caller), next);
    AcceptedExactly(o, ClosedAs(o, next, reason, now), UserActor(caller), Action.Cancel);
  }

  lemma FencesAs(r: Record, now: Time)
    requires AttemptsOk(r)
    ensures FencesAttempts(r.attempts, FenceActive(r, now), now)
  {
    var active := ActiveAssignment(r);
    if active.Some? {
      ActiveIsTheOne(r, active.value);
    }
  }

  lemma SupersedesAs(r: Record, caller: UserId, reason: OrderText, now: Time)
    requires CancellationsOk(r)
    ensures Supersede(r, now).Ok?
    ensures SupersedesWithdrawals(
              r.cancellations,
              Supersede(r, now).value + [NewCancellation(caller, reason, CancellationSucceeded, now)],
              caller, reason, now)
  {
    forall c | 0 <= c < |r.cancellations|
      ensures r.cancellations[c].status == CancellationPending <==> r.order.pendingCancellation == Some(c)
    {
      assert CancellationOk(r.order, r.attempts, c, r.cancellations[c]);
    }
  }

  lemma CancelNowAs(r: Record, caller: UserId, reason: OrderText, now: Time)
    requires RecordOk(r) && CancelTarget(r.order, caller).Some?
    ensures var result := CancelNow(r, caller, reason, CancelTarget(r.order, caller).value, now);
            && result.Ok? && result.value.operation == |r.cancellations|
            && CancelsAtOnce(r, result.value.record, caller, reason, now)
  {
    hide NewChange, Supersede, FenceActive, FencesAttempts, SupersedesWithdrawals, HolderOk, FactsOk, WorkflowOk,
         OffersOk, Emitted;
    var after := ClosedAs(r.order, CancelTarget(r.order, caller).value, reason, now);
    ClosesAs(r, caller, reason, now);
    ChangeIsOwn(r.order, after, UserActor(caller), Action.Cancel);
    FencesAs(r, now);
    SupersedesAs(r, caller, reason, now);
    WrittenAs(r, after, caller);
  }

  lemma WrittenAs(r: Record, after: Order, caller: UserId)
    ensures RowsOf(after, UserActor(caller), FactsOf(Some(r.order), after, UserActor(caller), Action.Cancel))
         == Emitted(r.order, after, UserActor(caller), Action.Cancel)
  {}

  function WithdrawingAs(o: Order, c: nat, now: Time): Order {
    o.(revision := o.revision + 1, updatedAt := now, pendingCancellation := Some(c))
  }

  lemma WithdrawalIsAccepted(o: Order, caller: UserId, c: nat, now: Time)
    requires o.status == AwaitingPickup && o.courier == Some(caller) && caller != o.requester
    requires o.pendingCancellation.None? && 0 <= o.revision
    ensures Transition(o, Action.Withdraw, UserActor(caller)) == Go(AwaitingCourier)
    ensures NewChange(Some(o), WithdrawingAs(o, c, now), UserActor(caller), BeginWithdrawal).Ok?
    ensures FactsOf(Some(o), WithdrawingAs(o, c, now), UserActor(caller), BeginWithdrawal) == []
  {
    hide Transition, NewChange;
    GoesByTheTable(o, Action.Withdraw, UserActor(caller), AwaitingCourier);
    AcceptedExactly(o, WithdrawingAs(o, c, now), UserActor(caller), BeginWithdrawal);
  }

  lemma WithdrawsAs(r: Record, caller: UserId, reason: OrderText, now: Time)
    requires RecordOk(r) && r.order.status == AwaitingPickup && r.order.courier == Some(caller)
    requires r.order.pendingCancellation.None?
    ensures Transition(r.order, Action.Withdraw, UserActor(caller)) == Go(AwaitingCourier)
    ensures var result := BeginWithdraw(r, caller, reason, now);
            && result.Ok? && result.value.operation == |r.cancellations|
            && StartsWithdrawal(r, result.value.record, caller, reason, now)
  {
    hide Transition, NewChange, FactsOf, CurrentSuccessfulAssignment, AttemptsOk, CancellationsOk, FactsOk, WorkflowOk,
         OffersOk;
    var n := |r.cancellations|;
    WithdrawalIsAccepted(r.order, caller, n, now);
    ChangeIsOwn(r.order, WithdrawingAs(r.order, n, now), UserActor(caller), BeginWithdrawal);
    HolderIsCurrent(r);
  }

  lemma NoTargetIsRefused(o: Order, caller: UserId)
    requires o.courier != Some(o.requester) && (caller == o.requester || o.courier == Some(caller))
    requires CancelTarget(o, caller).None? && !(o.status == AwaitingPickup && o.courier == Some(caller))
    requires o.status == AwaitingCourier ==> o.courier.None?
    ensures Transition(o, Action.Cancel, UserActor(caller)) == Deny(Precondition)
  {}

  /** What a request about this order does. A courier who is already withdrawing joins their own withdrawal; one who has
      not picked up begins it; everyone else who may close the order closes it at once, with its offers, its attempt in
      flight and its pending withdrawal; and in any other status the request is refused. */
  lemma CancelledExactly(r: Record, caller: UserId, reason: OrderText, revision: Option<int>, now: Time)
    requires RecordOk(r) && IsAboutThis(r.order, caller, reason, revision)
    ensures var o, n, result := r.order, |r.cancellations|, CancelOrder(r, caller, reason, revision, now);
            if o.courier == Some(caller) && o.status == AwaitingPickup then
              if o.pendingCancellation.Some? then
                && o.pendingCancellation.value < n
                && result == (if r.cancellations[o.pendingCancellation.value].reason == reason
                              then Ok(Admitted(r, o.pendingCancellation.value)) else Err(Conflict))
              else
                && result.Ok? && result.value.operation == n
                && StartsWithdrawal(r, result.value.record, caller, reason, now)
            else if CancelTarget(o, caller).Some? then
              && result.Ok? && result.value.operation == n
              && CancelsAtOnce(r, result.value.record, caller, reason, now)
            else result == Err(Precondition)
  {
    hide Transition, NewChange, CancelNow, BeginWithdraw, StartsWithdrawal, CancelsAtOnce, AttemptsOk, HolderOk,
         FactsOk, WorkflowOk, OffersOk;
    var o := r.order;
    if o.courier == Some(caller) && o.status == AwaitingPickup {
      if o.pendingCancellation.Some? {
        assert CancellationOk(o, r.attempts, o.pendingCancellation.value, r.cancellations[o.pendingCancellation.value]);
      } else {
        WithdrawsAs(r, caller, reason, now);
      }
    } else if CancelTarget(o, caller).Some? {
      ClosesAs(r, caller, reason, now);
      CancelNowAs(r, caller, reason, now);
    } else {
      NoTargetIsRefused(o, caller);
    }
  }

  // Taking a withdrawal through

  // The original hold is back at Credit, with no offer applied to it.
  ghost predicate ShowsReturn(seen: Seen, w: Cancellation, o: Order) {
    && seen.Saw? && seen.view.state == ViewHeld && seen.view.order == o.id
    && seen.view.requester == Some(o.requester)
    && seen.view.original == seen.view.reserved == w.original
    && seen.view.offer.None? && seen.view.courier.None?
  }

  // What a pending withdrawal says is what the order says.
  lemma PendingMatches(r: Record, c: nat)
    requires RecordOk(r) && c < |r.cancellations| && r.cancellations[c].status == CancellationPending
    ensures var w := r.cancellations[c];
            && MatchesWithdrawal(r.order, c, w) && r.order.courier == Some(w.caller)
            && w.assignment.Some? && 0 < w.original == r.workflow.amount
            && r.order.courier != Some(r.order.requester) && 1 <= r.order.revision
  {
    var w := r.cancellations[c];
    assert CancellationOk(r.order, r.attempts, c, w);
    assert AttemptOk(r.order.requester, r.workflow.amount, r.offers, r.attempts[w.assignment.value]);
  }

  /** A step of a withdrawal is leased exactly if it is pending, unleased and due. */
  lemma ClaimedExactly(r: Record, c: nat, now: Time)
    requires RecordOk(r) && c < |r.cancellations|
    ensures var w, result := r.cancellations[c], ClaimCancellation(r, c, now);
            && result.Ok?
            && (result.value.claimed <==>
                  w.status == CancellationPending && w.leaseUntil <= now && w.nextAttemptAt <= now)
            && result.value.record ==
               if !result.value.claimed then r
               else r.(cancellations := r.cancellations[c :=
                      w.(generation := w.generation + 1, attempts := w.attempts + 1, leaseUntil := now + 15 * SECOND,
                         updatedAt := now)])
  {
    hide RecordOk, MatchesWithdrawal;
    if r.cancellations[c].status == CancellationPending {
      PendingMatches(r, c);
    }
  }

  // The order as it was before its assignment, at the price it had then.
  function Reopened(o: Order, original: int, now: Time): Order {
    o.(status := AwaitingCourier, courier := None, assignedAt := None, pendingCancellation := None, reward := original,
       reserved := original, revision := o.revision + 1, updatedAt := now)
  }

  lemma ReopensAs(r: Record, c: nat, now: Time)
    requires RecordOk(r) && c < |r.cancellations| && r.cancellations[c].status == CancellationPending
    ensures var w := r.cancellations[c];
            NewChange(Some(r.order), Reopened(r.order, w.original, now), UserActor(w.caller), Action.Withdraw).Ok?
  {
    hide RecordOk, NewChange;
    PendingMatches(r, c);
    var w := r.cancellations[c];
    AcceptedExactly(r.order, Reopened(r.order, w.original, now), UserActor(w.caller), Action.Withdraw);
  }

  /** A worker's observation reopens the order exactly on a read that shows its original hold back; the withdrawal is
      done in the same commit. Any other current observation only puts the next try off. */
  lemma WithdrawnExactly(r: Record, c: nat, generation: int, seen: Seen, now: Time, jitter: Jitter)
    requires RecordOk(r) && c < |r.cancellations|
    ensures var w, result := r.cancellations[c], ApplyCancellation(r, c, generation, seen, now, jitter);
            && result.Ok?
            && if w.status != CancellationPending || w.generation != generation || w.leaseUntil <= now then
                 result.value == r
               else
                 var r' := result.value;
                 && |r'.cancellations| == |r.cancellations|
                 && r' == r.(order := r'.order, facts := r'.facts,
                             cancellations := r.cancellations[c := r'.cancellations[c]])
                 && var w' := r'.cancellations[c];
                    && w' == w.(status := w'.status, leaseUntil := now, updatedAt := now,
                                nextAttemptAt := w'.nextAttemptAt)
                    && now + SECOND <= w'.nextAttemptAt <= now + 30 * SECOND
                    && if ShowsReturn(seen, w, r.order) then
                         && w'.status == CancellationSucceeded
                         && r'.order == Reopened(r.order, w.original, now)
                         && r'.facts == r.facts + Emitted(r.order, r'.order, UserActor(w.caller), Action.Withdraw)
                       else w'.status == CancellationPending && r'.order == r.order && r'.facts == r.facts
  {
    hide RecordOk, NewChange, MatchesWithdrawal, RetryDelay, FactsOf;
    if r.cancellations[c].status == CancellationPending {
      var w := r.cancellations[c];
      PendingMatches(r, c);
      ReopensAs(r, c, now);
      ChangeIsOwn(r.order, Reopened(r.order, w.original, now), UserActor(w.caller), Action.Withdraw);
      RetryDelayBounded(w.attempts, w.attempts, jitter);
    }
  }
}
