/** Every Order operation keeps the invariants of its rows and takes nothing back. */
module OrderSteps {
  import opened Common
  import opened Orders
  import opened OrderRecords
  import opened OrderInvariants

  // Local actions

  // An accepted change of an opened order that keeps its assignment and its rows.
  ghost predicate LocalMoves(r: Record, r': Record, actor: Actor, action: Action) {
    var o, o' := r.order, r'.order;
    && NewChange(Some(o), o', actor, action).Ok? && OrderShape(o', r.workflow.amount)
    && r' == r.(order := o', facts := r.facts + Emitted(o, o', actor, action))
    && o.status != PendingReservation && o.status != Rejected
    && o'.status != PendingReservation && o'.status != Rejected
    && o'.courier == o.courier && o'.assignedAt == o.assignedAt
    && o'.reserved == o.reserved && o'.reward == o.reward && o'.pendingCancellation == o.pendingCancellation
  }

  lemma LocalMoveOk(r: Record, r': Record, actor: Actor, action: Action)
    requires RecordOk(r) && LocalMoves(r, r', actor, action)
    ensures RecordOk(r') && Follows(r, r')
  {
    NextRevision(r.order, r'.order, actor, action);
    ChangeKeeps(r.order, Step(r'.order, actor, action));
    MoveKeepsRecord(r, r', actor, action);
  }

  // An accepted change carries what it was built from.
  lemma ChangeIsOwn(o: Order, after: Order, actor: Actor, action: Action)
    requires NewChange(Some(o), after, actor, action).Ok?
    ensures var c := NewChange(Some(o), after, actor, action).value;
            && c.order == after && c.actor == actor && c.action == action && c.expectedRevision == o.revision
            && c.facts == FactsOf(Some(o), after, actor, action)
    ensures after.id == o.id && after.requester == o.requester && after.createdAt == o.createdAt
  {}

  lemma FollowsSelf(r: Record)
    ensures Follows(r, r)
  {}

  lemma AdvanceMoves(r: Record, caller: Caller, action: Action, clock: Time)
    requires OrderShape(r.order, r.workflow.amount)
    requires action == Action.Pickup || action == Action.ConfirmReceipt
    requires Advance(r, caller, action, clock).Ok?
    ensures var r' := Advance(r, caller, action, clock).value;
            r' == r || LocalMoves(r, r', UserActor(caller.id), action)
  {}

  lemma AdvanceOk(r: Record, caller: Caller, action: Action, clock: Time)
    requires RecordOk(r) && (action == Action.Pickup || action == Action.ConfirmReceipt)
    requires Advance(r, caller, action, clock).Ok?
    ensures RecordOk(Advance(r, caller, action, clock).value) && Follows(r, Advance(r, caller, action, clock).value)
  {
    var r' := Advance(r, caller, action, clock).value;
    AdvanceMoves(r, caller, action, clock);
    if r' == r {
      FollowsSelf(r);
    } else {
      LocalMoveOk(r, r', UserActor(caller.id), action);
    }
  }

  lemma DeliverMoves(r: Record, courier: UserId, at: Time, unattended: bool, processedAt: Time)
    requires OrderShape(r.order, r.workflow.amount) && DeliverOrder(r, courier, at, unattended, processedAt).Ok?
    ensures LocalMoves(r, DeliverOrder(r, courier, at, unattended, processedAt).value, UserActor(courier),
                       Action.Deliver)
  {
    hide NewChange, FactsOf;
    var o := r.order;
    ChangeIsOwn(o, o.(status := Delivered, deliveredAt := Some(at), unattended := unattended,
                      revision := o.revision + 1, updatedAt := processedAt), UserActor(courier), Action.Deliver);
  }

  lemma DeliverOk(r: Record, courier: UserId, at: Time, unattended: bool, processedAt: Time)
    requires RecordOk(r) && DeliverOrder(r, courier, at, unattended, processedAt).Ok?
    ensures var r' := DeliverOrder(r, courier, at, unattended, processedAt).value;
            RecordOk(r') && Follows(r, r')
  {
    DeliverMoves(r, courier, at, unattended, processedAt);
    LocalMoveOk(r, DeliverOrder(r, courier, at, unattended, processedAt).value, UserActor(courier), Action.Deliver);
  }

  lemma TimeoutMoves(r: Record, pending: bool, now: Time)
    requires OrderShape(r.order, r.workflow.amount) && TimeoutOrder(r, pending, now).Ok?
    ensures var r' := TimeoutOrder(r, pending, now).value;
            r' == r || LocalMoves(r, r', SYSTEM, Action.Timeout)
  {}

  lemma TimeoutOk(r: Record, pending: bool, now: Time)
    requires RecordOk(r) && TimeoutOrder(r, pending, now).Ok?
    ensures RecordOk(TimeoutOrder(r, pending, now).value) && Follows(r, TimeoutOrder(r, pending, now).value)
  {
    TimeoutMoves(r, pending, now);
    if TimeoutOrder(r, pending, now).value == r {
      FollowsSelf(r);
    } else {
      LocalMoveOk(r, TimeoutOrder(r, pending, now).value, SYSTEM, Action.Timeout);
    }
  }

  lemma LocationMoves(r: Record, caller: UserId, location: OrderText, clock: Time)
    requires OrderShape(r.order, r.workflow.amount) && RecordLocation(r, caller, location, clock).Ok?
    ensures var r' := RecordLocation(r, caller, location, clock).value;
            r' == r || LocalMoves(r, r', UserActor(caller), Action.RecordItemLocation)
  {}

  lemma LocationOk(r: Record, caller: UserId, location: OrderText, clock: Time)
    requires RecordOk(r) && RecordLocation(r, caller, location, clock).Ok?
    ensures var r' := RecordLocation(r, caller, location, clock).value;
            RecordOk(r') && Follows(r, r')
  {
    var r' := RecordLocation(r, caller, location, clock).value;
    LocationMoves(r, caller, location, clock);
    if r' == r {
      FollowsSelf(r);
    } else {
      LocalMoveOk(r, r', UserActor(caller), Action.RecordItemLocation);
    }
  }

  lemma ExpireOk(r: Record, now: Time)
    requires RecordOk(r) && ExpireOrder(r, now).Ok?
    ensures RecordOk(ExpireOrder(r, now).value) && Follows(r, ExpireOrder(r, now).value)
  {
    if ExpireOrder(r, now).value == r {
      FollowsSelf(r);
    } else {
      MoveKeepsRecord(r, ExpireOrder(r, now).value, SYSTEM, Action.Expire);
    }
  }

  lemma MakeOfferOk(r: Record, caller: Caller, credits: int, now: Time)
    requires RecordOk(r) && MakeOffer(r, caller, credits, now).Ok?
    ensures RecordOk(MakeOffer(r, caller, credits, now).value)
    ensures Follows(r, MakeOffer(r, caller, credits, now).value)
  {
    MoveKeepsRecord(r, MakeOffer(r, caller, credits, now).value, UserActor(caller.id), ProposeOffer);
  }

  // Creation

  lemma AdmitOk(id: OrderId, requester: UserId, input: CreateInput, now: Time)
    requires AdmitCreation(id, requester, input, now).Ok?
    ensures RecordOk(AdmitCreation(id, requester, input, now).value)
  {
    FactsCounted(None, Draft(id, requester, input, now), UserActor(requester), Create);
  }

  lemma ClaimCreationOk(r: Record, now: Time)
    requires RecordOk(r) && ClaimCreation(r, now).Ok?
    ensures RecordOk(ClaimCreation(r, now).value.record) && Follows(r, ClaimCreation(r, now).value.record)
  {
    var r' := ClaimCreation(r, now).value.record;
    if r' == r {
      FollowsSelf(r);
    } else {
      assert r.attempts == [];
    }
  }

  // A creation step that keeps the order pending.
  ghost predicate CreationWaits(r: Record, r': Record) {
    && r.order.status == PendingReservation && r' == r.(workflow := r'.workflow)
    && WorkflowFollows(r.workflow, r'.workflow)
    && (r'.workflow.phase == ReservePending || r'.workflow.phase == AbortPending)
    && r'.workflow.rejection == r.workflow.rejection && r'.workflow.result == r.workflow.result
  }

  lemma CreationWaitsOk(r: Record, r': Record)
    requires RecordOk(r) && CreationWaits(r, r')
    ensures RecordOk(r') && Follows(r, r')
  {
    assert r.attempts == [];
  }

  // A creation step that ends the workflow with the order.
  ghost predicate CreationEnds(r: Record, r': Record, action: Action) {
    var o, o' := r.order, r'.order;
    && o.status == PendingReservation
    && NewChange(Some(o), o', SYSTEM, action).Ok? && OrderShape(o', r.workflow.amount)
    && r' == r.(order := o', facts := r.facts + Emitted(o, o', SYSTEM, action), workflow := r'.workflow)
    && WorkflowFollows(r.workflow, r'.workflow)
    && var w' := r'.workflow;
       || (o'.status == AwaitingCourier && w'.phase == CreationOpened && w'.result.Some? && w'.rejection.None?)
       || (o'.status == Rejected && w'.phase == CreationRejected && w'.rejection.Some? && w'.result.None?)
  }

  lemma CreationEndsOk(r: Record, r': Record, action: Action)
    requires RecordOk(r) && CreationEnds(r, r', action)
    ensures RecordOk(r') && Follows(r, r')
  {
    WriteFacts(r, r'.order, SYSTEM, action);
    NextRevision(r.order, r'.order, SYSTEM, action);
    assert r.attempts == [] && r.cancellations == [];
  }

  lemma MoveEnds(r: Record, move: CreationMove, r': Record, now: Time, jitter: Jitter)
    requires OrderShape(r.order, r.workflow.amount) && r.order.status == PendingReservation
    requires WorkflowOk(r) && !r.workflow.IsResolved()
    requires move.OpenOrder? || move.Reject?
    requires move.OpenOrder? ==> r.workflow.phase != AbortPending
    requires CreationChange(r, move, now).Some? && CreationChange(r, move, now).value.Ok?
    requires var change := CreationChange(r, move, now).value.value;
             r' == Write(r, change).(workflow := NextWorkflow(r.workflow, move, change.order, now, jitter))
    ensures CreationEnds(r, r', if move.OpenOrder? then ConfirmReservation else RefuseReservation)
  {
    hide NewChange, FactsOf, RetryDelay;
    var change := CreationChange(r, move, now).value.value;
    var o := r.order;
    if move.OpenOrder? {
      ChangeIsOwn(o, o.(status := AwaitingCourier, reserved := r.workflow.amount, revision := o.revision + 1,
                        updatedAt := now), SYSTEM, ConfirmReservation);
    } else {
      ChangeIsOwn(o, o.(status := Rejected, revision := o.revision + 1, updatedAt := now, closedAt := Some(now),
                        closeReason := Some(RejectionText(move.why))), SYSTEM, RefuseReservation);
    }
  }

  lemma ApplyCreationSteps(r: Record, generation: int, phase: CreationPhase, seen: Seen, now: Time, jitter: Jitter)
    requires OrderShape(r.order, r.workflow.amount) && WorkflowOk(r)
    requires ApplyCreation(r, generation, phase, seen, now, jitter).Ok?
    ensures var r' := ApplyCreation(r, generation, phase, seen, now, jitter).value;
            r' == r || CreationWaits(r, r') || CreationEnds(r, r', ConfirmReservation)
            || CreationEnds(r, r', RefuseReservation)
  {
    hide NewChange, FactsOf, RetryDelay, CreationEnds, OrderShape;
    var r' := ApplyCreation(r, generation, phase, seen, now, jitter).value;
    var move := CreationMoveOf(r, seen, now);
    if r' != r && (move.OpenOrder? || move.Reject?) {
      MoveEnds(r, move, r', now, jitter);
    }
  }

  lemma ApplyCreationOk(r: Record, generation: int, phase: CreationPhase, seen: Seen, now: Time, jitter: Jitter)
    requires RecordOk(r) && ApplyCreation(r, generation, phase, seen, now, jitter).Ok?
    ensures var r' := ApplyCreation(r, generation, phase, seen, now, jitter).value;
            RecordOk(r') && Follows(r, r')
  {
    var r' := ApplyCreation(r, generation, phase, seen, now, jitter).value;
    ApplyCreationSteps(r, generation, phase, seen, now, jitter);
    if r' == r {
      FollowsSelf(r);
    } else if CreationWaits(r, r') {
      CreationWaitsOk(r, r');
    } else if CreationEnds(r, r', ConfirmReservation) {
      CreationEndsOk(r, r', ConfirmReservation);
    } else {
      CreationEndsOk(r, r', RefuseReservation);
    }
  }

  // Attempts

  lemma LatestAfterUpdate(s: seq<Attempt>, i: nat, w: Attempt)
    requires i < |s| && s[i].phase != AssignmentSucceeded && w.phase != AssignmentSucceeded
    ensures LatestSucceeded(s[i := w]) == LatestSucceeded(s)
  {
    var a, b := LatestSucceeded(s[i := w]), LatestSucceeded(s);
    assert b.Some? ==> s[i := w][b.value].phase == AssignmentSucceeded;
    assert a.Some? ==> s[a.value].phase == AssignmentSucceeded;
  }

  lemma AttemptAdded(r: Record, w: Attempt, offers: seq<Offer>)
    requires AttemptsOk(r) && SameOffers(r.offers, offers)
    requires AttemptOk(r.order.requester, r.workflow.amount, offers, w)
    requires w.offer.Some? ==> NoActive(r.attempts)
    ensures OneActive(r.attempts + [w])
    ensures forall i :: 0 <= i < |r.attempts + [w]| ==>
              AttemptOk(r.order.requester, r.workflow.amount, offers, (r.attempts + [w])[i])
  {
    forall i | 0 <= i < |r.attempts|
      ensures AttemptOk(r.order.requester, r.workflow.amount, offers, (r.attempts + [w])[i])
    {
      assert AttemptOk(r.order.requester, r.workflow.amount, r.offers, r.attempts[i]);
    }
  }

  lemma AttemptMoved(r: Record, i: nat, next: seq<Attempt>, offers: seq<Offer>)
    requires AttemptsOk(r) && SameOffers(r.offers, offers) && i < |r.attempts| == |next|
    requires !r.attempts[i].IsResolved() && AttemptFollows(r.attempts[i], next[i]) && next == r.attempts[i := next[i]]
    ensures OneActive(next)
    ensures forall j :: 0 <= j < |next| ==> AttemptOk(r.order.requester, r.workflow.amount, offers, next[j])
  {
    forall j | 0 <= j < |next|
      ensures AttemptOk(r.order.requester, r.workflow.amount, offers, next[j])
    {
      assert AttemptOk(r.order.requester, r.workflow.amount, r.offers, r.attempts[j]);
    }
  }

  lemma ActiveIsTheOne(r: Record, i: nat)
    requires AttemptsOk(r) && i < |r.attempts| && !r.attempts[i].IsResolved()
    ensures ActiveAssignment(r) == Some(i) && r.attempts[i].offer.Some?
    ensures forall j :: 0 <= j < |r.attempts| && j != i ==> r.attempts[j].IsResolved()
    ensures forall j :: i < j < |r.attempts| ==> r.attempts[j].phase == AssignmentRejected
  {
    forall j | 0 <= j < |r.attempts| && j != i
      ensures r.attempts[j].IsResolved() && (i < j ==> r.attempts[j].phase == AssignmentRejected)
    {
      assert AttemptOk(r.order.requester, r.workflow.amount, r.offers, r.attempts[j]);
      assert AttemptOk(r.order.requester, r.workflow.amount, r.offers, r.attempts[i]);
    }
  }

  // Withdrawals only look at which attempts have succeeded.
  ghost predicate SameSuccesses(s: seq<Attempt>, s': seq<Attempt>) {
    && |s| <= |s'|
    && (forall j :: 0 <= j < |s| && s[j].phase == AssignmentSucceeded ==> s'[j] == s[j])
  }

  lemma AttemptsKeepCancellations(r: Record, r': Record)
    requires CancellationsOk(r) && r.order.pendingCancellation.None? && r'.order.pendingCancellation.None?
    requires r'.cancellations == r.cancellations && SameSuccesses(r.attempts, r'.attempts)
    ensures CancellationsOk(r')
  {
    forall c | 0 <= c < |r'.cancellations|
      ensures CancellationOk(r'.order, r'.attempts, c, r'.cancellations[c])
    {
      assert CancellationOk(r.order, r.attempts, c, r.cancellations[c]);
    }
  }

  // A step on the attempts of an order without a courier and without a withdrawal.
  lemma AttemptStepOk(r: Record, r': Record)
    requires RecordOk(r) && r.order.courier.None? && r'.order == r.order && r'.facts == r.facts
    requires r'.workflow == r.workflow && r'.offers == r.offers && r'.cancellations == r.cancellations
    requires r.workflow.phase == CreationOpened && r.order.pendingCancellation.None?
    requires AttemptsOk(r') && SameSuccesses(r.attempts, r'.attempts)
    requires forall i :: 0 <= i < |r.attempts| ==> AttemptFollows(r.attempts[i], r'.attempts[i])
    ensures RecordOk(r') && Follows(r, r')
  {
    AttemptsKeepCancellations(r, r');
  }

  lemma UnresolvedHasNoCourier(r: Record, i: nat)
    requires RecordOk(r) && i < |r.attempts| && !r.attempts[i].IsResolved()
    ensures r.order.courier.None? && r.workflow.phase == CreationOpened
    ensures r.order.status == AwaitingCourier || r.order.status == Cancelled || r.order.status == Expired
    ensures r.order.pendingCancellation.None?
  {}

  lemma ClaimAssignmentOk(r: Record, i: AttemptId, now: Time)
    requires RecordOk(r) && ClaimAssignment(r, i, now).Ok?
    ensures RecordOk(ClaimAssignment(r, i, now).value.record) && Follows(r, ClaimAssignment(r, i, now).value.record)
  {
    var r' := ClaimAssignment(r, i, now).value.record;
    if r' == r {
      FollowsSelf(r);
    } else {
      UnresolvedHasNoCourier(r, i);
      AttemptMoved(r, i, r'.attempts, r.offers);
      AttemptStepOk(r, r');
    }
  }

  lemma SaveAttemptOk(r: Record, i: AttemptId, w: Attempt)
    requires RecordOk(r) && i < |r.attempts| && !r.attempts[i].IsResolved()
    requires AttemptFollows(r.attempts[i], w) && w.phase != AssignmentSucceeded
    ensures RecordOk(r.(attempts := r.attempts[i := w])) && Follows(r, r.(attempts := r.attempts[i := w]))
  {
    UnresolvedHasNoCourier(r, i);
    AttemptMoved(r, i, r.attempts[i := w], r.offers);
    AttemptStepOk(r, r.(attempts := r.attempts[i := w]));
  }

  // A step that resolves the active attempt together with a change of the order.
  ghost predicate Resolves(r: Record, i: AttemptId, r': Record, actor: Actor, action: Action) {
    && i < |r.attempts| && !r.attempts[i].IsResolved()
    && |r'.attempts| == |r.attempts| && r'.attempts == r.attempts[i := r'.attempts[i]]
    && AttemptFollows(r.attempts[i], r'.attempts[i]) && r'.attempts[i].IsResolved()
    && SameOffers(r.offers, r'.offers) && |r'.offers| == |r.offers|
    && r'.workflow == r.workflow && r'.cancellations == r.cancellations
    && NewChange(Some(r.order), r'.order, actor, action).Ok?
    && r'.facts == r.facts + Emitted(r.order, r'.order, actor, action)
  }

  // The order after a rejected attempt is the same; after a succeeded one it has the attempt's courier.
  ghost predicate ResolvedOrder(r: Record, i: AttemptId, r': Record)
    requires i < |r'.attempts|
  {
    var w := r'.attempts[i];
    if w.phase == AssignmentRejected then
      r'.order == r.order.(revision := r'.order.revision, updatedAt := r'.order.updatedAt)
    else
      r.order.status == AwaitingCourier && r'.order == AssignOrder(r.order, w, w.updatedAt)
  }

  lemma ResolvedShape(r: Record, i: AttemptId, r': Record, actor: Actor, action: Action)
    requires RecordOk(r) && Resolves(r, i, r', actor, action) && ResolvedOrder(r, i, r')
    ensures OrderShape(r'.order, r.workflow.amount) && r'.order.pendingCancellation.None?
    ensures r'.order.status == AwaitingPickup || r'.order.status == r.order.status
  {
    assert AttemptOk(r.order.requester, r.workflow.amount, r.offers, r.attempts[i]);
    UnresolvedHasNoCourier(r, i);
    NextRevision(r.order, r'.order, actor, action);
  }

  lemma ResolvedHolder(r: Record, i: AttemptId, r': Record, actor: Actor, action: Action)
    requires AttemptsOk(r) && Resolves(r, i, r', actor, action) && ResolvedOrder(r, i, r')
    requires r.order.courier.None?
    ensures HolderOk(r')
  {
    ActiveIsTheOne(r, i);
    if r'.attempts[i].phase == AssignmentSucceeded {
      assert LatestSucceeded(r'.attempts) == Some(i);
    }
  }

  lemma ResolvesOk(r: Record, i: AttemptId, r': Record, actor: Actor, action: Action)
    requires RecordOk(r) && Resolves(r, i, r', actor, action) && ResolvedOrder(r, i, r')
    ensures RecordOk(r') && Follows(r, r')
  {
    hide OrderShape, HolderOk, CancellationsOk, FactsOk, FactsOf, NewChange, AttemptOk, OneActive;
    UnresolvedHasNoCourier(r, i);
    ResolvedShape(r, i, r', actor, action);
    WriteFacts(r, r'.order, actor, action);
    NextRevision(r.order, r'.order, actor, action);
    AttemptMoved(r, i, r'.attempts, r'.offers);
    AttemptsKeepCancellations(r, r');
    ResolvedHolder(r, i, r', actor, action);
  }

  // What applying a leased assignment step can be.
  ghost predicate AssignmentSteps(r: Record, i: AttemptId, r': Record) {
    || r' == r
    || (&& i < |r.attempts| && !r.attempts[i].IsResolved()
        && |r'.attempts| == |r.attempts| && r' == r.(attempts := r.attempts[i := r'.attempts[i]])
        && AttemptFollows(r.attempts[i], r'.attempts[i]) && r'.attempts[i].phase != AssignmentSucceeded)
    || (&& i < |r'.attempts| && i < |r.attempts|
        && (|| Resolves(r, i, r', UserActor(r.attempts[i].caller), ResolveAssignment)
            || Resolves(r, i, r', UserActor(r.attempts[i].caller), AssignAction(r.attempts[i])))
        && ResolvedOrder(r, i, r'))
  }

  // A revert only waits or resolves, and no move but the two that carry a change of the order resolves.
  lemma MoveFollows(r: Record, i: AttemptId, seen: Seen, now: Time, jitter: Jitter)
    requires i < |r.attempts| && !r.attempts[i].IsResolved()
    ensures var w, move := r.attempts[i], AssignmentMoveOf(r, i, seen, now);
            var next := NextAttempt(w, move, r.order.expiresAt, now, jitter);
            && AttemptFollows(w, next)
            && (move.Resolve? ==> next.phase == AssignmentRejected)
            && (move.Succeed? ==> next.phase == AssignmentSucceeded && next.updatedAt == now)
            && (move.Wait? || move.Fence? ==> next.phase != AssignmentSucceeded)
  {
    hide ConfirmsAdjustment, ConfirmsRevert, IsOpenAt, RetryDelay;
  }

  lemma ResolveResolves(r: Record, i: AttemptId, status: OfferStatus, now: Time, next: Attempt)
    requires i < |r.attempts| && !r.attempts[i].IsResolved() && AttemptFollows(r.attempts[i], next)
    requires next.phase == AssignmentRejected && ResolveOffer(r, r.attempts[i], status, now).Ok?
    ensures var r1 := ResolveOffer(r, r.attempts[i], status, now).value;
            var r' := r1.(attempts := r1.attempts[i := next]);
            && r1.attempts == r.attempts
            && Resolves(r, i, r', UserActor(r.attempts[i].caller), ResolveAssignment) && ResolvedOrder(r, i, r')
  {
    hide NewChange, FactsOf;
    ChangeIsOwn(r.order, r.order.(revision := r.order.revision + 1, updatedAt := now),
                UserActor(r.attempts[i].caller), ResolveAssignment);
  }

  lemma AssignResolves(r: Record, i: AttemptId, now: Time, next: Attempt)
    requires i < |r.attempts| && !r.attempts[i].IsResolved() && AttemptFollows(r.attempts[i], next)
    requires next.phase == AssignmentSucceeded && next.updatedAt == now
    requires AssignChange(r, r.attempts[i], now).Ok?
    ensures var r1 := AssignChange(r, r.attempts[i], now).value;
            var r' := r1.(attempts := r1.attempts[i := next]);
            && r1.attempts == r.attempts
            && Resolves(r, i, r', UserActor(r.attempts[i].caller), AssignAction(r.attempts[i]))
            && ResolvedOrder(r, i, r')
  {
    hide NewChange, FactsOf;
    var w := r.attempts[i];
    AssignGoes(r.order, AssignAction(w), UserActor(w.caller));
    ChangeIsOwn(r.order, AssignOrder(r.order, w, now), UserActor(w.caller), AssignAction(w));
  }

  lemma AssignGoes(o: Order, action: Action, actor: Actor)
    requires (action == Assign || action == AcceptCounteroffer) && Transition(o, action, actor).Go?
    ensures Transition(o, action, actor).next == AwaitingPickup && o.status == AwaitingCourier
  {}

  lemma ApplyAssignmentSteps(r: Record, i: AttemptId, generation: int, phase: Phase, seen: Seen, now: Time,
                             jitter: Jitter)
    requires ApplyAssignment(r, i, generation, phase, seen, now, jitter).Ok?
    ensures AssignmentSteps(r, i, ApplyAssignment(r, i, generation, phase, seen, now, jitter).value)
  {
    hide ResolveOffer, AssignChange, AssignmentMoveOf, NextAttempt, Resolves, ResolvedOrder, AttemptFollows;
    if i < |r.attempts| && !r.attempts[i].IsResolved() {
      var w, move := r.attempts[i], AssignmentMoveOf(r, i, seen, now);
      var next := NextAttempt(w, move, r.order.expiresAt, now, jitter);
      MoveFollows(r, i, seen, now, jitter);
      if move.Resolve? && ResolveOffer(r, w, move.offer, now).Ok? {
        ResolveResolves(r, i, move.offer, now, next);
      } else if move.Succeed? && AssignChange(r, w, now).Ok? {
        AssignResolves(r, i, now, next);
      }
    }
  }

  lemma ApplyAssignmentOk(r: Record, i: AttemptId, generation: int, phase: Phase, seen: Seen, now: Time,
                          jitter: Jitter)
    requires RecordOk(r) && ApplyAssignment(r, i, generation, phase, seen, now, jitter).Ok?
    ensures var r' := ApplyAssignment(r, i, generation, phase, seen, now, jitter).value;
            RecordOk(r') && Follows(r, r')
  {
    var r' := ApplyAssignment(r, i, generation, phase, seen, now, jitter).value;
    ApplyAssignmentSteps(r, i, generation, phase, seen, now, jitter);
    AssignmentStepsOk(r, i, r');
  }

  lemma AssignmentStepsOk(r: Record, i: AttemptId, r': Record)
    requires RecordOk(r) && AssignmentSteps(r, i, r')
    ensures RecordOk(r') && Follows(r, r')
  {
    if r' == r {
      FollowsSelf(r);
    } else if |r'.attempts| == |r.attempts| && i < |r.attempts| && r' == r.(attempts := r.attempts[i := r'.attempts[i]])
              && r'.attempts[i].phase != AssignmentSucceeded && r'.facts == r.facts
              && AttemptFollows(r.attempts[i], r'.attempts[i]) && !r.attempts[i].IsResolved() {
      SaveAttemptOk(r, i, r'.attempts[i]);
    } else if Resolves(r, i, r', UserActor(r.attempts[i].caller), ResolveAssignment) {
      ResolvesOk(r, i, r', UserActor(r.attempts[i].caller), ResolveAssignment);
    } else {
      ResolvesOk(r, i, r', UserActor(r.attempts[i].caller), AssignAction(r.attempts[i]));
    }
  }

  // Admissions

  // A new attempt, with a metadata change of the order when it owns an offer.
  ghost predicate Admits(r: Record, r': Record, caller: UserId) {
    && r.order.status == AwaitingCourier && NoActive(r.attempts)
    && r' == r.(order := r'.order, facts := r'.facts, offers := r'.offers, attempts := r'.attempts)
    && r'.order == r.order.(revision := r'.order.revision, updatedAt := r'.order.updatedAt)
    && NewChange(Some(r.order), r'.order, UserActor(caller), BeginAssignment).Ok?
    && r'.facts == r.facts + Emitted(r.order, r'.order, UserActor(caller), BeginAssignment)
    && SameOffers(r.offers, r'.offers) && OffersOk(r.order.requester, r'.offers)
    && |r'.attempts| == |r.attempts| + 1 && r'.attempts == r.attempts + [r'.attempts[|r.attempts|]]
    && var w := r'.attempts[|r.attempts|];
       && w.phase == AdjustmentPending && AttemptOk(r.order.requester, r.workflow.amount, r'.offers, w)
  }

  lemma AdmitsOk(r: Record, r': Record, caller: UserId)
    requires RecordOk(r) && Admits(r, r', caller)
    ensures RecordOk(r') && Follows(r, r')
  {
    NextRevision(r.order, r'.order, UserActor(caller), BeginAssignment);
    WriteFacts(r, r'.order, UserActor(caller), BeginAssignment);
    AttemptAdded(r, r'.attempts[|r.attempts|], r'.offers);
    AttemptsKeepCancellations(r, r');
  }

  lemma ContentionOk(r: Record, w: Attempt)
    requires RecordOk(r) && r.order.status == AwaitingCourier
    requires w.offer.None? && w.phase == AssignmentRejected
    requires AttemptOk(r.order.requester, r.workflow.amount, r.offers, w)
    ensures RecordOk(r.(attempts := r.attempts + [w])) && Follows(r, r.(attempts := r.attempts + [w]))
  {
    AttemptAdded(r, w, r.offers);
    AttemptStepOk(r, r.(attempts := r.attempts + [w]));
  }

  lemma NoneActive(r: Record)
    requires ActiveAssignment(r).None?
    ensures NoActive(r.attempts)
  {}

  // What accepting an order or an offer can be.
  ghost predicate AdmissionSteps(r: Record, r': Record, caller: UserId) {
    || r' == r
    || Admits(r, r', caller)
    || (&& r.order.status == AwaitingCourier && |r'.attempts| == |r.attempts| + 1
        && r' == r.(attempts := r.attempts + [r'.attempts[|r.attempts|]])
        && r'.attempts[|r.attempts|].offer.None? && r'.attempts[|r.attempts|].phase == AssignmentRejected
        && AttemptOk(r.order.requester, r.workflow.amount, r.offers, r'.attempts[|r.attempts|]))
  }

  lemma AdmissionStepsOk(r: Record, r': Record, caller: UserId)
    requires RecordOk(r) && AdmissionSteps(r, r', caller)
    ensures RecordOk(r') && Follows(r, r')
  {
    if r' == r {
      FollowsSelf(r);
    } else if Admits(r, r', caller) {
      AdmitsOk(r, r', caller);
    } else {
      ContentionOk(r, r'.attempts[|r.attempts|]);
    }
  }

  lemma AcceptOrderSteps(r: Record, keys: Keys, caller: Caller, key: Key, now: Time)
    requires OrderShape(r.order, r.workflow.amount) && OffersOk(r.order.requester, r.offers)
    requires AcceptOrder(r, keys, caller, key, now).Ok?
    ensures AdmissionSteps(r, AcceptOrder(r, keys, caller, key, now).value.record, caller.id)
  {
    if ActiveAssignment(r).None? {
      NoneActive(r);
    }
  }

  lemma AcceptOrderOk(r: Record, keys: Keys, caller: Caller, key: Key, now: Time)
    requires RecordOk(r) && AcceptOrder(r, keys, caller, key, now).Ok?
    ensures var r' := AcceptOrder(r, keys, caller, key, now).value.record;
            RecordOk(r') && Follows(r, r')
  {
    AcceptOrderSteps(r, keys, caller, key, now);
    AdmissionStepsOk(r, AcceptOrder(r, keys, caller, key, now).value.record, caller.id);
  }

  lemma AcceptOfferSteps(r: Record, caller: Caller, offer: nat, now: Time)
    requires OrderShape(r.order, r.workflow.amount) && OffersOk(r.order.requester, r.offers)
    requires AcceptOffer(r, caller, offer, now).Ok?
    ensures AdmissionSteps(r, AcceptOffer(r, caller, offer, now).value.record, caller.id)
  {
    if ActiveAssignment(r).None? {
      NoneActive(r);
    }
  }

  lemma AcceptOfferOk(r: Record, caller: Caller, offer: nat, now: Time)
    requires RecordOk(r) && AcceptOffer(r, caller, offer, now).Ok?
    ensures var r' := AcceptOffer(r, caller, offer, now).value.record;
            RecordOk(r') && Follows(r, r')
  {
    AcceptOfferSteps(r, caller, offer, now);
    AdmissionStepsOk(r, AcceptOffer(r, caller, offer, now).value.record, caller.id);
  }
}
