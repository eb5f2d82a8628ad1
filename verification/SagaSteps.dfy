/** Every step of the composed system keeps the invariant of the order it touches. */
module SagaSteps {
  import opened Common
  import opened Orders
  import opened OrderRecords
  import opened OrderInvariants
  import opened OrderSteps
  import opened CancellationSteps
  import opened Saga
  import opened SagaInvariants
  import opened SagaOrder
  import opened CreditBooks
  import opened CreditFences
  import C = Credit

  // No new attempt carries a retained key.
  ghost predicate KeepsKeys(r: Record, r': Record) {
    forall i :: 0 <= i < |r'.attempts| && r'.attempts[i].how.AcceptOrderMethod? ==>
      && i < |r.attempts|
      && r.attempts[i].how == r'.attempts[i].how && r.attempts[i].caller == r'.attempts[i].caller
  }

  lemma SameLengthKeepsKeys(r: Record, r': Record)
    requires Follows(r, r') && |r'.attempts| == |r.attempts|
    ensures KeepsKeys(r, r')
  {
    forall i | 0 <= i < |r'.attempts|
      ensures r.attempts[i].how == r'.attempts[i].how && r.attempts[i].caller == r'.attempts[i].caller
    {
      assert AttemptFollows(r.attempts[i], r'.attempts[i]);
    }
  }

  // The rows of a cell move; its book stands still.
  lemma CellMoves(o: OrderId, cell: Cell, r': Record, b: C.Book)
    requires CellOk(o, cell, b) && RecordOk(r') && Follows(cell.record, r') && Ties(r', b)
    ensures CellOk(o, cell.(record := r'), b)
  {
    SelfStep(b);
    NetLasts(cell.record, b, r', b, cell.net);
  }

  // Claims

  lemma ClaimedCreation(r: Record, now: Time, b: C.Book)
    requires RecordOk(r) && BookOk(b) && Ties(r, b) && ClaimCreation(r, now).Ok?
    requires ClaimCreation(r, now).value.claimed
    ensures var r' := ClaimCreation(r, now).value.record;
            && RecordOk(r') && Follows(r, r') && KeepsKeys(r, r') && Ties(r', b)
            && WorkOk(r', WorkOf(r', OfCreation).value)
  {
    var r' := ClaimCreation(r, now).value.record;
    ClaimCreationOk(r, now);
    SameLengthKeepsKeys(r, r');
    CreationWaitsTies(r, r', b);
  }

  lemma ClaimedAttempt(r: Record, i: AttemptId, now: Time, b: C.Book)
    requires RecordOk(r) && BookOk(b) && Ties(r, b) && ClaimAssignment(r, i, now).Ok?
    requires ClaimAssignment(r, i, now).value.claimed
    ensures var r' := ClaimAssignment(r, i, now).value.record;
            && RecordOk(r') && Follows(r, r') && KeepsKeys(r, r') && Ties(r', b)
            && i < |r'.attempts| && WorkOk(r', WorkOf(r', OfAttempt(i)).value)
  {
    var r' := ClaimAssignment(r, i, now).value.record;
    ClaimAssignmentOk(r, i, now);
    SameLengthKeepsKeys(r, r');
    assert AttemptOk(r.order.requester, r.workflow.amount, r.offers, r.attempts[i]);
    assert AttemptFollows(r.attempts[i], r'.attempts[i]);
    OneAttemptTies(r, r', b, i);
  }

  lemma ClaimedWithdrawal(r: Record, c: nat, now: Time, b: C.Book)
    requires RecordOk(r) && BookOk(b) && Ties(r, b) && ClaimCancellation(r, c, now).Ok?
    requires ClaimCancellation(r, c, now).value.claimed
    ensures var r' := ClaimCancellation(r, c, now).value.record;
            && RecordOk(r') && Follows(r, r') && KeepsKeys(r, r') && Ties(r', b)
            && c < |r'.cancellations| && WorkOk(r', WorkOf(r', OfWithdrawal(c)).value)
  {
    var r' := ClaimCancellation(r, c, now).value.record;
    ClaimCancellationOk(r, c, now);
    SameLengthKeepsKeys(r, r');
    assert CancellationOk(r.order, r.attempts, c, r.cancellations[c]);
    assert SavesCancellation(r, c, r');
    SavesCancellationTies(r, c, r', b);
  }

  lemma ClaimedAny(r: Record, target: Target, now: Time, b: C.Book)
    requires RecordOk(r) && BookOk(b) && Ties(r, b) && ClaimOf(r, target, now).Ok?
    requires ClaimOf(r, target, now).value.claimed
    ensures var r' := ClaimOf(r, target, now).value.record;
            && RecordOk(r') && Follows(r, r') && KeepsKeys(r, r') && Ties(r', b)
            && WorkOf(r', target).Some? && WorkOk(r', WorkOf(r', target).value)
  {
    match target {
      case OfCreation => ClaimedCreation(r, now, b);
      case OfAttempt(i) => ClaimedAttempt(r, i, now, b);
      case OfWithdrawal(c) => ClaimedWithdrawal(r, c, now, b);
    }
  }

  lemma CellClaims(o: OrderId, cell: Cell, r': Record, work: Work, b: C.Book)
    requires CellOk(o, cell, b) && RecordOk(r') && Follows(cell.record, r') && Ties(r', b) && WorkOk(r', work)
    ensures CellOk(o, Cell(r', cell.net + {Claim(work)}), b)
  {
    CellMoves(o, cell, r', b);
  }

  // What one cell may become while its book stands still.
  ghost predicate CellStep(o: OrderId, cell: Cell, cell': Cell, b: C.Book) {
    CellOk(o, cell', b) && Follows(cell.record, cell'.record) && KeepsKeys(cell.record, cell'.record)
  }

  lemma CellStays(o: OrderId, cell: Cell, b: C.Book)
    requires CellOk(o, cell, b)
    ensures CellStep(o, cell, cell, b)
  {
    FollowsSelf(cell.record);
    SameLengthKeepsKeys(cell.record, cell.record);
  }

  lemma ClaimCases(cell: Cell, target: Target, now: Time)
    ensures var claim := ClaimOf(cell.record, target, now);
            if claim.Ok? && claim.value.claimed && WorkOf(claim.value.record, target).Some? then
              ClaimStep(cell, target, now) ==
              Cell(claim.value.record, cell.net + {Claim(WorkOf(claim.value.record, target).value)})
            else ClaimStep(cell, target, now) == cell
  {}

  lemma ClaimKeepsCell(o: OrderId, cell: Cell, target: Target, now: Time, b: C.Book)
    requires CellOk(o, cell, b)
    ensures CellStep(o, cell, ClaimStep(cell, target, now), b)
  {
    var claim := ClaimOf(cell.record, target, now);
    ClaimCases(cell, target, now);
    if claim.Ok? && claim.value.claimed && WorkOf(claim.value.record, target).Some? {
      ClaimedAny(cell.record, target, now, b);
      CellClaims(o, cell, claim.value.record, WorkOf(claim.value.record, target).value, b);
    } else {
      CellStays(o, cell, b);
    }
  }

  // Applying the creation saga's results

  // Opening rests on a read of the hold, rejecting on proof that there never will be one.
  lemma CreationIsFounded(r: Record, b: C.Book, net: set<Token>, g: int, creation: CreationPhase, seen: Seen,
                          now: Time, jitter: Jitter)
    requires NetOk(r, b, net) && IsKnown(net, CreationWork(g, creation), seen)
    requires ApplyCreation(r, g, creation, seen, now, jitter).Ok?
    ensures var r' := ApplyCreation(r, g, creation, seen, now, jitter).value;
            r'.order != r.order ==>
              && (r'.order.status == Rejected ==> NoHold(b))
              && (r'.order.status == AwaitingCourier ==> r.workflow.phase == ReservePending && b.current.Some?)
  {
    var work := CreationWork(g, creation);
    if seen.Refused? {
      assert TokenOk(r, b, Refusal(work));
    } else if seen.Saw? {
      assert TokenOk(r, b, Read(work, seen.view));
    }
    assert TokenOk(r, b, Claim(work));
  }

  lemma ReservePhaseStays(r: Record, g: int, creation: CreationPhase, seen: Seen, now: Time, jitter: Jitter)
    requires ApplyCreation(r, g, creation, seen, now, jitter).Ok?
    ensures var r' := ApplyCreation(r, g, creation, seen, now, jitter).value;
            && (r'.workflow.phase == ReservePending ==> r.workflow.phase == ReservePending)
            && r'.attempts == r.attempts && r'.cancellations == r.cancellations
  {}

  lemma ApplyCreationTies(r: Record, b: C.Book, net: set<Token>, g: int, creation: CreationPhase, seen: Seen,
                          now: Time, jitter: Jitter)
    requires RecordOk(r) && BookOk(b) && Ties(r, b) && NetOk(r, b, net)
    requires IsKnown(net, CreationWork(g, creation), seen)
    requires ApplyCreation(r, g, creation, seen, now, jitter).Ok?
    ensures var r' := ApplyCreation(r, g, creation, seen, now, jitter).value;
            RecordOk(r') && Follows(r, r') && KeepsKeys(r, r') && Ties(r', b)
  {
    var r' := ApplyCreation(r, g, creation, seen, now, jitter).value;
    ApplyCreationOk(r, g, creation, seen, now, jitter);
    ApplyCreationSteps(r, g, creation, seen, now, jitter);
    CreationIsFounded(r, b, net, g, creation, seen, now, jitter);
    ReservePhaseStays(r, g, creation, seen, now, jitter);
    SameLengthKeepsKeys(r, r');
    CreationResultTies(r, r', b);
  }

  lemma CreationResultTies(r: Record, r': Record, b: C.Book)
    requires TiedStep(r, r', b)
    requires r' == r || CreationWaits(r, r') || CreationEnds(r, r', ConfirmReservation)
          || CreationEnds(r, r', RefuseReservation)
    requires r'.workflow.phase == ReservePending ==> r.workflow.phase == ReservePending
    requires r'.order != r.order ==>
               && (r'.order.status == Rejected ==> NoHold(b))
               && (r'.order.status == AwaitingCourier ==> r.workflow.phase == ReservePending && b.current.Some?)
    ensures Ties(r', b)
  {
    if r' != r {
      if CreationWaits(r, r') {
        CreationWaitsTies(r, r', b);
      } else if CreationEnds(r, r', ConfirmReservation) {
        NextRevision(r.order, r'.order, SYSTEM, ConfirmReservation);
        CreationEndsTies(r, r', b, ConfirmReservation);
      } else {
        NextRevision(r.order, r'.order, SYSTEM, RefuseReservation);
        CreationEndsTies(r, r', b, RefuseReservation);
      }
    }
  }

  // Applying the assignment saga's results

  // What an apply step did to its attempt, and on what grounds.
  ghost predicate AttemptApplied(r: Record, i: AttemptId, phase: Phase, seen: Seen, r': Record) {
    && i < |r.attempts| == |r'.attempts| && r'.attempts == r.attempts[i := r'.attempts[i]]
    && !r.attempts[i].IsResolved() && r.attempts[i].phase == phase
    && r'.workflow == r.workflow && r'.cancellations == r.cancellations
    && var w' := r'.attempts[i];
       && (w'.phase == AdjustmentPending ==> phase == AdjustmentPending)
       && (w'.phase == AssignmentRejected ==> phase == RevertPending && seen.Saw?)
       && (w'.phase == AssignmentSucceeded ==>
             && phase == AdjustmentPending && seen.Saw?
             && seen.view.state == ViewAssigned && seen.view.offer == Some(i)
             && r'.order.courier.Some?)
       && (w'.phase != AssignmentSucceeded ==>
             && r'.order.courier == r.order.courier && r'.order.status == r.order.status
             && r'.order.pendingCancellation == r.order.pendingCancellation
             && r'.order.pickedUpAt == r.order.pickedUpAt)
  }

  lemma ApplyAssignmentEffect(r: Record, i: AttemptId, g: int, phase: Phase, seen: Seen, now: Time, jitter: Jitter)
    requires phase == AdjustmentPending || phase == RevertPending
    requires ApplyAssignment(r, i, g, phase, seen, now, jitter).Ok?
    ensures var r' := ApplyAssignment(r, i, g, phase, seen, now, jitter).value;
            r' == r || AttemptApplied(r, i, phase, seen, r')
  {}

  lemma AppliedAttemptTies(r: Record, r': Record, b: C.Book, i: AttemptId, g: int, phase: Phase, seen: Seen,
                           net: set<Token>)
    requires TiedStep(r, r', b) && NetOk(r, b, net) && IsKnown(net, AttemptWork(i, g, phase), seen)
    requires AttemptApplied(r, i, phase, seen, r')
    ensures Ties(r', b)
  {
    var work := AttemptWork(i, g, phase);
    assert AttemptFollows(r.attempts[i], r'.attempts[i]);
    if seen.Saw? {
      assert TokenOk(r, b, Read(work, seen.view));
    }
    if r'.attempts[i].phase == AssignmentSucceeded {
      SuccessTies(r, r', b, i);
    } else {
      OneAttemptTies(r, r', b, i);
    }
  }

  lemma ApplyAssignmentTies(r: Record, b: C.Book, net: set<Token>, i: AttemptId, g: int, phase: Phase, seen: Seen,
                            now: Time, jitter: Jitter)
    requires RecordOk(r) && BookOk(b) && Ties(r, b) && NetOk(r, b, net)
    requires IsKnown(net, AttemptWork(i, g, phase), seen)
    requires ApplyAssignment(r, i, g, phase, seen, now, jitter).Ok?
    ensures var r' := ApplyAssignment(r, i, g, phase, seen, now, jitter).value;
            RecordOk(r') && Follows(r, r') && KeepsKeys(r, r') && Ties(r', b)
  {
    var r' := ApplyAssignment(r, i, g, phase, seen, now, jitter).value;
    assert TokenOk(r, b, Claim(AttemptWork(i, g, phase)));
    ApplyAssignmentOk(r, i, g, phase, seen, now, jitter);
    ApplyAssignmentEffect(r, i, g, phase, seen, now, jitter);
    SameLengthKeepsKeys(r, r');
    if r' != r {
      AppliedAttemptTies(r, r', b, i, g, phase, seen, net);
    }
  }

  // Applying the withdrawal saga's results

  lemma WithdrawsOnRead(r: Record, c: nat, g: int, seen: Seen, now: Time, jitter: Jitter)
    requires ApplyCancellation(r, c, g, seen, now, jitter).Ok?
    ensures var r' := ApplyCancellation(r, c, g, seen, now, jitter).value;
            && |r'.attempts| == |r.attempts|
            && (Withdraws(r, c, r') ==> seen.Saw?)
  {}

  lemma ApplyWithdrawalTies(r: Record, b: C.Book, net: set<Token>, c: nat, g: int, seen: Seen, now: Time,
                            jitter: Jitter)
    requires RecordOk(r) && BookOk(b) && Ties(r, b) && NetOk(r, b, net)
    requires IsKnown(net, WithdrawalWork(c, g), seen)
    requires ApplyCancellation(r, c, g, seen, now, jitter).Ok?
    ensures var r' := ApplyCancellation(r, c, g, seen, now, jitter).value;
            RecordOk(r') && Follows(r, r') && KeepsKeys(r, r') && Ties(r', b)
  {
    var r' := ApplyCancellation(r, c, g, seen, now, jitter).value;
    ApplyCancellationOk(r, c, g, seen, now, jitter);
    ApplyCancellationSteps(r, c, g, seen, now, jitter);
    WithdrawsOnRead(r, c, g, seen, now, jitter);
    SameLengthKeepsKeys(r, r');
    if r' != r {
      if SavesCancellation(r, c, r') {
        SavesCancellationTies(r, c, r', b);
      } else {
        assert TokenOk(r, b, Read(WithdrawalWork(c, g), seen.view));
        WithdrawsTies(r, c, r', b);
      }
    }
  }

  lemma ApplyKeepsCell(o: OrderId, cell: Cell, work: Work, seen: Seen, now: Time, jitter: Jitter, b: C.Book)
    requires CellOk(o, cell, b) && IsKnown(cell.net, work, seen)
    ensures CellStep(o, cell, Stored(cell, ApplyWork(cell.record, work, seen, now, jitter)), b)
  {
    var r := cell.record;
    CellStays(o, cell, b);
    var result := ApplyWork(r, work, seen, now, jitter);
    if result.Ok? {
      match work {
        case CreationWork(g, creation) => ApplyCreationTies(r, b, cell.net, g, creation, seen, now, jitter);
        case AttemptWork(i, g, phase) => ApplyAssignmentTies(r, b, cell.net, i, g, phase, seen, now, jitter);
        case WithdrawalWork(c, g) => ApplyWithdrawalTies(r, b, cell.net, c, g, seen, now, jitter);
      }
      CellMoves(o, cell, result.value, b);
    }
  }

  // Admissions

  lemma AdmissionTies(r: Record, r': Record, b: C.Book, caller: UserId)
    requires TiedStep(r, r', b) && AdmissionSteps(r, r', caller)
    ensures Ties(r', b)
  {
    if r' != r {
      NewAttemptTies(r, r', b);
    }
  }

  lemma AcceptTies(r: Record, b: C.Book, keys: Keys, caller: Caller, key: Key, now: Time)
    requires RecordOk(r) && BookOk(b) && Ties(r, b) && AcceptOrder(r, keys, caller, key, now).Ok?
    ensures var r' := AcceptOrder(r, keys, caller, key, now).value.record;
            RecordOk(r') && Follows(r, r') && Ties(r', b)
  {
    AcceptOrderOk(r, keys, caller, key, now);
    AcceptOrderSteps(r, keys, caller, key, now);
    AdmissionTies(r, AcceptOrder(r, keys, caller, key, now).value.record, b, caller.id);
  }

  lemma AcceptOfferKeepsKeys(r: Record, caller: Caller, offer: nat, now: Time)
    requires AcceptOffer(r, caller, offer, now).Ok?
    ensures KeepsKeys(r, AcceptOffer(r, caller, offer, now).value.record)
  {}

  lemma AcceptOfferTies(r: Record, b: C.Book, caller: Caller, offer: nat, now: Time)
    requires RecordOk(r) && BookOk(b) && Ties(r, b) && AcceptOffer(r, caller, offer, now).Ok?
    ensures var r' := AcceptOffer(r, caller, offer, now).value.record;
            RecordOk(r') && Follows(r, r') && KeepsKeys(r, r') && Ties(r', b)
  {
    AcceptOfferOk(r, caller, offer, now);
    AcceptOfferSteps(r, caller, offer, now);
    AcceptOfferKeepsKeys(r, caller, offer, now);
    AdmissionTies(r, AcceptOffer(r, caller, offer, now).value.record, b, caller.id);
  }

  // Local actions

  lemma LocalMovesTies(r: Record, r': Record, b: C.Book, actor: Actor, action: Action)
    requires TiedStep(r, r', b) && LocalMoves(r, r', actor, action)
    ensures Ties(r', b)
  {
    MoveTies(r, r', b);
  }

  // A cancellation in detail: it never supersedes a withdrawal except by the requester, before pickup.
  lemma CancelNowDetails(r: Record, user: UserId, reason: OrderText, next: Status, now: Time)
    requires CancelNow(r, user, reason, next, now).Ok?
    ensures var r' := CancelNow(r, user, reason, next, now).value.record;
            && r'.attempts == FenceActive(r, now) && |r'.attempts| == |r.attempts|
            && r'.order.status == next && r'.order.pickedUpAt == r.order.pickedUpAt
  {
    var active := ActiveAssignment(r);
  }

  lemma CancelDestination(o: Order, user: UserId, amount: int)
    requires OrderShape(o, amount) && Transition(o, Action.Cancel, UserActor(user)).Go?
    ensures !IsTerminal(o.status)
    ensures o.pendingCancellation.Some? && !o.IsAssignedTo(Some(user)) ==>
              Transition(o, Action.Cancel, UserActor(user)) == Go(Cancelled)
  {}

  lemma CancelDetails(r: Record, user: UserId, reason: OrderText, revision: Option<int>, now: Time)
    requires OrderShape(r.order, r.workflow.amount) && CancelOrder(r, user, reason, revision, now).Ok?
    ensures var r' := CancelOrder(r, user, reason, revision, now).value.record;
            && |r'.attempts| == |r.attempts|
            && (r'.order.status != r.order.status ==>
                  && r'.attempts == FenceActive(r, now) && !IsTerminal(r.order.status)
                  && (r.order.pendingCancellation.Some? ==> r'.order.status == Cancelled)
                  && r'.order.pickedUpAt == r.order.pickedUpAt)
  {
    var decision := Transition(r.order, Action.Cancel, UserActor(user));
    if decision.Go? {
      CancelDestination(r.order, user, r.workflow.amount);
      if CancelNow(r, user, reason, decision.next, now).Ok? {
        CancelNowDetails(r, user, reason, decision.next, now);
      }
    }
  }

  lemma CancelChangesStatus(r: Record, r': Record, user: UserId)
    requires OrderShape(r.order, r.workflow.amount) && CancelsNow(r, r', user)
    ensures r'.order.status != r.order.status
  {}

  lemma CancelTies(r: Record, b: C.Book, user: UserId, reason: OrderText, revision: Option<int>, now: Time)
    requires RecordOk(r) && BookOk(b) && Ties(r, b) && CancelOrder(r, user, reason, revision, now).Ok?
    ensures var r' := CancelOrder(r, user, reason, revision, now).value.record;
            RecordOk(r') && Follows(r, r') && KeepsKeys(r, r') && Ties(r', b)
  {
    var r' := CancelOrder(r, user, reason, revision, now).value.record;
    CancelOk(r, user, reason, revision, now);
    CancelSteps(r, user, reason, revision, now);
    CancelDetails(r, user, reason, revision, now);
    SameLengthKeepsKeys(r, r');
    if r' != r {
      if BeginsWithdrawal(r, r', user) {
        BeginsWithdrawalTies(r, r', b, user);
      } else {
        CancelChangesStatus(r, r', user);
        CancelsNowTies(r, r', b, user, now);
      }
    }
  }

  lemma AdvanceTies(r: Record, b: C.Book, caller: Caller, action: Action, now: Time)
    requires RecordOk(r) && BookOk(b) && Ties(r, b) && Advance(r, caller, action, now).Ok?
    requires action == Action.Pickup || action == Action.ConfirmReceipt
    ensures var r' := Advance(r, caller, action, now).value;
            RecordOk(r') && Follows(r, r') && KeepsKeys(r, r') && Ties(r', b)
  {
    var r' := Advance(r, caller, action, now).value;
    AdvanceOk(r, caller, action, now);
    AdvanceMoves(r, caller, action, now);
    if r' != r {
      LocalMovesTies(r, r', b, UserActor(caller.id), action);
    }
    SameLengthKeepsKeys(r, r');
  }

  lemma DeliverTies(r: Record, b: C.Book, user: UserId, at: Time, unattended: bool, now: Time)
    requires RecordOk(r) && BookOk(b) && Ties(r, b) && DeliverOrder(r, user, at, unattended, now).Ok?
    ensures var r' := DeliverOrder(r, user, at, unattended, now).value;
            RecordOk(r') && Follows(r, r') && KeepsKeys(r, r') && Ties(r', b)
  {
    var r' := DeliverOrder(r, user, at, unattended, now).value;
    DeliverOk(r, user, at, unattended, now);
    DeliverMoves(r, user, at, unattended, now);
    LocalMovesTies(r, r', b, UserActor(user), Action.Deliver);
    SameLengthKeepsKeys(r, r');
  }

  lemma TimeoutTies(r: Record, b: C.Book, pending: bool, now: Time)
    requires RecordOk(r) && BookOk(b) && Ties(r, b) && TimeoutOrder(r, pending, now).Ok?
    ensures var r' := TimeoutOrder(r, pending, now).value;
            RecordOk(r') && Follows(r, r') && KeepsKeys(r, r') && Ties(r', b)
  {
    var r' := TimeoutOrder(r, pending, now).value;
    TimeoutOk(r, pending, now);
    TimeoutMoves(r, pending, now);
    if r' != r {
      LocalMovesTies(r, r', b, SYSTEM, Action.Timeout);
    }
    SameLengthKeepsKeys(r, r');
  }

  lemma LocateTies(r: Record, b: C.Book, user: UserId, location: OrderText, now: Time)
    requires RecordOk(r) && BookOk(b) && Ties(r, b) && RecordLocation(r, user, location, now).Ok?
    ensures var r' := RecordLocation(r, user, location, now).value;
            RecordOk(r') && Follows(r, r') && KeepsKeys(r, r') && Ties(r', b)
  {
    var r' := RecordLocation(r, user, location, now).value;
    LocationOk(r, user, location, now);
    LocationMoves(r, user, location, now);
    if r' != r {
      LocalMovesTies(r, r', b, UserActor(user), Action.RecordItemLocation);
    }
    SameLengthKeepsKeys(r, r');
  }

  lemma ExpireMoves(r: Record, now: Time)
    requires ExpireOrder(r, now).Ok?
    ensures ExpireOrder(r, now).value == r
         || (Moves(r, ExpireOrder(r, now).value) && r.order.status == AwaitingCourier)
  {}

  lemma ExpireTies(r: Record, b: C.Book, now: Time)
    requires RecordOk(r) && BookOk(b) && Ties(r, b) && ExpireOrder(r, now).Ok?
    ensures var r' := ExpireOrder(r, now).value;
            RecordOk(r') && Follows(r, r') && KeepsKeys(r, r') && Ties(r', b)
  {
    var r' := ExpireOrder(r, now).value;
    ExpireOk(r, now);
    ExpireMoves(r, now);
    if r' != r {
      MoveTies(r, r', b);
    }
    SameLengthKeepsKeys(r, r');
  }

  lemma ProposeMoves(r: Record, caller: Caller, credits: int, now: Time)
    requires MakeOffer(r, caller, credits, now).Ok?
    ensures Moves(r, MakeOffer(r, caller, credits, now).value) && r.order.status == AwaitingCourier
  {}

  lemma ProposeTies(r: Record, b: C.Book, caller: Caller, credits: int, now: Time)
    requires RecordOk(r) && BookOk(b) && Ties(r, b) && MakeOffer(r, caller, credits, now).Ok?
    ensures var r' := MakeOffer(r, caller, credits, now).value;
            RecordOk(r') && Follows(r, r') && KeepsKeys(r, r') && Ties(r', b)
  {
    var r' := MakeOffer(r, caller, credits, now).value;
    MakeOfferOk(r, caller, credits, now);
    ProposeMoves(r, caller, credits, now);
    MoveTies(r, r', b);
    SameLengthKeepsKeys(r, r');
  }

  lemma ActKeepsCell(o: OrderId, cell: Cell, action: LocalAction, b: C.Book)
    requires CellOk(o, cell, b)
    ensures CellStep(o, cell, Stored(cell, Act(cell.record, action)), b)
  {
    hide RecordOk, BookOk, Ties, NetOk, Follows, KeepsKeys, MakeOffer, AcceptOffer, CancelOrder, Advance, DeliverOrder,
         ExpireOrder, TimeoutOrder, RecordLocation;
    var r := cell.record;
    CellStays(o, cell, b);
    var result := Act(r, action);
    if result.Ok? {
      match action {
        case Propose(caller, credits, now) => ProposeTies(r, b, caller, credits, now);
        case AcceptCounter(caller, offer, now) => AcceptOfferTies(r, b, caller, offer, now);
        case CancelBy(user, reason, revision, now) => CancelTies(r, b, user, reason, revision, now);
        case PickUp(caller, now) => AdvanceTies(r, b, caller, Action.Pickup, now);
        case DeliverBy(user, at, unattended, now) => DeliverTies(r, b, user, at, unattended, now);
        case Receive(caller, now) => AdvanceTies(r, b, caller, Action.ConfirmReceipt, now);
        case ExpireNow(now) => ExpireTies(r, b, now);
        case TimeOut(pending, now) => TimeoutTies(r, b, pending, now);
        case Locate(user, location, now) => LocateTies(r, b, user, location, now);
      }
      CellMoves(o, cell, result.value, b);
    }
  }
}
