/** What the creation of an order decides and stores, for every input: its admission, its leased claims, and what a
    worker's observation makes of it. */
module CreationEffects {
  import opened Common
  import opened Orders
  import opened OrderRecords
  import opened OrderInvariants
  import opened OrderSteps
  import opened Lifecycle

  // The rows are r's with the order moved to after by actor, its facts told, and nothing else but the workflow.
  ghost predicate MovesOrder(r: Record, r': Record, actor: Actor, action: Action) {
    && NewChange(Some(r.order), r'.order, actor, action).Ok?
    && r' == r.(order := r'.order, workflow := r'.workflow,
                facts := r.facts + Emitted(r.order, r'.order, actor, action))
  }

  // A read that shows this creation's own untouched hold.
  ghost predicate ShowsHold(seen: Seen, r: Record) {
    && seen.Saw? && seen.view.state == ViewHeld && seen.view.order == r.order.id
    && seen.view.requester == Some(r.order.requester)
    && seen.view.original == seen.view.reserved == r.workflow.amount
  }

  ghost predicate ShowsRelease(seen: Seen, r: Record) {
    seen.Saw? && seen.view.state == ViewReleased && seen.view.order == r.order.id && seen.view.reserved == 0
  }

  /** A creation is admitted exactly for a positive reward, between 5 minutes and a day to deliver, and an expiry still
      to come; it starts as a pending order of its requester that holds nothing yet. */
  lemma AdmittedExactly(o: OrderId, requester: UserId, input: CreateInput, now: Time)
    ensures AdmitCreation(o, requester, input, now).Ok? <==>
            && 0 < input.reward && 300 * SECOND <= input.deliveryDuration <= 86_400 * SECOND && now < input.expiresAt
    ensures AdmitCreation(o, requester, input, now).Ok? ==>
              var r := AdmitCreation(o, requester, input, now).value;
              && r.order.id == o && r.order.requester == requester && r.order.status == PendingReservation
              && r.order.courier.None? && r.order.reserved == 0 && r.order.reward == input.reward
              && r.order.deliveryDuration == input.deliveryDuration && r.order.details == input.details
              && r.order.expiresAt == input.expiresAt && r.order.revision == 1
              && r.workflow.requester == requester && r.workflow.amount == input.reward
              && r.workflow.expiresAt == input.expiresAt && r.workflow.phase == ReservePending
              && r.workflow.generation == 0 && r.workflow.leaseUntil == r.workflow.nextAttemptAt == now
              && r.offers == [] && r.attempts == [] && r.cancellations == []
              && |r.facts| == 1 && r.facts[0].fact.kind == StatusChanged && r.facts[0].actor == UserActor(requester)
  {
    hide Allowed;
    BornExactly(Draft(o, requester, input, now), UserActor(requester), Create);
  }

  /** A step is leased exactly if the creation is unresolved, unleased and due; an expired reserve is due at once, and
      becomes an abort in the same commit. */
  lemma ClaimedExactly(r: Record, now: Time)
    requires RecordOk(r)
    ensures var w := r.workflow;
            && ClaimCreation(r, now).Ok?
            && var c := ClaimCreation(r, now).value;
               && (c.claimed <==>
                     && (w.phase == ReservePending || w.phase == AbortPending) && w.leaseUntil <= now
                     && (w.nextAttemptAt <= now || (w.phase == ReservePending && w.expiresAt <= now)))
               && (!c.claimed ==> c.record == r)
               && (c.claimed ==>
                     && c.record == r.(workflow := c.record.workflow)
                     && c.record.workflow == w.(
                          phase := if w.phase == AbortPending || w.expiresAt <= now then AbortPending
                                   else ReservePending,
                          generation := w.generation + 1, attempts := w.attempts + 1,
                          leaseUntil := now + 15 * SECOND, updatedAt := now))
  {}

  // The worker still owns the step it observed.
  predicate IsCurrent(w: Workflow, generation: int, phase: CreationPhase, now: Time) {
    && w.generation == generation && w.phase == phase && (phase == ReservePending || phase == AbortPending)
    && now < w.leaseUntil
  }

  lemma PendingOpens(o: Order, amount: int, now: Time)
    requires OrderShape(o, amount) && o.status == PendingReservation
    ensures NewChange(Some(o), o.(status := AwaitingCourier, reserved := amount, revision := o.revision + 1,
                                  updatedAt := now), SYSTEM, ConfirmReservation).Ok?
  {
    AcceptedExactly(o, o.(status := AwaitingCourier, reserved := amount, revision := o.revision + 1,
                          updatedAt := now), SYSTEM, ConfirmReservation);
  }

  lemma PendingRejects(o: Order, amount: int, why: OrderText, now: Time)
    requires OrderShape(o, amount) && o.status == PendingReservation
    ensures NewChange(Some(o), o.(status := Rejected, revision := o.revision + 1, updatedAt := now,
                                  closedAt := Some(now), closeReason := Some(why)), SYSTEM, RefuseReservation).Ok?
  {
    AcceptedExactly(o, o.(status := Rejected, revision := o.revision + 1, updatedAt := now, closedAt := Some(now),
                          closeReason := Some(why)), SYSTEM, RefuseReservation);
  }

  // The order that a decided creation leaves.
  function DecidedOrder(o: Order, w': Workflow, now: Time): Order {
    match w'.phase
    case CreationOpened =>
      o.(status := AwaitingCourier, reserved := w'.amount, revision := o.revision + 1, updatedAt := now)
    case CreationRejected =>
      var why := match w'.rejection
        case Some(CreationInsufficient) => "insufficient credits"
        case Some(CreationExpired) => "order creation expired"
        case _ => "credit reservation was released";
      o.(status := Rejected, revision := o.revision + 1, updatedAt := now, closedAt := Some(now),
         closeReason := Some(why))
    case _ => o
  }

  // Every decided change of a pending order is accepted.
  lemma ChangeStands(r: Record, move: CreationMove, now: Time)
    requires OrderShape(r.order, r.workflow.amount) && r.order.status == PendingReservation
    ensures match CreationChange(r, move, now)
            case None => move.StayPending? || move.StartAbort?
            case Some(Err(_)) => false
            case Some(Ok(c)) =>
              var action := if move.OpenOrder? then ConfirmReservation else RefuseReservation;
              && (move.OpenOrder? || move.Reject?)
              && c.order == DecidedOrder(r.order, NextWorkflow(r.workflow, move, c.order, now, 0), now)
              && NewChange(Some(r.order), c.order, SYSTEM, action) == Ok(c)
              && c.actor == SYSTEM && c.facts == FactsOf(Some(r.order), c.order, SYSTEM, action)
  {
    hide RetryDelay, NewChange, FactsOf;
    var o := r.order;
    if move.OpenOrder? {
      PendingOpens(o, r.workflow.amount, now);
      ChangeIsOwn(o, o.(status := AwaitingCourier, reserved := r.workflow.amount, revision := o.revision + 1,
                        updatedAt := now), SYSTEM, ConfirmReservation);
    } else if move.Reject? {
      var why := RejectionText(move.why);
      PendingRejects(o, r.workflow.amount, why, now);
      ChangeIsOwn(o, o.(status := Rejected, revision := o.revision + 1, updatedAt := now, closedAt := Some(now),
                        closeReason := Some(why)), SYSTEM, RefuseReservation);
    }
  }

  lemma PendingWhileUnresolved(r: Record)
    requires RecordOk(r) && (r.workflow.phase == ReservePending || r.workflow.phase == AbortPending)
    ensures r.order.status == PendingReservation && OrderShape(r.order, r.workflow.amount)
    ensures r.workflow.requester == r.order.requester && r.workflow.rejection.None?
  {}

  /** What a worker's observation makes of a creation. It opens exactly on a matching hold read before the expiry; a
      definitive refusal and a released reservation reject it, each under its own reason; once it is being aborted only
      a released reservation ends it; and after the expiry nothing but a refusal keeps it from the abort. */
  lemma DecidedExactly(r: Record, generation: int, phase: CreationPhase, seen: Seen, now: Time, jitter: Jitter)
    requires RecordOk(r)
    ensures var w := r.workflow;
            && ApplyCreation(r, generation, phase, seen, now, jitter).Ok?
            && var w' := ApplyCreation(r, generation, phase, seen, now, jitter).value.workflow;
               if !IsCurrent(w, generation, phase, now) then
                 ApplyCreation(r, generation, phase, seen, now, jitter).value == r
               else
                 && (w'.phase == CreationOpened <==> phase == ReservePending && now < w.expiresAt && ShowsHold(seen, r))
                 && (w'.phase == CreationRejected <==> w'.rejection.Some?)
                 && (w'.rejection == Some(CreationInsufficient) <==> phase == ReservePending && seen.Refused?)
                 && (w'.rejection == Some(ReservationReleased) <==>
                       phase == ReservePending && now < w.expiresAt && ShowsRelease(seen, r))
                 && (w'.rejection == Some(CreationExpired) <==> phase == AbortPending && ShowsRelease(seen, r))
                 && (w'.phase == AbortPending <==>
                       || (phase == AbortPending && !ShowsRelease(seen, r))
                       || (phase == ReservePending && !seen.Refused? && w.expiresAt <= now))
  {
    hide RecordOk, CreationChange, RetryDelay;
    if IsCurrent(r.workflow, generation, phase, now) {
      PendingWhileUnresolved(r);
      ChangeStands(r, CreationMoveOf(r, seen, now), now);
    }
  }

  /** What the decision stores: the order opens with its hold or is rejected under its reason, by the system, with its
      facts; the lease is given back, and the next try comes at once for a new abort, no later than the expiry for a
      reserve, and within thirty seconds for anything else. */
  lemma StoredExactly(r: Record, generation: int, phase: CreationPhase, seen: Seen, now: Time, jitter: Jitter)
    requires RecordOk(r) && IsCurrent(r.workflow, generation, phase, now)
    ensures ApplyCreation(r, generation, phase, seen, now, jitter).Ok?
    ensures var r' := ApplyCreation(r, generation, phase, seen, now, jitter).value;
            var w, w' := r.workflow, r'.workflow;
            && r'.order == DecidedOrder(r.order, w', now)
            && (if r'.order == r.order then r' == r.(workflow := w')
                else MovesOrder(r, r', SYSTEM, if w'.phase == CreationOpened then ConfirmReservation
                                               else RefuseReservation))
            && w' == w.(phase := w'.phase, rejection := w'.rejection, leaseUntil := now, updatedAt := now,
                        nextAttemptAt := w'.nextAttemptAt,
                        result := if w'.phase == CreationOpened then Some(r'.order) else w.result)
            && (if w.phase == ReservePending && w'.phase == AbortPending then w'.nextAttemptAt == now
                else
                  && (w'.phase == ReservePending ==> w'.nextAttemptAt <= w.expiresAt)
                  && w'.nextAttemptAt <= now + 30 * SECOND
                  && (w'.nextAttemptAt < now + SECOND ==> w'.nextAttemptAt == w.expiresAt))
  {
    hide RecordOk, CreationChange, CreationMoveOf, NewChange, FactsOf, RetryDelay;
    RetryDelayBounded(r.workflow.attempts, r.workflow.attempts, jitter);
    PendingWhileUnresolved(r);
    ChangeStands(r, CreationMoveOf(r, seen, now), now);
    if phase == AbortPending {
      AbortOnlyEnds(r, seen, now);
    }
  }

  lemma AbortOnlyEnds(r: Record, seen: Seen, now: Time)
    requires r.workflow.phase == AbortPending
    ensures CreationMoveOf(r, seen, now).StayPending? || CreationMoveOf(r, seen, now).Reject?
  {}
}
