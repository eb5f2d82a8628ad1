/** What the local actions on an order decide and store: pickup, delivery, receipt, the two timers and the place of an
    undelivered item. */
module ProgressEffects {
  import opened Common
  import opened Orders
  import opened OrderRecords
  import opened OrderInvariants
  import opened OrderSteps
  import opened Lifecycle
  import opened CancellationEffects

  // The rows with the order moved to after, its facts told, and nothing else.
  function Moved(r: Record, after: Order, actor: Actor, action: Action): Record {
    r.(order := after, facts := r.facts + Emitted(r.order, after, actor, action))
  }

  // Who may look at an order at all.
  predicate Sees(o: Order, caller: Caller, now: Time) {
    || caller.admin || caller.id == o.requester || o.courier == Some(caller.id)
    || (!caller.suspended && o.status == AwaitingCourier && now < o.expiresAt)
  }

  function PickedUpAs(o: Order, now: Time): Order {
    o.(status := Delivering, pickedUpAt := Some(now), revision := o.revision + 1, updatedAt := now)
  }

  lemma PicksUp(o: Order, courier: UserId, now: Time)
    requires o.courier == Some(courier) && courier != o.requester && o.status == AwaitingPickup && 0 <= o.revision
    requires o.pendingCancellation.None?
    ensures NewChange(Some(o), PickedUpAs(o, now), UserActor(courier), Action.Pickup).Ok?
    ensures Transition(o, Action.Pickup, UserActor(courier)) == Go(Delivering)
  {
    GoesByTheTable(o, Action.Pickup, UserActor(courier), Delivering);
    AcceptedExactly(o, PickedUpAs(o, now), UserActor(courier), Action.Pickup);
  }

  /** A pickup is the assigned courier's, of an order that awaits it and is not being withdrawn from. It stamps its own
      instant, in whole microseconds; their own repeat changes nothing; nobody else gets through. */
  lemma PickedUpExactly(r: Record, caller: Caller, clock: Time)
    requires RecordOk(r)
    ensures var o, now, result := r.order, Micros(clock), ConfirmPickup(r, caller, clock);
            var mine := o.courier == Some(caller.id);
            && (result.Ok? <==>
                  mine && ((o.status == AwaitingPickup && o.pendingCancellation.None?) || o.status == Delivering))
            && (result.Ok? ==>
                  result.value == if o.status == Delivering then r
                                  else Moved(r, PickedUpAs(o, now), UserActor(caller.id), Action.Pickup))
            && (result == Err(NotFound) <==> !Sees(o, caller, now))
            && (result.Err? ==> result.error in {NotFound, Forbidden, Precondition})
  {
    hide Transition, NewChange, AttemptsOk, HolderOk, CancellationsOk, FactsOk, WorkflowOk, OffersOk, FactsOf;
    var o, now, actor := r.order, Micros(clock), UserActor(caller.id);
    if o.courier == Some(caller.id) && o.status == AwaitingPickup && o.pendingCancellation.None? {
      PicksUp(o, caller.id, now);
      ChangeIsOwn(o, PickedUpAs(o, now), actor, Action.Pickup);
    } else if o.courier == Some(caller.id) && o.status == Delivering {
      RepeatsItsOwn(o, Action.Pickup, actor, Delivering);
    } else {
      NotThisWay(o, Action.Pickup, actor);
    }
  }

  // No edge and no repeat.
  lemma NotThisWay(o: Order, action: Action, actor: Actor)
    requires o.courier != Some(o.requester) && HasName(actor)
    requires IsHeldBack(o, action) || TargetOf(o.status, action, RelationOf(o, actor)).None?
    requires action == Action.Pickup && o.status == Delivering ==> RelationOf(o, actor) != TheCourier
    requires action == Action.ConfirmReceipt && o.status == Completed ==> RelationOf(o, actor) != TheRequester
    requires action != Assign
    ensures Transition(o, action, actor).Deny?
    ensures Transition(o, action, actor).error in {Forbidden, Precondition}
  {
    hide Transition, TargetOf, IsOnTheTable;
    var d := Transition(o, action, actor);
    match d {
      case Go(next) => GoesByTheTable(o, action, actor, next);
      case Repeat(status) => RepeatsItsOwn(o, action, actor, status);
      case Deny(_) => RefusesTheRest(o, action, actor);
    }
  }

  function CompletedAs(o: Order, now: Time): Order {
    o.(status := Completed, completedAt := Some(now), revision := o.revision + 1, updatedAt := now)
  }

  lemma Completes(o: Order, now: Time)
    requires o.courier != Some(o.requester) && o.status == Delivered && 0 <= o.revision
    ensures NewChange(Some(o), CompletedAs(o, now), UserActor(o.requester), Action.ConfirmReceipt).Ok?
    ensures Transition(o, Action.ConfirmReceipt, UserActor(o.requester)) == Go(Completed)
  {
    GoesByTheTable(o, Action.ConfirmReceipt, UserActor(o.requester), Completed);
    AcceptedExactly(o, CompletedAs(o, now), UserActor(o.requester), Action.ConfirmReceipt);
  }

  /** A receipt is the requester's, of a delivered order; nobody else completes it, least of all its courier. */
  lemma ReceivedExactly(r: Record, caller: Caller, clock: Time)
    requires RecordOk(r)
    ensures var o, now, result := r.order, Micros(clock), ConfirmReceiptOf(r, caller, clock);
            && (result.Ok? <==> caller.id == o.requester && (o.status == Delivered || o.status == Completed))
            && (result.Ok? ==>
                  result.value == if o.status == Completed then r
                                  else Moved(r, CompletedAs(o, now), UserActor(o.requester), Action.ConfirmReceipt))
            && (result == Err(NotFound) <==> !Sees(o, caller, now))
            && (result.Err? ==> result.error in {NotFound, Forbidden, Precondition})
  {
    hide Transition, NewChange, AttemptsOk, HolderOk, CancellationsOk, FactsOk, WorkflowOk, OffersOk, FactsOf;
    var o, now, actor := r.order, Micros(clock), UserActor(caller.id);
    if caller.id == o.requester && o.status == Delivered {
      Completes(o, now);
      ChangeIsOwn(o, CompletedAs(o, now), actor, Action.ConfirmReceipt);
    } else if caller.id == o.requester && o.status == Completed {
      RepeatsItsOwn(o, Action.ConfirmReceipt, actor, Completed);
    } else {
      NotThisWay(o, Action.ConfirmReceipt, actor);
    }
  }

  // Closing by the clock

  function ExpiredAs(o: Order, now: Time): Order {
    o.(status := Expired, closedAt := Some(now), closeReason := Some("request_expired"), revision := o.revision + 1,
       updatedAt := now)
  }

  lemma Expires(o: Order, now: Time)
    requires o.status == AwaitingCourier && o.courier != Some(o.requester) && 0 <= o.revision
    ensures NewChange(Some(o), ExpiredAs(o, now), SYSTEM, Action.Expire).Ok?
  {
    AcceptedExactly(o, ExpiredAs(o, now), SYSTEM, Action.Expire);
  }

  /** An order expires exactly if it still awaits a courier at its expiry, and then no offer of it stays open or on its
      way to be accepted. */
  lemma ExpiredExactly(r: Record, now: Time)
    requires RecordOk(r)
    ensures ExpireOrder(r, now).Ok?
    ensures var o, r' := r.order, ExpireOrder(r, now).value;
            if o.status == AwaitingCourier && o.expiresAt <= now then
              && r' == Moved(r, ExpiredAs(o, now), SYSTEM, Action.Expire).(offers := r'.offers)
              && ClosesOffers(r.offers, r'.offers)
            else r' == r
  {
    hide NewChange, AttemptsOk, HolderOk, CancellationsOk, FactsOk, WorkflowOk, OffersOk, FactsOf;
    if r.order.status == AwaitingCourier {
      Expires(r.order, now);
      ChangeIsOwn(r.order, ExpiredAs(r.order, now), SYSTEM, Action.Expire);
    }
  }

  function TimedOutAs(o: Order, now: Time): Order {
    o.(status := Failed, closedAt := Some(now), closeReason := Some("delivery_timed_out"), revision := o.revision + 1,
       updatedAt := now)
  }

  lemma TimesOut(o: Order, now: Time)
    requires o.status == Delivering && o.courier != Some(o.requester) && 0 <= o.revision
    ensures NewChange(Some(o), TimedOutAs(o, now), SYSTEM, Action.Timeout).Ok?
  {
    AcceptedExactly(o, TimedOutAs(o, now), SYSTEM, Action.Timeout);
  }

  /** A delivery fails by the clock exactly if it is under way twice its allowance after pickup with no confirmation
      being validated. */
  lemma TimedOutExactly(r: Record, pending: bool, now: Time)
    requires RecordOk(r)
    ensures var o, result := r.order, TimeoutOrder(r, pending, now);
            && (o.status == Delivering ==> o.pickedUpAt.Some?)
            && result == Ok(if o.status == Delivering && !pending
                               && o.pickedUpAt.value + 2 * o.deliveryDuration <= now
                            then Moved(r, TimedOutAs(o, now), SYSTEM, Action.Timeout) else r)
  {
    hide NewChange, AttemptsOk, HolderOk, CancellationsOk, FactsOk, WorkflowOk, OffersOk, FactsOf;
    if r.order.status == Delivering {
      TimesOut(r.order, now);
      ChangeIsOwn(r.order, TimedOutAs(r.order, now), SYSTEM, Action.Timeout);
    }
  }

  // Delivery

  function DeliveredAs(o: Order, at: Time, unattended: bool, processedAt: Time): Order {
    o.(status := Delivered, deliveredAt := Some(at), unattended := unattended, revision := o.revision + 1,
       updatedAt := processedAt)
  }

  lemma Delivers(o: Order, courier: UserId, at: Time, unattended: bool, processedAt: Time)
    requires o.status == Delivering && o.courier == Some(courier) && courier != o.requester && 0 <= o.revision
    ensures Transition(o, Action.Deliver, UserActor(courier)) == Go(Delivered)
    ensures NewChange(Some(o), DeliveredAs(o, at, unattended, processedAt), UserActor(courier), Action.Deliver).Ok?
  {
    GoesByTheTable(o, Action.Deliver, UserActor(courier), Delivered);
    AcceptedExactly(o, DeliveredAs(o, at, unattended, processedAt), UserActor(courier), Action.Deliver);
  }

  /** A delivery is accepted exactly from the assigned courier of an order under way, received before twice the
      allowance after pickup; it keeps the instant it was received, not the one it was processed. */
  lemma DeliveredExactly(r: Record, courier: UserId, at: Time, unattended: bool, processedAt: Time)
    requires RecordOk(r)
    ensures var o, result := r.order, DeliverOrder(r, courier, at, unattended, processedAt);
            && (o.status == Delivering ==> o.pickedUpAt.Some?)
            && (if o.courier != Some(courier) then result == Err(NotFound)
                else if o.status == Delivering && at < o.pickedUpAt.value + 2 * o.deliveryDuration then
                  result == Ok(Moved(r, DeliveredAs(o, at, unattended, processedAt), UserActor(courier),
                                     Action.Deliver))
                else result == Err(Precondition))
  {
    hide Transition, NewChange, AttemptsOk, HolderOk, CancellationsOk, FactsOk, WorkflowOk, OffersOk, FactsOf;
    if r.order.status == Delivering && r.order.courier == Some(courier) {
      Delivers(r.order, courier, at, unattended, processedAt);
      ChangeIsOwn(r.order, DeliveredAs(r.order, at, unattended, processedAt), UserActor(courier), Action.Deliver);
    }
  }

  function LocatedAs(o: Order, location: OrderText, now: Time): Order {
    o.(itemLocation := Some(location), revision := o.revision + 1, updatedAt := now)
  }

  /** Where an undelivered item is left is the last courier's to say, of an order that was closed after pickup; the same
      place again changes nothing, and no fact tells of it. */
  lemma LocatedExactly(r: Record, caller: UserId, location: OrderText, clock: Time)
    requires RecordOk(r)
    ensures var o, result := r.order, RecordLocation(r, caller, location, clock);
            && (result.Ok? <==>
                  && 1 <= |location| <= 500 && o.courier == Some(caller) && o.pickedUpAt.Some?
                  && (o.status == Cancelled || o.status == Failed))
            && (result.Ok? ==>
                  result.value == if o.itemLocation == Some(location) then r
                                  else r.(order := LocatedAs(o, location, Micros(clock))))
            && (result == Err(Invalid) <==> !(1 <= |location| <= 500))
            && (result == Err(Forbidden) ==> caller == o.requester)
            && (result == Err(NotFound) ==> caller != o.requester && o.courier != Some(caller))
  {
    hide NewChange, AttemptsOk, HolderOk, CancellationsOk, FactsOk, WorkflowOk, OffersOk;
    var o, after := r.order, LocatedAs(r.order, location, Micros(clock));
    AcceptedExactly(o, after, UserActor(caller), Action.RecordItemLocation);
    if NewChange(Some(o), after, UserActor(caller), Action.RecordItemLocation).Ok? {
      ChangeIsOwn(o, after, UserActor(caller), Action.RecordItemLocation);
    }
  }
}
