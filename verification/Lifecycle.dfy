/** The lifecycle as one table of moves and one of amendments, the owner of every field, and exactly the changes that
    these accept. */
module Lifecycle {
  import opened Common
  import opened Orders

  // What an actor is to an order.
  datatype Relation = TheRequester | TheCourier | AnotherUser | AnAdmin | TheSystem

  function RelationOf(o: Order, actor: Actor): Relation {
    match actor.kind
    case System => TheSystem
    case Admin => AnAdmin
    case User =>
      if actor.id == Some(o.requester) then TheRequester
      else if actor.id.Some? && actor.id == o.courier then TheCourier
      else AnotherUser
  }

  predicate HasName(actor: Actor) {
    actor.kind == System || actor.id.Some?
  }

  function When(holds: bool, target: Status): Option<Status> {
    if holds then Some(target) else None
  }

  // Every move there is: which status an action leaves, in whose hands, and where it leads. An order that awaits a
  // courier has none, so that courier's Assign is there for completeness.
  function TargetOf(source: Status, action: Action, who: Relation): Option<Status> {
    match action
    case ConfirmReservation => When(source == PendingReservation && who == TheSystem, AwaitingCourier)
    case RefuseReservation => When(source == PendingReservation && who == TheSystem, Rejected)
    case Assign => When(source == AwaitingCourier && (who == AnotherUser || who == TheCourier), AwaitingPickup)
    case AcceptCounteroffer => When(source == AwaitingCourier && who == TheRequester, AwaitingPickup)
    case Expire => When(source == AwaitingCourier && who == TheSystem, Expired)
    case Pickup => When(source == AwaitingPickup && who == TheCourier, Delivering)
    case Withdraw => When(source == AwaitingPickup && who == TheCourier, AwaitingCourier)
    case Unassign => When(source == AwaitingPickup && who == AnAdmin, AwaitingCourier)
    case Deliver => When(source == Delivering && who == TheCourier, Delivered)
    case Timeout => When(source == Delivering && who == TheSystem, Failed)
    case ConfirmReceipt => When(source == Delivered && who == TheRequester, Completed)
    case Cancel =>
      if source == Delivering && who == TheCourier then Some(Failed)
      else When(|| (who == TheRequester && source in {AwaitingCourier, AwaitingPickup, Delivering})
                || (who == AnAdmin && source in {AwaitingCourier, AwaitingPickup}), Cancelled)
    case _ => None
  }

  // The statuses that an action leaves, in whoever's hands.
  predicate IsOnTheTable(source: Status, action: Action) {
    match action
    case ConfirmReservation => source == PendingReservation
    case RefuseReservation => source == PendingReservation
    case Assign => source == AwaitingCourier
    case AcceptCounteroffer => source == AwaitingCourier
    case Expire => source == AwaitingCourier
    case Pickup => source == AwaitingPickup
    case Withdraw => source == AwaitingPickup
    case Unassign => source == AwaitingPickup
    case Deliver => source == Delivering
    case Timeout => source == Delivering
    case ConfirmReceipt => source == Delivered
    case Cancel => source == AwaitingCourier || source == AwaitingPickup || source == Delivering
    case _ => false
  }

  lemma SomebodyTakesIt(source: Status, action: Action)
    ensures IsOnTheTable(source, action) <==>
            || TargetOf(source, action, TheRequester).Some? || TargetOf(source, action, TheCourier).Some?
            || TargetOf(source, action, AnAdmin).Some? || TargetOf(source, action, TheSystem).Some?
    ensures TargetOf(source, action, AnotherUser).Some? ==> IsOnTheTable(source, action)
  {}

  // A withdrawal on its way holds the pickup back.
  predicate IsHeldBack(o: Order, action: Action) {
    action == Pickup && o.pendingCancellation.Some?
  }

  /** It answers a repeat exactly to the participant whose own success the order shows. */
  lemma RepeatsItsOwn(o: Order, action: Action, actor: Actor, status: Status)
    requires o.courier != Some(o.requester)
    ensures Transition(o, action, actor) == Repeat(status) <==>
            && HasName(actor) && !IsHeldBack(o, action) && status == o.status
            && (|| (action == Assign && status == AwaitingPickup && RelationOf(o, actor) == TheCourier)
                || (action == Pickup && status == Delivering && RelationOf(o, actor) == TheCourier)
                || (action == ConfirmReceipt && status == Completed && RelationOf(o, actor) == TheRequester))
  {}

  // The relation that an actor's kind and participation make.
  function Related(k: ActorKind, requester: bool, courier: bool): Relation {
    match k
    case System => TheSystem
    case Admin => AnAdmin
    case User => if requester then TheRequester else if courier then TheCourier else AnotherUser
  }

  lemma AllowedByTheTable(s: Status, action: Action, k: ActorKind, requester: bool, courier: bool)
    requires (requester || courier ==> k == User) && !(requester && courier)
    ensures IsActionAllowed(s, action, k, requester, courier)
       <==> TargetOf(s, action, Related(k, requester, courier)).Some?
  {}

  lemma GoIsTabled(o: Order, action: Action, actor: Actor)
    requires o.courier != Some(o.requester) && Transition(o, action, actor).Go?
    ensures HasName(actor) && !IsHeldBack(o, action)
    ensures TargetOf(o.status, action, RelationOf(o, actor)) == Some(Transition(o, action, actor).next)
  {}

  lemma TabledGoes(o: Order, action: Action, actor: Actor)
    requires o.courier != Some(o.requester) && HasName(actor) && !IsHeldBack(o, action)
    requires TargetOf(o.status, action, RelationOf(o, actor)).Some?
    ensures Transition(o, action, actor).Go?
  {}

  /** Transition moves an order exactly along the table. */
  lemma GoesByTheTable(o: Order, action: Action, actor: Actor, next: Status)
    requires o.courier != Some(o.requester)
    ensures Transition(o, action, actor) == Go(next) <==>
            && HasName(actor) && !IsHeldBack(o, action)
            && TargetOf(o.status, action, RelationOf(o, actor)) == Some(next)
  {
    hide Transition, TargetOf, HasName, IsHeldBack;
    if Transition(o, action, actor).Go? {
      GoIsTabled(o, action, actor);
    } else if HasName(actor) && !IsHeldBack(o, action) && TargetOf(o.status, action, RelationOf(o, actor)).Some? {
      TabledGoes(o, action, actor);
    }
  }

  lemma OthersAreOnTheTable(o: Order, action: Action)
    requires o.courier != Some(o.requester)
    ensures IsForOthers(o, action) <==> IsOnTheTable(o.status, action)
  {
    hide IsActionAllowed, TargetOf, IsOnTheTable;
    var s := o.status;
    assert !o.IsAssignedTo(Some(o.requester));
    AllowedByTheTable(s, action, System, false, false);
    AllowedByTheTable(s, action, Admin, false, false);
    AllowedByTheTable(s, action, User, true, false);
    AllowedByTheTable(s, action, User, false, true);
    SomebodyTakesIt(s, action);
  }

  lemma TerminalIsOff(source: Status, action: Action)
    requires IsTerminal(source)
    ensures !IsOnTheTable(source, action)
  {}

  /** Every other answer is a refusal. It blames the actor exactly for a missing name, for a requester who would carry
      their own order, or when the table has the move for somebody else; otherwise it blames the order's state. */
  lemma RefusesTheRest(o: Order, action: Action, actor: Actor)
    requires o.courier != Some(o.requester) && Transition(o, action, actor).Deny?
    ensures Transition(o, action, actor).error ==
            if || !HasName(actor)
               || (action == Assign && RelationOf(o, actor) == TheRequester)
               || (!IsHeldBack(o, action) && IsOnTheTable(o.status, action))
            then Forbidden else Precondition
  {
    hide IsForOthers, IsOnTheTable;
    OthersAreOnTheTable(o, action);
    if IsTerminal(o.status) {
      TerminalIsOff(o.status, action);
    }
  }

  // The actions that may change each field; status, revision and the instant of the change go with every one.
  predicate KeepsOthersFields(o: Order, after: Order, action: Action) {
    && action != Create && after.id == o.id && after.requester == o.requester && after.details == o.details
    && after.deliveryDuration == o.deliveryDuration && after.expiresAt == o.expiresAt && after.createdAt == o.createdAt
    && (after.courier != o.courier || after.assignedAt != o.assignedAt ==>
          action in {Assign, AcceptCounteroffer, Withdraw, Unassign})
    && (action == Withdraw || action == Unassign ==> after.courier.None? && after.assignedAt.None?)
    && (after.reward != o.reward ==> action in {Assign, AcceptCounteroffer, Withdraw})
    && (after.reserved != o.reserved ==> action in {Assign, AcceptCounteroffer, Withdraw, ConfirmReservation})
    && (after.pickedUpAt != o.pickedUpAt ==> action == Pickup)
    && (after.deliveredAt != o.deliveredAt || after.unattended != o.unattended ==> action == Deliver)
    && (after.completedAt != o.completedAt ==> action == ConfirmReceipt)
    && (after.closedAt != o.closedAt || after.closeReason != o.closeReason ==>
          action in {Cancel, Expire, Timeout, RefuseReservation})
    && (after.itemLocation != o.itemLocation ==> action == RecordItemLocation)
    && (after.pendingCancellation != o.pendingCancellation ==>
          action in {Cancel, Expire, Timeout, RefuseReservation, Withdraw, Unassign, BeginWithdrawal})
  }

  /** An action leaves every field alone that it does not own. */
  lemma FieldsAreOwned(o: Order, after: Order, action: Action)
    ensures Allowed(o, after, action) == Some(after) <==> KeepsOthersFields(o, after, action)
  {}

  // Changes that keep the status.
  predicate IsAmendment(o: Order, after: Order, action: Action, who: Relation) {
    match action
    case ProposeOffer => o.status == AwaitingCourier && (who == AnotherUser || who == TheCourier)
    case BeginAssignment => o.status == AwaitingCourier && who !in {AnAdmin, TheSystem}
    case ResolveAssignment => who !in {AnAdmin, TheSystem}
    case BeginWithdrawal =>
      && o.status == AwaitingPickup && who == TheCourier
      && o.pendingCancellation.None? && after.pendingCancellation.Some?
    case RecordItemLocation =>
      (o.status == Cancelled || o.status == Failed) && who == TheCourier && o.pickedUpAt.Some?
    case _ => false
  }

  // A move along the table that makes nobody but another user the courier.
  predicate IsMove(o: Order, after: Order, action: Action, actor: Actor) {
    && TargetOf(o.status, action, RelationOf(o, actor)) == Some(after.status) && !IsHeldBack(o, action)
    && (action == Assign ==> after.courier.Some? && after.courier == actor.id)
    && (action == AcceptCounteroffer ==> after.courier.Some? && after.courier != Some(o.requester))
  }

  lemma AmendsByTheTable(o: Order, after: Order, actor: Actor, action: Action)
    requires HasName(actor) && o.courier != Some(o.requester)
    ensures AmendmentRefusal(o, after, actor, action).None? <==> IsAmendment(o, after, action, RelationOf(o, actor))
  {}

  lemma MovesByTheTable(o: Order, after: Order, actor: Actor, action: Action)
    requires HasName(actor) && o.courier != Some(o.requester)
    ensures MoveRefusal(o, after, actor, action).None? <==> IsMove(o, after, action, actor)
  {
    hide Transition, TargetOf, IsHeldBack;
    GoesByTheTable(o, action, actor, after.status);
  }

  /** A change of an order is accepted exactly if it takes the next revision, touches only fields that its action owns,
      and is a move of the table or one of the amendments, in the right hands. */
  lemma AcceptedExactly(o: Order, after: Order, actor: Actor, action: Action)
    requires o.courier != Some(o.requester)
    ensures NewChange(Some(o), after, actor, action).Ok? <==>
            && HasName(actor) && 0 < after.revision == o.revision + 1
            && KeepsOthersFields(o, after, action)
            && (if after.status != o.status then IsMove(o, after, action, actor)
                else IsAmendment(o, after, action, RelationOf(o, actor)))
  {
    hide Allowed, AmendmentRefusal, MoveRefusal, IsMove, IsAmendment, FactsOf;
    if HasName(actor) {
      AmendsByTheTable(o, after, actor, action);
      MovesByTheTable(o, after, actor, action);
    }
    FieldsAreOwned(o, after, action);
  }

  /** An order is born exactly as its requester's own first revision. */
  lemma BornExactly(after: Order, actor: Actor, action: Action)
    ensures NewChange(None, after, actor, action).Ok? <==>
            && action == Create && after.status == PendingReservation && after.revision == 1
            && actor == UserActor(after.requester)
  {}

  /** Who did what: every accepted move was made by the participant it belongs to. */
  lemma WhoMayDoWhat(o: Order, after: Order, actor: Actor, action: Action)
    requires o.courier != Some(o.requester) && NewChange(Some(o), after, actor, action).Ok?
    ensures action == Pickup || action == Deliver || action == Withdraw || action == BeginWithdrawal ==>
              o.courier.Some? && actor == UserActor(o.courier.value)
    ensures action == ConfirmReceipt || action == AcceptCounteroffer ==> actor == UserActor(o.requester)
    ensures action == Assign || action == ProposeOffer ==>
              actor.kind == User && actor.id.Some? && actor.id != Some(o.requester)
    ensures action == Cancel ==>
              || actor == UserActor(o.requester)
              || (actor.kind == Admin && o.status != Delivering)
              || (actor.kind == User && actor.id == o.courier && o.status == Delivering && after.status == Failed)
    ensures action in {ConfirmReservation, RefuseReservation, Expire, Timeout} <==> actor.kind == System
  {
    hide NewChange, KeepsOthersFields;
    AcceptedExactly(o, after, actor, action);
  }

  /** A courier is warned exactly when a delivery under way fails: by their own cancellation or by the timeout. */
  lemma WarnedExactly(o: Order, after: Order, actor: Actor, action: Action, f: Fact)
    requires o.courier.Some? && o.courier != Some(o.requester) && (o.status == Delivering ==> o.pickedUpAt.Some?)
    requires NewChange(Some(o), after, actor, action).Ok? && f.kind == CourierWarning
    ensures f in NewChange(Some(o), after, actor, action).value.facts <==>
            && o.status == Delivering && after.status == Failed
            && f == Fact(CourierWarning, 1, PayloadOf(Some(o), after, action))
  {
    hide KeepsOthersFields, PayloadOf;
    AcceptedExactly(o, after, actor, action);
  }
}
