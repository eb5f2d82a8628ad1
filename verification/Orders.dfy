/** The order lifecycle: who may do what in which status, which fields an action owns, and which facts every
    accepted change emits. */
module Orders {
  import opened Common

  datatype Status =
    | PendingReservation
    | AwaitingCourier
    | AwaitingPickup
    | Delivering
    | Delivered
    | Completed
    | Cancelled
    | Expired
    | Failed
    | Rejected

  predicate IsTerminal(s: Status) {
    s == Completed || s == Cancelled || s == Expired || s == Failed || s == Rejected
  }

  datatype ActorKind = User | Admin | System

  // None stands for an empty identifier.
  datatype Actor = Actor(kind: ActorKind, id: Option<UserId>)

  const SYSTEM: Actor := Actor(System, None)

  function UserActor(id: UserId): Actor {
    Actor(User, Some(id))
  }

  predicate IsIdentified(actor: Actor) {
    actor.kind == System || actor.id.Some?
  }

  datatype Action =
    | Create
    | ConfirmReservation
    | RefuseReservation
    | Assign
    | AcceptCounteroffer
    | Cancel
    | Expire
    | Pickup
    | Withdraw
    | Unassign
    | Deliver
    | Timeout
    | ConfirmReceipt
    | RecordItemLocation
    | ProposeOffer
    | BeginAssignment
    | ResolveAssignment
    | BeginWithdrawal

  datatype Error =
    | NotFound
    | Forbidden
    | Invalid
    | Precondition
    | Conflict
    | AlreadyExists
    | Integrity
    | Unavailable

  type OrderText = string

  // details stands for the location snapshots, instructions and item description, fixed at creation.
  datatype Order = Order(
    id: OrderId,
    requester: UserId,
    courier: Option<UserId>,
    status: Status,
    details: OrderText,
    reward: int,
    reserved: int,
    deliveryDuration: int,
    expiresAt: Time,
    assignedAt: Option<Time>,
    pickedUpAt: Option<Time>,
    deliveredAt: Option<Time>,
    completedAt: Option<Time>,
    closedAt: Option<Time>,
    closeReason: Option<OrderText>,
    itemLocation: Option<OrderText>,
    unattended: bool,
    pendingCancellation: Option<nat>,
    revision: int,
    createdAt: Time,
    updatedAt: Time)
  {
    predicate IsRequestedBy(id: Option<UserId>) {
      id == Some(requester)
    }

    predicate IsAssignedTo(id: Option<UserId>) {
      id.Some? && courier == id
    }

    predicate HasParticipant(id: Option<UserId>) {
      IsRequestedBy(id) || IsAssignedTo(id)
    }
  }

  // Lifecycle

  predicate IsActionAllowed(s: Status, a: Action, k: ActorKind, requester: bool, courier: bool) {
    match s
    case PendingReservation => k == System && (a == ConfirmReservation || a == RefuseReservation)
    case AwaitingCourier =>
      || (a == Assign && k == User && !requester)
      || (a == AcceptCounteroffer && requester)
      || (a == Cancel && (requester || k == Admin))
      || (a == Expire && k == System)
    case AwaitingPickup =>
      || (a == Pickup && courier)
      || (a == Cancel && (requester || k == Admin))
      || (a == Withdraw && courier)
      || (a == Unassign && k == Admin)
    case Delivering =>
      (a == Deliver && courier) || (a == Cancel && (requester || courier)) || (a == Timeout && k == System)
    case Delivered => a == ConfirmReceipt && requester
    case _ => false
  }

  // None for actions that name no destination.
  function DestinationOf(a: Action, courier: bool): Option<Status> {
    match a
    case ConfirmReservation => Some(AwaitingCourier)
    case RefuseReservation => Some(Rejected)
    case Assign => Some(AwaitingPickup)
    case AcceptCounteroffer => Some(AwaitingPickup)
    case Cancel => Some(if courier then Failed else Cancelled)
    case Expire => Some(Expired)
    case Pickup => Some(Delivering)
    case Withdraw => Some(AwaitingCourier)
    case Unassign => Some(AwaitingCourier)
    case Deliver => Some(Delivered)
    case Timeout => Some(Failed)
    case ConfirmReceipt => Some(Completed)
    case _ => None
  }

  datatype Decision = Go(next: Status) | Repeat(status: Status) | Deny(error: Error)

  // Only persisted evidence of the same participant's success proves a repeat.
  predicate IsRepeat(o: Order, action: Action, requester: bool, courier: bool) {
    || (action == Assign && o.status == AwaitingPickup && courier)
    || (action == Pickup && o.status == Delivering && courier)
    || (action == ConfirmReceipt && o.status == Completed && requester)
  }

  // Some other actor could perform the action now.
  predicate IsForOthers(o: Order, action: Action) {
    || IsActionAllowed(o.status, action, System, false, false)
    || IsActionAllowed(o.status, action, Admin, false, false)
    || IsActionAllowed(o.status, action, User, true, o.IsAssignedTo(Some(o.requester)))
    || IsActionAllowed(o.status, action, User, false, true)
  }

  function Transition(o: Order, action: Action, actor: Actor): Decision {
    if !IsIdentified(actor) then Deny(Forbidden)
    else if action == Pickup && o.pendingCancellation.Some? then Deny(Precondition)
    else
      var requester := actor.kind == User && o.IsRequestedBy(actor.id);
      var courier := actor.kind == User && o.IsAssignedTo(actor.id);
      if action == Assign && requester then Deny(Forbidden)
      else if IsRepeat(o, action, requester, courier) then Repeat(o.status)
      else if IsTerminal(o.status) then Deny(Precondition)
      else if IsActionAllowed(o.status, action, actor.kind, requester, courier) then
        match DestinationOf(action, courier)
        case Some(next) => Go(next)
        case None => Deny(Precondition)
      else Deny(if IsForOthers(o, action) then Forbidden else Precondition)
  }

  // The fields an action may change, taken from after; every other field keeps its earlier value.
  function Allowed(before: Order, after: Order, action: Action): Option<Order> {
    var e := before.(status := after.status, revision := after.revision, updatedAt := after.updatedAt);
    match action
    case Assign =>
      Some(e.(courier := after.courier, assignedAt := after.assignedAt,
              reward := after.reward, reserved := after.reserved))
    case AcceptCounteroffer =>
      Some(e.(courier := after.courier, assignedAt := after.assignedAt,
              reward := after.reward, reserved := after.reserved))
    case ConfirmReservation => Some(e.(reserved := after.reserved))
    case Pickup => Some(e.(pickedUpAt := after.pickedUpAt))
    case Deliver => Some(e.(deliveredAt := after.deliveredAt, unattended := after.unattended))
    case ConfirmReceipt => Some(e.(completedAt := after.completedAt))
    case Cancel => Some(Closed(e, after))
    case Expire => Some(Closed(e, after))
    case Timeout => Some(Closed(e, after))
    case RefuseReservation => Some(Closed(e, after))
    case Withdraw =>
      if after.courier.Some? || after.assignedAt.Some? then None
      else Some(e.(pendingCancellation := after.pendingCancellation, courier := None, assignedAt := None,
                   reward := after.reward, reserved := after.reserved))
    case Unassign =>
      if after.courier.Some? || after.assignedAt.Some? then None
      else Some(e.(pendingCancellation := after.pendingCancellation, courier := None, assignedAt := None))
    case BeginWithdrawal => Some(e.(pendingCancellation := after.pendingCancellation))
    case ProposeOffer => Some(e)
    case BeginAssignment => Some(e)
    case ResolveAssignment => Some(e)
    case RecordItemLocation => Some(e.(itemLocation := after.itemLocation))
    case Create => None
  }

  function Closed(e: Order, after: Order): Order {
    e.(pendingCancellation := after.pendingCancellation, closedAt := after.closedAt, closeReason := after.closeReason)
  }

  // Facts

  datatype FactKind = StatusChanged | Outcome | CourierWarning

  datatype Payload = Payload(
    order: OrderId,
    revision: int,
    requester: UserId,
    courier: Option<UserId>,
    previousCourier: Option<UserId>,
    previousStatus: Option<Status>,
    status: Status,
    action: Action,
    reserved: int,
    deliveryDuration: int,
    pickedUpAt: Option<Time>,
    deliveredAt: Option<Time>,
    afterPickup: bool,
    at: Time)

  datatype Fact = Fact(kind: FactKind, version: nat, payload: Payload)

  datatype Change = Change(
    expectedRevision: int,
    order: Order,
    actor: Actor,
    action: Action,
    previousStatus: Option<Status>,
    facts: seq<Fact>)

  function PayloadOf(before: Option<Order>, after: Order, action: Action): Payload {
    Payload(after.id, after.revision, after.requester, after.courier,
            if before.Some? then before.value.courier else None,
            if before.Some? then Some(before.value.status) else None,
            after.status, action, after.reserved, after.deliveryDuration, after.pickedUpAt, after.deliveredAt,
            after.pickedUpAt.Some?, after.updatedAt)
  }

  // Rejected orders held nothing, so they end without an outcome.
  predicate HasOutcome(s: Status) {
    s == Completed || s == Cancelled || s == Expired || s == Failed
  }

  predicate WarnsCourier(before: Option<Order>, after: Order, actor: Actor, action: Action) {
    && before.Some? && before.value.status == Delivering
    && (|| (action == Cancel && actor.kind == User && after.IsAssignedTo(actor.id))
        || (action == Timeout && actor.kind == System && after.pickedUpAt.Some? && after.courier.Some?))
  }

  function FactsOf(before: Option<Order>, after: Order, actor: Actor, action: Action): seq<Fact> {
    if before.Some? && before.value.status == after.status then []
    else
      var payload := PayloadOf(before, after, action);
      [Fact(StatusChanged, 1, payload)]
      + (if HasOutcome(after.status) then [Fact(Outcome, 1, payload)] else [])
      + (if WarnsCourier(before, after, actor, action) then [Fact(CourierWarning, 1, payload)] else [])
  }

  // Changes that keep the status.
  function AmendmentRefusal(before: Order, after: Order, actor: Actor, action: Action): Option<Error> {
    match action
    case BeginWithdrawal =>
      if actor.kind != User || before.status != AwaitingPickup || !before.IsAssignedTo(actor.id)
         || before.pendingCancellation.Some? || after.pendingCancellation.None?
      then Some(Precondition) else None
    case RecordItemLocation =>
      if actor.kind != User || !before.IsAssignedTo(actor.id) || before.pickedUpAt.None?
         || (before.status != Cancelled && before.status != Failed)
      then Some(Precondition) else None
    case ProposeOffer =>
      if actor.kind != User || before.status != AwaitingCourier || before.IsRequestedBy(actor.id)
      then Some(Forbidden) else None
    case BeginAssignment =>
      if actor.kind != User || before.status != AwaitingCourier then Some(Forbidden) else None
    case ResolveAssignment => if actor.kind != User then Some(Forbidden) else None
    case _ => Some(Precondition)
  }

  function MoveRefusal(before: Order, after: Order, actor: Actor, action: Action): Option<Error> {
    match Transition(before, action, actor)
    case Deny(e) => Some(e)
    case Repeat(_) => Some(Precondition)
    case Go(next) =>
      if next != after.status then Some(Precondition)
      else if action == Assign && !after.IsAssignedTo(actor.id) then Some(Invalid)
      else if action == AcceptCounteroffer
           && (after.courier.None? || after.IsAssignedTo(Some(before.requester))) then Some(Invalid)
      else None
  }

  // Audit details, which are bounded valid JSON, are not modelled.
  function NewChange(before: Option<Order>, after: Order, actor: Actor, action: Action): Result<Change, Error> {
    var expected := if before.Some? then before.value.revision else 0;
    var previous := if before.Some? then Some(before.value.status) else None;
    if before.Some? && before.value.id != after.id then Err(Invalid)
    else if after.revision <= 0 || after.revision != expected + 1
         || (before.None? && (after.status != PendingReservation || action != Create)) then Err(Invalid)
    else if !IsIdentified(actor) then Err(Forbidden)
    else
      match before
      case None =>
        if actor.kind != User || !after.IsRequestedBy(actor.id) then Err(Forbidden)
        else Ok(Change(expected, after, actor, action, previous, FactsOf(before, after, actor, action)))
      case Some(b) =>
        var refusal := if b.status != after.status then MoveRefusal(b, after, actor, action)
                       else AmendmentRefusal(b, after, actor, action);
        if refusal.Some? then Err(refusal.value)
        else if Allowed(b, after, action) != Some(after) then Err(Invalid)
        else Ok(Change(expected, after, actor, action, previous, FactsOf(before, after, actor, action)))
  }

  // Lives: everything that can ever happen to one order, change by change

  datatype Step = Step(after: Order, actor: Actor, action: Action)

  // The order before step i.
  function Before(life: seq<Step>, i: nat): Option<Order>
    requires i <= |life|
  {
    if i == 0 then None else Some(life[i - 1].after)
  }

  function Accepted(life: seq<Step>, i: nat): Result<Change, Error>
    requires i < |life|
  {
    NewChange(Before(life, i), life[i].after, life[i].actor, life[i].action)
  }

  ghost predicate IsLife(life: seq<Step>) {
    forall i :: 0 <= i < |life| ==> Accepted(life, i).Ok?
  }

  function FactsUpTo(life: seq<Step>, n: nat): seq<Fact>
    requires n <= |life|
  {
    if n == 0 then []
    else
      FactsUpTo(life, n - 1)
      + FactsOf(Before(life, n - 1), life[n - 1].after, life[n - 1].actor, life[n - 1].action)
  }

  // Fixed once the courier has picked the item up, and in every terminal status.
  ghost predicate IsCommitted(s: Status) {
    s == Delivering || s == Delivered || IsTerminal(s)
  }

  // What no accepted change moves; a committed order also keeps its courier and amounts.
  ghost predicate Keeps(o: Order, o': Order) {
    && o'.id == o.id && o'.requester == o.requester && o'.details == o.details
    && o'.deliveryDuration == o.deliveryDuration && o'.expiresAt == o.expiresAt && o'.createdAt == o.createdAt
    && (IsTerminal(o.status) ==> o'.status == o.status)
    && (IsCommitted(o.status) ==>
          && IsCommitted(o'.status) && o'.courier == o.courier && o'.assignedAt == o.assignedAt
          && o'.pickedUpAt == o.pickedUpAt && o'.reward == o.reward && o'.reserved == o.reserved)
  }

  lemma ChangeKeeps(o: Order, step: Step)
    requires NewChange(Some(o), step.after, step.actor, step.action).Ok?
    ensures Keeps(o, step.after)
  {}

  /** Over any life: creation data never change; a terminal status is final; from pickup on the courier, the
      assignment and the amounts never change. */
  lemma {:induction false} LifeKeeps(life: seq<Step>, i: nat, j: nat)
    requires IsLife(life) && i <= j < |life|
    ensures Keeps(life[i].after, life[j].after)
    decreases j - i
  {
    if i < j {
      LifeKeeps(life, i, j - 1);
      assert Accepted(life, j).Ok?;
      ChangeKeeps(life[j - 1].after, life[j]);
    }
  }

  lemma {:induction false} Revisions(life: seq<Step>, i: nat)
    requires IsLife(life) && i < |life|
    ensures life[i].after.revision == i + 1
  {
    assert Accepted(life, i).Ok?;
    if i > 0 {
      Revisions(life, i - 1);
    }
  }

  function Count(facts: seq<Fact>, kind: FactKind): nat {
    if facts == [] then 0
    else Count(facts[..|facts| - 1], kind) + if facts[|facts| - 1].kind == kind then 1 else 0
  }

  lemma {:induction false} CountAppend(a: seq<Fact>, b: seq<Fact>, kind: FactKind)
    ensures Count(a + b, kind) == Count(a, kind) + Count(b, kind)
    decreases |b|
  {
    if b == [] {
      assert a + b == a;
    } else {
      assert (a + b)[..|a + b| - 1] == a + b[..|b| - 1];
      CountAppend(a, b[..|b| - 1], kind);
    }
  }

  lemma CountOne(f: Fact, kind: FactKind)
    ensures Count([f], kind) == if f.kind == kind then 1 else 0
  {
    assert [f][..0] == [];
  }

  lemma FactsCounted(before: Option<Order>, after: Order, actor: Actor, action: Action)
    ensures Count(FactsOf(before, after, actor, action), Outcome) ==
            if (before.None? || before.value.status != after.status) && HasOutcome(after.status) then 1 else 0
    ensures Count(FactsOf(before, after, actor, action), StatusChanged) ==
            if before.None? || before.value.status != after.status then 1 else 0
  {
    var payload := PayloadOf(before, after, action);
    forall kind
      ensures Count(FactsOf(before, after, actor, action), kind) ==
              if before.Some? && before.value.status == after.status then 0
              else (if kind == StatusChanged then 1 else 0)
                   + (if kind == Outcome && HasOutcome(after.status) then 1 else 0)
                   + (if kind == CourierWarning && WarnsCourier(before, after, actor, action) then 1 else 0)
    {
      if before.None? || before.value.status != after.status {
        var status := [Fact(StatusChanged, 1, payload)];
        var outcome := if HasOutcome(after.status) then [Fact(Outcome, 1, payload)] else [];
        var warning := if WarnsCourier(before, after, actor, action) then [Fact(CourierWarning, 1, payload)] else [];
        CountAppend(status + outcome, warning, kind);
        CountAppend(status, outcome, kind);
        CountOne(Fact(StatusChanged, 1, payload), kind);
        CountOne(Fact(Outcome, 1, payload), kind);
        CountOne(Fact(CourierWarning, 1, payload), kind);
      }
    }
  }

  /** An order that has ended in any way but rejection has emitted exactly one outcome fact; any other order none. */
  lemma {:induction false} OneOutcomePerEnd(life: seq<Step>, n: nat)
    requires IsLife(life) && 0 < n <= |life|
    ensures Count(FactsUpTo(life, n), Outcome) == if HasOutcome(life[n - 1].after.status) then 1 else 0
  {
    var step := life[n - 1];
    FactsCounted(Before(life, n - 1), step.after, step.actor, step.action);
    CountAppend(FactsUpTo(life, n - 1), FactsOf(Before(life, n - 1), step.after, step.actor, step.action), Outcome);
    assert Accepted(life, n - 1).Ok?;
    if n > 1 {
      OneOutcomePerEnd(life, n - 1);
      ChangeKeeps(life[n - 2].after, step);
    }
  }

  function StatusFacts(facts: seq<Fact>): seq<Fact> {
    if facts == [] then []
    else
      StatusFacts(facts[..|facts| - 1])
      + if facts[|facts| - 1].kind == StatusChanged then [facts[|facts| - 1]] else []
  }

  // Each status fact starts where the one before it ended, at a later revision.
  ghost predicate IsChain(facts: seq<Fact>) {
    && (facts != [] ==> facts[0].payload.previousStatus.None?)
    && forall i :: 0 < i < |facts| ==>
         && facts[i].payload.previousStatus == Some(facts[i - 1].payload.status)
         && facts[i].payload.previousCourier == facts[i - 1].payload.courier
         && facts[i - 1].payload.revision < facts[i].payload.revision
  }

  lemma {:induction false} StatusFactsAppend(a: seq<Fact>, b: seq<Fact>)
    ensures StatusFacts(a + b) == StatusFacts(a) + StatusFacts(b)
    decreases |b|
  {
    if b == [] {
      assert a + b == a;
    } else {
      assert (a + b)[..|a + b| - 1] == a + b[..|b| - 1];
      StatusFactsAppend(a, b[..|b| - 1]);
    }
  }

  lemma NoStatusFacts()
    ensures StatusFacts([]) == []
  {}

  lemma StatusFactsOfOne(f: Fact)
    ensures StatusFacts([f]) == if f.kind == StatusChanged then [f] else []
  {
    assert [f][..0] == [];
  }

  lemma OneStatusFact(before: Option<Order>, after: Order, actor: Actor, action: Action)
    ensures StatusFacts(FactsOf(before, after, actor, action)) ==
            if before.Some? && before.value.status == after.status then []
            else [Fact(StatusChanged, 1, PayloadOf(before, after, action))]
  {
    hide StatusFacts, PayloadOf, HasOutcome, WarnsCourier;
    NoStatusFacts();
    if before.None? || before.value.status != after.status {
      var payload := PayloadOf(before, after, action);
      var status := [Fact(StatusChanged, 1, payload)];
      var outcome := if HasOutcome(after.status) then [Fact(Outcome, 1, payload)] else [];
      var warning := if WarnsCourier(before, after, actor, action) then [Fact(CourierWarning, 1, payload)] else [];
      StatusFactsAppend(status + outcome, warning);
      StatusFactsAppend(status, outcome);
      StatusFactsOfOne(Fact(StatusChanged, 1, payload));
      StatusFactsOfOne(Fact(Outcome, 1, payload));
      StatusFactsOfOne(Fact(CourierWarning, 1, payload));
    }
  }

  // The facts told so far end where the order stands.
  ghost predicate Tells(told: seq<Fact>, o: Order) {
    && IsChain(told) && told != []
    && var last := told[|told| - 1].payload;
       && last.order == o.id && last.requester == o.requester
       && last.status == o.status && last.courier == o.courier && last.revision <= o.revision
  }

  // An amendment never moves the courier.
  lemma AmendmentKeepsCourier(o: Order, step: Step)
    requires NewChange(Some(o), step.after, step.actor, step.action).Ok?
    ensures step.after.revision == o.revision + 1 && step.after.id == o.id && step.after.requester == o.requester
    ensures o.status == step.after.status ==> step.after.courier == o.courier
  {}

  lemma ChainGrows(told: seq<Fact>, o: Order, f: Fact)
    requires Tells(told, o) && f.payload.previousStatus == Some(o.status) && f.payload.previousCourier == o.courier
    requires o.revision < f.payload.revision
    ensures IsChain(told + [f])
  {}

  lemma ToldNext(told: seq<Fact>, o: Order, step: Step)
    requires Tells(told, o) && NewChange(Some(o), step.after, step.actor, step.action).Ok?
    ensures o.status == step.after.status ==> Tells(told, step.after)
    ensures Tells(told + [Fact(StatusChanged, 1, PayloadOf(Some(o), step.after, step.action))], step.after)
  {
    AmendmentKeepsCourier(o, step);
    ChainGrows(told, o, Fact(StatusChanged, 1, PayloadOf(Some(o), step.after, step.action)));
  }

  lemma ToldFirst(step: Step)
    requires NewChange(None, step.after, step.actor, step.action).Ok?
    ensures Tells([Fact(StatusChanged, 1, PayloadOf(None, step.after, step.action))], step.after)
  {}

  /** Reading an order's status facts in order tells its whole status history, ending at its present status and
      courier. */
  lemma {:induction false} StatusFactsTellTheLife(life: seq<Step>, n: nat)
    requires IsLife(life) && 0 < n <= |life|
    ensures Tells(StatusFacts(FactsUpTo(life, n)), life[n - 1].after)
  {
    hide NewChange, FactsOf, PayloadOf, Tells, StatusFacts;
    var step := life[n - 1];
    var earlier := StatusFacts(FactsUpTo(life, n - 1));
    OneStatusFact(Before(life, n - 1), step.after, step.actor, step.action);
    StatusFactsAppend(FactsUpTo(life, n - 1), FactsOf(Before(life, n - 1), step.after, step.actor, step.action));
    assert Accepted(life, n - 1).Ok?;
    if n == 1 {
      NoStatusFacts();
      ToldFirst(step);
      var first := Fact(StatusChanged, 1, PayloadOf(None, step.after, step.action));
      assert earlier == [] && earlier + [first] == [first];
    } else {
      StatusFactsTellTheLife(life, n - 1);
      ToldNext(earlier, life[n - 2].after, step);
      assert earlier + [] == earlier;
    }
  }
}
