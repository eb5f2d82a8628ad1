/** What each Order operation does to the rows of one order, as functions on values: admission, the leased steps of
    the three sagas, and the local lifecycle actions. Offers, attempts and withdrawals are named by their position
    in insertion order. */
module OrderRecords {
  import opened Common
  import opened Orders

  const LEASE: int := 15 * SECOND

  type Key = nat

  datatype Caller = Caller(id: UserId, admin: bool, suspended: bool)

  datatype OfferStatus = OfferOpen | OfferAccepting | OfferAccepted | OfferVoid

  datatype Offer = Offer(courier: UserId, credits: int, status: OfferStatus)

  datatype Phase = AdjustmentPending | RevertPending | AssignmentSucceeded | AssignmentRejected

  datatype Rejection = NoRejection | OrderUnavailable | InsufficientCredits | AssignmentInProgress

  datatype Method = AcceptOrderMethod(key: Key) | AcceptOfferMethod

  // An attempt without an offer is a retained contention rejection.
  datatype Attempt = Attempt(
    offer: Option<nat>,
    caller: UserId,
    courier: UserId,
    how: Method,
    amount: int,
    original: int,
    phase: Phase,
    generation: int,
    attempts: int,
    leaseUntil: Time,
    nextAttemptAt: Time,
    rejection: Rejection,
    updatedAt: Time)
  {
    predicate IsResolved() {
      phase == AssignmentSucceeded || phase == AssignmentRejected
    }
  }

  datatype CreationPhase = ReservePending | AbortPending | CreationOpened | CreationRejected

  datatype CreationRejection = CreationInsufficient | CreationExpired | ReservationReleased

  datatype Workflow = Workflow(
    requester: UserId,
    amount: int,
    expiresAt: Time,
    phase: CreationPhase,
    generation: int,
    attempts: int,
    leaseUntil: Time,
    nextAttemptAt: Time,
    rejection: Option<CreationRejection>,
    result: Option<Order>,
    updatedAt: Time)
  {
    predicate IsResolved() {
      phase == CreationOpened || phase == CreationRejected
    }
  }

  datatype CancellationStatus = CancellationPending | CancellationSucceeded | CancellationSuperseded

  // Only withdrawals name an assignment.
  datatype Cancellation = Cancellation(
    caller: UserId,
    reason: OrderText,
    status: CancellationStatus,
    assignment: Option<AttemptId>,
    courier: Option<UserId>,
    assignedAt: Option<Time>,
    original: int,
    generation: int,
    attempts: int,
    leaseUntil: Time,
    nextAttemptAt: Time,
    updatedAt: Time)

  // A row of the outbox: the fact with the columns written beside it. The actor is that of the audit row of the same
  // revision.
  datatype Row = Row(order: OrderId, revision: int, ordinal: nat, actor: Actor, fact: Fact)

  datatype Record = Record(
    order: Order,
    workflow: Workflow,
    offers: seq<Offer>,
    attempts: seq<Attempt>,
    cancellations: seq<Cancellation>,
    facts: seq<Row>)

  // What a fresh read of Credit shows Order; None of its fields is taken from a mutation's reply.
  datatype HoldState = ViewHeld | ViewAssigned | ViewReleased

  datatype HoldView = HoldView(
    order: OrderId,
    requester: Option<UserId>,
    original: int,
    reserved: int,
    state: HoldState,
    offer: Option<AttemptId>,
    courier: Option<UserId>)

  // What one worker learnt from its remote calls: nothing, a definitive refusal, or a read.
  datatype Seen = Unknown | Refused | Saw(view: HoldView)

  // Whether a leased step was claimed, and the rows it leaves.
  datatype Claimed = Claimed(record: Record, claimed: bool)

  // Retry delays

  // The fraction of the largest jitter, a quarter of the base delay, in thousandths.
  type Jitter = n: nat | n < 1000

  function Shift(attempt: int): (s: nat)
    ensures s <= 5
  {
    Max(0, Min(attempt - 1, 5))
  }

  function Doubled(shift: nat): int {
    if shift == 0 then 1 else 2 * Doubled(shift - 1)
  }

  function RetryDelay(attempt: int, jitter: Jitter): int {
    var base := SECOND * Doubled(Shift(attempt));
    Min(30 * SECOND, base + base * jitter / 4000)
  }

  lemma {:induction false} DoubledGrows(a: nat, b: nat)
    requires a <= b
    ensures 1 <= Doubled(a) <= Doubled(b)
    decreases b
  {
    if a < b {
      DoubledGrows(a, b - 1);
    } else if a > 0 {
      DoubledGrows(a - 1, b - 1);
    }
  }

  /** Every retry waits between one and thirty seconds, whatever the jitter, and never less on a later attempt
      without jitter. */
  lemma RetryDelayBounded(attempt: int, later: int, jitter: Jitter)
    requires attempt <= later
    ensures SECOND <= RetryDelay(attempt, jitter) <= 30 * SECOND
    ensures RetryDelay(attempt, 0) <= RetryDelay(later, 0)
  {
    DoubledGrows(0, Shift(attempt));
    DoubledGrows(Shift(attempt), Shift(later));
    var base := SECOND * Doubled(Shift(attempt));
    assert base * jitter >= 0;
    assert base * jitter / 4000 >= 0;
  }

  /** The delays are 1, 2, 4, 8, 16 and then 30 seconds, with up to a quarter more before the limit. */
  lemma RetryDelayExactly(attempt: int, jitter: Jitter)
    ensures var base := if attempt <= 1 then 1 else if attempt == 2 then 2 else if attempt == 3 then 4
                        else if attempt == 4 then 8 else if attempt == 5 then 16 else 32;
            && Min(30, base) * SECOND <= RetryDelay(attempt, jitter)
            && RetryDelay(attempt, jitter) <= Min(30 * SECOND, base * SECOND + base * SECOND / 4)
            && RetryDelay(attempt, 0) == Min(30, base) * SECOND
  {
    var s := Shift(attempt);
    assert Doubled(0) == 1;
    assert Doubled(1) == 2 * Doubled(0);
    assert Doubled(2) == 2 * Doubled(1);
    assert Doubled(3) == 2 * Doubled(2);
    assert Doubled(4) == 2 * Doubled(3);
    assert Doubled(5) == 2 * Doubled(4);
    var base := SECOND * Doubled(s);
    JitterBounded(base, jitter);
  }

  lemma JitterBounded(base: int, jitter: Jitter)
    requires 0 <= base
    ensures 0 <= base * jitter / 4000 <= base / 4
  {
    assert 0 <= base * jitter <= base * 1000;
  }

  // Queries

  function LastWhere(s: seq<Attempt>, p: Attempt -> bool): (i: Option<nat>)
    ensures i.Some? ==> i.value < |s| && p(s[i.value]) && forall j :: i.value < j < |s| ==> !p(s[j])
    ensures i.None? ==> forall j :: 0 <= j < |s| ==> !p(s[j])
  {
    if s == [] then None
    else if p(s[|s| - 1]) then Some(|s| - 1)
    else LastWhere(s[..|s| - 1], p)
  }

  // At most one attempt of an order is unresolved.
  function ActiveAssignment(r: Record): Option<nat> {
    LastWhere(r.attempts, (a: Attempt) => !a.IsResolved())
  }

  function OfferAssignment(r: Record, offer: nat): Option<nat> {
    LastWhere(r.attempts, (a: Attempt) => a.offer == Some(offer))
  }

  function CurrentSuccessfulAssignment(r: Record): Option<nat> {
    LastWhere(r.attempts, (a: Attempt) =>
      a.phase == AssignmentSucceeded && Some(a.courier) == r.order.courier && Some(a.updatedAt) == r.order.assignedAt)
  }

  predicate HasRejectedAcceptance(r: Record, caller: UserId) {
    exists i :: 0 <= i < |r.attempts|
      && r.attempts[i].caller == caller && r.attempts[i].how.AcceptOrderMethod?
      && r.attempts[i].phase == AssignmentRejected && r.attempts[i].offer.None?
  }

  // The order accepts couriers now.
  predicate IsOpenAt(o: Order, now: Time) {
    o.status == AwaitingCourier && o.expiresAt > now
  }

  // Writes

  // One row for each fact of a change, numbered in order.
  function RowsOf(order: Order, actor: Actor, facts: seq<Fact>): seq<Row> {
    seq(|facts|, i requires 0 <= i < |facts| => Row(order.id, order.revision, i, actor, facts[i]))
  }

  function Write(r: Record, change: Change): Record {
    r.(order := change.order, facts := r.facts + RowsOf(change.order, change.actor, change.facts))
  }

  // A change that only advances the revision of the order.
  function Metadata(o: Order, caller: UserId, action: Action, now: Time): Result<Change, Error> {
    NewChange(Some(o), o.(revision := o.revision + 1, updatedAt := now), UserActor(caller), action)
  }

  function CloseOffer(f: Offer): Offer {
    if f.status == OfferOpen || f.status == OfferAccepting then f.(status := OfferVoid) else f
  }

  // Closing an order voids what was open or being accepted.
  function CloseOffers(fs: seq<Offer>): seq<Offer> {
    seq(|fs|, i requires 0 <= i < |fs| => CloseOffer(fs[i]))
  }

  // A courier's new proposal voids their open one.
  function ReplaceOffers(fs: seq<Offer>, courier: UserId): seq<Offer> {
    seq(|fs|, i requires 0 <= i < |fs| =>
      if fs[i].courier == courier && fs[i].status == OfferOpen then fs[i].(status := OfferVoid) else fs[i])
  }

  // Assigning accepts one offer and voids the other open ones.
  function AwardOffers(fs: seq<Offer>, chosen: nat): seq<Offer> {
    seq(|fs|, i requires 0 <= i < |fs| =>
      if i == chosen then fs[i].(status := OfferAccepted)
      else if fs[i].status == OfferOpen then fs[i].(status := OfferVoid)
      else fs[i])
  }

  // Creation

  const MIN_DURATION: int := 300 * SECOND
  const MAX_DURATION: int := 86400 * SECOND

  datatype CreateInput = CreateInput(details: OrderText, reward: int, deliveryDuration: int, expiresAt: Time)

  predicate IsCanonical(input: CreateInput) {
    input.reward > 0 && MIN_DURATION <= input.deliveryDuration <= MAX_DURATION
  }

  function Draft(id: OrderId, requester: UserId, input: CreateInput, now: Time): Order {
    Order(id, requester, None, PendingReservation, input.details, input.reward, 0, input.deliveryDuration,
          input.expiresAt, None, None, None, None, None, None, None, false, None, 1, now, now)
  }

  function AdmitCreation(id: OrderId, requester: UserId, input: CreateInput, now: Time): Result<Record, Error> {
    if !IsCanonical(input) || input.expiresAt <= now then Err(Invalid)
    else
      match NewChange(None, Draft(id, requester, input, now), UserActor(requester), Create)
      case Err(e) => Err(e)
      case Ok(change) =>
        Ok(Record(change.order,
                  Workflow(requester, input.reward, input.expiresAt, ReservePending, 0, 0, now, now, None, None, now),
                  [], [], [], RowsOf(change.order, change.actor, change.facts)))
  }

  function ClaimCreation(r: Record, now: Time): Result<Claimed, Error> {
    var w := r.workflow;
    if w.IsResolved() || w.leaseUntil > now
       || (w.nextAttemptAt > now && (w.phase != ReservePending || w.expiresAt > now)) then Ok(Claimed(r, false))
    else if r.order.status != PendingReservation then Err(Conflict)
    else
      var phase := if w.phase == ReservePending && w.expiresAt <= now then AbortPending else w.phase;
      Ok(Claimed(
        r.(workflow := w.(phase := phase, generation := w.generation + 1, attempts := w.attempts + 1,
                          leaseUntil := now + LEASE, updatedAt := now)),
        true))
  }

  predicate IsMatchingHold(v: HoldView, o: OrderId, w: Workflow) {
    v.state == ViewHeld && v.order == o && v.requester == Some(w.requester)
    && v.original == w.amount && v.reserved == w.amount
  }

  predicate IsReleased(v: HoldView, o: OrderId) {
    v.order == o && v.state == ViewReleased && v.reserved == 0
  }

  datatype CreationMove = StayPending | StartAbort | Reject(why: CreationRejection) | OpenOrder

  function CreationMoveOf(r: Record, seen: Seen, now: Time): CreationMove {
    var w := r.workflow;
    if w.phase == AbortPending then
      if seen.Saw? && IsReleased(seen.view, r.order.id) then Reject(CreationExpired) else StayPending
    else if seen.Refused? then Reject(CreationInsufficient)
    else if w.expiresAt <= now then StartAbort
    else if seen.Saw? && IsReleased(seen.view, r.order.id) then Reject(ReservationReleased)
    else if seen.Saw? && IsMatchingHold(seen.view, r.order.id, w) then OpenOrder
    else StayPending
  }

  function RejectionText(why: CreationRejection): OrderText {
    match why
    case CreationInsufficient => "insufficient credits"
    case CreationExpired => "order creation expired"
    case ReservationReleased => "credit reservation was released"
  }

  function CreationChange(r: Record, move: CreationMove, now: Time): Option<Result<Change, Error>> {
    var o := r.order;
    match move
    case OpenOrder =>
      Some(NewChange(Some(o),
                     o.(status := AwaitingCourier, reserved := r.workflow.amount, revision := o.revision + 1,
                        updatedAt := now),
                     SYSTEM, ConfirmReservation))
    case Reject(why) =>
      Some(NewChange(Some(o),
                     o.(status := Rejected, revision := o.revision + 1, updatedAt := now, closedAt := Some(now),
                        closeReason := Some(RejectionText(why))),
                     SYSTEM, RefuseReservation))
    case _ => None
  }

  function NextWorkflow(w: Workflow, move: CreationMove, after: Order, now: Time, jitter: Jitter): Workflow {
    var w1 := match move
      case StayPending => w
      case StartAbort => w.(phase := AbortPending)
      case Reject(why) => w.(phase := CreationRejected, rejection := Some(why))
      case OpenOrder => w.(phase := CreationOpened, result := Some(after));
    var retry := now + RetryDelay(w.attempts, jitter);
    var next := if move.StartAbort? then now
                else if w1.phase == ReservePending && w.expiresAt < retry then w.expiresAt
                else retry;
    w1.(leaseUntil := now, updatedAt := now, nextAttemptAt := next)
  }

  function ApplyCreation(r: Record, generation: int, phase: CreationPhase, seen: Seen, now: Time, jitter: Jitter)
    : Result<Record, Error>
  {
    var w := r.workflow;
    if w.generation != generation || w.phase != phase || w.IsResolved() || w.leaseUntil <= now then Ok(r)
    else if r.order.status != PendingReservation then Err(Conflict)
    else
      var move := CreationMoveOf(r, seen, now);
      match CreationChange(r, move, now)
      case Some(Err(e)) => Err(e)
      case Some(Ok(change)) =>
        Ok(Write(r, change).(workflow := NextWorkflow(w, move, change.order, now, jitter)))
      case None => Ok(r.(workflow := NextWorkflow(w, move, r.order, now, jitter)))
  }

  // Admission of offers and attempts

  function CanPropose(r: Record, now: Time): Option<Error> {
    if !IsOpenAt(r.order, now) then Some(Precondition)
    else if ActiveAssignment(r).Some? then Some(Conflict)
    else None
  }

  // Retry keys of proposals are not modelled.
  function MakeOffer(r: Record, caller: Caller, credits: int, now: Time): Result<Record, Error> {
    if caller.suspended then Err(Forbidden)
    else if credits <= 0 then Err(Invalid)
    else if r.order.IsRequestedBy(Some(caller.id)) then Err(Forbidden)
    else if CanPropose(r, now).Some? then Err(CanPropose(r, now).value)
    else if credits <= r.order.reward then Err(Invalid)
    else
      match Metadata(r.order, caller.id, ProposeOffer, now)
      case Err(e) => Err(e)
      case Ok(change) =>
        Ok(Write(r, change).(
          offers := ReplaceOffers(r.offers, caller.id) + [Offer(caller.id, credits, OfferOpen)]))
  }

  function NewAttempt(o: Order, offer: nat, f: Offer, caller: UserId, how: Method, now: Time): Attempt {
    Attempt(Some(offer), caller, f.courier, how, f.credits, o.reserved, AdjustmentPending, 0, 0, now, now,
            NoRejection, now)
  }

  // Keeps the caller's key from becoming a new assignment once the order reopens.
  function ContentionAttempt(o: Order, caller: UserId, key: Key, now: Time): Attempt {
    Attempt(None, caller, caller, AcceptOrderMethod(key), o.reward, o.reserved, AssignmentRejected, 0, 0, now, now,
            AssignmentInProgress, now)
  }

  // AcceptOrder keys are scoped by caller and never expire.
  datatype KeyScope = KeyScope(caller: UserId, key: Key)
  datatype Retained = Retained(order: OrderId, attempt: AttemptId)
  type Keys = map<KeyScope, Retained>

  datatype Acceptance = Acceptance(record: Record, keys: Keys, attempt: AttemptId)

  function ReplayAcceptance(r: Record, keys: Keys, scope: KeyScope): Result<Acceptance, Error>
    requires scope in keys
  {
    var kept := keys[scope];
    if kept.order != r.order.id then Err(AlreadyExists)
    else if kept.attempt >= |r.attempts| then Err(Integrity)
    else if r.attempts[kept.attempt].caller != scope.caller
         || r.attempts[kept.attempt].how != AcceptOrderMethod(scope.key) then Err(Integrity)
    else Ok(Acceptance(r, keys, kept.attempt))
  }

  function AcceptOrder(r: Record, keys: Keys, caller: Caller, key: Key, now: Time): Result<Acceptance, Error> {
    var o := r.order;
    var scope := KeyScope(caller.id, key);
    var kept := keys[scope := Retained(o.id, |r.attempts|)];
    if caller.suspended then Err(Forbidden)
    else if o.IsRequestedBy(Some(caller.id)) then Err(Forbidden)
    else if scope in keys then ReplayAcceptance(r, keys, scope)
    else if !IsOpenAt(o, now) || o.reserved <= 0 then Err(NotFound)
    else if ActiveAssignment(r).Some? then
      if HasRejectedAcceptance(r, caller.id) then Err(Precondition)
      else Ok(Acceptance(r.(attempts := r.attempts + [ContentionAttempt(o, caller.id, key, now)]), kept, |r.attempts|))
    else
      match Metadata(o, caller.id, BeginAssignment, now)
      case Err(e) => Err(e)
      case Ok(change) =>
        var f := Offer(caller.id, o.reward, OfferAccepting);
        var attempt := NewAttempt(o, |r.offers|, f, caller.id, AcceptOrderMethod(key), now);
        Ok(Acceptance(Write(r, change).(offers := r.offers + [f], attempts := r.attempts + [attempt]),
                      kept, |r.attempts|))
  }

  datatype Admitted = Admitted(record: Record, operation: nat)

  function AcceptOffer(r: Record, caller: Caller, offer: nat, now: Time): Result<Admitted, Error> {
    var o := r.order;
    var previous := OfferAssignment(r, offer);
    if caller.suspended then Err(Forbidden)
    else if offer >= |r.offers| then Err(NotFound)
    else if !o.IsRequestedBy(Some(caller.id)) then Err(NotFound)
    else if previous.Some?
         && (r.attempts[previous.value].phase != AssignmentRejected
             || r.attempts[previous.value].rejection != InsufficientCredits) then Ok(Admitted(r, previous.value))
    else if CanPropose(r, now).Some? then Err(CanPropose(r, now).value)
    else
      var f := r.offers[offer];
      if f.status != OfferOpen || f.courier == o.requester || f.credits <= o.reward then Err(Precondition)
      else
        match Metadata(o, caller.id, BeginAssignment, now)
        case Err(e) => Err(e)
        case Ok(change) =>
          var attempt := NewAttempt(o, offer, f, caller.id, AcceptOfferMethod, now);
          Ok(Admitted(Write(r, change).(offers := r.offers[offer := f.(status := OfferAccepting)],
                                        attempts := r.attempts + [attempt]),
                      |r.attempts|))
  }

  // The assignment saga

  function ClaimAssignment(r: Record, i: AttemptId, now: Time): Result<Claimed, Error> {
    if i >= |r.attempts| then Err(NotFound)
    else
      var w := r.attempts[i];
      var open := IsOpenAt(r.order, now);
      if w.IsResolved() || w.leaseUntil > now
         || (w.nextAttemptAt > now && (w.phase != AdjustmentPending || open)) then Ok(Claimed(r, false))
      else if ActiveAssignment(r) != Some(i) then Err(Conflict)
      else
        var w1 := if open then w else w.(phase := RevertPending, rejection := OrderUnavailable);
        Ok(Claimed(
          r.(attempts := r.attempts[i := w1.(generation := w.generation + 1, attempts := w.attempts + 1,
                                            leaseUntil := now + LEASE, updatedAt := now)]),
          true))
  }

  predicate ConfirmsAdjustment(v: HoldView, i: AttemptId, w: Attempt, o: Order) {
    && v.order == o.id && v.requester == Some(o.requester) && v.state == ViewAssigned
    && v.offer == Some(i) && v.courier == Some(w.courier) && v.reserved == w.amount && v.original == w.original
  }

  predicate ConfirmsRevert(v: HoldView, w: Attempt, o: Order) {
    && v.order == o.id && v.requester == Some(o.requester) && v.original == w.original
    && v.offer.None? && v.courier.None?
    && (|| (v.state == ViewHeld && v.reserved == w.original)
        || (v.state == ViewReleased && v.reserved == 0))
  }

  datatype AssignmentMove = Wait | Fence(why: Rejection) | Resolve(offer: OfferStatus) | Succeed

  function AssignmentMoveOf(r: Record, i: AttemptId, seen: Seen, now: Time): AssignmentMove
    requires i < |r.attempts|
  {
    var w := r.attempts[i];
    if w.phase == RevertPending then
      if seen.Saw? && ConfirmsRevert(seen.view, w, r.order) then
        Resolve(if w.how.AcceptOfferMethod? && w.rejection == InsufficientCredits && IsOpenAt(r.order, now)
                then OfferOpen else OfferVoid)
      else Wait
    else if !IsOpenAt(r.order, now) then Fence(OrderUnavailable)
    else if seen.Refused? then Fence(InsufficientCredits)
    else if seen.Saw? && ConfirmsAdjustment(seen.view, i, w, r.order) then Succeed
    else Wait
  }

  // Resolving never reactivates an offer that another action has voided.
  function ResolveOffer(r: Record, w: Attempt, status: OfferStatus, now: Time): Result<Record, Error> {
    match Metadata(r.order, w.caller, ResolveAssignment, now)
    case Err(e) => Err(e)
    case Ok(change) =>
      if w.offer.None? || w.offer.value >= |r.offers| then Err(Integrity)
      else
        var f := r.offers[w.offer.value];
        if f.status != OfferAccepting && f.status != OfferVoid then Err(Conflict)
        else
          Ok(Write(r, change).(
            offers := r.offers[w.offer.value := f.(status := if f.status == OfferVoid then OfferVoid else status)]))
  }

  function AssignAction(w: Attempt): Action {
    if w.how.AcceptOrderMethod? then Assign else AcceptCounteroffer
  }

  function AssignOrder(o: Order, w: Attempt, now: Time): Order {
    o.(status := AwaitingPickup, courier := Some(w.courier), reward := w.amount, reserved := w.amount,
       assignedAt := Some(now), updatedAt := now, revision := o.revision + 1)
  }

  function AssignChange(r: Record, w: Attempt, now: Time): Result<Record, Error> {
    if w.courier == r.order.requester then Err(Forbidden)
    else
      match Transition(r.order, AssignAction(w), UserActor(w.caller))
      case Deny(e) => Err(e)
      case Repeat(_) => Err(Conflict)
      case Go(next) =>
        match NewChange(Some(r.order), AssignOrder(r.order, w, now).(status := next), UserActor(w.caller),
                        AssignAction(w))
        case Err(e) => Err(e)
        case Ok(change) =>
          if w.offer.None? || w.offer.value >= |r.offers| then Err(Integrity)
          else
            var f := r.offers[w.offer.value];
            if f.status != OfferAccepting || f.courier != w.courier || f.credits != w.amount then Err(Conflict)
            else Ok(Write(r, change).(offers := AwardOffers(r.offers, w.offer.value)))
  }

  function NextAttempt(w: Attempt, move: AssignmentMove, expiresAt: Time, now: Time, jitter: Jitter): Attempt {
    var w1 := match move
      case Wait => w
      case Fence(why) => w.(phase := RevertPending, rejection := why)
      case Resolve(_) => w.(phase := AssignmentRejected)
      case Succeed => w.(phase := AssignmentSucceeded);
    var retry := now + RetryDelay(w.attempts, jitter);
    var next := if move.Fence? then now
                else if w1.phase == AdjustmentPending && expiresAt < retry then expiresAt
                else retry;
    w1.(leaseUntil := now, updatedAt := now, nextAttemptAt := next)
  }

  // An attempt that no worker has claimed yet is never saved without a change of its order.
  function KeepOrder(r: Record, w: Attempt): Result<Record, Error> {
    if w.offer.Some? && w.generation == 0 then Err(Precondition) else Ok(r)
  }

  function ApplyAssignment(r: Record, i: AttemptId, generation: int, phase: Phase, seen: Seen, now: Time,
                           jitter: Jitter): Result<Record, Error> {
    if i >= |r.attempts| then Err(NotFound)
    else
      var w := r.attempts[i];
      if w.IsResolved() || w.generation != generation || w.phase != phase || w.leaseUntil <= now then Ok(r)
      else
        var move := AssignmentMoveOf(r, i, seen, now);
        var changed := match move
          case Resolve(status) => ResolveOffer(r, w, status, now)
          case Succeed => AssignChange(r, w, now)
          case _ => KeepOrder(r, w);
        match changed
        case Err(e) => Err(e)
        case Ok(r1) =>
          Ok(r1.(attempts := r1.attempts[i := NextAttempt(w, move, r.order.expiresAt, now, jitter)]))
  }

  // Cancellation and withdrawal

  // Shared by both admissions: a withdrawal stays pending until Credit has taken the offer back.
  function NewCancellation(caller: UserId, reason: OrderText, status: CancellationStatus, now: Time): Cancellation {
    Cancellation(caller, reason, status, None, None, None, 0, 0, 0, now, now, now)
  }

  function JoinWithdrawal(r: Record, caller: UserId, reason: OrderText, c: nat): Result<Admitted, Error> {
    if c >= |r.cancellations| then Err(NotFound)
    else
      var w := r.cancellations[c];
      if w.status != CancellationPending || w.caller != caller then Err(Integrity)
      else if w.reason != reason then Err(Conflict)
      else Ok(Admitted(r, c))
  }

  function Withdrawal(r: Record, caller: UserId, reason: OrderText, now: Time): Cancellation {
    var w := NewCancellation(caller, reason, CancellationPending, now)
      .(courier := Some(caller), assignedAt := r.order.assignedAt);
    match CurrentSuccessfulAssignment(r)
    case Some(a) => w.(assignment := Some(a), original := r.attempts[a].original)
    case None => w
  }

  function BeginWithdraw(r: Record, caller: UserId, reason: OrderText, now: Time): Result<Admitted, Error> {
    var o := r.order;
    match NewChange(Some(o),
                    o.(revision := o.revision + 1, updatedAt := now, pendingCancellation := Some(|r.cancellations|)),
                    UserActor(caller), BeginWithdrawal)
    case Err(e) => Err(e)
    case Ok(change) =>
      Ok(Admitted(Write(r, change).(cancellations := r.cancellations + [Withdrawal(r, caller, reason, now)]),
                  |r.cancellations|))
  }

  // A pending withdrawal loses its fence to the cancellation.
  function Supersede(r: Record, now: Time): Result<seq<Cancellation>, Error> {
    match r.order.pendingCancellation
    case None => Ok(r.cancellations)
    case Some(c) =>
      if c >= |r.cancellations| then Err(NotFound)
      else if r.cancellations[c].status != CancellationPending then Err(Conflict)
      else
        var w := r.cancellations[c];
        Ok(r.cancellations[c := w.(status := CancellationSuperseded, generation := w.generation + 1,
                                   updatedAt := now)])
  }

  // An attempt in flight is fenced before the order closes.
  function FenceActive(r: Record, now: Time): seq<Attempt> {
    match ActiveAssignment(r)
    case None => r.attempts
    case Some(i) =>
      var w := r.attempts[i];
      r.attempts[i := w.(generation := w.generation + 1, phase := RevertPending, rejection := OrderUnavailable,
                         leaseUntil := now, nextAttemptAt := now, updatedAt := now)]
  }

  function CancelNow(r: Record, caller: UserId, reason: OrderText, next: Status, now: Time): Result<Admitted, Error> {
    var o := r.order;
    match Supersede(r, now)
    case Err(e) => Err(e)
    case Ok(cancellations) =>
      match NewChange(Some(o),
                      o.(status := next, revision := o.revision + 1, updatedAt := now, closedAt := Some(now),
                         closeReason := if reason != "" then Some(reason) else None, pendingCancellation := None),
                      UserActor(caller), Action.Cancel)
      case Err(e) => Err(e)
      case Ok(change) =>
        Ok(Admitted(
          Write(r, change).(
            offers := CloseOffers(r.offers), attempts := FenceActive(r, now),
            cancellations := cancellations + [NewCancellation(caller, reason, CancellationSucceeded, now)]),
          |r.cancellations|))
  }

  // Retry keys of cancellations are not modelled. revision is what the participant confirmed, when supplied.
  function CancelOrder(r: Record, caller: UserId, reason: OrderText, revision: Option<int>, now: Time)
    : Result<Admitted, Error>
  {
    var o := r.order;
    var isCourier := o.IsAssignedTo(Some(caller));
    if |reason| > 500 then Err(Invalid)
    else if !o.HasParticipant(Some(caller)) then Err(Forbidden)
    else if revision.Some? && o.revision != revision.value then Err(Conflict)
    else if o.pendingCancellation.Some? && isCourier then JoinWithdrawal(r, caller, reason, o.pendingCancellation.value)
    else
      var action := if o.status == AwaitingPickup && isCourier then Action.Withdraw else Action.Cancel;
      match Transition(o, action, UserActor(caller))
      case Deny(e) => Err(e)
      case Repeat(_) => Err(Precondition)
      case Go(next) =>
        if action == Action.Withdraw then BeginWithdraw(r, caller, reason, now)
        else CancelNow(r, caller, reason, next, now)
  }

  predicate MatchesWithdrawal(o: Order, c: nat, w: Cancellation) {
    && o.status == AwaitingPickup && o.pendingCancellation == Some(c) && o.IsAssignedTo(w.courier)
    && o.assignedAt.Some? && o.assignedAt == w.assignedAt && o.pickedUpAt.None?
  }

  predicate ConfirmsWithdrawal(v: HoldView, w: Cancellation, o: Order) {
    && w.assignment.Some? && w.original > 0
    && v.order == o.id && v.requester == Some(o.requester) && v.state == ViewHeld
    && v.original == w.original && v.reserved == w.original && v.offer.None? && v.courier.None?
  }

  function ClaimCancellation(r: Record, c: nat, now: Time): Result<Claimed, Error> {
    if c >= |r.cancellations| then Err(NotFound)
    else
      var w := r.cancellations[c];
      if w.status != CancellationPending || w.leaseUntil > now || w.nextAttemptAt > now then Ok(Claimed(r, false))
      else if !MatchesWithdrawal(r.order, c, w) then Err(Conflict)
      else
        Ok(Claimed(
          r.(cancellations := r.cancellations[c := w.(generation := w.generation + 1, attempts := w.attempts + 1,
                                                     leaseUntil := now + LEASE, updatedAt := now)]),
          true))
  }

  function NextCancellation(w: Cancellation, done: bool, now: Time, jitter: Jitter): Cancellation {
    w.(status := if done then CancellationSucceeded else w.status, leaseUntil := now, updatedAt := now,
       nextAttemptAt := now + RetryDelay(w.attempts, jitter))
  }

  function ReopenOrder(o: Order, w: Cancellation, now: Time): Order {
    o.(status := AwaitingCourier, courier := None, assignedAt := None, pendingCancellation := None,
       reward := w.original, reserved := w.original, revision := o.revision + 1, updatedAt := now)
  }

  function ApplyCancellation(r: Record, c: nat, generation: int, seen: Seen, now: Time, jitter: Jitter)
    : Result<Record, Error>
  {
    if c >= |r.cancellations| then Err(NotFound)
    else
      var w := r.cancellations[c];
      if w.status != CancellationPending || w.generation != generation || w.leaseUntil <= now then Ok(r)
      else if !MatchesWithdrawal(r.order, c, w) then Err(Conflict)
      else if !(seen.Saw? && ConfirmsWithdrawal(seen.view, w, r.order)) then
        Ok(r.(cancellations := r.cancellations[c := NextCancellation(w, false, now, jitter)]))
      else
        match NewChange(Some(r.order), ReopenOrder(r.order, w, now), UserActor(w.caller), Action.Withdraw)
        case Err(e) => Err(e)
        case Ok(change) =>
          Ok(Write(r, change).(cancellations := r.cancellations[c := NextCancellation(w, true, now, jitter)]))
  }

  // Local lifecycle actions

  predicate IsVisible(o: Order, c: Caller, now: Time) {
    c.admin || o.HasParticipant(Some(c.id)) || (!c.suspended && IsOpenAt(o, now))
  }

  // Pickup and receipt: the caller's action stamps its own instant.
  function Advance(r: Record, caller: Caller, action: Action, clock: Time): Result<Record, Error> {
    var o := r.order;
    var now := Micros(clock);
    if !IsVisible(o, caller, now) then Err(NotFound)
    else
      match Transition(o, action, UserActor(caller.id))
      case Deny(e) => Err(e)
      case Repeat(_) => Ok(r)
      case Go(next) =>
        var moved := o.(status := next, revision := o.revision + 1, updatedAt := now);
        var after := if action == Action.Pickup then moved.(pickedUpAt := Some(now))
                     else moved.(completedAt := Some(now));
        match NewChange(Some(o), after, UserActor(caller.id), action)
        case Err(e) => Err(e)
        case Ok(change) => Ok(Write(r, change))
  }

  function ConfirmPickup(r: Record, caller: Caller, clock: Time): Result<Record, Error> {
    Advance(r, caller, Action.Pickup, clock)
  }

  function ConfirmReceiptOf(r: Record, caller: Caller, clock: Time): Result<Record, Error> {
    Advance(r, caller, Action.ConfirmReceipt, clock)
  }

  function ExpireOrder(r: Record, now: Time): Result<Record, Error> {
    var o := r.order;
    if o.status != AwaitingCourier || o.expiresAt > now then Ok(r)
    else
      match NewChange(Some(o),
                      o.(status := Expired, revision := o.revision + 1, updatedAt := now, closedAt := Some(now),
                         closeReason := Some("request_expired")),
                      SYSTEM, Action.Expire)
      case Err(e) => Err(e)
      case Ok(change) => Ok(Write(r, change).(offers := CloseOffers(r.offers)))
  }

  // Twice the delivery duration after pickup, where the payout has reached zero.
  function Deadline(o: Order): Option<Time> {
    if o.pickedUpAt.None? || o.courier.None? || o.deliveryDuration <= 0
       || o.deliveryDuration > 0x7fff_ffff_ffff_ffff / 2 then None
    else Some(o.pickedUpAt.value + 2 * o.deliveryDuration)
  }

  // pending says whether an on-time confirmation is still being validated.
  function TimeoutOrder(r: Record, pending: bool, now: Time): Result<Record, Error> {
    var o := r.order;
    if o.status != Delivering then Ok(r)
    else
      match Deadline(o)
      case None => Err(Precondition)
      case Some(deadline) =>
        if now < deadline || pending then Ok(r)
        else
          match NewChange(Some(o),
                          o.(status := Failed, revision := o.revision + 1, updatedAt := now, closedAt := Some(now),
                             closeReason := Some("delivery_timed_out")),
                          SYSTEM, Action.Timeout)
          case Err(e) => Err(e)
          case Ok(change) => Ok(Write(r, change))
  }

  function CanDeliver(o: Order, courier: UserId, at: Time): Option<Error> {
    if !o.IsAssignedTo(Some(courier)) then Some(NotFound)
    else if o.status != Delivering || o.pickedUpAt.None? || o.deliveryDuration <= 0
         || at >= o.pickedUpAt.value + 2 * o.deliveryDuration then Some(Precondition)
    else None
  }

  // at is when the confirmation was received; the proofs themselves are checked elsewhere.
  function DeliverOrder(r: Record, courier: UserId, at: Time, unattended: bool, processedAt: Time)
    : Result<Record, Error>
  {
    var o := r.order;
    if CanDeliver(o, courier, at).Some? then Err(CanDeliver(o, courier, at).value)
    else
      match Transition(o, Action.Deliver, UserActor(courier))
      case Deny(e) => Err(e)
      case Repeat(_) => Err(Precondition)
      case Go(next) =>
        match NewChange(Some(o),
                        o.(status := next, deliveredAt := Some(at), unattended := unattended,
                           revision := o.revision + 1, updatedAt := processedAt),
                        UserActor(courier), Action.Deliver)
        case Err(e) => Err(e)
        case Ok(change) => Ok(Write(r, change))
  }

  function RecordLocation(r: Record, caller: UserId, location: OrderText, clock: Time): Result<Record, Error> {
    var o := r.order;
    if !(1 <= |location| <= 500) then Err(Invalid)
    else if !o.HasParticipant(Some(caller)) then Err(NotFound)
    else if !o.IsAssignedTo(Some(caller)) then Err(Forbidden)
    else if o.pickedUpAt.None? || (o.status != Cancelled && o.status != Failed) then Err(Precondition)
    else if o.itemLocation == Some(location) then Ok(r)
    else
      match NewChange(Some(o),
                      o.(itemLocation := Some(location), revision := o.revision + 1, updatedAt := Micros(clock)),
                      UserActor(caller), Action.RecordItemLocation)
      case Err(e) => Err(e)
      case Ok(change) => Ok(Write(r, change))
  }
}
