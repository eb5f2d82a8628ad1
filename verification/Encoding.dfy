/** From stored facts to events: the encoder is partial, and a fact it refuses would block its order's outbox. */
module Encoding {
  import opened Common
  import opened Orders
  import opened OrderRecords
  import opened OrderInvariants
  import C = Credit

  // The zero instant of the process, which no clock reads.
  const ZERO_TIME: Time := -62_135_596_800 * SECOND

  datatype WarningReason = CancelledAfterPickup | ZeroPayableReward

  datatype Message =
    | StatusMessage(
        order: OrderId, revision: int, previous: Option<Status>, status: Status, actor: Actor, requester: UserId,
        courier: Option<UserId>, previousCourier: Option<UserId>, at: Time)
    | OutcomeMessage(outcome: C.OrderOutcome)
    | WarningMessage(order: OrderId, warned: UserId, reason: WarningReason, at: Time)

  function OutcomeType(p: Payload): Option<C.OutcomeType> {
    match p.status
    case Completed =>
      if p.courier.None? || p.pickedUpAt.None? || p.deliveredAt.None? || p.deliveredAt.value < p.pickedUpAt.value
         || p.deliveryDuration <= 0 then None
      else Some(C.OrderCompleted)
    case Cancelled =>
      if !p.afterPickup then Some(C.OrderCancelledBeforePickup)
      else if p.courier.None? || p.pickedUpAt.None? then None
      else Some(C.OrderCancelledAfterPickup)
    case Expired => Some(C.OrderExpired)
    case Failed => Some(C.OrderFailed)
    case _ => None
  }

  function OutcomeOf(p: Payload): Option<C.OrderOutcome> {
    match OutcomeType(p)
    case None => None
    case Some(kind) =>
      Some(C.OrderOutcome(p.order, kind, p.requester, p.courier, p.pickedUpAt, p.deliveredAt, p.deliveryDuration))
  }

  function Encode(row: Row): Option<Message> {
    var p := row.fact.payload;
    if row.fact.version != 1 then None
    else if p.order != row.order || p.revision != row.revision || p.at == ZERO_TIME then None
    else
      match row.fact.kind
      case StatusChanged =>
        Some(StatusMessage(row.order, row.revision, p.previousStatus, p.status, row.actor, p.requester, p.courier,
                           p.previousCourier, p.at))
      case Outcome =>
        (match OutcomeOf(p)
         case None => None
         case Some(outcome) => Some(OutcomeMessage(outcome)))
      case CourierWarning =>
        if p.courier.None? || !p.afterPickup || p.status != Failed then None
        else if p.action == Action.Timeout then
          Some(WarningMessage(row.order, p.courier.value, ZeroPayableReward, p.at))
        else if p.action == Action.Cancel then
          Some(WarningMessage(row.order, p.courier.value, CancelledAfterPickup, p.at))
        else None
  }

  // The instants of a completed delivery are in order.
  ghost predicate InOrder(p: Payload) {
    p.status == Completed && p.pickedUpAt.Some? && p.deliveredAt.Some? ==> p.pickedUpAt.value <= p.deliveredAt.value
  }

  lemma OutcomeExists(f: Fact)
    requires FactFits(f) && f.kind == Outcome
    ensures OutcomeOf(f.payload).Some? <==> InOrder(f.payload)
  {}

  /** Every fact an order's operations store encodes, unless it was stamped with the zero instant or is the outcome
      of a delivery that a skewed clock dated before its pickup. */
  lemma StoredFactsEncodeExactly(r: Record, k: nat)
    requires RecordOk(r) && k < |r.facts|
    ensures var f := r.facts[k].fact;
            Encode(r.facts[k]).Some? <==> f.payload.at != ZERO_TIME && (f.kind == Outcome ==> InOrder(f.payload))
  {
    assert RowFits(r.order, r.facts[k]);
    if r.facts[k].fact.kind == Outcome {
      OutcomeExists(r.facts[k].fact);
    }
  }

  // What the end of an order is called outside.
  function EndName(o: Order): C.OutcomeType {
    match o.status
    case Completed => C.OrderCompleted
    case Cancelled => if o.pickedUpAt.Some? then C.OrderCancelledAfterPickup else C.OrderCancelledBeforePickup
    case Expired => C.OrderExpired
    case Failed => C.OrderFailed
    case _ => C.OrderOutcomeUnspecified
  }

  /** What leaves the outbox says what the order's rows say: a status event repeats its fact and its actor, an outcome
      describes the order as it ended, and a warning names the courier and why the delivery failed. */
  lemma MessagesTellTheRows(r: Record, k: nat)
    requires RecordOk(r) && k < |r.facts| && Encode(r.facts[k]).Some?
    ensures var o, row, p, m := r.order, r.facts[k], r.facts[k].fact.payload, Encode(r.facts[k]).value;
            match row.fact.kind
            case StatusChanged =>
              m == StatusMessage(o.id, row.revision, p.previousStatus, p.status, row.actor, o.requester, p.courier,
                                 p.previousCourier, p.at)
            case Outcome =>
              m == OutcomeMessage(C.OrderOutcome(o.id, EndName(o), o.requester, o.courier, o.pickedUpAt, o.deliveredAt,
                                                 o.deliveryDuration))
            case CourierWarning =>
              && p.courier.Some? && (p.action == Action.Timeout || p.action == Action.Cancel)
              && m == WarningMessage(o.id, p.courier.value, if p.action == Action.Timeout then ZeroPayableReward
                                                            else CancelledAfterPickup, p.at)
  {
    assert RowFits(r.order, r.facts[k]);
  }

  lemma DeliverySets(r: Record, courier: UserId, at: Time, unattended: bool, processedAt: Time)
    requires DeliverOrder(r, courier, at, unattended, processedAt).Ok?
    ensures r.order.pickedUpAt.Some? && r.order.courier.Some? && 0 < r.order.deliveryDuration
    ensures var o := DeliverOrder(r, courier, at, unattended, processedAt).value.order;
            && o.status == Delivered && o.deliveredAt == Some(at)
            && o.courier == r.order.courier && o.pickedUpAt == r.order.pickedUpAt
            && o.deliveryDuration == r.order.deliveryDuration
  {
    hide Allowed;
  }

  lemma CompletionEmits(r: Record, requester: Caller, clock: Time)
    requires r.order.status == Delivered && ConfirmReceiptOf(r, requester, clock).Ok?
    ensures var done := ConfirmReceiptOf(r, requester, clock).value;
            && done.order.status == Completed && done.facts != []
            && var f := done.facts[|done.facts| - 1].fact;
               && f.kind == Outcome && f.payload.status == Completed && f.payload.courier == r.order.courier
               && f.payload.pickedUpAt == r.order.pickedUpAt && f.payload.deliveredAt == r.order.deliveredAt
               && f.payload.deliveryDuration == r.order.deliveryDuration
  {
    hide Allowed, IsVisible;
  }

  /** Whether a delivery's outcome will encode is settled when its confirmation is received: exactly if that instant
      is not before pickup. The operations themselves compare it only with the deadline. */
  lemma CompletionEncodesExactly(r: Record, courier: UserId, at: Time, unattended: bool, processedAt: Time,
                                 requester: Caller, clock: Time)
    requires DeliverOrder(r, courier, at, unattended, processedAt).Ok?
    requires ConfirmReceiptOf(DeliverOrder(r, courier, at, unattended, processedAt).value, requester, clock).Ok?
    ensures var done :=
              ConfirmReceiptOf(DeliverOrder(r, courier, at, unattended, processedAt).value, requester, clock).value;
            && done.order.status == Completed && done.facts != [] && r.order.pickedUpAt.Some?
            && done.facts[|done.facts| - 1].fact.kind == Outcome
            && (OutcomeOf(done.facts[|done.facts| - 1].fact.payload).Some? <==> r.order.pickedUpAt.value <= at)
  {
    hide DeliverOrder, ConfirmReceiptOf;
    DeliverySets(r, courier, at, unattended, processedAt);
    CompletionEmits(DeliverOrder(r, courier, at, unattended, processedAt).value, requester, clock);
  }
}
