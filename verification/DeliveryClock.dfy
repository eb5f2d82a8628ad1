/** With a clock that never runs backwards, no picked-up order can get stuck behind an outcome that does not encode. */
module DeliveryClock {
  import opened Common
  import opened Orders
  import opened OrderInvariants
  import opened OrderSteps
  import opened Encoding
  import opened Saga
  import opened SagaInvariants
  import opened Receipts
  import opened ReceiptSafety
  import C = Credit
  import R = OrderRecords

  function ActionReads(action: LocalAction): Time {
    match action
    case Propose(_, _, now) => now
    case AcceptCounter(_, _, now) => now
    case CancelBy(_, _, _, now) => now
    case PickUp(_, now) => now
    case DeliverBy(_, _, _, now) => now
    case Receive(_, now) => now
    case ExpireNow(now) => now
    case TimeOut(_, now) => now
    case Locate(_, _, now) => now
  }

  // What the step reads from the clock; abandoning reads none.
  function Reads(s: EvidenceStep): Option<Time> {
    match s
    case CreateIt(_, _, now) => Some(now)
    case VerifyIt(_, _, _, now) => Some(now)
    case AbandonIt(_, _) => None
    case CleanIt(_, _, now) => Some(now)
    case AdmitIt(_, _, _, _, now) => Some(now)
    case ConfirmIt(_, _, now) => Some(now)
    case RefuseIt(_, now) => Some(now)
    case TimeItOut(now) => Some(now)
    case Otherwise(action) => Some(ActionReads(action))
  }

  // One clock, read in turn, that never shows less than before.
  ghost predicate IsForward(from: Time, steps: seq<EvidenceStep>)
    decreases |steps|
  {
    steps == [] ||
    match Reads(steps[0])
    case None => IsForward(from, steps[1..])
    case Some(now) => from <= now && IsForward(now, steps[1..])
  }

  ghost predicate ReceivedAfterPickup(d: Delivery) {
    && d.record.order.pickedUpAt.Some?
    && forall k :: 0 <= k < |d.evidence.receipts| ==>
         d.record.order.pickedUpAt.value <= d.evidence.receipts[k].receivedAt
  }

  lemma ConfirmKeepsOrder(d: Delivery, k: nat, inspected: seq<Upload>, now: Time)
    requires DeliveryOk(d) && AcceptReceipt(d, k, inspected, now).Ok?
    ensures Keeps(d.record.order, AcceptReceipt(d, k, inspected, now).value.record.order)
  {
    hide RecordOk, Follows, R.DeliverOrder, ReceiptOk, UploadsOk;
    ConfirmDelivers(d, k, inspected, now);
    var d' := AcceptReceipt(d, k, inspected, now).value;
    if d' != d {
      var r := d.evidence.receipts[k];
      DeliverOk(d.record, r.courier, r.receivedAt, r.input.unattended, now);
      FollowsMeansKeeps(d.record, d'.record);
    }
  }

  lemma KeepsItself(o: Order)
    ensures Keeps(o, o)
  {}

  lemma NextKeepsOrder(d: Delivery, s: EvidenceStep)
    requires DeliveryOk(d)
    ensures Keeps(d.record.order, Next(d, s).record.order)
  {
    hide RecordOk, Follows, Keeps, ReceiptOk, UploadsOk, ConfirmationOk, AcceptReceipt, R.TimeoutOrder, Act;
    KeepsItself(d.record.order);
    if Try(d, s).Ok? {
      match s {
        case ConfirmIt(k, inspected, now) => ConfirmKeepsOrder(d, k, inspected, now);
        case TimeItOut(now) =>
          TimeoutOk(d.record, HasPendingDelivery(d), now);
          FollowsMeansKeeps(d.record, R.TimeoutOrder(d.record, HasPendingDelivery(d), now).value);
        case Otherwise(action) =>
          if !action.DeliverBy? && !action.TimeOut? {
            ActOk(d.record, action);
            FollowsMeansKeeps(d.record, Act(d.record, action).value);
          }
        case _ =>
      }
    }
  }

  // A step only adds a receipt dated by its own reading, or keeps the instants of those there are.
  lemma NextReceipts(d: Delivery, s: EvidenceStep)
    requires DeliveryOk(d)
    ensures var receipts, receipts' := d.evidence.receipts, Next(d, s).evidence.receipts;
            && |receipts| <= |receipts'| <= |receipts| + 1
            && (forall k :: 0 <= k < |receipts| ==> receipts'[k].receivedAt == receipts[k].receivedAt)
            && (|receipts'| == |receipts| + 1 ==> Some(receipts'[|receipts|].receivedAt) == Reads(s))
  {
    hide RecordOk, R.DeliverOrder, R.TimeoutOrder, R.CanDeliver, ReceiptOk, UploadsOk, ConfirmationOk, Act,
         HasPendingDelivery, IsUsable, UploadToSign, Retire, AcceptProofs, IsProof, RechecksAll;
  }

  lemma PickupKept(d: Delivery, d': Delivery)
    requires DeliveryOk(d) && Keeps(d.record.order, d'.record.order)
    ensures d'.record.order.pickedUpAt == d.record.order.pickedUpAt
  {}

  lemma {:induction false} ReceiptsFollowPickup(d: Delivery, steps: seq<EvidenceStep>, from: Time)
    requires DeliveryOk(d) && ReceivedAfterPickup(d)
    requires d.record.order.pickedUpAt.value <= from && IsForward(from, steps)
    ensures ReceivedAfterPickup(RunAll(d, steps))
    decreases |steps|
  {
    hide DeliveryOk, Next, Keeps;
    if steps != [] {
      var d' := Next(d, steps[0]);
      NextOk(d, steps[0]);
      NextKeepsOrder(d, steps[0]);
      NextReceipts(d, steps[0]);
      var now := Reads(steps[0]);
      PickupKept(d, d');
      ReceiptsFollowPickup(d', steps[1..], if now.Some? then now.value else from);
    }
  }

  /** A completed order's outcome encodes exactly if its accepted receipt was not dated before its pickup. */
  lemma CompletedEncodesExactly(d: Delivery, k: nat, i: nat)
    requires DeliveryOk(d) && d.record.order.status == Completed
    requires DeliveredBy(d.record.order, d.evidence.receipts, i)
    requires k < |d.record.facts| && d.record.facts[k].fact.kind == Outcome
    ensures d.record.order.pickedUpAt.Some?
    ensures OutcomeOf(d.record.facts[k].fact.payload).Some? <==>
            d.record.order.pickedUpAt.value <= d.evidence.receipts[i].receivedAt
  {
    hide RecordOk, ReceiptOk, UploadsOk, ConfirmationOk, OutcomeOf;
    OutcomeIsEnd(d.record, k);
  }

  lemma PickedUp(r: R.Record)
    requires RecordOk(r) && r.order.status == Delivering
    ensures r.order.pickedUpAt.Some?
  {}

  /** Under one clock that never runs backwards from pickup on, every fact of the order encodes whatever happens to
      it, unless it was stamped with the zero instant: no reachable state blocks its outbox. */
  lemma ForwardClockNeverBlocks(r: R.Record, fences: set<Identity>, steps: seq<EvidenceStep>, k: nat)
    requires RecordOk(r) && r.order.status == Delivering
    requires IsForward(C.At(r.order.pickedUpAt), steps)
    requires k < |FromPickup(r, fences, steps).record.facts|
    requires FromPickup(r, fences, steps).record.facts[k].fact.payload.at != ZERO_TIME
    ensures Encode(FromPickup(r, fences, steps).record.facts[k]).Some?
  {
    hide RunAll, RecordOk, ReceiptOk, UploadsOk, ConfirmationOk, Encode, IsForward;
    PickedUp(r);
    PickupOk(r, fences);
    ReceiptsFollowPickup(AtPickup(r, fences), steps, r.order.pickedUpAt.value);
    FromPickupOk(r, fences, steps);
    var d := FromPickup(r, fences, steps);
    StoredFactsEncodeExactly(d.record, k);
    if d.record.facts[k].fact.kind == Outcome {
      OutcomeIsEnd(d.record, k);
      if d.record.order.status == Completed {
        var i := SomeReceiptDelivered(d);
      }
    }
  }

  // A clock set back

  // A confirmation without proof, received one second before the pickup's own stamp.
  const NO_PROOF: Input := Input([], false, true)

  function SetBack(r: R.Record, scope: nat, now: Time): seq<EvidenceStep>
    requires r.order.pickedUpAt.Some? && r.order.courier.Some?
  {
    [AdmitIt(r.order.courier.value, NO_PROOF, true, scope, r.order.pickedUpAt.value - SECOND),
     ConfirmIt(0, [], r.order.pickedUpAt.value + SECOND),
     Otherwise(Receive(R.Caller(r.order.requester, false, false), now))]
  }

  function EarlyReceipt(o: Order): Receipt
    requires o.pickedUpAt.Some? && o.courier.Some?
  {
    Receipt(o.courier.value, NO_PROOF, true, o.pickedUpAt.value - SECOND, Pending, None)
  }

  // The delivery once that confirmation is admitted.
  function Admitted(r: R.Record, fences: set<Identity>): Delivery
    requires r.order.pickedUpAt.Some? && r.order.courier.Some?
  {
    Delivery(r, NO_EVIDENCE.(fences := fences, receipts := [EarlyReceipt(r.order)]))
  }

  lemma Underway(r: R.Record)
    requires RecordOk(r) && r.order.status == Delivering
    ensures r.order.pickedUpAt.Some? && r.order.courier.Some? && r.order.courier.value != r.order.requester
    ensures 0 < r.order.deliveryDuration
  {}

  lemma EarlyIsAdmitted(r: R.Record, fences: set<Identity>, scope: nat)
    requires RecordOk(r) && r.order.status == Delivering && r.order.pickedUpAt.Some? && r.order.courier.Some?
    ensures Next(AtPickup(r, fences), SetBack(r, scope, 0)[0]) == Admitted(r, fences)
  {
    Underway(r);
  }

  lemma DeliversAsAsked(r: R.Record, at: Time, processedAt: Time)
    requires RecordOk(r) && r.order.status == Delivering && r.order.pickedUpAt.Some? && r.order.courier.Some?
    requires at < r.order.pickedUpAt.value
    ensures R.DeliverOrder(r, r.order.courier.value, at, false, processedAt).Ok?
    ensures var o := R.DeliverOrder(r, r.order.courier.value, at, false, processedAt).value.order;
            && o.status == Delivered && o.deliveredAt == Some(at) && o.pickedUpAt == r.order.pickedUpAt
            && o.courier == r.order.courier && o.requester == r.order.requester
  {
    Underway(r);
    var o := r.order;
    var after := o.(status := Delivered, deliveredAt := Some(at), unattended := false, revision := o.revision + 1,
                    updatedAt := processedAt);
    assert Transition(o, Action.Deliver, UserActor(o.courier.value)) == Go(Delivered);
    assert Allowed(o, after, Action.Deliver) == Some(after);
  }

  function AcceptedRecord(d: Delivery, processedAt: Time): Result<R.Record, Error> {
    match AcceptReceipt(d, 0, [], processedAt)
    case Err(e) => Err(e)
    case Ok(after) => Ok(after.record)
  }

  lemma EarlyIsAccepted(r: R.Record, fences: set<Identity>)
    requires RecordOk(r) && r.order.status == Delivering && r.order.pickedUpAt.Some? && r.order.courier.Some?
    ensures AcceptedRecord(Admitted(r, fences), r.order.pickedUpAt.value + SECOND)
         == R.DeliverOrder(r, r.order.courier.value, r.order.pickedUpAt.value - SECOND, false,
                           r.order.pickedUpAt.value + SECOND)
  {
    hide RecordOk, R.DeliverOrder;
    Underway(r);
    DeliversAsAsked(r, r.order.pickedUpAt.value - SECOND, r.order.pickedUpAt.value + SECOND);
    assert PendingReceipt(Admitted(r, fences).evidence.receipts) == Some(0);
  }

  lemma ReceiptCompletes(r: R.Record, now: Time)
    requires RecordOk(r) && r.order.status == Delivered
    ensures R.ConfirmReceiptOf(r, R.Caller(r.order.requester, false, false), now).Ok?
  {
    var o := r.order;
    var after := o.(status := Completed, completedAt := Some(Micros(now)), revision := o.revision + 1,
                    updatedAt := Micros(now));
    assert Transition(o, Action.ConfirmReceipt, UserActor(o.requester)) == Go(Completed);
    assert Allowed(o, after, Action.ConfirmReceipt) == Some(after);
  }

  lemma RunThree(d: Delivery, s: EvidenceStep, t: EvidenceStep, u: EvidenceStep)
    ensures RunAll(d, [s, t, u]) == Next(Next(Next(d, s), t), u)
  {
    hide Next;
    var d1 := Next(d, s);
    var d2 := Next(d1, t);
    assert [s, t, u][1..] == [t, u] && [t, u][1..] == [u] && [u][1..] == [];
    assert RunAll(d, [s, t, u]) == RunAll(d1, [t, u]);
    assert RunAll(d1, [t, u]) == RunAll(d2, [u]);
    assert RunAll(d2, [u]) == RunAll(Next(d2, u), []);
  }

  /** On every order that is being delivered: a receipt that the database clock dates one second before the pickup is
      admitted and accepted, the requester completes the order, and its outcome never encodes. */
  lemma SkewBlocksOutcome(r: R.Record, fences: set<Identity>, scope: nat, now: Time)
    requires RecordOk(r) && r.order.status == Delivering
    ensures r.order.pickedUpAt.Some? && r.order.courier.Some?
    ensures var done := FromPickup(r, fences, SetBack(r, scope, now)).record;
            && done.order.status == Completed && done.facts != []
            && done.facts[|done.facts| - 1].fact.kind == Outcome
            && OutcomeOf(done.facts[|done.facts| - 1].fact.payload).None?
  {
    hide RecordOk, R.DeliverOrder, R.Advance, AcceptReceipt, AdmitReceipt, OutcomeOf;
    Underway(r);
    var pickedUp, steps := r.order.pickedUpAt.value, SetBack(r, scope, now);
    RunThree(AtPickup(r, fences), steps[0], steps[1], steps[2]);
    EarlyIsAdmitted(r, fences, scope);
    EarlyIsAccepted(r, fences);
    DeliversAsAsked(r, pickedUp - SECOND, pickedUp + SECOND);
    var delivered := R.DeliverOrder(r, r.order.courier.value, pickedUp - SECOND, false, pickedUp + SECOND).value;
    DeliverOk(r, r.order.courier.value, pickedUp - SECOND, false, pickedUp + SECOND);
    ReceiptCompletes(delivered, now);
    CompletionEncodesExactly(r, r.order.courier.value, pickedUp - SECOND, false, pickedUp + SECOND,
                             R.Caller(r.order.requester, false, false), now);
  }
}
