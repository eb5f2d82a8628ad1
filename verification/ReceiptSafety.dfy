/** Delivery and timeout exclude each other, and no evidence that a delivery may rest on is ever retired. */
module ReceiptSafety {
  import opened Common
  import opened Orders
  import opened OrderInvariants
  import opened OrderSteps
  import opened CancellationSteps
  import opened Receipts
  import opened Saga
  import R = OrderRecords

  // Uploads and fences

  ghost predicate UploadsOk(e: Evidence) {
    && (forall p, q :: 0 <= p < q < |e.uploads| ==> e.uploads[p].identity != e.uploads[q].identity)
    && (forall p :: 0 <= p < |e.uploads| ==> (e.uploads[p].identity in e.fences <==> e.uploads[p].state == Deleting))
  }

  // Receipts

  ghost predicate OnePending(receipts: seq<Receipt>) {
    forall i, j :: 0 <= i < j < |receipts| ==> receipts[i].state != Pending || receipts[j].state != Pending
  }

  // The order has been picked up by the receipt's courier, and the receipt came before the deadline.
  ghost predicate OnTime(o: Order, r: Receipt) {
    && o.courier == Some(r.courier) && o.pickedUpAt.Some? && 0 < o.deliveryDuration
    && r.receivedAt < o.pickedUpAt.value + 2 * o.deliveryDuration
    && IsNormal(r.input) && (r.input.withoutProof ==> r.outage)
  }

  ghost predicate ReceiptOk(d: Delivery, r: Receipt) {
    && OnTime(d.record.order, r)
    && (r.state == Pending ==> forall p :: p in r.input.proofs ==> IsUsable(d.evidence, r.courier, r.receivedAt, p))
    && (r.state == Accepted ==>
          && d.evidence.confirmation == Some(Confirmation(r.courier, r.input, r.receivedAt))
          && forall p :: p in r.input.proofs ==>
               p < |d.evidence.uploads| && d.evidence.uploads[p].state == ProofAccepted)
  }

  // An accepted confirmation is what the order was delivered by.
  ghost predicate ConfirmationOk(d: Delivery) {
    var o, c := d.record.order, d.evidence.confirmation;
    && (c.Some? <==> o.status == Delivered || o.status == Completed)
    && (c.Some? ==>
          && o.deliveredAt == Some(c.value.confirmedAt) && OneAccepted(d.evidence.receipts)
          && PendingReceipt(d.evidence.receipts).None?)
    && (c.None? ==> forall k :: 0 <= k < |d.evidence.receipts| ==> d.evidence.receipts[k].state != Accepted)
  }

  ghost predicate OneAccepted(receipts: seq<Receipt>) {
    exists k :: 0 <= k < |receipts| && receipts[k].state == Accepted
      && forall j :: 0 <= j < |receipts| && j != k ==> receipts[j].state != Accepted
  }

  ghost predicate DeliveryOk(d: Delivery) {
    && RecordOk(d.record) && IsCommitted(d.record.order.status)
    && UploadsOk(d.evidence)
    && OnePending(d.evidence.receipts)
    && (forall k :: 0 <= k < |d.evidence.receipts| ==> ReceiptOk(d, d.evidence.receipts[k]))
    && ConfirmationOk(d)
  }

  // What no step takes back: a fence, a retired or accepted upload, a finished receipt, the confirmation.
  ghost predicate EvidenceLasts(e: Evidence, e': Evidence) {
    && e.fences <= e'.fences
    && |e.uploads| <= |e'.uploads|
    && (forall p :: 0 <= p < |e.uploads| ==>
          && e'.uploads[p].identity == e.uploads[p].identity
          && (e.uploads[p].state == Deleting ==> e'.uploads[p].state == Deleting)
          && (e.uploads[p].state == ProofAccepted ==> e'.uploads[p].state == ProofAccepted))
    && |e.receipts| <= |e'.receipts|
    && (forall k :: 0 <= k < |e.receipts| ==>
          && e'.receipts[k].courier == e.receipts[k].courier && e'.receipts[k].input == e.receipts[k].input
          && e'.receipts[k].receivedAt == e.receipts[k].receivedAt
          && (e.receipts[k].state != Pending ==> e'.receipts[k] == e.receipts[k]))
    && (e.confirmation.Some? ==> e'.confirmation == e.confirmation)
  }

  lemma PendingIsTheOne(receipts: seq<Receipt>, k: nat)
    requires OnePending(receipts) && k < |receipts| && receipts[k].state == Pending
    ensures PendingReceipt(receipts) == Some(k)
  {}

  lemma FoundIsTheOne(e: Evidence, p: nat)
    requires UploadsOk(e) && p < |e.uploads|
    ensures FindUpload(e.uploads, e.uploads[p].identity) == Some(p)
  {}

  // No step retires a proof that the pending receipt names.
  ghost predicate ReservedKept(e: Evidence, e': Evidence) {
    forall p :: 0 <= p < |e.uploads| && IsReserved(e, p) ==> p < |e'.uploads| && e'.uploads[p].state != Deleting
  }

  ghost predicate StepLasts(e: Evidence, e': Evidence) {
    EvidenceLasts(e, e') && ReservedKept(e, e')
  }

  // A reserved proof is still being uploaded.
  lemma ReservedIsUploading(d: Delivery, p: nat)
    requires DeliveryOk(d) && IsReserved(d.evidence, p)
    ensures p < |d.evidence.uploads| && d.evidence.uploads[p].state == Uploading
  {
    var k := PendingReceipt(d.evidence.receipts).value;
    assert ReceiptOk(d, d.evidence.receipts[k]);
    assert IsUsable(d.evidence, d.evidence.receipts[k].courier, d.evidence.receipts[k].receivedAt, p);
  }

  lemma SameUploadsKeep(d: Delivery, e': Evidence)
    requires DeliveryOk(d)
    requires |e'.uploads| == |d.evidence.uploads|
    requires forall p :: 0 <= p < |e'.uploads| ==>
               e'.uploads[p].state == d.evidence.uploads[p].state || e'.uploads[p].state == ProofAccepted
    ensures ReservedKept(d.evidence, e')
  {
    forall p | 0 <= p < |d.evidence.uploads| && IsReserved(d.evidence, p)
      ensures e'.uploads[p].state != Deleting
    {
      ReservedIsUploading(d, p);
    }
  }

  lemma StaysPut(d: Delivery)
    requires DeliveryOk(d)
    ensures StepLasts(d.evidence, d.evidence)
  {
    SameUploadsKeep(d, d.evidence);
  }

  lemma StepIsLasting(e: Evidence, e': Evidence)
    requires StepLasts(e, e')
    ensures EvidenceLasts(e, e')
  {}

  // Steps

  datatype EvidenceStep =
    | CreateIt(courier: UserId, upload: UploadInput, now: Time)
    | VerifyIt(courier: UserId, proof: nat, seen: Upload, now: Time)
    | AbandonIt(courier: UserId, name: nat)
    | CleanIt(proof: nat, scope: nat, now: Time)
    | AdmitIt(courier: UserId, input: Input, outage: bool, scope: nat, now: Time)
    | ConfirmIt(receipt: nat, inspected: seq<Upload>, now: Time)
    | RefuseIt(receipt: nat, now: Time)
    | TimeItOut(now: Time)
    | Otherwise(action: LocalAction)

  // Everything else that may happen to a picked-up order: cancellation, receipt, its item's location.
  function Other(d: Delivery, action: LocalAction): Result<Delivery, Error> {
    if action.DeliverBy? || action.TimeOut? then Ok(d)
    else
      match Act(d.record, action)
      case Ok(r) => Ok(d.(record := r))
      case Err(e) => Err(e)
  }

  function Try(d: Delivery, s: EvidenceStep): Result<Delivery, Error> {
    match s
    case CreateIt(courier, upload, now) => CreateUpload(d, courier, upload, now)
    case VerifyIt(courier, p, seen, now) => VerifyUpload(d, courier, p, seen, now)
    case AbandonIt(courier, name) => Abandon(d, courier, name)
    case CleanIt(p, scope, now) =>
      (match Clean(d, p, scope, now)
       case Ok(c) => Ok(c.delivery)
       case Err(e) => Err(e))
    case AdmitIt(courier, input, outage, scope, now) =>
      (match AdmitReceipt(d, courier, input, outage, scope, now)
       case Ok(a) => Ok(a.delivery)
       case Err(e) => Err(e))
    case ConfirmIt(k, inspected, now) => AcceptReceipt(d, k, inspected, now)
    case RefuseIt(k, now) => RefuseReceipt(d, k, now)
    case TimeItOut(now) => TimeoutDelivery(d, now)
    case Otherwise(action) => Other(d, action)
  }

  function Next(d: Delivery, s: EvidenceStep): Delivery {
    if Try(d, s).Ok? then Try(d, s).value else d
  }

  function RunAll(d: Delivery, steps: seq<EvidenceStep>): Delivery
    decreases |steps|
  {
    if steps == [] then d else RunAll(Next(d, steps[0]), steps[1..])
  }

  // Uploads change; receipts do not

  // What a change of uploads must leave to the receipts.
  ghost predicate KeepsProofs(e: Evidence, e': Evidence) {
    && e'.receipts == e.receipts && e'.confirmation == e.confirmation && |e.uploads| <= |e'.uploads|
    && (forall p :: 0 <= p < |e.uploads| ==>
          && e'.uploads[p].identity == e.uploads[p].identity
          && (e.uploads[p].verifiedAt.Some? ==> e'.uploads[p].verifiedAt == e.uploads[p].verifiedAt)
          && (e'.uploads[p].state == e.uploads[p].state
              || (e.uploads[p].state == Uploading && e'.uploads[p].state == Deleting && !IsReserved(e, p))))
  }

  lemma UploadsMove(d: Delivery, e: Evidence)
    requires DeliveryOk(d) && UploadsOk(e) && KeepsProofs(d.evidence, e) && d.evidence.fences <= e.fences
    ensures DeliveryOk(d.(evidence := e)) && StepLasts(d.evidence, e)
  {
    var d' := d.(evidence := e);
    forall p | 0 <= p < |d.evidence.uploads| && IsReserved(d.evidence, p)
      ensures e.uploads[p].state != Deleting
    {
      ReservedIsUploading(d, p);
    }
    forall k | 0 <= k < |e.receipts|
      ensures ReceiptOk(d', e.receipts[k])
    {
      var r := e.receipts[k];
      assert ReceiptOk(d, r);
      if r.state == Pending {
        PendingIsTheOne(e.receipts, k);
        forall p | p in r.input.proofs
          ensures IsUsable(e, r.courier, r.receivedAt, p)
        {
          assert IsUsable(d.evidence, r.courier, r.receivedAt, p);
          assert IsReserved(d.evidence, p);
        }
      }
    }
  }

  lemma SaveUploadMoves(e: Evidence, p: nat, row: Upload)
    requires UploadsOk(e) && SaveUpload(e, p, row).Ok? && row.state == Uploading
    ensures var e' := SaveUpload(e, p, row).value;
            UploadsOk(e') && KeepsProofs(e, e') && e'.fences == e.fences
  {}

  lemma CreateUploadOk(d: Delivery, courier: UserId, input: UploadInput, now: Time)
    requires DeliveryOk(d) && CreateUpload(d, courier, input, now).Ok?
    ensures var d' := CreateUpload(d, courier, input, now).value;
            DeliveryOk(d') && StepLasts(d.evidence, d'.evidence)
  {
    var d' := CreateUpload(d, courier, input, now).value;
    if d' == d {
      StaysPut(d);
    } else {
      var (p, row) := UploadToSign(d.evidence, courier, input, now).value;
      SaveUploadMoves(d.evidence, p, Renewed(row, input, now));
      UploadsMove(d, d'.evidence);
    }
  }

  lemma VerifyUploadOk(d: Delivery, courier: UserId, p: nat, expected: Upload, now: Time)
    requires DeliveryOk(d) && VerifyUpload(d, courier, p, expected, now).Ok?
    ensures var d' := VerifyUpload(d, courier, p, expected, now).value;
            DeliveryOk(d') && StepLasts(d.evidence, d'.evidence)
  {
    UploadsMove(d, VerifyUpload(d, courier, p, expected, now).value.evidence);
  }

  lemma AbandonMoves(e: Evidence, identity: Identity)
    requires UploadsOk(e) && AbandonIdentity(e, identity).Ok?
    ensures var e' := AbandonIdentity(e, identity).value;
            UploadsOk(e') && KeepsProofs(e, e') && e.fences <= e'.fences && identity in e'.fences
  {
    var found := FindUpload(e.uploads, identity);
    forall p | 0 <= p < |e.uploads| && e.uploads[p].identity == identity
      ensures found == Some(p)
    {
      FoundIsTheOne(e, p);
    }
  }

  lemma AbandonOk(d: Delivery, courier: UserId, upload: nat)
    requires DeliveryOk(d) && Abandon(d, courier, upload).Ok?
    ensures var d' := Abandon(d, courier, upload).value;
            DeliveryOk(d') && StepLasts(d.evidence, d'.evidence)
  {
    AbandonMoves(d.evidence, Identity(courier, upload));
    UploadsMove(d, Abandon(d, courier, upload).value.evidence);
  }

  lemma CleanOk(d: Delivery, p: nat, scope: nat, now: Time)
    requires DeliveryOk(d) && Clean(d, p, scope, now).Ok?
    ensures var c := Clean(d, p, scope, now).value;
            && DeliveryOk(c.delivery) && StepLasts(d.evidence, c.delivery.evidence)
            && (c.delete ==> c.delivery.evidence.uploads[p].state == Deleting)
  {
    var c := Clean(d, p, scope, now).value;
    if c.delivery == d && !c.delete {
      StaysPut(d);
    } else {
      AbandonMoves(d.evidence, d.evidence.uploads[p].identity);
      UploadsMove(d, c.delivery.evidence);
    }
  }

  // Receipts change; uploads do not

  lemma AdmitOk(d: Delivery, courier: UserId, input: Input, outage: bool, scope: nat, now: Time)
    requires DeliveryOk(d) && AdmitReceipt(d, courier, input, outage, scope, now).Ok?
    ensures var d' := AdmitReceipt(d, courier, input, outage, scope, now).value.delivery;
            DeliveryOk(d') && StepLasts(d.evidence, d'.evidence)
  {
    var d' := AdmitReceipt(d, courier, input, outage, scope, now).value.delivery;
    SameUploadsKeep(d, d'.evidence);
    if d' != d {
      forall k | 0 <= k < |d'.evidence.receipts|
        ensures ReceiptOk(d', d'.evidence.receipts[k])
      {
        if k < |d.evidence.receipts| {
          assert ReceiptOk(d, d.evidence.receipts[k]);
        }
      }
    }
  }

  lemma RefuseOk(d: Delivery, k: nat, now: Time)
    requires DeliveryOk(d) && RefuseReceipt(d, k, now).Ok?
    ensures var d' := RefuseReceipt(d, k, now).value;
            DeliveryOk(d') && StepLasts(d.evidence, d'.evidence)
  {
    var d' := RefuseReceipt(d, k, now).value;
    SameUploadsKeep(d, d'.evidence);
    if d' != d {
      PendingIsTheOne(d.evidence.receipts, k);
      forall j | 0 <= j < |d'.evidence.receipts|
        ensures ReceiptOk(d', d'.evidence.receipts[j])
      {
        assert ReceiptOk(d, d.evidence.receipts[j]);
      }
    }
  }

  // Acceptance

  // What the accepted receipt makes of the evidence.
  ghost predicate Accepts(e: Evidence, k: nat, e': Evidence) {
    && k < |e.receipts| && e.receipts[k].state == Pending && e.confirmation.None?
    && var r := e.receipts[k];
       && e'.uploads == AcceptProofs(e.uploads, r.input.proofs) && e'.fences == e.fences
       && |e'.receipts| == |e.receipts| && e'.receipts == e.receipts[k := e'.receipts[k]]
       && e'.receipts[k] == r.(state := Accepted, processedAt := e'.receipts[k].processedAt)
       && e'.confirmation == Some(Confirmation(r.courier, r.input, r.receivedAt))
  }

  lemma SaveAccepts(e: Evidence, k: nat, expected: seq<Upload>, processedAt: Time)
    requires OnePending(e.receipts) && k < |e.receipts|
    requires SaveConfirmation(e, e.receipts[k], expected, processedAt).Ok?
    requires e.receipts[k].state == Pending
    ensures Accepts(e, k, SaveConfirmation(e, e.receipts[k], expected, processedAt).value)
  {
    PendingIsTheOne(e.receipts, k);
  }

  lemma AcceptedUploads(e: Evidence, k: nat, e': Evidence)
    requires UploadsOk(e) && Accepts(e, k, e')
    requires forall p :: p in e.receipts[k].input.proofs ==> p < |e.uploads| && e.uploads[p].state == Uploading
    ensures UploadsOk(e') && EvidenceLasts(e, e')
  {}

  // What an accepted delivery needs of the order.
  ghost predicate Delivers(d: Delivery, k: nat, d': Delivery) {
    && k < |d.evidence.receipts|
    && RecordOk(d'.record) && Keeps(d.record.order, d'.record.order)
    && d.record.order.status == Delivering && d'.record.order.status == Delivered
    && d'.record.order.deliveredAt == Some(d.evidence.receipts[k].receivedAt)
  }

  lemma AcceptedReceipt(d: Delivery, k: nat, d': Delivery, j: nat)
    requires OnePending(d.evidence.receipts) && Accepts(d.evidence, k, d'.evidence) && Delivers(d, k, d')
    requires j < |d.evidence.receipts| && ReceiptOk(d, d.evidence.receipts[j])
    requires d.evidence.receipts[j].state != Accepted
    ensures ReceiptOk(d', d'.evidence.receipts[j])
    ensures d'.evidence.receipts[j].state != Pending
    ensures j != k ==> d'.evidence.receipts[j].state != Accepted
  {
    hide RecordOk;
    PendingIsTheOne(d.evidence.receipts, k);
  }

  lemma AcceptedConfirmation(d: Delivery, k: nat, d': Delivery)
    requires Accepts(d.evidence, k, d'.evidence) && Delivers(d, k, d')
    requires forall j :: 0 <= j < |d'.evidence.receipts| ==>
               && d'.evidence.receipts[j].state != Pending
               && (j != k ==> d'.evidence.receipts[j].state != Accepted)
    ensures ConfirmationOk(d') && OnePending(d'.evidence.receipts)
  {
    hide RecordOk;
    assert d'.evidence.receipts[k].state == Accepted;
  }

  lemma AcceptsOk(d: Delivery, k: nat, d': Delivery)
    requires DeliveryOk(d) && Accepts(d.evidence, k, d'.evidence) && Delivers(d, k, d')
    ensures DeliveryOk(d') && StepLasts(d.evidence, d'.evidence)
  {
    hide RecordOk, ConfirmationOk;
    var e, e' := d.evidence, d'.evidence;
    NoneAcceptedYet(d);
    SameUploadsKeep(d, e');
    assert ReceiptOk(d, e.receipts[k]);
    AcceptedUploads(e, k, e');
    forall j | 0 <= j < |e'.receipts|
      ensures ReceiptOk(d', e'.receipts[j]) && e'.receipts[j].state != Pending
      ensures j != k ==> e'.receipts[j].state != Accepted
    {
      assert ReceiptOk(d, e.receipts[j]);
      AcceptedReceipt(d, k, d', j);
    }
    AcceptedConfirmation(d, k, d');
  }

  lemma NoneAcceptedYet(d: Delivery)
    requires ConfirmationOk(d) && d.evidence.confirmation.None?
    ensures forall j :: 0 <= j < |d.evidence.receipts| ==> d.evidence.receipts[j].state != Accepted
  {}

  lemma DeliverMovesOn(r: R.Record, courier: UserId, at: Time, unattended: bool, processedAt: Time)
    requires R.DeliverOrder(r, courier, at, unattended, processedAt).Ok?
    ensures var o := R.DeliverOrder(r, courier, at, unattended, processedAt).value.order;
            r.order.status == Delivering && o.status == Delivered && o.deliveredAt == Some(at)
  {
    hide Allowed;
  }

  lemma ConfirmDelivers(d: Delivery, k: nat, expected: seq<Upload>, processedAt: Time)
    requires OnePending(d.evidence.receipts) && AcceptReceipt(d, k, expected, processedAt).Ok?
    requires d.evidence.confirmation.None? ==>
               forall j :: 0 <= j < |d.evidence.receipts| ==> d.evidence.receipts[j].state != Accepted
    ensures var d' := AcceptReceipt(d, k, expected, processedAt).value;
            || d' == d
            || (&& Accepts(d.evidence, k, d'.evidence)
                && var r := d.evidence.receipts[k];
                   && R.DeliverOrder(d.record, r.courier, r.receivedAt, r.input.unattended, processedAt)
                      == Ok(d'.record)
                   && d.record.order.status == Delivering && d'.record.order.status == Delivered
                   && d'.record.order.deliveredAt == Some(r.receivedAt))
  {
    hide R.DeliverOrder, R.CanDeliver, RechecksAll, Accepts, OnePending;
    if d.evidence.confirmation.None? {
      var r := d.evidence.receipts[k];
      SaveAccepts(d.evidence, k, expected, processedAt);
      DeliverMovesOn(d.record, r.courier, r.receivedAt, r.input.unattended, processedAt);
    }
  }

  lemma ConfirmOk(d: Delivery, k: nat, expected: seq<Upload>, processedAt: Time)
    requires DeliveryOk(d) && AcceptReceipt(d, k, expected, processedAt).Ok?
    ensures var d' := AcceptReceipt(d, k, expected, processedAt).value;
            DeliveryOk(d') && StepLasts(d.evidence, d'.evidence)
  {
    hide RecordOk, Follows, R.DeliverOrder, ReceiptOk, UploadsOk;
    var d' := AcceptReceipt(d, k, expected, processedAt).value;
    ConfirmDelivers(d, k, expected, processedAt);
    StaysPut(d);
    if d' != d {
      var r := d.evidence.receipts[k];
      DeliverOk(d.record, r.courier, r.receivedAt, r.input.unattended, processedAt);
      FollowsMeansKeeps(d.record, d'.record);
      AcceptsOk(d, k, d');
    }
  }

  lemma FollowsMeansKeeps(r: R.Record, r': R.Record)
    requires Follows(r, r')
    ensures Keeps(r.order, r'.order)
  {}

  // The order moves

  // The order keeps what receipts rest on, and is delivered neither more nor less than before.
  lemma OrderMoves(d: Delivery, r': R.Record)
    requires DeliveryOk(d) && RecordOk(r') && Keeps(d.record.order, r'.order)
    requires r'.order.deliveredAt == d.record.order.deliveredAt
    requires (r'.order.status == Delivered || r'.order.status == Completed)
        <==> (d.record.order.status == Delivered || d.record.order.status == Completed)
    ensures DeliveryOk(d.(record := r')) && StepLasts(d.evidence, d.evidence)
  {
    var d' := d.(record := r');
    StaysPut(d);
    forall k | 0 <= k < |d'.evidence.receipts|
      ensures ReceiptOk(d', d'.evidence.receipts[k])
    {
      assert ReceiptOk(d, d.evidence.receipts[k]);
    }
  }

  lemma ActOk(r: R.Record, action: LocalAction)
    requires RecordOk(r) && Act(r, action).Ok?
    ensures RecordOk(Act(r, action).value) && Follows(r, Act(r, action).value)
  {
    hide RecordOk, Follows;
    match action {
      case Propose(caller, credits, now) => MakeOfferOk(r, caller, credits, now);
      case AcceptCounter(caller, offer, now) => AcceptOfferOk(r, caller, offer, now);
      case CancelBy(user, reason, revision, now) => CancelOk(r, user, reason, revision, now);
      case PickUp(caller, now) => AdvanceOk(r, caller, Action.Pickup, now);
      case DeliverBy(user, at, unattended, now) => DeliverOk(r, user, at, unattended, now);
      case Receive(caller, now) => AdvanceOk(r, caller, Action.ConfirmReceipt, now);
      case ExpireNow(now) => ExpireOk(r, now);
      case TimeOut(pending, now) => TimeoutOk(r, pending, now);
      case Locate(user, location, now) => LocationOk(r, user, location, now);
    }
  }

  // Neither delivered nor undelivered.
  ghost predicate SameDelivery(o: Order, o': Order) {
    && o'.deliveredAt == o.deliveredAt
    && (o'.status == Delivered || o'.status == Completed <==> o.status == Delivered || o.status == Completed)
  }

  lemma CancelIsNoDelivery(r: R.Record, user: UserId, reason: OrderText, revision: Option<int>, now: Time)
    requires IsCommitted(r.order.status) && R.CancelOrder(r, user, reason, revision, now).Ok?
    ensures SameDelivery(r.order, R.CancelOrder(r, user, reason, revision, now).value.record.order)
  {}

  lemma AdvanceIsNoDelivery(r: R.Record, caller: R.Caller, action: Action, now: Time)
    requires IsCommitted(r.order.status) && R.Advance(r, caller, action, now).Ok?
    requires action == Action.Pickup || action == Action.ConfirmReceipt
    ensures SameDelivery(r.order, R.Advance(r, caller, action, now).value.order)
  {}

  lemma OthersAreNoDelivery(r: R.Record, action: LocalAction)
    requires IsCommitted(r.order.status) && Act(r, action).Ok?
    requires action.Propose? || action.AcceptCounter? || action.ExpireNow? || action.Locate?
    ensures SameDelivery(r.order, Act(r, action).value.order)
  {}

  lemma OtherActions(r: R.Record, action: LocalAction)
    requires IsCommitted(r.order.status) && !action.DeliverBy? && !action.TimeOut? && Act(r, action).Ok?
    ensures SameDelivery(r.order, Act(r, action).value.order)
  {
    hide SameDelivery, R.CancelOrder, R.Advance;
    match action {
      case CancelBy(user, reason, revision, now) => CancelIsNoDelivery(r, user, reason, revision, now);
      case PickUp(caller, now) => AdvanceIsNoDelivery(r, caller, Action.Pickup, now);
      case Receive(caller, now) => AdvanceIsNoDelivery(r, caller, Action.ConfirmReceipt, now);
      case _ => OthersAreNoDelivery(r, action);
    }
  }

  lemma OtherOk(d: Delivery, action: LocalAction)
    requires DeliveryOk(d) && Other(d, action).Ok?
    ensures var d' := Other(d, action).value;
            DeliveryOk(d') && StepLasts(d.evidence, d'.evidence)
  {
    hide RecordOk, Follows, Act, ReceiptOk, UploadsOk, StepLasts;
    StaysPut(d);
    if !action.DeliverBy? && !action.TimeOut? {
      ActOk(d.record, action);
      FollowsMeansKeeps(d.record, Act(d.record, action).value);
      OtherActions(d.record, action);
      OrderMoves(d, Act(d.record, action).value);
    }
  }

  lemma TimeoutOnlyFails(r: R.Record, pending: bool, now: Time)
    requires R.TimeoutOrder(r, pending, now).Ok?
    ensures var r' := R.TimeoutOrder(r, pending, now).value;
            && r'.order.deliveredAt == r.order.deliveredAt
            && (r'.order.status == Delivered || r'.order.status == Completed
                <==> r.order.status == Delivered || r.order.status == Completed)
  {}

  lemma TimeoutStepOk(d: Delivery, now: Time)
    requires DeliveryOk(d) && TimeoutDelivery(d, now).Ok?
    ensures DeliveryOk(TimeoutDelivery(d, now).value) && StepLasts(d.evidence, TimeoutDelivery(d, now).value.evidence)
  {
    hide RecordOk, Follows, R.TimeoutOrder, ReceiptOk, UploadsOk, HasPendingDelivery, StepLasts;
    var pending := HasPendingDelivery(d);
    TimeoutOk(d.record, pending, now);
    FollowsMeansKeeps(d.record, R.TimeoutOrder(d.record, pending, now).value);
    TimeoutOnlyFails(d.record, pending, now);
    OrderMoves(d, R.TimeoutOrder(d.record, pending, now).value);
  }

  // Runs

  lemma LastsItself(e: Evidence)
    ensures EvidenceLasts(e, e)
  {}

  lemma LastsTransitive(e: Evidence, e': Evidence, e'': Evidence)
    requires EvidenceLasts(e, e') && EvidenceLasts(e', e'')
    ensures EvidenceLasts(e, e'')
  {}

  lemma NextOk(d: Delivery, s: EvidenceStep)
    requires DeliveryOk(d)
    ensures DeliveryOk(Next(d, s)) && StepLasts(d.evidence, Next(d, s).evidence)
  {
    hide DeliveryOk, StepLasts, CreateUpload, VerifyUpload, Abandon, Clean, AdmitReceipt, AcceptReceipt,
         RefuseReceipt, TimeoutDelivery, Other;
    if Try(d, s).Err? {
      StaysPut(d);
    } else {
      match s {
        case CreateIt(courier, upload, now) => CreateUploadOk(d, courier, upload, now);
        case VerifyIt(courier, p, seen, now) => VerifyUploadOk(d, courier, p, seen, now);
        case AbandonIt(courier, name) => AbandonOk(d, courier, name);
        case CleanIt(p, scope, now) => CleanOk(d, p, scope, now);
        case AdmitIt(courier, input, outage, scope, now) => AdmitOk(d, courier, input, outage, scope, now);
        case ConfirmIt(k, inspected, now) => ConfirmOk(d, k, inspected, now);
        case RefuseIt(k, now) => RefuseOk(d, k, now);
        case TimeItOut(now) => TimeoutStepOk(d, now);
        case Otherwise(action) => OtherOk(d, action);
      }
    }
  }

  lemma {:induction false} RunAllOk(d: Delivery, steps: seq<EvidenceStep>)
    requires DeliveryOk(d)
    ensures DeliveryOk(RunAll(d, steps)) && EvidenceLasts(d.evidence, RunAll(d, steps).evidence)
    decreases |steps|
  {
    hide DeliveryOk, EvidenceLasts, Next;
    if steps == [] {
      LastsItself(d.evidence);
    } else {
      NextOk(d, steps[0]);
      StepIsLasting(d.evidence, Next(d, steps[0]).evidence);
      RunAllOk(Next(d, steps[0]), steps[1..]);
      LastsTransitive(d.evidence, Next(d, steps[0]).evidence, RunAll(d, steps).evidence);
    }
  }

  // From pickup on

  // Couriers may fence identities before pickup; nothing else can have happened to the evidence by then.
  function AtPickup(r: R.Record, fences: set<Identity>): Delivery {
    Delivery(r, NO_EVIDENCE.(fences := fences))
  }

  /** Before pickup every step leaves at most more fences: no upload, no receipt, no confirmation. */
  lemma OnlyFencesBeforePickup(r: R.Record, fences: set<Identity>, s: EvidenceStep)
    requires r.order.pickedUpAt.None?
    ensures var d := Next(AtPickup(r, fences), s);
            d == AtPickup(d.record, d.evidence.fences) && fences <= d.evidence.fences
  {
    hide R.TimeoutOrder, Act;
  }

  lemma PickupOk(r: R.Record, fences: set<Identity>)
    requires RecordOk(r) && r.order.status == Delivering
    ensures DeliveryOk(AtPickup(r, fences))
  {}

  ghost function FromPickup(r: R.Record, fences: set<Identity>, steps: seq<EvidenceStep>): Delivery {
    RunAll(AtPickup(r, fences), steps)
  }

  lemma FromPickupOk(r: R.Record, fences: set<Identity>, steps: seq<EvidenceStep>)
    requires RecordOk(r) && r.order.status == Delivering
    ensures DeliveryOk(FromPickup(r, fences, steps))
  {
    PickupOk(r, fences);
    RunAllOk(AtPickup(r, fences), steps);
  }

  // Whatever is pending on a delivering order is still eligible: the timer's SQL finds it.
  lemma PendingIsEligible(d: Delivery)
    requires DeliveryOk(d) && d.record.order.status == Delivering
    ensures HasPendingDelivery(d) <==> PendingReceipt(d.evidence.receipts).Some?
  {
    var k := PendingReceipt(d.evidence.receipts);
    if k.Some? {
      assert ReceiptOk(d, d.evidence.receipts[k.value]);
    }
  }

  lemma TimeoutFires(r: R.Record, pending: bool, now: Time)
    requires OrderShape(r.order, r.workflow.amount) && r.order.status == Delivering
    ensures R.TimeoutOrder(r, pending, now).Ok?
    ensures R.TimeoutOrder(r, pending, now).value.order.status ==
            if !pending && r.order.pickedUpAt.value + 2 * r.order.deliveryDuration <= now then Failed else Delivering
  {
    var o := r.order;
    var after := o.(status := Failed, revision := o.revision + 1, updatedAt := now, closedAt := Some(now),
                    closeReason := Some("delivery_timed_out"));
    assert Transition(o, Action.Timeout, SYSTEM) == Go(Failed);
    assert Allowed(o, after, Action.Timeout) == Some(after);
  }

  /** The timer fails a delivering order exactly when the deadline has passed and no receipt is pending, whatever
      uploads, confirmations and clean-ups have happened since pickup. */
  lemma TimeoutExactly(r: R.Record, fences: set<Identity>, steps: seq<EvidenceStep>, now: Time)
    requires RecordOk(r) && r.order.status == Delivering
    requires FromPickup(r, fences, steps).record.order.status == Delivering
    ensures var d := FromPickup(r, fences, steps);
            && d.record.order.pickedUpAt.Some? && TimeoutDelivery(d, now).Ok?
            && (TimeoutDelivery(d, now).value.record.order.status == Failed <==>
                  && d.record.order.pickedUpAt.value + 2 * d.record.order.deliveryDuration <= now
                  && PendingReceipt(d.evidence.receipts).None?)
  {
    hide RunAll, HasPendingDelivery, R.TimeoutOrder;
    FromPickupOk(r, fences, steps);
    var d := FromPickup(r, fences, steps);
    PendingIsEligible(d);
    TimeoutFires(d.record, HasPendingDelivery(d), now);
  }

  // The order was delivered by its k-th receipt, on time, and by no other.
  ghost predicate DeliveredBy(o: Order, receipts: seq<Receipt>, k: nat) {
    && k < |receipts| && receipts[k].state == Accepted && o.deliveredAt == Some(receipts[k].receivedAt)
    && OnTime(o, receipts[k])
    && forall j :: 0 <= j < |receipts| && j != k ==> receipts[j].state != Accepted && receipts[j].state != Pending
  }

  // The accepted receipt, beside which none is accepted or pending.
  lemma TheAccepted(receipts: seq<Receipt>) returns (k: nat)
    requires OneAccepted(receipts) && PendingReceipt(receipts).None?
    ensures k < |receipts| && receipts[k].state == Accepted
    ensures forall j :: 0 <= j < |receipts| && j != k ==> receipts[j].state != Accepted && receipts[j].state != Pending
  {
    k :| 0 <= k < |receipts| && receipts[k].state == Accepted
      && forall j :: 0 <= j < |receipts| && j != k ==> receipts[j].state != Accepted;
  }

  lemma SomeReceiptDelivered(d: Delivery) returns (k: nat)
    requires DeliveryOk(d) && (d.record.order.status == Delivered || d.record.order.status == Completed)
    ensures DeliveredBy(d.record.order, d.evidence.receipts, k)
  {
    hide RecordOk, UploadsOk, OnePending, OneAccepted, PendingReceipt, OnTime, IsUsable;
    k := TheAccepted(d.evidence.receipts);
    assert ReceiptOk(d, d.evidence.receipts[k]);
  }

  /** At most one receipt is ever pending; and an order is delivered exactly by one accepted receipt, at the instant
      it was received, strictly before twice the delivery duration after pickup. */
  lemma DeliveredByOneReceipt(r: R.Record, fences: set<Identity>, steps: seq<EvidenceStep>)
    requires RecordOk(r) && r.order.status == Delivering
    ensures var d := FromPickup(r, fences, steps);
            var o := d.record.order;
            && OnePending(d.evidence.receipts)
            && (o.status == Delivered || o.status == Completed ==> exists k :: DeliveredBy(o, d.evidence.receipts, k))
  {
    hide FromPickup, RecordOk, ReceiptOk, DeliveredBy, UploadsOk, ConfirmationOk;
    FromPickupOk(r, fences, steps);
    var d := FromPickup(r, fences, steps);
    if d.record.order.status == Delivered || d.record.order.status == Completed {
      var k := SomeReceiptDelivered(d);
    }
  }

  /** Evidence is never lost: in every reachable state the proofs of a pending receipt are stored, verified before it
      was received, and those of an accepted one are accepted for good. */
  lemma EvidenceIsKept(r: R.Record, fences: set<Identity>, steps: seq<EvidenceStep>, k: nat, p: nat)
    requires RecordOk(r) && r.order.status == Delivering
    requires k < |FromPickup(r, fences, steps).evidence.receipts|
    requires p in FromPickup(r, fences, steps).evidence.receipts[k].input.proofs
    ensures var e := FromPickup(r, fences, steps).evidence;
            && (e.receipts[k].state == Pending ==> IsUsable(e, e.receipts[k].courier, e.receipts[k].receivedAt, p))
            && (e.receipts[k].state == Accepted ==> p < |e.uploads| && e.uploads[p].state == ProofAccepted)
  {
    hide RunAll, RecordOk, ConfirmationOk;
    FromPickupOk(r, fences, steps);
    assert ReceiptOk(FromPickup(r, fences, steps), FromPickup(r, fences, steps).evidence.receipts[k]);
  }

  /** A fenced identity is never revived: in every later state its uploads are retired, and none was attached. */
  lemma FencedForGood(r: R.Record, fences: set<Identity>, steps: seq<EvidenceStep>, more: seq<EvidenceStep>,
                      identity: Identity, p: nat)
    requires RecordOk(r) && r.order.status == Delivering
    requires identity in FromPickup(r, fences, steps).evidence.fences
    requires var e := RunAll(FromPickup(r, fences, steps), more).evidence;
             p < |e.uploads| && e.uploads[p].identity == identity
    ensures RunAll(FromPickup(r, fences, steps), more).evidence.uploads[p].state == Deleting
  {
    hide RunAll, RecordOk, ConfirmationOk, ReceiptOk;
    FromPickupOk(r, fences, steps);
    RunAllOk(FromPickup(r, fences, steps), more);
  }
}
