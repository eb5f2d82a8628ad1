/** What each step of delivery evidence decides and stores: receipts, their acceptance, and the uploads behind them. */
module ReceiptEffects {
  import opened Common
  import opened Orders
  import opened OrderInvariants
  import opened Receipts
  import opened ReceiptSafety
  import opened ProgressEffects
  import R = OrderRecords

  // The courier may still deliver this order.
  predicate IsDeliverable(o: Order, courier: UserId, at: Time) {
    && o.courier == Some(courier) && o.status == Delivering && o.pickedUpAt.Some?
    && at < o.pickedUpAt.value + 2 * o.deliveryDuration
  }

  lemma DeliverableExactly(o: Order, courier: UserId, at: Time)
    requires 0 < o.deliveryDuration
    ensures R.CanDeliver(o, courier, at).None? <==> IsDeliverable(o, courier, at)
    ensures o.courier != Some(courier) <==> R.CanDeliver(o, courier, at) == Some(NotFound)
    ensures R.CanDeliver(o, courier, at).Some? ==> R.CanDeliver(o, courier, at).value in {NotFound, Precondition}
  {}

  // Up to five proofs in ascending order, and none exactly when the confirmation says it has none.
  ghost predicate IsProper(input: Input) {
    && |input.proofs| <= 5 && (input.withoutProof <==> |input.proofs| == 0)
    && forall i, j :: 0 <= i < j < |input.proofs| ==> input.proofs[i] < input.proofs[j]
  }

  // An upload of the courier that was verified by then, under the given scope.
  ghost predicate IsVerified(e: Evidence, p: nat, courier: UserId, scope: nat, at: Time) {
    && p < |e.uploads| && e.uploads[p].state == Uploading && e.uploads[p].identity.courier == courier
    && e.uploads[p].scope == scope && e.uploads[p].verifiedAt.Some? && e.uploads[p].verifiedAt.value <= at
  }

  /** A confirmation is admitted exactly from the assigned courier in time, on verified proofs of the current scope, or
      with none during an outage the server itself has confirmed. One that was accepted or is being validated answers
      its own repeat and refuses any other; nothing but a first admission changes anything. */
  lemma ReceivedExactly(d: Delivery, courier: UserId, input: Input, outage: bool, scope: nat, now: Time)
    requires DeliveryOk(d)
    ensures var o, e, result := d.record.order, d.evidence, AdmitReceipt(d, courier, input, outage, scope, now);
            var n := |e.receipts|;
            if !IsProper(input) then result == Err(Invalid)
            else if o.courier != Some(courier) then result == Err(NotFound)
            else if e.confirmation.Some? then
              result == (if e.confirmation.value.courier == courier && e.confirmation.value.input == input
                         then Ok(Admitted(d, Replayed)) else Err(Precondition))
            else if exists k: nat :: k < n && e.receipts[k].state == Pending then
              forall k: nat :: k < n && e.receipts[k].state == Pending ==>
                result == (if e.receipts[k].courier == courier && e.receipts[k].input == input
                           then Ok(Admitted(d, Joined(k))) else Err(Precondition))
            else if && IsDeliverable(o, courier, now)
                    && (forall p :: p in input.proofs ==> IsVerified(e, p, courier, scope, now))
                    && (input.withoutProof ==> outage) then
              var received := Receipt(courier, input, outage, now, Pending, None);
              result == Ok(Admitted(d.(evidence := e.(receipts := e.receipts + [received])), Received(n)))
            else result == Err(Precondition)
  {
    hide RecordOk, UploadsOk, ReceiptOk, ConfirmationOk, R.CanDeliver, PendingReceipt;
    RowsAreOk(d);
    DeliverableExactly(d.record.order, courier, now);
    PendingExactly(d.evidence.receipts);
    forall p: nat
      ensures IsVerified(d.evidence, p, courier, scope, now) <==>
              IsUsable(d.evidence, courier, now, p) && d.evidence.uploads[p].scope == scope
    {}
  }

  lemma RowsAreOk(d: Delivery)
    requires DeliveryOk(d)
    ensures 0 < d.record.order.deliveryDuration && d.record.order.courier != Some(d.record.order.requester)
    ensures OnePending(d.evidence.receipts)
  {}

  lemma PendingExactly(receipts: seq<Receipt>)
    requires OnePending(receipts)
    ensures forall k: nat :: k < |receipts| && receipts[k].state == Pending <==> PendingReceipt(receipts) == Some(k)
    ensures PendingReceipt(receipts).Some? ==> PendingReceipt(receipts).value < |receipts|
  {
    forall k: nat
      ensures k < |receipts| && receipts[k].state == Pending <==> PendingReceipt(receipts) == Some(k)
    {
      if k < |receipts| && receipts[k].state == Pending {
        PendingIsTheOne(receipts, k);
      }
    }
  }

  // Acceptance

  // The stored upload is exactly what was inspected, verified before the receipt came, and the courier's own.
  ghost predicate IsInspected(e: Evidence, r: Receipt, p: nat, expected: Upload) {
    && p < |e.uploads| && e.uploads[p].state == Uploading && expected.state == Uploading
    && e.uploads[p].identity == expected.identity && expected.identity.courier == r.courier
    && e.uploads[p].contentType == expected.contentType && e.uploads[p].size == expected.size
    && e.uploads[p].scope == expected.scope && e.uploads[p].createdAt == expected.createdAt
    && e.uploads[p].verifiedAt == expected.verifiedAt
    && expected.verifiedAt.Some? && expected.verifiedAt.value <= r.receivedAt
  }

  // The named proofs are attached for good and every other upload stays as it is.
  ghost predicate Attaches(us: seq<Upload>, vs: seq<Upload>, proofs: seq<nat>) {
    && |vs| == |us|
    && forall p :: 0 <= p < |us| ==> vs[p] == if p in proofs then us[p].(state := ProofAccepted) else us[p]
  }

  lemma InspectedExactly(e: Evidence, r: Receipt, p: nat, expected: Upload)
    ensures IsInspected(e, r, p, expected) <==> IsProof(e, r, p, expected)
    ensures IsInspected(e, r, p, expected) ==> Rechecks(e, r.courier, p, expected)
  {}

  lemma SavesExactly(e: Evidence, k: nat, expected: seq<Upload>, processedAt: Time)
    requires OnePending(e.receipts) && k < |e.receipts| && e.receipts[k].state == Pending && e.confirmation.None?
    ensures var r, result := e.receipts[k], SaveConfirmation(e, e.receipts[k], expected, processedAt);
            && (result.Ok? <==>
                  && |expected| == |r.input.proofs|
                  && forall i :: 0 <= i < |expected| ==> IsInspected(e, r, r.input.proofs[i], expected[i]))
            && (result.Err? ==> result.error == Precondition)
            && (result.Ok? ==>
                  && result.value.fences == e.fences
                  && Attaches(e.uploads, result.value.uploads, r.input.proofs)
                  && result.value.receipts == e.receipts[k := r.(state := Accepted, processedAt := Some(processedAt))]
                  && result.value.confirmation == Some(Confirmation(r.courier, r.input, r.receivedAt)))
  {
    hide IsProof, IsInspected, PendingReceipt;
    PendingExactly(e.receipts);
    forall i | 0 <= i < |expected| && |expected| == |e.receipts[k].input.proofs|
      ensures IsInspected(e, e.receipts[k], e.receipts[k].input.proofs[i], expected[i])
         <==> IsProof(e, e.receipts[k], e.receipts[k].input.proofs[i], expected[i])
    {
      InspectedExactly(e, e.receipts[k], e.receipts[k].input.proofs[i], expected[i]);
    }
  }

  lemma PendingIsUnconfirmed(d: Delivery, k: nat)
    requires DeliveryOk(d) && k < |d.evidence.receipts| && d.evidence.receipts[k].state == Pending
    ensures d.evidence.confirmation.None? && d.record.order.status != Delivered && d.record.order.status != Completed
    ensures var r, o := d.evidence.receipts[k], d.record.order;
            o.courier == Some(r.courier) && (IsDeliverable(o, r.courier, r.receivedAt) <==> o.status == Delivering)
  {
    assert ReceiptOk(d, d.evidence.receipts[k]);
  }

  /** A pending confirmation is accepted exactly while its order is still under way and every proof is still the one
      that was inspected. The order is delivered at the instant the confirmation was received, its proofs are attached,
      and the receipt is finished, all in one commit. */
  lemma AcceptedExactly(d: Delivery, k: nat, expected: seq<Upload>, processedAt: Time)
    requires DeliveryOk(d) && k < |d.evidence.receipts| && d.evidence.receipts[k].state == Pending
    ensures var o, e, r := d.record.order, d.evidence, d.evidence.receipts[k];
            var result := AcceptReceipt(d, k, expected, processedAt);
            && (result.Ok? <==>
                  && o.status == Delivering && |expected| == |r.input.proofs|
                  && forall i :: 0 <= i < |expected| ==> IsInspected(e, r, r.input.proofs[i], expected[i]))
            && (result.Err? ==> result.error == Precondition)
            && (result.Ok? ==>
                  && result.value.record
                     == Moved(d.record, DeliveredAs(o, r.receivedAt, r.input.unattended, processedAt),
                              UserActor(r.courier), Action.Deliver)
                  && result.value.evidence.fences == e.fences
                  && Attaches(e.uploads, result.value.evidence.uploads, r.input.proofs)
                  && result.value.evidence.receipts
                     == e.receipts[k := r.(state := Accepted, processedAt := Some(processedAt))]
                  && result.value.evidence.confirmation == Some(Confirmation(r.courier, r.input, r.receivedAt)))
  {
    hide RecordOk, UploadsOk, ReceiptOk, ConfirmationOk, R.CanDeliver, R.DeliverOrder, SaveConfirmation, Attaches,
         IsInspected, Moved, Rechecks;
    var r := d.evidence.receipts[k];
    RowsAreOk(d);
    PendingIsUnconfirmed(d, k);
    DeliverableExactly(d.record.order, r.courier, r.receivedAt);
    DeliveredExactly(d.record, r.courier, r.receivedAt, r.input.unattended, processedAt);
    SavesExactly(d.evidence, k, expected, processedAt);
    forall i | 0 <= i < |expected| && |expected| == |r.input.proofs|
      ensures IsInspected(d.evidence, r, r.input.proofs[i], expected[i]) ==>
                Rechecks(d.evidence, r.courier, r.input.proofs[i], expected[i])
    {
      InspectedExactly(d.evidence, r, r.input.proofs[i], expected[i]);
    }
  }

  /** A finished receipt is never processed again: an accepted one answers its repeat, any other is refused. */
  lemma FinishedExactly(d: Delivery, k: nat, expected: seq<Upload>, processedAt: Time)
    requires DeliveryOk(d) && k < |d.evidence.receipts| && d.evidence.receipts[k].state != Pending
    ensures AcceptReceipt(d, k, expected, processedAt)
         == if d.evidence.receipts[k].state == Accepted then Ok(d) else Err(Precondition)
  {
    hide RecordOk, UploadsOk;
    assert ReceiptOk(d, d.evidence.receipts[k]);
  }

  /** A pending receipt that cannot be accepted ends superseded exactly when its order has moved on, and rejected
      otherwise; a finished one stays as it is. */
  lemma RefusedExactly(d: Delivery, k: nat, now: Time)
    requires DeliveryOk(d) && k < |d.evidence.receipts|
    ensures var r := d.evidence.receipts[k];
            RefuseReceipt(d, k, now)
            == Ok(if r.state != Pending then d
                  else
                    var state := if d.record.order.status == Delivering then ReceiptState.Rejected else Superseded;
                    d.(evidence := d.evidence.(receipts :=
                      d.evidence.receipts[k := r.(state := state, processedAt := Some(now))])))
  {
    hide RecordOk, UploadsOk;
    assert ReceiptOk(d, d.evidence.receipts[k]);
  }
}
