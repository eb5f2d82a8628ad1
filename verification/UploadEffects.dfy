/** What each step of an upload decides and stores: its grant, its verification, its abandonment and its clean-up. */
module UploadEffects {
  import opened Common
  import opened Orders
  import opened OrderInvariants
  import opened Receipts
  import opened ReceiptSafety
  import opened ReceiptEffects
  import R = OrderRecords

  ghost function InProgress(us: seq<Upload>, courier: UserId): set<nat> {
    set p: nat | p < |us| && us[p].state == Uploading && us[p].identity.courier == courier
  }

  lemma {:induction false} StagedIsCount(us: seq<Upload>, courier: UserId)
    ensures Staged(us, courier) == |InProgress(us, courier)|
  {
    if us == [] {
      assert InProgress(us, courier) == {};
    } else {
      var n := |us| - 1;
      StagedIsCount(us[..n], courier);
      if us[n].state == Uploading && us[n].identity.courier == courier {
        assert InProgress(us, courier) == InProgress(us[..n], courier) + {n};
      } else {
        assert InProgress(us, courier) == InProgress(us[..n], courier);
      }
    }
  }

  // A grant runs ten minutes from the start of its second, unless the credential behind it ends before.
  function GrantEnds(input: UploadInput, now: Time): Time {
    var lifetime := now - now % SECOND + 600 * SECOND;
    if input.credentialExpiry.Some? && input.credentialExpiry.value < lifetime then input.credentialExpiry.value
    else lifetime
  }

  // The upload under a new grant.
  function Granted(u: Upload, input: UploadInput, now: Time): Upload {
    u.(generation := u.generation + 1, epoch := input.epoch, grantedAt := now - now % SECOND,
       expiresAt := GrantEnds(input, now))
  }

  lemma FindsExactly(e: Evidence, p: nat, identity: Identity)
    requires UploadsOk(e) && p < |e.uploads| && e.uploads[p].identity == identity
    ensures FindUpload(e.uploads, identity) == Some(p)
  {
    FoundIsTheOne(e, p);
  }

  lemma RowsAreKept(d: Delivery)
    requires DeliveryOk(d)
    ensures UploadsOk(d.evidence) && OnePending(d.evidence.receipts) && 0 < d.record.order.deliveryDuration
  {}

  /** A courier's first upload under a name is granted exactly while they may still deliver, the name is not fenced, and
      fewer than twenty of theirs are in progress; it is added as granted now, and nothing else changes. */
  lemma UploadedFirstExactly(d: Delivery, courier: UserId, input: UploadInput, now: Time)
    requires DeliveryOk(d)
    requires forall p :: 0 <= p < |d.evidence.uploads| ==>
               d.evidence.uploads[p].identity != Identity(courier, input.upload)
    ensures var e, identity := d.evidence, Identity(courier, input.upload);
            var result := CreateUpload(d, courier, input, now);
            && (result.Ok? <==>
                  && IsDeliverable(d.record.order, courier, now) && identity !in e.fences
                  && |InProgress(e.uploads, courier)| < 20 && now < GrantEnds(input, now))
            && (result.Err? ==> result.error in {NotFound, Precondition, Unavailable})
            && (result == Err(Unavailable) ==> GrantEnds(input, now) <= now)
            && (result.Ok? ==>
                  var added := Upload(identity, input.contentType, input.size, input.scope, Uploading, 0, input.epoch,
                                      None, now, now, now, now);
                  result.value == d.(evidence := e.(uploads := e.uploads + [Granted(added, input, now)])))
  {
    hide RecordOk, UploadsOk, ReceiptOk, ConfirmationOk, R.CanDeliver, Staged, InProgress, IsDeliverable;
    RowsAreKept(d);
    DeliverableExactly(d.record.order, courier, now);
    StagedIsCount(d.evidence.uploads, courier);
  }

  /** An upload under a known name keeps its one row: a grant that is still live is answered again, an expired one is
      renewed in place, and another file, another scope or a fenced name is refused. */
  lemma UploadedAgainExactly(d: Delivery, courier: UserId, input: UploadInput, now: Time, p: nat)
    requires DeliveryOk(d) && p < |d.evidence.uploads|
    requires d.evidence.uploads[p].identity == Identity(courier, input.upload)
    requires IsDeliverable(d.record.order, courier, now)
    ensures var e, u, result := d.evidence, d.evidence.uploads[p], CreateUpload(d, courier, input, now);
            if u.state != Uploading || u.scope != input.scope then result == Err(Precondition)
            else if u.contentType != input.contentType || u.size != input.size then result == Err(AlreadyExists)
            else if u.generation != 0 && now < u.expiresAt && u.epoch == input.epoch then result == Ok(d)
            else if GrantEnds(input, now) <= now then result == Err(Unavailable)
            else result == Ok(d.(evidence := e.(uploads := e.uploads[p := Granted(u, input, now)])))
  {
    hide RecordOk, ReceiptOk, ConfirmationOk, R.CanDeliver, IsDeliverable;
    RowsAreKept(d);
    DeliverableExactly(d.record.order, courier, now);
    FindsExactly(d.evidence, p, Identity(courier, input.upload));
  }

  /** An upload is verified exactly while its courier may still deliver and it is still the file that was inspected; the
      first instant of verification stays. */
  lemma VerifiedExactly(d: Delivery, courier: UserId, p: nat, expected: Upload, now: Time)
    requires DeliveryOk(d)
    ensures var e, result := d.evidence, VerifyUpload(d, courier, p, expected, now);
            && (result.Ok? <==>
                  && IsDeliverable(d.record.order, courier, now) && p < |e.uploads|
                  && e.uploads[p].state == Uploading && e.uploads[p].identity.courier == courier
                  && e.uploads[p].contentType == expected.contentType && e.uploads[p].size == expected.size)
            && (result.Ok? ==>
                  var first := if e.uploads[p].verifiedAt.Some? then e.uploads[p].verifiedAt else Some(now);
                  result.value == d.(evidence := e.(uploads := e.uploads[p := e.uploads[p].(verifiedAt := first)])))
            && (result.Err? ==> result.error in {NotFound, Precondition})
  {
    hide RecordOk, UploadsOk, ReceiptOk, ConfirmationOk, R.CanDeliver, IsDeliverable;
    RowsAreKept(d);
    DeliverableExactly(d.record.order, courier, now);
  }

  // The receipt being validated names this upload.
  ghost predicate IsNamed(e: Evidence, p: nat) {
    exists k: nat :: k < |e.receipts| && e.receipts[k].state == Pending && p in e.receipts[k].input.proofs
  }

  // Accepted for good, or in progress and named by the receipt being validated.
  ghost predicate IsKept(e: Evidence, p: nat)
    requires p < |e.uploads|
  {
    e.uploads[p].state == ProofAccepted || (e.uploads[p].state == Uploading && IsNamed(e, p))
  }

  // The name is fenced, and its upload, if one is in progress, is retired.
  ghost predicate Fences(e: Evidence, e': Evidence, identity: Identity) {
    && e'.fences == e.fences + {identity} && e'.receipts == e.receipts && e'.confirmation == e.confirmation
    && |e'.uploads| == |e.uploads|
    && forall p :: 0 <= p < |e.uploads| ==>
         e'.uploads[p] == if e.uploads[p].identity == identity && e.uploads[p].state == Uploading
                          then e.uploads[p].(state := Deleting) else e.uploads[p]
  }

  lemma NamedExactly(e: Evidence, p: nat)
    requires OnePending(e.receipts)
    ensures IsReserved(e, p) <==> IsNamed(e, p)
  {
    PendingExactly(e.receipts);
  }

  lemma AbandonsExactly(e: Evidence, identity: Identity)
    requires UploadsOk(e) && OnePending(e.receipts)
    ensures var result := AbandonIdentity(e, identity);
            && (result.Err? <==>
                  exists p: nat :: p < |e.uploads| && e.uploads[p].identity == identity && IsKept(e, p))
            && (result.Err? ==> result.error == Precondition)
            && (result.Ok? ==> Fences(e, result.value, identity))
  {
    hide IsNamed, IsReserved;
    var found := FindUpload(e.uploads, identity);
    forall p: nat | p < |e.uploads| && e.uploads[p].identity == identity
      ensures found == Some(p)
    {
      FindsExactly(e, p, identity);
    }
    if found.Some? {
      NamedExactly(e, found.value);
    }
  }

  /** A courier may give any upload up, under a name that is known or not, exactly unless it is accepted or named by the
      confirmation being validated; the name stays fenced. */
  lemma AbandonedExactly(d: Delivery, courier: UserId, upload: nat)
    requires DeliveryOk(d)
    ensures var e, identity, result := d.evidence, Identity(courier, upload), Abandon(d, courier, upload);
            if d.record.order.courier != Some(courier) then result == Err(NotFound)
            else if exists p: nat :: p < |e.uploads| && e.uploads[p].identity == identity && IsKept(e, p) then
              result == Err(Precondition)
            else
              && result.Ok? && result.value.record == d.record && Fences(e, result.value.evidence, identity)
  {
    hide RecordOk, ReceiptOk, ConfirmationOk, IsNamed, Fences, AbandonIdentity;
    RowsAreKept(d);
    AbandonsExactly(d.evidence, Identity(courier, upload));
    var found := FindUpload(d.evidence.uploads, Identity(courier, upload));
    if found.Some? {
      assert d.evidence.uploads[found.value].identity == Identity(courier, upload);
    }
  }

  // Somebody may still need the upload, or it is not this sweep's to clean.
  ghost predicate IsStillNeeded(d: Delivery, p: nat, scope: nat, now: Time)
    requires p < |d.evidence.uploads|
  {
    var o, u := d.record.order, d.evidence.uploads[p];
    || u.state == ProofAccepted || u.scope != scope || now < u.expiresAt
    || (o.status == Delivering && exists k: nat :: k < |d.evidence.receipts| && d.evidence.receipts[k].state == Pending)
    || (u.state == Uploading && o.status == Delivering && o.pickedUpAt.Some?
        && now < o.pickedUpAt.value + 2 * o.deliveryDuration)
  }

  lemma PendingDeliveryExactly(d: Delivery)
    requires DeliveryOk(d)
    ensures HasPendingDelivery(d) <==>
            && d.record.order.status == Delivering
            && exists k: nat :: k < |d.evidence.receipts| && d.evidence.receipts[k].state == Pending
  {
    RowsAreKept(d);
    PendingExactly(d.evidence.receipts);
    if d.record.order.status == Delivering {
      PendingIsEligible(d);
    }
  }

  /** A clean-up leaves an upload alone exactly while somebody may need it; otherwise it retires it for good, unless the
      confirmation being validated names it. Its bytes are to be deleted exactly once its quarantine is over, which then
      starts again for an hour. */
  lemma CleanedExactly(d: Delivery, p: nat, scope: nat, now: Time)
    requires DeliveryOk(d) && p < |d.evidence.uploads|
    ensures var e, u, result := d.evidence, d.evidence.uploads[p], Clean(d, p, scope, now);
            if IsStillNeeded(d, p, scope, now) then result == Ok(Cleaned(d, false))
            else if u.state == Uploading && IsNamed(e, p) then result == Err(Precondition)
            else
              && result.Ok? && result.value.delivery.record == d.record
              && var e' := result.value.delivery.evidence;
                 && e' == e.(fences := e.fences + {u.identity}, uploads := e'.uploads)
                 && |e'.uploads| == |e.uploads|
                 && (forall q :: 0 <= q < |e.uploads| && q != p ==> e'.uploads[q] == e.uploads[q])
                 && (result.value.delete <==> u.cleanupAfter <= now)
                 && e'.uploads[p] == u.(state := Deleting,
                                        cleanupAfter := if u.cleanupAfter <= now then now + 3600 * SECOND
                                                        else u.cleanupAfter)
  {
    hide RecordOk, ReceiptOk, ConfirmationOk, IsNamed, HasPendingDelivery, AbandonIdentity;
    var u := d.evidence.uploads[p];
    RowsAreKept(d);
    PendingDeliveryExactly(d);
    AbandonsExactly(d.evidence, u.identity);
    AlreadyFenced(d.evidence, p);
  }

  lemma AlreadyFenced(e: Evidence, p: nat)
    requires UploadsOk(e) && p < |e.uploads|
    ensures forall q :: 0 <= q < |e.uploads| && e.uploads[q].identity == e.uploads[p].identity ==> q == p
  {}
}
