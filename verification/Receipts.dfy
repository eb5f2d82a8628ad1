/** Delivery proofs and receipts of one picked-up order, as functions on its rows. Every one is a transaction under
    the order's lock; the database clock is sampled inside it. Proofs and receipts are named by their position. */
module Receipts {
  import opened Common
  import opened Orders
  import R = OrderRecords

  const MAX_STAGED: nat := 20
  const MAX_PROOFS: nat := 5
  const UPLOAD_LIFETIME: int := 600 * SECOND

  datatype ProofState = Uploading | ProofAccepted | Deleting

  // The courier's own name for an upload.
  datatype Identity = Identity(courier: UserId, upload: nat)

  datatype Upload = Upload(
    identity: Identity,
    contentType: OrderText,
    size: int,
    scope: nat,
    state: ProofState,
    generation: int,
    epoch: nat,
    verifiedAt: Option<Time>,
    grantedAt: Time,
    expiresAt: Time,
    createdAt: Time,
    cleanupAfter: Time)

  datatype ReceiptState = Pending | Accepted | Rejected | Superseded

  datatype Input = Input(proofs: seq<nat>, unattended: bool, withoutProof: bool)

  datatype Receipt = Receipt(
    courier: UserId,
    input: Input,
    outage: bool,
    receivedAt: Time,
    state: ReceiptState,
    processedAt: Option<Time>)

  datatype Confirmation = Confirmation(courier: UserId, input: Input, confirmedAt: Time)

  // A fence keeps its identity retired for good.
  datatype Evidence = Evidence(
    uploads: seq<Upload>,
    fences: set<Identity>,
    receipts: seq<Receipt>,
    confirmation: Option<Confirmation>)

  datatype Delivery = Delivery(record: R.Record, evidence: Evidence)

  const NO_EVIDENCE: Evidence := Evidence([], {}, [], None)

  // Queries

  // Identities are unique among uploads.
  function FindUpload(uploads: seq<Upload>, identity: Identity): (p: Option<nat>)
    ensures p.Some? ==> p.value < |uploads| && uploads[p.value].identity == identity
    ensures p.None? ==> forall q :: 0 <= q < |uploads| ==> uploads[q].identity != identity
  {
    if uploads == [] then None
    else if uploads[|uploads| - 1].identity == identity then Some(|uploads| - 1)
    else FindUpload(uploads[..|uploads| - 1], identity)
  }

  function PendingReceipt(receipts: seq<Receipt>): (k: Option<nat>)
    ensures k.Some? ==> k.value < |receipts| && receipts[k.value].state == Pending
    ensures k.None? ==> forall j :: 0 <= j < |receipts| ==> receipts[j].state != Pending
  {
    if receipts == [] then None
    else if receipts[|receipts| - 1].state == Pending then Some(|receipts| - 1)
    else PendingReceipt(receipts[..|receipts| - 1])
  }

  function Staged(uploads: seq<Upload>, courier: UserId): nat {
    if uploads == [] then 0
    else
      Staged(uploads[..|uploads| - 1], courier)
      + if uploads[|uploads| - 1].identity.courier == courier && uploads[|uploads| - 1].state == Uploading then 1 else 0
  }

  predicate IsReserved(e: Evidence, p: nat) {
    PendingReceipt(e.receipts).Some? && p in e.receipts[PendingReceipt(e.receipts).value].input.proofs
  }

  predicate IsUsable(e: Evidence, courier: UserId, at: Time, p: nat) {
    && p < |e.uploads| && e.uploads[p].identity.courier == courier && e.uploads[p].state == Uploading
    && e.uploads[p].verifiedAt.Some? && e.uploads[p].verifiedAt.value <= at
  }

  // Durations in SQL are microseconds, rounded up.
  function CeilMicros(t: int): (r: int)
    ensures t <= r < t + 1000
  {
    Micros(t + 999)
  }

  // An on-time confirmation that may still be accepted.
  predicate HasPendingDelivery(d: Delivery) {
    var o := d.record.order;
    var k := PendingReceipt(d.evidence.receipts);
    && k.Some? && o.status == Delivering && o.pickedUpAt.Some?
    && var r := d.evidence.receipts[k.value];
       && o.courier == Some(r.courier)
       && r.receivedAt < o.pickedUpAt.value + CeilMicros(2 * o.deliveryDuration)
       && (if r.input.withoutProof then r.outage
           else forall p :: p in r.input.proofs ==> IsUsable(d.evidence, r.courier, r.receivedAt, p))
  }

  // Uploads

  // Inserts a new row, or renews the grant of one that is still being uploaded.
  function SaveUpload(e: Evidence, p: nat, row: Upload): Result<Evidence, Error> {
    if row.identity in e.fences then Err(Precondition)
    else if p >= |e.uploads| then
      if FindUpload(e.uploads, row.identity).Some? then Err(Conflict)
      else Ok(e.(uploads := e.uploads + [row]))
    else
      var stored := e.uploads[p];
      if stored.state != Uploading || row.state != Uploading || stored.identity != row.identity
         || stored.scope != row.scope || stored.contentType != row.contentType || stored.size != row.size then
        Err(Conflict)
      else
        Ok(e.(uploads := e.uploads[p := stored.(generation := row.generation, epoch := row.epoch,
                                              grantedAt := row.grantedAt, expiresAt := row.expiresAt)]))
  }

  datatype UploadInput = UploadInput(upload: nat, contentType: OrderText, size: int, scope: nat, epoch: nat,
                                     credentialExpiry: Option<Time>)

  function Renewed(row: Upload, input: UploadInput, now: Time): Upload {
    var granted := now - now % SECOND;
    var expires := granted + UPLOAD_LIFETIME;
    row.(generation := row.generation + 1, grantedAt := granted, epoch := input.epoch,
         expiresAt := if input.credentialExpiry.Some? then Min(expires, input.credentialExpiry.value) else expires)
  }

  function NewUpload(identity: Identity, input: UploadInput, now: Time): Upload {
    Upload(identity, input.contentType, input.size, input.scope, Uploading, 0, input.epoch, None, now, now, now, now)
  }

  // The upload that the courier's identity names, or a new one.
  function UploadToSign(e: Evidence, courier: UserId, input: UploadInput, now: Time): Result<(nat, Upload), Error> {
    var identity := Identity(courier, input.upload);
    if identity in e.fences then Err(Precondition)
    else
      match FindUpload(e.uploads, identity)
      case None =>
        if Staged(e.uploads, courier) >= MAX_STAGED then Err(Precondition)
        else Ok((|e.uploads|, NewUpload(identity, input, now)))
      case Some(p) =>
        var row := e.uploads[p];
        if row.state != Uploading || row.scope != input.scope then Err(Precondition)
        else if row.contentType != input.contentType || row.size != input.size then Err(AlreadyExists)
        else Ok((p, row))
  }

  function CreateUpload(d: Delivery, courier: UserId, input: UploadInput, now: Time): Result<Delivery, Error> {
    if R.CanDeliver(d.record.order, courier, now).Some? then Err(R.CanDeliver(d.record.order, courier, now).value)
    else
      match UploadToSign(d.evidence, courier, input, now)
      case Err(e) => Err(e)
      case Ok((p, row)) =>
        if row.generation != 0 && row.expiresAt > now && row.epoch == input.epoch then Ok(d)
        else if Renewed(row, input, now).expiresAt <= now then Err(Unavailable)
        else
          match SaveUpload(d.evidence, p, Renewed(row, input, now))
          case Err(e) => Err(e)
          case Ok(e) => Ok(d.(evidence := e))
  }

  // What cannot change between inspecting the object and using the row.
  predicate SameEvidence(stored: Upload, expected: Upload) {
    && stored.state == expected.state && stored.identity == expected.identity
    && stored.contentType == expected.contentType && stored.size == expected.size
    && stored.scope == expected.scope && stored.createdAt == expected.createdAt
  }

  predicate Rechecks(e: Evidence, courier: UserId, p: nat, expected: Upload) {
    && p < |e.uploads| && e.uploads[p].state == Uploading && e.uploads[p].identity.courier == courier
    && e.uploads[p].contentType == expected.contentType && e.uploads[p].size == expected.size
  }

  // After the object was fetched and decoded; the first verification instant stays.
  function VerifyUpload(d: Delivery, courier: UserId, p: nat, expected: Upload, now: Time): Result<Delivery, Error> {
    if R.CanDeliver(d.record.order, courier, now).Some? then Err(R.CanDeliver(d.record.order, courier, now).value)
    else if p >= |d.evidence.uploads| then Err(NotFound)
    else if !Rechecks(d.evidence, courier, p, expected) then Err(Precondition)
    else
      var row := d.evidence.uploads[p];
      var verified := if row.verifiedAt.Some? then row.verifiedAt else Some(now);
      Ok(d.(evidence := d.evidence.(uploads := d.evidence.uploads[p := row.(verifiedAt := verified)])))
  }

  // Fences the identity, known or not, unless its proof is accepted or named by the pending receipt.
  function AbandonIdentity(e: Evidence, identity: Identity): Result<Evidence, Error> {
    var found := if identity in e.fences then None else FindUpload(e.uploads, identity);
    if found.Some? && (e.uploads[found.value].state == ProofAccepted || IsReserved(e, found.value)) then
      Err(Precondition)
    else Ok(e.(fences := e.fences + {identity}, uploads := Retire(e.uploads, identity)))
  }

  // Only an upload in progress is retired.
  function Retire(uploads: seq<Upload>, identity: Identity): seq<Upload> {
    seq(|uploads|, i requires 0 <= i < |uploads| =>
      if uploads[i].identity == identity && uploads[i].state == Uploading then uploads[i].(state := Deleting)
      else uploads[i])
  }

  function Abandon(d: Delivery, courier: UserId, upload: nat): Result<Delivery, Error> {
    var found := FindUpload(d.evidence.uploads, Identity(courier, upload));
    if !d.record.order.IsAssignedTo(Some(courier)) then Err(NotFound)
    else if Identity(courier, upload) !in d.evidence.fences && found.Some?
         && d.evidence.uploads[found.value].state == ProofAccepted then Err(Precondition)
    else
      match AbandonIdentity(d.evidence, Identity(courier, upload))
      case Err(e) => Err(e)
      case Ok(e) => Ok(d.(evidence := e))
  }

  // Retires an expired upload that no delivery can need any more. The flag says its bytes may be deleted now.
  datatype Cleaned = Cleaned(delivery: Delivery, delete: bool)

  function Clean(d: Delivery, p: nat, scope: nat, now: Time): Result<Cleaned, Error> {
    var o := d.record.order;
    if p >= |d.evidence.uploads| then Err(NotFound)
    else
      var row := d.evidence.uploads[p];
      if row.state == ProofAccepted || row.scope != scope || row.expiresAt > now || HasPendingDelivery(d)
         || (row.state == Uploading && o.status == Delivering && o.pickedUpAt.Some?
             && now < o.pickedUpAt.value + 2 * o.deliveryDuration) then Ok(Cleaned(d, false))
      else
        match AbandonIdentity(d.evidence, row.identity)
        case Err(e) => Err(e)
        case Ok(e) =>
          if e.uploads[p].state == Deleting && e.uploads[p].cleanupAfter <= now then
            Ok(Cleaned(d.(evidence := e.(uploads :=
                 e.uploads[p := e.uploads[p].(cleanupAfter := now + 3600 * SECOND)])), true))
          else Ok(Cleaned(d.(evidence := e), false))
  }

  // Receipts

  predicate IsNormal(input: Input) {
    && |input.proofs| <= MAX_PROOFS && (input.withoutProof <==> input.proofs == [])
    && forall i, j :: 0 <= i < j < |input.proofs| ==> input.proofs[i] < input.proofs[j]
  }

  datatype Admission = Replayed | Joined(receipt: nat) | Received(receipt: nat)
  datatype Admitted = Admitted(delivery: Delivery, admission: Admission)

  // outage says that the server itself has confirmed an upload outage that is still current.
  function AdmitReceipt(d: Delivery, courier: UserId, input: Input, outage: bool, scope: nat, now: Time)
    : Result<Admitted, Error>
  {
    var e := d.evidence;
    if !IsNormal(input) then Err(Invalid)
    else if !d.record.order.IsAssignedTo(Some(courier)) then Err(NotFound)
    else if e.confirmation.Some? then
      if e.confirmation.value.courier == courier && e.confirmation.value.input == input then Ok(Admitted(d, Replayed))
      else Err(Precondition)
    else if PendingReceipt(e.receipts).Some? then
      var k := PendingReceipt(e.receipts).value;
      if e.receipts[k].courier == courier && e.receipts[k].input == input then Ok(Admitted(d, Joined(k)))
      else Err(Precondition)
    else if R.CanDeliver(d.record.order, courier, now).Some? then
      Err(R.CanDeliver(d.record.order, courier, now).value)
    else if exists p :: p in input.proofs && !(IsUsable(e, courier, now, p) && e.uploads[p].scope == scope) then
      Err(Precondition)
    else if input.withoutProof && !outage then Err(Precondition)
    else
      Ok(Admitted(d.(evidence := e.(receipts := e.receipts + [Receipt(courier, input, outage, now, Pending, None)])),
                  Received(|e.receipts|)))
  }

  // The rows that the accepted proofs become.
  function AcceptProofs(uploads: seq<Upload>, proofs: seq<nat>): seq<Upload> {
    seq(|uploads|, i requires 0 <= i < |uploads| =>
      if i in proofs then uploads[i].(state := ProofAccepted) else uploads[i])
  }

  // The stored row is still the evidence that was inspected, verified before the receipt.
  predicate IsProof(e: Evidence, r: Receipt, p: nat, expected: Upload) {
    && p < |e.uploads| && SameEvidence(e.uploads[p], expected) && IsUsable(e, r.courier, r.receivedAt, p)
    && e.uploads[p].verifiedAt == expected.verifiedAt
  }

  // Attaches exactly these proofs, stores the accepted input and finishes the pending receipt.
  function SaveConfirmation(e: Evidence, r: Receipt, expected: seq<Upload>, processedAt: Time)
    : Result<Evidence, Error>
  {
    var k := PendingReceipt(e.receipts);
    if k.None? then Err(NotFound)
    else
      var pending := e.receipts[k.value];
      if pending.courier != r.courier || pending.receivedAt != r.receivedAt || pending.input != r.input then
        Err(Precondition)
      else if |expected| != |r.input.proofs| then Err(Precondition)
      else if exists i :: 0 <= i < |expected| && !IsProof(e, r, r.input.proofs[i], expected[i]) then Err(Precondition)
      else if e.confirmation.Some? then Err(Conflict)
      else
        Ok(Evidence(AcceptProofs(e.uploads, r.input.proofs), e.fences,
                    e.receipts[k.value := pending.(state := Accepted, processedAt := Some(processedAt))],
                    Some(Confirmation(r.courier, r.input, r.receivedAt))))
  }

  predicate RechecksAll(e: Evidence, r: Receipt, expected: seq<Upload>) {
    |expected| == |r.input.proofs|
    && forall i :: 0 <= i < |expected| ==> Rechecks(e, r.courier, r.input.proofs[i], expected[i])
  }

  // The second transaction of processing a receipt, after its objects were inspected.
  function AcceptReceipt(d: Delivery, k: nat, expected: seq<Upload>, processedAt: Time): Result<Delivery, Error> {
    if k >= |d.evidence.receipts| then Err(NotFound)
    else
      var r := d.evidence.receipts[k];
      var o := d.record.order;
      if r.state != Pending && r.state != Accepted then Err(Precondition)
      else if !o.IsAssignedTo(Some(r.courier)) then Err(NotFound)
      else if d.evidence.confirmation.Some? then
        var c := d.evidence.confirmation.value;
        if c.courier != r.courier || c.input != r.input then Err(Precondition)
        else if o.status != Delivered && o.status != Completed then Err(Precondition)
        else Ok(d)
      else if R.CanDeliver(o, r.courier, r.receivedAt).Some? then Err(R.CanDeliver(o, r.courier, r.receivedAt).value)
      else if !RechecksAll(d.evidence, r, expected) then Err(Precondition)
      else
        match R.DeliverOrder(d.record, r.courier, r.receivedAt, r.input.unattended, processedAt)
        case Err(e) => Err(e)
        case Ok(record) =>
          match SaveConfirmation(d.evidence, r, expected, processedAt)
          case Err(e) => Err(e)
          case Ok(e) => Ok(Delivery(record, e))
  }

  // A receipt that can no longer be accepted: superseded by a change of the order, or rejected on its own.
  function RefuseReceipt(d: Delivery, k: nat, now: Time): Result<Delivery, Error> {
    if k >= |d.evidence.receipts| then Err(NotFound)
    else
      var r := d.evidence.receipts[k];
      if r.state != Pending then Ok(d)
      else
        var o := d.record.order;
        var moved := o.status != Delivering || !o.IsAssignedTo(Some(r.courier));
        var state := if moved then Superseded else ReceiptState.Rejected;
        Ok(d.(evidence := d.evidence.(receipts :=
             d.evidence.receipts[k := r.(state := state, processedAt := Some(now))])))
  }

  function TimeoutDelivery(d: Delivery, now: Time): Result<Delivery, Error> {
    match R.TimeoutOrder(d.record, HasPendingDelivery(d), now)
    case Err(e) => Err(e)
    case Ok(r) => Ok(d.(record := r))
  }
}
