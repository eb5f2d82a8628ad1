/** The proof tables of one order, fenced, accepted and finished row by row under the order's lock. Each transaction
    is proved to leave exactly the rows that module Receipts gives, and a failed write leaves none. */
module ProofStore {
  import opened Common
  import opened Orders
  import opened Receipts
  import opened ReceiptSafety
  import R = OrderRecords

  // Cleaning the candidates one by one, until one fails.
  datatype Sweep = Sweep(delivery: Delivery, deleted: seq<nat>, err: Option<Error>)

  function CleanAll(d: Delivery, ps: seq<nat>, scope: nat, clock: seq<Time>): Sweep
    requires |clock| == |ps|
  {
    if ps == [] then Sweep(d, [], None)
    else
      var earlier := CleanAll(d, ps[..|ps| - 1], scope, clock[..|ps| - 1]);
      if earlier.err.Some? then earlier
      else
        match Clean(earlier.delivery, ps[|ps| - 1], scope, clock[|ps| - 1])
        case Err(e) => earlier.(err := Some(e))
        case Ok(c) =>
          Sweep(c.delivery, if c.delete then earlier.deleted + [ps[|ps| - 1]] else earlier.deleted, None)
  }

  /** A sweep deletes only bytes of proofs that are retired and stay so. */
  lemma {:induction false} SweepIsSafe(d: Delivery, ps: seq<nat>, scope: nat, clock: seq<Time>)
    requires DeliveryOk(d) && |clock| == |ps|
    ensures var sweep := CleanAll(d, ps, scope, clock);
            && DeliveryOk(sweep.delivery) && EvidenceLasts(d.evidence, sweep.delivery.evidence)
            && forall p :: p in sweep.deleted ==>
                 p < |sweep.delivery.evidence.uploads| && sweep.delivery.evidence.uploads[p].state == Deleting
    decreases |ps|
  {
    hide DeliveryOk, EvidenceLasts;
    if ps == [] {
      LastsItself(d.evidence);
    } else {
      var earlier := CleanAll(d, ps[..|ps| - 1], scope, clock[..|ps| - 1]);
      SweepIsSafe(d, ps[..|ps| - 1], scope, clock[..|ps| - 1]);
      var p := ps[|ps| - 1];
      if earlier.err.None? && Clean(earlier.delivery, p, scope, clock[|ps| - 1]).Ok? {
        CleanOk(earlier.delivery, p, scope, clock[|ps| - 1]);
        var c := Clean(earlier.delivery, p, scope, clock[|ps| - 1]).value;
        StepIsLasting(earlier.delivery.evidence, c.delivery.evidence);
        LastsTransitive(d.evidence, earlier.delivery.evidence, c.delivery.evidence);
        DeletedStays(earlier.delivery.evidence, c.delivery.evidence, earlier.deleted);
      }
    }
  }

  lemma DeletedStays(e: Evidence, e': Evidence, ps: seq<nat>)
    requires EvidenceLasts(e, e')
    requires forall p :: p in ps ==> p < |e.uploads| && e.uploads[p].state == Deleting
    ensures forall p :: p in ps ==> p < |e'.uploads| && e'.uploads[p].state == Deleting
  {}

  class Tables {
    var record: R.Record
    var uploads: seq<Upload>
    var fences: set<Identity>
    var receipts: seq<Receipt>
    var confirmation: Option<Confirmation>

    function Rows(): Evidence
      reads this
    {
      Evidence(uploads, fences, receipts, confirmation)
    }

    function Contents(): Delivery
      reads this
    {
      Delivery(record, Rows())
    }

    constructor (r: R.Record)
      ensures Contents() == Delivery(r, NO_EVIDENCE)
    {
      record, uploads, fences, receipts, confirmation := r, [], {}, [], None;
    }

    // Puts the rows of an abandoned transaction back.
    method Rollback(d: Delivery)
      modifies this
      ensures Contents() == d
    {
      record := d.record;
      uploads, fences := d.evidence.uploads, d.evidence.fences;
      receipts, confirmation := d.evidence.receipts, d.evidence.confirmation;
    }

    method SaveProofUpload(p: nat, row: Upload) returns (err: Option<Error>)
      modifies this`uploads
      ensures match SaveUpload(old(Rows()), p, row)
              case Ok(e) => err.None? && Rows() == e
              case Err(e) => err == Some(e) && Rows() == old(Rows())
    {
      if row.identity in fences {
        return Some(Precondition);
      }
      if p >= |uploads| {
        if FindUpload(uploads, row.identity).Some? {
          return Some(Conflict);
        }
        uploads := uploads + [row];
        return None;
      }
      var stored := uploads[p];
      if stored.state != Uploading || row.state != Uploading || stored.identity != row.identity
         || stored.scope != row.scope || stored.contentType != row.contentType || stored.size != row.size {
        return Some(Conflict);
      }
      uploads := uploads[p := stored.(generation := row.generation, epoch := row.epoch,
                                      grantedAt := row.grantedAt, expiresAt := row.expiresAt)];
      err := None;
    }

    // Fences the identity first, so that no later admission can revive it.
    method AbandonProofUpload(identity: Identity) returns (err: Option<Error>)
      modifies this`uploads, this`fences
      ensures match AbandonIdentity(old(Rows()), identity)
              case Ok(e) => err.None? && Rows() == e
              case Err(e) => err == Some(e) && Rows() == old(Rows())
    {
      if identity !in fences {
        var found := FindUpload(uploads, identity);
        if found.Some? && (uploads[found.value].state == ProofAccepted || IsReserved(Rows(), found.value)) {
          return Some(Precondition);
        }
      }
      fences := fences + {identity};
      var before := uploads;
      var i := 0;
      while i < |uploads|
        invariant 0 <= i <= |uploads| == |before| && fences == old(fences) + {identity}
        invariant forall j :: 0 <= j < i ==> uploads[j] == Retire(before, identity)[j]
        invariant forall j :: i <= j < |before| ==> uploads[j] == before[j]
      {
        if uploads[i].identity == identity && uploads[i].state == Uploading {
          uploads := uploads[i := uploads[i].(state := Deleting)];
        }
        i := i + 1;
      }
      assert uploads == Retire(before, identity);
      err := None;
    }

    // The courier's request to retire an upload, known or not.
    method AbandonUpload(courier: UserId, upload: nat) returns (err: Option<Error>)
      modifies this`uploads, this`fences
      ensures match Abandon(old(Contents()), courier, upload)
              case Ok(d) => err.None? && Contents() == d
              case Err(e) => err == Some(e) && Contents() == old(Contents())
    {
      if !record.order.IsAssignedTo(Some(courier)) {
        return Some(NotFound);
      }
      var identity := Identity(courier, upload);
      if identity !in fences {
        var found := FindUpload(uploads, identity);
        if found.Some? && uploads[found.value].state == ProofAccepted {
          return Some(Precondition);
        }
      }
      err := AbandonProofUpload(identity);
    }

    // Accepts each proof in turn, stores the confirmation and finishes the pending receipt. A refusal halfway
    // leaves the rows to the caller's rollback.
    method SaveProofConfirmation(r: Receipt, expected: seq<Upload>, processedAt: Time) returns (err: Option<Error>)
      requires IsNormal(r.input)
      modifies this`uploads, this`receipts, this`confirmation
      ensures err.None? <==> SaveConfirmation(old(Rows()), r, expected, processedAt).Ok?
      ensures err.Some? ==> SaveConfirmation(old(Rows()), r, expected, processedAt) == Err(err.value)
      ensures err.None? ==> Rows() == SaveConfirmation(old(Rows()), r, expected, processedAt).value
    {
      var k := PendingReceipt(receipts);
      if k.None? {
        return Some(NotFound);
      }
      var pending := receipts[k.value];
      if pending.courier != r.courier || pending.receivedAt != r.receivedAt || pending.input != r.input {
        return Some(Precondition);
      }
      var proofs := r.input.proofs;
      if |expected| != |proofs| {
        return Some(Precondition);
      }
      ghost var before := uploads;
      var i := 0;
      while i < |expected|
        invariant 0 <= i <= |expected| && receipts == old(receipts) && confirmation == old(confirmation)
        invariant uploads == AcceptProofs(before, proofs[..i])
        invariant forall j :: 0 <= j < i ==> IsProof(old(Rows()), r, proofs[j], expected[j])
      {
        var p := proofs[i];
        NotYetAccepted(before, proofs, i);
        if p >= |uploads| || !SameEvidence(uploads[p], expected[i]) || !IsUsable(Rows(), r.courier, r.receivedAt, p)
           || uploads[p].verifiedAt != expected[i].verifiedAt {
          assert !IsProof(old(Rows()), r, proofs[i], expected[i]);
          return Some(Precondition);
        }
        assert IsProof(old(Rows()), r, proofs[i], expected[i]);
        uploads := uploads[p := uploads[p].(state := ProofAccepted)];
        AcceptOneMore(before, proofs, i);
        i := i + 1;
      }
      assert proofs[..i] == proofs;
      if confirmation.Some? {
        return Some(Conflict);
      }
      confirmation := Some(Confirmation(r.courier, r.input, r.receivedAt));
      receipts := receipts[k.value := pending.(state := Accepted, processedAt := Some(processedAt))];
      err := None;
    }

    // The second transaction of processing a receipt, with everything or nothing committed.
    method ConfirmDelivery(k: nat, expected: seq<Upload>, processedAt: Time) returns (err: Option<Error>)
      requires forall j :: 0 <= j < |receipts| ==> IsNormal(receipts[j].input)
      modifies this
      ensures match AcceptReceipt(old(Contents()), k, expected, processedAt)
              case Ok(d) => err.None? && Contents() == d
              case Err(e) => err == Some(e) && Contents() == old(Contents())
    {
      hide R.DeliverOrder, R.CanDeliver, SaveConfirmation;
      var before := Contents();
      if k >= |receipts| {
        return Some(NotFound);
      }
      var r := receipts[k];
      if r.state != Pending && r.state != Accepted {
        return Some(Precondition);
      }
      var order := record.order;
      if !order.IsAssignedTo(Some(r.courier)) {
        return Some(NotFound);
      }
      if confirmation.Some? {
        var c := confirmation.value;
        if c.courier != r.courier || c.input != r.input || (order.status != Delivered && order.status != Completed) {
          return Some(Precondition);
        }
        return None;
      }
      var refusal := R.CanDeliver(order, r.courier, r.receivedAt);
      if refusal.Some? {
        return refusal;
      }
      if !RechecksAll(Rows(), r, expected) {
        return Some(Precondition);
      }
      var delivered := R.DeliverOrder(record, r.courier, r.receivedAt, r.input.unattended, processedAt);
      if delivered.Err? {
        return Some(delivered.error);
      }
      err := SaveProofConfirmation(r, expected, processedAt);
      if err.Some? {
        Rollback(before);
        return;
      }
      record := delivered.value;
    }

    // Admission commits before any remote validation; it grants no extra time to upload evidence.
    method Receive(courier: UserId, input: Input, outage: bool, scope: nat, now: Time)
      returns (reply: Result<Admission, Error>)
      modifies this`receipts
      ensures match AdmitReceipt(old(Contents()), courier, input, outage, scope, now)
              case Ok(a) => reply == Ok(a.admission) && Contents() == a.delivery
              case Err(e) => reply == Err(e) && Contents() == old(Contents())
    {
      hide R.CanDeliver;
      if !IsNormal(input) {
        return Err(Invalid);
      }
      if !record.order.IsAssignedTo(Some(courier)) {
        return Err(NotFound);
      }
      // An accepted replay is recognized before deadline, status and outage.
      if confirmation.Some? {
        if confirmation.value.courier != courier || confirmation.value.input != input {
          return Err(Precondition);
        }
        return Ok(Replayed);
      }
      var pending := PendingReceipt(receipts);
      if pending.Some? {
        if receipts[pending.value].courier != courier || receipts[pending.value].input != input {
          return Err(Precondition);
        }
        return Ok(Joined(pending.value));
      }
      var refusal := R.CanDeliver(record.order, courier, now);
      if refusal.Some? {
        return Err(refusal.value);
      }
      var i := 0;
      while i < |input.proofs|
        invariant 0 <= i <= |input.proofs| && Contents() == old(Contents())
        invariant forall j :: 0 <= j < i ==>
                    IsUsable(Rows(), courier, now, input.proofs[j]) && uploads[input.proofs[j]].scope == scope
      {
        var p := input.proofs[i];
        if !IsUsable(Rows(), courier, now, p) || uploads[p].scope != scope {
          assert p in input.proofs;
          return Err(Precondition);
        }
        i := i + 1;
      }
      if input.withoutProof && !outage {
        return Err(Precondition);
      }
      receipts := receipts + [Receipt(courier, input, outage, now, Pending, None)];
      reply := Ok(Received(|receipts| - 1));
    }

    // Ends a receipt that processing has refused for good.
    method Refuse(k: nat, now: Time) returns (err: Option<Error>)
      modifies this`receipts
      ensures match RefuseReceipt(old(Contents()), k, now)
              case Ok(d) => err.None? && Contents() == d
              case Err(e) => err == Some(e) && Contents() == old(Contents())
    {
      if k >= |receipts| {
        return Some(NotFound);
      }
      var r := receipts[k];
      if r.state != Pending {
        return None;
      }
      var state := ReceiptState.Rejected;
      if record.order.status != Delivering || !record.order.IsAssignedTo(Some(r.courier)) {
        state := Superseded;
      }
      receipts := receipts[k := r.(state := state, processedAt := Some(now))];
      err := None;
    }

    // Retires what no delivery can need any more and deletes its bytes; each candidate in its own transaction.
    method CleanOnce(candidates: seq<nat>, scope: nat, clock: seq<Time>) returns (deleted: seq<nat>, err: Option<Error>)
      requires |clock| == |candidates|
      modifies this
      ensures CleanAll(old(Contents()), candidates, scope, clock) == Sweep(Contents(), deleted, err)
    {
      deleted, err := [], None;
      var i := 0;
      while i < |candidates|
        invariant 0 <= i <= |candidates|
        invariant CleanAll(old(Contents()), candidates[..i], scope, clock[..i]) == Sweep(Contents(), deleted, None)
        invariant err.None?
      {
        SweepOneMore(old(Contents()), candidates, scope, clock, i);
        var cleaned := Clean(Contents(), candidates[i], scope, clock[i]);
        if cleaned.Err? {
          SweepStops(old(Contents()), candidates, scope, clock, i + 1);
          return deleted, Some(cleaned.error);
        }
        Rollback(cleaned.value.delivery);
        if cleaned.value.delete {
          deleted := deleted + [candidates[i]];
        }
        i := i + 1;
      }
      assert candidates[..i] == candidates && clock[..i] == clock;
    }
  }

  lemma NotYetAccepted(before: seq<Upload>, proofs: seq<nat>, i: nat)
    requires i < |proofs| && forall j, k :: 0 <= j < k < |proofs| ==> proofs[j] < proofs[k]
    ensures proofs[i] < |before| ==> AcceptProofs(before, proofs[..i])[proofs[i]] == before[proofs[i]]
  {
    assert proofs[i] !in proofs[..i];
  }

  lemma AcceptOneMore(before: seq<Upload>, proofs: seq<nat>, i: nat)
    requires i < |proofs| && proofs[i] < |before|
    ensures var now := AcceptProofs(before, proofs[..i]);
            AcceptProofs(before, proofs[..i + 1]) == now[proofs[i] := now[proofs[i]].(state := ProofAccepted)]
  {
    assert proofs[..i + 1] == proofs[..i] + [proofs[i]];
  }

  lemma SweepOneMore(d: Delivery, ps: seq<nat>, scope: nat, clock: seq<Time>, i: nat)
    requires |clock| == |ps| && i < |ps|
    ensures CleanAll(d, ps[..i + 1], scope, clock[..i + 1]) ==
            var earlier := CleanAll(d, ps[..i], scope, clock[..i]);
            if earlier.err.Some? then earlier
            else
              match Clean(earlier.delivery, ps[i], scope, clock[i])
              case Err(e) => earlier.(err := Some(e))
              case Ok(c) => Sweep(c.delivery, if c.delete then earlier.deleted + [ps[i]] else earlier.deleted, None)
  {
    assert ps[..i + 1][..i] == ps[..i] && clock[..i + 1][..i] == clock[..i];
  }

  lemma {:induction false} SweepStops(d: Delivery, ps: seq<nat>, scope: nat, clock: seq<Time>, i: nat)
    requires |clock| == |ps| && i <= |ps| && CleanAll(d, ps[..i], scope, clock[..i]).err.Some?
    ensures CleanAll(d, ps, scope, clock) == CleanAll(d, ps[..i], scope, clock[..i])
    decreases |ps| - i
  {
    if i < |ps| {
      SweepOneMore(d, ps, scope, clock, i);
      SweepStops(d, ps, scope, clock, i + 1);
    } else {
      assert ps[..i] == ps && clock[..i] == clock;
    }
  }
}
