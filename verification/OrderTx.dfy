/** One transaction over the rows of one order: the lock baseline, the rows it has read, its compare-and-set and
    one-way guards, and what must have happened together before it may commit. A failed write poisons it. */
module OrderTx {
  import opened Common
  import opened Orders
  import opened OfferChanges
  import R = OrderRecords

  class Tx {
    var rec: R.Record
    var keys: R.Keys
    var callers: set<UserId>
    var locked: Option<Order>
    var related: bool
    var applied: bool
    var failed: Option<Error>
    var creation: Option<R.Workflow>
    var baselines: map<AttemptId, R.Attempt>
    var written: map<AttemptId, R.Attempt>
    var cancellations: map<nat, R.Cancellation>
    var changed: bool

    constructor (r: R.Record, keys: R.Keys)
      ensures rec == r && this.keys == keys && callers == {} && locked.None? && !related && IsClean()
    {
      rec, this.keys, callers := r, keys, {};
      locked, related, applied, failed, creation := None, false, false, None, None;
      baselines, written, cancellations, changed := map[], map[], map[], false;
    }

    // Nothing read or written yet.
    ghost predicate IsClean()
      reads this
    {
      && !applied && failed.None? && creation.None? && !changed
      && baselines == map[] && written == map[] && cancellations == map[]
    }

    // Rows may be read only under the lock, in a statement after it.
    predicate IsReady()
      reads this
    {
      locked.Some? && related
    }

    // Serializes the keyed acceptances of one caller.
    method LockCaller(caller: UserId)
      modifies this`callers
      ensures callers == old(callers) + {caller}
    {
      callers := callers + {caller};
    }

    method LockOrder() returns (o: Order)
      modifies this`locked
      ensures o == rec.order && locked == Some(rec.order)
    {
      o := rec.order;
      locked := Some(o);
    }

    method Relationships() returns (offers: Result<seq<R.Offer>, Error>)
      modifies this`related
      ensures locked.Some? ==> offers == Ok(rec.offers) && related
      ensures locked.None? ==> offers == Err(Precondition) && related == old(related)
    {
      if locked.None? {
        return Err(Precondition);
      }
      related := true;
      offers := Ok(rec.offers);
    }

    // The aggregate

    // What Apply accepts: one change of the locked revision, built by NewChange, whose offers are as expected.
    ghost predicate CanApply(c: Change, us: seq<OfferChange>)
      reads this
    {
      && failed.None? && !applied && IsReady()
      && locked.value.revision == c.expectedRevision == rec.order.revision
      && locked.value.requester == c.order.requester && locked.value.createdAt == c.order.createdAt
      && NewChange(locked, c.order, c.actor, c.action) == Ok(c)
      && ApplyOffers(rec.offers, us).Some?
    }

    method Apply(c: Change, us: seq<OfferChange>) returns (err: Option<Error>)
      modifies this`rec, this`applied, this`failed
      ensures err.None? <==> old(CanApply(c, us))
      ensures err.None? ==>
                && rec == R.Write(old(rec), c).(offers := ApplyOffers(old(rec.offers), us).value)
                && applied && failed == old(failed)
      ensures err.Some? ==> failed == err && applied == old(applied)
    {
      if failed.Some? {
        return failed;
      }
      err := Some(Conflict);
      if applied {
        failed := err;
        return;
      }
      if !IsReady() {
        err := Some(Precondition);
        failed := err;
        return;
      }
      var before := locked.value;
      if before.revision != c.expectedRevision {
        failed := err;
        return;
      }
      var expected := NewChange(locked, c.order, c.actor, c.action);
      if before.requester != c.order.requester || before.createdAt != c.order.createdAt || expected != Ok(c) {
        err := Some(if expected.Err? then expected.error else Invalid);
        failed := err;
        return;
      }
      if rec.order.revision != c.expectedRevision {
        failed := err;
        return;
      }

      var offers := rec.offers;
      var k := 0;
      while k < |us|
        invariant 0 <= k <= |us|
        invariant ApplyOffers(rec.offers, us[..k]) == Some(offers)
        invariant rec == old(rec) && applied == old(applied) && failed == old(failed)
      {
        var next := ApplyOffer(offers, us[k]);
        assert us[..k + 1][..k] == us[..k];
        if next.None? {
          FailedForGood(rec.offers, us, k + 1);
          failed := err;
          return;
        }
        offers := next.value;
        k := k + 1;
      }
      assert us[..k] == us;
      rec := R.Write(rec, c).(offers := offers);
      applied := true;
      err := None;
    }

    // The assignment adapter's Apply also checks every offer against the attempt that owns it.
    method ApplyAssigned(c: Change, us: seq<OfferChange>) returns (err: Option<Error>)
      modifies this`rec, this`baselines, this`applied, this`failed
      ensures err.None? <==>
              && old(CanApply(c, us)) && us != []
              && OffersAllowed(old(locked.value), old(rec.offers), c.actor, c.action,
                               Owner(old(rec), c.action, us), us)
      ensures err.None? ==>
                && rec == R.Write(old(rec), c).(offers := ApplyOffers(old(rec.offers), us).value)
                && applied && failed == old(failed)
      ensures err.Some? ==> failed.Some?
    {
      if !IsReady() {
        err := Some(Precondition);
        failed := err;
        return;
      }
      var attempt := OwningAssignment(c.action, us);
      if us == [] {
        err := Some(Invalid);
        failed := err;
        return;
      }
      err := ValidateOffers(locked.value, rec.offers, c.actor, c.action, attempt, us);
      if err.Some? {
        failed := err;
        return;
      }
      err := Apply(c, us);
    }

    // The attempt of the first offer that is being accepted or resolved.
    method OwningAssignment(action: Action, us: seq<OfferChange>) returns (w: Option<R.Attempt>)
      requires IsReady()
      modifies this`baselines
      ensures w == Owner(rec, action, us)
      ensures forall j :: j in old(baselines) ==> j in baselines && baselines[j] == old(baselines)[j]
    {
      if action == ProposeOffer {
        return None;
      }
      var k := 0;
      while k < |us|
        invariant 0 <= k <= |us|
        invariant OwnedOffer(action, us) == OwnedOffer(action, us[k..])
        invariant baselines == old(baselines)
      {
        if NamesAttempt(action, us[k]) {
          w := OfferAssignment(us[k].id);
          return;
        }
        assert us[k..][1..] == us[k + 1..];
        k := k + 1;
      }
      w := None;
    }

    // Creation workflow

    method LockCreation() returns (w: Result<R.Workflow, Error>)
      modifies this`creation
      ensures locked.None? ==> w == Err(Precondition) && creation == old(creation)
      ensures locked.Some? ==> w == Ok(rec.workflow) && creation == Some(rec.workflow)
    {
      if locked.None? {
        return Err(Precondition);
      }
      creation := Some(rec.workflow);
      w := Ok(rec.workflow);
    }

    // Immutable intent, one generation at a time, and no way back from AbortPending but rejection.
    ghost predicate MaySaveCreation(w: R.Workflow, expected: int)
      reads this
    {
      && creation.Some?
      && var before := creation.value;
         && !before.IsResolved() && before.generation == expected == rec.workflow.generation
         && w.requester == before.requester && w.amount == before.amount && w.expiresAt == before.expiresAt
         && expected <= w.generation <= expected + 1
         && (before.phase == R.AbortPending ==> w.phase == R.AbortPending || w.phase == R.CreationRejected)
         && (w.IsResolved() ==> applied)
    }

    method SaveCreation(w: R.Workflow, expected: int) returns (err: Option<Error>)
      modifies this`rec, this`failed
      ensures err.None? <==> old(MaySaveCreation(w, expected))
      ensures err.None? ==> rec == old(rec).(workflow := w) && failed == old(failed)
      ensures err.Some? ==> failed == err
    {
      err := Some(Conflict);
      if creation.None? {
        failed := err;
        return;
      }
      var before := creation.value;
      if before.IsResolved() || before.generation != expected || w.requester != before.requester
         || w.amount != before.amount || w.expiresAt != before.expiresAt
         || w.generation < expected || w.generation > expected + 1
         || (before.phase == R.AbortPending && w.phase != R.AbortPending && w.phase != R.CreationRejected) {
        failed := err;
        return;
      }
      if w.IsResolved() && !applied {
        err := Some(Precondition);
        failed := err;
        return;
      }
      if rec.workflow.generation != expected {
        failed := err;
        return;
      }
      rec := rec.(workflow := w);
      err := None;
    }

    // Assignment attempts

    method FindAssignment(i: AttemptId) returns (w: Result<R.Attempt, Error>)
      modifies this`baselines
      ensures i >= |rec.attempts| ==> w == Err(NotFound) && baselines == old(baselines)
      ensures i < |rec.attempts| && !IsReady() ==> w == Err(Precondition) && baselines == old(baselines)
      ensures i < |rec.attempts| && IsReady() ==>
                && w == Ok(rec.attempts[i])
                && baselines == if i in old(baselines) then old(baselines) else old(baselines)[i := rec.attempts[i]]
    {
      if i >= |rec.attempts| {
        return Err(NotFound);
      }
      if !IsReady() {
        return Err(Precondition);
      }
      if i !in baselines {
        baselines := baselines[i := rec.attempts[i]];
      }
      w := Ok(rec.attempts[i]);
    }

    method ActiveAssignment() returns (i: Option<AttemptId>)
      requires IsReady()
      modifies this`baselines
      ensures i == R.ActiveAssignment(rec)
      ensures baselines == if i.None? || i.value in old(baselines) then old(baselines)
                           else old(baselines)[i.value := rec.attempts[i.value]]
    {
      i := R.ActiveAssignment(rec);
      if i.Some? {
        var w := FindAssignment(i.value);
      }
    }

    method OfferAssignment(offer: nat) returns (w: Option<R.Attempt>)
      requires IsReady()
      modifies this`baselines
      ensures var i := R.OfferAssignment(rec, offer);
              w == if i.Some? then Some(rec.attempts[i.value]) else None
      ensures forall j :: j in old(baselines) ==> j in baselines && baselines[j] == old(baselines)[j]
    {
      var i := R.OfferAssignment(rec, offer);
      if i.None? {
        return None;
      }
      var found := FindAssignment(i.value);
      w := Some(found.value);
    }

    method InsertAssignment(w: R.Attempt) returns (err: Option<Error>)
      modifies this`rec, this`baselines, this`written, this`failed
      ensures err.None? <==>
              && old(IsReady()) && w.generation == 0 && w.attempts == 0
              && (w.phase == R.AdjustmentPending || (w.phase == R.AssignmentRejected && w.offer.None?))
              && w.courier != old(locked.value.requester) && w.amount > 0 && w.original > 0
              && w.original == old(locked.value.reserved)
              && (w.how.AcceptOrderMethod? ==> w.caller == w.courier && w.caller in callers)
              && (w.how.AcceptOfferMethod? ==> old(locked.value.IsRequestedBy(Some(w.caller))))
      ensures err.None? ==>
                && rec == old(rec).(attempts := old(rec.attempts) + [w])
                && written == old(written)[|old(rec.attempts)| := w] && failed == old(failed)
      ensures err.Some? ==> failed == err
    {
      err := Some(Precondition);
      if !IsReady() || w.generation != 0 || w.attempts != 0
         || (w.phase != R.AdjustmentPending && !(w.phase == R.AssignmentRejected && w.offer.None?))
         || w.courier == locked.value.requester || w.amount <= 0 || w.original <= 0
         || w.original != locked.value.reserved {
        failed := err;
        return;
      }
      if w.how.AcceptOrderMethod? {
        if w.caller != w.courier || w.caller !in callers {
          failed := err;
          return;
        }
      } else if !locked.value.IsRequestedBy(Some(w.caller)) {
        err := Some(Forbidden);
        failed := err;
        return;
      }
      var i := |rec.attempts|;
      rec := rec.(attempts := rec.attempts + [w]);
      baselines, written := baselines[i := w], written[i := w];
      err := None;
    }

    // Immutable intent, one generation and one try at a time, and no way back from RevertPending but rejection.
    ghost predicate MaySaveAssignment(i: AttemptId, w: R.Attempt, expected: int)
      reads this
    {
      && i in baselines && i < |rec.attempts|
      && var before := baselines[i];
         && !before.IsResolved() && before.generation == expected
         && w == before.(phase := w.phase, generation := w.generation, attempts := w.attempts,
                         leaseUntil := w.leaseUntil, nextAttemptAt := w.nextAttemptAt, rejection := w.rejection,
                         updatedAt := w.updatedAt)
         && expected <= w.generation <= expected + 1 && before.attempts <= w.attempts <= before.attempts + 1
         && (before.phase == R.RevertPending ==> w.phase == R.RevertPending || w.phase == R.AssignmentRejected)
         && rec.attempts[i].generation == expected && !rec.attempts[i].IsResolved()
    }

    method SaveAssignment(i: AttemptId, w: R.Attempt, expected: int) returns (err: Option<Error>)
      modifies this`rec, this`baselines, this`written, this`failed
      ensures err.None? <==> old(MaySaveAssignment(i, w, expected))
      ensures err.None? ==>
                && rec == old(rec).(attempts := old(rec.attempts)[i := w])
                && baselines == old(baselines)[i := w] && written == old(written)[i := w] && failed == old(failed)
      ensures err.Some? ==> failed == err
    {
      err := Some(Conflict);
      if i !in baselines {
        failed := err;
        return;
      }
      var before := baselines[i];
      var immutable := w.(phase := before.phase, generation := before.generation, attempts := before.attempts,
                          leaseUntil := before.leaseUntil, nextAttemptAt := before.nextAttemptAt,
                          rejection := before.rejection, updatedAt := before.updatedAt);
      if before.IsResolved() || before.generation != expected || immutable != before
         || w.generation < expected || w.generation > expected + 1
         || w.attempts < before.attempts || w.attempts > before.attempts + 1
         || (before.phase == R.RevertPending && w.phase != R.RevertPending && w.phase != R.AssignmentRejected) {
        failed := err;
        return;
      }
      if i >= |rec.attempts| || rec.attempts[i].generation != expected || rec.attempts[i].IsResolved() {
        failed := err;
        return;
      }
      rec := rec.(attempts := rec.attempts[i := w]);
      baselines, written := baselines[i := w], written[i := w];
      err := None;
    }

    // Cancellations

    method FindCancellation(c: nat) returns (w: Result<R.Cancellation, Error>)
      modifies this`cancellations
      ensures c >= |rec.cancellations| ==> w == Err(NotFound) && cancellations == old(cancellations)
      ensures c < |rec.cancellations| && !IsReady() ==> w == Err(Precondition) && cancellations == old(cancellations)
      ensures c < |rec.cancellations| && IsReady() ==>
                w == Ok(rec.cancellations[c]) && cancellations == old(cancellations)[c := rec.cancellations[c]]
    {
      if c >= |rec.cancellations| {
        return Err(NotFound);
      }
      if !IsReady() {
        return Err(Precondition);
      }
      cancellations := cancellations[c := rec.cancellations[c]];
      w := Ok(rec.cancellations[c]);
    }

    method InsertCancellation(w: R.Cancellation) returns (err: Option<Error>)
      modifies this`rec, this`cancellations, this`changed, this`failed
      ensures err.None? <==>
              && old(IsReady()) && old(locked.value.HasParticipant(Some(w.caller)))
              && w.generation == 0 && w.attempts == 0
              && (w.status == R.CancellationPending || w.status == R.CancellationSucceeded)
      ensures err.None? ==>
                && rec == old(rec).(cancellations := old(rec.cancellations) + [w])
                && changed && failed == old(failed)
      ensures err.Some? ==> failed == err
    {
      if !IsReady() || !locked.value.HasParticipant(Some(w.caller)) || w.generation != 0 || w.attempts != 0
         || (w.status != R.CancellationPending && w.status != R.CancellationSucceeded) {
        err := Some(Precondition);
        failed := err;
        return;
      }
      cancellations := cancellations[|rec.cancellations| := w];
      rec := rec.(cancellations := rec.cancellations + [w]);
      changed := true;
      err := None;
    }

    ghost predicate MaySaveCancellation(c: nat, w: R.Cancellation, expected: int)
      reads this
    {
      && c in cancellations && c < |rec.cancellations|
      && var before := cancellations[c];
         && before.status == R.CancellationPending && before.generation == expected
         && w == before.(status := w.status, generation := w.generation, attempts := w.attempts,
                         leaseUntil := w.leaseUntil, nextAttemptAt := w.nextAttemptAt, updatedAt := w.updatedAt)
         && expected <= w.generation <= expected + 1 && before.attempts <= w.attempts <= before.attempts + 1
         && rec.cancellations[c].generation == expected && rec.cancellations[c].status == R.CancellationPending
    }

    method SaveCancellation(c: nat, w: R.Cancellation, expected: int) returns (err: Option<Error>)
      modifies this`rec, this`cancellations, this`changed, this`failed
      ensures err.None? <==> old(MaySaveCancellation(c, w, expected))
      ensures err.None? ==>
                && rec == old(rec).(cancellations := old(rec.cancellations)[c := w])
                && changed == (old(changed) || w.status != R.CancellationPending) && failed == old(failed)
      ensures err.Some? ==> err == Some(Conflict) && failed == err
    {
      err := Some(Conflict);
      if c !in cancellations {
        failed := err;
        return;
      }
      var before := cancellations[c];
      var immutable := w.(status := before.status, generation := before.generation, attempts := before.attempts,
                          leaseUntil := before.leaseUntil, nextAttemptAt := before.nextAttemptAt,
                          updatedAt := before.updatedAt);
      if before.status != R.CancellationPending || before.generation != expected || immutable != before
         || w.generation < expected || w.generation > expected + 1
         || w.attempts < before.attempts || w.attempts > before.attempts + 1 {
        failed := err;
        return;
      }
      if c >= |rec.cancellations| || rec.cancellations[c].generation != expected
         || rec.cancellations[c].status != R.CancellationPending {
        failed := err;
        return;
      }
      rec := rec.(cancellations := rec.cancellations[c := w]);
      cancellations := cancellations[c := w];
      changed := changed || w.status != R.CancellationPending;
      err := None;
    }

    // Commit

    method Commit() returns (err: Option<Error>)
      ensures err == failed
    {
      err := failed;
    }

    // A financial outcome, or the birth of an attempt with an offer, commits only with its change of the order.
    method CommitAssignment() returns (err: Option<Error>)
      ensures err.None? <==>
              && failed.None?
              && (!applied ==> forall i :: i in written ==>
                    written[i].offer.Some? ==> !written[i].IsResolved() && written[i].generation != 0)
      ensures err.Some? ==> err == failed || err == Some(Precondition)
    {
      var rest := written;
      while rest != map[]
        invariant forall i :: i in rest ==> i in written && rest[i] == written[i]
        invariant !applied ==> forall i :: i in written && i !in rest ==>
                    written[i].offer.Some? ==> !written[i].IsResolved() && written[i].generation != 0
        decreases |rest|
      {
        var i :| i in rest;
        var w := rest[i];
        if w.offer.Some? && (w.IsResolved() || w.generation == 0) && !applied {
          return Some(Precondition);
        }
        rest := rest - {i};
      }
      err := failed;
    }

    // A withdrawal's end, and any attempt it fenced, commit only with their change of the order.
    method CommitCancellation() returns (err: Option<Error>)
      ensures err.None? <==> failed.None? && (changed || written != map[] ==> applied)
    {
      if changed && !applied {
        return Some(Precondition);
      }
      if written != map[] && !applied {
        return Some(Precondition);
      }
      err := failed;
    }
  }

  // A change that failed stays failed, whatever follows it.
  lemma {:induction false} FailedForGood(fs: seq<R.Offer>, us: seq<OfferChange>, k: nat)
    requires k <= |us| && ApplyOffers(fs, us[..k]).None?
    ensures ApplyOffers(fs, us).None?
    decreases |us| - k
  {
    if k < |us| {
      assert us[..k + 1][..k] == us[..k];
      FailedForGood(fs, us, k + 1);
    } else {
      assert us[..k] == us;
    }
  }
}
