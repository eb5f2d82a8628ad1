/** What a claim and an observation make of an assignment attempt, its offer and its order. */
module AssignmentEffects {
  import opened Common
  import opened Orders
  import opened OrderRecords
  import opened OrderInvariants
  import opened OrderSteps
  import opened Lifecycle
  import opened AdmissionEffects

  predicate TakesCouriers(o: Order, now: Time) {
    o.status == AwaitingCourier && now < o.expiresAt
  }

  predicate IsPending(w: Attempt) {
    w.phase == AdjustmentPending || w.phase == RevertPending
  }

  /** A step of an attempt is leased exactly if it is unresolved, unleased and due; one whose order no longer takes
      couriers is due at once, and becomes a revert in the same commit. */
  lemma ClaimedExactly(r: Record, i: AttemptId, now: Time)
    requires RecordOk(r) && i < |r.attempts|
    ensures var w := r.attempts[i];
            && ClaimAssignment(r, i, now).Ok?
            && var c := ClaimAssignment(r, i, now).value;
               && (c.claimed <==>
                     && IsPending(w) && w.leaseUntil <= now
                     && (w.nextAttemptAt <= now || (w.phase == AdjustmentPending && !TakesCouriers(r.order, now))))
               && (!c.claimed ==> c.record == r)
               && (c.claimed ==>
                     var open := TakesCouriers(r.order, now);
                     c.record == r.(attempts := r.attempts[i :=
                       w.(phase := if open then w.phase else RevertPending,
                          rejection := if open then w.rejection else OrderUnavailable,
                          generation := w.generation + 1, attempts := w.attempts + 1,
                          leaseUntil := now + 15 * SECOND, updatedAt := now)]))
  {
    hide HolderOk, CancellationsOk, FactsOk, WorkflowOk, OffersOk;
    if IsPending(r.attempts[i]) {
      ActiveIsTheOne(r, i);
    }
  }

  // What a worker observed

  // Credit has assigned exactly this attempt's offer: its courier and amount on this order's hold.
  ghost predicate ShowsAdjustment(seen: Seen, i: AttemptId, w: Attempt, o: Order) {
    && seen.Saw? && seen.view.state == ViewAssigned && seen.view.order == o.id
    && seen.view.requester == Some(o.requester)
    && seen.view.offer == Some(i) && seen.view.courier == Some(w.courier)
    && seen.view.reserved == w.amount && seen.view.original == w.original
  }

  // The original hold is back, or was released, with no offer applied to it.
  ghost predicate ShowsRevert(seen: Seen, w: Attempt, o: Order) {
    && seen.Saw? && seen.view.order == o.id && seen.view.requester == Some(o.requester)
    && seen.view.original == w.original && seen.view.offer.None? && seen.view.courier.None?
    && (|| (seen.view.state == ViewHeld && seen.view.reserved == w.original)
        || (seen.view.state == ViewReleased && seen.view.reserved == 0))
  }

  predicate IsCurrent(w: Attempt, generation: int, phase: Phase, now: Time) {
    IsPending(w) && w.generation == generation && w.phase == phase && now < w.leaseUntil
  }

  // The attempt would take the order now.
  ghost predicate Wins(r: Record, i: AttemptId, seen: Seen, now: Time)
    requires i < |r.attempts|
  {
    && r.attempts[i].phase == AdjustmentPending && TakesCouriers(r.order, now)
    && ShowsAdjustment(seen, i, r.attempts[i], r.order)
  }

  // The attempt is known to be undone.
  ghost predicate IsUndone(r: Record, i: AttemptId, seen: Seen)
    requires i < |r.attempts|
  {
    r.attempts[i].phase == RevertPending && ShowsRevert(seen, r.attempts[i], r.order)
  }

  // What a current observation leads to

  lemma AttemptBasics(r: Record, i: AttemptId)
    requires RecordOk(r) && i < |r.attempts| && IsPending(r.attempts[i])
    ensures r.order.courier != Some(r.order.requester) && 1 <= r.order.revision
    ensures var w := r.attempts[i];
            && w.offer.Some? && w.offer.value < |r.offers| && w.courier != r.order.requester
            && r.offers[w.offer.value].courier == w.courier && r.offers[w.offer.value].credits == w.amount
            && (w.how.AcceptOrderMethod? ==> w.caller == w.courier)
            && (w.how.AcceptOfferMethod? ==> w.caller == r.order.requester)
  {
    assert AttemptOk(r.order.requester, r.workflow.amount, r.offers, r.attempts[i]);
  }

  // The order in its new courier's hands, at the attempt's price.
  function Taken(o: Order, w: Attempt, now: Time): Order {
    o.(status := AwaitingPickup, courier := Some(w.courier), reward := w.amount, reserved := w.amount,
       assignedAt := Some(now), revision := o.revision + 1, updatedAt := now)
  }

  function TakesBy(w: Attempt): Action {
    match w.how
    case AcceptOrderMethod(_) => Assign
    case AcceptOfferMethod => AcceptCounteroffer
  }

  // The chosen offer is accepted, and no other stays open.
  ghost predicate Awards(fs: seq<Offer>, gs: seq<Offer>, chosen: nat) {
    && |gs| == |fs|
    && forall f :: 0 <= f < |fs| ==>
         gs[f] == fs[f].(status := if f == chosen then OfferAccepted
                                   else if fs[f].status == OfferOpen then OfferVoid
                                   else fs[f].status)
  }

  lemma AssignsAs(r: Record, i: AttemptId, now: Time)
    requires RecordOk(r) && i < |r.attempts| && IsPending(r.attempts[i]) && r.order.status == AwaitingCourier
    ensures var w := r.attempts[i];
            var result := AssignChange(r, w, now);
            && (result.Ok? <==> r.offers[w.offer.value].status == OfferAccepting)
            && (result.Err? ==> result.error == Conflict)
            && (result.Ok? ==>
                  && result.value == r.(order := Taken(r.order, w, now), offers := result.value.offers,
                                        facts := r.facts + Emitted(r.order, Taken(r.order, w, now),
                                                                   UserActor(w.caller), TakesBy(w)))
                  && Awards(r.offers, result.value.offers, w.offer.value))
  {
    hide RecordOk, Transition, NewChange, FactsOf;
    AttemptBasics(r, i);
    var w := r.attempts[i];
    var o, after, actor := r.order, Taken(r.order, w, now), UserActor(w.caller);
    AcceptedExactly(o, after, actor, TakesBy(w));
    GoesByTheTable(o, TakesBy(w), actor, AwaitingPickup);
    ChangeIsOwn(o, after, actor, TakesBy(w));
  }

  lemma ResolvesAs(r: Record, i: AttemptId, status: OfferStatus, now: Time)
    requires RecordOk(r) && i < |r.attempts| && IsPending(r.attempts[i])
    ensures var w := r.attempts[i];
            var f := r.offers[w.offer.value];
            var result := ResolveOffer(r, w, status, now);
            && (result.Ok? <==> f.status == OfferAccepting || f.status == OfferVoid)
            && (result.Err? ==> result.error == Conflict)
            && (result.Ok? ==>
                  result.value == r.(order := Touched(r.order, now),
                    offers := r.offers[w.offer.value :=
                      f.(status := if f.status == OfferVoid then OfferVoid else status)]))
  {
    hide RecordOk, NewChange;
    AttemptBasics(r, i);
    AcceptedExactly(r.order, Touched(r.order, now), UserActor(r.attempts[i].caller), ResolveAssignment);
    ChangeIsOwn(r.order, Touched(r.order, now), UserActor(r.attempts[i].caller), ResolveAssignment);
  }

  // What the observation does to the offers and the order, and why it may still be refused.
  lemma MovesAs(r: Record, i: AttemptId, seen: Seen, now: Time)
    requires i < |r.attempts| && IsPending(r.attempts[i])
    ensures var w, move := r.attempts[i], AssignmentMoveOf(r, i, seen, now);
            && (move.Succeed? <==> Wins(r, i, seen, now))
            && (move.Resolve? <==> IsUndone(r, i, seen))
            && (move.Resolve? ==>
                  (move.offer == OfferOpen <==>
                    w.how.AcceptOfferMethod? && w.rejection == InsufficientCredits && TakesCouriers(r.order, now)))
            && (move.Resolve? ==> move.offer == OfferOpen || move.offer == OfferVoid)
            && (move == Fence(OrderUnavailable) <==> w.phase == AdjustmentPending && !TakesCouriers(r.order, now))
            && (move == Fence(InsufficientCredits) <==>
                  w.phase == AdjustmentPending && TakesCouriers(r.order, now) && seen.Refused?)
            && (move.Fence? ==> move.why == OrderUnavailable || move.why == InsufficientCredits)
  {}

  /** What a worker's observation makes of an attempt. It wins the order exactly on a read that shows its own offer
      applied while the order still takes couriers; it is rejected exactly once a read shows it undone; it is fenced
      exactly when the order has closed or Credit refused it; and nothing else moves it. Only an offer that has been
      taken away, or a step that was never claimed, can stop that. */
  lemma DecidedExactly(r: Record, i: AttemptId, generation: int, phase: Phase, seen: Seen, now: Time, jitter: Jitter)
    requires RecordOk(r) && i < |r.attempts|
    ensures var w, result := r.attempts[i], ApplyAssignment(r, i, generation, phase, seen, now, jitter);
            if !IsCurrent(w, generation, phase, now) then result == Ok(r)
            else
              && w.offer.Some? && w.offer.value < |r.offers|
              && var offered := r.offers[w.offer.value].status;
                 && (result.Ok? <==>
                       if Wins(r, i, seen, now) then offered == OfferAccepting
                       else if IsUndone(r, i, seen) then offered == OfferAccepting || offered == OfferVoid
                       else generation != 0)
                 && (result.Ok? ==>
                       && |result.value.attempts| == |r.attempts|
                       && var w' := result.value.attempts[i];
                          && (w'.phase == AssignmentSucceeded <==> Wins(r, i, seen, now))
                          && (w'.phase == AssignmentRejected <==> IsUndone(r, i, seen))
                          && (w'.phase == AdjustmentPending ==> phase == AdjustmentPending)
                          && (w'.phase == RevertPending && phase == AdjustmentPending <==>
                                phase == AdjustmentPending && (!TakesCouriers(r.order, now) || seen.Refused?))
                          && w'.rejection ==
                             if phase != AdjustmentPending then w.rejection
                             else if !TakesCouriers(r.order, now) then OrderUnavailable
                             else if seen.Refused? then InsufficientCredits
                             else w.rejection)
  {
    hide RecordOk, AssignmentMoveOf, AssignChange, ResolveOffer, Wins, IsUndone, RetryDelay, Awards, Taken;
    var w := r.attempts[i];
    if IsCurrent(w, generation, phase, now) {
      AttemptBasics(r, i);
      MovesAs(r, i, seen, now);
      PhaseAs(r, i, seen, now);
      if Wins(r, i, seen, now) {
        AssignsAs(r, i, now);
      } else if IsUndone(r, i, seen) {
        ResolvesAs(r, i, AssignmentMoveOf(r, i, seen, now).offer, now);
      }
    }
  }

  lemma PhaseAs(r: Record, i: AttemptId, seen: Seen, now: Time)
    requires i < |r.attempts|
    ensures Wins(r, i, seen, now) ==>
              r.attempts[i].phase == AdjustmentPending && r.order.status == AwaitingCourier && !seen.Refused?
              && TakesCouriers(r.order, now)
    ensures IsUndone(r, i, seen) ==> r.attempts[i].phase == RevertPending
  {}

  /** What the decision stores. A winner takes the order at its own price and leaves no other offer open; a rejected
      attempt's offer is void, or open again when only a lack of credits refused the requester's own choice; and any
      other decision leaves the order and its offers alone. The lease is given back, and a fence is due at once. */
  lemma StoredExactly(r: Record, i: AttemptId, generation: int, phase: Phase, seen: Seen, now: Time, jitter: Jitter)
    requires RecordOk(r) && i < |r.attempts| && IsCurrent(r.attempts[i], generation, phase, now)
    requires ApplyAssignment(r, i, generation, phase, seen, now, jitter).Ok?
    ensures r.attempts[i].offer.Some? && r.attempts[i].offer.value < |r.offers|
    ensures var r' := ApplyAssignment(r, i, generation, phase, seen, now, jitter).value;
            var w, k := r.attempts[i], r.attempts[i].offer.value;
            && |r'.attempts| == |r.attempts|
            && r' == r.(order := r'.order, offers := r'.offers, facts := r'.facts,
                        attempts := r.attempts[i := r'.attempts[i]])
            && (if Wins(r, i, seen, now) then
                  && r'.order == Taken(r.order, w, now) && Awards(r.offers, r'.offers, k)
                  && r'.facts == r.facts + Emitted(r.order, r'.order, UserActor(w.caller), TakesBy(w))
                else if IsUndone(r, i, seen) then
                  var reopens := w.how.AcceptOfferMethod? && w.rejection == InsufficientCredits
                                 && TakesCouriers(r.order, now) && r.offers[k].status == OfferAccepting;
                  && r'.order == Touched(r.order, now) && r'.facts == r.facts
                  && r'.offers == r.offers[k := r.offers[k].(status := if reopens then OfferOpen else OfferVoid)]
                else r'.order == r.order && r'.offers == r.offers && r'.facts == r.facts)
  {
    hide RecordOk, AssignmentMoveOf, AssignChange, ResolveOffer, Wins, IsUndone, RetryDelay, Awards, Taken, Emitted;
    AttemptBasics(r, i);
    MovesAs(r, i, seen, now);
    PhaseAs(r, i, seen, now);
    if Wins(r, i, seen, now) {
      AssignsAs(r, i, now);
    } else if IsUndone(r, i, seen) {
      ResolvesAs(r, i, AssignmentMoveOf(r, i, seen, now).offer, now);
    }
  }

  /** When an attempt is tried again: a new fence at once, an adjustment no later than the order's expiry, and anything
      else within thirty seconds. Nothing of the attempt but its phase, its reason and these instants changes. */
  lemma RetriedExactly(r: Record, i: AttemptId, generation: int, phase: Phase, seen: Seen, now: Time, jitter: Jitter)
    requires RecordOk(r) && i < |r.attempts| && IsCurrent(r.attempts[i], generation, phase, now)
    requires ApplyAssignment(r, i, generation, phase, seen, now, jitter).Ok?
    ensures var r' := ApplyAssignment(r, i, generation, phase, seen, now, jitter).value;
            && |r'.attempts| == |r.attempts|
            && var w, w' := r.attempts[i], r'.attempts[i];
               && w' == w.(phase := w'.phase, rejection := w'.rejection, leaseUntil := now, updatedAt := now,
                           nextAttemptAt := w'.nextAttemptAt)
               && (if w.phase == AdjustmentPending && w'.phase == RevertPending then w'.nextAttemptAt == now
                   else
                     && (w'.phase == AdjustmentPending ==> w'.nextAttemptAt <= r.order.expiresAt)
                     && w'.nextAttemptAt <= now + 30 * SECOND
                     && (w'.nextAttemptAt < now + SECOND ==> w'.nextAttemptAt == r.order.expiresAt))
  {
    hide RecordOk, AssignmentMoveOf, AssignChange, ResolveOffer, Wins, IsUndone, RetryDelay, Awards, Taken;
    RetryDelayBounded(r.attempts[i].attempts, r.attempts[i].attempts, jitter);
    AttemptBasics(r, i);
    MovesAs(r, i, seen, now);
    PhaseAs(r, i, seen, now);
    if Wins(r, i, seen, now) {
      AssignsAs(r, i, now);
    } else if IsUndone(r, i, seen) {
      ResolvesAs(r, i, AssignmentMoveOf(r, i, seen, now).offer, now);
    }
  }

  /** The winner's offer is the one that is newly accepted, and no offer stays open beside it. */
  lemma WinnerClosesOffers(r: Record, i: AttemptId, generation: int, phase: Phase, seen: Seen, now: Time,
                           jitter: Jitter, f: nat)
    requires RecordOk(r) && i < |r.attempts| && IsCurrent(r.attempts[i], generation, phase, now)
    requires Wins(r, i, seen, now) && ApplyAssignment(r, i, generation, phase, seen, now, jitter).Ok?
    requires f < |r.offers|
    ensures var r' := ApplyAssignment(r, i, generation, phase, seen, now, jitter).value;
            && |r'.offers| == |r.offers| && r'.offers[f].status != OfferOpen
            && (r'.offers[f].status == OfferAccepted <==>
                  r.attempts[i].offer == Some(f) || r.offers[f].status == OfferAccepted)
            && r'.order.courier == Some(r.attempts[i].courier) && r'.order.reserved == r.attempts[i].amount
  {
    hide RecordOk, ApplyAssignment, Wins;
    StoredExactly(r, i, generation, phase, seen, now, jitter);
  }
}
