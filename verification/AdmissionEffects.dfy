/** Which proposals and acceptances are admitted, and what each of them stores. */
module AdmissionEffects {
  import opened Common
  import opened Orders
  import opened OrderRecords
  import opened OrderInvariants
  import opened Lifecycle

  // The order accepts couriers, and no attempt of it is unresolved.
  ghost predicate IsFree(r: Record, now: Time) {
    r.order.status == AwaitingCourier && now < r.order.expiresAt && NoActive(r.attempts)
  }

  // The next revision of the same order, and nothing else of it.
  function Touched(o: Order, now: Time): Order {
    o.(revision := o.revision + 1, updatedAt := now)
  }

  lemma TouchesAnOpenOrder(o: Order, caller: UserId, action: Action, now: Time)
    requires o.status == AwaitingCourier && o.courier != Some(o.requester) && 0 <= o.revision
    requires action == BeginAssignment || (action == ProposeOffer && caller != o.requester)
    ensures Metadata(o, caller, action, now).Ok?
    ensures var c := Metadata(o, caller, action, now).value;
            c.order == Touched(o, now) && c.facts == [] && c.actor == UserActor(caller)
  {
    AcceptedExactly(o, Touched(o, now), UserActor(caller), action);
  }

  lemma FreeMeansNoActive(r: Record)
    ensures ActiveAssignment(r).None? <==> NoActive(r.attempts)
  {}

  /** A proposal is admitted exactly from another user above the reward while the order is free; it voids the courier's
      own open proposal, adds the new one and touches nothing else. */
  lemma ProposedExactly(r: Record, caller: Caller, credits: int, now: Time)
    requires RecordOk(r)
    ensures var result := MakeOffer(r, caller, credits, now);
            && (result.Ok? <==>
                  !caller.suspended && caller.id != r.order.requester && IsFree(r, now) && r.order.reward < credits)
            && (result == Err(Forbidden) ==> caller.suspended || caller.id == r.order.requester)
            && (result == Err(Invalid) ==> credits <= r.order.reward)
            && (result == Err(Precondition) ==> r.order.status != AwaitingCourier || r.order.expiresAt <= now)
            && (result == Err(Conflict) ==> !NoActive(r.attempts))
            && (result.Err? ==> result.error in {Forbidden, Invalid, Precondition, Conflict})
    ensures MakeOffer(r, caller, credits, now).Ok? ==>
              var r' := MakeOffer(r, caller, credits, now).value;
              var n := |r.offers|;
              && r' == r.(order := Touched(r.order, now), offers := r'.offers)
              && |r'.offers| == n + 1 && r'.offers[n] == Offer(caller.id, credits, OfferOpen)
              && forall f :: 0 <= f < n ==>
                   r'.offers[f] == r.offers[f].(status :=
                     if r.offers[f].courier == caller.id && r.offers[f].status == OfferOpen then OfferVoid
                     else r.offers[f].status)
  {
    hide RecordOk, Metadata, ActiveAssignment, NoActive;
    Basics(r);
    FreeMeansNoActive(r);
    if r.order.status == AwaitingCourier && caller.id != r.order.requester {
      TouchesAnOpenOrder(r.order, caller.id, ProposeOffer, now);
    }
  }

  lemma Basics(r: Record)
    requires RecordOk(r)
    ensures r.order.courier != Some(r.order.requester) && 0 < r.order.reward && 0 <= r.order.revision
    ensures r.order.status == AwaitingCourier ==> r.order.reserved == r.order.reward
  {}

  // A new attempt on an offer, before any worker has claimed it.
  function FreshAttempt(o: Order, offer: nat, courier: UserId, credits: int, caller: UserId, how: Method, now: Time)
    : Attempt
  {
    Attempt(Some(offer), caller, courier, how, credits, o.reserved, AdjustmentPending, 0, 0, now, now, NoRejection, now)
  }

  // A rejected acceptance of this courier is on record.
  ghost predicate WasRetained(r: Record, courier: UserId) {
    exists w :: w in r.attempts && w.offer.None? && w.phase == AssignmentRejected && w.caller == courier
             && w.how.AcceptOrderMethod?
  }

  /** An acceptance under a key that nobody has used is admitted exactly from another user on an order that accepts
      couriers. Alone, it begins an attempt at the reward with its own offer; beside an unresolved attempt it is
      retained as rejected, once per courier. Either way its key is kept for good. */
  lemma AcceptedFirstExactly(r: Record, keys: Keys, caller: Caller, key: Key, now: Time)
    requires RecordOk(r) && KeyScope(caller.id, key) !in keys
    ensures var result := AcceptOrder(r, keys, caller, key, now);
            && (result.Ok? <==>
                  && !caller.suspended && caller.id != r.order.requester
                  && r.order.status == AwaitingCourier && now < r.order.expiresAt
                  && (NoActive(r.attempts) || !WasRetained(r, caller.id)))
            && (result == Err(Forbidden) <==> caller.suspended || caller.id == r.order.requester)
            && (result == Err(NotFound) ==> r.order.status != AwaitingCourier || r.order.expiresAt <= now)
            && (result.Err? ==> result.error in {Forbidden, NotFound, Precondition})
    ensures AcceptOrder(r, keys, caller, key, now).Ok? ==>
              var a, n := AcceptOrder(r, keys, caller, key, now).value, |r.attempts|;
              && a.attempt == n && a.keys == keys[KeyScope(caller.id, key) := Retained(r.order.id, n)]
              && if NoActive(r.attempts) then
                   a.record == r.(order := Touched(r.order, now),
                                  offers := r.offers + [Offer(caller.id, r.order.reward, OfferAccepting)],
                                  attempts := r.attempts
                                    + [FreshAttempt(r.order, |r.offers|, caller.id, r.order.reward, caller.id,
                                                    AcceptOrderMethod(key), now)])
                 else
                   && |a.record.attempts| == n + 1 && a.record == r.(attempts := r.attempts + [a.record.attempts[n]])
                   && var w := a.record.attempts[n];
                      w.offer.None? && w.phase == AssignmentRejected && w.caller == w.courier == caller.id
                      && w.how == AcceptOrderMethod(key) && w.rejection == AssignmentInProgress
  {
    hide RecordOk, Metadata, ActiveAssignment, NoActive;
    Basics(r);
    FreeMeansNoActive(r);
    if r.order.status == AwaitingCourier {
      TouchesAnOpenOrder(r.order, caller.id, BeginAssignment, now);
    }
  }

  /** A key that was used before admits nothing: it answers the one attempt it was kept for, whatever the order has
      become since, and is refused for another order. */
  lemma AcceptedAgainExactly(r: Record, keys: Keys, caller: Caller, key: Key, now: Time)
    requires KeyScope(caller.id, key) in keys && !caller.suspended && caller.id != r.order.requester
    ensures var result, kept := AcceptOrder(r, keys, caller, key, now), keys[KeyScope(caller.id, key)];
            && (result == Err(AlreadyExists) <==> kept.order != r.order.id)
            && (result.Ok? <==>
                  && kept.order == r.order.id && kept.attempt < |r.attempts|
                  && r.attempts[kept.attempt].caller == caller.id
                  && r.attempts[kept.attempt].how == AcceptOrderMethod(key))
            && (result.Ok? ==> result.value == Acceptance(r, keys, kept.attempt))
  {}

  // The latest attempt on an offer still answers for it: only a lack of credits lets the requester try again.
  ghost predicate IsAnswered(r: Record, offer: nat, i: nat) {
    && i < |r.attempts| && r.attempts[i].offer == Some(offer)
    && (forall j :: i < j < |r.attempts| ==> r.attempts[j].offer != Some(offer))
    && !(r.attempts[i].phase == AssignmentRejected && r.attempts[i].rejection == InsufficientCredits)
  }

  lemma AnsweredByTheLatest(r: Record, offer: nat, i: nat)
    ensures OfferAssignment(r, offer).Some? ==> OfferAssignment(r, offer).value < |r.attempts|
    ensures IsAnswered(r, offer, i) <==>
            && OfferAssignment(r, offer) == Some(i) && i < |r.attempts|
            && (r.attempts[i].phase != AssignmentRejected || r.attempts[i].rejection != InsufficientCredits)
  {}

  /** A requester's acceptance of a counteroffer answers with the attempt that already does, or begins a new one,
      exactly on an open offer above the reward while the order is free. */
  lemma AcceptedOfferExactly(r: Record, caller: Caller, offer: nat, now: Time)
    requires RecordOk(r)
    ensures var result := AcceptOffer(r, caller, offer, now);
            var mine := !caller.suspended && caller.id == r.order.requester && offer < |r.offers|;
            && (forall i: nat :: mine && IsAnswered(r, offer, i) ==> result == Ok(Admitted(r, i)))
            && (mine && !(exists i: nat :: IsAnswered(r, offer, i)) ==>
                  && (result.Ok? <==>
                        && IsFree(r, now) && r.offers[offer].status == OfferOpen
                        && r.order.reward < r.offers[offer].credits)
                  && (result.Ok? ==>
                        var f := r.offers[offer];
                        result.value == Admitted(
                          r.(order := Touched(r.order, now),
                             offers := r.offers[offer := Offer(f.courier, f.credits, OfferAccepting)],
                             attempts := r.attempts + [FreshAttempt(r.order, offer, f.courier, f.credits, caller.id,
                                                                    AcceptOfferMethod, now)]),
                          |r.attempts|))
                  && (result == Err(Conflict) ==> !NoActive(r.attempts))
                  && (result.Err? ==> result.error in {Precondition, Conflict}))
            && (!mine ==> result == Err(if caller.suspended then Forbidden else NotFound))
  {
    hide RecordOk, Metadata, ActiveAssignment, NoActive, OfferAssignment, IsAnswered;
    Basics(r);
    FreeMeansNoActive(r);
    if r.order.status == AwaitingCourier {
      TouchesAnOpenOrder(r.order, caller.id, BeginAssignment, now);
    }
    if offer < |r.offers| {
      OthersOffer(r, offer);
    }
    var previous := OfferAssignment(r, offer);
    AnsweredByTheLatest(r, offer, 0);
    forall i: nat
      ensures IsAnswered(r, offer, i) <==>
              && previous == Some(i) && i < |r.attempts|
              && (r.attempts[i].phase != AssignmentRejected || r.attempts[i].rejection != InsufficientCredits)
    {
      AnsweredByTheLatest(r, offer, i);
    }
  }

  lemma OthersOffer(r: Record, offer: nat)
    requires RecordOk(r) && offer < |r.offers|
    ensures r.offers[offer].courier != r.order.requester
  {}
}
