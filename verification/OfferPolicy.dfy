/** Which offer changes each action lets through, written out: the attempt's own offer, one step at a time. */
module OfferPolicy {
  import opened Common
  import opened Orders
  import opened OrderRecords
  import opened OfferChanges

  // The change names a stored offer as it is and keeps its courier and price.
  predicate Turns(stored: seq<Offer>, u: OfferChange, source: OfferStatus, target: OfferStatus) {
    && u.id < |stored| && stored[u.id].status == source && u.expected == Some(source)
    && u.offer == stored[u.id].(status := target)
  }

  predicate Adds(stored: seq<Offer>, u: OfferChange, offer: Offer) {
    |stored| <= u.id && u.expected.None? && u.offer == offer
  }

  predicate IsSane(before: Order, f: Offer) {
    f.courier != before.requester && 0 < f.credits
  }

  lemma EachIsItsOwn(before: Order, stored: seq<Offer>, actor: Actor, action: Action, w: Attempt,
                     us: seq<OfferChange>, k: nat)
    requires action == BeginAssignment || action == ResolveAssignment
    requires OffersAllowed(before, stored, actor, action, Some(w), us) && k < |us|
    ensures w.offer == Some(us[k].id)
  {
    assert IsPermitted(before, stored, actor, action, Some(w), us[k]);
  }

  lemma OnlyOne(before: Order, stored: seq<Offer>, actor: Actor, action: Action, w: Attempt, us: seq<OfferChange>)
    requires action == BeginAssignment || action == ResolveAssignment
    requires OffersAllowed(before, stored, actor, action, Some(w), us) && us != []
    ensures |us| == 1 && w.offer == Some(us[0].id)
  {
    EachIsItsOwn(before, stored, actor, action, w, us, 0);
    if 1 < |us| {
      EachIsItsOwn(before, stored, actor, action, w, us, 1);
      assert false;
    }
  }

  /** Beginning an attempt lets exactly one change through: the attempt's caller puts its own offer into acceptance, a
      new one at the order's reward for the courier themselves, or the requester's choice of an open counteroffer. */
  lemma BeginsExactly(before: Order, stored: seq<Offer>, actor: Actor, w: Attempt, us: seq<OfferChange>)
    requires us != []
    ensures OffersAllowed(before, stored, actor, BeginAssignment, Some(w), us) <==>
            && actor == UserActor(w.caller) && |us| == 1 && w.offer == Some(us[0].id) && IsSane(before, us[0].offer)
            && us[0].offer == Offer(w.courier, w.amount, OfferAccepting)
            && match w.how
               case AcceptOrderMethod(_) =>
                 && w.caller == w.courier && w.amount == before.reward
                 && Adds(stored, us[0], Offer(w.courier, before.reward, OfferAccepting))
               case AcceptOfferMethod =>
                 w.caller == before.requester && Turns(stored, us[0], OfferOpen, OfferAccepting)
  {
    if OffersAllowed(before, stored, actor, BeginAssignment, Some(w), us) {
      OnlyOne(before, stored, actor, BeginAssignment, w, us);
      assert IsPermitted(before, stored, actor, BeginAssignment, Some(w), us[0]);
      assert IsConsistent(before, stored, us[0]);
    }
  }

  /** Resolving an attempt lets exactly one change through: its own offer is voided, stays void, or, when only a lack of
      credits refused a counteroffer, opens again. */
  lemma ResolvesExactly(before: Order, stored: seq<Offer>, actor: Actor, w: Attempt, us: seq<OfferChange>)
    requires us != []
    ensures OffersAllowed(before, stored, actor, ResolveAssignment, Some(w), us) <==>
            && actor == UserActor(w.caller) && |us| == 1 && w.offer == Some(us[0].id) && IsSane(before, us[0].offer)
            && (|| Turns(stored, us[0], OfferAccepting, OfferVoid)
                || Turns(stored, us[0], OfferVoid, OfferVoid)
                || (&& Turns(stored, us[0], OfferAccepting, OfferOpen)
                    && w.how.AcceptOfferMethod? && w.rejection == InsufficientCredits))
  {
    if OffersAllowed(before, stored, actor, ResolveAssignment, Some(w), us) {
      OnlyOne(before, stored, actor, ResolveAssignment, w, us);
      assert IsPermitted(before, stored, actor, ResolveAssignment, Some(w), us[0]);
      assert IsConsistent(before, stored, us[0]);
    }
  }

  /** Assigning lets the attempt's own offer be accepted, for its courier and amount, and any other open one be
      voided. */
  lemma AwardsExactly(before: Order, stored: seq<Offer>, actor: Actor, action: Action, w: Attempt,
                      us: seq<OfferChange>)
    requires us != [] && (action == Assign || action == AcceptCounteroffer)
    ensures OffersAllowed(before, stored, actor, action, Some(w), us) <==>
            && actor == UserActor(w.caller)
            && (forall k :: 0 <= k < |us| ==>
                  && IsSane(before, us[k].offer)
                  && if w.offer == Some(us[k].id) then
                       && Turns(stored, us[k], OfferAccepting, OfferAccepted)
                       && us[k].offer == Offer(w.courier, w.amount, OfferAccepted)
                     else Turns(stored, us[k], OfferOpen, OfferVoid))
            && (forall j, k :: 0 <= j < k < |us| ==> us[j].id != us[k].id)
  {
    forall k | 0 <= k < |us| && OffersAllowed(before, stored, actor, action, Some(w), us)
      ensures IsConsistent(before, stored, us[k]) && IsPermitted(before, stored, actor, action, Some(w), us[k])
    {}
    assert us[0] in us;
  }

  /** Proposing lets another user add their own offer above the reward while the order awaits a courier, and void their
      own open ones. */
  lemma ProposesExactly(before: Order, stored: seq<Offer>, actor: Actor, us: seq<OfferChange>)
    requires us != []
    ensures OffersAllowed(before, stored, actor, ProposeOffer, None, us) <==>
            && actor.kind == User && actor.id.Some? && before.status == AwaitingCourier
            && actor.id.value != before.requester
            && (forall k :: 0 <= k < |us| ==>
                  && us[k].offer.courier == actor.id.value && 0 < us[k].offer.credits
                  && (|| Turns(stored, us[k], OfferOpen, OfferVoid)
                      || (&& Adds(stored, us[k], Offer(actor.id.value, us[k].offer.credits, OfferOpen))
                          && before.reward < us[k].offer.credits)))
            && (forall j, k :: 0 <= j < k < |us| ==> us[j].id != us[k].id)
  {
    forall k | 0 <= k < |us| && OffersAllowed(before, stored, actor, ProposeOffer, None, us)
      ensures IsConsistent(before, stored, us[k]) && IsPermitted(before, stored, actor, ProposeOffer, None, us[k])
    {}
    assert us[0] in us;
  }

  /** Without an attempt that owns it, no offer can be accepted, awarded or resolved. */
  lemma NothingUnowned(before: Order, stored: seq<Offer>, actor: Actor, action: Action, us: seq<OfferChange>)
    requires us != []
    requires action in {BeginAssignment, ResolveAssignment, Assign, AcceptCounteroffer}
    ensures !OffersAllowed(before, stored, actor, action, None, us)
  {
    assert !IsPermitted(before, stored, actor, action, None, us[0]);
  }
}
