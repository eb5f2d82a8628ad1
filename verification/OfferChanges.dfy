/** Changes of offers inside one transaction: how they are applied row by row, and which of them an actor may make. */
module OfferChanges {
  import opened Common
  import opened Orders
  import opened OrderRecords
  import opened OrderInvariants

  // None expects no row: the offer is new.
  datatype OfferChange = OfferChange(id: nat, offer: Offer, expected: Option<OfferStatus>)

  // One insert or compare-and-set update; None when the row is not as expected.
  function ApplyOffer(fs: seq<Offer>, u: OfferChange): Option<seq<Offer>> {
    match u.expected
    case None => if u.id == |fs| then Some(fs + [u.offer]) else None
    case Some(status) =>
      if u.id < |fs| && fs[u.id].status == status && fs[u.id].courier == u.offer.courier
      then Some(fs[u.id := u.offer]) else None
  }

  function ApplyOffers(fs: seq<Offer>, us: seq<OfferChange>): Option<seq<Offer>> {
    if us == [] then Some(fs)
    else
      match ApplyOffers(fs, us[..|us| - 1])
      case None => None
      case Some(gs) => ApplyOffer(gs, us[|us| - 1])
  }

  // The updates that turn the first n offers of fs into those of gs.
  function Diff(fs: seq<Offer>, gs: seq<Offer>, n: nat): seq<OfferChange>
    requires n <= |fs| == |gs|
  {
    if n == 0 then []
    else if fs[n - 1] == gs[n - 1] then Diff(fs, gs, n - 1)
    else Diff(fs, gs, n - 1) + [OfferChange(n - 1, gs[n - 1], Some(fs[n - 1].status))]
  }

  // The first n offers of gs, then the rest of fs.
  function Mixed(fs: seq<Offer>, gs: seq<Offer>, n: nat): (m: seq<Offer>)
    requires n <= |fs| == |gs|
    ensures |m| == |fs| && forall i :: 0 <= i < |fs| ==> m[i] == if i < n then gs[i] else fs[i]
  {
    gs[..n] + fs[n..]
  }

  lemma MixedNext(fs: seq<Offer>, gs: seq<Offer>, n: nat)
    requires 0 < n <= |fs| == |gs|
    ensures Mixed(fs, gs, n - 1)[n - 1 := gs[n - 1]] == Mixed(fs, gs, n)
    ensures fs[n - 1] == gs[n - 1] ==> Mixed(fs, gs, n - 1) == Mixed(fs, gs, n)
  {}

  lemma ApplyOneMore(fs: seq<Offer>, us: seq<OfferChange>, u: OfferChange, gs: seq<Offer>)
    requires ApplyOffers(fs, us) == Some(gs)
    ensures ApplyOffers(fs, us + [u]) == ApplyOffer(gs, u)
  {
    assert (us + [u])[..|us + [u]| - 1] == us;
  }

  lemma {:induction false} DiffApplies(fs: seq<Offer>, gs: seq<Offer>, n: nat)
    requires n <= |fs| == |gs| && SameOffers(fs, gs)
    ensures ApplyOffers(fs, Diff(fs, gs, n)) == Some(Mixed(fs, gs, n))
  {
    if n == 0 {
      assert Mixed(fs, gs, 0) == fs;
    } else {
      DiffApplies(fs, gs, n - 1);
      MixedNext(fs, gs, n);
      if fs[n - 1] != gs[n - 1] {
        ApplyOneMore(fs, Diff(fs, gs, n - 1), OfferChange(n - 1, gs[n - 1], Some(fs[n - 1].status)),
                     Mixed(fs, gs, n - 1));
      }
    }
  }

  lemma DiffReaches(fs: seq<Offer>, gs: seq<Offer>)
    requires |fs| == |gs| && SameOffers(fs, gs)
    ensures ApplyOffers(fs, Diff(fs, gs, |fs|)) == Some(gs)
  {
    DiffApplies(fs, gs, |fs|);
    assert Mixed(fs, gs, |fs|) == gs;
  }

  // Each update of a difference names a stored row as it is, and rows are named in order.
  ghost predicate IsDiff(fs: seq<Offer>, gs: seq<Offer>, us: seq<OfferChange>) {
    && |fs| == |gs|
    && (forall k :: 0 <= k < |us| ==>
          && us[k].id < |fs| && us[k].offer == gs[us[k].id] && us[k].expected == Some(fs[us[k].id].status)
          && fs[us[k].id] != gs[us[k].id])
    && forall j, k :: 0 <= j < k < |us| ==> us[j].id < us[k].id
  }

  lemma {:induction false} DiffIsDiff(fs: seq<Offer>, gs: seq<Offer>, n: nat)
    requires n <= |fs| == |gs|
    ensures IsDiff(fs, gs, Diff(fs, gs, n))
    ensures forall k :: 0 <= k < |Diff(fs, gs, n)| ==> Diff(fs, gs, n)[k].id < n
  {
    if n > 0 {
      DiffIsDiff(fs, gs, n - 1);
      var us := Diff(fs, gs, n - 1);
      assert forall k :: 0 <= k < |us| ==> Diff(fs, gs, n)[k] == us[k];
    }
  }

  // Every row that differs is named.
  lemma {:induction false} DiffNames(fs: seq<Offer>, gs: seq<Offer>, n: nat, i: nat) returns (k: nat)
    requires i < n <= |fs| == |gs| && fs[i] != gs[i]
    ensures k < |Diff(fs, gs, n)| && Diff(fs, gs, n)[k].id == i
  {
    if i == n - 1 {
      k := |Diff(fs, gs, n - 1)|;
    } else {
      k := DiffNames(fs, gs, n - 1, i);
    }
  }

  // Who may change which offer

  // A change that needs the attempt which owns its offer.
  predicate NamesAttempt(action: Action, u: OfferChange) {
    action == ResolveAssignment || u.expected == Some(OfferAccepting) || u.offer.status == OfferAccepting
  }

  // The offer whose attempt answers for all the changes: that of the first change that names one.
  function OwnedOffer(action: Action, us: seq<OfferChange>): Option<nat> {
    if us == [] || action == ProposeOffer then None
    else if NamesAttempt(action, us[0]) then Some(us[0].id)
    else OwnedOffer(action, us[1..])
  }

  function Owner(r: Record, action: Action, us: seq<OfferChange>): Option<Attempt> {
    match OwnedOffer(action, us)
    case None => None
    case Some(offer) =>
      match OfferAssignment(r, offer)
      case None => None
      case Some(i) => Some(r.attempts[i])
  }

  predicate MatchesAttempt(attempt: Option<Attempt>, actor: Actor) {
    attempt.Some? && Some(attempt.value.caller) == actor.id && actor.kind == User
  }

  predicate IsOfferAction(action: Action) {
    action == ProposeOffer || action == BeginAssignment || action == ResolveAssignment
    || action == Assign || action == AcceptCounteroffer
  }

  // The offer's own courier and price are as stored, and not the requester's.
  predicate IsConsistent(before: Order, stored: seq<Offer>, u: OfferChange) {
    && u.offer.courier != before.requester && u.offer.credits > 0
    && (u.id < |stored| ==>
          && u.expected == Some(stored[u.id].status)
          && stored[u.id].courier == u.offer.courier && stored[u.id].credits == u.offer.credits)
    && (u.id >= |stored| ==> u.expected.None?)
  }

  // What the action may do to one offer, given the attempt that owns it.
  predicate IsPermitted(before: Order, stored: seq<Offer>, actor: Actor, action: Action, attempt: Option<Attempt>,
                        u: OfferChange) {
    var f := u.offer;
    var known := u.id < |stored|;
    match action
    case ProposeOffer =>
      && before.status == AwaitingCourier && !before.IsRequestedBy(actor.id) && Some(f.courier) == actor.id
      && (!known ==> f.status == OfferOpen && f.credits > before.reward)
      && (known ==> stored[u.id].status == OfferOpen && f.status == OfferVoid)
    case BeginAssignment =>
      && MatchesAttempt(attempt, actor) && attempt.value.offer == Some(u.id)
      && f.courier == attempt.value.courier && f.credits == attempt.value.amount && f.status == OfferAccepting
      && (attempt.value.how.AcceptOrderMethod? ==>
            !known && Some(f.courier) == actor.id && f.credits == before.reward)
      && (attempt.value.how.AcceptOfferMethod? ==>
            before.IsRequestedBy(actor.id) && known && stored[u.id].status == OfferOpen)
    case ResolveAssignment =>
      && MatchesAttempt(attempt, actor) && attempt.value.offer == Some(u.id) && known
      && (stored[u.id].status == OfferAccepting || stored[u.id].status == OfferVoid)
      && (f.status == OfferOpen || f.status == OfferVoid)
      && (stored[u.id].status == OfferVoid ==> f.status == OfferVoid)
      && (f.status == OfferOpen ==>
            attempt.value.how.AcceptOfferMethod? && attempt.value.rejection == InsufficientCredits)
    case _ =>
      && MatchesAttempt(attempt, actor) && known
      && (if attempt.value.offer == Some(u.id) then
            && stored[u.id].status == OfferAccepting && f.status == OfferAccepted
            && f.courier == attempt.value.courier && f.credits == attempt.value.amount
          else stored[u.id].status == OfferOpen && f.status == OfferVoid)
  }

  ghost predicate OffersAllowed(before: Order, stored: seq<Offer>, actor: Actor, action: Action,
                                attempt: Option<Attempt>, us: seq<OfferChange>) {
    IsOfferAction(action) ==>
      && actor.kind == User && actor.id.Some?
      && (forall k :: 0 <= k < |us| ==>
            IsConsistent(before, stored, us[k]) && IsPermitted(before, stored, actor, action, attempt, us[k]))
      && (forall j, k :: 0 <= j < k < |us| ==> us[j].id != us[k].id)
  }

  // Changes that an attempt may make name no other attempt's offer.
  lemma {:induction false} OwnedByItsAttempt(before: Order, stored: seq<Offer>, actor: Actor, action: Action,
                                             w: Attempt, us: seq<OfferChange>, k: nat)
    requires action == BeginAssignment || action == ResolveAssignment
             || action == Assign || action == AcceptCounteroffer
    requires OffersAllowed(before, stored, actor, action, Some(w), us)
    requires k < |us| && NamesAttempt(action, us[k])
    ensures OwnedOffer(action, us) == w.offer
  {
    assert IsConsistent(before, stored, us[0]) && IsPermitted(before, stored, actor, action, Some(w), us[0]);
    if !NamesAttempt(action, us[0]) {
      OwnedByItsAttempt(before, stored, actor, action, w, us[1..], k - 1);
    }
  }

  // Reports the first refusal; none exactly when every change is allowed.
  method ValidateOffers(before: Order, stored: seq<Offer>, actor: Actor, action: Action, attempt: Option<Attempt>,
                        us: seq<OfferChange>) returns (err: Option<Error>)
    ensures err.None? <==> OffersAllowed(before, stored, actor, action, attempt, us)
  {
    hide IsPermitted;
    if !IsOfferAction(action) {
      return None;
    }
    if actor.kind != User || actor.id.None? {
      return Some(Forbidden);
    }
    var seen: set<nat> := {};
    var k := 0;
    while k < |us|
      invariant 0 <= k <= |us|
      invariant forall j :: 0 <= j < k ==>
                  && IsConsistent(before, stored, us[j])
                  && IsPermitted(before, stored, actor, action, attempt, us[j])
      invariant forall i, j :: 0 <= i < j < k ==> us[i].id != us[j].id
      invariant forall id :: id in seen <==> exists j :: 0 <= j < k && us[j].id == id
    {
      var u := us[k];
      if u.offer.courier == before.requester || u.offer.credits <= 0 || u.id in seen {
        return Some(Invalid);
      }
      seen := seen + {u.id};
      if !IsConsistent(before, stored, u) {
        return Some(Conflict);
      }
      if !IsPermitted(before, stored, actor, action, attempt, u) {
        return Some(Forbidden);
      }
      k := k + 1;
    }
    err := None;
  }
}
