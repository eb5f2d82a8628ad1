/** What a first call under a retry key does, how long its key is kept, and what a cancellation confirmed. */
module RetryKeyEffects {
  import opened Common
  import opened Orders
  import opened RetryKeys
  import opened RetryKeySafety
  import opened CreationEffects
  import opened CancellationEffects
  import R = OrderRecords

  const DAY: int := 24 * 3600 * SECOND

  /** A Create under a new key admits its order exactly on a sound request, and keeps the key for a day. */
  lemma CreatedFirstExactly(f: Office, o: OrderId, who: R.Caller, key: R.Key, input: R.CreateInput, now: Time)
    requires o !in f.rows && Scope(who.id, CreateMethod, key) !in f.keys
    ensures var a, scope := CreateOnce(f, o, who, key, input, now), Scope(who.id, CreateMethod, key);
            var sound := && !who.suspended && 0 < input.reward && now < input.expiresAt
                         && 300 * SECOND <= input.deliveryDuration <= DAY;
            && (a.reply.Ok? <==> sound)
            && (!sound ==> a.office == f && a.reply.error == (if who.suspended then Forbidden else Invalid))
            && (sound ==>
                  && a.reply == Ok(Named(o, 0)) && o in a.office.rows
                  && a.office.rows == f.rows[o := a.office.rows[o]]
                  && Ok(a.office.rows[o]) == R.AdmitCreation(o, who.id, input, now)
                  && a.office.keys == f.keys[scope := Kept(o, 0, CreatePayload(input), Some(now + DAY))])
  {
    hide R.AdmitCreation;
    AdmittedExactly(o, who.id, input, now);
    InvalidOnly(o, who.id, input, now);
  }

  lemma InvalidOnly(o: OrderId, user: UserId, input: R.CreateInput, now: Time)
    ensures R.AdmitCreation(o, user, input, now).Err? ==> R.AdmitCreation(o, user, input, now).error == Invalid
  {
    AdmittedExactly(o, user, input, now);
  }

  lemma KeptCreation(f: Office, scope: Scope)
    requires OfficeOk(f) && scope in f.keys && scope.kind == CreateMethod
    ensures var kept := f.keys[scope];
            && kept.order in f.rows && kept.expiresAt.Some? && kept.item == 0
            && f.rows[kept.order].workflow.requester == scope.caller
  {
    assert KeptOk(f, scope, f.keys[scope]);
  }

  lemma KeptProposal(f: Office, scope: Scope)
    requires OfficeOk(f) && scope in f.keys && scope.kind == OfferMethod
    ensures var kept := f.keys[scope];
            && kept.order in f.rows && kept.expiresAt.Some? && kept.item < |f.rows[kept.order].offers|
            && f.rows[kept.order].offers[kept.item].courier == scope.caller
            && kept.payload.OfferPayload? && kept.payload.order == kept.order
  {
    assert KeptOk(f, scope, f.keys[scope]);
  }

  /** A Create under a kept key answers the order it made until it is a day old, and for as long as that creation is
      unresolved; another request is refused. Only then is the key forgotten, even when the new request is too late. */
  lemma CreatedAgainExactly(f: Office, o: OrderId, who: R.Caller, key: R.Key, input: R.CreateInput, now: Time)
    requires OfficeOk(f) && o !in f.rows && Scope(who.id, CreateMethod, key) in f.keys
    requires !who.suspended && 0 < input.reward && 300 * SECOND <= input.deliveryDuration <= DAY
    ensures var a, scope := CreateOnce(f, o, who, key, input, now), Scope(who.id, CreateMethod, key);
            var kept := f.keys[scope];
            && kept.order in f.rows && kept.expiresAt.Some?
            && var phase := f.rows[kept.order].workflow.phase;
               if now < kept.expiresAt.value || phase == R.ReservePending || phase == R.AbortPending then
                 a == Answer(f, if kept.payload == CreatePayload(input) then Ok(Named(kept.order, 0))
                                else Err(AlreadyExists))
               else if input.expiresAt <= now then a == Answer(f.(keys := f.keys - {scope}), Err(Invalid))
               else
                 && a.reply == Ok(Named(o, 0)) && o in a.office.rows
                 && a.office.rows == f.rows[o := a.office.rows[o]]
                 && Ok(a.office.rows[o]) == R.AdmitCreation(o, who.id, input, now)
                 && a.office.keys == f.keys[scope := Kept(o, 0, CreatePayload(input), Some(now + DAY))]
  {
    hide R.AdmitCreation, OfficeOk;
    var scope := Scope(who.id, CreateMethod, key);
    KeptCreation(f, scope);
    AdmittedExactly(o, who.id, input, now);
    InvalidOnly(o, who.id, input, now);
    var made := Kept(o, 0, CreatePayload(input), Some(now + DAY));
    assert (f.keys - {scope})[scope := made] == f.keys[scope := made];
  }

  // A new proposal with its key.
  function ProposedAs(f: Office, o: OrderId, who: R.Caller, credits: int, key: R.Key, now: Time): Answer
    requires o in f.rows
  {
    var item := |f.rows[o].offers|;
    match R.MakeOffer(f.rows[o], who, credits, now)
    case Err(e) => Answer(f, Err(e))
    case Ok(r) =>
      Answer(Office(f.rows[o := r], f.keys[Scope(who.id, OfferMethod, key) :=
                                             Kept(o, item, OfferPayload(o, credits), Some(now + DAY))]),
             Ok(Named(o, item)))
  }

  /** A proposal under a new key is the proposal itself, and its key is kept for a day. */
  lemma ProposedFirstExactly(f: Office, o: OrderId, who: R.Caller, credits: int, key: R.Key, now: Time)
    requires o in f.rows && Scope(who.id, OfferMethod, key) !in f.keys
    ensures OfferOnce(f, o, who, credits, key, now) == ProposedAs(f, o, who, credits, key, now)
  {}

  /** A proposal under a kept key makes a new offer exactly once the key is a day old and its offer is not being
      accepted; until then it answers the offer it made, and another price never gets through. */
  lemma ProposedAgainExactly(f: Office, o: OrderId, who: R.Caller, credits: int, key: R.Key, now: Time)
    requires OfficeOk(f) && o in f.rows && Scope(who.id, OfferMethod, key) in f.keys
    requires !who.suspended && 0 < credits && who.id != f.rows[o].order.requester
    ensures var a, kept := OfferOnce(f, o, who, credits, key, now), f.keys[Scope(who.id, OfferMethod, key)];
            && kept.expiresAt.Some?
            && if kept.payload != OfferPayload(o, credits) then a == Answer(f, Err(AlreadyExists))
               else
                 && kept.order == o && kept.item < |f.rows[o].offers|
                 && if now < kept.expiresAt.value || f.rows[o].offers[kept.item].status == R.OfferAccepting then
                      a == Answer(f, Ok(Named(o, kept.item)))
                    else a == ProposedAs(f, o, who, credits, key, now)
  {
    hide R.MakeOffer, OfficeOk;
    KeptProposal(f, Scope(who.id, OfferMethod, key));
  }

  /** A cancellation under no key or a new one is the cancellation itself, and its key is kept for good. */
  lemma CancelledFirstExactly(f: Office, o: OrderId, user: UserId, reason: OrderText, revision: Option<int>,
                              key: Option<R.Key>, now: Time)
    requires o in f.rows && |reason| <= 500 && (revision.Some? ==> 0 < revision.value)
    requires key.Some? ==> Scope(user, CancelMethod, key.value) !in f.keys
    ensures var a := CancelOnce(f, o, user, reason, revision, key, now);
            match R.CancelOrder(f.rows[o], user, reason, revision, now)
            case Err(e) => a == Answer(f, Err(e))
            case Ok(done) =>
              && a.reply == Ok(Named(o, done.operation)) && a.office.rows == f.rows[o := done.record]
              && a.office.keys ==
                 if key.None? then f.keys
                 else f.keys[Scope(user, CancelMethod, key.value) :=
                             Kept(o, done.operation, CancelPayload(o, reason, revision), None)]
  {
    hide R.CancelOrder;
  }

  /** A participant who confirmed another revision than the order's cancels nothing: a call without a key, or the first
      under one, is a conflict that leaves every order and every key as it was. */
  lemma StaleRevisionConflicts(f: Office, o: OrderId, user: UserId, reason: OrderText, revision: int,
                               key: Option<R.Key>, now: Time)
    requires o in f.rows && |reason| <= 500 && 0 < revision != f.rows[o].order.revision
    requires user == f.rows[o].order.requester || f.rows[o].order.courier == Some(user)
    requires key.Some? ==> Scope(user, CancelMethod, key.value) !in f.keys
    ensures CancelOnce(f, o, user, reason, Some(revision), key, now) == Answer(f, Err(Conflict))
  {
    hide R.CancelOrder, CancelOnce;
    CancelledFirstExactly(f, o, user, reason, Some(revision), key, now);
    StaleIsRefused(f.rows[o], user, reason, Some(revision), now);
  }
}
