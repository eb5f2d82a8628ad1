/** A retained key names its one operation: whatever happens to the orders and however the call is repeated, the same
    payload gets the same answer and any other is refused. */
module RetryKeySafety {
  import opened Common
  import opened Orders
  import opened OrderInvariants
  import opened OrderSteps
  import opened CancellationSteps
  import opened OrderStore
  import opened RetryKeys
  import R = OrderRecords

  // Each kept key describes the resource it names.
  ghost predicate KeptOk(f: Office, scope: Scope, kept: Kept) {
    && kept.order in f.rows
    && var r := f.rows[kept.order];
       match scope.kind
       case CreateMethod =>
         && kept.payload.CreatePayload? && kept.item == 0 && kept.expiresAt.Some?
         && r.workflow.requester == scope.caller && r.workflow.amount == kept.payload.input.reward
         && r.workflow.expiresAt == kept.payload.input.expiresAt
       case OfferMethod =>
         && kept.item < |r.offers| && kept.expiresAt.Some?
         && r.offers[kept.item].courier == scope.caller
         && kept.payload == OfferPayload(kept.order, r.offers[kept.item].credits)
       case CancelMethod =>
         && kept.item < |r.cancellations| && kept.expiresAt.None?
         && r.cancellations[kept.item].caller == scope.caller
         && kept.payload.CancelPayload? && kept.payload.order == kept.order
         && kept.payload.reason == r.cancellations[kept.item].reason
  }

  // No order was created under two keys.
  ghost predicate OneCreation(keys: map<Scope, Kept>) {
    forall s, t ::
      s in keys && t in keys && s.kind == CreateMethod && t.kind == CreateMethod && keys[s].order == keys[t].order ==>
        s == t
  }

  ghost predicate OfficeOk(f: Office) {
    && RowsOk(f.rows)
    && (forall scope :: scope in f.keys ==> KeptOk(f, scope, f.keys[scope]))
    && OneCreation(f.keys)
  }

  // Steps: the keyed calls, and anything else that any operation may do to a row.
  datatype Step =
    | CreateIt(order: OrderId, who: R.Caller, key: R.Key, input: R.CreateInput, now: Time)
    | OfferIt(order: OrderId, who: R.Caller, credits: int, key: R.Key, now: Time)
    | CancelIt(order: OrderId, user: UserId, reason: OrderText, revision: Option<int>, named: Option<R.Key>, now: Time)
    | Elsewhere(order: OrderId, after: R.Record)

  ghost function Next(f: Office, s: Step): Office {
    match s
    case CreateIt(o, who, key, input, now) => if o in f.rows then f else CreateOnce(f, o, who, key, input, now).office
    case OfferIt(o, who, credits, key, now) => OfferOnce(f, o, who, credits, key, now).office
    case CancelIt(o, user, reason, revision, key, now) => CancelOnce(f, o, user, reason, revision, key, now).office
    case Elsewhere(o, after) =>
      if o in f.rows && RecordOk(after) && Follows(f.rows[o], after) then f.(rows := f.rows[o := after]) else f
  }

  ghost function Run(f: Office, steps: seq<Step>): Office
    decreases |steps|
  {
    if steps == [] then f else Run(Next(f, steps[0]), steps[1..])
  }

  // What every step does: one row appears or follows, and one key is dropped or set.
  ghost predicate Moves(f: Office, f': Office) {
    && OfficeOk(f')
    && forall o :: o in f.rows ==> o in f'.rows && (f'.rows[o] == f.rows[o] || Follows(f.rows[o], f'.rows[o]))
  }

  lemma KeptFollows(f: Office, f': Office, scope: Scope, kept: Kept)
    requires KeptOk(f, scope, kept)
    requires kept.order in f'.rows
    requires f'.rows[kept.order] == f.rows[kept.order] || Follows(f.rows[kept.order], f'.rows[kept.order])
    ensures KeptOk(f', scope, kept)
  {
    var r, r' := f.rows[kept.order], f'.rows[kept.order];
    if scope.kind == CancelMethod && r != r' {
      assert CancellationFollows(r.cancellations[kept.item], r'.cancellations[kept.item]);
    }
  }

  // A row moves on and the keys stay, or one is set that describes the new row.
  lemma RowMoves(f: Office, f': Office, o: OrderId, made: Option<Scope>)
    requires OfficeOk(f) && o in f.rows && o in f'.rows && f'.rows == f.rows[o := f'.rows[o]]
    requires RecordOk(f'.rows[o]) && Follows(f.rows[o], f'.rows[o])
    requires made.None? ==> f'.keys == f.keys
    requires made.Some? ==>
               && made.value.kind != CreateMethod && made.value in f'.keys
               && f'.keys == f.keys[made.value := f'.keys[made.value]]
               && KeptOk(f', made.value, f'.keys[made.value])
    ensures Moves(f, f')
  {
    hide RecordOk, Follows, KeptOk, OneCreation;
    RowsKept(f.rows, o, f'.rows[o]);
    if made.Some? {
      OtherCreation(f.keys, made.value, f'.keys[made.value]);
    }
    forall scope | scope in f'.keys
      ensures KeptOk(f', scope, f'.keys[scope])
    {
      if scope in f.keys && f'.keys[scope] == f.keys[scope] {
        KeptInRows(f, scope);
        KeptFollows(f, f', scope, f.keys[scope]);
      }
    }
  }

  lemma KeptInRows(f: Office, scope: Scope)
    requires OfficeOk(f) && scope in f.keys
    ensures f.keys[scope].order in f.rows
  {}

  lemma NothingMoves(f: Office)
    requires OfficeOk(f)
    ensures Moves(f, f)
  {}

  lemma OtherCreation(keys: map<Scope, Kept>, scope: Scope, kept: Kept)
    requires OneCreation(keys)
    requires scope.kind != CreateMethod || forall s :: s in keys ==> keys[s].order != kept.order
    ensures OneCreation(keys[scope := kept])
  {}

  lemma Forgets(f: Office, scope: Scope)
    requires OfficeOk(f)
    ensures OfficeOk(f.(keys := f.keys - {scope}))
  {}

  lemma AdmitNames(o: OrderId, caller: UserId, input: R.CreateInput, now: Time)
    requires R.AdmitCreation(o, caller, input, now).Ok?
    ensures R.AdmitCreation(o, caller, input, now).value.order.id == o
  {}

  lemma AdmitMoves(f: Office, o: OrderId, caller: UserId, key: R.Key, input: R.CreateInput, now: Time)
    requires OfficeOk(f) && o !in f.rows
    ensures Moves(f, AdmitCreate(f, o, caller, key, input, now).office)
  {
    hide RecordOk, Follows, OneCreation, NewChange;
    NothingMoves(f);
    if R.AdmitCreation(o, caller, input, now).Ok? {
      var f' := AdmitCreate(f, o, caller, key, input, now).office;
      var scope := Scope(caller, CreateMethod, key);
      AdmitNames(o, caller, input, now);
      OtherCreation(f.keys, scope, f'.keys[scope]);
      AdmitOk(o, caller, input, now);
      RowAdded(f.rows, o, R.AdmitCreation(o, caller, input, now).value);
      forall scope | scope in f.keys
        ensures KeptOk(f', scope, f.keys[scope])
      {
        KeptFollows(f, f', scope, f.keys[scope]);
      }
    }
  }

  lemma CreateMoves(f: Office, o: OrderId, who: R.Caller, key: R.Key, input: R.CreateInput, now: Time)
    requires OfficeOk(f) && o !in f.rows
    ensures Moves(f, CreateOnce(f, o, who, key, input, now).office)
  {
    hide OfficeOk, KeptOk, Follows, AdmitCreate;
    NothingMoves(f);
    var scope := Scope(who.id, CreateMethod, key);
    Forgets(f, scope);
    AdmitMoves(f, o, who.id, key, input, now);
    AdmitMoves(f.(keys := f.keys - {scope}), o, who.id, key, input, now);
  }

  lemma ProposeMoves(f: Office, o: OrderId, who: R.Caller, credits: int, key: R.Key, now: Time)
    requires OfficeOk(f) && o in f.rows
    ensures Moves(f, Propose(f, o, who, credits, key, now).office)
  {
    hide RecordOk, Follows, R.MakeOffer, OfficeOk, Moves;
    NothingMoves(f);
    if R.MakeOffer(f.rows[o], who, credits, now).Ok? {
      var f' := Propose(f, o, who, credits, key, now).office;
      OfficeRow(f, o);
      MakeOfferOk(f.rows[o], who, credits, now);
      OfferAdded(f.rows[o], who, credits, now);
      RowMoves(f, f', o, Some(Scope(who.id, OfferMethod, key)));
    }
  }

  lemma OfficeRow(f: Office, o: OrderId)
    requires OfficeOk(f) && o in f.rows
    ensures RecordOk(f.rows[o])
  {}

  lemma OfferAdded(r: R.Record, who: R.Caller, credits: int, now: Time)
    requires R.MakeOffer(r, who, credits, now).Ok?
    ensures var offers := R.MakeOffer(r, who, credits, now).value.offers;
            |offers| == |r.offers| + 1 && offers[|r.offers|] == R.Offer(who.id, credits, R.OfferOpen)
  {}

  lemma OfferMoves(f: Office, o: OrderId, who: R.Caller, credits: int, key: R.Key, now: Time)
    requires OfficeOk(f)
    ensures Moves(f, OfferOnce(f, o, who, credits, key, now).office)
  {
    hide OfficeOk, Follows, Propose;
    NothingMoves(f);
    if o in f.rows {
      ProposeMoves(f, o, who, credits, key, now);
    }
  }

  // The operation a cancellation answers with is the caller's, for the reason given.
  lemma CancelNames(r: R.Record, caller: UserId, reason: OrderText, revision: Option<int>, now: Time)
    requires R.CancelOrder(r, caller, reason, revision, now).Ok?
    ensures var a := R.CancelOrder(r, caller, reason, revision, now).value;
            && a.operation < |a.record.cancellations|
            && a.record.cancellations[a.operation].caller == caller
            && a.record.cancellations[a.operation].reason == reason
  {
    hide NewChange, Transition, R.CurrentSuccessfulAssignment, R.FenceActive, R.CloseOffers;
  }

  lemma CancelMoves(f: Office, o: OrderId, user: UserId, reason: OrderText, revision: Option<int>, key: Option<R.Key>,
                    now: Time)
    requires OfficeOk(f)
    ensures Moves(f, CancelOnce(f, o, user, reason, revision, key, now).office)
  {
    hide RecordOk, Follows, R.CancelOrder, OfficeOk, Moves;
    NothingMoves(f);
    var f' := CancelOnce(f, o, user, reason, revision, key, now).office;
    if f' != f {
      OfficeRow(f, o);
      CancelOk(f.rows[o], user, reason, revision, now);
      CancelNames(f.rows[o], user, reason, revision, now);
      RowMoves(f, f', o, if key.Some? then Some(Scope(user, CancelMethod, key.value)) else None);
    }
  }

  lemma NextMoves(f: Office, s: Step)
    requires OfficeOk(f)
    ensures Moves(f, Next(f, s))
  {
    hide OfficeOk, Follows, RecordOk, CreateOnce, OfferOnce, CancelOnce, Moves;
    NothingMoves(f);
    match s {
      case CreateIt(o, who, key, input, now) =>
        if o !in f.rows {
          CreateMoves(f, o, who, key, input, now);
        }
      case OfferIt(o, who, credits, key, now) => OfferMoves(f, o, who, credits, key, now);
      case CancelIt(o, user, reason, revision, key, now) => CancelMoves(f, o, user, reason, revision, key, now);
      case Elsewhere(o, after) =>
        if o in f.rows && RecordOk(after) && Follows(f.rows[o], after) {
          RowMoves(f, Next(f, s), o, None);
        }
    }
  }

  // Runs

  // Resolved work stays as it is.
  ghost predicate Later(f: Office, f': Office) {
    forall o :: o in f.rows ==>
      o in f'.rows && (f.rows[o].workflow.IsResolved() ==> f'.rows[o].workflow == f.rows[o].workflow)
  }

  lemma MovesLater(f: Office, f': Office)
    requires Moves(f, f')
    ensures OfficeOk(f') && Later(f, f')
  {}

  lemma LaterTransitive(f: Office, f': Office, f'': Office)
    requires Later(f, f') && Later(f', f'')
    ensures Later(f, f'')
  {}

  lemma {:induction false} RunLater(f: Office, steps: seq<Step>)
    requires OfficeOk(f)
    ensures OfficeOk(Run(f, steps)) && Later(f, Run(f, steps))
    decreases |steps|
  {
    hide OfficeOk, Moves, Next, Later;
    if steps == [] {
      NothingMoves(f);
      MovesLater(f, f);
    } else {
      NextMoves(f, steps[0]);
      MovesLater(f, Next(f, steps[0]));
      RunLater(Next(f, steps[0]), steps[1..]);
      LaterTransitive(f, Next(f, steps[0]), Run(f, steps));
    }
  }

  const EMPTY_OFFICE: Office := Office(map[], map[])

  /** In every reachable state each kept key describes the resource it names, and no order was created under two. */
  lemma KeysDescribe(steps: seq<Step>)
    ensures OfficeOk(Run(EMPTY_OFFICE, steps))
  {
    hide Run, Next;
    RunLater(EMPTY_OFFICE, steps);
  }

  // Retention

  function Reads(s: Step): Option<Time> {
    match s
    case CreateIt(_, _, _, _, now) => Some(now)
    case OfferIt(_, _, _, _, now) => Some(now)
    case CancelIt(_, _, _, _, _, now) => Some(now)
    case Elsewhere(_, _) => None
  }

  ghost predicate ReadsBefore(steps: seq<Step>, t: Time) {
    forall i :: 0 <= i < |steps| && Reads(steps[i]).Some? ==> Reads(steps[i]).value < t
  }

  ghost predicate Stays(f: Office, f': Office, scope: Scope) {
    scope in f.keys && scope in f'.keys && f'.keys[scope] == f.keys[scope]
  }

  ghost predicate IsAccepting(f: Office, kept: Kept) {
    && kept.order in f.rows && kept.item < |f.rows[kept.order].offers|
    && f.rows[kept.order].offers[kept.item].status == R.OfferAccepting
  }

  // Kept for ever, not expired at t, or pinned by unresolved work.
  ghost predicate IsHeld(f: Office, scope: Scope, t: Option<Time>) {
    && scope in f.keys
    && var kept := f.keys[scope];
       || scope.kind == CancelMethod
       || (t.Some? ==> IsLive(kept, t.value))
       || (scope.kind == CreateMethod && kept.order in f.rows && !f.rows[kept.order].workflow.IsResolved())
       || (scope.kind == OfferMethod && IsAccepting(f, kept))
  }

  // The step is a call under the scope.
  ghost predicate IsUnder(s: Step, scope: Scope) {
    match s
    case CreateIt(_, who, key, _, _) => scope == Scope(who.id, CreateMethod, key)
    case OfferIt(_, who, _, key, _) => scope == Scope(who.id, OfferMethod, key)
    case CancelIt(_, user, _, _, key, _) => key.Some? && scope == Scope(user, CancelMethod, key.value)
    case Elsewhere(_, _) => false
  }

  // Such a step finds the key, and neither drops nor replaces it.
  lemma HeldIsRepeat(f: Office, s: Step, scope: Scope)
    requires OfficeOk(f) && IsHeld(f, scope, Reads(s)) && IsUnder(s, scope)
    ensures Next(f, s) == f
  {
    hide R.AdmitCreation, R.MakeOffer, R.CancelOrder, RecordOk, Follows, Accepts;
    assert KeptOk(f, scope, f.keys[scope]);
  }

  lemma OthersStay(f: Office, s: Step, scope: Scope)
    requires scope in f.keys && !IsUnder(s, scope)
    ensures Stays(f, Next(f, s), scope)
  {
    hide R.AdmitCreation, R.MakeOffer, R.CancelOrder, RecordOk, Follows, Accepts;
  }

  // Unresolved at the end means unresolved all along.
  ghost predicate Outlasts(f: Office, steps: seq<Step>, scope: Scope) {
    && scope in f.keys
    && var kept := f.keys[scope];
       || scope.kind == CancelMethod
       || (kept.expiresAt.Some? && ReadsBefore(steps, kept.expiresAt.value))
       || (scope.kind == CreateMethod && kept.order in f.rows && kept.order in Run(f, steps).rows
           && !Run(f, steps).rows[kept.order].workflow.IsResolved())
  }

  lemma OutlastsIsHeld(f: Office, steps: seq<Step>, scope: Scope)
    requires OfficeOk(f) && steps != [] && Outlasts(f, steps, scope)
    ensures IsHeld(f, scope, Reads(steps[0]))
  {
    hide OfficeOk, Next, Run;
    RunLater(f, steps);
  }

  lemma OutlastsRest(f: Office, steps: seq<Step>, scope: Scope)
    requires steps != [] && Outlasts(f, steps, scope) && Stays(f, Next(f, steps[0]), scope)
    requires Later(f, Next(f, steps[0]))
    ensures Outlasts(Next(f, steps[0]), steps[1..], scope)
  {
    hide Next;
    assert forall i :: 0 <= i < |steps| - 1 ==> steps[1..][i] == steps[i + 1];
  }

  // Each call under the scope, when it comes, finds the key held.
  ghost predicate HeldAlong(f: Office, steps: seq<Step>, scope: Scope)
    decreases |steps|
  {
    && scope in f.keys
    && (steps == []
        || (&& (IsUnder(steps[0], scope) ==> IsHeld(f, scope, Reads(steps[0])))
            && HeldAlong(Next(f, steps[0]), steps[1..], scope)))
  }

  lemma {:induction false} OutlastsIsHeldAlong(f: Office, steps: seq<Step>, scope: Scope)
    requires OfficeOk(f) && Outlasts(f, steps, scope)
    ensures HeldAlong(f, steps, scope)
    decreases |steps|
  {
    hide OfficeOk, Next, Outlasts, IsHeld, Moves, Later, IsUnder;
    OutlastsKnows(f, steps, scope);
    if steps != [] {
      OutlastsIsHeld(f, steps, scope);
      if IsUnder(steps[0], scope) {
        HeldIsRepeat(f, steps[0], scope);
      } else {
        OthersStay(f, steps[0], scope);
      }
      NextMoves(f, steps[0]);
      MovesLater(f, Next(f, steps[0]));
      OutlastsRest(f, steps, scope);
      OutlastsIsHeldAlong(Next(f, steps[0]), steps[1..], scope);
    }
  }

  lemma {:induction false} RunStays(f: Office, steps: seq<Step>, scope: Scope)
    requires OfficeOk(f) && HeldAlong(f, steps, scope)
    ensures Stays(f, Run(f, steps), scope)
    decreases |steps|
  {
    hide OfficeOk, Next, IsHeld, Moves, Later, IsUnder;
    if steps != [] {
      if IsUnder(steps[0], scope) {
        HeldIsRepeat(f, steps[0], scope);
      } else {
        OthersStay(f, steps[0], scope);
      }
      NextMoves(f, steps[0]);
      MovesLater(f, Next(f, steps[0]));
      RunStays(Next(f, steps[0]), steps[1..], scope);
    }
  }

  lemma OutlastsKnows(f: Office, steps: seq<Step>, scope: Scope)
    requires Outlasts(f, steps, scope)
    ensures scope in f.keys
  {}

  // What a key answers

  function ExpiryOf(f: Office, scope: Scope): Option<Time> {
    if scope in f.keys then f.keys[scope].expiresAt else None
  }

  // The key that an accepted call leaves behind names what the call answered, for the payload it was sent with.
  lemma CreateKeeps(f: Office, o: OrderId, who: R.Caller, key: R.Key, input: R.CreateInput, now: Time)
    requires OfficeOk(f) && CreateOnce(f, o, who, key, input, now).reply.Ok?
    ensures var first := CreateOnce(f, o, who, key, input, now);
            var scope := Scope(who.id, CreateMethod, key);
            && scope in first.office.keys
            && var kept := first.office.keys[scope];
               && kept.payload == CreatePayload(input) && first.reply.value == Named(kept.order, kept.item)
               && kept.order in first.office.rows && kept.expiresAt.Some?
  {
    hide R.AdmitCreation, RecordOk, Follows;
    var scope := Scope(who.id, CreateMethod, key);
    if scope in f.keys {
      assert KeptOk(f, scope, f.keys[scope]);
    }
  }

  lemma CreateRepeats(f: Office, o: OrderId, who: R.Caller, key: R.Key, input: R.CreateInput, now: Time)
    requires OfficeOk(f) && !who.suspended && R.IsCanonical(input)
    requires var scope := Scope(who.id, CreateMethod, key);
             && scope in f.keys
             && var kept := f.keys[scope];
                kept.order in f.rows && (IsLive(kept, now) || !f.rows[kept.order].workflow.IsResolved())
    ensures var kept := f.keys[Scope(who.id, CreateMethod, key)];
            CreateOnce(f, o, who, key, input, now) ==
            Answer(f, if kept.payload == CreatePayload(input) then Ok(Named(kept.order, kept.item))
                      else Err(AlreadyExists))
  {
    hide RecordOk, Follows;
    var scope := Scope(who.id, CreateMethod, key);
    assert KeptOk(f, scope, f.keys[scope]);
  }

  /** One Create key admits one order: until it expires, and as long as its creation is unresolved, every repeat with
      the same payload answers the first order and admits nothing, and any other payload is refused. */
  lemma CreateKeyNamesOneOrder(f: Office, o: OrderId, who: R.Caller, key: R.Key, input: R.CreateInput, now: Time,
                               steps: seq<Step>, o': OrderId, input': R.CreateInput, now': Time)
    requires OfficeOk(f) && o !in f.rows && CreateOnce(f, o, who, key, input, now).reply.Ok?
    requires var first := CreateOnce(f, o, who, key, input, now);
             var later := Run(first.office, steps);
             && first.reply.value.order in later.rows && R.IsCanonical(input')
             && var expiry := ExpiryOf(first.office, Scope(who.id, CreateMethod, key));
                || !later.rows[first.reply.value.order].workflow.IsResolved()
                || (expiry.Some? && ReadsBefore(steps, expiry.value) && now' < expiry.value)
    ensures var first := CreateOnce(f, o, who, key, input, now);
            var later := Run(first.office, steps);
            CreateOnce(later, o', who, key, input', now')
            == Answer(later, if input' == input then first.reply else Err(AlreadyExists))
  {
    hide OfficeOk, CreateOnce, Run, Moves, Later;
    var first := CreateOnce(f, o, who, key, input, now);
    var scope := Scope(who.id, CreateMethod, key);
    CreateMoves(f, o, who, key, input, now);
    MovesLater(f, first.office);
    CreateKeeps(f, o, who, key, input, now);
    NotSuspended(f, o, who, key, input, now);
    OutlastsIsHeldAlong(first.office, steps, scope);
    RunStays(first.office, steps, scope);
    RunLater(first.office, steps);
    CreateRepeats(Run(first.office, steps), o', who, key, input', now');
  }

  lemma NotSuspended(f: Office, o: OrderId, who: R.Caller, key: R.Key, input: R.CreateInput, now: Time)
    requires CreateOnce(f, o, who, key, input, now).reply.Ok?
    ensures !who.suspended
  {}

  lemma AdmissionSucceeds(o: OrderId, user: UserId, input: R.CreateInput, now: Time)
    requires R.IsCanonical(input) && now < input.expiresAt
    ensures R.AdmitCreation(o, user, input, now).Ok?
  {}

  /** A retained Create key admits a new order exactly when its own creation is resolved and it has expired. */
  lemma CreateAdmitsExactly(f: Office, o: OrderId, who: R.Caller, key: R.Key, input: R.CreateInput, now: Time)
    requires OfficeOk(f) && o !in f.rows && !who.suspended && R.IsCanonical(input) && now < input.expiresAt
    requires Scope(who.id, CreateMethod, key) in f.keys
    ensures var kept := f.keys[Scope(who.id, CreateMethod, key)];
            && kept.order in f.rows
            && (o in CreateOnce(f, o, who, key, input, now).office.rows
                <==> f.rows[kept.order].workflow.IsResolved() && !IsLive(kept, now))
  {
    hide R.IsCanonical, R.AdmitCreation, RecordOk;
    var scope := Scope(who.id, CreateMethod, key);
    assert KeptOk(f, scope, f.keys[scope]);
    AdmissionSucceeds(o, who.id, input, now);
  }

  lemma CancelKeeps(f: Office, o: OrderId, user: UserId, reason: OrderText, revision: Option<int>, key: R.Key,
                    now: Time)
    requires OfficeOk(f) && CancelOnce(f, o, user, reason, revision, Some(key), now).reply.Ok?
    ensures var first := CancelOnce(f, o, user, reason, revision, Some(key), now);
            var scope := Scope(user, CancelMethod, key);
            && scope in first.office.keys
            && var kept := first.office.keys[scope];
               Accepts(kept.payload, o, reason, revision) && first.reply.value == Named(kept.order, kept.item)
  {
    hide R.CancelOrder, RecordOk, Follows;
    var scope := Scope(user, CancelMethod, key);
    if scope in f.keys {
      assert KeptOk(f, scope, f.keys[scope]);
    }
  }

  lemma CancelRepeats(f: Office, o: OrderId, user: UserId, reason: OrderText, revision: Option<int>, key: R.Key,
                      now: Time)
    requires OfficeOk(f) && Scope(user, CancelMethod, key) in f.keys
    requires |reason| <= 500 && (revision.Some? ==> 0 < revision.value)
    ensures var kept := f.keys[Scope(user, CancelMethod, key)];
            CancelOnce(f, o, user, reason, revision, Some(key), now) ==
            Answer(f, if Accepts(kept.payload, o, reason, revision) then Ok(Named(kept.order, kept.item))
                      else Err(AlreadyExists))
  {
    hide R.CancelOrder, RecordOk, Follows;
    var scope := Scope(user, CancelMethod, key);
    assert KeptOk(f, scope, f.keys[scope]);
  }

  /** A Cancel key is never forgotten: in every later state each repeat of the accepted call answers the same
      operation and changes nothing, and the key with another order or reason is refused. */
  lemma CancelKeyIsForever(f: Office, o: OrderId, user: UserId, reason: OrderText, revision: Option<int>, key: R.Key,
                           now: Time, steps: seq<Step>, o': OrderId, reason': OrderText, revision': Option<int>,
                           now': Time)
    requires OfficeOk(f) && CancelOnce(f, o, user, reason, revision, Some(key), now).reply.Ok?
    requires |reason'| <= 500 && (revision'.Some? ==> 0 < revision'.value)
    ensures var first := CancelOnce(f, o, user, reason, revision, Some(key), now);
            var later := Run(first.office, steps);
            var again := CancelOnce(later, o', user, reason', revision', Some(key), now');
            && again.office == later
            && (o' == o && reason' == reason && revision' == revision ==> again.reply == first.reply)
            && (o' != o || reason' != reason ==> again.reply == Err(AlreadyExists))
            && (again.reply.Ok? ==> again.reply == first.reply)
  {
    hide OfficeOk, CancelOnce, Run, Moves, Later;
    var first := CancelOnce(f, o, user, reason, revision, Some(key), now);
    var scope := Scope(user, CancelMethod, key);
    CancelMoves(f, o, user, reason, revision, Some(key), now);
    MovesLater(f, first.office);
    CancelKeeps(f, o, user, reason, revision, key, now);
    OutlastsIsHeldAlong(first.office, steps, scope);
    RunStays(first.office, steps, scope);
    RunLater(first.office, steps);
    CancelRepeats(Run(first.office, steps), o', user, reason', revision', key, now');
  }

  lemma OfferKeeps(f: Office, o: OrderId, who: R.Caller, credits: int, key: R.Key, now: Time)
    requires OfficeOk(f) && OfferOnce(f, o, who, credits, key, now).reply.Ok?
    ensures var first := OfferOnce(f, o, who, credits, key, now);
            var scope := Scope(who.id, OfferMethod, key);
            && scope in first.office.keys && o in first.office.rows && first.office.rows[o].order.requester != who.id
            && !who.suspended && 0 < credits
            && var kept := first.office.keys[scope];
               && kept.payload == OfferPayload(o, credits) && kept.order == o && kept.expiresAt.Some?
               && first.reply.value == Named(o, kept.item)
  {
    hide R.MakeOffer, RecordOk, Follows;
    OfferKeepsRequester(f.rows[o], who, credits, now);
    var scope := Scope(who.id, OfferMethod, key);
    if scope in f.keys {
      assert KeptOk(f, scope, f.keys[scope]);
    }
  }

  lemma OfferKeepsRequester(r: R.Record, who: R.Caller, credits: int, now: Time)
    ensures R.MakeOffer(r, who, credits, now).Ok? ==>
              R.MakeOffer(r, who, credits, now).value.order.requester == r.order.requester
  {}

  lemma OfferRepeats(f: Office, o: OrderId, who: R.Caller, credits: int, key: R.Key, now: Time)
    requires OfficeOk(f) && Scope(who.id, OfferMethod, key) in f.keys
    requires !who.suspended && 0 < credits && o in f.rows && f.rows[o].order.requester != who.id
    requires var kept := f.keys[Scope(who.id, OfferMethod, key)];
             IsLive(kept, now) || IsAccepting(f, kept)
    ensures var kept := f.keys[Scope(who.id, OfferMethod, key)];
            OfferOnce(f, o, who, credits, key, now) ==
            Answer(f, if kept.payload == OfferPayload(o, credits) then Ok(Named(o, kept.item)) else Err(AlreadyExists))
  {
    hide R.MakeOffer, RecordOk, Follows;
    var scope := Scope(who.id, OfferMethod, key);
    assert KeptOk(f, scope, f.keys[scope]);
  }

  ghost predicate SameRequesters(f: Office, f': Office) {
    forall o :: o in f.rows ==> o in f'.rows && f'.rows[o].order.requester == f.rows[o].order.requester
  }

  lemma {:induction false} RequestersStay(f: Office, steps: seq<Step>)
    requires OfficeOk(f)
    ensures SameRequesters(f, Run(f, steps))
    decreases |steps|
  {
    hide OfficeOk, Next;
    if steps != [] {
      NextMoves(f, steps[0]);
      RequestersStay(Next(f, steps[0]), steps[1..]);
    }
  }

  /** As long as each call under a MakeOffer key comes before the key expires or while its offer is being accepted,
      every one with the same price answers the same offer and proposes nothing, and any other price is refused. */
  lemma OfferKeyNamesOneOffer(f: Office, o: OrderId, who: R.Caller, credits: int, key: R.Key, now: Time,
                              steps: seq<Step>, credits': int, now': Time)
    requires OfficeOk(f) && OfferOnce(f, o, who, credits, key, now).reply.Ok? && 0 < credits'
    requires var first := OfferOnce(f, o, who, credits, key, now).office;
             var scope, later := Scope(who.id, OfferMethod, key), Run(first, steps);
             && HeldAlong(first, steps, scope) && scope in later.keys
             && (IsLive(later.keys[scope], now') || IsAccepting(later, later.keys[scope]))
    ensures var first := OfferOnce(f, o, who, credits, key, now);
            var later := Run(first.office, steps);
            OfferOnce(later, o, who, credits', key, now')
            == Answer(later, if credits' == credits then first.reply else Err(AlreadyExists))
  {
    hide OfficeOk, OfferOnce, Run, Moves, Later;
    var first := OfferOnce(f, o, who, credits, key, now);
    var scope := Scope(who.id, OfferMethod, key);
    OfferMoves(f, o, who, credits, key, now);
    MovesLater(f, first.office);
    OfferKeeps(f, o, who, credits, key, now);
    RunStays(first.office, steps, scope);
    RunLater(first.office, steps);
    RequestersStay(first.office, steps);
    OfferRepeats(Run(first.office, steps), o, who, credits', key, now');
  }
}
