/** Order's operations over its tables, each in one transaction on one locked order. Every one is proved to leave
    exactly the rows that module OrderRecords gives, and none of the adapter's guards ever refuses one of them. */
module OrderStore {
  import opened Common
  import opened Orders
  import opened OfferChanges
  import opened OrderTx
  import opened OrderInvariants
  import opened OrderSteps
  import opened CancellationSteps
  import R = OrderRecords

  ghost predicate RowsOk(rows: map<OrderId, R.Record>) {
    forall o :: o in rows ==> RecordOk(rows[o]) && rows[o].order.id == o
  }

  lemma RowIsOk(rows: map<OrderId, R.Record>, o: OrderId)
    requires RowsOk(rows) && o in rows
    ensures RecordOk(rows[o])
  {}

  // The parts of the invariant that the adapter's guards ask about.
  lemma RowBasics(r: R.Record)
    requires RecordOk(r)
    ensures OrderShape(r.order, r.workflow.amount) && OffersOk(r.order.requester, r.offers)
  {}

  lemma RowsKept(rows: map<OrderId, R.Record>, o: OrderId, r: R.Record)
    requires RowsOk(rows) && o in rows && RecordOk(r) && Follows(rows[o], r)
    ensures RowsOk(rows[o := r])
  {}

  lemma RowAdded(rows: map<OrderId, R.Record>, o: OrderId, r: R.Record)
    requires RowsOk(rows) && RecordOk(r) && r.order.id == o
    ensures RowsOk(rows[o := r])
  {}

  lemma NoOffersChange(fs: seq<R.Offer>)
    ensures ApplyOffers(fs, []) == Some(fs)
  {}

  lemma MetadataIsOwn(o: Order, caller: UserId, action: Action, now: Time)
    requires R.Metadata(o, caller, action, now).Ok?
    ensures var c := R.Metadata(o, caller, action, now).value;
            && c.order == o.(revision := o.revision + 1, updatedAt := now)
            && c.actor == UserActor(caller) && c.action == action && c.expectedRevision == o.revision
            && NewChange(Some(o), c.order, c.actor, c.action) == Ok(c)
  {}

  // The updates of a proposal: the courier's own open offers are voided, and the new one is added.
  function ProposalChanges(fs: seq<R.Offer>, caller: UserId, credits: int): seq<OfferChange> {
    Diff(fs, R.ReplaceOffers(fs, caller), |fs|) + [OfferChange(|fs|, R.Offer(caller, credits, R.OfferOpen), None)]
  }

  lemma ProposalApplies(fs: seq<R.Offer>, caller: UserId, credits: int)
    ensures ApplyOffers(fs, ProposalChanges(fs, caller, credits))
         == Some(R.ReplaceOffers(fs, caller) + [R.Offer(caller, credits, R.OfferOpen)])
  {
    var target := R.ReplaceOffers(fs, caller);
    DiffReaches(fs, target);
    ApplyOneMore(fs, Diff(fs, target, |fs|), OfferChange(|fs|, R.Offer(caller, credits, R.OfferOpen), None), target);
  }

  lemma ProposalAllowed(r: R.Record, caller: UserId, credits: int)
    requires OffersOk(r.order.requester, r.offers) && r.order.status == AwaitingCourier
    requires caller != r.order.requester && 0 < r.order.reward < credits
    ensures OffersAllowed(r.order, r.offers, UserActor(caller), ProposeOffer, None,
                          ProposalChanges(r.offers, caller, credits))
  {
    hide Diff;
    var target := R.ReplaceOffers(r.offers, caller);
    var us, n := ProposalChanges(r.offers, caller, credits), |Diff(r.offers, target, |r.offers|)|;
    DiffIsDiff(r.offers, target, |r.offers|);
    assert forall k :: 0 <= k < n ==> us[k] == Diff(r.offers, target, |r.offers|)[k];
    forall k | 0 <= k < |us|
      ensures IsConsistent(r.order, r.offers, us[k])
      ensures IsPermitted(r.order, r.offers, UserActor(caller), ProposeOffer, None, us[k])
    {
      if k < n {
        assert r.offers[us[k].id] != target[us[k].id];
      }
    }
  }

  lemma NewestOwns(r: R.Record, w: R.Attempt)
    requires w.offer.Some?
    ensures R.OfferAssignment(r.(attempts := r.attempts + [w]), w.offer.value) == Some(|r.attempts|)
  {
    assert (r.attempts + [w])[|r.attempts|] == w;
  }

  lemma OneOfferChange(fs: seq<R.Offer>, u: OfferChange)
    ensures ApplyOffers(fs, [u]) == ApplyOffer(fs, u)
  {
    NoOffersChange(fs);
    ApplyOneMore(fs, [], u, fs);
    assert [] + [u] == [u];
  }

  // The rows after a new attempt has begun.
  function Begun(r: R.Record, w: R.Attempt, c: Change, u: OfferChange): R.Record
    requires ApplyOffer(r.offers, u).Some?
  {
    R.Write(r, c).(attempts := r.attempts + [w], offers := ApplyOffer(r.offers, u).value)
  }

  // A new attempt, its offer and its change of the order pass every guard of the adapter.
  ghost predicate BeginsWell(r: R.Record, w: R.Attempt, c: Change, u: OfferChange) {
    var o := r.order;
    && w.generation == 0 && w.attempts == 0 && w.phase == R.AdjustmentPending && w.offer == Some(u.id)
    && w.courier != o.requester && w.amount > 0 && w.original > 0 && w.original == o.reserved
    && (w.how.AcceptOrderMethod? ==> w.caller == w.courier)
    && (w.how.AcceptOfferMethod? ==> o.IsRequestedBy(Some(w.caller)))
    && c.expectedRevision == o.revision && c.action == BeginAssignment
    && c.order.requester == o.requester && c.order.createdAt == o.createdAt
    && NewChange(Some(o), c.order, c.actor, c.action) == Ok(c)
    && OffersAllowed(o, r.offers, c.actor, c.action, Some(w), [u])
    && ApplyOffer(r.offers, u).Some?
  }

  lemma BegunOwns(r: R.Record, w: R.Attempt, c: Change, u: OfferChange)
    requires BeginsWell(r, w, c, u)
    ensures Owner(r.(attempts := r.attempts + [w]), c.action, [u]) == Some(w)
  {
    hide NewChange;
    NewestOwns(r, w);
    assert IsPermitted(r.order, r.offers, c.actor, c.action, Some(w), [u][0]);
  }

  lemma NewOfferBegins(r: R.Record, caller: UserId, w: R.Attempt, c: Change)
    requires OrderShape(r.order, r.workflow.amount) && r.order.reserved > 0 && caller != r.order.requester
    requires w.how.AcceptOrderMethod?
    requires w == R.NewAttempt(r.order, |r.offers|, R.Offer(caller, r.order.reward, R.OfferAccepting), caller, w.how,
                               w.updatedAt)
    requires c.action == BeginAssignment && c.actor == UserActor(caller) && c.expectedRevision == r.order.revision
    requires c.order == r.order.(revision := c.order.revision, updatedAt := c.order.updatedAt)
    requires NewChange(Some(r.order), c.order, c.actor, c.action) == Ok(c)
    ensures BeginsWell(r, w, c, OfferChange(|r.offers|, R.Offer(caller, r.order.reward, R.OfferAccepting), None))
  {
    hide NewChange;
  }

  lemma StoredOfferBegins(r: R.Record, caller: UserId, offer: nat, w: R.Attempt, c: Change)
    requires OrderShape(r.order, r.workflow.amount) && r.order.status == AwaitingCourier
    requires r.order.IsRequestedBy(Some(caller)) && offer < |r.offers|
    requires r.offers[offer].status == R.OfferOpen && r.offers[offer].courier != r.order.requester
    requires r.offers[offer].credits > 0
    requires w == R.NewAttempt(r.order, offer, r.offers[offer], caller, R.AcceptOfferMethod, w.updatedAt)
    requires c.action == BeginAssignment && c.actor == UserActor(caller) && c.expectedRevision == r.order.revision
    requires c.order == r.order.(revision := c.order.revision, updatedAt := c.order.updatedAt)
    requires NewChange(Some(r.order), c.order, c.actor, c.action) == Ok(c)
    ensures BeginsWell(r, w, c, OfferChange(offer, r.offers[offer].(status := R.OfferAccepting), Some(R.OfferOpen)))
  {
    hide NewChange;
  }

  lemma AttemptGeneration(r: R.Record, i: AttemptId)
    requires RecordOk(r) && i < |r.attempts|
    ensures 0 <= r.attempts[i].generation
  {
    assert AttemptOk(r.order.requester, r.workflow.amount, r.offers, r.attempts[i]);
  }

  predicate IsAwardable(f: R.Offer, w: R.Attempt) {
    f.status == R.OfferAccepting && f.courier == w.courier && f.credits == w.amount
  }

  // The rows after an attempt has ended with its change of the order.
  function Ended(r: R.Record, i: AttemptId, w: R.Attempt, c: Change, us: seq<OfferChange>): R.Record
    requires i < |r.attempts| && ApplyOffers(r.offers, us).Some?
  {
    R.Write(r, c).(attempts := r.attempts[i := w], offers := ApplyOffers(r.offers, us).value)
  }

  // An attempt that ends, its change and its offers pass every guard of the adapter.
  ghost predicate EndsWell(r: R.Record, i: AttemptId, w: R.Attempt, c: Change, us: seq<OfferChange>)
    requires i < |r.attempts|
  {
    var o := r.order;
    && w.offer.Some? && us != [] && OwnedOffer(c.action, us) == w.offer
    && R.OfferAssignment(r.(attempts := r.attempts[i := w]), w.offer.value) == Some(i)
    && c.expectedRevision == o.revision && c.order.requester == o.requester && c.order.createdAt == o.createdAt
    && NewChange(Some(o), c.order, c.actor, c.action) == Ok(c)
    && OffersAllowed(o, r.offers, c.actor, c.action, Some(w), us)
    && ApplyOffers(r.offers, us).Some?
  }

  // The unresolved attempt is the latest that owns its offer.
  lemma ActiveOwns(r: R.Record, i: AttemptId, w: R.Attempt)
    requires AttemptsOk(r) && i < |r.attempts| && !r.attempts[i].IsResolved() && w.offer == r.attempts[i].offer
    ensures w.offer.Some? && R.OfferAssignment(r.(attempts := r.attempts[i := w]), w.offer.value) == Some(i)
  {
    ActiveIsTheOne(r, i);
    var next := r.attempts[i := w];
    assert next[i] == w;
    forall j | i < j < |next|
      ensures next[j].offer.None?
    {
      assert next[j] == r.attempts[j];
    }
  }

  // Only a counteroffer refused for lack of credits is opened again.
  ghost predicate MayResolve(r: R.Record, i: AttemptId, w: R.Attempt, status: R.OfferStatus)
    requires i < |r.attempts|
  {
    && !r.attempts[i].IsResolved() && w.offer == r.attempts[i].offer
    && w.courier == r.attempts[i].courier && w.amount == r.attempts[i].amount
    && (status == R.OfferVoid
        || (status == R.OfferOpen && w.how.AcceptOfferMethod? && w.rejection == R.InsufficientCredits))
  }

  lemma ResolveEndsWell(r: R.Record, i: AttemptId, w: R.Attempt, status: R.OfferStatus, c: Change, u: OfferChange)
    requires RecordOk(r) && i < |r.attempts| && MayResolve(r, i, w, status)
    requires w.offer.Some? && w.offer.value < |r.offers|
    requires var f := r.offers[w.offer.value];
             && (f.status == R.OfferAccepting || f.status == R.OfferVoid)
             && u == OfferChange(w.offer.value,
                                 f.(status := if f.status == R.OfferVoid then R.OfferVoid else status),
                                 Some(f.status))
    requires c.action == ResolveAssignment && c.actor == UserActor(w.caller) && c.expectedRevision == r.order.revision
    requires c.order == r.order.(revision := c.order.revision, updatedAt := c.order.updatedAt)
    requires NewChange(Some(r.order), c.order, c.actor, c.action) == Ok(c)
    ensures EndsWell(r, i, w, c, [u])
  {
    hide NewChange, R.OfferAssignment, HolderOk, CancellationsOk, FactsOk, WorkflowOk;
    ActiveOwns(r, i, w);
    OneOfferChange(r.offers, u);
  }

  lemma AwardAllowed(o: Order, fs: seq<R.Offer>, w: R.Attempt, us: seq<OfferChange>)
    requires OffersOk(o.requester, fs) && w.offer.Some? && w.offer.value < |fs| && IsAwardable(fs[w.offer.value], w)
    requires us == Diff(fs, R.AwardOffers(fs, w.offer.value), |fs|)
    ensures OffersAllowed(o, fs, UserActor(w.caller), R.AssignAction(w), Some(w), us)
    ensures us != [] && ApplyOffers(fs, us) == Some(R.AwardOffers(fs, w.offer.value))
    ensures OwnedOffer(R.AssignAction(w), us) == w.offer
  {
    var target := R.AwardOffers(fs, w.offer.value);
    DiffReaches(fs, target);
    DiffIsDiff(fs, target, |fs|);
    var k := DiffNames(fs, target, |fs|, w.offer.value);
    OwnedByItsAttempt(o, fs, UserActor(w.caller), R.AssignAction(w), w, us, k);
  }

  lemma AwardEndsWell(r: R.Record, i: AttemptId, w: R.Attempt, c: Change, us: seq<OfferChange>)
    requires RecordOk(r) && i < |r.attempts| && !r.attempts[i].IsResolved() && w.offer == r.attempts[i].offer
    requires w.offer.Some? && w.offer.value < |r.offers| && IsAwardable(r.offers[w.offer.value], w)
    requires us == Diff(r.offers, R.AwardOffers(r.offers, w.offer.value), |r.offers|)
    requires c.action == R.AssignAction(w) && c.actor == UserActor(w.caller)
    requires c.expectedRevision == r.order.revision
    requires c.order.requester == r.order.requester && c.order.createdAt == r.order.createdAt
    requires NewChange(Some(r.order), c.order, c.actor, c.action) == Ok(c)
    ensures EndsWell(r, i, w, c, us)
    ensures ApplyOffers(r.offers, us) == Some(R.AwardOffers(r.offers, w.offer.value))
  {
    hide NewChange, R.OfferAssignment, HolderOk, CancellationsOk, FactsOk, WorkflowOk, Diff, OffersAllowed;
    ActiveOwns(r, i, w);
    AwardAllowed(r.order, r.offers, w, us);
  }

  // A saved attempt keeps its intent, and a revert only ever ends in rejection.
  ghost predicate StepsWell(r: R.Record, i: AttemptId, move: R.AssignmentMove, next: R.Attempt)
    requires i < |r.attempts|
  {
    var w := r.attempts[i];
    && !w.IsResolved()
    && next == w.(phase := next.phase, leaseUntil := next.leaseUntil, nextAttemptAt := next.nextAttemptAt,
                  rejection := next.rejection, updatedAt := next.updatedAt)
    && (w.phase == R.RevertPending ==> next.phase == R.RevertPending || next.phase == R.AssignmentRejected)
    && (move.Resolve? ==> MayResolve(r, i, next, move.offer))
    && (!move.Resolve? && !move.Succeed? ==> !next.IsResolved())
  }

  lemma MoveIsOneWay(r: R.Record, i: AttemptId, seen: R.Seen, now: Time, jitter: R.Jitter)
    requires i < |r.attempts| && !r.attempts[i].IsResolved()
    ensures var move := R.AssignmentMoveOf(r, i, seen, now);
            StepsWell(r, i, move, R.NextAttempt(r.attempts[i], move, r.order.expiresAt, now, jitter))
  {}

  // What a move makes of the rows, apart from the attempt itself.
  function Changed(r: R.Record, w: R.Attempt, move: R.AssignmentMove, now: Time): Result<R.Record, Error> {
    match move
    case Resolve(status) => R.ResolveOffer(r, w, status, now)
    case Succeed => R.AssignChange(r, w, now)
    case _ => R.KeepOrder(r, w)
  }

  // It depends only on the attempt's intent.
  lemma ChangedAlike(r: R.Record, i: AttemptId, move: R.AssignmentMove, next: R.Attempt, now: Time)
    requires i < |r.attempts| && StepsWell(r, i, move, next)
    ensures Changed(r, next, move, now) == Changed(r, r.attempts[i], move, now)
  {}

  lemma ApplyIsChange(r: R.Record, i: AttemptId, generation: int, phase: R.Phase, seen: R.Seen, now: Time,
                      jitter: R.Jitter)
    requires i < |r.attempts| && !r.attempts[i].IsResolved()
    requires r.attempts[i].generation == generation && r.attempts[i].phase == phase && r.attempts[i].leaseUntil > now
    ensures var move := R.AssignmentMoveOf(r, i, seen, now);
            var next := R.NextAttempt(r.attempts[i], move, r.order.expiresAt, now, jitter);
            R.ApplyAssignment(r, i, generation, phase, seen, now, jitter) ==
            match Changed(r, r.attempts[i], move, now)
            case Err(e) => Err(e)
            case Ok(r1) => Ok(r1.(attempts := r1.attempts[i := next]))
  {}

  lemma CurrentExists(r: R.Record)
    requires R.CurrentSuccessfulAssignment(r).Some?
    ensures R.CurrentSuccessfulAssignment(r).value < |r.attempts|
  {}

  lemma CloseReaches(fs: seq<R.Offer>)
    ensures ApplyOffers(fs, Diff(fs, R.CloseOffers(fs), |fs|)) == Some(R.CloseOffers(fs))
  {
    DiffReaches(fs, R.CloseOffers(fs));
  }

  lemma FenceAlike(r: R.Record, r': R.Record, now: Time)
    requires r'.attempts == r.attempts
    ensures R.FenceActive(r', now) == R.FenceActive(r, now)
  {}

  // What Apply asks of a change that the creation saga makes.
  lemma CreationChangeIsOwn(r: R.Record, move: R.CreationMove, now: Time)
    requires R.CreationChange(r, move, now).Some? && R.CreationChange(r, move, now).value.Ok?
    ensures var c := R.CreationChange(r, move, now).value.value;
            && NewChange(Some(r.order), c.order, c.actor, c.action) == Ok(c)
            && c.expectedRevision == r.order.revision && c.order.id == r.order.id
            && c.order.requester == r.order.requester && c.order.createdAt == r.order.createdAt
  {}

  lemma NextKeepsIntent(w: R.Workflow, move: R.CreationMove, order: Order, now: Time, jitter: R.Jitter)
    requires !w.IsResolved()
    ensures var next := R.NextWorkflow(w, move, order, now, jitter);
            && next.requester == w.requester && next.amount == w.amount && next.expiresAt == w.expiresAt
            && next.generation == w.generation
            && (next.IsResolved() <==> move.OpenOrder? || move.Reject?)
            && next.phase == (match move
                              case StayPending => w.phase
                              case StartAbort => R.AbortPending
                              case OpenOrder => R.CreationOpened
                              case Reject(_) => R.CreationRejected)
  {}

  // No result reopens a creation that is being aborted.
  lemma AbortIsOneWay(r: R.Record, seen: R.Seen, now: Time)
    requires r.workflow.phase == R.AbortPending
    ensures R.CreationMoveOf(r, seen, now).StayPending? || R.CreationMoveOf(r, seen, now).Reject?
  {}

  lemma UnchangedStays(move: R.CreationMove, r: R.Record, now: Time)
    requires R.CreationChange(r, move, now).None?
    ensures move.StayPending? || move.StartAbort?
  {}

  // What a withdrawal step that passes its guards makes of the rows.
  lemma WithdrawalApplied(r: R.Record, c: nat, generation: int, seen: R.Seen, now: Time, jitter: R.Jitter)
    requires c < |r.cancellations|
    requires var w := r.cancellations[c];
             && w.status == R.CancellationPending && w.generation == generation && now < w.leaseUntil
             && R.MatchesWithdrawal(r.order, c, w)
    ensures var w := r.cancellations[c];
            var done := seen.Saw? && R.ConfirmsWithdrawal(seen.view, w, r.order);
            var reopened := R.ReopenOrder(r.order, w, now);
            var change := NewChange(Some(r.order), reopened, UserActor(w.caller), Action.Withdraw);
            var cancellations := r.cancellations[c := R.NextCancellation(w, done, now, jitter)];
            R.ApplyCancellation(r, c, generation, seen, now, jitter) ==
            if !done then Ok(r.(cancellations := cancellations))
            else if change.Err? then Err(change.error)
            else Ok(R.Write(r, change.value).(cancellations := cancellations))
  {
    hide NewChange, R.MatchesWithdrawal, R.ConfirmsWithdrawal, R.RetryDelay;
  }

  class Store {
    var rows: map<OrderId, R.Record>
    var keys: R.Keys

    ghost predicate Valid()
      reads this
    {
      RowsOk(rows)
    }

    constructor ()
      ensures Valid() && rows == map[] && keys == map[]
    {
      rows, keys := map[], map[];
    }

    // Applies a change that the operation has just built, with no offer touched, and commits.
    method Finish(o: OrderId, tx: Tx, after: Order, actor: Actor, action: Action) returns (err: Option<Error>)
      requires o in rows && tx.rec == rows[o] && tx.locked == Some(rows[o].order) && tx.related && tx.IsClean()
      modifies this`rows, tx
      ensures match NewChange(Some(old(rows)[o].order), after, actor, action)
              case Ok(c) => err.None? && rows == old(rows)[o := R.Write(old(rows)[o], c)]
              case Err(e) => err == Some(e) && rows == old(rows)
    {
      hide NewChange;
      var change := NewChange(tx.locked, after, actor, action);
      if change.Err? {
        return Some(change.error);
      }
      ChangeIsOwn(tx.rec.order, after, actor, action);
      NoOffersChange(tx.rec.offers);
      var applied := tx.Apply(change.value, []);
      err := tx.Commit();
      rows := rows[o := tx.rec];
    }

    // Locks the order, then reads its relationships in a separate statement.
    method Begin(o: OrderId) returns (tx: Tx)
      requires o in rows
      ensures fresh(tx) && tx.rec == rows[o] && tx.keys == keys
      ensures tx.locked == Some(rows[o].order) && tx.related && tx.IsClean()
    {
      tx := new Tx(rows[o], keys);
      var order := tx.LockOrder();
      var offers := tx.Relationships();
    }

    // As Begin, behind the lock on the caller's retained keys.
    method BeginKeyed(o: OrderId, caller: UserId) returns (tx: Tx)
      requires o in rows
      ensures fresh(tx) && tx.rec == rows[o] && tx.keys == keys && tx.callers == {caller}
      ensures tx.locked == Some(rows[o].order) && tx.related && tx.IsClean()
    {
      tx := new Tx(rows[o], keys);
      tx.LockCaller(caller);
      var order := tx.LockOrder();
      var offers := tx.Relationships();
    }

    // Applies a change with its offers, which their attempt owns, and commits.
    method FinishAssigned(o: OrderId, tx: Tx, c: Change, us: seq<OfferChange>)
      requires o in rows && tx.CanApply(c, us) && tx.locked == Some(tx.rec.order) && us != []
      requires OffersAllowed(tx.rec.order, tx.rec.offers, c.actor, c.action, Owner(tx.rec, c.action, us), us)
      modifies this`rows, tx
      ensures rows == old(rows)[o := R.Write(old(tx.rec), c).(offers := ApplyOffers(old(tx.rec.offers), us).value)]
    {
      var applied := tx.ApplyAssigned(c, us);
      var err := tx.CommitAssignment();
      rows := rows[o := tx.rec];
    }

    // Creation

    method AdmitCreation(o: OrderId, requester: UserId, input: R.CreateInput, now: Time)
      returns (err: Option<Error>)
      requires Valid() && o !in rows
      modifies this`rows
      ensures Valid()
      ensures match R.AdmitCreation(o, requester, input, now)
              case Ok(r) => err.None? && rows == old(rows)[o := r]
              case Err(e) => err == Some(e) && rows == old(rows)
    {
      if !R.IsCanonical(input) || input.expiresAt <= now {
        return Some(Invalid);
      }
      var order := R.Draft(o, requester, input, now);
      var change := NewChange(None, order, UserActor(requester), Create);
      if change.Err? {
        return Some(change.error);
      }
      var w := R.Workflow(requester, input.reward, input.expiresAt, R.ReservePending, 0, 0, now, now, None, None, now);
      AdmitOk(o, requester, input, now);
      RowAdded(rows, o, R.AdmitCreation(o, requester, input, now).value);
      rows := rows[o := R.Record(order, w, [], [], [], R.RowsOf(order, UserActor(requester), change.value.facts))];
      err := None;
    }

    method ClaimCreation(o: OrderId, now: Time) returns (reply: Result<bool, Error>)
      requires Valid() && o in rows
      modifies this`rows
      ensures Valid()
      ensures match R.ClaimCreation(old(rows)[o], now)
              case Ok(c) => reply == Ok(c.claimed) && rows == old(rows)[o := c.record]
              case Err(e) => reply == Err(e) && rows == old(rows)
    {
      hide RowsOk, RecordOk, Follows, NewChange, Transition;
      RowIsOk(rows, o);
      var tx := Begin(o);
      var found := tx.LockCreation();
      var w := found.value;
      if w.IsResolved() || w.leaseUntil > now
         || (w.nextAttemptAt > now && (w.phase != R.ReservePending || w.expiresAt > now)) {
        assert rows[o := rows[o]] == rows;
        return Ok(false);
      }
      if tx.locked.value.status != PendingReservation {
        return Err(Conflict);
      }
      var expected := w.generation;
      if w.phase == R.ReservePending && w.expiresAt <= now {
        w := w.(phase := R.AbortPending);
      }
      w := w.(generation := w.generation + 1, attempts := w.attempts + 1, leaseUntil := now + R.LEASE,
              updatedAt := now);
      var saved := tx.SaveCreation(w, expected);
      var err := tx.Commit();
      ClaimCreationOk(rows[o], now);
      RowsKept(rows, o, tx.rec);
      rows := rows[o := tx.rec];
      reply := Ok(true);
    }

    // Saves the workflow together with the change of the order that resolves it, if it is resolved.
    method FinishCreation(o: OrderId, tx: Tx, next: R.Workflow, change: Option<Change>)
      requires o in rows && tx.rec == rows[o] && tx.locked == Some(rows[o].order) && tx.related
      requires !tx.applied && tx.failed.None? && tx.creation == Some(rows[o].workflow)
      requires var w := rows[o].workflow;
               && !w.IsResolved() && next.requester == w.requester && next.amount == w.amount
               && next.expiresAt == w.expiresAt && next.generation == w.generation
               && (w.phase == R.AbortPending ==> next.phase == R.AbortPending || next.phase == R.CreationRejected)
      requires change.None? ==> !next.IsResolved()
      requires change.Some? ==>
                 && change.value.expectedRevision == rows[o].order.revision
                 && change.value.order.requester == rows[o].order.requester
                 && change.value.order.createdAt == rows[o].order.createdAt
                 && NewChange(Some(rows[o].order), change.value.order, change.value.actor, change.value.action)
                    == Ok(change.value)
      modifies this`rows, tx
      ensures var r := old(rows)[o];
              var written := if change.Some? then R.Write(r, change.value) else r;
              rows == old(rows)[o := written.(workflow := next)]
    {
      hide NewChange;
      if change.Some? {
        NoOffersChange(tx.rec.offers);
        var applied := tx.Apply(change.value, []);
      }
      var saved := tx.SaveCreation(next, next.generation);
      var err := tx.Commit();
      rows := rows[o := tx.rec];
    }

    // Applies what a worker observed under the generation and phase it claimed.
    method ApplyCreation(o: OrderId, generation: int, phase: R.CreationPhase, seen: R.Seen, now: Time,
                         jitter: R.Jitter) returns (err: Option<Error>)
      requires Valid() && o in rows
      modifies this`rows
      ensures Valid()
      ensures match R.ApplyCreation(old(rows)[o], generation, phase, seen, now, jitter)
              case Ok(r) => err.None? && rows == old(rows)[o := r]
              case Err(e) => err == Some(e) && rows == old(rows)
    {
      hide RowsOk, RecordOk, Follows, NewChange, Transition, R.CreationMoveOf, R.CreationChange,
           R.NextWorkflow;
      RowIsOk(rows, o);
      var tx := Begin(o);
      var order := tx.locked.value;
      var found := tx.LockCreation();
      var w := found.value;
      if w.generation != generation || w.phase != phase || w.IsResolved() || w.leaseUntil <= now {
        assert rows[o := rows[o]] == rows;
        return None;
      }
      if order.status != PendingReservation {
        return Some(Conflict);
      }

      // Abort intent commits before any release; opening and rejecting commit with their change of the order.
      var move := R.CreationMoveOf(tx.rec, seen, now);
      var moving: Option<Change> := None;
      match R.CreationChange(tx.rec, move, now) {
        case Some(Err(e)) =>
          return Some(e);
        case Some(Ok(change)) =>
          CreationChangeIsOwn(tx.rec, move, now);
          moving := Some(change);
          order := change.order;
        case None =>
          UnchangedStays(move, tx.rec, now);
      }
      if w.phase == R.AbortPending {
        AbortIsOneWay(rows[o], seen, now);
      }
      NextKeepsIntent(w, move, order, now, jitter);
      var next := Reschedule(w, move, order, now, jitter);
      FinishCreation(o, tx, next, moving);
      err := None;
      ApplyCreationOk(old(rows)[o], generation, phase, seen, now, jitter);
      RowsKept(old(rows), o, rows[o]);
    }

    // The workflow as the step leaves it, with its next try.
    method Reschedule(w: R.Workflow, move: R.CreationMove, order: Order, now: Time, jitter: R.Jitter)
      returns (next: R.Workflow)
      ensures next == R.NextWorkflow(w, move, order, now, jitter)
    {
      next := w;
      match move {
        case StartAbort =>
          next := next.(phase := R.AbortPending);
        case OpenOrder =>
          next := next.(phase := R.CreationOpened, result := Some(order));
        case Reject(why) =>
          next := next.(phase := R.CreationRejected, rejection := Some(why));
        case StayPending =>
      }
      next := next.(leaseUntil := now, updatedAt := now, nextAttemptAt := now + R.RetryDelay(w.attempts, jitter));
      if next.phase == R.ReservePending && w.expiresAt < next.nextAttemptAt {
        next := next.(nextAttemptAt := w.expiresAt);
      }
      if move.StartAbort? {
        next := next.(nextAttemptAt := now);
      }
    }

    // Local lifecycle actions

    method Advance(o: OrderId, caller: R.Caller, action: Action, clock: Time) returns (err: Option<Error>)
      requires Valid() && o in rows && (action == Action.Pickup || action == Action.ConfirmReceipt)
      modifies this`rows
      ensures Valid()
      ensures match R.Advance(old(rows)[o], caller, action, clock)
              case Ok(r) => err.None? && rows == old(rows)[o := r]
              case Err(e) => err == Some(e) && rows == old(rows)
    {
      hide RowsOk, RecordOk, Follows, NewChange, Transition;
      RowIsOk(rows, o);
      var tx := Begin(o);
      var current := tx.locked.value;
      var now := Micros(clock);
      if !R.IsVisible(current, caller, now) {
        return Some(NotFound);
      }
      var actor := UserActor(caller.id);
      match Transition(current, action, actor) {
        case Deny(e) =>
          return Some(e);
        case Repeat(_) =>
          assert rows[o := rows[o]] == rows;
          return None;
        case Go(next) =>
          var after := current.(status := next, revision := current.revision + 1, updatedAt := now);
          if action == Action.Pickup {
            after := after.(pickedUpAt := Some(now));
          } else {
            after := after.(completedAt := Some(now));
          }
          err := Finish(o, tx, after, actor, action);
          if err.None? {
            AdvanceOk(old(rows)[o], caller, action, clock);
            RowsKept(old(rows), o, rows[o]);
          }
      }
    }

    // The offers that closing an order voids.
    method VoidOffers(offers: seq<R.Offer>) returns (us: seq<OfferChange>)
      ensures us == Diff(offers, R.CloseOffers(offers), |offers|)
    {
      us := [];
      var k := 0;
      while k < |offers|
        invariant 0 <= k <= |offers|
        invariant us == Diff(offers, R.CloseOffers(offers), k)
      {
        var f := offers[k];
        if f.status == R.OfferOpen || f.status == R.OfferAccepting {
          us := us + [OfferChange(k, f.(status := R.OfferVoid), Some(f.status))];
        }
        k := k + 1;
      }
    }

    method Expire(o: OrderId, now: Time) returns (err: Option<Error>)
      requires Valid() && o in rows
      modifies this`rows
      ensures Valid()
      ensures match R.ExpireOrder(old(rows)[o], now)
              case Ok(r) => err.None? && rows == old(rows)[o := r]
              case Err(e) => err == Some(e) && rows == old(rows)
    {
      hide RowsOk, RecordOk, Follows, NewChange, Transition;
      RowIsOk(rows, o);
      var tx := Begin(o);
      var before := tx.locked.value;
      if before.status != AwaitingCourier || before.expiresAt > now {
        assert rows[o := rows[o]] == rows;
        return None;
      }
      var after := before.(status := Expired, revision := before.revision + 1, updatedAt := now,
                           closedAt := Some(now), closeReason := Some("request_expired"));
      var change := NewChange(Some(before), after, SYSTEM, Action.Expire);
      if change.Err? {
        return Some(change.error);
      }
      var us := VoidOffers(tx.rec.offers);
      CloseReaches(tx.rec.offers);
      ChangeIsOwn(before, after, SYSTEM, Action.Expire);
      var applied := tx.Apply(change.value, us);
      err := tx.Commit();
      ExpireOk(rows[o], now);
      RowsKept(rows, o, tx.rec);
      rows := rows[o := tx.rec];
    }

    method Timeout(o: OrderId, pending: bool, now: Time) returns (err: Option<Error>)
      requires Valid() && o in rows
      modifies this`rows
      ensures Valid()
      ensures match R.TimeoutOrder(old(rows)[o], pending, now)
              case Ok(r) => err.None? && rows == old(rows)[o := r]
              case Err(e) => err == Some(e) && rows == old(rows)
    {
      hide RowsOk, RecordOk, Follows, NewChange, Transition;
      RowIsOk(rows, o);
      var tx := Begin(o);
      var before := tx.locked.value;
      if before.status != Delivering {
        assert rows[o := rows[o]] == rows;
        return None;
      }
      var deadline := R.Deadline(before);
      if deadline.None? {
        return Some(Precondition);
      }
      if now < deadline.value || pending {
        assert rows[o := rows[o]] == rows;
        return None;
      }
      var after := before.(status := Failed, revision := before.revision + 1, updatedAt := now,
                           closedAt := Some(now), closeReason := Some("delivery_timed_out"));
      err := Finish(o, tx, after, SYSTEM, Action.Timeout);
      if err.None? {
        TimeoutOk(old(rows)[o], pending, now);
        RowsKept(old(rows), o, rows[o]);
      }
    }

    method RecordLocation(o: OrderId, caller: UserId, location: OrderText, clock: Time) returns (err: Option<Error>)
      requires Valid() && o in rows
      modifies this`rows
      ensures Valid()
      ensures match R.RecordLocation(old(rows)[o], caller, location, clock)
              case Ok(r) => err.None? && rows == old(rows)[o := r]
              case Err(e) => err == Some(e) && rows == old(rows)
    {
      hide RowsOk, RecordOk, Follows, NewChange;
      RowIsOk(rows, o);
      if !(1 <= |location| <= 500) {
        return Some(Invalid);
      }
      var tx := Begin(o);
      var current := tx.locked.value;
      if !current.HasParticipant(Some(caller)) {
        return Some(NotFound);
      }
      if !current.IsAssignedTo(Some(caller)) {
        return Some(Forbidden);
      }
      if current.pickedUpAt.None? || (current.status != Cancelled && current.status != Failed) {
        return Some(Precondition);
      }
      if current.itemLocation == Some(location) {
        assert rows[o := rows[o]] == rows;
        return None;
      }
      var after := current.(itemLocation := Some(location), revision := current.revision + 1,
                            updatedAt := Micros(clock));
      err := Finish(o, tx, after, UserActor(caller), Action.RecordItemLocation);
      if err.None? {
        LocationOk(old(rows)[o], caller, location, clock);
        RowsKept(old(rows), o, rows[o]);
      }
    }

    // Admission of attempts

    // The order takes couriers, and no attempt of it is unresolved.
    method CanPropose(tx: Tx, now: Time) returns (err: Option<Error>)
      requires tx.IsReady() && tx.locked.value == tx.rec.order
      modifies tx`baselines
      ensures err == R.CanPropose(tx.rec, now)
    {
      if !R.IsOpenAt(tx.locked.value, now) {
        return Some(Precondition);
      }
      var active := tx.ActiveAssignment();
      err := if active.Some? then Some(Conflict) else None;
    }

    method MakeOffer(o: OrderId, caller: R.Caller, credits: int, now: Time) returns (err: Option<Error>)
      requires Valid() && o in rows
      modifies this`rows
      ensures Valid()
      ensures match R.MakeOffer(old(rows)[o], caller, credits, now)
              case Ok(r) => err.None? && rows == old(rows)[o := r]
              case Err(e) => err == Some(e) && rows == old(rows)
    {
      hide RowsOk, RecordOk, Follows, NewChange, Transition;
      RowIsOk(rows, o);
      RowBasics(rows[o]);
      if caller.suspended {
        return Some(Forbidden);
      }
      if credits <= 0 {
        return Some(Invalid);
      }
      var tx := Begin(o);
      var order := tx.locked.value;
      if order.IsRequestedBy(Some(caller.id)) {
        return Some(Forbidden);
      }
      var refusal := CanPropose(tx, now);
      if refusal.Some? {
        return refusal;
      }
      if credits <= order.reward {
        return Some(Invalid);
      }
      var change := R.Metadata(order, caller.id, ProposeOffer, now);
      if change.Err? {
        return Some(change.error);
      }
      var us := VoidOwn(tx.rec.offers, caller.id);
      us := us + [OfferChange(|tx.rec.offers|, R.Offer(caller.id, credits, R.OfferOpen), None)];
      MetadataIsOwn(order, caller.id, ProposeOffer, now);
      ProposalAllowed(tx.rec, caller.id, credits);
      ProposalApplies(tx.rec.offers, caller.id, credits);
      FinishAssigned(o, tx, change.value, us);
      err := None;
      MakeOfferOk(old(rows)[o], caller, credits, now);
      RowsKept(old(rows), o, rows[o]);
    }

    // The courier's own open proposal, which a new one replaces.
    method VoidOwn(offers: seq<R.Offer>, courier: UserId) returns (us: seq<OfferChange>)
      ensures us == Diff(offers, R.ReplaceOffers(offers, courier), |offers|)
    {
      us := [];
      var k := 0;
      while k < |offers|
        invariant 0 <= k <= |offers|
        invariant us == Diff(offers, R.ReplaceOffers(offers, courier), k)
      {
        var f := offers[k];
        if f.courier == courier && f.status == R.OfferOpen {
          us := us + [OfferChange(k, f.(status := R.OfferVoid), Some(f.status))];
        }
        k := k + 1;
      }
    }

    // Stores a new attempt with the change that makes its offer the one being accepted.
    method BeginAttempt(o: OrderId, tx: Tx, w: R.Attempt, c: Change, u: OfferChange)
      requires o in rows && tx.rec == rows[o] && tx.locked == Some(rows[o].order) && tx.related
      requires !tx.applied && tx.failed.None?
      requires BeginsWell(rows[o], w, c, u) && (w.how.AcceptOrderMethod? ==> w.caller in tx.callers)
      modifies this`rows, tx
      ensures rows == old(rows)[o := Begun(old(rows)[o], w, c, u)]
    {
      hide NewChange, OffersAllowed, Owner, ApplyOffers;
      BegunOwns(tx.rec, w, c, u);
      OneOfferChange(tx.rec.offers, u);
      var inserted := tx.InsertAssignment(w);
      FinishAssigned(o, tx, c, [u]);
    }

    method ReplayKey(o: OrderId, tx: Tx, scope: R.KeyScope) returns (reply: Result<AttemptId, Error>)
      requires o in rows && tx.rec == rows[o] && tx.IsReady() && scope in keys
      modifies tx
      ensures match R.ReplayAcceptance(rows[o], keys, scope)
              case Ok(a) => reply == Ok(a.attempt) && a.record == rows[o] && a.keys == keys
              case Err(e) => reply == Err(e)
    {
      var kept := keys[scope];
      if kept.order != tx.rec.order.id {
        return Err(AlreadyExists);
      }
      var found := tx.FindAssignment(kept.attempt);
      if found.Err? || found.value.caller != scope.caller || found.value.how != R.AcceptOrderMethod(scope.key) {
        return Err(Integrity);
      }
      reply := Ok(kept.attempt);
    }

    // Stores a rejected attempt that owns no offer.
    method RetainContention(o: OrderId, tx: Tx, w: R.Attempt)
      requires o in rows && tx.rec == rows[o] && tx.locked == Some(rows[o].order) && tx.related
      requires !tx.applied && tx.failed.None? && tx.written == map[]
      requires w.generation == 0 && w.attempts == 0 && w.phase == R.AssignmentRejected && w.offer.None?
      requires w.how.AcceptOrderMethod? && w.caller == w.courier && w.caller in tx.callers
      requires w.courier != rows[o].order.requester && w.amount > 0 && w.original > 0
      requires w.original == rows[o].order.reserved
      modifies this`rows, tx
      ensures rows == old(rows)[o := old(rows)[o].(attempts := old(rows)[o].attempts + [w])]
    {
      var inserted := tx.InsertAssignment(w);
      var err := tx.CommitAssignment();
      rows := rows[o := tx.rec];
    }

    method AcceptOrder(o: OrderId, caller: R.Caller, key: R.Key, now: Time)
      returns (reply: Result<AttemptId, Error>)
      requires Valid() && o in rows
      modifies this
      ensures Valid()
      ensures match R.AcceptOrder(old(rows)[o], old(keys), caller, key, now)
              case Ok(a) => reply == Ok(a.attempt) && rows == old(rows)[o := a.record] && keys == a.keys
              case Err(e) => reply == Err(e) && rows == old(rows) && keys == old(keys)
    {
      hide RowsOk, RecordOk, Follows, NewChange, Transition, R.Metadata, R.ReplayAcceptance, BeginsWell,
           R.ActiveAssignment, OrderShape;
      RowIsOk(rows, o);
      RowBasics(rows[o]);
      if caller.suspended {
        return Err(Forbidden);
      }
      var tx := BeginKeyed(o, caller.id);
      var order := tx.locked.value;
      if order.IsRequestedBy(Some(caller.id)) {
        return Err(Forbidden);
      }
      var scope := R.KeyScope(caller.id, key);
      if scope in keys {
        reply := ReplayKey(o, tx, scope);
        assert rows[o := rows[o]] == rows;
        return;
      }
      // Retained keys are resolved before today's admission.
      if !R.IsOpenAt(order, now) || order.reserved <= 0 {
        return Err(NotFound);
      }
      var i := |tx.rec.attempts|;
      var active := tx.ActiveAssignment();
      if active.Some? {
        if R.HasRejectedAcceptance(tx.rec, caller.id) {
          return Err(Precondition);
        }
        // Rolling back here would let an old retry become a new assignment later.
        RetainContention(o, tx, R.ContentionAttempt(order, caller.id, key, now));
      } else {
        var offer := |tx.rec.offers|;
        var f := R.Offer(caller.id, order.reward, R.OfferAccepting);
        var change := R.Metadata(order, caller.id, BeginAssignment, now);
        if change.Err? {
          return Err(change.error);
        }
        MetadataIsOwn(order, caller.id, BeginAssignment, now);
        var w := R.NewAttempt(order, offer, f, caller.id, R.AcceptOrderMethod(key), now);
        NewOfferBegins(tx.rec, caller.id, w, change.value);
        BeginAttempt(o, tx, w, change.value, OfferChange(offer, f, None));
      }
      AcceptOrderOk(old(rows)[o], keys, caller, key, now);
      RowsKept(old(rows), o, rows[o]);
      keys := keys[scope := R.Retained(order.id, i)];
      reply := Ok(i);
    }

    // The attempt that already answers for this offer. Only a lack of credits lets the requester try again.
    method LiveAttempt(tx: Tx, offer: nat) returns (i: Option<AttemptId>)
      requires tx.IsReady()
      modifies tx`baselines
      ensures var previous := R.OfferAssignment(tx.rec, offer);
              if previous.Some?
                 && (tx.rec.attempts[previous.value].phase != R.AssignmentRejected
                     || tx.rec.attempts[previous.value].rejection != R.InsufficientCredits)
              then i == previous else i.None?
    {
      i := R.OfferAssignment(tx.rec, offer);
      if i.Some? {
        var found := tx.FindAssignment(i.value);
        if found.value.phase == R.AssignmentRejected && found.value.rejection == R.InsufficientCredits {
          i := None;
        }
      }
    }

    method AcceptOffer(o: OrderId, caller: R.Caller, offer: nat, now: Time) returns (reply: Result<AttemptId, Error>)
      requires Valid() && o in rows
      modifies this`rows
      ensures Valid()
      ensures match R.AcceptOffer(old(rows)[o], caller, offer, now)
              case Ok(a) => reply == Ok(a.operation) && rows == old(rows)[o := a.record]
              case Err(e) => reply == Err(e) && rows == old(rows)
    {
      hide RowsOk, RecordOk, Follows, NewChange, Transition, R.Metadata, BeginsWell, R.ActiveAssignment,
           R.OfferAssignment, OrderShape, OffersOk;
      RowIsOk(rows, o);
      RowBasics(rows[o]);
      if caller.suspended {
        return Err(Forbidden);
      }
      if offer >= |rows[o].offers| {
        return Err(NotFound);
      }
      var tx := Begin(o);
      var order := tx.locked.value;
      if !order.IsRequestedBy(Some(caller.id)) {
        return Err(NotFound);
      }
      var previous := LiveAttempt(tx, offer);
      if previous.Some? {
        assert rows[o := rows[o]] == rows;
        return Ok(previous.value);
      }
      var refusal := CanPropose(tx, now);
      if refusal.Some? {
        return Err(refusal.value);
      }
      var f := tx.rec.offers[offer];
      if f.status != R.OfferOpen || f.courier == order.requester || f.credits <= order.reward {
        return Err(Precondition);
      }
      var change := R.Metadata(order, caller.id, BeginAssignment, now);
      if change.Err? {
        return Err(change.error);
      }
      MetadataIsOwn(order, caller.id, BeginAssignment, now);
      var i := |tx.rec.attempts|;
      var w := R.NewAttempt(order, offer, f, caller.id, R.AcceptOfferMethod, now);
      StoredOfferBegins(tx.rec, caller.id, offer, w, change.value);
      BeginAttempt(o, tx, w, change.value,
                   OfferChange(offer, f.(status := R.OfferAccepting), Some(R.OfferOpen)));
      AcceptOfferOk(old(rows)[o], caller, offer, now);
      RowsKept(old(rows), o, rows[o]);
      reply := Ok(i);
    }

    // The assignment saga

    // Stores the next generation of an attempt that stays unresolved.
    method SaveClaim(o: OrderId, tx: Tx, i: AttemptId, w: R.Attempt, expected: int)
      requires o in rows && tx.rec == rows[o] && tx.MaySaveAssignment(i, w, expected)
      requires !tx.applied && tx.failed.None? && tx.written == map[] && !w.IsResolved() && w.generation != 0
      modifies this`rows, tx
      ensures i < |old(rows)[o].attempts|
      ensures rows == old(rows)[o := old(rows)[o].(attempts := old(rows)[o].attempts[i := w])]
    {
      var saved := tx.SaveAssignment(i, w, expected);
      var err := tx.CommitAssignment();
      rows := rows[o := tx.rec];
    }

    method ClaimAssignment(o: OrderId, i: AttemptId, now: Time) returns (reply: Result<bool, Error>)
      requires Valid() && o in rows
      modifies this`rows
      ensures Valid()
      ensures match R.ClaimAssignment(old(rows)[o], i, now)
              case Ok(c) => reply == Ok(c.claimed) && rows == old(rows)[o := c.record]
              case Err(e) => reply == Err(e) && rows == old(rows)
    {
      hide RowsOk, RecordOk, Follows, R.ActiveAssignment;
      RowIsOk(rows, o);
      var tx := Begin(o);
      var order := tx.locked.value;
      var found := tx.FindAssignment(i);
      if found.Err? {
        return Err(found.error);
      }
      var w := found.value;
      if w.IsResolved() || w.leaseUntil > now
         || (w.nextAttemptAt > now && (w.phase != R.AdjustmentPending || R.IsOpenAt(order, now))) {
        assert rows[o := rows[o]] == rows;
        return Ok(false);
      }
      var active := tx.ActiveAssignment();
      if active != Some(i) {
        return Err(Conflict);
      }
      if !R.IsOpenAt(order, now) {
        w := w.(phase := R.RevertPending, rejection := R.OrderUnavailable);
      }
      var expected := w.generation;
      w := w.(generation := w.generation + 1, attempts := w.attempts + 1, leaseUntil := now + R.LEASE,
              updatedAt := now);
      AttemptGeneration(rows[o], i);
      SaveClaim(o, tx, i, w, expected);
      ClaimAssignmentOk(old(rows)[o], i, now);
      RowsKept(old(rows), o, rows[o]);
      reply := Ok(true);
    }

    // The attempt as the step leaves it, with its next try.
    method RescheduleAttempt(w: R.Attempt, move: R.AssignmentMove, expiresAt: Time, now: Time, jitter: R.Jitter)
      returns (next: R.Attempt)
      ensures next == R.NextAttempt(w, move, expiresAt, now, jitter)
    {
      next := w;
      match move {
        case Fence(why) =>
          next := next.(phase := R.RevertPending, rejection := why);
        case Resolve(_) =>
          next := next.(phase := R.AssignmentRejected);
        case Succeed =>
          next := next.(phase := R.AssignmentSucceeded);
        case Wait =>
      }
      next := next.(leaseUntil := now, updatedAt := now, nextAttemptAt := now + R.RetryDelay(w.attempts, jitter));
      if next.phase == R.AdjustmentPending && expiresAt < next.nextAttemptAt {
        next := next.(nextAttemptAt := expiresAt);
      }
      if move.Fence? {
        next := next.(nextAttemptAt := now);
      }
    }

    // The changes that accept the attempt's offer and void the other open ones.
    method Award(offers: seq<R.Offer>, w: R.Attempt) returns (us: Result<seq<OfferChange>, Error>)
      ensures us == if w.offer.None? || w.offer.value >= |offers| then Err(Integrity)
                    else if !IsAwardable(offers[w.offer.value], w) then Err(Conflict)
                    else Ok(Diff(offers, R.AwardOffers(offers, w.offer.value), |offers|))
    {
      var found := false;
      var changes: seq<OfferChange> := [];
      var k := 0;
      while k < |offers|
        invariant 0 <= k <= |offers|
        invariant found <==> w.offer.Some? && w.offer.value < k
        invariant found ==> IsAwardable(offers[w.offer.value], w)
        invariant w.offer.Some? && w.offer.value < |offers| ==>
                    changes == Diff(offers, R.AwardOffers(offers, w.offer.value), k)
      {
        var f := offers[k];
        if w.offer == Some(k) {
          if f.status != R.OfferAccepting || f.courier != w.courier || f.credits != w.amount {
            return Err(Conflict);
          }
          changes := changes + [OfferChange(k, f.(status := R.OfferAccepted), Some(R.OfferAccepting))];
          found := true;
        } else if f.status == R.OfferOpen {
          changes := changes + [OfferChange(k, f.(status := R.OfferVoid), Some(R.OfferOpen))];
        }
        k := k + 1;
      }
      us := if found then Ok(changes) else Err(Integrity);
    }

    // Saves the attempt and applies the change of the order and offers that it decides, in one commit.
    method FinishAttempt(o: OrderId, tx: Tx, i: AttemptId, w: R.Attempt, c: Change, us: seq<OfferChange>)
      requires o in rows && tx.rec == rows[o] && tx.locked == Some(rows[o].order) && tx.related
      requires !tx.applied && tx.failed.None? && tx.MaySaveAssignment(i, w, w.generation)
      requires i < |rows[o].attempts| && EndsWell(rows[o], i, w, c, us)
      modifies this`rows, tx
      ensures rows == old(rows)[o := Ended(old(rows)[o], i, w, c, us)]
    {
      var saved := tx.SaveAssignment(i, w, w.generation);
      FinishAssigned(o, tx, c, us);
    }

    method ResolveAttempt(o: OrderId, tx: Tx, i: AttemptId, w: R.Attempt, status: R.OfferStatus, now: Time)
      returns (err: Option<Error>)
      requires o in rows && tx.rec == rows[o] && tx.locked == Some(rows[o].order) && tx.related
      requires !tx.applied && tx.failed.None? && tx.MaySaveAssignment(i, w, w.generation)
      requires RecordOk(rows[o]) && i < |rows[o].attempts| && MayResolve(rows[o], i, w, status)
      modifies this`rows, tx
      ensures match R.ResolveOffer(old(rows)[o], w, status, now)
              case Err(e) => err == Some(e) && rows == old(rows)
              case Ok(r) => err.None? && rows == old(rows)[o := r.(attempts := r.attempts[i := w])]
    {
      hide RecordOk, NewChange, R.Metadata, EndsWell, MayResolve;
      var change := R.Metadata(tx.rec.order, w.caller, ResolveAssignment, now);
      if change.Err? {
        return Some(change.error);
      }
      if w.offer.None? || w.offer.value >= |tx.rec.offers| {
        return Some(Integrity);
      }
      var f := tx.rec.offers[w.offer.value];
      if f.status != R.OfferAccepting && f.status != R.OfferVoid {
        return Some(Conflict);
      }
      var before := f.status;
      f := f.(status := status);
      if before == R.OfferVoid {
        f := f.(status := R.OfferVoid);
      }
      MetadataIsOwn(tx.rec.order, w.caller, ResolveAssignment, now);
      var u := OfferChange(w.offer.value, f, Some(before));
      ResolveEndsWell(tx.rec, i, w, status, change.value, u);
      OneOfferChange(tx.rec.offers, u);
      FinishAttempt(o, tx, i, w, change.value, [u]);
      err := None;
    }

    method AssignAttempt(o: OrderId, tx: Tx, i: AttemptId, w: R.Attempt, now: Time) returns (err: Option<Error>)
      requires o in rows && tx.rec == rows[o] && tx.locked == Some(rows[o].order) && tx.related
      requires !tx.applied && tx.failed.None? && tx.MaySaveAssignment(i, w, w.generation)
      requires RecordOk(rows[o]) && i < |rows[o].attempts| && !rows[o].attempts[i].IsResolved()
      requires w.offer == rows[o].attempts[i].offer
      modifies this`rows, tx
      ensures match R.AssignChange(old(rows)[o], w, now)
              case Err(e) => err == Some(e) && rows == old(rows)
              case Ok(r) => err.None? && rows == old(rows)[o := r.(attempts := r.attempts[i := w])]
    {
      hide RecordOk, NewChange, Transition, EndsWell, R.AwardOffers, Diff;
      var order := tx.rec.order;
      if w.courier == order.requester {
        return Some(Forbidden);
      }
      var actor := UserActor(w.caller);
      match Transition(order, R.AssignAction(w), actor) {
        case Deny(e) =>
          return Some(e);
        case Repeat(_) =>
          return Some(Conflict);
        case Go(next) =>
          var after := R.AssignOrder(order, w, now).(status := next);
          var change := NewChange(Some(order), after, actor, R.AssignAction(w));
          if change.Err? {
            return Some(change.error);
          }
          var us := Award(tx.rec.offers, w);
          if us.Err? {
            return Some(us.error);
          }
          ChangeIsOwn(order, after, actor, R.AssignAction(w));
          AwardEndsWell(tx.rec, i, w, change.value, us.value);
          FinishAttempt(o, tx, i, w, change.value, us.value);
          err := None;
      }
    }

    // Carries a decided move out in one commit.
    method Decide(o: OrderId, tx: Tx, i: AttemptId, move: R.AssignmentMove, next: R.Attempt, now: Time)
      returns (err: Option<Error>)
      requires o in rows && tx.rec == rows[o] && tx.locked == Some(rows[o].order) && tx.related
      requires !tx.applied && tx.failed.None? && tx.written == map[]
      requires RecordOk(rows[o]) && i < |rows[o].attempts| && StepsWell(rows[o], i, move, next)
      requires i in tx.baselines && tx.baselines[i] == rows[o].attempts[i]
      modifies this`rows, tx
      ensures match Changed(old(rows)[o], next, move, now)
              case Err(e) => err == Some(e) && rows == old(rows)
              case Ok(r) => err.None? && rows == old(rows)[o := r.(attempts := r.attempts[i := next])]
    {
      hide RecordOk, R.ResolveOffer, R.AssignChange, MayResolve;
      match move {
        case Resolve(status) =>
          err := ResolveAttempt(o, tx, i, next, status, now);
        case Succeed =>
          err := AssignAttempt(o, tx, i, next, now);
        case _ =>
          var saved := tx.SaveAssignment(i, next, next.generation);
          assert i in tx.written && tx.written[i] == next;
          err := tx.CommitAssignment();
          if err.None? {
            rows := rows[o := tx.rec];
          }
      }
    }

    // Applies what a worker observed under the generation and phase it claimed.
    method ApplyAssignment(o: OrderId, i: AttemptId, generation: int, phase: R.Phase, seen: R.Seen, now: Time,
                           jitter: R.Jitter) returns (err: Option<Error>)
      requires Valid() && o in rows
      modifies this`rows
      ensures Valid()
      ensures match R.ApplyAssignment(old(rows)[o], i, generation, phase, seen, now, jitter)
              case Ok(r) => err.None? && rows == old(rows)[o := r]
              case Err(e) => err == Some(e) && rows == old(rows)
    {
      hide RowsOk, RecordOk, Follows;
      RowIsOk(rows, o);
      var tx := Begin(o);
      var found := tx.FindAssignment(i);
      if found.Err? {
        return Some(found.error);
      }
      var w := found.value;
      if w.IsResolved() || w.generation != generation || w.phase != phase || w.leaseUntil <= now {
        assert rows[o := rows[o]] == rows;
        return None;
      }
      hide R.AssignmentMoveOf, R.NextAttempt, Changed, StepsWell, R.ApplyAssignment;
      var move := R.AssignmentMoveOf(tx.rec, i, seen, now);
      var next := RescheduleAttempt(w, move, tx.rec.order.expiresAt, now, jitter);
      MoveIsOneWay(rows[o], i, seen, now, jitter);
      ChangedAlike(rows[o], i, move, next, now);
      ApplyIsChange(rows[o], i, generation, phase, seen, now, jitter);
      err := Decide(o, tx, i, move, next, now);
      if err.None? {
        ApplyAssignmentOk(old(rows)[o], i, generation, phase, seen, now, jitter);
        RowsKept(old(rows), o, rows[o]);
      }
    }

    // Cancellation and withdrawal

    method ClaimCancellation(o: OrderId, c: nat, now: Time) returns (reply: Result<bool, Error>)
      requires Valid() && o in rows
      modifies this`rows
      ensures Valid()
      ensures match R.ClaimCancellation(old(rows)[o], c, now)
              case Ok(claim) => reply == Ok(claim.claimed) && rows == old(rows)[o := claim.record]
              case Err(e) => reply == Err(e) && rows == old(rows)
    {
      hide RowsOk, RecordOk, Follows, R.MatchesWithdrawal;
      RowIsOk(rows, o);
      var tx := Begin(o);
      var found := tx.FindCancellation(c);
      if found.Err? {
        return Err(found.error);
      }
      var w := found.value;
      if w.status != R.CancellationPending || w.leaseUntil > now || w.nextAttemptAt > now {
        assert rows[o := rows[o]] == rows;
        return Ok(false);
      }
      if !R.MatchesWithdrawal(tx.rec.order, c, w) {
        return Err(Conflict);
      }
      var expected := w.generation;
      w := w.(generation := w.generation + 1, attempts := w.attempts + 1, leaseUntil := now + R.LEASE,
              updatedAt := now);
      var saved := tx.SaveCancellation(c, w, expected);
      var err := tx.CommitCancellation();
      ClaimCancellationOk(rows[o], c, now);
      RowsKept(rows, o, tx.rec);
      rows := rows[o := tx.rec];
      reply := Ok(true);
    }

    // Saves a withdrawal together with the change of the order that ends it, if it has ended.
    method FinishWithdrawal(o: OrderId, tx: Tx, c: nat, next: R.Cancellation, change: Option<Change>)
      requires o in rows && tx.rec == rows[o] && tx.locked == Some(rows[o].order) && tx.related
      requires !tx.applied && !tx.changed && tx.failed.None? && tx.written == map[]
      requires tx.MaySaveCancellation(c, next, next.generation)
      requires change.Some? <==> next.status != R.CancellationPending
      requires change.Some? ==>
                 && change.value.expectedRevision == rows[o].order.revision
                 && change.value.order.requester == rows[o].order.requester
                 && change.value.order.createdAt == rows[o].order.createdAt
                 && NewChange(Some(rows[o].order), change.value.order, change.value.actor, change.value.action)
                    == Ok(change.value)
      modifies this`rows, tx
      ensures var r := old(rows)[o];
              var written := if change.Some? then R.Write(r, change.value) else r;
              rows == old(rows)[o := written.(cancellations := r.cancellations[c := next])]
    {
      hide NewChange;
      var saved := tx.SaveCancellation(c, next, next.generation);
      if change.Some? {
        NoOffersChange(tx.rec.offers);
        var applied := tx.Apply(change.value, []);
      }
      var err := tx.CommitCancellation();
      rows := rows[o := tx.rec];
    }

    method ApplyCancellation(o: OrderId, c: nat, generation: int, seen: R.Seen, now: Time, jitter: R.Jitter)
      returns (err: Option<Error>)
      requires Valid() && o in rows
      modifies this`rows
      ensures Valid()
      ensures match R.ApplyCancellation(old(rows)[o], c, generation, seen, now, jitter)
              case Ok(r) => err.None? && rows == old(rows)[o := r]
              case Err(e) => err == Some(e) && rows == old(rows)
    {
      hide RowsOk, RecordOk, Follows, R.MatchesWithdrawal, R.ConfirmsWithdrawal, R.RetryDelay, NewChange, FactsOf;
      RowIsOk(rows, o);
      var tx := Begin(o);
      var order := tx.locked.value;
      var found := tx.FindCancellation(c);
      if found.Err? {
        return Some(found.error);
      }
      var w := found.value;
      if w.status != R.CancellationPending || w.generation != generation || w.leaseUntil <= now {
        assert rows[o := rows[o]] == rows;
        return None;
      }
      if !R.MatchesWithdrawal(order, c, w) {
        return Some(Conflict);
      }
      WithdrawalApplied(rows[o], c, generation, seen, now, jitter);
      hide R.ApplyCancellation;
      var done := seen.Saw? && R.ConfirmsWithdrawal(seen.view, w, order);
      var next := w.(leaseUntil := now, updatedAt := now, nextAttemptAt := now + R.RetryDelay(w.attempts, jitter));
      var reopening: Option<Change> := None;
      if done {
        next := next.(status := R.CancellationSucceeded);
        var actor := UserActor(w.caller);
        var change := NewChange(Some(order), R.ReopenOrder(order, w, now), actor, Action.Withdraw);
        if change.Err? {
          return Some(change.error);
        }
        ChangeIsOwn(order, R.ReopenOrder(order, w, now), actor, Action.Withdraw);
        reopening := Some(change.value);
      }
      FinishWithdrawal(o, tx, c, next, reopening);
      err := None;
      ApplyCancellationOk(old(rows)[o], c, generation, seen, now, jitter);
      RowsKept(old(rows), o, rows[o]);
    }

    // Records the assignment that the courier withdraws from, and blocks pickup until Credit has taken it back.
    method BeginWithdraw(o: OrderId, tx: Tx, caller: UserId, reason: OrderText, now: Time)
      returns (reply: Result<nat, Error>)
      requires o in rows && tx.rec == rows[o] && tx.locked == Some(rows[o].order) && tx.related && tx.IsClean()
      requires rows[o].order.HasParticipant(Some(caller))
      modifies this`rows, tx
      ensures match R.BeginWithdraw(old(rows)[o], caller, reason, now)
              case Ok(a) => reply == Ok(a.operation) && rows == old(rows)[o := a.record]
              case Err(e) => reply == Err(e) && rows == old(rows)
    {
      hide NewChange, R.CurrentSuccessfulAssignment;
      var order := tx.rec.order;
      var c := |tx.rec.cancellations|;
      var w := R.NewCancellation(caller, reason, R.CancellationPending, now)
        .(courier := Some(caller), assignedAt := order.assignedAt);
      var assignment := R.CurrentSuccessfulAssignment(tx.rec);
      if assignment.Some? {
        CurrentExists(tx.rec);
        w := w.(assignment := assignment, original := tx.rec.attempts[assignment.value].original);
      }
      var after := order.(revision := order.revision + 1, updatedAt := now, pendingCancellation := Some(c));
      var change := NewChange(Some(order), after, UserActor(caller), BeginWithdrawal);
      if change.Err? {
        return Err(change.error);
      }
      var inserted := tx.InsertCancellation(w);
      ChangeIsOwn(order, after, UserActor(caller), BeginWithdrawal);
      NoOffersChange(tx.rec.offers);
      var applied := tx.Apply(change.value, []);
      var err := tx.CommitCancellation();
      rows := rows[o := tx.rec];
      reply := Ok(c);
    }

    // A pending withdrawal loses its fence before the order closes.
    method Supersede(tx: Tx, now: Time) returns (err: Option<Error>)
      requires tx.locked == Some(tx.rec.order) && tx.related
      modifies tx`rec, tx`cancellations, tx`changed, tx`failed
      ensures match R.Supersede(old(tx.rec), now)
              case Err(e) => err == Some(e)
              case Ok(cs) => err.None? && tx.rec == old(tx.rec).(cancellations := cs) && tx.failed == old(tx.failed)
    {
      var pending := tx.rec.order.pendingCancellation;
      if pending.None? {
        return None;
      }
      var found := tx.FindCancellation(pending.value);
      if found.Err? {
        return Some(found.error);
      }
      var w := found.value.(status := R.CancellationSuperseded, updatedAt := now,
                            generation := found.value.generation + 1);
      err := tx.SaveCancellation(pending.value, w, found.value.generation);
    }

    // An Adjust in flight is fenced, and its compensation persisted, before the order closes.
    method FenceActive(tx: Tx, now: Time)
      requires tx.locked.Some? && tx.related && tx.baselines == map[]
      modifies tx`rec, tx`baselines, tx`written, tx`failed
      ensures tx.rec == old(tx.rec).(attempts := R.FenceActive(old(tx.rec), now)) && tx.failed == old(tx.failed)
    {
      var active := tx.ActiveAssignment();
      if active.Some? {
        var w := tx.rec.attempts[active.value];
        var expected := w.generation;
        w := w.(generation := w.generation + 1, phase := R.RevertPending, rejection := R.OrderUnavailable,
                leaseUntil := now, nextAttemptAt := now, updatedAt := now);
        var saved := tx.SaveAssignment(active.value, w, expected);
      }
    }

    method CancelNow(o: OrderId, tx: Tx, caller: UserId, reason: OrderText, next: Status, now: Time)
      returns (reply: Result<nat, Error>)
      requires o in rows && tx.rec == rows[o] && tx.locked == Some(rows[o].order) && tx.related && tx.IsClean()
      requires rows[o].order.HasParticipant(Some(caller))
      modifies this`rows, tx
      ensures match R.CancelNow(old(rows)[o], caller, reason, next, now)
              case Ok(a) => reply == Ok(a.operation) && rows == old(rows)[o := a.record]
              case Err(e) => reply == Err(e) && rows == old(rows)
    {
      hide NewChange, R.FenceActive, R.Supersede, R.CloseOffers, Diff;
      var order := tx.rec.order;
      var c := |tx.rec.cancellations|;
      var after := order.(status := next, revision := order.revision + 1, updatedAt := now, closedAt := Some(now),
                          closeReason := None, pendingCancellation := None);
      if reason != "" {
        after := after.(closeReason := Some(reason));
      }
      var superseded := Supersede(tx, now);
      if superseded.Some? {
        return Err(superseded.value);
      }
      FenceAlike(rows[o], tx.rec, now);
      FenceActive(tx, now);
      var inserted := tx.InsertCancellation(R.NewCancellation(caller, reason, R.CancellationSucceeded, now));
      var change := NewChange(Some(order), after, UserActor(caller), Action.Cancel);
      if change.Err? {
        return Err(change.error);
      }
      var us := VoidOffers(tx.rec.offers);
      CloseReaches(tx.rec.offers);
      ChangeIsOwn(order, after, UserActor(caller), Action.Cancel);
      FinishCancel(o, tx, change.value, us);
      reply := Ok(c);
    }

    // Applies the change that closes the order, with its offers, and commits.
    method FinishCancel(o: OrderId, tx: Tx, c: Change, us: seq<OfferChange>)
      requires o in rows && tx.CanApply(c, us)
      modifies this`rows, tx
      ensures rows == old(rows)[o := R.Write(old(tx.rec), c).(offers := ApplyOffers(old(tx.rec.offers), us).value)]
    {
      var applied := tx.Apply(c, us);
      var err := tx.CommitCancellation();
      rows := rows[o := tx.rec];
    }

    method Cancel(o: OrderId, caller: UserId, reason: OrderText, revision: Option<int>, now: Time)
      returns (reply: Result<nat, Error>)
      requires Valid() && o in rows
      modifies this`rows
      ensures Valid()
      ensures match R.CancelOrder(old(rows)[o], caller, reason, revision, now)
              case Ok(a) => reply == Ok(a.operation) && rows == old(rows)[o := a.record]
              case Err(e) => reply == Err(e) && rows == old(rows)
    {
      hide RowsOk, RecordOk, Follows, Transition, R.BeginWithdraw, R.CancelNow;
      RowIsOk(rows, o);
      if |reason| > 500 {
        return Err(Invalid);
      }
      var tx := Begin(o);
      var order := tx.locked.value;
      if !order.HasParticipant(Some(caller)) {
        return Err(Forbidden);
      }
      if revision.Some? && order.revision != revision.value {
        return Err(Conflict);
      }
      if order.pendingCancellation.Some? && order.IsAssignedTo(Some(caller)) {
        var found := tx.FindCancellation(order.pendingCancellation.value);
        if found.Err? {
          return Err(found.error);
        }
        if found.value.status != R.CancellationPending || found.value.caller != caller {
          return Err(Integrity);
        }
        if found.value.reason != reason {
          return Err(Conflict);
        }
        assert rows[o := rows[o]] == rows;
        return Ok(order.pendingCancellation.value);
      }
      var action := Action.Cancel;
      if order.status == AwaitingPickup && order.IsAssignedTo(Some(caller)) {
        action := Action.Withdraw;
      }
      match Transition(order, action, UserActor(caller)) {
        case Deny(e) =>
          return Err(e);
        case Repeat(_) =>
          return Err(Precondition);
        case Go(next) =>
          if action == Action.Withdraw {
            reply := BeginWithdraw(o, tx, caller, reason, now);
          } else {
            reply := CancelNow(o, tx, caller, reason, next, now);
          }
      }
      if reply.Ok? {
        CancelOk(old(rows)[o], caller, reason, revision, now);
        RowsKept(old(rows), o, rows[o]);
      }
    }
  }
}
