/** What holds of one order's rows between two transactions, and what no transaction takes back. */
module OrderInvariants {
  import opened Common
  import opened Orders
  import opened OrderRecords

  // The order row alone

  ghost predicate OrderShape(o: Order, amount: int) {
    && 0 < amount && 0 < o.reward && MIN_DURATION <= o.deliveryDuration <= MAX_DURATION && 1 <= o.revision
    && o.courier != Some(o.requester)
    && (o.pendingCancellation.Some? ==> o.status == AwaitingPickup)
    && match o.status
       case PendingReservation =>
         o.courier.None? && o.assignedAt.None? && o.pickedUpAt.None? && o.reward == amount && o.reserved == 0
       case AwaitingCourier =>
         o.courier.None? && o.assignedAt.None? && o.pickedUpAt.None? && o.reward == amount && o.reserved == amount
       case AwaitingPickup => o.courier.Some? && o.pickedUpAt.None?
       case Delivering => o.courier.Some? && o.pickedUpAt.Some?
       case Delivered => o.courier.Some? && o.pickedUpAt.Some? && o.deliveredAt.Some?
       case Completed => o.courier.Some? && o.pickedUpAt.Some? && o.deliveredAt.Some?
       case Cancelled => o.pickedUpAt.Some? ==> o.courier.Some?
       case Failed => o.courier.Some? && o.pickedUpAt.Some?
       case Expired => o.courier.None? && o.pickedUpAt.None?
       case Rejected => o.courier.None? && o.pickedUpAt.None?
  }

  ghost predicate WorkflowOk(r: Record) {
    var w := r.workflow;
    && w.requester == r.order.requester && w.expiresAt == r.order.expiresAt && 0 < w.amount
    && (w.phase == ReservePending || w.phase == AbortPending <==> r.order.status == PendingReservation)
    && (w.phase == CreationRejected <==> r.order.status == Rejected)
    && (w.phase != CreationOpened ==> r.offers == [] && r.attempts == [] && r.cancellations == [])
    && (w.rejection.Some? <==> w.phase == CreationRejected)
    && (w.result.Some? <==> w.phase == CreationOpened)
  }

  // Offers and attempts

  ghost predicate OffersOk(requester: UserId, offers: seq<Offer>) {
    forall f :: 0 <= f < |offers| ==> offers[f].credits > 0 && offers[f].courier != requester
  }

  ghost predicate AttemptOk(requester: UserId, amount: int, offers: seq<Offer>, w: Attempt) {
    && w.courier != requester && w.original == amount && amount <= w.amount && 0 <= w.generation
    && (w.offer.Some? ==>
          && w.offer.value < |offers|
          && offers[w.offer.value].courier == w.courier && offers[w.offer.value].credits == w.amount)
    && (w.offer.None? ==> w.phase == AssignmentRejected && w.how.AcceptOrderMethod?)
    && (w.how.AcceptOrderMethod? ==> w.caller == w.courier)
    && (w.how.AcceptOfferMethod? ==> w.caller == requester)
  }

  // Only the last attempt that owns an offer may be unresolved.
  ghost predicate OneActive(attempts: seq<Attempt>) {
    forall i, j :: 0 <= i < j < |attempts| && !attempts[i].IsResolved() ==> attempts[j].offer.None?
  }

  ghost predicate AttemptsOk(r: Record) {
    && OneActive(r.attempts)
    && forall i :: 0 <= i < |r.attempts| ==>
         AttemptOk(r.order.requester, r.workflow.amount, r.offers, r.attempts[i])
  }

  function LatestSucceeded(s: seq<Attempt>): (i: Option<nat>)
    ensures i.Some? ==>
              && i.value < |s| && s[i.value].phase == AssignmentSucceeded
              && forall j :: i.value < j < |s| ==> s[j].phase != AssignmentSucceeded
    ensures i.None? ==> forall j :: 0 <= j < |s| ==> s[j].phase != AssignmentSucceeded
  {
    if s == [] then None
    else if s[|s| - 1].phase == AssignmentSucceeded then Some(|s| - 1)
    else LatestSucceeded(s[..|s| - 1])
  }

  ghost predicate NoActive(attempts: seq<Attempt>) {
    forall i :: 0 <= i < |attempts| ==> attempts[i].IsResolved()
  }

  // The order names the courier, price and instant of its latest succeeded attempt.
  ghost predicate HasHolder(o: Order, attempts: seq<Attempt>) {
    && NoActive(attempts)
    && var i := LatestSucceeded(attempts);
       && i.Some?
       && var w := attempts[i.value];
          && o.courier == Some(w.courier) && o.assignedAt == Some(w.updatedAt)
          && o.reserved == w.amount && o.reward == w.amount
  }

  ghost predicate HolderOk(r: Record) {
    r.order.courier.Some? ==> HasHolder(r.order, r.attempts)
  }

  // Withdrawals

  ghost predicate CancellationOk(o: Order, attempts: seq<Attempt>, c: nat, w: Cancellation) {
    && (w.status == CancellationPending <==> o.pendingCancellation == Some(c))
    && (w.assignment.Some? ==>
          && w.assignment.value < |attempts| && attempts[w.assignment.value].phase == AssignmentSucceeded
          && w.original == attempts[w.assignment.value].original)
    && (w.status == CancellationPending ==>
          && w.assignment.Some? && w.assignment == LatestSucceeded(attempts)
          && w.courier == o.courier && w.courier == Some(w.caller) && w.assignedAt == o.assignedAt)
  }

  ghost predicate CancellationsOk(r: Record) {
    && (r.order.pendingCancellation.Some? ==> r.order.pendingCancellation.value < |r.cancellations|)
    && forall c :: 0 <= c < |r.cancellations| ==> CancellationOk(r.order, r.attempts, c, r.cancellations[c])
  }

  // Facts

  // What the encoder asks of a fact, apart from the order of its instants.
  ghost predicate FactFits(f: Fact) {
    var p := f.payload;
    && f.version == 1
    && p.afterPickup == p.pickedUpAt.Some?
    && (f.kind == Outcome ==>
          && HasOutcome(p.status) && 0 < p.deliveryDuration
          && (p.status == Completed ==> p.courier.Some? && p.pickedUpAt.Some? && p.deliveredAt.Some?)
          && (p.status == Cancelled && p.pickedUpAt.Some? ==> p.courier.Some?))
    && (f.kind == CourierWarning ==>
          p.courier.Some? && p.afterPickup && p.status == Failed
          && (p.action == Action.Cancel || p.action == Action.Timeout))
  }

  ghost predicate TellsOf(p: Payload, o: Order) {
    && p.order == o.id && p.status == o.status && p.requester == o.requester && p.courier == o.courier
    && p.pickedUpAt == o.pickedUpAt && p.deliveredAt == o.deliveredAt && p.deliveryDuration == o.deliveryDuration
  }

  function Told(rows: seq<Row>): seq<Fact> {
    seq(|rows|, i requires 0 <= i < |rows| => rows[i].fact)
  }

  // Written before: in an earlier revision, or earlier in the same one.
  predicate IsBefore(a: Row, b: Row) {
    a.revision < b.revision || (a.revision == b.revision && a.ordinal < b.ordinal)
  }

  // The columns of a row repeat what its payload says.
  ghost predicate RowFits(o: Order, row: Row) {
    && FactFits(row.fact)
    && row.order == row.fact.payload.order == o.id && row.fact.payload.requester == o.requester
    && 1 <= row.revision == row.fact.payload.revision <= o.revision
  }

  // Rows are written in order of revision and ordinal. An outcome describes the order as it has been since it ended.
  ghost predicate FactsOk(o: Order, rows: seq<Row>) {
    && Count(Told(rows), Outcome) == (if HasOutcome(o.status) then 1 else 0)
    && (forall k :: 0 <= k < |rows| ==>
          && RowFits(o, rows[k])
          && (rows[k].fact.kind == Outcome ==> HasOutcome(o.status) && TellsOf(rows[k].fact.payload, o)))
    && forall j, k :: 0 <= j < k < |rows| ==> IsBefore(rows[j], rows[k])
  }

  ghost predicate RecordOk(r: Record) {
    && OrderShape(r.order, r.workflow.amount)
    && WorkflowOk(r)
    && OffersOk(r.order.requester, r.offers)
    && AttemptsOk(r)
    && HolderOk(r)
    && CancellationsOk(r)
    && FactsOk(r.order, r.facts)
  }

  // What one transaction never takes back.

  // Offers keep their courier and price.
  ghost predicate SameOffers(fs: seq<Offer>, gs: seq<Offer>) {
    && |fs| <= |gs|
    && forall f :: 0 <= f < |fs| ==> gs[f].courier == fs[f].courier && gs[f].credits == fs[f].credits
  }

  ghost predicate AttemptFollows(w: Attempt, w': Attempt) {
    && w'.offer == w.offer && w'.caller == w.caller && w'.courier == w.courier && w'.how == w.how
    && w'.amount == w.amount && w'.original == w.original
    && w.generation <= w'.generation <= w.generation + 1
    && (w.IsResolved() ==> w' == w)
    && (w.phase == RevertPending ==> w'.phase == RevertPending || w'.phase == AssignmentRejected)
  }

  ghost predicate CancellationFollows(w: Cancellation, w': Cancellation) {
    && w'.caller == w.caller && w'.reason == w.reason && w'.assignment == w.assignment && w'.courier == w.courier
    && w'.original == w.original && w.generation <= w'.generation <= w.generation + 1
    && (w.status != CancellationPending ==> w' == w)
  }

  ghost predicate WorkflowFollows(w: Workflow, w': Workflow) {
    && w'.requester == w.requester && w'.amount == w.amount && w'.expiresAt == w.expiresAt
    && w.generation <= w'.generation <= w.generation + 1
    && (w.IsResolved() ==> w' == w)
    && (w.phase == AbortPending ==> w'.phase == AbortPending || w'.phase == CreationRejected)
  }

  ghost predicate Follows(r: Record, r': Record) {
    && Keeps(r.order, r'.order)
    && WorkflowFollows(r.workflow, r'.workflow)
    && SameOffers(r.offers, r'.offers)
    && |r.attempts| <= |r'.attempts|
    && (forall i :: 0 <= i < |r.attempts| ==> AttemptFollows(r.attempts[i], r'.attempts[i]))
    && |r.cancellations| <= |r'.cancellations|
    && (forall c :: 0 <= c < |r.cancellations| ==> CancellationFollows(r.cancellations[c], r'.cancellations[c]))
    && r.facts <= r'.facts
  }

  // Steps

  lemma WarningFails(o: Order, after: Order, actor: Actor, action: Action)
    requires NewChange(Some(o), after, actor, action).Ok? && o.status != after.status
    requires WarnsCourier(Some(o), after, actor, action)
    ensures after.status == Failed
  {}

  // The facts of an accepted change fit the encoder and describe the new order.
  lemma ChangeFacts(o: Order, after: Order, actor: Actor, action: Action, amount: int)
    requires OrderShape(o, amount) && OrderShape(after, amount)
    requires NewChange(Some(o), after, actor, action).Ok?
    ensures forall f :: f in FactsOf(Some(o), after, actor, action) ==>
              && FactFits(f) && TellsOf(f.payload, after) && f.payload.revision == after.revision
              && (f.kind == Outcome ==> HasOutcome(after.status))
  {
    hide NewChange;
    if WarnsCourier(Some(o), after, actor, action) && o.status != after.status {
      WarningFails(o, after, actor, action);
    }
  }

  // The rows that a change of the order writes.
  function Emitted(o: Order, after: Order, actor: Actor, action: Action): seq<Row> {
    RowsOf(after, actor, FactsOf(Some(o), after, actor, action))
  }

  lemma ToldAppend(rows: seq<Row>, after: Order, actor: Actor, facts: seq<Fact>)
    ensures Told(rows + RowsOf(after, actor, facts)) == Told(rows) + facts
  {}

  lemma EndsForGood(o: Order, after: Order, actor: Actor, action: Action)
    requires NewChange(Some(o), after, actor, action).Ok?
    ensures HasOutcome(o.status) ==> after.status == o.status
  {
    hide NewChange;
    ChangeKeeps(o, Step(after, actor, action));
  }

  lemma ChangeCounts(o: Order, rows: seq<Row>, after: Order, actor: Actor, action: Action)
    requires Count(Told(rows), Outcome) == if HasOutcome(o.status) then 1 else 0
    requires NewChange(Some(o), after, actor, action).Ok?
    ensures Count(Told(rows + Emitted(o, after, actor, action)), Outcome) == if HasOutcome(after.status) then 1 else 0
  {
    hide NewChange, FactsOf, Count, Told, RowsOf;
    var facts := FactsOf(Some(o), after, actor, action);
    FactsCounted(Some(o), after, actor, action);
    ToldAppend(rows, after, actor, facts);
    CountAppend(Told(rows), facts, Outcome);
    EndsForGood(o, after, actor, action);
  }

  // Once an order has ended its outcome's fields stay.
  lemma EndedStays(o: Order, after: Order, actor: Actor, action: Action)
    requires HasOutcome(o.status) && NewChange(Some(o), after, actor, action).Ok?
    ensures after.status == o.status
    ensures forall p :: TellsOf(p, o) ==> TellsOf(p, after)
  {}

  lemma NextRevision(o: Order, after: Order, actor: Actor, action: Action)
    requires NewChange(Some(o), after, actor, action).Ok?
    ensures after.revision == o.revision + 1 && after.id == o.id && after.requester == o.requester
  {}

  lemma FactsAppend(o: Order, rows: seq<Row>, after: Order, actor: Actor, facts: seq<Fact>)
    requires FactsOk(o, rows) && after.revision == o.revision + 1 && after.id == o.id && after.requester == o.requester
    requires Count(Told(rows + RowsOf(after, actor, facts)), Outcome) == if HasOutcome(after.status) then 1 else 0
    requires 1 <= after.revision
    requires HasOutcome(o.status) ==> after.status == o.status && forall p :: TellsOf(p, o) ==> TellsOf(p, after)
    requires forall f :: f in facts ==>
               && FactFits(f) && TellsOf(f.payload, after) && f.payload.revision == after.revision
               && (f.kind == Outcome ==> HasOutcome(after.status))
    ensures FactsOk(after, rows + RowsOf(after, actor, facts))
  {
    var all := rows + RowsOf(after, actor, facts);
    forall k | 0 <= k < |all|
      ensures RowFits(after, all[k])
      ensures all[k].fact.kind == Outcome ==> HasOutcome(after.status) && TellsOf(all[k].fact.payload, after)
    {
      if k < |rows| {
        assert RowFits(o, rows[k]);
      } else {
        assert all[k].fact in facts;
      }
    }
    forall j, k | 0 <= j < k < |all|
      ensures IsBefore(all[j], all[k])
    {
      if j < |rows| <= k {
        assert RowFits(o, rows[j]);
      }
    }
  }

  // Every change that an operation writes keeps the facts right.
  lemma WriteFacts(r: Record, after: Order, actor: Actor, action: Action)
    requires OrderShape(r.order, r.workflow.amount) && FactsOk(r.order, r.facts)
    requires OrderShape(after, r.workflow.amount)
    requires NewChange(Some(r.order), after, actor, action).Ok?
    ensures Keeps(r.order, after)
    ensures FactsOk(after, r.facts + Emitted(r.order, after, actor, action))
  {
    hide NewChange, FactsOf, FactsOk, Keeps;
    var o := r.order;
    ChangeFacts(o, after, actor, action, r.workflow.amount);
    FactsCountedOk(r);
    ChangeCounts(o, r.facts, after, actor, action);
    ChangeKeeps(o, Step(after, actor, action));
    NextRevision(o, after, actor, action);
    if HasOutcome(o.status) {
      EndedStays(o, after, actor, action);
    }
    FactsAppend(o, r.facts, after, actor, FactsOf(Some(o), after, actor, action));
  }

  lemma FactsCountedOk(r: Record)
    requires FactsOk(r.order, r.facts)
    ensures Count(Told(r.facts), Outcome) == if HasOutcome(r.order.status) then 1 else 0
  {}

  // A step that moves the order but neither its attempts, its withdrawals nor its assignment.
  ghost predicate Moves(r: Record, r': Record) {
    var o, o' := r.order, r'.order;
    && o.courier == o'.courier && o.assignedAt == o'.assignedAt && o.reserved == o'.reserved && o.reward == o'.reward
    && o.pendingCancellation == o'.pendingCancellation
    && r'.workflow == r.workflow && r'.attempts == r.attempts && r'.cancellations == r.cancellations
    && SameOffers(r.offers, r'.offers)
  }

  lemma OffersKeepAttempts(r: Record, r': Record)
    requires AttemptsOk(r) && r'.attempts == r.attempts && r'.workflow.amount == r.workflow.amount
    requires r'.order.requester == r.order.requester && SameOffers(r.offers, r'.offers)
    ensures AttemptsOk(r')
  {
    forall i | 0 <= i < |r'.attempts|
      ensures AttemptOk(r'.order.requester, r'.workflow.amount, r'.offers, r'.attempts[i])
    {
      assert AttemptOk(r.order.requester, r.workflow.amount, r.offers, r.attempts[i]);
    }
  }

  lemma MoveKeepsCancellations(r: Record, r': Record)
    requires CancellationsOk(r) && r'.attempts == r.attempts && r'.cancellations == r.cancellations
    requires r.order.courier == r'.order.courier && r.order.assignedAt == r'.order.assignedAt
    requires r.order.pendingCancellation == r'.order.pendingCancellation
    ensures CancellationsOk(r')
  {
    forall c | 0 <= c < |r'.cancellations|
      ensures CancellationOk(r'.order, r'.attempts, c, r'.cancellations[c])
    {
      assert CancellationOk(r.order, r.attempts, c, r.cancellations[c]);
    }
  }

  lemma MoveKeepsRecord(r: Record, r': Record, actor: Actor, action: Action)
    requires RecordOk(r) && Moves(r, r')
    requires NewChange(Some(r.order), r'.order, actor, action).Ok?
    requires r'.facts == r.facts + Emitted(r.order, r'.order, actor, action)
    requires OrderShape(r'.order, r.workflow.amount) && WorkflowOk(r') && OffersOk(r.order.requester, r'.offers)
    ensures RecordOk(r') && Follows(r, r')
  {
    WriteFacts(r, r'.order, actor, action);
    OffersKeepAttempts(r, r');
    MoveKeepsCancellations(r, r');
  }
}
