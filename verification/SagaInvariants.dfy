/** The one inductive invariant that ties an order's rows, its reservation at Credit and everything still in the
    network to each other. */
module SagaInvariants {
  import opened Common
  import opened Orders
  import opened OrderRecords
  import opened OrderInvariants
  import opened Encoding
  import opened Saga
  import opened CreditBooks
  import opened CreditFences
  import C = Credit
  import L = CreditLedger

  // The outcome that an ended order stands for.
  function EndEvent(o: Order): C.OrderOutcome {
    C.OrderOutcome(o.id, EndName(o), o.requester, o.courier, o.pickedUpAt, o.deliveredAt, o.deliveryDuration)
  }

  ghost predicate IsHolder(r: Record, i: AttemptId) {
    r.order.courier.Some? && LatestSucceeded(r.attempts) == Some(i)
  }

  // A withdrawal is pending, or was when the order was cancelled: the holder's offer may be taken back.
  predicate MayLose(o: Order) {
    o.pendingCancellation.Some? || (o.status == Cancelled && o.pickedUpAt.None?)
  }

  // Ties between the rows and the book

  ghost predicate CreationTie(r: Record, b: C.Book) {
    var w := r.workflow;
    && (w.phase != CreationOpened ==> b.assignments == map[])
    && (w.phase == ReservePending || w.phase == AbortPending ==>
          b.current.Some? ==>
            var v := b.current.value;
            || (v.status == C.Status.Held && v.requester == Some(w.requester) && v.original == w.amount)
            || (w.phase == AbortPending && v.status == C.Status.Released))
    && (w.phase == CreationRejected ==> NoHold(b))
    && (w.phase == CreationOpened ==>
          && b.current.Some?
          && b.current.value.requester == Some(w.requester) && b.current.value.original == w.amount
          && (b.current.value.IsTerminal() ==> HasOutcome(r.order.status)))
  }

  ghost predicate AttemptTie(r: Record, b: C.Book, i: AttemptId)
    requires i < |r.attempts|
  {
    var w := r.attempts[i];
    && (w.offer.None? ==> i !in b.assignments)
    && (i in b.assignments && b.assignments[i].courier.Some? ==>
          b.assignments[i].courier == Some(w.courier) && b.assignments[i].offer == w.amount)
    && (w.phase == AdjustmentPending ==> !IsFenced(b, i))
    && (w.phase == AssignmentSucceeded ==>
          && i in b.assignments && b.assignments[i].courier.Some?
          && (IsFenced(b, i) || IsHolder(r, i))
          && (IsFenced(b, i) && IsHolder(r, i) ==> MayLose(r.order)))
    && (w.phase == AssignmentRejected && w.offer.Some? ==> IsFenced(b, i))
  }

  ghost predicate AttemptsTie(r: Record, b: C.Book) {
    && (forall a :: a in b.assignments ==> a < |r.attempts|)
    && (forall i :: 0 <= i < |r.attempts| ==> AttemptTie(r, b, i))
  }

  ghost predicate WithdrawalTie(r: Record, b: C.Book, w: Cancellation) {
    && (w.status == CancellationSucceeded && w.assignment.Some? ==> IsFenced(b, w.assignment.value))
    && (w.status == CancellationSuperseded ==> r.order.status == Cancelled && r.order.pickedUpAt.None?)
  }

  ghost predicate WithdrawalsTie(r: Record, b: C.Book) {
    forall c :: 0 <= c < |r.cancellations| ==> WithdrawalTie(r, b, r.cancellations[c])
  }

  ghost predicate EndTie(r: Record, b: C.Book) {
    HasOutcome(r.order.status) && b.current.Some? && b.current.value.IsTerminal() ==> Agrees(b, EndEvent(r.order))
  }

  // The network

  ghost predicate WorkOk(r: Record, work: Work) {
    match work
    case CreationWork(_, creation) =>
      && (creation == ReservePending || creation == AbortPending)
      && (creation == AbortPending ==> r.workflow.phase == AbortPending || r.workflow.phase == CreationRejected)
    case AttemptWork(i, _, phase) =>
      && i < |r.attempts| && r.attempts[i].offer.Some?
      && (phase == AdjustmentPending || phase == RevertPending)
      && (phase == RevertPending ==> r.attempts[i].phase == RevertPending || r.attempts[i].phase == AssignmentRejected)
    case WithdrawalWork(c, _) => c < |r.cancellations| && r.cancellations[c].assignment.Some?
  }

  // The offer that a taking-back step takes back.
  ghost predicate TakenBack(r: Record, b: C.Book, work: Work) {
    match work
    case CreationWork(_, _) => true
    case AttemptWork(i, _, _) => IsFenced(b, i)
    case WithdrawalWork(c, _) =>
      c < |r.cancellations| && r.cancellations[c].assignment.Some? && IsFenced(b, r.cancellations[c].assignment.value)
  }

  ghost predicate ViewOk(b: C.Book, v: HoldView) {
    && b.current.Some?
    && (v.state != ViewReleased ==>
          b.current.value.requester == v.requester && b.current.value.original == v.original)
    && (v.state == ViewReleased ==> b.current.value.status == C.Status.Released)
    && (v.state == ViewAssigned ==>
          v.offer.Some? && v.offer.value in b.assignments && b.assignments[v.offer.value].courier.Some?)
  }

  ghost predicate TokenOk(r: Record, b: C.Book, t: Token) {
    match t
    case Claim(work) => WorkOk(r, work)
    case Refusal(work) => work.CreationWork? ==> NoHold(b)
    case Ack(work) => TakesBack(work) ==> TakenBack(r, b, work)
    case Read(work, v) => ViewOk(b, v) && (TakesBack(work) ==> TakenBack(r, b, work))
  }

  ghost predicate NetOk(r: Record, b: C.Book, net: set<Token>) {
    forall t :: t in net ==> TokenOk(r, b, t)
  }

  ghost predicate Ties(r: Record, b: C.Book) {
    && CreationTie(r, b)
    && AttemptsTie(r, b)
    && WithdrawalsTie(r, b)
    && EndTie(r, b)
  }

  ghost predicate CellOk(o: OrderId, cell: Cell, b: C.Book) {
    && cell.record.order.id == o
    && RecordOk(cell.record) && BookOk(b)
    && Ties(cell.record, b)
    && NetOk(cell.record, b, cell.net)
  }

  // A retained key names the one attempt that was admitted under it.
  ghost predicate KeysOk(s: World) {
    forall o :: o in s.cells ==> AttemptsRetained(o, s.cells[o].record, s.keys)
  }

  ghost predicate AttemptsRetained(o: OrderId, r: Record, keys: Keys) {
    forall i :: 0 <= i < |r.attempts| && r.attempts[i].how.AcceptOrderMethod? ==>
      var scope := KeyScope(r.attempts[i].caller, r.attempts[i].how.key);
      scope in keys && keys[scope] == Retained(o, i)
  }

  ghost predicate WorldOk(s: World) {
    && L.StateOk(s.credit)
    && (forall o :: o in s.cells ==> CellOk(o, s.cells[o], BookIn(s, o)))
    && (forall o :: o !in s.cells ==> BookIn(s, o) == C.EMPTY_BOOK)
    && KeysOk(s)
  }

  // What holds of a token holds for ever.

  ghost predicate BookStep(b: C.Book, b': C.Book) {
    && BookOk(b') && Grows(b, b') && (NoHold(b) ==> NoHold(b'))
  }

  lemma FencesLast(b: C.Book, b': C.Book, a: AttemptId)
    requires Grows(b, b') && IsFenced(b, a)
    ensures IsFenced(b', a)
  {}

  lemma WorkLasts(r: Record, r': Record, work: Work)
    requires WorkOk(r, work) && Follows(r, r')
    ensures WorkOk(r', work)
  {
    match work {
      case AttemptWork(i, _, _) => assert AttemptFollows(r.attempts[i], r'.attempts[i]);
      case WithdrawalWork(c, _) => assert CancellationFollows(r.cancellations[c], r'.cancellations[c]);
      case CreationWork(_, _) =>
    }
  }

  lemma TakenBackLasts(r: Record, b: C.Book, r': Record, b': C.Book, work: Work)
    requires TakenBack(r, b, work) && Follows(r, r') && Grows(b, b')
    ensures TakenBack(r', b', work)
  {
    match work {
      case AttemptWork(i, _, _) => FencesLast(b, b', i);
      case WithdrawalWork(c, _) =>
        assert CancellationFollows(r.cancellations[c], r'.cancellations[c]);
        FencesLast(b, b', r.cancellations[c].assignment.value);
      case CreationWork(_, _) =>
    }
  }

  lemma TokenLasts(r: Record, b: C.Book, r': Record, b': C.Book, t: Token)
    requires TokenOk(r, b, t) && Follows(r, r') && BookStep(b, b')
    ensures TokenOk(r', b', t)
  {
    match t {
      case Claim(work) => WorkLasts(r, r', work);
      case Refusal(_) =>
      case Ack(work) =>
        if TakesBack(work) {
          TakenBackLasts(r, b, r', b', work);
        }
      case Read(work, _) =>
        if TakesBack(work) {
          TakenBackLasts(r, b, r', b', work);
        }
    }
  }

  lemma NetLasts(r: Record, b: C.Book, r': Record, b': C.Book, net: set<Token>)
    requires NetOk(r, b, net) && Follows(r, r') && BookStep(b, b')
    ensures NetOk(r', b', net)
  {
    forall t | t in net
      ensures TokenOk(r', b', t)
    {
      TokenLasts(r, b, r', b', t);
    }
  }

  lemma SelfStep(b: C.Book)
    requires BookOk(b)
    ensures BookStep(b, b)
  {}

  // A read says what the book then is.
  lemma ViewIsOk(b: C.Book, o: OrderId)
    requires BookOk(b) && ViewOf(b, o).Some?
    ensures ViewOk(b, ViewOf(b, o).value)
  {}

  lemma OutcomeIsEnd(r: Record, k: nat)
    requires RecordOk(r) && k < |r.facts| && r.facts[k].fact.kind == Outcome
    ensures EventOf(r, k) == if InOrder(r.facts[k].fact.payload) then Some(EndEvent(r.order)) else None
    ensures HasOutcome(r.order.status) && InOrder(r.facts[k].fact.payload) == InOrder(PayloadOf(None, r.order, Create))
  {
    assert RowFits(r.order, r.facts[k]) && TellsOf(r.facts[k].fact.payload, r.order);
    OutcomeExists(r.facts[k].fact);
  }
}
