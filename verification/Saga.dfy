/** Order and Credit together. Workers of any number of Order instances claim a step, call Credit, read it back and
    apply the result; what was sent or learnt stays in the network for ever, so any message may be lost, late,
    repeated or used by a worker that was thought dead. Outcomes are delivered any number of times, in any order.
    No clock is assumed to be monotone. */
module Saga {
  import opened Common
  import opened Orders
  import opened OrderRecords
  import opened Encoding
  import C = Credit

  // One leased step: the workflow, and the generation and phase under which it was claimed.
  datatype Work =
    | CreationWork(generation: int, creation: CreationPhase)
    | AttemptWork(attempt: AttemptId, generation: int, phase: Phase)
    | WithdrawalWork(withdrawal: nat, generation: int)

  // What the network remembers. A claim allows its worker's call and read; a refusal and an acknowledgement are
  // replies to that worker's own call; a read is an answer to its own later query.
  datatype Token = Claim(work: Work) | Refusal(work: Work) | Ack(work: Work) | Read(work: Work, view: HoldView)

  datatype Cell = Cell(record: Record, net: set<Token>)

  datatype World = World(cells: map<OrderId, Cell>, keys: Keys, credit: C.State)

  const START: World := World(map[], map[], C.INITIAL)

  function BookIn(s: World, o: OrderId): C.Book {
    C.BookOf(s.credit, o)
  }

  // Leased claims

  datatype Target = OfCreation | OfAttempt(attempt: AttemptId) | OfWithdrawal(withdrawal: nat)

  function ClaimOf(r: Record, target: Target, now: Time): Result<Claimed, Error> {
    match target
    case OfCreation => ClaimCreation(r, now)
    case OfAttempt(i) => ClaimAssignment(r, i, now)
    case OfWithdrawal(c) => ClaimCancellation(r, c, now)
  }

  // What a claim hands to its worker: the generation and phase it just stored.
  function WorkOf(r: Record, target: Target): Option<Work> {
    match target
    case OfCreation => Some(CreationWork(r.workflow.generation, r.workflow.phase))
    case OfAttempt(i) =>
      if i < |r.attempts| then Some(AttemptWork(i, r.attempts[i].generation, r.attempts[i].phase)) else None
    case OfWithdrawal(c) =>
      if c < |r.cancellations| then Some(WithdrawalWork(c, r.cancellations[c].generation)) else None
  }

  function ClaimStep(cell: Cell, target: Target, now: Time): Cell {
    match ClaimOf(cell.record, target, now)
    case Err(_) => cell
    case Ok(c) =>
      if !c.claimed || WorkOf(c.record, target).None? then cell
      else Cell(c.record, cell.net + {Claim(WorkOf(c.record, target).value)})
  }

  // Remote calls

  // The call that a claimed step makes.
  function CallOf(r: Record, o: OrderId, work: Work): Option<C.Call> {
    match work
    case CreationWork(_, creation) =>
      if creation == AbortPending then Some(C.Call.Release(o, C.ReleaseReason.Expired))
      else Some(C.Call.Reserve(o, r.workflow.requester, r.workflow.amount))
    case AttemptWork(i, _, phase) =>
      if i >= |r.attempts| then None
      else if phase == RevertPending then Some(C.Call.Revert(o, i))
      else Some(C.Call.Adjust(o, i, r.attempts[i].courier, r.attempts[i].amount))
    case WithdrawalWork(c, _) =>
      if c >= |r.cancellations| || r.cancellations[c].assignment.None? || r.cancellations[c].original <= 0 then None
      else Some(C.Call.Revert(o, r.cancellations[c].assignment.value))
  }

  predicate AsksForHold(work: Work) {
    (work.CreationWork? && work.creation == ReservePending) || (work.AttemptWork? && work.phase == AdjustmentPending)
  }

  predicate TakesBack(work: Work) {
    work.WithdrawalWork? || (work.AttemptWork? && work.phase == RevertPending)
  }

  // What the reply itself tells the worker; anything else it has to read.
  function ReplyToken(work: Work, reply: Result<C.View, C.Error>): Option<Token> {
    if AsksForHold(work) && reply == Err(C.InsufficientCredits) then Some(Refusal(work))
    else if TakesBack(work) && reply.Ok? then Some(Ack(work))
    else None
  }

  // Reads

  // What Order's Credit client makes of a reservation it reads.
  function ViewOf(b: C.Book, o: OrderId): Option<HoldView> {
    match b.current
    case None => None
    case Some(r) =>
      match r.status
      case Held =>
        if r.original <= 0 || r.requester.None? || r.reserved != r.original then None
        else Some(HoldView(o, r.requester, r.original, r.reserved, ViewHeld, None, None))
      case Assigned =>
        if r.assignment.None? || r.assignment.value !in b.assignments then None
        else
          var a := b.assignments[r.assignment.value];
          if a.courier.None? || a.offer != r.reserved || r.requester.None? || r.original <= 0 then None
          else Some(HoldView(o, r.requester, r.original, r.reserved, ViewAssigned, r.assignment, a.courier))
      case Released =>
        if r.reserved != 0 then None
        else Some(HoldView(o, r.requester, r.original, r.reserved, ViewReleased, None, None))
      case Settled => None
  }

  // A read follows the claim. Before a revert's read counts, the worker's own call must have been acknowledged;
  // the creation client accepts no assigned reservation.
  function ReadToken(net: set<Token>, b: C.Book, o: OrderId, work: Work): Option<Token> {
    match ViewOf(b, o)
    case None => None
    case Some(v) =>
      if Claim(work) !in net || (TakesBack(work) && Ack(work) !in net)
         || (work.CreationWork? && v.state == ViewAssigned) then None
      else Some(Read(work, v))
  }

  // Applying what was learnt

  predicate IsKnown(net: set<Token>, work: Work, seen: Seen) {
    && Claim(work) in net
    && (seen.Refused? ==> Refusal(work) in net)
    && (seen.Saw? ==> Read(work, seen.view) in net)
  }

  function ApplyWork(r: Record, work: Work, seen: Seen, now: Time, jitter: Jitter): Result<Record, Error> {
    match work
    case CreationWork(g, creation) => ApplyCreation(r, g, creation, seen, now, jitter)
    case AttemptWork(i, g, phase) => ApplyAssignment(r, i, g, phase, seen, now, jitter)
    case WithdrawalWork(c, g) => ApplyCancellation(r, c, g, seen, now, jitter)
  }

  // Local transactions

  datatype LocalAction =
    | Propose(caller: Caller, credits: int, now: Time)
    | AcceptCounter(caller: Caller, offer: nat, now: Time)
    | CancelBy(user: UserId, reason: OrderText, revision: Option<int>, now: Time)
    | PickUp(caller: Caller, now: Time)
    | DeliverBy(user: UserId, at: Time, unattended: bool, now: Time)
    | Receive(caller: Caller, now: Time)
    | ExpireNow(now: Time)
    | TimeOut(pending: bool, now: Time)
    | Locate(user: UserId, location: OrderText, now: Time)

  function Admission(result: Result<Admitted, Error>): Result<Record, Error> {
    match result
    case Ok(a) => Ok(a.record)
    case Err(e) => Err(e)
  }

  function Act(r: Record, action: LocalAction): Result<Record, Error> {
    match action
    case Propose(caller, credits, now) => MakeOffer(r, caller, credits, now)
    case AcceptCounter(caller, offer, now) => Admission(AcceptOffer(r, caller, offer, now))
    case CancelBy(user, reason, revision, now) => Admission(CancelOrder(r, user, reason, revision, now))
    case PickUp(caller, now) => ConfirmPickup(r, caller, now)
    case DeliverBy(user, at, unattended, now) => DeliverOrder(r, user, at, unattended, now)
    case Receive(caller, now) => ConfirmReceiptOf(r, caller, now)
    case ExpireNow(now) => ExpireOrder(r, now)
    case TimeOut(pending, now) => TimeoutOrder(r, pending, now)
    case Locate(user, location, now) => RecordLocation(r, user, location, now)
  }

  // Steps

  datatype Step =
    | ClaimIt(target: Target, now: Time)
    | CallCredit(work: Work)
    | ReadBack(work: Work)
    | ApplyIt(work: Work, seen: Seen, now: Time, jitter: Jitter)
    | AcceptIt(caller: Caller, key: Key, now: Time)
    | ActLocally(action: LocalAction)
    | DeliverOutcome(fact: nat)

  datatype Label =
    | OpenAccount(user: UserId)
    | Admit(order: OrderId, requester: UserId, input: CreateInput, now: Time)
    | On(order: OrderId, step: Step)

  function Put(s: World, o: OrderId, cell: Cell): World {
    s.(cells := s.cells[o := cell])
  }

  function Learnt(cell: Cell, token: Option<Token>): Cell {
    if token.Some? then cell.(net := cell.net + {token.value}) else cell
  }

  function Stored(cell: Cell, result: Result<Record, Error>): Cell {
    if result.Ok? then cell.(record := result.value) else cell
  }

  // The outcome event of a stored fact, when it is one and encodes.
  function EventOf(r: Record, k: nat): Option<C.OrderOutcome> {
    if k < |r.facts| && r.facts[k].fact.kind == Outcome then OutcomeOf(r.facts[k].fact.payload) else None
  }

  function TakeOn(s: World, o: OrderId, step: Step): World
    requires o in s.cells
  {
    var cell := s.cells[o];
    match step
    case ClaimIt(target, now) => Put(s, o, ClaimStep(cell, target, now))
    case CallCredit(work) =>
      if Claim(work) !in cell.net || CallOf(cell.record, o, work).None? then s
      else
        var (credit, reply) := C.Handle(s.credit, CallOf(cell.record, o, work).value);
        Put(s.(credit := credit), o, Learnt(cell, ReplyToken(work, reply)))
    case ReadBack(work) => Put(s, o, Learnt(cell, ReadToken(cell.net, BookIn(s, o), o, work)))
    case ApplyIt(work, seen, now, jitter) =>
      if IsKnown(cell.net, work, seen) then Put(s, o, Stored(cell, ApplyWork(cell.record, work, seen, now, jitter)))
      else s
    case AcceptIt(caller, key, now) =>
      (match AcceptOrder(cell.record, s.keys, caller, key, now)
       case Ok(a) => Put(s.(keys := a.keys), o, cell.(record := a.record))
       case Err(_) => s)
    case ActLocally(action) => Put(s, o, Stored(cell, Act(cell.record, action)))
    case DeliverOutcome(k) =>
      match EventOf(cell.record, k)
      case Some(event) => s.(credit := C.ApplyOutcome(s.credit, event, C.LatenessPayout).0)
      case None => s
  }

  function Take(s: World, l: Label): World {
    match l
    case OpenAccount(user) => s.(credit := C.Next(s.credit, C.Opened(user), C.LatenessPayout))
    case Admit(o, requester, input, now) =>
      (match AdmitCreation(o, requester, input, now)
       case Ok(r) => if o in s.cells then s else Put(s, o, Cell(r, {}))
       case Err(_) => s)
    case On(o, step) => if o in s.cells then TakeOn(s, o, step) else s
  }

  function Run(s: World, labels: seq<Label>): World
    decreases |labels|
  {
    if labels == [] then s else Run(Take(s, labels[0]), labels[1..])
  }
}
