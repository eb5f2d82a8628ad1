/** What each Credit operation does to its tables, as functions on values.

    A Book gathers every row whose key starts with one order_id: the reservation, its revision history, its
    assignments and its operation records. A Bank is the accounts and the append-only ledger. */
module Credit {
  import opened Common
  import Lateness

  const STARTING_CREDITS: int := 100

  datatype Status = Held | Assigned | Released | Settled

  datatype ReleaseReason = CancelledBeforePickup | Expired | Failed

  datatype SettlementOutcome = OutcomeReleased | OutcomeCompleted | OutcomeCancelledAfterPickup

  datatype Completion = Completion(pickedUpAt: Time, deliveredAt: Time, deliveryDuration: int)

  datatype Settlement = Settlement(
    outcome: SettlementOutcome,
    paidToCourier: int,
    returnedToRequester: int,
    releaseReason: Option<ReleaseReason>,
    completion: Option<Completion>)

  // A tombstone (an order released before Credit saw it) is Released with no requester.
  datatype Reservation = Reservation(
    requester: Option<UserId>,
    status: Status,
    original: int,
    reserved: int,
    assignment: Option<AttemptId>,
    settlement: Option<Settlement>,
    revision: nat)
  {
    predicate IsTerminal() {
      status == Released || status == Settled
    }
  }

  datatype AdjustmentStatus = Applied | Reverted

  // A reverted assignment without a courier is a tombstone for an offer reverted before it was applied.
  datatype Assignment = Assignment(courier: Option<UserId>, offer: int, status: AdjustmentStatus)

  datatype OperationKey = OpReserve | OpRelease | OpAdjust(attempt: AttemptId) | OpRevert(attempt: AttemptId)

  // Stands for the request hash, taken as injective.
  datatype Payload =
    | ReservePayload(requester: UserId, amount: int)
    | AdjustPayload(courier: UserId, offer: int)
    | RevertPayload
    | ReleasePayload(reason: ReleaseReason)

  datatype Operation = Operation(payload: Payload, insufficient: bool, revision: nat)

  datatype Book = Book(
    current: Option<Reservation>,
    history: seq<Reservation>,
    assignments: map<AttemptId, Assignment>,
    operations: map<OperationKey, Operation>)

  const EMPTY_BOOK: Book := Book(None, [], map[], map[])

  datatype Kind = Grant | Reserve | Adjust | Revert | Release | Payout | Refund

  datatype Entry = Entry(
    user: UserId,
    kind: Kind,
    balanceDelta: int,
    reservedDelta: int,
    order: Option<OrderId>,
    attempt: Option<AttemptId>)

  datatype Account = Account(balance: int, reserved: int) {
    function Available(): int {
      balance - reserved
    }
  }

  datatype Bank = Bank(accounts: map<UserId, Account>, ledger: seq<Entry>)

  datatype State = State(bank: Bank, books: map<OrderId, Book>)

  const INITIAL: State := State(Bank(map[], []), map[])

  // Aborted is a lost revision compare-and-set. Integrity stands for a row that the schema or a foreign key
  // forbids; no reachable state raises either.
  datatype Error =
    | InvalidArgument
    | InsufficientCredits
    | IdempotencyConflict
    | ReservationNotFound
    | ReservationReleased
    | ReservationSettled
    | ReservationNotAssigned
    | AdjustmentPending
    | AdjustmentReverted
    | OutcomeMismatch
    | Aborted
    | Integrity

  datatype Adjustment = Adjustment(attempt: AttemptId, courier: Option<UserId>, previous: int, offer: int)

  datatype View = View(reservation: Reservation, adjustment: Option<Adjustment>)

  datatype Call =
    | Reserve(order: OrderId, requester: UserId, amount: int)
    | Adjust(order: OrderId, attempt: AttemptId, courier: UserId, offer: int)
    | Revert(order: OrderId, attempt: AttemptId)
    | Release(order: OrderId, reason: ReleaseReason)

  datatype OutcomeType =
    | OrderCompleted
    | OrderCancelledBeforePickup
    | OrderCancelledAfterPickup
    | OrderExpired
    | OrderFailed
    | OrderOutcomeUnspecified

  // None stands for an unset field of the event.
  datatype OrderOutcome = OrderOutcome(
    order: OrderId,
    kind: OutcomeType,
    requester: UserId,
    courier: Option<UserId>,
    pickedUpAt: Option<Time>,
    deliveredAt: Option<Time>,
    deliveryDuration: int)

  type PayoutRule = (int, OrderOutcome) -> int

  // Accounts and ledger

  function Moved(a: Account, e: Entry): Account {
    Account(a.balance + e.balanceDelta, a.reserved + e.reservedDelta)
  }

  // The CHECK constraints of the accounts table.
  predicate IsSound(a: Account) {
    0 <= a.reserved <= a.balance
  }

  predicate IsEmptyEntry(e: Entry) {
    e.balanceDelta == 0 && e.reservedDelta == 0
  }

  // Applies each entry to its account and appends it; None when the schema rejects one of them.
  function Post(bank: Bank, entries: seq<Entry>): Option<Bank>
    decreases |entries|
  {
    if entries == [] then Some(bank)
    else
      var e := entries[0];
      if IsEmptyEntry(e) then Post(bank, entries[1..])
      else if e.user !in bank.accounts || !IsSound(Moved(bank.accounts[e.user], e)) then None
      else Post(PostOne(bank, e), entries[1..])
  }

  function PostOne(bank: Bank, e: Entry): Bank
    requires e.user in bank.accounts
  {
    Bank(bank.accounts[e.user := Moved(bank.accounts[e.user], e)], bank.ledger + [e])
  }

  function GrantTo(user: UserId): Entry {
    Entry(user, Kind.Grant, STARTING_CREDITS, 0, None, None)
  }

  function Open(bank: Bank, user: UserId): Bank {
    if user in bank.accounts then bank
    else PostOne(bank.(accounts := bank.accounts[user := Account(0, 0)]), GrantTo(user))
  }

  function OpenAll(bank: Bank, users: seq<UserId>): Bank
    decreases |users|
  {
    if users == [] then bank else OpenAll(Open(bank, users[0]), users[1..])
  }

  // Reservations

  function Insert(b: Book, r: Reservation): Book {
    b.(current := Some(r), history := b.history + [r])
  }

  // The database assigns the revision after the current one.
  function Update(b: Book, next: Reservation): Book
    requires b.current.Some?
  {
    Insert(b, next.(revision := b.current.value.revision + 1))
  }

  // changed is false when a release found the reservation already released.
  datatype Step =
    | Refuse(error: Error)
    | Insufficient
    | Commit(book: Book, stored: Reservation, entries: seq<Entry>, changed: bool)

  function Stored(b: Book, entries: seq<Entry>): Step
    requires b.current.Some?
  {
    Commit(b, b.current.value, entries, true)
  }

  function FirstReserve(b: Book, o: OrderId, requester: UserId, amount: int, enough: bool): Step {
    match b.current
    case Some(r) => Refuse(if r.status == Released then ReservationReleased else IdempotencyConflict)
    case None =>
      if !enough then Insufficient
      else Stored(Insert(b, Reservation(Some(requester), Held, amount, amount, None, None, 1)),
                  [Entry(requester, Kind.Reserve, 0, amount, Some(o), None)])
  }

  function RequireOpen(b: Book): Option<Error> {
    match b.current
    case None => Some(ReservationNotFound)
    case Some(r) =>
      if r.status == Released then Some(ReservationReleased)
      else if r.status == Settled then Some(ReservationSettled)
      else None
  }

  // The refusals of AdjustReservation before it looks at the requester's account.
  function AdjustGuard(b: Book, attempt: AttemptId, offer: int): Option<Error> {
    var closed := RequireOpen(b);
    if closed.Some? then closed
    else
      var r := b.current.value;
      if offer < r.original then Some(InvalidArgument)
      else if attempt in b.assignments && b.assignments[attempt].status == Reverted then Some(AdjustmentReverted)
      else if attempt in b.assignments || r.status == Assigned then Some(AdjustmentPending)
      else if r.requester.None? then Some(Integrity)
      else None
  }

  function FirstAdjust(b: Book, o: OrderId, attempt: AttemptId, courier: UserId, offer: int, enough: bool): Step {
    match AdjustGuard(b, attempt, offer)
    case Some(e) => Refuse(e)
    case None =>
      var r := b.current.value;
      if !enough then Insufficient
      else
        var applied := b.(assignments := b.assignments[attempt := Assignment(Some(courier), offer, Applied)]);
        Stored(Update(applied, r.(status := Assigned, reserved := offer, assignment := Some(attempt))),
               [Entry(r.requester.value, Kind.Adjust, 0, offer - r.reserved, Some(o), Some(attempt))])
  }

  function FirstRevert(b: Book, o: OrderId, attempt: AttemptId): Step {
    match b.current
    case None => Refuse(ReservationNotFound)
    case Some(r) =>
      if r.status == Settled then Refuse(ReservationSettled)
      else if attempt !in b.assignments then
        Commit(b.(assignments := b.assignments[attempt := Assignment(None, 0, Reverted)]), r, [], true)
      else if b.assignments[attempt].status == Reverted then Commit(b, r, [], true)
      else
        var undone := b.(assignments := b.assignments[attempt := b.assignments[attempt].(status := Reverted)]);
        if r.status != Assigned || r.assignment != Some(attempt) then Commit(undone, r, [], true)
        else if r.requester.None? then Refuse(Integrity)
        else Stored(Update(undone, r.(status := Held, reserved := r.original, assignment := None)),
                    [Entry(r.requester.value, Kind.Revert, 0, r.original - r.reserved, Some(o), Some(attempt))])
  }

  function ReleasedAs(returned: int, reason: ReleaseReason): Option<Settlement> {
    Some(Settlement(OutcomeReleased, 0, returned, Some(reason), None))
  }

  function FirstRelease(b: Book, o: OrderId, reason: ReleaseReason): Step {
    match b.current
    case None => Stored(Insert(b, Reservation(None, Released, 0, 0, None, ReleasedAs(0, reason), 1)), [])
    case Some(r) =>
      if r.status == Settled then Refuse(ReservationSettled)
      else if r.status == Released then Commit(b, r, [], false)
      else if r.requester.None? then Refuse(Integrity)
      else Stored(Update(b, r.(status := Released, reserved := 0, settlement := ReleasedAs(r.reserved, reason))),
                  [Entry(r.requester.value, Kind.Release, 0, -r.reserved, Some(o), None)])
  }

  function First(b: Book, call: Call, enough: bool): Step {
    match call
    case Reserve(o, requester, amount) => FirstReserve(b, o, requester, amount, enough)
    case Adjust(o, attempt, courier, offer) => FirstAdjust(b, o, attempt, courier, offer, enough)
    case Revert(o, attempt) => FirstRevert(b, o, attempt)
    case Release(o, reason) => FirstRelease(b, o, reason)
  }

  // Idempotent calls

  function KeyOf(call: Call): OperationKey {
    match call
    case Reserve(_, _, _) => OpReserve
    case Adjust(_, attempt, _, _) => OpAdjust(attempt)
    case Revert(_, attempt) => OpRevert(attempt)
    case Release(_, _) => OpRelease
  }

  function PayloadOf(call: Call): Payload {
    match call
    case Reserve(_, requester, amount) => ReservePayload(requester, amount)
    case Adjust(_, _, courier, offer) => AdjustPayload(courier, offer)
    case Revert(_, _) => RevertPayload
    case Release(_, reason) => ReleasePayload(reason)
  }

  predicate IsWellFormed(call: Call) {
    && (call.Reserve? ==> call.amount > 0)
    && (call.Adjust? ==> call.offer > 0)
  }

  // Describes the applied offer of an Assigned reservation.
  function WithAdjustment(b: Book, r: Reservation): Result<View, Error> {
    if r.status != Assigned then Ok(View(r, None))
    else if r.assignment.None? || r.assignment.value !in b.assignments then Err(Integrity)
    else
      var a := b.assignments[r.assignment.value];
      Ok(View(r, Some(Adjustment(r.assignment.value, a.courier, r.original, a.offer))))
  }

  // A later release or revert fences a repeated Reserve or AdjustReservation off.
  function CheckReplay(b: Book, key: OperationKey): Option<Error> {
    if !key.OpReserve? && !key.OpAdjust? then None
    else if b.current.Some? && b.current.value.status == Released then Some(ReservationReleased)
    else if key.OpAdjust? && key.attempt in b.assignments && b.assignments[key.attempt].status == Reverted then
      Some(AdjustmentReverted)
    else None
  }

  function Replay(b: Book, call: Call): Result<View, Error>
    requires KeyOf(call) in b.operations
  {
    var op := b.operations[KeyOf(call)];
    if op.payload != PayloadOf(call) then Err(IdempotencyConflict)
    else if CheckReplay(b, KeyOf(call)).Some? then Err(CheckReplay(b, KeyOf(call)).value)
    else if op.insufficient then Err(InsufficientCredits)
    else if !(1 <= op.revision <= |b.history|) then Err(Integrity)
    else WithAdjustment(b, b.history[op.revision - 1])
  }

  function Record(b: Book, call: Call, insufficient: bool, revision: nat): Book {
    b.(operations := b.operations[KeyOf(call) := Operation(PayloadOf(call), insufficient, revision)])
  }

  // One idempotent call on the book of its order; enough says whether the requester can cover it.
  datatype Served = Served(book: Book, reply: Result<View, Error>, entries: seq<Entry>)

  function Serve(b: Book, call: Call, enough: bool): Served {
    if !IsWellFormed(call) then Served(b, Err(InvalidArgument), [])
    else if KeyOf(call) in b.operations then Served(b, Replay(b, call), [])
    else
      match First(b, call, enough)
      case Refuse(e) => Served(b, Err(e), [])
      case Insufficient => Served(Record(b, call, true, 0), Err(InsufficientCredits), [])
      case Commit(b1, stored, entries, _) =>
        var b2 := Record(b1, call, false, stored.revision);
        match WithAdjustment(b2, stored)
        case Ok(view) => Served(b2, Ok(view), entries)
        case Err(e) => Served(b, Err(e), [])
  }

  function BookOf(s: State, o: OrderId): Book {
    if o in s.books then s.books[o] else EMPTY_BOOK
  }

  // The account a call locks, and how much more of it the call wants to hold.
  datatype Need = Need(user: UserId, credits: int)

  function NeedOf(b: Book, call: Call): Option<Need> {
    if !IsWellFormed(call) || KeyOf(call) in b.operations then None
    else
      match call
      case Reserve(_, requester, amount) => if b.current.None? then Some(Need(requester, amount)) else None
      case Adjust(_, attempt, _, offer) =>
        if AdjustGuard(b, attempt, offer).None? then
          Some(Need(b.current.value.requester.value, offer - b.current.value.reserved))
        else None
      case _ => None
  }

  function Lock(bank: Bank, need: Option<Need>): Bank {
    if need.Some? then Open(bank, need.value.user) else bank
  }

  predicate Covers(bank: Bank, need: Option<Need>) {
    need.Some? ==>
      need.value.user in bank.accounts && need.value.credits <= bank.accounts[need.value.user].Available()
  }

  // A refused call rolls everything back; INSUFFICIENT_CREDITS is committed.
  function Handle(s: State, call: Call): (State, Result<View, Error>) {
    var b := BookOf(s, call.order);
    var bank := Lock(s.bank, NeedOf(b, call));
    var served := Serve(b, call, Covers(bank, NeedOf(b, call)));
    if served.reply.Err? && served.reply.error != InsufficientCredits then (s, served.reply)
    else if KeyOf(call) in b.operations then (s, served.reply)
    else
      match Post(bank, served.entries)
      case None => (s, Err(Integrity))
      case Some(posted) => (State(posted, s.books[call.order := served.book]), served.reply)
  }

  // Terminal outcomes

  function At(t: Option<Time>): Time {
    if t.Some? then t.value else 0
  }

  // Settle on the values PostgreSQL will store.
  function Canonical(out: OrderOutcome): OrderOutcome {
    if out.kind != OrderCompleted then out
    else out.(
      pickedUpAt := if out.pickedUpAt.Some? then Some(Micros(out.pickedUpAt.value)) else None,
      deliveredAt := if out.deliveredAt.Some? then Some(Micros(out.deliveredAt.value)) else None,
      deliveryDuration := Micros(out.deliveryDuration))
  }

  function ReasonOf(out: OrderOutcome): Option<ReleaseReason> {
    match out.kind
    case OrderCancelledBeforePickup => Some(CancelledBeforePickup)
    case OrderExpired => Some(Expired)
    case OrderFailed => Some(Failed)
    case _ => None
  }

  function SettlementOf(out: OrderOutcome): SettlementOutcome {
    if out.kind == OrderCompleted then OutcomeCompleted else OutcomeCancelledAfterPickup
  }

  // Expects a canonical outcome.
  predicate IsValidOutcome(out: OrderOutcome) {
    && out.kind != OrderOutcomeUnspecified
    && (ReasonOf(out).None? ==> out.courier.Some?)
    && (out.kind == OrderCompleted ==>
          && out.pickedUpAt.Some? && out.deliveredAt.Some?
          && out.pickedUpAt.value <= out.deliveredAt.value
          && out.deliveryDuration > 0)
  }

  function LatenessPayout(offer: int, out: OrderOutcome): int {
    if out.kind != OrderCompleted then offer
    else Lateness.Payable(offer, At(out.deliveredAt) - At(out.pickedUpAt), out.deliveryDuration)
  }

  // locks are the accounts to open and lock before posting.
  datatype Ending =
    | Reject(error: Error)
    | Accept(book: Book, stored: Reservation, applied: bool, locks: seq<UserId>, entries: seq<Entry>)

  function EndRelease(b: Book, o: OrderId, reason: ReleaseReason): Ending {
    if b.current.Some? && b.current.value.status == Settled then Reject(OutcomeMismatch)
    else if b.current.Some? && b.current.value.status == Released
         && !(b.current.value.settlement.Some? && b.current.value.settlement.value.releaseReason == Some(reason)) then
      Reject(OutcomeMismatch)
    else
      match FirstRelease(b, o, reason)
      case Refuse(e) => Reject(e)
      case Insufficient => Reject(Integrity)
      case Commit(b1, stored, entries, changed) => Accept(b1, stored, changed, [], entries)
  }

  function EndSettled(b: Book, r: Reservation, out: OrderOutcome): Ending {
    if r.settlement.None? || r.settlement.value.outcome != SettlementOf(out) then Reject(OutcomeMismatch)
    else if r.assignment.None? || r.assignment.value !in b.assignments
         || b.assignments[r.assignment.value].courier != out.courier then Reject(OutcomeMismatch)
    else Accept(b, r, false, [], [])
  }

  function Settle(b: Book, r: Reservation, out: OrderOutcome, rule: PayoutRule): Ending
    requires b.current == Some(r)
  {
    if r.assignment.None? || r.assignment.value !in b.assignments
       || b.assignments[r.assignment.value].status != Applied then Reject(ReservationNotAssigned)
    else
      var a := b.assignments[r.assignment.value];
      if a.courier != out.courier then Reject(OutcomeMismatch)
      else
        var payable := rule(a.offer, out);
        if payable < 0 || payable > r.reserved then Reject(OutcomeMismatch)
        else if a.courier.None? || r.requester.None? then Reject(Integrity)
        else
          var completion :=
            if out.kind == OrderCompleted
            then Some(Completion(At(out.pickedUpAt), At(out.deliveredAt), out.deliveryDuration))
            else None;
          var settlement := Settlement(SettlementOf(out), payable, r.reserved - payable, None, completion);
          var settled := Update(b, r.(status := Settled, reserved := 0, settlement := Some(settlement)));
          Accept(settled, settled.current.value, true, Ascending([r.requester.value, a.courier.value]),
                 [Entry(r.requester.value, Kind.Payout, -payable, -payable, Some(out.order), None),
                  Entry(r.requester.value, Kind.Refund, 0, payable - r.reserved, Some(out.order), None),
                  Entry(a.courier.value, Kind.Payout, payable, 0, Some(out.order), None)])
  }

  // Expects a canonical, valid outcome.
  function End(b: Book, out: OrderOutcome, rule: PayoutRule): Ending {
    if b.current.Some? && b.current.value.requester.Some? && b.current.value.requester.value != out.requester then
      Reject(OutcomeMismatch)
    else if ReasonOf(out).Some? then EndRelease(b, out.order, ReasonOf(out).value)
    else
      match b.current
      case None => Reject(ReservationNotFound)
      case Some(r) =>
        match r.status
        case Settled => EndSettled(b, r, out)
        case Released => Reject(OutcomeMismatch)
        case Held => Reject(ReservationNotAssigned)
        case Assigned => Settle(b, r, out, rule)
  }

  datatype Conclusion = Conclusion(reservation: Reservation, applied: bool)

  function ApplyOutcome(s: State, event: OrderOutcome, rule: PayoutRule): (State, Result<Conclusion, Error>) {
    var out := Canonical(event);
    if !IsValidOutcome(out) then (s, Err(InvalidArgument))
    else
      match End(BookOf(s, out.order), out, rule)
      case Reject(e) => (s, Err(e))
      case Accept(book, stored, applied, locks, entries) =>
        match Post(OpenAll(s.bank, locks), entries)
        case None => (s, Err(Integrity))
        case Some(posted) => (State(posted, s.books[out.order := book]), Ok(Conclusion(stored, applied)))
  }

  // Account locks are taken in ascending user order, each once.

  function InsertId(u: UserId, us: seq<UserId>): seq<UserId> {
    if us == [] then [u]
    else if u == us[0] then us
    else if u < us[0] then [u] + us
    else [us[0]] + InsertId(u, us[1..])
  }

  function Ascending(us: seq<UserId>): seq<UserId> {
    if us == [] then [] else InsertId(us[0], Ascending(us[1..]))
  }

  lemma {:induction false} InsertIdSorts(u: UserId, us: seq<UserId>)
    requires forall i, j :: 0 <= i < j < |us| ==> us[i] < us[j]
    ensures forall i, j :: 0 <= i < j < |InsertId(u, us)| ==> InsertId(u, us)[i] < InsertId(u, us)[j]
    ensures forall x :: x in InsertId(u, us) <==> x == u || x in us
  {
    if us != [] && us[0] < u {
      InsertIdSorts(u, us[1..]);
      var rest := InsertId(u, us[1..]);
      assert InsertId(u, us) == [us[0]] + rest;
      forall i, j | 0 <= i < j < |rest| + 1
        ensures ([us[0]] + rest)[i] < ([us[0]] + rest)[j]
      {
        if i == 0 {
          assert rest[j - 1] in rest;
        }
      }
      assert us == [us[0]] + us[1..];
    }
  }

  /** Every transaction locks its accounts in one global order, so two settlements cannot deadlock on them. */
  lemma {:induction false} LocksAreOrdered(us: seq<UserId>)
    ensures forall i, j :: 0 <= i < j < |Ascending(us)| ==> Ascending(us)[i] < Ascending(us)[j]
    ensures forall x :: x in Ascending(us) <==> x in us
  {
    if us != [] {
      LocksAreOrdered(us[1..]);
      InsertIdSorts(us[0], Ascending(us[1..]));
    }
  }

  // Account openings, calls and outcomes, in the order their transactions commit.
  datatype Event = Opened(user: UserId) | Called(call: Call) | Ended(outcome: OrderOutcome)

  function Next(s: State, e: Event, rule: PayoutRule): State {
    match e
    case Opened(user) => s.(bank := Open(s.bank, user))
    case Called(call) => Handle(s, call).0
    case Ended(out) => ApplyOutcome(s, out, rule).0
  }

  function Run(s: State, events: seq<Event>, rule: PayoutRule): State
    decreases |events|
  {
    if events == [] then s else Run(Next(s, events[0], rule), events[1..], rule)
  }
}
