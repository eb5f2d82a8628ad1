/** Credit's transactions over its tables, updated in place and rolled back on failure. Each one is proved to
    leave exactly the state, and to return exactly the reply, that module Credit gives. */
module CreditStore {
  import opened Common
  import opened Credit

  // What applying a first call came to, before its operation record is saved.
  datatype Tried = Undo(error: Error) | Short | Done(reservation: Reservation)

  // Undo leaves the state open: the caller rolls it back.
  ghost predicate Tries(s: State, call: Call, s': State, tried: Tried) {
    var b := BookOf(s, call.order);
    var bank := Lock(s.bank, NeedOf(b, call));
    match First(b, call, Covers(bank, NeedOf(b, call)))
    case Refuse(e) => tried == Undo(e)
    case Insufficient => tried == Short && s' == State(bank, s.books)
    case Commit(b1, stored, entries, _) =>
      match Post(bank, entries)
      case None => tried == Undo(Integrity)
      case Some(posted) => tried == Done(stored) && s' == State(posted, s.books[call.order := b1])
  }

  // Insufficiency is committed, never refused.
  lemma RefusalIsNoShortage(b: Book, call: Call)
    ensures forall enough :: First(b, call, enough) != Refuse(InsufficientCredits)
  {}

  // A malformed call is refused, and a recorded one replayed, without a change.
  lemma HandlesWithoutChange(s: State, call: Call)
    ensures !IsWellFormed(call) ==> Handle(s, call) == (s, Err(InvalidArgument))
    ensures IsWellFormed(call) && KeyOf(call) in BookOf(s, call.order).operations ==>
              Handle(s, call) == (s, Replay(BookOf(s, call.order), call))
  {
    hide Replay, First, PayloadOf;
  }

  // What a first run commits: its own writes and the record of its operation, or nothing.
  lemma HandlesFirst(s: State, call: Call, s': State, tried: Tried)
    requires IsWellFormed(call) && KeyOf(call) !in BookOf(s, call.order).operations && Tries(s, call, s', tried)
    ensures tried.Undo? ==> Handle(s, call) == (s, Err(tried.error))
    ensures tried.Short? ==>
              Handle(s, call) == (State(s'.bank, s'.books[call.order := Record(BookOf(s', call.order), call, true, 0)]),
                                  Err(InsufficientCredits))
    ensures tried.Done? ==>
              var b := Record(BookOf(s', call.order), call, false, tried.reservation.revision);
              var reply := WithAdjustment(b, tried.reservation);
              Handle(s, call) == if reply.Ok? then (State(s'.bank, s'.books[call.order := b]), reply) else (s, reply)
  {
    hide First, Lock, NeedOf, Replay, Record;
    RefusalIsNoShortage(BookOf(s, call.order), call);
    if tried.Done? {
      var b := Record(BookOf(s', call.order), call, false, tried.reservation.revision);
      assert s'.books[call.order := b] == s.books[call.order := b];
    }
  }

  class Store {
    var accounts: map<UserId, Account>
    var ledger: seq<Entry>
    var books: map<OrderId, Book>
    const rule: PayoutRule

    ghost function Contents(): State
      reads this
    {
      State(Bank(accounts, ledger), books)
    }

    constructor (rule: PayoutRule)
      ensures Contents() == INITIAL && this.rule == rule
    {
      accounts, ledger, books := map[], [], map[];
      this.rule := rule;
    }

    // Rows

    function Find(o: OrderId): (b: Book)
      reads this
      ensures b == BookOf(Contents(), o)
    {
      if o in books then books[o] else EMPTY_BOOK
    }

    method InsertReservation(o: OrderId, r: Reservation) returns (stored: Reservation)
      modifies this`books
      ensures stored == r
      ensures books == old(books)[o := Insert(old(Find(o)), r)]
    {
      books := books[o := Insert(Find(o), r)];
      stored := r;
    }

    // Stores next as the revision after expected. Terminal rows never change.
    method UpdateReservation(o: OrderId, next: Reservation, expected: nat) returns (stored: Option<Reservation>)
      modifies this`books
      ensures var b := old(Find(o));
              if b.current.Some? && b.current.value.revision == expected && !b.current.value.IsTerminal()
              then books == old(books)[o := Update(b, next)] && stored == Update(b, next).current
              else books == old(books) && stored == None
    {
      var b := Find(o);
      if b.current.None? || b.current.value.revision != expected || b.current.value.IsTerminal() {
        return None;
      }
      books := books[o := Update(b, next)];
      stored := books[o].current;
    }

    method InsertAssignment(o: OrderId, attempt: AttemptId, a: Assignment)
      modifies this`books
      ensures var b := old(Find(o));
              books == old(books)[o := b.(assignments := b.assignments[attempt := a])]
    {
      var b := Find(o);
      books := books[o := b.(assignments := b.assignments[attempt := a])];
    }

    // Reports whether an applied assignment was found.
    method RevertAssignment(o: OrderId, attempt: AttemptId) returns (found: bool)
      modifies this`books
      ensures var b := old(Find(o));
              && found == (attempt in b.assignments && b.assignments[attempt].status == Applied)
              && books == if found
                          then old(books)[o := b.(assignments :=
                                 b.assignments[attempt := b.assignments[attempt].(status := Reverted)])]
                          else old(books)
    {
      var b := Find(o);
      found := attempt in b.assignments && b.assignments[attempt].status == Applied;
      if found {
        InsertAssignment(o, attempt, b.assignments[attempt].(status := Reverted));
      }
    }

    method SaveOperation(call: Call, insufficient: bool, revision: nat)
      modifies this`books
      ensures books == old(books)[call.order := Record(old(Find(call.order)), call, insufficient, revision)]
    {
      books := books[call.order := Record(Find(call.order), call, insufficient, revision)];
    }

    // Accounts

    method OpenAccount(user: UserId)
      modifies this`accounts, this`ledger
      ensures Bank(accounts, ledger) == Open(old(Contents().bank), user)
    {
      if user !in accounts {
        accounts := accounts[user := Account(0, 0)];
        accounts := accounts[user := Moved(accounts[user], GrantTo(user))];
        ledger := ledger + [GrantTo(user)];
      }
    }

    method LockAccounts(users: seq<UserId>)
      modifies this`accounts, this`ledger
      ensures Bank(accounts, ledger) == OpenAll(old(Contents().bank), Ascending(users))
    {
      var ids := Ascending(users);
      ghost var was := Contents().bank;
      var i := 0;
      while i < |ids|
        invariant 0 <= i <= |ids|
        invariant OpenAll(was, ids) == OpenAll(Contents().bank, ids[i..])
      {
        OpenAccount(ids[i]);
        assert ids[i..][1..] == ids[i + 1..];
        i := i + 1;
      }
    }

    method PostEntries(entries: seq<Entry>) returns (ok: bool)
      modifies this`accounts, this`ledger
      ensures ok == Post(old(Contents().bank), entries).Some?
      ensures ok ==> Bank(accounts, ledger) == Post(old(Contents().bank), entries).value
    {
      ghost var was := Contents().bank;
      var i := 0;
      while i < |entries|
        invariant 0 <= i <= |entries|
        invariant Post(was, entries) == Post(Contents().bank, entries[i..])
      {
        var e := entries[i];
        assert entries[i..][1..] == entries[i + 1..];
        if !IsEmptyEntry(e) {
          if e.user !in accounts || !IsSound(Moved(accounts[e.user], e)) {
            return false;
          }
          accounts := accounts[e.user := Moved(accounts[e.user], e)];
          ledger := ledger + [e];
        }
        i := i + 1;
      }
      ok := true;
    }

    // First calls

    method TryReserve(o: OrderId, requester: UserId, amount: int) returns (tried: Tried)
      requires amount > 0 && OpReserve !in Find(o).operations
      modifies this
      ensures Tries(old(Contents()), Call.Reserve(o, requester, amount), Contents(), tried)
    {
      var r := Find(o).current;
      if r.Some? {
        return Undo(if r.value.status == Released then ReservationReleased else IdempotencyConflict);
      }
      assert Ascending([requester]) == [requester];
      LockAccounts([requester]);
      if amount > accounts[requester].Available() {
        return Short;
      }
      var stored := InsertReservation(o, Reservation(Some(requester), Held, amount, amount, None, None, 1));
      var ok := PostEntries([Entry(requester, Kind.Reserve, 0, amount, Some(o), None)]);
      tried := if ok then Done(stored) else Undo(Integrity);
    }

    method TryAdjust(o: OrderId, attempt: AttemptId, courier: UserId, offer: int) returns (tried: Tried)
      requires offer > 0 && OpAdjust(attempt) !in Find(o).operations
      modifies this
      ensures Tries(old(Contents()), Call.Adjust(o, attempt, courier, offer), Contents(), tried)
    {
      var b := Find(o);
      var closed := RequireOpen(b);
      if closed.Some? {
        return Undo(closed.value);
      }
      var r := b.current.value;
      if offer < r.original {
        return Undo(InvalidArgument);
      }
      if attempt in b.assignments && b.assignments[attempt].status == Reverted {
        return Undo(AdjustmentReverted);
      }
      if attempt in b.assignments || r.status == Assigned {
        return Undo(AdjustmentPending);
      }
      if r.requester.None? {
        return Undo(Integrity);
      }

      var requester := r.requester.value;
      var delta := offer - r.reserved;
      assert Ascending([requester]) == [requester];
      LockAccounts([requester]);
      if delta > accounts[requester].Available() {
        return Short;
      }
      InsertAssignment(o, attempt, Assignment(Some(courier), offer, Applied));
      var next := UpdateReservation(o, r.(status := Assigned, reserved := offer, assignment := Some(attempt)),
                                    r.revision);
      if next.None? {
        return Undo(Aborted);
      }
      var ok := PostEntries([Entry(requester, Kind.Adjust, 0, delta, Some(o), Some(attempt))]);
      tried := if ok then Done(next.value) else Undo(Integrity);
    }

    method TryRevert(o: OrderId, attempt: AttemptId) returns (tried: Tried)
      requires OpRevert(attempt) !in Find(o).operations
      modifies this
      ensures Tries(old(Contents()), Call.Revert(o, attempt), Contents(), tried)
    {
      var b := Find(o);
      if b.current.None? {
        return Undo(ReservationNotFound);
      }
      var r := b.current.value;
      if r.status == Settled {
        return Undo(ReservationSettled);
      }
      if attempt !in b.assignments {
        InsertAssignment(o, attempt, Assignment(None, 0, Reverted));
        return Done(r);
      }
      if b.assignments[attempt].status == Reverted {
        return Done(r);
      }
      var found := RevertAssignment(o, attempt);
      if !found {
        return Undo(Aborted);
      }
      if r.status != Assigned || r.assignment != Some(attempt) {
        return Done(r);
      }
      if r.requester.None? {
        return Undo(Integrity);
      }
      var next := UpdateReservation(o, r.(status := Held, reserved := r.original, assignment := None), r.revision);
      if next.None? {
        return Undo(Aborted);
      }
      var ok := PostEntries(
        [Entry(r.requester.value, Kind.Revert, 0, r.original - r.reserved, Some(o), Some(attempt))]);
      tried := if ok then Done(next.value) else Undo(Integrity);
    }

    // Shared by ReleaseReservation and the release outcomes; changed is false for a repeat.
    method TryRelease(o: OrderId, reason: ReleaseReason) returns (tried: Tried, changed: bool)
      modifies this
      ensures match FirstRelease(old(Find(o)), o, reason)
              case Refuse(e) => tried == Undo(e)
              case Insufficient => false
              case Commit(b, stored, entries, moved) =>
                match Post(old(Contents().bank), entries)
                case None => tried == Undo(Integrity)
                case Some(posted) =>
                  && tried == Done(stored) && changed == moved
                  && Contents() == State(posted, old(books)[o := b])
    {
      var b := Find(o);
      changed := true;
      if b.current.None? {
        var tombstone := InsertReservation(
          o, Reservation(None, Released, 0, 0, None, ReleasedAs(0, reason), 1));
        return Done(tombstone), true;
      }
      var r := b.current.value;
      if r.status == Settled {
        return Undo(ReservationSettled), false;
      }
      if r.status == Released {
        assert books[o := b] == books;
        return Done(r), false;
      }
      if r.requester.None? {
        return Undo(Integrity), false;
      }
      var next := UpdateReservation(
        o, r.(status := Released, reserved := 0, settlement := ReleasedAs(r.reserved, reason)), r.revision);
      if next.None? {
        return Undo(Aborted), false;
      }
      var ok := PostEntries([Entry(r.requester.value, Kind.Release, 0, -r.reserved, Some(o), None)]);
      tried := if ok then Done(next.value) else Undo(Integrity);
    }

    method Try(call: Call) returns (tried: Tried)
      requires IsWellFormed(call) && KeyOf(call) !in Find(call.order).operations
      modifies this
      ensures Tries(old(Contents()), call, Contents(), tried)
    {
      match call {
        case Reserve(o, requester, amount) => tried := TryReserve(o, requester, amount);
        case Adjust(o, attempt, courier, offer) => tried := TryAdjust(o, attempt, courier, offer);
        case Revert(o, attempt) => tried := TryRevert(o, attempt);
        case Release(o, reason) =>
          var changed: bool;
          tried, changed := TryRelease(o, reason);
      }
    }

    // Runs a call at most once per operation key, in one transaction.
    method Mutate(call: Call) returns (reply: Result<View, Error>)
      modifies this
      ensures (Contents(), reply) == Handle(old(Contents()), call)
    {
      hide Handle, Tries, Replay, Record, WithAdjustment;
      ghost var before := Contents();
      HandlesWithoutChange(before, call);
      if !IsWellFormed(call) {
        return Err(InvalidArgument);
      }
      var accounts0, ledger0, books0 := accounts, ledger, books;
      var b := Find(call.order);
      if KeyOf(call) in b.operations {
        return Replay(b, call);
      }

      var tried := Try(call);
      HandlesFirst(before, call, Contents(), tried);
      match tried {
        case Undo(e) =>
          reply := Err(e);
        case Short =>
          SaveOperation(call, true, 0);
          return Err(InsufficientCredits);
        case Done(stored) =>
          SaveOperation(call, false, stored.revision);
          reply := WithAdjustment(Find(call.order), stored);
      }
      if reply.Err? {
        accounts, ledger, books := accounts0, ledger0, books0;
      }
    }

    method Reserve(o: OrderId, requester: UserId, amount: int) returns (reply: Result<View, Error>)
      modifies this
      ensures (Contents(), reply) == Handle(old(Contents()), Call.Reserve(o, requester, amount))
    {
      reply := Mutate(Call.Reserve(o, requester, amount));
    }

    method AdjustReservation(o: OrderId, attempt: AttemptId, courier: UserId, offer: int)
      returns (reply: Result<View, Error>)
      modifies this
      ensures (Contents(), reply) == Handle(old(Contents()), Call.Adjust(o, attempt, courier, offer))
    {
      reply := Mutate(Call.Adjust(o, attempt, courier, offer));
    }

    method RevertAdjustment(o: OrderId, attempt: AttemptId) returns (reply: Result<View, Error>)
      modifies this
      ensures (Contents(), reply) == Handle(old(Contents()), Call.Revert(o, attempt))
    {
      reply := Mutate(Call.Revert(o, attempt));
    }

    method ReleaseReservation(o: OrderId, reason: ReleaseReason) returns (reply: Result<View, Error>)
      modifies this
      ensures (Contents(), reply) == Handle(old(Contents()), Call.Release(o, reason))
    {
      reply := Mutate(Call.Release(o, reason));
    }

    // Outcomes

    method SettleAssigned(r: Reservation, out: OrderOutcome) returns (tried: Tried)
      requires Find(out.order).current == Some(r) && r.status == Assigned
      modifies this
      ensures match Settle(old(Find(out.order)), r, out, rule)
              case Reject(e) => tried == Undo(e)
              case Accept(b, stored, _, locks, entries) =>
                match Post(OpenAll(old(Contents().bank), locks), entries)
                case None => tried == Undo(Integrity)
                case Some(posted) => tried == Done(stored) && Contents() == State(posted, old(books)[out.order := b])
    {
      hide Post, OpenAll, Ascending;
      var b := Find(out.order);
      if r.assignment.None? || r.assignment.value !in b.assignments {
        return Undo(ReservationNotAssigned);
      }
      var a := b.assignments[r.assignment.value];
      if a.status != Applied {
        return Undo(ReservationNotAssigned);
      }
      if a.courier != out.courier {
        return Undo(OutcomeMismatch);
      }
      var payable := rule(a.offer, out);
      if payable < 0 || payable > r.reserved {
        return Undo(OutcomeMismatch);
      }
      if a.courier.None? || r.requester.None? {
        return Undo(Integrity);
      }

      var completion := None;
      if out.kind == OrderCompleted {
        completion := Some(Completion(At(out.pickedUpAt), At(out.deliveredAt), out.deliveryDuration));
      }
      var settlement := Settlement(SettlementOf(out), payable, r.reserved - payable, None, completion);
      LockAccounts([r.requester.value, a.courier.value]);
      var next := UpdateReservation(
        out.order, r.(status := Settled, reserved := 0, settlement := Some(settlement)), r.revision);
      if next.None? {
        return Undo(Aborted);
      }
      var ok := PostEntries(
        [Entry(r.requester.value, Kind.Payout, -payable, -payable, Some(out.order), None),
         Entry(r.requester.value, Kind.Refund, 0, payable - r.reserved, Some(out.order), None),
         Entry(a.courier.value, Kind.Payout, payable, 0, Some(out.order), None)]);
      tried := if ok then Done(next.value) else Undo(Integrity);
    }

    method ApplyOrderOutcome(event: OrderOutcome) returns (reply: Result<Conclusion, Error>)
      modifies this
      ensures (Contents(), reply) == ApplyOutcome(old(Contents()), event, rule)
    {
      var out := Canonical(event);
      if !IsValidOutcome(out) {
        return Err(InvalidArgument);
      }
      var accounts0, ledger0, books0 := accounts, ledger, books;
      var b := Find(out.order);
      if b.current.Some? && b.current.value.requester.Some? && b.current.value.requester.value != out.requester {
        return Err(OutcomeMismatch);
      }

      var tried: Tried;
      var applied := true;
      var reason := ReasonOf(out);
      if reason.Some? {
        if b.current.Some? && b.current.value.status == Settled {
          return Err(OutcomeMismatch);
        }
        if b.current.Some? && b.current.value.status == Released
           && (b.current.value.settlement.None? || b.current.value.settlement.value.releaseReason != reason) {
          return Err(OutcomeMismatch);
        }
        tried, applied := TryRelease(out.order, reason.value);
      } else {
        if b.current.None? {
          return Err(ReservationNotFound);
        }
        var r := b.current.value;
        match r.status {
          case Settled =>
            if r.settlement.None? || r.settlement.value.outcome != SettlementOf(out) {
              return Err(OutcomeMismatch);
            }
            if r.assignment.None? || r.assignment.value !in b.assignments
               || b.assignments[r.assignment.value].courier != out.courier {
              return Err(OutcomeMismatch);
            }
            assert books[out.order := b] == books;
            return Ok(Conclusion(r, false));
          case Released =>
            return Err(OutcomeMismatch);
          case Held =>
            return Err(ReservationNotAssigned);
          case Assigned =>
            tried := SettleAssigned(r, out);
        }
      }
      match tried {
        case Done(stored) =>
          reply := Ok(Conclusion(stored, applied));
        case Undo(e) =>
          accounts, ledger, books := accounts0, ledger0, books0;
          reply := Err(e);
        case Short =>
          assert false;
      }
    }
  }
}
