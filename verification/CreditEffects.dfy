/** What each first call and each outcome answers and moves, written out over the accounts and the reservation before
    and after, case by case. */
module CreditEffects {
  import opened Common
  import opened Credit
  import opened CreditBooks
  import opened CreditLedger
  import opened CreditSafety
  import opened CreditFences
  import Lateness

  // A user's account, or the one the first transaction to need it opens.
  function AccountOf(s: State, u: UserId): Account {
    if u in s.bank.accounts then s.bank.accounts[u] else Account(100, 0)
  }

  ghost predicate SameElsewhere(s: State, s': State, o: OrderId) {
    forall x :: x != o ==> BookOf(s', x) == BookOf(s, x)
  }

  // Only u's reserved credits move, by delta.
  ghost predicate MovesHold(s: State, s': State, u: UserId, delta: int) {
    && s'.bank.accounts.Keys == s.bank.accounts.Keys + {u}
    && forall x ::
         && AccountOf(s', x).balance == AccountOf(s, x).balance
         && AccountOf(s', x).reserved == AccountOf(s, x).reserved + if x == u then delta else 0
  }

  // Posting

  lemma OpensAs(s: State, u: UserId)
    ensures MovesHold(s, s.(bank := Open(s.bank, u)), u, 0)
  {}

  lemma PostsOne(bank: Bank, e: Entry)
    requires Post(bank, [e]).Some? && e.user in bank.accounts
    ensures Post(bank, [e]).value.accounts == bank.accounts[e.user := Moved(bank.accounts[e.user], e)]
  {
    assert [e][1..] == [];
  }

  // The bank and the book that a call commits.
  lemma CallCommits(s: State, call: Call)
    requires StateOk(s)
    ensures var b := BookOf(s, call.order);
            var served := ServedIn(s, call);
            var s' := Handle(s, call).0;
            && Handle(s, call).1 == served.reply
            && BookOf(s', call.order) == served.book && SameElsewhere(s, s', call.order)
            && (if (served.reply.Err? && served.reply.error != InsufficientCredits) || KeyOf(call) in b.operations
                then s' == s else Post(Lock(s.bank, NeedOf(b, call)), served.entries) == Some(s'.bank))
  {
    hide Serve, StateOk, NeedOf, Covers, Lock;
    HandleServes(s, call);
    ServePosts(s, call);
  }

  // Calls

  // A first Reserve, up to the account it asks.
  lemma ServesReserve(b: Book, o: OrderId, u: UserId, amount: int, enough: bool)
    requires BookOk(b) && OpReserve !in b.operations
    ensures var call := Call.Reserve(o, u, amount);
            var served := Serve(b, call, enough);
            && (amount <= 0 ==> served.reply == Err(InvalidArgument))
            && (0 < amount && b.current.Some? ==> served.reply == Err(Error.ReservationReleased))
            && (0 < amount && b.current.None? ==>
                  && NeedOf(b, call) == Some(Need(u, amount))
                  && if enough then
                       var r := Reservation(Some(u), Held, amount, amount, None, None, 1);
                       && served.reply == Ok(View(r, None)) && served.book.current == Some(r)
                       && served.entries == [Entry(u, Kind.Reserve, 0, amount, Some(o), None)]
                     else
                       && served.reply == Err(InsufficientCredits) && served.book.current.None?
                       && served.entries == [])
  {
    if b.current.Some? {
      assert b.history[|b.history| - 1] == b.current.value;
    }
  }

  /** A first Reserve: a creation's hold is granted exactly if the requester's available credits cover it, 100 of them
      for a new user. Nothing else decides it but a malformed amount and an order released before it was reserved. */
  lemma ReserveExactly(s: State, o: OrderId, u: UserId, amount: int)
    requires StateOk(s) && OpReserve !in BookOf(s, o).operations
    ensures var (s', reply) := Handle(s, Call.Reserve(o, u, amount));
            var a := AccountOf(s, u);
            && SameElsewhere(s, s', o)
            && (amount <= 0 ==> reply == Err(InvalidArgument) && s' == s)
            && (0 < amount && BookOf(s, o).current.Some? ==> reply == Err(Error.ReservationReleased) && s' == s)
            && (0 < amount && BookOf(s, o).current.None? && amount <= a.balance - a.reserved ==>
                  var r := Reservation(Some(u), Held, amount, amount, None, None, 1);
                  && reply == Ok(View(r, None)) && BookOf(s', o).current == Some(r)
                  && MovesHold(s, s', u, amount))
            && (0 < amount && BookOf(s, o).current.None? && a.balance - a.reserved < amount ==>
                  && reply == Err(InsufficientCredits) && BookOf(s', o).current.None?
                  && MovesHold(s, s', u, 0))
  {
    hide Serve, StateOk;
    var call := Call.Reserve(o, u, amount);
    var b := BookOf(s, o);
    BookIsOk(s, o);
    CallCommits(s, call);
    ServesReserve(b, o, u, amount, EnoughFor(s, call));
    if 0 < amount && b.current.None? {
      OpensAs(s, u);
      var served := ServedIn(s, call);
      if served.entries != [] {
        PostsOne(Open(s.bank, u), served.entries[0]);
      }
    }
  }

  // What a first Adjust asks before it looks at the account.
  lemma ServesAdjust(b: Book, o: OrderId, a: AttemptId, courier: UserId, offer: int, enough: bool)
    requires BookOk(b) && OpAdjust(a) !in b.operations && 0 < offer
    requires b.current.Some? && b.current.value.status == Held && b.current.value.original <= offer && !IsFenced(b, a)
    ensures var call, r := Call.Adjust(o, a, courier, offer), b.current.value;
            var served := Serve(b, call, enough);
            && r.requester.Some? && r.reserved == r.original
            && NeedOf(b, call) == Some(Need(r.requester.value, offer - r.reserved))
            && if enough then
                 var r' := r.(status := Assigned, reserved := offer, assignment := Some(a), revision := r.revision + 1);
                 && served.reply == Ok(View(r', Some(Adjustment(a, Some(courier), r.original, offer))))
                 && served.book.current == Some(r')
                 && served.book.assignments == b.assignments[a := Assignment(Some(courier), offer, Applied)]
                 && served.entries == [Entry(r.requester.value, Kind.Adjust, 0, offer - r.reserved, Some(o), Some(a))]
               else
                 && served.reply == Err(InsufficientCredits) && served.book.current == b.current
                 && served.book.assignments == b.assignments && served.entries == []
  {
    assert b.history[|b.history| - 1] == b.current.value;
  }

  /** A first Adjust on a held order is granted exactly if the requester's available credits cover what the offer adds
      to the hold, and the hold becomes the offer. */
  lemma AdjustExactly(s: State, o: OrderId, a: AttemptId, courier: UserId, offer: int)
    requires StateOk(s) && OpAdjust(a) !in BookOf(s, o).operations && 0 < offer
    requires var b := BookOf(s, o);
             && b.current.Some? && b.current.value.status == Held && b.current.value.original <= offer
             && !IsFenced(b, a)
    ensures var (s', reply) := Handle(s, Call.Adjust(o, a, courier, offer));
            var b, b', r := BookOf(s, o), BookOf(s', o), BookOf(s, o).current.value;
            && r.requester.Some? && r.requester.value in s.bank.accounts && SameElsewhere(s, s', o)
            && var account := s.bank.accounts[r.requester.value];
               if offer - r.reserved <= account.balance - account.reserved then
                 var r' := r.(status := Assigned, reserved := offer, assignment := Some(a), revision := r.revision + 1);
                 && reply == Ok(View(r', Some(Adjustment(a, Some(courier), r.original, offer))))
                 && b'.current == Some(r')
                 && b'.assignments == b.assignments[a := Assignment(Some(courier), offer, Applied)]
                 && MovesHold(s, s', r.requester.value, offer - r.reserved)
               else
                 && reply == Err(InsufficientCredits) && b'.current == b.current && b'.assignments == b.assignments
                 && s'.bank.accounts == s.bank.accounts
  {
    hide Serve, StateOk, BookOk;
    var call := Call.Adjust(o, a, courier, offer);
    var b := BookOf(s, o);
    BookIsOk(s, o);
    RequesterIsKnown(s, o);
    CallCommits(s, call);
    ServesAdjust(b, o, a, courier, offer, EnoughFor(s, call));
    var served := ServedIn(s, call);
    if served.entries != [] {
      PostsOne(s.bank, served.entries[0]);
    }
  }

  /** In any other state a first Adjust is refused for the reason that the state names, and changes nothing. */
  lemma AdjustRefusedExactly(s: State, o: OrderId, a: AttemptId, courier: UserId, offer: int)
    requires StateOk(s) && OpAdjust(a) !in BookOf(s, o).operations
    ensures var (s', reply) := Handle(s, Call.Adjust(o, a, courier, offer));
            var b := BookOf(s, o);
            var open := b.current.Some? && (b.current.value.status == Held || b.current.value.status == Assigned);
            && (offer <= 0 ==> reply == Err(InvalidArgument) && s' == s)
            && (0 < offer && b.current.None? ==> reply == Err(ReservationNotFound) && s' == s)
            && (0 < offer && b.current.Some? && b.current.value.status == Released ==>
                  reply == Err(Error.ReservationReleased) && s' == s)
            && (0 < offer && b.current.Some? && b.current.value.status == Settled ==>
                  reply == Err(ReservationSettled) && s' == s)
            && (0 < offer && open && offer < b.current.value.original ==> reply == Err(InvalidArgument) && s' == s)
            && (0 < offer && open && b.current.value.original <= offer && IsFenced(b, a) ==>
                  reply == Err(AdjustmentReverted) && s' == s)
            && (0 < offer && open && b.current.value.original <= offer && !IsFenced(b, a) ==>
                  b.current.value.status == Assigned ==> reply == Err(AdjustmentPending) && s' == s)
  {
    hide StateOk, BookOk;
    CallCommits(s, Call.Adjust(o, a, courier, offer));
  }

  // What is left of an attempt's row once it is fenced.
  ghost predicate FencesOnly(b: Book, b': Book, a: AttemptId) {
    && b'.assignments.Keys == b.assignments.Keys + {a} && b'.assignments[a].status == Reverted
    && (a in b.assignments ==>
          && b'.assignments[a].courier == b.assignments[a].courier
          && b'.assignments[a].offer == b.assignments[a].offer)
    && (a !in b.assignments ==> b'.assignments[a].courier.None?)
    && forall x :: x in b.assignments && x != a ==> b'.assignments[x] == b.assignments[x]
  }

  lemma ServesRevert(b: Book, o: OrderId, a: AttemptId, enough: bool)
    requires BookOk(b) && OpRevert(a) !in b.operations
    requires b.current.Some? && b.current.value.status != Settled
    ensures var r := b.current.value;
            var served := Serve(b, Call.Revert(o, a), enough);
            && FencesOnly(b, served.book, a)
            && if r.status == Assigned && r.assignment == Some(a) then
                 var r' := r.(status := Held, reserved := r.original, assignment := None, revision := r.revision + 1);
                 && r.requester.Some? && served.reply == Ok(View(r', None)) && served.book.current == Some(r')
                 && served.entries
                    == [Entry(r.requester.value, Kind.Revert, 0, r.original - r.reserved, Some(o), Some(a))]
               else served.reply.Ok? && served.reply.value.reservation == r && served.book.current == b.current
                    && served.entries == []
  {
    hide RowsOwned, OperationsOk;
    assert b.history[|b.history| - 1] == b.current.value;
  }

  /** A first Revert fences its attempt; when that attempt is the active one the hold goes back to the original amount,
      and in any other case no reservation and no credit moves. */
  lemma RevertExactly(s: State, o: OrderId, a: AttemptId)
    requires StateOk(s) && OpRevert(a) !in BookOf(s, o).operations
    ensures var (s', reply) := Handle(s, Call.Revert(o, a));
            var b, b' := BookOf(s, o), BookOf(s', o);
            && SameElsewhere(s, s', o)
            && (b.current.None? ==> reply == Err(ReservationNotFound) && s' == s)
            && (b.current.Some? && b.current.value.status == Settled ==> reply == Err(ReservationSettled) && s' == s)
            && (b.current.Some? && b.current.value.status != Settled ==>
                  var r := b.current.value;
                  && FencesOnly(b, b', a)
                  && if r.status == Assigned && r.assignment == Some(a) then
                       var r' := r.(status := Held, reserved := r.original, assignment := None,
                                    revision := r.revision + 1);
                       && reply == Ok(View(r', None)) && b'.current == Some(r')
                       && r.requester.Some? && MovesHold(s, s', r.requester.value, r.original - r.reserved)
                     else
                       && reply.Ok? && reply.value.reservation == r && b'.current == b.current
                       && s'.bank == s.bank)
  {
    hide StateOk, BookOk;
    var call, b := Call.Revert(o, a), BookOf(s, o);
    BookIsOk(s, o);
    RequesterIsKnown(s, o);
    CallCommits(s, call);
    if b.current.Some? && b.current.value.status != Settled {
      hide Serve, FencesOnly;
      ServesRevert(b, o, a, EnoughFor(s, call));
      var served := ServedIn(s, call);
      if served.entries != [] {
        PostsOne(s.bank, served.entries[0]);
      }
    }
  }

  // The reservation as a release leaves it, with the hold returned.
  function ReleasedFrom(r: Reservation, reason: ReleaseReason): Reservation {
    r.(status := Released, reserved := 0, revision := r.revision + 1,
       settlement := Some(Settlement(OutcomeReleased, 0, r.reserved, Some(reason), None)))
  }

  function Tombstone(reason: ReleaseReason): Reservation {
    Reservation(None, Released, 0, 0, None, Some(Settlement(OutcomeReleased, 0, 0, Some(reason), None)), 1)
  }

  lemma ServesRelease(b: Book, o: OrderId, reason: ReleaseReason, enough: bool)
    requires BookOk(b) && OpRelease !in b.operations
    ensures var served := Serve(b, Call.Release(o, reason), enough);
            && served.book.assignments == b.assignments
            && (b.current.None? ==>
                  && served.reply == Ok(View(Tombstone(reason), None)) && served.book.current == Some(Tombstone(reason))
                  && served.entries == [])
            && (b.current.Some? && b.current.value.status == Settled ==> served.reply == Err(ReservationSettled))
            && (b.current.Some? && b.current.value.status == Released ==>
                  && served.reply == Ok(View(b.current.value, None)) && served.book.current == b.current
                  && served.entries == [])
            && (b.current.Some? && !b.current.value.IsTerminal() ==>
                  var r := b.current.value;
                  && r.requester.Some? && served.reply == Ok(View(ReleasedFrom(r, reason), None))
                  && served.book.current == Some(ReleasedFrom(r, reason))
                  && served.entries == [Entry(r.requester.value, Kind.Release, 0, -r.reserved, Some(o), None)])
  {
    if b.current.Some? {
      assert b.history[|b.history| - 1] == b.current.value;
    }
  }

  /** A first Release returns exactly the whole hold to its requester; an order Credit has not seen leaves a tombstone,
      a released one stays as it is, and a settled one refuses. */
  lemma ReleaseExactly(s: State, o: OrderId, reason: ReleaseReason)
    requires StateOk(s) && OpRelease !in BookOf(s, o).operations
    ensures var (s', reply) := Handle(s, Call.Release(o, reason));
            var b, b' := BookOf(s, o), BookOf(s', o);
            && SameElsewhere(s, s', o) && b'.assignments == b.assignments
            && (b.current.None? ==>
                  && reply == Ok(View(Tombstone(reason), None)) && b'.current == Some(Tombstone(reason))
                  && s'.bank == s.bank)
            && (b.current.Some? && b.current.value.status == Settled ==> reply == Err(ReservationSettled) && s' == s)
            && (b.current.Some? && b.current.value.status == Released ==>
                  && reply == Ok(View(b.current.value, None)) && b'.current == b.current && s'.bank == s.bank)
            && (b.current.Some? && !b.current.value.IsTerminal() ==>
                  var r := b.current.value;
                  && reply == Ok(View(ReleasedFrom(r, reason), None)) && b'.current == Some(ReleasedFrom(r, reason))
                  && r.requester.Some? && MovesHold(s, s', r.requester.value, -r.reserved))
  {
    hide StateOk, BookOk, Serve;
    var call, b := Call.Release(o, reason), BookOf(s, o);
    BookIsOk(s, o);
    RequesterIsKnown(s, o);
    CallCommits(s, call);
    ServesRelease(b, o, reason, EnoughFor(s, call));
    if b.current.Some? && !b.current.value.IsTerminal() {
      PostsOne(s.bank, ServedIn(s, call).entries[0]);
    }
  }

  // Outcomes

  lemma {:induction false} PostMoves(bank: Bank, es: seq<Entry>)
    requires Post(bank, es).Some?
    ensures var posted := Post(bank, es).value;
            && posted.accounts.Keys == bank.accounts.Keys
            && forall u :: u in bank.accounts ==>
                 && posted.accounts[u].balance == bank.accounts[u].balance + Added(es, UserBalance(u))
                 && posted.accounts[u].reserved == bank.accounts[u].reserved + Added(es, UserReserved(u))
    decreases |es|
  {
    if es != [] {
      if IsEmptyEntry(es[0]) {
        PostMoves(bank, es[1..]);
      } else {
        PostMoves(PostOne(bank, es[0]), es[1..]);
      }
    }
  }

  lemma {:induction false} OpensAllAs(s: State, users: seq<UserId>)
    ensures var s' := s.(bank := OpenAll(s.bank, users));
            && s'.bank.accounts.Keys == s.bank.accounts.Keys + (set u | u in users)
            && forall x :: AccountOf(s', x) == AccountOf(s, x)
    decreases |users|
  {
    if users != [] {
      var s1 := s.(bank := Open(s.bank, users[0]));
      OpensAs(s, users[0]);
      OpensAllAs(s1, users[1..]);
      assert (set u | u in users) == {users[0]} + (set u | u in users[1..]);
    }
  }

  // What an accepted outcome commits; one that is refused or has been applied before changes nothing.
  lemma OutcomeCommits(s: State, event: OrderOutcome)
    requires StateOk(s)
    ensures var (s', reply) := ApplyOutcome(s, event, LatenessPayout);
            && SameElsewhere(s, s', event.order)
            && (reply.Err? || !reply.value.applied ==> s' == s)
            && (reply.Ok? ==>
                  var out := Canonical(event);
                  var end := End(BookOf(s, event.order), out, LatenessPayout);
                  && IsValidOutcome(out) && end.Accept? && reply.value == Conclusion(end.stored, end.applied)
                  && BookOf(s', event.order) == end.book
                  && Post(OpenAll(s.bank, end.locks), end.entries) == Some(s'.bank))
  {
    var out := Canonical(event);
    BookIsOk(s, out.order);
    if IsValidOutcome(out) && End(BookOf(s, out.order), out, LatenessPayout).Accept? {
      EndsOk(s, out, LatenessPayout);
      AcceptsAgreement(BookOf(s, out.order), out);
      if !End(BookOf(s, out.order), out, LatenessPayout).applied {
        AgainChangesNothing(BookOf(s, out.order), out);
        assert s.books[out.order := BookOf(s, out.order)] == s.books;
      }
    }
  }

  // The courier's share of a hold: by lateness for a delivery, all of it for a cancellation after pickup. Instants
  // count in whole microseconds.
  function ShareOf(hold: int, event: OrderOutcome): int
    requires event.kind == OrderCompleted ==> event.pickedUpAt.Some? && event.deliveredAt.Some?
  {
    if event.kind == OrderCompleted then
      Lateness.Payable(hold, Micros(event.deliveredAt.value) - Micros(event.pickedUpAt.value),
                       Micros(event.deliveryDuration))
    else hold
  }

  // The reservation once share of its hold is the courier's.
  function SettledFrom(r: Reservation, event: OrderOutcome, share: int): Reservation
    requires event.kind == OrderCompleted ==> event.pickedUpAt.Some? && event.deliveredAt.Some?
  {
    var completion :=
      if event.kind == OrderCompleted then
        Some(Completion(Micros(event.pickedUpAt.value), Micros(event.deliveredAt.value),
                        Micros(event.deliveryDuration)))
      else None;
    var outcome := if event.kind == OrderCompleted then OutcomeCompleted else OutcomeCancelledAfterPickup;
    r.(status := Settled, reserved := 0, revision := r.revision + 1,
       settlement := Some(Settlement(outcome, share, r.reserved - share, None, completion)))
  }

  predicate IsSettlement(event: OrderOutcome) {
    event.kind == OrderCompleted || event.kind == OrderCancelledAfterPickup
  }

  lemma EndsAsSettlement(b: Book, event: OrderOutcome)
    requires BookOk(b) && IsSettlement(event) && IsValidOutcome(Canonical(event))
    requires End(b, Canonical(event), LatenessPayout).Accept? && End(b, Canonical(event), LatenessPayout).applied
    ensures b.current.Some? && b.current.value.status == Assigned && event.courier.Some?
    ensures b.current.value.requester == Some(event.requester)
    ensures event.kind == OrderCompleted ==> event.pickedUpAt.Some? && event.deliveredAt.Some?
    ensures var r, end := b.current.value, End(b, Canonical(event), LatenessPayout);
            var share := ShareOf(r.reserved, event);
            && 0 <= share <= r.reserved
            && end.stored == SettledFrom(r, event, share) && end.book.current == Some(end.stored)
            && end.book.assignments == b.assignments
            && end.locks == Ascending([event.requester, event.courier.value])
            && end.entries == [Entry(event.requester, Kind.Payout, -share, -share, Some(event.order), None),
                               Entry(event.requester, Kind.Refund, 0, share - r.reserved, Some(event.order), None),
                               Entry(event.courier.value, Kind.Payout, share, 0, Some(event.order), None)]
  {
    hide Ascending;
    assert b.history[|b.history| - 1] == b.current.value;
  }

  // share goes from the requester to the courier and the requester's hold is freed.
  ghost predicate Pays(s: State, s': State, requester: UserId, courier: UserId, hold: int, share: int) {
    && s'.bank.accounts.Keys == s.bank.accounts.Keys + {courier}
    && forall u ::
         && AccountOf(s', u).balance == AccountOf(s, u).balance
            + (if u == courier then share else 0) - (if u == requester then share else 0)
         && AccountOf(s', u).reserved == AccountOf(s, u).reserved - if u == requester then hold else 0
  }

  lemma EntriesPay(s: State, s': State, o: OrderId, requester: UserId, courier: UserId, hold: int, share: int)
    requires requester in s.bank.accounts
    requires Post(OpenAll(s.bank, Ascending([requester, courier])),
                  [Entry(requester, Kind.Payout, -share, -share, Some(o), None),
                   Entry(requester, Kind.Refund, 0, share - hold, Some(o), None),
                   Entry(courier, Kind.Payout, share, 0, Some(o), None)]) == Some(s'.bank)
    ensures Pays(s, s', requester, courier, hold, share)
  {
    hide Post, OpenAll, Ascending, Added;
    var x := Entry(requester, Kind.Payout, -share, -share, Some(o), None);
    var y := Entry(requester, Kind.Refund, 0, share - hold, Some(o), None);
    var z := Entry(courier, Kind.Payout, share, 0, Some(o), None);
    var locks := Ascending([requester, courier]);
    LocksAreOrdered([requester, courier]);
    OpensAllAs(s, locks);
    assert (set u | u in locks) == {requester, courier};
    PostMoves(OpenAll(s.bank, locks), [x, y, z]);
    forall u
      ensures Added([x, y, z], UserBalance(u))
           == (if u == courier then share else 0) - (if u == requester then share else 0)
      ensures Added([x, y, z], UserReserved(u)) == if u == requester then -hold else 0
    {
      AddedThree(x, y, z, UserBalance(u));
      AddedThree(x, y, z, UserReserved(u));
    }
  }

  /** Settlement moves exactly the money that the lateness rule gives: the courier's balance rises by the share and the
      requester's falls by it, the requester's whole hold is freed, no other account moves, and the stored settlement
      says the same. Nothing is asked of who the courier is. */
  lemma SettlementExactly(s: State, event: OrderOutcome)
    requires StateOk(s) && IsSettlement(event)
    requires var reply := ApplyOutcome(s, event, LatenessPayout).1; reply.Ok? && reply.value.applied
    ensures var (s', reply) := ApplyOutcome(s, event, LatenessPayout);
            var b, b' := BookOf(s, event.order), BookOf(s', event.order);
            && b.current.Some? && b.current.value.status == Assigned && event.courier.Some?
            && b.current.value.requester == Some(event.requester) && event.requester in s.bank.accounts
            && (event.kind == OrderCompleted ==> event.pickedUpAt.Some? && event.deliveredAt.Some?)
            && var hold, share := b.current.value.reserved, ShareOf(b.current.value.reserved, event);
               && 0 <= share <= hold
               && Pays(s, s', event.requester, event.courier.value, hold, share)
               && reply.value.reservation == SettledFrom(b.current.value, event, share)
               && b'.current == Some(reply.value.reservation) && b'.assignments == b.assignments
               && SameElsewhere(s, s', event.order)
  {
    hide StateOk, End, Post, OpenAll, Ascending, BookOk, IsValidOutcome, LatenessPayout, Pays;
    var b := BookOf(s, event.order);
    BookIsOk(s, event.order);
    OutcomeCommits(s, event);
    EndsAsSettlement(b, event);
    RequesterIsKnown(s, event.order);
    var hold := b.current.value.reserved;
    EntriesPay(s, ApplyOutcome(s, event, LatenessPayout).0, event.order, event.requester, event.courier.value, hold,
               ShareOf(hold, event));
  }

  // The reason that a release outcome names.
  function ReleaseOf(event: OrderOutcome): Option<ReleaseReason> {
    match event.kind
    case OrderCancelledBeforePickup => Some(CancelledBeforePickup)
    case OrderExpired => Some(ReleaseReason.Expired)
    case OrderFailed => Some(ReleaseReason.Failed)
    case _ => None
  }

  lemma EndsAsRelease(b: Book, event: OrderOutcome)
    requires BookOk(b) && ReleaseOf(event).Some?
    requires End(b, Canonical(event), LatenessPayout).Accept? && End(b, Canonical(event), LatenessPayout).applied
    ensures var end, reason := End(b, Canonical(event), LatenessPayout), ReleaseOf(event).value;
            && end.locks == [] && end.book.assignments == b.assignments && end.book.current == Some(end.stored)
            && if b.current.None? then end.stored == Tombstone(reason) && end.entries == []
               else
                 var r := b.current.value;
                 && !r.IsTerminal() && r.requester == Some(event.requester)
                 && end.stored == ReleasedFrom(r, reason)
                 && end.entries == [Entry(event.requester, Kind.Release, 0, -r.reserved, Some(event.order), None)]
  {
    if b.current.Some? {
      assert b.history[|b.history| - 1] == b.current.value;
    }
  }

  /** A release outcome returns exactly the whole hold under its own reason: before pickup, expired or failed. */
  lemma ReleaseOutcomeExactly(s: State, event: OrderOutcome)
    requires StateOk(s) && ReleaseOf(event).Some?
    requires var reply := ApplyOutcome(s, event, LatenessPayout).1; reply.Ok? && reply.value.applied
    ensures var (s', reply) := ApplyOutcome(s, event, LatenessPayout);
            var b, b', reason := BookOf(s, event.order), BookOf(s', event.order), ReleaseOf(event).value;
            && SameElsewhere(s, s', event.order) && b'.assignments == b.assignments
            && b'.current == Some(reply.value.reservation)
            && if b.current.None? then reply.value.reservation == Tombstone(reason) && s'.bank == s.bank
               else
                 var r := b.current.value;
                 && !r.IsTerminal() && r.requester == Some(event.requester)
                 && reply.value.reservation == ReleasedFrom(r, reason)
                 && event.requester in s.bank.accounts && MovesHold(s, s', event.requester, -r.reserved)
  {
    hide StateOk, End, BookOk, IsValidOutcome, LatenessPayout;
    var b := BookOf(s, event.order);
    BookIsOk(s, event.order);
    OutcomeCommits(s, event);
    EndsAsRelease(b, event);
    RequesterIsKnown(s, event.order);
    if b.current.Some? {
      PostsOne(s.bank, End(b, Canonical(event), LatenessPayout).entries[0]);
    }
  }

  // What it takes to apply to an open reservation.
  lemma AgreesAs(b: Book, event: OrderOutcome)
    requires BookOk(b)
    ensures var open := b.current.None? || !b.current.value.IsTerminal();
            var valid := IsValidOutcome(Canonical(event)) && Agrees(b, Canonical(event)) && open;
            && (ReleaseOf(event).Some? ==>
                  (valid <==> b.current.None? || (open && b.current.value.requester == Some(event.requester))))
            && (IsSettlement(event) ==>
                  (valid <==>
                    && b.current.Some? && b.current.value.status == Assigned
                    && b.current.value.requester == Some(event.requester)
                    && event.courier.Some? && b.assignments[b.current.value.assignment.value].courier == event.courier
                    && (event.kind == OrderCompleted ==>
                          && event.pickedUpAt.Some? && event.deliveredAt.Some? && 1000 <= event.deliveryDuration
                          && Micros(event.pickedUpAt.value) <= Micros(event.deliveredAt.value))))
  {
    if b.current.Some? {
      assert b.history[|b.history| - 1] == b.current.value;
    }
  }

  /** Which outcomes apply, from the event and the reservation alone; every other one changes nothing. */
  lemma OutcomeAppliesExactly(s: State, event: OrderOutcome)
    requires StateOk(s)
    ensures var (s', reply) := ApplyOutcome(s, event, LatenessPayout);
            var b := BookOf(s, event.order);
            && (!(reply.Ok? && reply.value.applied) ==> s' == s)
            && (ReleaseOf(event).Some? ==>
                  (reply.Ok? && reply.value.applied <==>
                    || b.current.None?
                    || (!b.current.value.IsTerminal() && b.current.value.requester == Some(event.requester))))
            && (IsSettlement(event) ==>
                  (reply.Ok? && reply.value.applied <==>
                    && b.current.Some? && b.current.value.status == Assigned
                    && b.current.value.requester == Some(event.requester)
                    && event.courier.Some? && b.assignments[b.current.value.assignment.value].courier == event.courier
                    && (event.kind == OrderCompleted ==>
                          && event.pickedUpAt.Some? && event.deliveredAt.Some? && 1000 <= event.deliveryDuration
                          && Micros(event.pickedUpAt.value) <= Micros(event.deliveredAt.value))))
  {
    hide StateOk, ApplyOutcome, IsValidOutcome, Agrees, End, BookOk;
    BookIsOk(s, event.order);
    OutcomeCommits(s, event);
    OutcomesAreAcceptedExactly(s, event);
    AgreesAs(BookOf(s, event.order), event);
  }
}
