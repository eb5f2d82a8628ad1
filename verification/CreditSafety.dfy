/** Conservation over every run of Credit: whatever calls, outcomes and account openings arrive, in any order. */
module CreditSafety {
  import opened Common
  import opened Credit
  import opened CreditBooks
  import opened CreditLedger

  // One entry that moves one user's hold.
  lemma OneEntryTallies(b: Book, b': Book, o: OrderId, e: Entry)
    requires e.order == Some(o) && e.balanceDelta == 0 && (IsEmptyEntry(e) || EntryOk(e))
    requires b'.current.Some? && b'.current.value.requester == Some(e.user)
    requires b.current.Some? ==> b.current.value.requester == Some(e.user)
    requires ReservedFor(b') == ReservedFor(b) + e.reservedDelta
    ensures Tallies(b, b', o, [e])
  {
    assert forall m :: Added([e], m) == Weight(m, e) + Added([], m);
  }

  lemma NoEntryTallies(b: Book, b': Book, o: OrderId)
    requires ReservedFor(b') == ReservedFor(b)
    requires b.current.Some? && ReservedFor(b) != 0 ==>
               b'.current.Some? && b'.current.value.requester == b.current.value.requester
    ensures Tallies(b, b', o, [])
  {}

  // A committed first call posts nothing and leaves the hold alone, or posts the one entry that moves it.
  lemma FirstTallies(b: Book, call: Call)
    requires BookOk(b) && IsWellFormed(call) && First(b, call, true).Commit?
    ensures Tallies(b, First(b, call, true).book, call.order, First(b, call, true).entries)
    ensures |First(b, call, true).entries| <= 1
  {
    var first := First(b, call, true);
    if first.entries == [] {
      NoEntryTallies(b, first.book, call.order);
    } else {
      assert first.entries == [first.entries[0]];
      OneEntryTallies(b, first.book, call.order, first.entries[0]);
    }
  }

  lemma ServeEntries(b: Book, call: Call, enough: bool)
    ensures var served := Serve(b, call, enough);
            var first := First(b, call, enough);
            || (served.entries == [] && ReservedFor(served.book) == ReservedFor(b) && served.book.current == b.current)
            || (&& IsWellFormed(call) && KeyOf(call) !in b.operations && first.Commit?
                && served.entries == first.entries
                && served.book == Record(first.book, call, false, first.stored.revision)
                && served.reply.Ok?)
  {}

  lemma ServeTallies(b: Book, call: Call, enough: bool)
    requires BookOk(b)
    ensures Tallies(b, Serve(b, call, enough).book, call.order, Serve(b, call, enough).entries)
    ensures |Serve(b, call, enough).entries| <= 1
  {
    hide BookOk, Serve, First;
    ServeEntries(b, call, enough);
    var served := Serve(b, call, enough);
    if served.entries == [] && served.book.current == b.current {
      NoEntryTallies(b, served.book, call.order);
    } else {
      FirstCommits(b, call, enough);
      FirstTallies(b, call);
    }
  }

  // The entry of a first call moves the requester's hold, and any increase is what the call asked its account for.
  lemma FirstAsks(b: Book, call: Call)
    requires BookOk(b) && IsWellFormed(call) && KeyOf(call) !in b.operations
    requires First(b, call, true).Commit? && First(b, call, true).entries != []
    ensures var e := First(b, call, true).entries[0];
            && Hold(b, e.user) + e.reservedDelta >= 0
            && (e.reservedDelta > 0 ==> NeedOf(b, call) == Some(Need(e.user, e.reservedDelta)))
            && e.balanceDelta == 0
            && (b.current.Some? ==> b.current.value.requester == Some(e.user))
            && (b.current.None? ==> NeedOf(b, call).Some? && NeedOf(b, call).value.user == e.user)
  {}

  lemma OneEntryPosts(s: State, o: OrderId, e: Entry)
    requires StateOk(s) && e.user in s.bank.accounts && e.balanceDelta == 0
    requires Hold(BookOf(s, o), e.user) + e.reservedDelta >= 0
    requires e.reservedDelta > 0 ==> e.reservedDelta <= s.bank.accounts[e.user].Available()
    ensures Post(s.bank, [e]).Some?
  {
    AccountCovers(s, o, e.user);
    assert [e][1..] == [];
  }

  // The state a call runs in once its account is locked.
  ghost function Locked(s: State, call: Call): State {
    s.(bank := Lock(s.bank, NeedOf(BookOf(s, call.order), call)))
  }

  lemma LockedOk(s: State, call: Call)
    requires StateOk(s)
    ensures StateOk(Locked(s, call))
    ensures var need := NeedOf(BookOf(s, call.order), call);
            need.Some? ==> need.value.user in Locked(s, call).bank.accounts
  {
    var need := NeedOf(BookOf(s, call.order), call);
    if need.Some? {
      OpenKeepsState(s, need.value.user);
    }
  }

  // A reservation's requester has an account.
  lemma RequesterIsKnown(s: State, o: OrderId)
    requires StateOk(s)
    ensures var r := BookOf(s, o).current;
            r.Some? && r.value.requester.Some? ==> r.value.requester.value in s.bank.accounts
  {}

  lemma BookIsOk(s: State, o: OrderId)
    requires StateOk(s)
    ensures BookOk(BookOf(s, o))
  {
    BookOfOk(s, o);
  }

  lemma ServePosts(s: State, call: Call)
    requires StateOk(s)
    ensures var b := BookOf(s, call.order);
            var bank := Locked(s, call).bank;
            var served := Serve(b, call, Covers(bank, NeedOf(b, call)));
            Post(bank, served.entries).Some?
  {
    hide StateOk, BookOk, Serve, First, NeedOf, Lock;
    var b := BookOf(s, call.order);
    BookIsOk(s, call.order);
    LockedOk(s, call);
    var s1 := Locked(s, call);
    RequesterIsKnown(s1, call.order);
    var enough := Covers(s1.bank, NeedOf(b, call));
    var served := Serve(b, call, enough);
    ServeEntries(b, call, enough);
    if served.entries != [] {
      var first := First(b, call, enough);
      FirstCommits(b, call, enough);
      FirstTallies(b, call);
      FirstAsks(b, call);
      NeedHeeded(b, call, enough);
      OneEntryPosts(s1, call.order, first.entries[0]);
      assert first.entries == [first.entries[0]];
    }
  }

  lemma NeedHeeded(b: Book, call: Call, enough: bool)
    requires IsWellFormed(call) && KeyOf(call) !in b.operations && First(b, call, enough).Commit?
    ensures NeedOf(b, call).Some? ==> enough
  {}

  /** Every call keeps accounts, ledger and reservations agreeing, and never trips a schema constraint. */
  lemma HandleKeepsState(s: State, call: Call)
    requires StateOk(s)
    ensures StateOk(Handle(s, call).0)
  {
    var b := BookOf(s, call.order);
    BookOfOk(s, call.order);
    LockedOk(s, call);
    var s1 := Locked(s, call);
    var enough := Covers(s1.bank, NeedOf(b, call));
    ServeKeepsBook(b, call, enough);
    ServeTallies(b, call, enough);
    ServePosts(s, call);
    ServeOwner(b, call, enough);
    if Handle(s, call).0 != s {
      TallyKeepsState(s1, call.order, Serve(b, call, enough).book, Serve(b, call, enough).entries);
    }
  }

  // The requester of a reservation is the one whose account the call locked, or was known before.
  lemma ServeOwner(b: Book, call: Call, enough: bool)
    requires BookOk(b)
    ensures var r := Serve(b, call, enough).book.current;
            r.Some? && r.value.requester.Some? ==>
              || (b.current.Some? && r.value.requester == b.current.value.requester)
              || (NeedOf(b, call).Some? && r.value.requester == Some(NeedOf(b, call).value.user))
  {
    ServeCases(b, call, enough);
  }

  // Outcomes

  ghost predicate Settles(b: Book, out: OrderOutcome, b': Book, es: seq<Entry>, paid: int) {
    && b.current.Some? && b.current.value.requester.Some? && out.courier.Some?
    && 0 <= paid <= b.current.value.reserved
    && b'.current.Some? && b'.current.value.requester == b.current.value.requester && b'.current.value.reserved == 0
    && var u, r := b.current.value.requester.value, b.current.value.reserved;
       es == [Entry(u, Kind.Payout, -paid, -paid, Some(out.order), None),
              Entry(u, Kind.Refund, 0, paid - r, Some(out.order), None),
              Entry(out.courier.value, Kind.Payout, paid, 0, Some(out.order), None)]
  }

  lemma AddedThree(x: Entry, y: Entry, z: Entry, m: Measure)
    ensures Added([x, y, z], m) == Weight(m, x) + Weight(m, y) + Weight(m, z)
    ensures Paid([x, y, z]) == x.balanceDelta + y.balanceDelta + z.balanceDelta
  {
    assert [x, y, z][1..] == [y, z] && [y, z][1..] == [z];
    assert Paid([z]) == z.balanceDelta + Paid([]);
    assert Paid([y, z]) == y.balanceDelta + Paid([z]);
    assert Added([z], m) == Weight(m, z) + Added([], m);
    assert Added([y, z], m) == Weight(m, y) + Added([z], m);
  }

  lemma SettlementTallies(b: Book, out: OrderOutcome, b': Book, es: seq<Entry>, paid: int)
    requires Settles(b, out, b', es, paid)
    ensures Tallies(b, b', out.order, es)
  {
    forall m
      ensures Added(es, m) == Weight(m, es[0]) + Weight(m, es[1]) + Weight(m, es[2])
    {
      AddedThree(es[0], es[1], es[2], m);
    }
    AddedThree(es[0], es[1], es[2], UserBalance(0));
  }

  lemma PostSkipOrMove(bank: Bank, es: seq<Entry>)
    requires es != []
    requires !IsEmptyEntry(es[0]) ==>
               es[0].user in bank.accounts && IsSound(Moved(bank.accounts[es[0].user], es[0]))
    ensures Post(bank, es) == Post(if IsEmptyEntry(es[0]) then bank else PostOne(bank, es[0]), es[1..])
  {}

  // Paying the courier never trips a constraint: each entry in turn leaves sound accounts.
  lemma SettlementPosts(s: State, out: OrderOutcome, b': Book, es: seq<Entry>, paid: int)
    requires StateOk(s) && Settles(BookOf(s, out.order), out, b', es, paid)
    requires BookOf(s, out.order).current.value.requester.value in s.bank.accounts
    requires out.courier.value in s.bank.accounts
    ensures Post(s.bank, es).Some?
  {
    var b := BookOf(s, out.order);
    AccountCovers(s, out.order, b.current.value.requester.value);
    var bank1 := if IsEmptyEntry(es[0]) then s.bank else PostOne(s.bank, es[0]);
    PostSkipOrMove(s.bank, es);
    var bank2 := if IsEmptyEntry(es[1]) then bank1 else PostOne(bank1, es[1]);
    PostSkipOrMove(bank1, es[1..]);
    PostSkipOrMove(bank2, es[1..][1..]);
    assert es[1..][1..][1..] == [];
  }

  lemma {:induction false} OpenAllKeepsState(s: State, users: seq<UserId>)
    requires StateOk(s)
    ensures StateOk(s.(bank := OpenAll(s.bank, users)))
    ensures s.bank.accounts.Keys <= OpenAll(s.bank, users).accounts.Keys
    ensures forall u :: u in users ==> u in OpenAll(s.bank, users).accounts
    decreases |users|
  {
    if users != [] {
      OpenKeepsState(s, users[0]);
      OpenAllKeepsState(s.(bank := Open(s.bank, users[0])), users[1..]);
    }
  }

  ghost function Opens(s: State, locks: seq<UserId>): State {
    s.(bank := OpenAll(s.bank, locks))
  }

  lemma ReleaseEnds(s: State, out: OrderOutcome, rule: PayoutRule)
    requires StateOk(s) && ReasonOf(out).Some? && End(BookOf(s, out.order), out, rule).Accept?
    ensures var end := End(BookOf(s, out.order), out, rule);
            && end.locks == [] && Tallies(BookOf(s, out.order), end.book, out.order, end.entries)
            && Post(s.bank, end.entries).Some?
  {
    hide StateOk, AssignmentsOk, OperationsOk, RowsOwned;
    var b := BookOf(s, out.order);
    BookIsOk(s, out.order);
    RequesterIsKnown(s, out.order);
    var end := End(b, out, rule);
    if end.entries == [] {
      NoEntryTallies(b, end.book, out.order);
    } else {
      assert end.entries == [end.entries[0]];
      OneEntryTallies(b, end.book, out.order, end.entries[0]);
      OneEntryPosts(s, out.order, end.entries[0]);
    }
  }

  lemma EndSettles(b: Book, out: OrderOutcome, rule: PayoutRule) returns (paid: int)
    requires ReasonOf(out).None? && End(b, out, rule).Accept? && b.current.value.status == Assigned
    ensures Settles(b, out, End(b, out, rule).book, End(b, out, rule).entries, paid)
    ensures End(b, out, rule).locks == Ascending([b.current.value.requester.value, out.courier.value])
  {
    hide Ascending;
    paid := rule(b.assignments[b.current.value.assignment.value].offer, out);
  }

  lemma SettleEnds(s: State, out: OrderOutcome, rule: PayoutRule)
    requires StateOk(s) && ReasonOf(out).None? && End(BookOf(s, out.order), out, rule).Accept?
    requires BookOf(s, out.order).current.value.status == Assigned
    ensures var end := End(BookOf(s, out.order), out, rule);
            && Tallies(BookOf(s, out.order), end.book, out.order, end.entries)
            && Post(OpenAll(s.bank, end.locks), end.entries).Some?
  {
    hide StateOk, End, Post, OpenAll, Tallies, Ascending;
    var b := BookOf(s, out.order);
    var end := End(b, out, rule);
    var paid := EndSettles(b, out, rule);
    SettlementTallies(b, out, end.book, end.entries, paid);
    LocksAreOrdered([b.current.value.requester.value, out.courier.value]);
    RequesterIsKnown(s, out.order);
    OpenAllKeepsState(s, end.locks);
    assert out.courier.value in [b.current.value.requester.value, out.courier.value];
    SettlementPosts(Opens(s, end.locks), out, end.book, end.entries, paid);
  }

  lemma EndsOk(s: State, out: OrderOutcome, rule: PayoutRule)
    requires StateOk(s) && End(BookOf(s, out.order), out, rule).Accept?
    ensures var end := End(BookOf(s, out.order), out, rule);
            && StateOk(Opens(s, end.locks))
            && Tallies(BookOf(s, out.order), end.book, out.order, end.entries)
            && Post(OpenAll(s.bank, end.locks), end.entries).Some?
  {
    var b := BookOf(s, out.order);
    var end := End(b, out, rule);
    OpenAllKeepsState(s, end.locks);
    if ReasonOf(out).Some? {
      ReleaseEnds(s, out, rule);
    } else if b.current.value.status == Assigned {
      SettleEnds(s, out, rule);
    } else {
      NoEntryTallies(b, end.book, out.order);
    }
  }

  // An outcome gives no reservation a requester.
  lemma EndOwner(b: Book, out: OrderOutcome, rule: PayoutRule)
    requires End(b, out, rule).Accept?
    ensures var r := End(b, out, rule).book.current;
            r.Some? && r.value.requester.Some? ==> b.current.Some? && r.value.requester == b.current.value.requester
  {}

  lemma AcceptKeepsState(s: State, o: OrderId, end: Ending)
    requires StateOk(s) && end.Accept? && BookOk(end.book)
    requires StateOk(Opens(s, end.locks)) && Post(OpenAll(s.bank, end.locks), end.entries).Some?
    requires Tallies(BookOf(s, o), end.book, o, end.entries)
    requires var r := end.book.current;
             r.Some? && r.value.requester.Some? ==>
               BookOf(s, o).current.Some? && r.value.requester == BookOf(s, o).current.value.requester
    ensures StateOk(State(Post(OpenAll(s.bank, end.locks), end.entries).value, s.books[o := end.book]))
  {
    OpenAllKeepsState(s, end.locks);
    TallyKeepsState(Opens(s, end.locks), o, end.book, end.entries);
  }

  /** Every outcome keeps accounts, ledger and reservations agreeing, whatever the payout rule answers. */
  lemma OutcomeKeepsState(s: State, event: OrderOutcome, rule: PayoutRule)
    requires StateOk(s)
    ensures StateOk(ApplyOutcome(s, event, rule).0)
  {
    var out := Canonical(event);
    var b := BookOf(s, out.order);
    if IsValidOutcome(out) && End(b, out, rule).Accept? {
      var end := End(b, out, rule);
      BookOfOk(s, out.order);
      EndKeepsBook(b, out, rule);
      EndsOk(s, out, rule);
      EndOwner(b, out, rule);
      AcceptKeepsState(s, out.order, end);
    }
  }

  // Runs

  lemma InitialOk()
    ensures StateOk(INITIAL)
  {
    assert forall u :: Holds(INITIAL.books, u) == map[];
    assert Balances(INITIAL.bank.accounts) == map[];
  }

  lemma NextKeepsState(s: State, e: Event, rule: PayoutRule)
    requires StateOk(s)
    ensures StateOk(Next(s, e, rule))
  {
    match e {
      case Opened(user) => OpenKeepsState(s, user);
      case Called(call) => HandleKeepsState(s, call);
      case Ended(out) => OutcomeKeepsState(s, out, rule);
    }
  }

  lemma {:induction false} RunKeepsState(s: State, events: seq<Event>, rule: PayoutRule)
    requires StateOk(s)
    ensures StateOk(Run(s, events, rule))
    decreases |events|
  {
    if events != [] {
      NextKeepsState(s, events[0], rule);
      RunKeepsState(Next(s, events[0], rule), events[1..], rule);
    }
  }

  lemma {:induction false} PrefixSound(l: seq<Entry>, n: nat, u: UserId)
    requires PrefixesSound(l) && n <= |l|
    ensures 0 <= Sum(l[..n], UserReserved(u)) <= Sum(l[..n], UserBalance(u))
    decreases |l|
  {
    if n < |l| {
      PrefixSound(l[..|l| - 1], n, u);
      assert l[..|l| - 1][..n] == l[..n];
    } else {
      assert l[..n] == l;
    }
  }

  /** Credits are conserved: after any run from the empty store, all balances add up to the grants, every account's
      reserved credits are exactly its user's reservations, and no account is ever overdrawn. */
  lemma CreditsConserved(events: seq<Event>, rule: PayoutRule)
    ensures var s := Run(INITIAL, events, rule);
            && Total(Balances(s.bank.accounts)) == STARTING_CREDITS * |s.bank.accounts|
            && (forall u :: u in s.bank.accounts ==>
                  && s.bank.accounts[u].reserved == Total(Holds(s.books, u))
                  && 0 <= s.bank.accounts[u].reserved <= s.bank.accounts[u].balance)
  {
    InitialOk();
    RunKeepsState(INITIAL, events, rule);
    var s := Run(INITIAL, events, rule);
    assert forall u :: u in s.bank.accounts ==> s.bank.accounts[u].reserved == ReservedIn(s.bank.accounts, u);
  }

  /** The ledger refines the store: folding a user's entries gives the account, every prefix of it is sound, and an
      order's entries pay out nothing on balance and sum to what it still holds. */
  lemma LedgerRefinesAccounts(events: seq<Event>, rule: PayoutRule)
    ensures var s := Run(INITIAL, events, rule);
            && (forall u ::
                  && Sum(s.bank.ledger, UserBalance(u)) == BalanceIn(s.bank.accounts, u)
                  && Sum(s.bank.ledger, UserReserved(u)) == ReservedIn(s.bank.accounts, u))
            && (forall u, n :: 0 <= n <= |s.bank.ledger| ==>
                  0 <= Sum(s.bank.ledger[..n], UserReserved(u)) <= Sum(s.bank.ledger[..n], UserBalance(u)))
            && (forall o ::
                  && Sum(s.bank.ledger, OrderBalance(o)) == 0
                  && Sum(s.bank.ledger, OrderReserved(o)) == ReservedFor(BookOf(s, o)))
  {
    InitialOk();
    RunKeepsState(INITIAL, events, rule);
    var s := Run(INITIAL, events, rule);
    forall u, n | 0 <= n <= |s.bank.ledger|
      ensures 0 <= Sum(s.bank.ledger[..n], UserReserved(u)) <= Sum(s.bank.ledger[..n], UserBalance(u))
    {
      PrefixSound(s.bank.ledger, n, u);
    }
  }
}
