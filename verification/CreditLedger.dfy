/** Accounts, ledger and reservations agree after every Credit transaction. */
module CreditLedger {
  import opened Common
  import opened Credit
  import opened CreditBooks

  // What an entry adds up to: for one user, or for one order.
  datatype Measure =
    | UserBalance(user: UserId)
    | UserReserved(user: UserId)
    | OrderBalance(order: OrderId)
    | OrderReserved(order: OrderId)

  function Weight(m: Measure, e: Entry): int {
    match m
    case UserBalance(u) => if e.user == u then e.balanceDelta else 0
    case UserReserved(u) => if e.user == u then e.reservedDelta else 0
    case OrderBalance(o) => if e.order == Some(o) then e.balanceDelta else 0
    case OrderReserved(o) => if e.order == Some(o) then e.reservedDelta else 0
  }

  function Sum(l: seq<Entry>, m: Measure): int {
    if l == [] then 0 else Sum(l[..|l| - 1], m) + Weight(m, l[|l| - 1])
  }

  lemma SumAppend(l: seq<Entry>, e: Entry, m: Measure)
    ensures Sum(l + [e], m) == Sum(l, m) + Weight(m, e)
  {
    assert (l + [e])[..|l|] == l;
  }

  function BalanceIn(accounts: map<UserId, Account>, u: UserId): int {
    if u in accounts then accounts[u].balance else 0
  }

  function ReservedIn(accounts: map<UserId, Account>, u: UserId): int {
    if u in accounts then accounts[u].reserved else 0
  }

  // The ledger alone tells every user's account, now and after each entry.
  ghost predicate Replays(l: seq<Entry>, accounts: map<UserId, Account>) {
    forall u :: Sum(l, UserBalance(u)) == BalanceIn(accounts, u) && Sum(l, UserReserved(u)) == ReservedIn(accounts, u)
  }

  ghost predicate PrefixesSound(l: seq<Entry>) {
    l == [] ||
    (&& PrefixesSound(l[..|l| - 1])
     && forall u :: 0 <= Sum(l, UserReserved(u)) <= Sum(l, UserBalance(u)))
  }

  // The CHECK constraints of the ledger_entries table.
  predicate EntryOk(e: Entry) {
    && !IsEmptyEntry(e)
    && (e.order.None? <==> e.kind == Kind.Grant)
    && (e.attempt.Some? <==> e.kind == Kind.Adjust || e.kind == Kind.Revert)
    && match e.kind
       case Grant => e.balanceDelta > 0 && e.reservedDelta == 0
       case Reserve => e.balanceDelta == 0 && e.reservedDelta > 0
       case Adjust => e.balanceDelta == 0
       case Revert => e.balanceDelta == 0
       case Release => e.balanceDelta == 0 && e.reservedDelta < 0
       case Payout =>
         || (e.balanceDelta < 0 && e.reservedDelta == e.balanceDelta)
         || (e.balanceDelta > 0 && e.reservedDelta == 0)
       case Refund => e.balanceDelta == 0 && e.reservedDelta < 0
  }

  ghost function Balances(accounts: map<UserId, Account>): map<UserId, int> {
    map u | u in accounts :: accounts[u].balance
  }

  // Open accounts hold exactly what their ledger says, and no other ledger exists.
  ghost predicate BankOk(bank: Bank) {
    && (forall u :: u in bank.accounts ==> IsSound(bank.accounts[u]))
    && Replays(bank.ledger, bank.accounts)
    && PrefixesSound(bank.ledger)
    && (forall i :: 0 <= i < |bank.ledger| ==> EntryOk(bank.ledger[i]))
  }

  lemma PostOneKeepsBank(bank: Bank, e: Entry)
    requires BankOk(bank) && EntryOk(e)
    requires e.user in bank.accounts && IsSound(Moved(bank.accounts[e.user], e))
    ensures BankOk(PostOne(bank, e))
    ensures forall m :: Sum(PostOne(bank, e).ledger, m) == Sum(bank.ledger, m) + Weight(m, e)
  {
    var next := PostOne(bank, e);
    forall m
      ensures Sum(next.ledger, m) == Sum(bank.ledger, m) + Weight(m, e)
    {
      SumAppend(bank.ledger, e, m);
    }
    assert Replays(next.ledger, next.accounts) by {
      forall u
        ensures Sum(next.ledger, UserBalance(u)) == BalanceIn(next.accounts, u)
        ensures Sum(next.ledger, UserReserved(u)) == ReservedIn(next.accounts, u)
      {
        SumAppend(bank.ledger, e, UserBalance(u));
        SumAppend(bank.ledger, e, UserReserved(u));
      }
    }
    assert next.ledger[..|next.ledger| - 1] == bank.ledger;
    forall u
      ensures 0 <= Sum(next.ledger, UserReserved(u)) <= Sum(next.ledger, UserBalance(u))
    {
      assert 0 <= ReservedIn(next.accounts, u) <= BalanceIn(next.accounts, u);
    }
  }

  lemma PostOneMovesTotal(bank: Bank, e: Entry)
    requires e.user in bank.accounts
    ensures Total(Balances(PostOne(bank, e).accounts)) == Total(Balances(bank.accounts)) + e.balanceDelta
  {
    var after := bank.accounts[e.user].balance + e.balanceDelta;
    assert Balances(PostOne(bank, e).accounts) == Balances(bank.accounts)[e.user := after];
    TotalUpdate(Balances(bank.accounts), e.user, after);
  }

  // Opening grants the starting credits once.
  lemma OpenKeepsBank(bank: Bank, u: UserId)
    requires BankOk(bank)
    ensures BankOk(Open(bank, u)) && u in Open(bank, u).accounts
    ensures Open(bank, u).accounts.Keys == bank.accounts.Keys + {u}
    ensures forall x :: ReservedIn(Open(bank, u).accounts, x) == ReservedIn(bank.accounts, x)
    ensures forall o :: Sum(Open(bank, u).ledger, OrderBalance(o)) == Sum(bank.ledger, OrderBalance(o))
    ensures forall o :: Sum(Open(bank, u).ledger, OrderReserved(o)) == Sum(bank.ledger, OrderReserved(o))
  {
    if u !in bank.accounts {
      var empty := bank.(accounts := bank.accounts[u := Account(0, 0)]);
      assert BankOk(empty) by {
        assert forall x :: BalanceIn(empty.accounts, x) == BalanceIn(bank.accounts, x);
        assert forall x :: ReservedIn(empty.accounts, x) == ReservedIn(bank.accounts, x);
        assert Replays(empty.ledger, empty.accounts);
      }
      PostOneKeepsBank(empty, GrantTo(u));
    }
  }

  ghost predicate Granted(accounts: map<UserId, Account>) {
    Total(Balances(accounts)) == STARTING_CREDITS * |accounts|
  }

  lemma AddEmptyAccount(accounts: map<UserId, Account>, u: UserId)
    requires u !in accounts
    ensures Total(Balances(accounts[u := Account(0, 0)])) == Total(Balances(accounts))
    ensures |accounts[u := Account(0, 0)]| == |accounts| + 1
  {
    assert Balances(accounts[u := Account(0, 0)]) == Balances(accounts)[u := 0];
    TotalUpdate(Balances(accounts), u, 0);
  }

  lemma OpenKeepsGrants(bank: Bank, u: UserId)
    requires Granted(bank.accounts)
    ensures Granted(Open(bank, u).accounts)
  {
    if u !in bank.accounts {
      var empty := bank.(accounts := bank.accounts[u := Account(0, 0)]);
      AddEmptyAccount(bank.accounts, u);
      PostOneMovesTotal(empty, GrantTo(u));
      assert |Open(bank, u).accounts| == |empty.accounts|;
    }
  }

  // Sequences of entries

  function Added(es: seq<Entry>, m: Measure): int {
    if es == [] then 0 else Weight(m, es[0]) + Added(es[1..], m)
  }

  function Paid(es: seq<Entry>): int {
    if es == [] then 0 else es[0].balanceDelta + Paid(es[1..])
  }

  /** Posting moves every sum by what the entries add, and nothing else. */
  lemma {:induction false} PostKeepsBank(bank: Bank, es: seq<Entry>)
    requires BankOk(bank) && Post(bank, es).Some?
    requires forall i :: 0 <= i < |es| ==> IsEmptyEntry(es[i]) || EntryOk(es[i])
    ensures var posted := Post(bank, es).value;
            && BankOk(posted) && posted.accounts.Keys == bank.accounts.Keys
            && (forall m :: Sum(posted.ledger, m) == Sum(bank.ledger, m) + Added(es, m))
            && Total(Balances(posted.accounts)) == Total(Balances(bank.accounts)) + Paid(es)
    decreases |es|
  {
    if es != [] {
      if IsEmptyEntry(es[0]) {
        PostKeepsBank(bank, es[1..]);
      } else {
        PostOneKeepsBank(bank, es[0]);
        PostOneMovesTotal(bank, es[0]);
        PostKeepsBank(PostOne(bank, es[0]), es[1..]);
      }
    }
  }

  // Accounts against reservations

  ghost function ReservedFor(b: Book): int {
    if b.current.Some? then b.current.value.reserved else 0
  }

  ghost function Hold(b: Book, u: UserId): int {
    if b.current.Some? && b.current.value.requester == Some(u) then b.current.value.reserved else 0
  }

  ghost function Holds(books: map<OrderId, Book>, u: UserId): map<OrderId, int> {
    map o | o in books :: Hold(books[o], u)
  }

  lemma HoldsMove(s: State, o: OrderId, b': Book, u: UserId)
    ensures Total(Holds(s.books[o := b'], u)) == Total(Holds(s.books, u)) + Hold(b', u) - Hold(BookOf(s, o), u)
  {
    assert Holds(s.books[o := b'], u) == Holds(s.books, u)[o := Hold(b', u)];
    TotalUpdate(Holds(s.books, u), o, Hold(b', u));
  }

  // Total of non-negative holds is at least any one of them.
  lemma {:induction false} TotalCovers(m: map<OrderId, int>, o: OrderId)
    requires forall k :: k in m ==> m[k] >= 0
    ensures Total(m) >= 0 && (o in m ==> Total(m) >= m[o])
    decreases |m|
  {
    if o in m {
      TotalSplit(m, o);
      TotalCovers(m - {o}, o);
    } else if m != map[] {
      var k :| k in m;
      TotalSplit(m, k);
      TotalCovers(m - {k}, o);
    }
  }

  ghost predicate BooksOk(s: State) {
    forall o :: o in s.books ==>
      && BookOk(s.books[o])
      && (s.books[o].current.Some? && s.books[o].current.value.requester.Some? ==>
            s.books[o].current.value.requester.value in s.bank.accounts)
  }

  ghost predicate HoldsAgree(s: State) {
    forall u :: ReservedIn(s.bank.accounts, u) == Total(Holds(s.books, u))
  }

  ghost predicate OrdersAgree(s: State) {
    forall o ::
      && Sum(s.bank.ledger, OrderBalance(o)) == 0
      && Sum(s.bank.ledger, OrderReserved(o)) == ReservedFor(BookOf(s, o))
  }

  ghost predicate StateOk(s: State) {
    && BankOk(s.bank)
    && Granted(s.bank.accounts)
    && BooksOk(s)
    && HoldsAgree(s)
    && OrdersAgree(s)
  }

  lemma EmptyBookOk()
    ensures BookOk(EMPTY_BOOK)
  {}

  lemma BookOfOk(s: State, o: OrderId)
    requires BooksOk(s)
    ensures BookOk(BookOf(s, o))
  {}

  // An account holds at least what any one reservation of its user holds.
  lemma AccountCovers(s: State, o: OrderId, u: UserId)
    requires StateOk(s)
    ensures ReservedIn(s.bank.accounts, u) >= Hold(BookOf(s, o), u) >= 0
  {
    forall k | k in Holds(s.books, u)
      ensures Holds(s.books, u)[k] >= 0
    {
      assert BookOk(s.books[k]);
    }
    TotalCovers(Holds(s.books, u), o);
  }

  // The entries account exactly for the change of one order's reservation.
  ghost predicate Tallies(b: Book, b': Book, o: OrderId, es: seq<Entry>) {
    && (forall i :: 0 <= i < |es| ==> IsEmptyEntry(es[i]) || EntryOk(es[i]))
    && Paid(es) == 0
    && (forall u :: Added(es, UserReserved(u)) == Hold(b', u) - Hold(b, u))
    && (forall x :: Added(es, OrderBalance(x)) == 0)
    && (forall x :: Added(es, OrderReserved(x)) == if x == o then ReservedFor(b') - ReservedFor(b) else 0)
  }

  lemma TallyKeepsHolds(s: State, o: OrderId, b': Book, es: seq<Entry>, posted: Bank)
    requires BankOk(s.bank) && BankOk(posted) && HoldsAgree(s)
    requires forall u :: Added(es, UserReserved(u)) == Hold(b', u) - Hold(BookOf(s, o), u)
    requires forall m :: Sum(posted.ledger, m) == Sum(s.bank.ledger, m) + Added(es, m)
    ensures HoldsAgree(State(posted, s.books[o := b']))
  {
    forall u
      ensures ReservedIn(posted.accounts, u) == Total(Holds(s.books[o := b'], u))
    {
      HoldsMove(s, o, b', u);
      assert Sum(posted.ledger, UserReserved(u)) == ReservedIn(posted.accounts, u);
      assert Sum(s.bank.ledger, UserReserved(u)) == ReservedIn(s.bank.accounts, u);
    }
  }

  lemma TallyKeepsOrders(s: State, o: OrderId, b': Book, es: seq<Entry>, posted: Bank)
    requires OrdersAgree(s) && Tallies(BookOf(s, o), b', o, es)
    requires forall m :: Sum(posted.ledger, m) == Sum(s.bank.ledger, m) + Added(es, m)
    ensures OrdersAgree(State(posted, s.books[o := b']))
  {
    var s' := State(posted, s.books[o := b']);
    forall x
      ensures Sum(posted.ledger, OrderBalance(x)) == 0
      ensures Sum(posted.ledger, OrderReserved(x)) == ReservedFor(BookOf(s', x))
    {
      assert x != o ==> BookOf(s', x) == BookOf(s, x);
    }
  }

  /** Posting entries that account for a reservation's change keeps accounts, ledger and reservations agreeing. */
  lemma TallyKeepsState(s: State, o: OrderId, b': Book, es: seq<Entry>)
    requires StateOk(s) && BookOk(b') && Post(s.bank, es).Some?
    requires b'.current.Some? && b'.current.value.requester.Some? ==>
               b'.current.value.requester.value in s.bank.accounts
    requires Tallies(BookOf(s, o), b', o, es)
    ensures StateOk(State(Post(s.bank, es).value, s.books[o := b']))
  {
    var posted := Post(s.bank, es).value;
    PostKeepsBank(s.bank, es);
    TallyKeepsHolds(s, o, b', es, posted);
    TallyKeepsOrders(s, o, b', es, posted);
    assert |posted.accounts.Keys| == |s.bank.accounts.Keys|;
  }

  lemma OpenKeepsState(s: State, u: UserId)
    requires StateOk(s)
    ensures StateOk(s.(bank := Open(s.bank, u))) && u in Open(s.bank, u).accounts
  {
    OpenKeepsBank(s.bank, u);
    OpenKeepsGrants(s.bank, u);
  }
}
