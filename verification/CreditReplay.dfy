/** At-most-once application: repeated calls change nothing and answer as the first did, and reverting an offer
    commutes with releasing the order. */
module CreditReplay {
  import opened Common
  import opened Credit
  import opened CreditBooks
  import opened CreditLedger
  import opened CreditSafety
  import opened CreditFences

  ghost predicate IsDuplicate(s: State, e: Event) {
    e.Called? && KeyOf(e.call) in BookOf(s, e.call.order).operations
  }

  // The run with every call removed whose operation key was already recorded when it arrived.
  ghost function WithoutDuplicates(s: State, events: seq<Event>, rule: PayoutRule): seq<Event>
    decreases |events|
  {
    if events == [] then []
    else
      var rest := WithoutDuplicates(Next(s, events[0], rule), events[1..], rule);
      if IsDuplicate(s, events[0]) then rest else [events[0]] + rest
  }

  lemma DuplicateChangesNothing(s: State, e: Event, rule: PayoutRule)
    requires IsDuplicate(s, e)
    ensures Next(s, e, rule) == s
  {}

  // Each call of the run arrives with a key that no earlier call recorded.
  ghost predicate AllFirst(s: State, events: seq<Event>, rule: PayoutRule)
    decreases |events|
  {
    events != [] ==> !IsDuplicate(s, events[0]) && AllFirst(Next(s, events[0], rule), events[1..], rule)
  }

  /** A run with duplicates of recorded calls, wherever they arrive, ends in exactly the state of the run without
      them, and that run has no duplicate left. */
  lemma {:induction false} DuplicatesDoNotMatter(s: State, events: seq<Event>, rule: PayoutRule)
    ensures Run(s, WithoutDuplicates(s, events, rule), rule) == Run(s, events, rule)
    ensures AllFirst(s, WithoutDuplicates(s, events, rule), rule)
    decreases |events|
  {
    if events != [] {
      var e, s1 := events[0], Next(s, events[0], rule);
      var rest := WithoutDuplicates(s1, events[1..], rule);
      DuplicatesDoNotMatter(s1, events[1..], rule);
      if IsDuplicate(s, e) {
        DuplicateChangesNothing(s, e, rule);
      } else {
        assert ([e] + rest)[1..] == rest;
      }
    }
  }

  // What a repeated call answers once the same operation has been recorded.
  ghost predicate Repeats(b: Book, call: Call, first: Result<View, Error>, again: Result<View, Error>) {
    var fence := CheckReplay(b, KeyOf(call));
    if first == Err(IdempotencyConflict) then again == first
    else if fence.Some? then again == Err(fence.value)
    else again == first
  }

  lemma DescribedAlike(b: Book, b': Book, r: Reservation)
    requires Grows(b, b') && WithAdjustment(b, r).Ok?
    ensures WithAdjustment(b', r) == WithAdjustment(b, r)
  {}

  lemma HistoryAlike(b: Book, b': Book, i: nat)
    requires Grows(b, b') && i < |b.history|
    ensures i < |b'.history| && b'.history[i] == b.history[i]
  {}

  lemma FenceLasts(b: Book, b': Book, key: OperationKey)
    requires Grows(b, b') && CheckReplay(b, key).Some?
    ensures CheckReplay(b', key).Some?
  {}

  // The record of a successful operation names a revision that can be described.
  ghost predicate IsDescribed(b: Book, op: Operation) {
    !op.insufficient ==> 1 <= op.revision <= |b.history| && WithAdjustment(b, b.history[op.revision - 1]).Ok?
  }

  lemma RecordsAreDescribed(b: Book, key: OperationKey)
    requires BookOk(b) && key in b.operations
    ensures IsDescribed(b, b.operations[key])
  {
    var op := b.operations[key];
    assert OperationOk(b, key, op);
    if !op.insufficient {
      var r := b.history[op.revision - 1];
      assert r.status == Assigned ==> RecordsOffer(b, r);
    }
  }

  // A repeat of a call that was itself a repeat.
  lemma RepeatOfRepeat(b: Book, b': Book, call: Call)
    requires Grows(b, b') && KeyOf(call) in b.operations && IsDescribed(b, b.operations[KeyOf(call)])
    ensures KeyOf(call) in b'.operations && Repeats(b', call, Replay(b, call), Replay(b', call))
  {
    var op := b.operations[KeyOf(call)];
    if CheckReplay(b, KeyOf(call)).Some? {
      FenceLasts(b, b', KeyOf(call));
    }
    if !op.insufficient {
      HistoryAlike(b, b', op.revision - 1);
      DescribedAlike(b, b', b.history[op.revision - 1]);
    }
  }

  lemma CommitIsHistory(b: Book, call: Call, enough: bool)
    requires BookOk(b) && First(b, call, enough).Commit?
    ensures var first := First(b, call, enough);
            && 1 <= first.stored.revision <= |first.book.history|
            && first.book.history[first.stored.revision - 1] == first.stored
  {
    if b.current.Some? {
      assert b.history[|b.history| - 1] == b.current.value;
    }
  }

  // What a recorded first call left: its payload, and the very revision it answered with.
  ghost predicate IsRecorded(b: Book, call: Call, reply: Result<View, Error>) {
    && KeyOf(call) in b.operations && b.operations[KeyOf(call)].payload == PayloadOf(call)
    && var op := b.operations[KeyOf(call)];
       if op.insufficient then reply == Err(InsufficientCredits)
       else 1 <= op.revision <= |b.history| && reply == WithAdjustment(b, b.history[op.revision - 1])
  }

  lemma FirstIsRecorded(b: Book, call: Call, enough: bool)
    requires First(b, call, enough).Commit? ==>
               var first := First(b, call, enough);
               && 1 <= first.stored.revision <= |first.book.history|
               && first.book.history[first.stored.revision - 1] == first.stored
    requires IsWellFormed(call) && KeyOf(call) !in b.operations
    requires KeyOf(call) in Serve(b, call, enough).book.operations
    ensures IsRecorded(Serve(b, call, enough).book, call, Serve(b, call, enough).reply)
  {}

  lemma RecordedReplays(b: Book, call: Call, reply: Result<View, Error>)
    requires IsRecorded(b, call, reply) && CheckReplay(b, KeyOf(call)).None?
    ensures Replay(b, call) == reply
  {}

  // Neither does the fence of a call come from the call itself.
  lemma FirstIsNotFenced(b: Book, call: Call, enough: bool)
    requires BookOk(b) && IsWellFormed(call) && KeyOf(call) !in b.operations
    requires KeyOf(call) in Serve(b, call, enough).book.operations
    requires CheckReplay(Serve(b, call, enough).book, KeyOf(call)).Some?
    ensures false
  {}

  lemma RepeatOfFirst(b: Book, call: Call, enough: bool, b': Book)
    requires BookOk(b) && IsWellFormed(call) && KeyOf(call) !in b.operations
    requires KeyOf(call) in Serve(b, call, enough).book.operations
    requires Grows(Serve(b, call, enough).book, b')
    ensures KeyOf(call) in b'.operations && Repeats(b', call, Serve(b, call, enough).reply, Replay(b', call))
  {
    var b1 := Serve(b, call, enough).book;
    if First(b, call, enough).Commit? {
      CommitIsHistory(b, call, enough);
    }
    FirstIsRecorded(b, call, enough);
    if CheckReplay(b1, KeyOf(call)).Some? {
      FirstIsNotFenced(b, call, enough);
    }
    RecordedReplays(b1, call, Serve(b, call, enough).reply);
    ServeKeepsBook(b, call, enough);
    RecordsAreDescribed(b1, KeyOf(call));
    RepeatOfRepeat(b1, b', call);
  }

  /** Once a call is recorded, the same call repeated after any other transactions changes nothing and answers
      exactly as the first time, unless a release or a revert has fenced it since; then it answers that error. */
  lemma RepeatAnswersAlike(s: State, call: Call, events: seq<Event>, rule: PayoutRule)
    requires StateOk(s) && IsWellFormed(call)
    requires KeyOf(call) in BookOf(Handle(s, call).0, call.order).operations
    ensures var first := Handle(s, call);
            var later := Run(first.0, events, rule);
            && Handle(later, call).0 == later
            && Repeats(BookOf(later, call.order), call, first.1, Handle(later, call).1)
  {
    var b := BookOf(s, call.order);
    BookOfOk(s, call.order);
    HandleServes(s, call);
    HandleKeepsState(s, call);
    var s1 := Handle(s, call).0;
    HandleBook(s, call, call.order);
    RunGrows(s1, events, rule, call.order);
    var later := Run(s1, events, rule);
    HandleServes(later, call);
    DuplicateChangesNothing(later, Called(call), rule);
    if KeyOf(call) in b.operations {
      RecordsAreDescribed(b, KeyOf(call));
      GrowsTransitive(b, BookOf(s1, call.order), BookOf(later, call.order));
      RepeatOfRepeat(b, BookOf(later, call.order), call);
    } else {
      RepeatOfFirst(b, call, EnoughFor(s, call), BookOf(later, call.order));
    }
  }

  /** A recorded key answers IDEMPOTENCY_CONFLICT exactly when the repeated payload differs from the recorded one. */
  lemma ConflictExactlyWhenPayloadDiffers(s: State, call: Call)
    requires StateOk(s) && IsWellFormed(call) && KeyOf(call) in BookOf(s, call.order).operations
    ensures Handle(s, call).1 == Err(IdempotencyConflict)
       <==> BookOf(s, call.order).operations[KeyOf(call)].payload != PayloadOf(call)
  {
    BookOfOk(s, call.order);
    HandleServes(s, call);
    RecordsAreDescribed(BookOf(s, call.order), KeyOf(call));
  }

  // Revert and release

  lemma PostOneEntry(bank: Bank, e: Entry)
    requires Post(bank, [e]).Some? && e.user in bank.accounts
    ensures Post(bank, [e]).value.accounts == bank.accounts[e.user := Moved(bank.accounts[e.user], e)]
  {
    assert [e][1..] == [];
  }

  // Lowers what a user has reserved.
  ghost function Freed(accounts: map<UserId, Account>, u: UserId, credits: int): map<UserId, Account>
    requires u in accounts
  {
    accounts[u := Account(accounts[u].balance, accounts[u].reserved - credits)]
  }

  // Everything but revisions, settlement details and the ledger.
  ghost predicate Looks(s: State, o: OrderId, accounts: map<UserId, Account>, status: Status, reserved: int,
                        assignments: map<AttemptId, Assignment>) {
    var r := BookOf(s, o).current;
    && s.bank.accounts == accounts
    && r.Some? && r.value.status == status && r.value.reserved == reserved
    && BookOf(s, o).assignments == assignments
  }

  ghost function Undone(b: Book, a: AttemptId): map<AttemptId, Assignment> {
    if a in b.assignments then b.assignments[a := b.assignments[a].(status := Reverted)]
    else b.assignments[a := Assignment(None, 0, Reverted)]
  }

  ghost predicate IsActive(b: Book, a: AttemptId) {
    b.current.Some? && b.current.value.status == Assigned && b.current.value.assignment == Some(a)
  }

  // A revert takes book b to b', posting es.
  ghost predicate RevertsTo(b: Book, b': Book, es: seq<Entry>, o: OrderId, a: AttemptId) {
    && b.current.Some? && b'.current.Some?
    && b'.assignments == Undone(b, a)
    && var r, r' := b.current.value, b'.current.value;
       if IsActive(b, a) then
         && r.requester.Some? && r'.requester == r.requester
         && r'.status == Held && r'.reserved == r.original
         && es == [Entry(r.requester.value, Kind.Revert, 0, r.original - r.reserved, Some(o), Some(a))]
       else r' == r && es == []
  }

  lemma RevertServes(b: Book, o: OrderId, a: AttemptId, enough: bool)
    requires BookOk(b) && b.current.Some? && b.current.value.status != Settled
    ensures var served := Serve(b, Call.Revert(o, a), enough);
            RevertsTo(b, served.book, served.entries, o, a)
  {
    if OpRevert(a) in b.operations {
      assert OperationOk(b, OpRevert(a), b.operations[OpRevert(a)]);
      assert b.assignments == b.assignments[a := b.assignments[a]];
    }
    assert b.history[|b.history| - 1] == b.current.value;
    ServeNeverBreaks(b, Call.Revert(o, a), enough);
  }

  lemma RefusalPostsNothing(b: Book, call: Call, enough: bool)
    ensures Serve(b, call, enough).reply.Err? ==> Serve(b, call, enough).entries == []
    ensures KeyOf(call) in b.operations ==> Serve(b, call, enough).entries == []
  {
    hide First, Replay;
  }

  lemma RevertPosts(s: State, o: OrderId, a: AttemptId)
    requires StateOk(s)
    ensures Post(s.bank, ServedIn(s, Call.Revert(o, a)).entries) == Some(Handle(s, Call.Revert(o, a)).0.bank)
  {
    hide Serve, StateOk;
    var b, call := BookOf(s, o), Call.Revert(o, a);
    RefusalPostsNothing(b, call, Covers(s.bank, NeedOf(b, call)));
    ServePosts(s, call);
  }

  lemma RequesterIsOpen(s: State, o: OrderId)
    requires StateOk(s) && BookOf(s, o).current.Some? && BookOf(s, o).current.value.requester.Some?
    ensures BookOf(s, o).current.value.requester.value in s.bank.accounts
  {}

  // What a revert leaves of the hold.
  ghost predicate RevertLeft(s: State, o: OrderId, a: AttemptId, s': State) {
    var b := BookOf(s, o);
    && b.current.Some?
    && var r := b.current.value;
       if IsActive(b, a) then
         && r.requester.Some? && r.requester.value in s.bank.accounts
         && Looks(s', o, Freed(s.bank.accounts, r.requester.value, r.reserved - r.original), Held, r.original,
                  Undone(b, a))
         && BookOf(s', o).current.value.requester == r.requester
       else
         && Looks(s', o, s.bank.accounts, r.status, r.reserved, Undone(b, a))
         && BookOf(s', o).current == b.current
  }

  lemma PostedRevert(s: State, o: OrderId, a: AttemptId, s': State, es: seq<Entry>)
    requires RevertsTo(BookOf(s, o), BookOf(s', o), es, o, a)
    requires BookOf(s, o).current.value.requester.Some? ==>
               BookOf(s, o).current.value.requester.value in s.bank.accounts
    requires Post(s.bank, es) == Some(s'.bank)
    ensures RevertLeft(s, o, a, s')
  {
    if IsActive(BookOf(s, o), a) {
      PostOneEntry(s.bank, es[0]);
    }
  }

  lemma RevertLeaves(s: State, o: OrderId, a: AttemptId)
    requires StateOk(s) && BookOf(s, o).current.Some? && BookOf(s, o).current.value.status != Settled
    ensures RevertLeft(s, o, a, Handle(s, Call.Revert(o, a)).0)
  {
    var call := Call.Revert(o, a);
    BookOfOk(s, o);
    HandleServes(s, call);
    RevertServes(BookOf(s, o), o, a, EnoughFor(s, call));
    RevertPosts(s, o, a);
    if BookOf(s, o).current.value.requester.Some? {
      RequesterIsOpen(s, o);
    }
    PostedRevert(s, o, a, Handle(s, call).0, ServedIn(s, call).entries);
  }

  // What a release outcome leaves of an open reservation.
  ghost predicate ReleaseLeft(s: State, o: OrderId, requester: UserId, s': State) {
    var b := BookOf(s, o);
    && b.current.Some? && requester in s.bank.accounts
    && Looks(s', o, Freed(s.bank.accounts, requester, b.current.value.reserved), Released, 0, b.assignments)
  }

  lemma ReleaseEntry(b: Book, event: OrderOutcome, rule: PayoutRule)
    requires ReasonOf(event).Some? && b.current.Some? && !b.current.value.IsTerminal()
    requires b.current.value.requester == Some(event.requester)
    ensures var end := End(b, event, rule);
            && end.Accept? && end.locks == [] && end.book.assignments == b.assignments
            && end.entries ==
               [Entry(event.requester, Kind.Release, 0, -b.current.value.reserved, Some(event.order), None)]
            && end.book.current.Some? && end.book.current.value.status == Released
            && end.book.current.value.reserved == 0
  {}

  lemma AcceptedPosts(s: State, event: OrderOutcome, rule: PayoutRule)
    requires ReasonOf(event).Some? && event.kind != OrderOutcomeUnspecified
    requires var end := End(BookOf(s, event.order), event, rule);
             end.Accept? && end.locks == [] && Post(s.bank, end.entries).Some?
    ensures var end := End(BookOf(s, event.order), event, rule);
            ApplyOutcome(s, event, rule).0 == State(Post(s.bank, end.entries).value, s.books[event.order := end.book])
  {}

  lemma PostedRelease(s: State, event: OrderOutcome, rule: PayoutRule)
    requires ReasonOf(event).Some? && BookOf(s, event.order).current.Some?
    requires var r := BookOf(s, event.order).current.value;
             !r.IsTerminal() && r.requester == Some(event.requester)
    requires event.requester in s.bank.accounts
    requires Post(s.bank, End(BookOf(s, event.order), event, rule).entries).Some?
    ensures ReleaseLeft(s, event.order, event.requester, ApplyOutcome(s, event, rule).0)
  {
    ReleaseEntry(BookOf(s, event.order), event, rule);
    AcceptedPosts(s, event, rule);
    PostOneEntry(s.bank, End(BookOf(s, event.order), event, rule).entries[0]);
  }

  lemma ReleasePosts(s: State, event: OrderOutcome, rule: PayoutRule)
    requires StateOk(s) && ReasonOf(event).Some?
    requires End(BookOf(s, event.order), event, rule).Accept? && End(BookOf(s, event.order), event, rule).locks == []
    ensures Post(s.bank, End(BookOf(s, event.order), event, rule).entries).Some?
  {
    EndsOk(s, event, rule);
  }

  lemma ReleaseLeaves(s: State, event: OrderOutcome, rule: PayoutRule)
    requires StateOk(s) && ReasonOf(event).Some? && BookOf(s, event.order).current.Some?
    requires var r := BookOf(s, event.order).current.value;
             !r.IsTerminal() && r.requester == Some(event.requester)
    ensures ReleaseLeft(s, event.order, event.requester, ApplyOutcome(s, event, rule).0)
  {
    ReleaseEntry(BookOf(s, event.order), event, rule);
    RequesterIsOpen(s, event.order);
    ReleasePosts(s, event, rule);
    PostedRelease(s, event, rule);
  }

  lemma SameEnd(s: State, o: OrderId, a: AttemptId, u: UserId, reverted: State, first: State, ended: State, last: State)
    requires BookOf(s, o).current.Some? && !BookOf(s, o).current.value.IsTerminal()
    requires BookOf(s, o).current.value.requester == Some(u)
    requires RevertLeft(s, o, a, reverted) && ReleaseLeft(reverted, o, u, first)
    requires ReleaseLeft(s, o, u, ended) && RevertLeft(ended, o, a, last)
    ensures first.bank.accounts == last.bank.accounts
    ensures Looks(first, o, first.bank.accounts, Released, 0, Undone(BookOf(s, o), a))
    ensures Looks(last, o, first.bank.accounts, Released, 0, Undone(BookOf(s, o), a))
  {}

  /** Reverting an offer and releasing the order commute: in either order they leave the same accounts, the same
      reservation status and hold, and the same assignments. */
  lemma RevertAndReleaseCommute(s: State, a: AttemptId, event: OrderOutcome, rule: PayoutRule)
    requires StateOk(s) && ReasonOf(event).Some? && BookOf(s, event.order).current.Some?
    requires var r := BookOf(s, event.order).current.value;
             !r.IsTerminal() && r.requester == Some(event.requester)
    ensures var revert := Call.Revert(event.order, a);
            var first := ApplyOutcome(Handle(s, revert).0, event, rule).0;
            var last := Handle(ApplyOutcome(s, event, rule).0, revert).0;
            && first.bank.accounts == last.bank.accounts
            && Looks(first, event.order, first.bank.accounts, Released, 0, Undone(BookOf(s, event.order), a))
            && Looks(last, event.order, first.bank.accounts, Released, 0, Undone(BookOf(s, event.order), a))
  {
    var revert := Call.Revert(event.order, a);
    var reverted, ended := Handle(s, revert).0, ApplyOutcome(s, event, rule).0;
    RevertLeaves(s, event.order, a);
    ReleaseLeaves(s, event, rule);
    HandleKeepsState(s, revert);
    OutcomeKeepsState(s, event, rule);
    ReleaseLeaves(reverted, event, rule);
    RevertLeaves(ended, event.order, a);
    SameEnd(s, event.order, a, event.requester, reverted, ApplyOutcome(reverted, event, rule).0, ended,
            Handle(ended, revert).0);
  }
}
