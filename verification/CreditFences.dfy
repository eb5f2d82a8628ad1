/** What no later transaction can take back: reverted offers, released orders, recorded insufficiency and
    settled outcomes stay that way over every run. */
module CreditFences {
  import opened Common
  import opened Credit
  import opened CreditBooks
  import opened CreditLedger
  import opened CreditSafety

  // Runs seen from one order

  ghost function EnoughFor(s: State, call: Call): bool {
    var need := NeedOf(BookOf(s, call.order), call);
    Covers(Lock(s.bank, need), need)
  }

  ghost function ServedIn(s: State, call: Call): Served {
    Serve(BookOf(s, call.order), call, EnoughFor(s, call))
  }

  // A refused call or a repeat leaves the book alone.
  lemma UncommittedServe(b: Book, call: Call, enough: bool)
    ensures var served := Serve(b, call, enough);
            KeyOf(call) in b.operations || (served.reply.Err? && served.reply.error != InsufficientCredits) ==>
              served.book == b
  {}

  // A call's transaction always commits what Serve gives: posting its entries never fails.
  lemma HandleServes(s: State, call: Call)
    requires StateOk(s)
    ensures Handle(s, call).1 == ServedIn(s, call).reply
    ensures BookOf(Handle(s, call).0, call.order) == ServedIn(s, call).book
    ensures forall o :: o != call.order ==> BookOf(Handle(s, call).0, o) == BookOf(s, o)
  {
    hide Serve, StateOk, NeedOf, Post, Covers, Lock;
    UncommittedServe(BookOf(s, call.order), call, EnoughFor(s, call));
    ServePosts(s, call);
  }

  lemma NothingPosted(s: State, call: Call)
    requires ServedIn(s, call).entries == [] && (call.Revert? || call.Release?)
    ensures Handle(s, call).0.bank == s.bank
  {}

  lemma ErrorChangesNothing(s: State, call: Call)
    requires ServedIn(s, call).reply.Err?
    requires KeyOf(call) in BookOf(s, call.order).operations || ServedIn(s, call).reply.error != InsufficientCredits
    ensures Handle(s, call) == (s, ServedIn(s, call).reply)
  {}

  lemma HandleBook(s: State, call: Call, o: OrderId)
    requires StateOk(s)
    ensures BookOk(BookOf(Handle(s, call).0, o)) && Grows(BookOf(s, o), BookOf(Handle(s, call).0, o))
  {
    BookOfOk(s, o);
    HandleServes(s, call);
    if o == call.order {
      ServeKeepsBook(BookOf(s, o), call, EnoughFor(s, call));
    }
  }

  lemma OutcomeEnds(s: State, event: OrderOutcome, rule: PayoutRule, o: OrderId)
    ensures var out := Canonical(event);
            var b' := BookOf(ApplyOutcome(s, event, rule).0, o);
            || b' == BookOf(s, o)
            || (o == out.order && End(BookOf(s, o), out, rule).Accept? && b' == End(BookOf(s, o), out, rule).book)
  {}

  lemma AcceptedEnds(s: State, event: OrderOutcome, rule: PayoutRule)
    requires ApplyOutcome(s, event, rule).1.Ok?
    ensures var out := Canonical(event);
            && out.order == event.order && IsValidOutcome(out) && End(BookOf(s, event.order), out, rule).Accept?
            && BookOf(ApplyOutcome(s, event, rule).0, event.order) == End(BookOf(s, event.order), out, rule).book
  {
    hide End, Post, OpenAll, IsValidOutcome;
  }

  lemma OutcomeBook(s: State, event: OrderOutcome, rule: PayoutRule, o: OrderId)
    requires StateOk(s)
    ensures var s' := ApplyOutcome(s, event, rule).0;
            BookOk(BookOf(s', o)) && Grows(BookOf(s, o), BookOf(s', o))
  {
    BookOfOk(s, o);
    OutcomeEnds(s, event, rule, o);
    if End(BookOf(s, o), Canonical(event), rule).Accept? {
      EndKeepsBook(BookOf(s, o), Canonical(event), rule);
    }
  }

  lemma NextGrows(s: State, e: Event, rule: PayoutRule, o: OrderId)
    requires StateOk(s)
    ensures Grows(BookOf(s, o), BookOf(Next(s, e, rule), o))
  {
    match e {
      case Opened(_) =>
      case Called(call) => HandleBook(s, call, o);
      case Ended(out) => OutcomeBook(s, out, rule, o);
    }
  }

  /** No run takes back a terminal reservation, a reverted offer, an operation record or a revision. */
  lemma {:induction false} RunGrows(s: State, events: seq<Event>, rule: PayoutRule, o: OrderId)
    requires StateOk(s)
    ensures StateOk(Run(s, events, rule)) && BookOk(BookOf(Run(s, events, rule), o))
    ensures Grows(BookOf(s, o), BookOf(Run(s, events, rule), o))
    decreases |events|
  {
    if events == [] {
      BookOfOk(s, o);
    } else {
      var s1 := Next(s, events[0], rule);
      NextKeepsState(s, events[0], rule);
      NextGrows(s, events[0], rule, o);
      RunGrows(s1, events[1..], rule, o);
      GrowsTransitive(BookOf(s, o), BookOf(s1, o), BookOf(Run(s, events, rule), o));
    }
  }

  // Reverted offers

  // The answer of a fenced Adjust is an error, and not one that would be recorded.
  lemma FencedAdjust(b: Book, call: Call, enough: bool)
    requires BookOk(b) && call.Adjust? && IsFenced(b, call.attempt)
    ensures Serve(b, call, enough).reply.Err? && Serve(b, call, enough).book == b
    ensures KeyOf(call) in b.operations || Serve(b, call, enough).reply.error != InsufficientCredits
  {
    assert CheckReplay(b, KeyOf(call)).Some?;
  }

  lemma RevertFences(b: Book, o: OrderId, a: AttemptId, enough: bool)
    requires BookOk(b) && Serve(b, Call.Revert(o, a), enough).reply.Ok?
    ensures IsFenced(Serve(b, Call.Revert(o, a), enough).book, a)
  {
    if OpRevert(a) in b.operations {
      assert OperationOk(b, OpRevert(a), b.operations[OpRevert(a)]);
    }
  }

  /** Once RevertAdjustment(o, a) has succeeded, no AdjustReservation for a, first or repeated, with whatever
      courier and amount, ever succeeds or changes anything. */
  lemma RevertFencesForever(s: State, o: OrderId, a: AttemptId, events: seq<Event>, rule: PayoutRule,
                            courier: UserId, offer: int)
    requires StateOk(s) && Handle(s, Call.Revert(o, a)).1.Ok?
    ensures var later := Run(Handle(s, Call.Revert(o, a)).0, events, rule);
            && Handle(later, Call.Adjust(o, a, courier, offer)).1.Err?
            && Handle(later, Call.Adjust(o, a, courier, offer)).0 == later
  {
    BookOfOk(s, o);
    HandleServes(s, Call.Revert(o, a));
    RevertFences(BookOf(s, o), o, a, EnoughFor(s, Call.Revert(o, a)));
    HandleKeepsState(s, Call.Revert(o, a));
    var s1 := Handle(s, Call.Revert(o, a)).0;
    RunGrows(s1, events, rule, o);
    var later := Run(s1, events, rule);
    var call := Call.Adjust(o, a, courier, offer);
    FencedAdjust(BookOf(later, o), call, EnoughFor(later, call));
    ErrorChangesNothing(later, call);
  }

  lemma StaleServe(b: Book, o: OrderId, a: AttemptId, enough: bool)
    requires !(b.current.Some? && b.current.value.status == Assigned && b.current.value.assignment == Some(a))
    ensures var served := Serve(b, Call.Revert(o, a), enough);
            served.book.current == b.current && served.entries == []
  {}

  /** RevertAdjustment moves a hold exactly when its own offer is the one on the reservation: a stale revert
      leaves the reservation, every account and the ledger alone. */
  lemma StaleRevertMovesNothing(s: State, o: OrderId, a: AttemptId)
    requires StateOk(s)
    requires var r := BookOf(s, o).current;
             !(r.Some? && r.value.status == Assigned && r.value.assignment == Some(a))
    ensures BookOf(Handle(s, Call.Revert(o, a)).0, o).current == BookOf(s, o).current
    ensures Handle(s, Call.Revert(o, a)).0.bank == s.bank
  {
    HandleServes(s, Call.Revert(o, a));
    StaleServe(BookOf(s, o), o, a, EnoughFor(s, Call.Revert(o, a)));
    NothingPosted(s, Call.Revert(o, a));
  }

  // Holds

  // No credits are held for the order, and none ever will be.
  ghost predicate NoHold(b: Book) {
    || (b.current.Some? && b.current.value.status == Released)
    || (b.current.None? && OpReserve in b.operations && b.operations[OpReserve].insufficient)
  }

  lemma NoHoldRefusesReserve(b: Book, call: Call, enough: bool)
    requires BookOk(b) && NoHold(b) && call.Reserve?
    ensures Serve(b, call, enough).reply.Err? && Serve(b, call, enough).book == b
    ensures KeyOf(call) in b.operations || Serve(b, call, enough).reply.error != InsufficientCredits
  {}

  lemma ServeKeepsNoHold(b: Book, call: Call, enough: bool)
    requires BookOk(b) && NoHold(b)
    ensures NoHold(Serve(b, call, enough).book)
  {
    ServeKeepsBook(b, call, enough);
    if b.current.None? {
      ServeCases(b, call, enough);
    }
  }

  lemma EndKeepsNoHold(b: Book, out: OrderOutcome, rule: PayoutRule)
    requires BookOk(b) && NoHold(b) && End(b, out, rule).Accept?
    ensures NoHold(End(b, out, rule).book)
  {}

  lemma NextKeepsNoHold(s: State, e: Event, rule: PayoutRule, o: OrderId)
    requires StateOk(s) && NoHold(BookOf(s, o))
    ensures NoHold(BookOf(Next(s, e, rule), o))
  {
    BookOfOk(s, o);
    match e {
      case Opened(_) =>
      case Called(call) =>
        HandleServes(s, call);
        if o == call.order {
          ServeKeepsNoHold(BookOf(s, o), call, EnoughFor(s, call));
        }
      case Ended(event) =>
        OutcomeEnds(s, event, rule, o);
        if End(BookOf(s, o), Canonical(event), rule).Accept? {
          EndKeepsNoHold(BookOf(s, o), Canonical(event), rule);
        }
    }
  }

  lemma {:induction false} RunKeepsNoHold(s: State, events: seq<Event>, rule: PayoutRule, o: OrderId)
    requires StateOk(s) && NoHold(BookOf(s, o))
    ensures NoHold(BookOf(Run(s, events, rule), o))
    decreases |events|
  {
    if events != [] {
      NextKeepsState(s, events[0], rule);
      NextKeepsNoHold(s, events[0], rule, o);
      RunKeepsNoHold(Next(s, events[0], rule), events[1..], rule, o);
    }
  }

  // A release that succeeded, or a Reserve whose insufficiency is stored.
  ghost predicate RefusesHold(call: Call, reply: Result<View, Error>) {
    || (call.Release? && reply.Ok?)
    || (call.Reserve? && reply == Err(InsufficientCredits))
  }

  lemma CallEndsHold(b: Book, call: Call, enough: bool)
    requires BookOk(b) && RefusesHold(call, Serve(b, call, enough).reply)
    ensures NoHold(Serve(b, call, enough).book)
  {
    if KeyOf(call) in b.operations {
      assert OperationOk(b, KeyOf(call), b.operations[KeyOf(call)]);
    }
  }

  lemma NoHoldNow(s: State, o: OrderId, requester: UserId, amount: int)
    requires StateOk(s) && NoHold(BookOf(s, o))
    ensures ReservedFor(BookOf(s, o)) == 0
    ensures Handle(s, Call.Reserve(o, requester, amount)).1.Err?
    ensures Handle(s, Call.Reserve(o, requester, amount)).0 == s
  {
    BookOfOk(s, o);
    var call := Call.Reserve(o, requester, amount);
    NoHoldRefusesReserve(BookOf(s, o), call, EnoughFor(s, call));
    ErrorChangesNothing(s, call);
  }

  /** Once a release has succeeded, or INSUFFICIENT_CREDITS was stored, no Reserve for that order, first or
      repeated, ever succeeds or changes anything, and the order holds nothing. */
  lemma NoHoldForever(s: State, call: Call, events: seq<Event>, rule: PayoutRule, requester: UserId, amount: int)
    requires StateOk(s) && RefusesHold(call, Handle(s, call).1)
    ensures var later := Run(Handle(s, call).0, events, rule);
            && ReservedFor(BookOf(later, call.order)) == 0
            && Handle(later, Call.Reserve(call.order, requester, amount)).1.Err?
            && Handle(later, Call.Reserve(call.order, requester, amount)).0 == later
  {
    BookOfOk(s, call.order);
    HandleServes(s, call);
    CallEndsHold(BookOf(s, call.order), call, EnoughFor(s, call));
    HandleKeepsState(s, call);
    var s1 := Handle(s, call).0;
    RunKeepsNoHold(s1, events, rule, call.order);
    RunGrows(s1, events, rule, call.order);
    NoHoldNow(Run(s1, events, rule), call.order, requester, amount);
  }

  // Assignment table

  ghost predicate TableOk(b: Book) {
    b.current.Some? ==>
      var r := b.current.value;
      && (r.status == Held ==> forall a: AttemptId :: !IsApplied(b, a))
      && (r.status == Assigned ==>
            && r.assignment.Some? && IsApplied(b, r.assignment.value)
            && (forall a: AttemptId :: IsApplied(b, a) ==> r.assignment == Some(a))
            && b.assignments[r.assignment.value].offer == r.reserved >= r.original)
      && (r.status == Settled ==> r.assignment.Some? && IsApplied(b, r.assignment.value))
  }

  lemma BookTable(b: Book)
    requires HistoryOk(b) && AssignmentsOk(b)
    ensures TableOk(b)
  {
    if b.current.Some? {
      assert b.history[|b.history| - 1] == b.current.value;
    }
  }

  /** In every reachable state a Held reservation has no applied offer; an Assigned one has exactly the recorded
      offer, which is the whole hold and at least the original amount; a Settled one's offer stays applied. */
  lemma AssignmentTable(events: seq<Event>, rule: PayoutRule, o: OrderId)
    ensures TableOk(BookOf(Run(INITIAL, events, rule), o))
  {
    InitialOk();
    RunGrows(INITIAL, events, rule, o);
    BookTable(BookOf(Run(INITIAL, events, rule), o));
  }

  /** Past the refusal of a settled reservation, RevertAdjustment finds an applied offer that is not the active one
      exactly when the reservation has been released. */
  lemma InactiveOnlyWhenReleased(b: Book, a: AttemptId)
    requires BookOk(b) && IsApplied(b, a) && b.current.value.status != Settled
    ensures b.current.value.status != Assigned || b.current.value.assignment != Some(a)
       <==> b.current.value.status == Released
  {}

  // Errors that cannot happen

  lemma ReplayNeverBreaks(b: Book, call: Call)
    requires BookOk(b) && KeyOf(call) in b.operations
    ensures Replay(b, call) != Err(Integrity) && Replay(b, call) != Err(Aborted)
  {
    var op := b.operations[KeyOf(call)];
    assert OperationOk(b, KeyOf(call), op);
    if !op.insufficient {
      assert b.history[op.revision - 1].status == Assigned ==> RecordsOffer(b, b.history[op.revision - 1]);
    }
  }

  lemma FirstNeverBreaks(b: Book, call: Call, enough: bool)
    requires BookOk(b)
    ensures First(b, call, enough) != Refuse(Integrity) && First(b, call, enough) != Refuse(Aborted)
  {
    if b.current.Some? {
      assert b.history[|b.history| - 1] == b.current.value;
    }
  }

  // What a first call stores can be described: an Assigned reservation has its offer on record.
  lemma CommitIsDescribed(b: Book, call: Call, enough: bool)
    requires BookOk(b) && First(b, call, enough).Commit?
    ensures WithAdjustment(First(b, call, enough).book, First(b, call, enough).stored).Ok?
  {
    if b.current.Some? {
      assert b.history[|b.history| - 1] == b.current.value;
    }
  }

  lemma ServeNeverBreaks(b: Book, call: Call, enough: bool)
    requires BookOk(b)
    ensures Serve(b, call, enough).reply != Err(Integrity) && Serve(b, call, enough).reply != Err(Aborted)
  {
    if KeyOf(call) in b.operations {
      ReplayNeverBreaks(b, call);
    } else {
      FirstNeverBreaks(b, call, enough);
      if First(b, call, enough).Commit? {
        CommitIsDescribed(b, call, enough);
      }
    }
  }

  /** No call reaches a schema violation or a lost revision compare-and-set. */
  lemma CallsNeverBreak(s: State, call: Call)
    requires StateOk(s)
    ensures Handle(s, call).1 != Err(Integrity) && Handle(s, call).1 != Err(Aborted)
  {
    BookOfOk(s, call.order);
    HandleServes(s, call);
    ServeNeverBreaks(BookOf(s, call.order), call, EnoughFor(s, call));
  }

  // The courier of the reservation's latest assignment.
  ghost function CourierOf(b: Book): Option<UserId> {
    if b.current.Some? && b.current.value.assignment.Some? && b.current.value.assignment.value in b.assignments
    then b.assignments[b.current.value.assignment.value].courier
    else None
  }

  // The reservation is one that the outcome may end, or one that it already ended.
  ghost predicate Agrees(b: Book, out: OrderOutcome) {
    if b.current.None? then ReasonOf(out).Some?
    else
      var r := b.current.value;
      && (r.requester.Some? ==> r.requester == Some(out.requester))
      && (r.status == Held ==> ReasonOf(out).Some?)
      && (r.status == Assigned ==> ReasonOf(out).Some? || CourierOf(b) == out.courier)
      && (r.status == Released ==>
            ReasonOf(out).Some? && r.settlement.Some? && r.settlement.value.releaseReason == ReasonOf(out))
      && (r.status == Settled ==>
            && ReasonOf(out).None? && r.settlement.Some? && r.settlement.value.outcome == SettlementOf(out)
            && CourierOf(b) == out.courier)
  }

  lemma PayoutFits(offer: int, out: OrderOutcome)
    requires offer > 0 && IsValidOutcome(out)
    ensures 0 <= LatenessPayout(offer, out) <= offer
  {
    if out.kind == OrderCompleted {
      Lateness.PayableBounds(offer, At(out.deliveredAt) - At(out.pickedUpAt), out.deliveryDuration);
    }
  }

  // Under the lateness rule the payable guard, the missing assignment and the missing parties cannot happen.
  lemma AcceptsAgreement(b: Book, out: OrderOutcome)
    requires BookOk(b) && IsValidOutcome(out)
    ensures End(b, out, LatenessPayout).Accept? <==> Agrees(b, out)
    ensures End(b, out, LatenessPayout).Accept? ==>
              (End(b, out, LatenessPayout).applied <==> b.current.None? || !b.current.value.IsTerminal())
  {
    if b.current.Some? {
      assert b.history[|b.history| - 1] == b.current.value;
      if b.current.value.status == Assigned {
        PayoutFits(b.assignments[b.current.value.assignment.value].offer, out);
      }
    }
  }

  /** An outcome is accepted exactly when the reservation may end that way or already did, applies exactly when the
      reservation was still open, and nothing but a malformed or disagreeing event makes it fail. */
  lemma OutcomesAreAcceptedExactly(s: State, event: OrderOutcome)
    requires StateOk(s)
    ensures var out := Canonical(event);
            var b := BookOf(s, event.order);
            var reply := ApplyOutcome(s, event, LatenessPayout).1;
            && (reply.Ok? <==> IsValidOutcome(out) && Agrees(b, out))
            && (reply.Ok? ==> (reply.value.applied <==> b.current.None? || !b.current.value.IsTerminal()))
            && reply != Err(Integrity) && reply != Err(Aborted)
            && (reply == Err(ReservationNotAssigned) ==> b.current.Some? && b.current.value.status == Held)
  {
    var out := Canonical(event);
    var b := BookOf(s, out.order);
    BookOfOk(s, out.order);
    if IsValidOutcome(out) {
      AcceptsAgreement(b, out);
      if End(b, out, LatenessPayout).Accept? {
        EndsOk(s, out, LatenessPayout);
      } else {
        EndErrors(b, out);
      }
    }
  }

  lemma EndErrors(b: Book, out: OrderOutcome)
    requires BookOk(b) && IsValidOutcome(out) && End(b, out, LatenessPayout).Reject?
    ensures var e := End(b, out, LatenessPayout).error;
            && e != Integrity && e != Aborted && e != InvalidArgument
            && (e == ReservationNotAssigned ==> b.current.Some? && b.current.value.status == Held)
  {
    if b.current.Some? {
      assert b.history[|b.history| - 1] == b.current.value;
      if b.current.value.status == Assigned {
        PayoutFits(b.assignments[b.current.value.assignment.value].offer, out);
      }
    }
  }

  /** Settling splits the hold exactly: what the courier gets and what the requester gets back. */
  lemma SettlementSplitsHold(b: Book, out: OrderOutcome)
    requires BookOk(b) && IsValidOutcome(out) && ReasonOf(out).None? && b.current.Some?
    requires b.current.value.status == Assigned && End(b, out, LatenessPayout).Accept?
    ensures var r := b.current.value;
            var settlement := End(b, out, LatenessPayout).stored.settlement.value;
            && settlement.paidToCourier + settlement.returnedToRequester == r.reserved
            && 0 <= settlement.paidToCourier <= r.reserved
            && (out.kind != OrderCompleted ==> settlement.returnedToRequester == 0)
            && (out.kind == OrderCompleted ==>
                  settlement.paidToCourier ==
                  Lateness.Payable(r.reserved, out.deliveredAt.value - out.pickedUpAt.value, out.deliveryDuration))
  {
    assert b.history[|b.history| - 1] == b.current.value;
  }

  lemma EndStores(b: Book, out: OrderOutcome)
    requires End(b, out, LatenessPayout).Accept?
    ensures End(b, out, LatenessPayout).book.current == Some(End(b, out, LatenessPayout).stored)
  {}

  lemma EndAgrees(b: Book, out: OrderOutcome)
    requires BookOk(b) && IsValidOutcome(out) && End(b, out, LatenessPayout).Accept?
    ensures Agrees(End(b, out, LatenessPayout).book, out)
  {
    AcceptsAgreement(b, out);
  }

  lemma AgreementLasts(b: Book, b': Book, out: OrderOutcome)
    requires BookOk(b) && BookOk(b') && Grows(b, b')
    requires b.current.Some? && b.current.value.IsTerminal() && Agrees(b, out)
    ensures Agrees(b', out)
  {}

  lemma AgainChangesNothing(b: Book, out: OrderOutcome)
    requires b.current.Some? && b.current.value.IsTerminal()
    requires End(b, out, LatenessPayout).Accept?
    ensures End(b, out, LatenessPayout) == Accept(b, b.current.value, false, [], [])
  {}

  lemma AcceptedOnce(b: Book, b': Book, out: OrderOutcome)
    requires BookOk(b) && IsValidOutcome(out) && End(b, out, LatenessPayout).Accept?
    requires BookOk(b') && Grows(End(b, out, LatenessPayout).book, b')
    ensures End(b', out, LatenessPayout) == Accept(b', End(b, out, LatenessPayout).stored, false, [], [])
  {
    EndKeepsBook(b, out, LatenessPayout);
    EndStores(b, out);
    EndAgrees(b, out);
    AgreementLasts(End(b, out, LatenessPayout).book, b', out);
    AcceptsAgreement(b', out);
    AgainChangesNothing(b', out);
  }

  lemma RepeatChangesNothing(s: State, event: OrderOutcome, stored: Reservation)
    requires IsValidOutcome(Canonical(event))
    requires var b := BookOf(s, event.order);
             && b.current == Some(stored)
             && End(b, Canonical(event), LatenessPayout) == Accept(b, stored, false, [], [])
    ensures ApplyOutcome(s, event, LatenessPayout) == (s, Ok(Conclusion(stored, false)))
  {
    assert s.books[event.order := BookOf(s, event.order)] == s.books;
  }

  /** However often an accepted outcome is delivered again, whatever happens in between, Credit accepts it, reports
      it as not applied, and changes nothing. */
  lemma OutcomeAppliesOnce(s: State, event: OrderOutcome, events: seq<Event>)
    requires StateOk(s) && ApplyOutcome(s, event, LatenessPayout).1.Ok?
    ensures var done := ApplyOutcome(s, event, LatenessPayout);
            var later := Run(done.0, events, LatenessPayout);
            && done.1.value.reservation.IsTerminal()
            && ApplyOutcome(later, event, LatenessPayout) == (later, Ok(Conclusion(done.1.value.reservation, false)))
  {
    var out := Canonical(event);
    var done := ApplyOutcome(s, event, LatenessPayout);
    BookOfOk(s, out.order);
    var b := BookOf(s, out.order);
    EndKeepsBook(b, out, LatenessPayout);
    EndStores(b, out);
    OutcomeKeepsState(s, event, LatenessPayout);
    RunGrows(done.0, events, LatenessPayout, out.order);
    var later := Run(done.0, events, LatenessPayout);
    AcceptedOnce(b, BookOf(later, out.order), out);
    RepeatChangesNothing(later, event, End(b, out, LatenessPayout).stored);
  }
}
