/** What holds of every order's book between two Credit transactions, and what none of them takes back. */
module CreditBooks {
  import opened Common
  import opened Credit

  ghost predicate IsApplied(b: Book, a: AttemptId) {
    a in b.assignments && b.assignments[a].status == Applied
  }

  ghost predicate IsFenced(b: Book, a: AttemptId) {
    a in b.assignments && b.assignments[a].status == Reverted
  }

  // The CHECK constraints of the reservations table, strengthened where the operations allow it.
  ghost predicate ShapeOk(r: Reservation) {
    match r.status
    case Held =>
      r.requester.Some? && 0 < r.original == r.reserved && r.assignment.None? && r.settlement.None?
    case Assigned =>
      r.requester.Some? && 0 < r.original <= r.reserved && r.assignment.Some? && r.settlement.None?
    case Released =>
      && r.reserved == 0 && 0 <= r.original
      && (r.requester.None? ==> r.original == 0 && r.assignment.None?)
      && (r.requester.Some? ==> r.original > 0)
      && r.settlement.Some? && r.settlement.value.outcome == OutcomeReleased
      && r.settlement.value.paidToCourier == 0 && 0 <= r.settlement.value.returnedToRequester
      && r.settlement.value.releaseReason.Some?
    case Settled =>
      && r.requester.Some? && r.reserved == 0 < r.original && r.assignment.Some?
      && r.settlement.Some? && r.settlement.value.outcome != OutcomeReleased
      && 0 <= r.settlement.value.paidToCourier && 0 <= r.settlement.value.returnedToRequester
  }

  // Revisions count from one, and the requester and original amount never change.
  ghost predicate HistoryOk(b: Book) {
    && (b.current.None? ==> b.history == [])
    && (b.current.Some? ==>
          && b.history != [] && b.history[|b.history| - 1] == b.current.value
          && forall i :: 0 <= i < |b.history| ==>
               && ShapeOk(b.history[i]) && b.history[i].revision == i + 1
               && b.history[i].requester == b.current.value.requester
               && b.history[i].original == b.current.value.original)
  }

  // At most one applied assignment: the one on the reservation. Held has none; Assigned and Settled have it.
  ghost predicate AssignmentsOk(b: Book) {
    && (b.current.None? ==> b.assignments == map[])
    && (forall a :: IsApplied(b, a) ==>
          b.assignments[a].courier.Some? && b.assignments[a].offer > 0 && b.current.value.assignment == Some(a))
    && (b.current.Some? && (b.current.value.status == Assigned || b.current.value.status == Settled) ==>
          b.current.value.assignment.Some? && IsApplied(b, b.current.value.assignment.value))
    && (forall i :: 0 <= i < |b.history| ==> b.history[i].status == Assigned ==> RecordsOffer(b, b.history[i]))
  }

  ghost predicate RecordsOffer(b: Book, r: Reservation) {
    && r.assignment.Some? && r.assignment.value in b.assignments
    && b.assignments[r.assignment.value].courier.Some? && b.assignments[r.assignment.value].offer == r.reserved
  }

  ghost predicate OperationOk(b: Book, k: OperationKey, op: Operation) {
    && (!op.insufficient ==> 1 <= op.revision <= |b.history|)
    && match k
       case OpReserve =>
         if op.insufficient then b.current.Some? ==> b.current.value.requester.None?
         else
           && b.current.Some? && b.current.value.requester.Some? && op.revision == 1
           && op.payload == ReservePayload(b.current.value.requester.value, b.current.value.original)
       case OpAdjust(a) =>
         if op.insufficient then a in b.assignments ==> b.assignments[a].courier.None?
         else
           && a in b.assignments && b.assignments[a].courier.Some?
           && op.payload == AdjustPayload(b.assignments[a].courier.value, b.assignments[a].offer)
           && b.history[op.revision - 1].status == Assigned
           && b.history[op.revision - 1].assignment == Some(a)
       case OpRevert(a) => !op.insufficient && IsFenced(b, a)
       case OpRelease => !op.insufficient && b.current.Some? && b.current.value.status == Released
  }

  ghost predicate OperationsOk(b: Book) {
    forall k :: k in b.operations ==> OperationOk(b, k, b.operations[k])
  }

  ghost predicate Succeeded(b: Book, k: OperationKey) {
    k in b.operations && !b.operations[k].insufficient
  }

  // Every row was written by the call that owns its key.
  ghost predicate RowsOwned(b: Book) {
    && (b.current.Some? && b.current.value.requester.Some? ==> Succeeded(b, OpReserve))
    && (forall a :: a in b.assignments ==>
          && (b.assignments[a].courier.Some? ==> Succeeded(b, OpAdjust(a)))
          && (b.assignments[a].status == Reverted ==> Succeeded(b, OpRevert(a))))
  }

  ghost predicate BookOk(b: Book) {
    && HistoryOk(b)
    && AssignmentsOk(b)
    && OperationsOk(b)
    && RowsOwned(b)
  }

  // What a later transaction can never take back.
  ghost predicate Grows(b: Book, b': Book) {
    && (b.current.Some? ==>
          && b'.current.Some?
          && b'.current.value.requester == b.current.value.requester
          && b'.current.value.original == b.current.value.original
          && (b.current.value.IsTerminal() ==> b'.current == b.current))
    && (forall a :: a in b.assignments ==>
          && a in b'.assignments
          && b'.assignments[a].courier == b.assignments[a].courier
          && b'.assignments[a].offer == b.assignments[a].offer
          && (b.assignments[a].status == Reverted ==> b'.assignments[a] == b.assignments[a]))
    && (forall k :: k in b.operations ==> k in b'.operations && b'.operations[k] == b.operations[k])
    && b.history <= b'.history
  }

  lemma GrowsTransitive(b: Book, b': Book, b'': Book)
    requires Grows(b, b') && Grows(b', b'')
    ensures Grows(b, b'')
  {}

  // Records of insufficiency stay true as long as no other call takes the hold or applies the offer.
  ghost predicate KeepsShortage(b: Book, b': Book) {
    && (OpReserve in b.operations && b.operations[OpReserve].insufficient && b'.current.Some? ==>
          b'.current.value.requester.None?)
    && (forall a :: OpAdjust(a) in b.operations && b.operations[OpAdjust(a)].insufficient && a in b'.assignments ==>
          b'.assignments[a].courier.None?)
  }

  lemma OperationKept(b: Book, b': Book, k: OperationKey)
    requires k in b.operations && OperationOk(b, k, b.operations[k])
    requires Grows(b, b') && KeepsShortage(b, b')
    ensures OperationOk(b', k, b.operations[k])
  {}

  lemma OperationsFollow(b: Book, b': Book, k: OperationKey, op: Operation)
    requires OperationsOk(b) && k !in b.operations
    requires Grows(b, b') && KeepsShortage(b, b')
    requires b'.operations == b.operations[k := op] && OperationOk(b', k, op)
    ensures OperationsOk(b')
  {
    forall k' | k' in b'.operations
      ensures OperationOk(b', k', b'.operations[k'])
    {
      if k' != k {
        OperationKept(b, b', k');
      }
    }
  }

  lemma UpdateKeepsHistory(b: Book, next: Reservation)
    requires HistoryOk(b) && b.current.Some? && ShapeOk(next)
    requires next.requester == b.current.value.requester && next.original == b.current.value.original
    ensures HistoryOk(Update(b, next))
  {
    var b' := Update(b, next);
    assert forall i :: 0 <= i < |b.history| ==> b'.history[i] == b.history[i];
  }

  // Reserve

  lemma ReserveKeepsBook(b: Book, call: Call, b': Book)
    requires BookOk(b) && call.Reserve? && call.amount > 0 && OpReserve !in b.operations
    requires First(b, call, true).Commit? && b' == Record(First(b, call, true).book, call, false, 1)
    ensures BookOk(b') && Grows(b, b') && b'.current == Some(First(b, call, true).stored)
  {
    assert b'.history == [b'.current.value];
    OperationsFollow(b, b', OpReserve, b'.operations[OpReserve]);
  }

  // A stored INSUFFICIENT_CREDITS changes nothing but the operation record.
  lemma ShortageKeepsBook(b: Book, call: Call, b': Book)
    requires BookOk(b) && KeyOf(call) !in b.operations && b' == Record(b, call, true, 0)
    requires (call.Reserve? && b.current.None?) || (call.Adjust? && call.attempt !in b.assignments)
    ensures BookOk(b') && Grows(b, b')
  {
    OperationsFollow(b, b', KeyOf(call), b'.operations[KeyOf(call)]);
    assert b'.history[..|b.history|] == b.history[..|b.history|];
    OffersKept(b, b', |b.history|);
    assert forall a :: IsApplied(b', a) == IsApplied(b, a);
  }

  // Reservations of the old history keep the offers they recorded.
  lemma OffersKept(b: Book, b': Book, n: nat)
    requires n <= |b.history| && n <= |b'.history| && b'.history[..n] == b.history[..n]
    requires forall i :: 0 <= i < |b.history| ==> b.history[i].status == Assigned ==> RecordsOffer(b, b.history[i])
    requires forall a :: a in b.assignments ==>
               && a in b'.assignments && b'.assignments[a].courier == b.assignments[a].courier
               && b'.assignments[a].offer == b.assignments[a].offer
    ensures forall i :: 0 <= i < n ==> b'.history[i].status == Assigned ==> RecordsOffer(b', b'.history[i])
  {
    forall i | 0 <= i < n && b'.history[i].status == Assigned
      ensures RecordsOffer(b', b'.history[i])
    {
      assert b'.history[i] == b'.history[..n][i] == b.history[..n][i] == b.history[i];
    }
  }

  // AdjustReservation

  ghost predicate Adjusts(b: Book, call: Call, b': Book) {
    && call.Adjust? && call.offer > 0 && OpAdjust(call.attempt) !in b.operations
    && b.current.Some? && b.current.value.status == Held && b.current.value.original <= call.offer
    && call.attempt !in b.assignments
    && var next := b.current.value.(status := Assigned, reserved := call.offer, assignment := Some(call.attempt),
                                    revision := b.current.value.revision + 1);
       b' == Book(Some(next), b.history + [next],
                  b.assignments[call.attempt := Assignment(Some(call.courier), call.offer, Applied)],
                  b.operations[OpAdjust(call.attempt) := Operation(PayloadOf(call), false, next.revision)])
  }

  lemma AdjustAssigns(b: Book, call: Call, b': Book)
    requires HistoryOk(b) && AssignmentsOk(b) && Adjusts(b, call, b')
    ensures HistoryOk(b') && AssignmentsOk(b')
  {
    assert b.history == b'.history[..|b.history|] == b.history[..|b.history|];
    OffersKept(b, b', |b.history|);
    assert forall a :: a != call.attempt ==> IsApplied(b', a) == IsApplied(b, a);
  }

  lemma AdjustKeepsBook(b: Book, call: Call, b': Book)
    requires BookOk(b) && Adjusts(b, call, b')
    ensures BookOk(b') && Grows(b, b')
  {
    AdjustAssigns(b, call, b');
    OperationsFollow(b, b', OpAdjust(call.attempt), b'.operations[OpAdjust(call.attempt)]);
  }

  // RevertAdjustment

  ghost predicate Reverts(b: Book, call: Call, b': Book) {
    && call.Revert? && OpRevert(call.attempt) !in b.operations
    && b.current.Some? && b.current.value.status != Settled
    && var a := call.attempt;
       var undone :=
         if a in b.assignments then b.assignments[a].(status := Reverted) else Assignment(None, 0, Reverted);
       var r := b.current.value;
       var next := r.(status := Held, reserved := r.original, assignment := None, revision := r.revision + 1);
       && b'.assignments == b.assignments[a := undone]
       && (if r.status == Assigned && r.assignment == Some(a) then
             b'.current == Some(next) && b'.history == b.history + [next]
           else b'.current == b.current && b'.history == b.history)
       && b'.operations == b.operations[OpRevert(a) := Operation(RevertPayload, false, b'.current.value.revision)]
  }

  lemma RevertUnassigns(b: Book, call: Call, b': Book)
    requires HistoryOk(b) && AssignmentsOk(b) && Reverts(b, call, b')
    ensures HistoryOk(b') && AssignmentsOk(b')
  {
    assert b.history == b'.history[..|b.history|] == b.history[..|b.history|];
    OffersKept(b, b', |b.history|);
    assert forall a :: a != call.attempt ==> IsApplied(b', a) == IsApplied(b, a);
  }

  lemma RevertGrows(b: Book, call: Call, b': Book)
    requires HistoryOk(b) && Reverts(b, call, b')
    ensures Grows(b, b')
  {
    hide ShapeOk;
  }

  lemma RevertKeepsShortage(b: Book, call: Call, b': Book)
    requires OperationsOk(b) && Reverts(b, call, b')
    ensures KeepsShortage(b, b')
  {}

  lemma RevertOwnsRows(b: Book, call: Call, b': Book)
    requires RowsOwned(b) && Reverts(b, call, b')
    ensures RowsOwned(b')
  {}

  lemma RevertIsRecorded(b: Book, call: Call, b': Book)
    requires HistoryOk(b) && Reverts(b, call, b')
    ensures OperationOk(b', OpRevert(call.attempt), b'.operations[OpRevert(call.attempt)])
  {
    hide ShapeOk;
  }

  lemma RevertKeepsBook(b: Book, call: Call, b': Book)
    requires BookOk(b) && Reverts(b, call, b')
    ensures BookOk(b') && Grows(b, b')
  {
    hide HistoryOk, AssignmentsOk, OperationsOk, RowsOwned, OperationOk, Grows, KeepsShortage;
    RevertUnassigns(b, call, b');
    RevertGrows(b, call, b');
    RevertKeepsShortage(b, call, b');
    RevertOwnsRows(b, call, b');
    RevertIsRecorded(b, call, b');
    OperationsFollow(b, b', OpRevert(call.attempt), b'.operations[OpRevert(call.attempt)]);
  }

  // Releases and settlements close a reservation that was Held or Assigned.

  ghost predicate Closes(b: Book, next: Reservation, b': Book) {
    && b.current.Some? && !b.current.value.IsTerminal()
    && next.IsTerminal() && ShapeOk(next) && (next.status == Settled ==> b.current.value.status == Assigned)
    && next.requester == b.current.value.requester && next.original == b.current.value.original
    && next.assignment == b.current.value.assignment
    && b' == Update(b, next)
  }

  lemma CloseAssigns(b: Book, next: Reservation, b': Book)
    requires HistoryOk(b) && AssignmentsOk(b) && Closes(b, next, b')
    ensures HistoryOk(b') && AssignmentsOk(b')
  {
    UpdateKeepsHistory(b, next);
    assert b'.history[..|b.history|] == b.history[..|b.history|];
    OffersKept(b, b', |b.history|);
    assert forall a :: IsApplied(b', a) == IsApplied(b, a);
  }

  lemma CloseKeepsBook(b: Book, next: Reservation, b': Book)
    requires BookOk(b) && Closes(b, next, b')
    ensures BookOk(b') && Grows(b, b')
  {
    CloseAssigns(b, next, b');
    forall k | k in b.operations
      ensures OperationOk(b', k, b.operations[k])
    {
      OperationKept(b, b', k);
    }
  }

  // A release of an order Credit has not seen leaves a tombstone.
  lemma TombstoneKeepsBook(b: Book, reason: ReleaseReason, b': Book)
    requires BookOk(b) && b.current.None?
    requires b' == Insert(b, Reservation(None, Released, 0, 0, None, ReleasedAs(0, reason), 1))
    ensures BookOk(b') && Grows(b, b')
  {
    assert b'.history == [b'.current.value];
    forall k | k in b.operations
      ensures OperationOk(b', k, b.operations[k])
    {
      OperationKept(b, b', k);
    }
  }

  lemma ReleaseKeepsBook(b: Book, o: OrderId, reason: ReleaseReason, b': Book)
    requires BookOk(b) && FirstRelease(b, o, reason).Commit? && b' == FirstRelease(b, o, reason).book
    ensures BookOk(b') && Grows(b, b')
    ensures b'.current == Some(FirstRelease(b, o, reason).stored) && b'.current.value.status == Released
    ensures b'.assignments == b.assignments && b'.operations == b.operations
  {
    match b.current {
      case None => TombstoneKeepsBook(b, reason, b');
      case Some(r) =>
        if r.status != Released {
          CloseKeepsBook(
            b, r.(status := Released, reserved := 0, settlement := ReleasedAs(r.reserved, reason)), b');
        }
    }
  }

  lemma ReleaseRecorded(b: Book, call: Call, b': Book)
    requires BookOk(b) && call.Release? && OpRelease !in b.operations
    requires b.current.Some? && b.current.value.status == Released
    requires b' == Record(b, call, false, b.current.value.revision)
    ensures BookOk(b') && Grows(b, b')
  {
    OperationsFollow(b, b', OpRelease, b'.operations[OpRelease]);
    assert b'.history[..|b.history|] == b.history[..|b.history|];
    OffersKept(b, b', |b.history|);
    assert forall a :: IsApplied(b', a) == IsApplied(b, a);
  }

  lemma SettleKeepsBook(b: Book, out: OrderOutcome, rule: PayoutRule, b': Book)
    requires BookOk(b) && b.current.Some? && b.current.value.status == Assigned
    requires Settle(b, b.current.value, out, rule).Accept? && b' == Settle(b, b.current.value, out, rule).book
    ensures BookOk(b') && Grows(b, b')
    ensures b'.current.value.status == Settled
  {
    CloseKeepsBook(b, b'.current.value, b');
  }

  /** Every outcome Credit accepts keeps the book and its one-way facts, and leaves it terminal. */
  lemma EndKeepsBook(b: Book, out: OrderOutcome, rule: PayoutRule)
    requires BookOk(b) && End(b, out, rule).Accept?
    ensures BookOk(End(b, out, rule).book) && Grows(b, End(b, out, rule).book)
    ensures End(b, out, rule).book.current.Some? && End(b, out, rule).book.current.value.IsTerminal()
  {
    var b' := End(b, out, rule).book;
    if ReasonOf(out).Some? {
      ReleaseKeepsBook(b, out.order, ReasonOf(out).value, b');
    } else if b.current.Some? && b.current.value.status == Assigned {
      SettleKeepsBook(b, out, rule, b');
    }
  }

  // The three things a call can do to the book, told apart without looking into it.
  lemma ServeCases(b: Book, call: Call, enough: bool)
    ensures var b' := Serve(b, call, enough).book;
            var first := First(b, call, enough);
            || b' == b
            || (&& IsWellFormed(call) && KeyOf(call) !in b.operations
                && ((first.Insufficient? && b' == Record(b, call, true, 0))
                    || (first.Commit? && b' == Record(first.book, call, false, first.stored.revision))))
  {}

  lemma CommitKeepsBook(b: Book, call: Call, first: Step, b': Book)
    requires BookOk(b) && IsWellFormed(call) && KeyOf(call) !in b.operations
    requires first == First(b, call, true) && first.Commit?
    requires b' == Record(first.book, call, false, first.stored.revision)
    ensures BookOk(b') && Grows(b, b')
  {
    match call {
      case Reserve(_, _, _) => ReserveKeepsBook(b, call, b');
      case Adjust(_, _, _, _) => AdjustKeepsBook(b, call, b');
      case Revert(_, _) => RevertKeepsBook(b, call, b');
      case Release(o, reason) =>
        ReleaseKeepsBook(b, o, reason, first.book);
        ReleaseRecorded(first.book, call, b');
        GrowsTransitive(b, first.book, b');
    }
  }

  lemma FirstCases(b: Book, call: Call)
    requires First(b, call, false).Insufficient?
    ensures (call.Reserve? && b.current.None?) || (call.Adjust? && call.attempt !in b.assignments)
  {}

  lemma FirstCommits(b: Book, call: Call, enough: bool)
    requires First(b, call, enough).Commit?
    ensures First(b, call, true) == First(b, call, enough)
  {}

  /** Every call keeps the book and its one-way facts, whether the requester can cover it or not. */
  lemma ServeKeepsBook(b: Book, call: Call, enough: bool)
    requires BookOk(b)
    ensures BookOk(Serve(b, call, enough).book) && Grows(b, Serve(b, call, enough).book)
  {
    ServeCases(b, call, enough);
    if Serve(b, call, enough).book != b {
      var first := First(b, call, enough);
      if first.Commit? {
        FirstCommits(b, call, enough);
        CommitKeepsBook(b, call, first, Serve(b, call, enough).book);
      } else {
        FirstCases(b, call);
        ShortageKeepsBook(b, call, Serve(b, call, enough).book);
      }
    }
  }
}
