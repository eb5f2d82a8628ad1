/** What no run of the system takes back, and what follows for creation, attempts, keys and repeated outcomes. */
module SagaHistory {
  import opened Common
  import opened Orders
  import opened OrderRecords
  import opened OrderInvariants
  import opened OrderSteps
  import opened Encoding
  import opened Saga
  import opened SagaInvariants
  import opened SagaCredit
  import opened SagaSteps
  import opened SagaSafety
  import opened SagaTheorems
  import opened CreditBooks
  import opened CreditFences
  import opened CreationEffects
  import C = Credit
  import L = CreditLedger

  // What lasts over runs

  ghost predicate AttemptLater(w: Attempt, w': Attempt) {
    && w'.caller == w.caller && w'.how == w.how && w'.offer == w.offer && w'.courier == w.courier
    && w'.amount == w.amount && w.generation <= w'.generation
    && (w.IsResolved() ==> w' == w)
    && (w.phase == RevertPending ==> w'.phase == RevertPending || w'.phase == AssignmentRejected)
  }

  ghost predicate RecordLater(r: Record, r': Record) {
    && (r.workflow.IsResolved() ==> r'.workflow == r.workflow)
    && (r.workflow.phase == AbortPending ==>
          r'.workflow.phase == AbortPending || r'.workflow.phase == CreationRejected)
    && Keeps(r.order, r'.order)
    && |r.attempts| <= |r'.attempts|
    && (forall i :: 0 <= i < |r.attempts| ==> AttemptLater(r.attempts[i], r'.attempts[i]))
    && r.facts <= r'.facts
  }

  ghost predicate CellLater(s: World, s': World, o: OrderId) {
    && o in s.cells && o in s'.cells
    && RecordLater(s.cells[o].record, s'.cells[o].record)
    && s.cells[o].net <= s'.cells[o].net
    && Grows(BookIn(s, o), BookIn(s', o))
  }

  ghost predicate KeysLater(s: World, s': World) {
    forall scope :: scope in s.keys ==> scope in s'.keys && s'.keys[scope] == s.keys[scope]
  }

  ghost predicate WorldLater(s: World, s': World) {
    KeysLater(s, s') && forall o :: o in s.cells ==> CellLater(s, s', o)
  }

  lemma FollowsIsLater(r: Record, r': Record)
    requires Follows(r, r')
    ensures RecordLater(r, r')
  {
    forall i | 0 <= i < |r.attempts|
      ensures AttemptLater(r.attempts[i], r'.attempts[i])
    {
      assert AttemptFollows(r.attempts[i], r'.attempts[i]);
    }
  }

  lemma RecordLaterTransitive(r: Record, r': Record, r'': Record)
    requires RecordLater(r, r') && RecordLater(r', r'')
    ensures RecordLater(r, r'')
  {
    forall i | 0 <= i < |r.attempts|
      ensures AttemptLater(r.attempts[i], r''.attempts[i])
    {
      assert AttemptLater(r.attempts[i], r'.attempts[i]);
      assert AttemptLater(r'.attempts[i], r''.attempts[i]);
    }
  }

  lemma CellLaterTransitive(s: World, s': World, s'': World, o: OrderId)
    requires CellLater(s, s', o) && CellLater(s', s'', o)
    ensures CellLater(s, s'', o)
  {
    hide RecordLater, Grows;
    RecordLaterTransitive(s.cells[o].record, s'.cells[o].record, s''.cells[o].record);
    GrowsTransitive(BookIn(s, o), BookIn(s', o), BookIn(s'', o));
  }

  lemma WorldLaterTransitive(s: World, s': World, s'': World)
    requires WorldLater(s, s') && WorldLater(s', s'')
    ensures WorldLater(s, s'')
  {
    hide RecordLater, Grows;
    forall o | o in s.cells
      ensures CellLater(s, s'', o)
    {
      assert CellLater(s, s', o);
      assert CellLater(s', s'', o);
      CellLaterTransitive(s, s', s'', o);
    }
  }

  lemma SelfLater(s: World, s': World, o: OrderId)
    requires o in s.cells && o in s'.cells && s'.cells[o] == s.cells[o] && BookIn(s', o) == BookIn(s, o)
    ensures CellLater(s, s', o)
  {
    FollowsSelf(s.cells[o].record);
    FollowsIsLater(s.cells[o].record, s.cells[o].record);
  }

  // One cell moved; nothing else did.
  lemma PutLater(s: World, s': World, o: OrderId)
    requires o in s.cells && s'.cells.Keys == s.cells.Keys
    requires forall p :: p in s.cells && p != o ==> s'.cells[p] == s.cells[p] && BookIn(s', p) == BookIn(s, p)
    requires CellLater(s, s', o) && KeysLater(s, s')
    ensures WorldLater(s, s')
  {
    hide CellLater;
    forall p | p in s.cells
      ensures CellLater(s, s', p)
    {
      if p != o {
        SelfLater(s, s', p);
      }
    }
  }

  lemma SameBookLater(s: World, s': World, o: OrderId)
    requires o in s.cells && o in s'.cells && Follows(s.cells[o].record, s'.cells[o].record)
    requires s.cells[o].net <= s'.cells[o].net && BookIn(s', o) == BookIn(s, o)
    ensures CellLater(s, s', o)
  {
    FollowsIsLater(s.cells[o].record, s'.cells[o].record);
  }

  lemma SameRecordLater(s: World, s': World, o: OrderId)
    requires o in s.cells && o in s'.cells && s'.cells[o].record == s.cells[o].record
    requires s.cells[o].net <= s'.cells[o].net && Grows(BookIn(s, o), BookIn(s', o))
    ensures CellLater(s, s', o)
  {
    FollowsSelf(s.cells[o].record);
    FollowsIsLater(s.cells[o].record, s.cells[o].record);
  }

  // Each kind of step only adds.

  lemma MoveLater(s: World, o: OrderId, cell': Cell)
    requires o in s.cells && CellStep(o, s.cells[o], cell', BookIn(s, o)) && s.cells[o].net <= cell'.net
    ensures WorldLater(s, Put(s, o, cell'))
  {
    hide CellOk, KeepsKeys, Follows;
    SameBookLater(s, Put(s, o, cell'), o);
    PutLater(s, Put(s, o, cell'), o);
  }

  lemma CallLater(s: World, o: OrderId, work: Work)
    requires WorldOk(s) && o in s.cells && CallOf(s.cells[o].record, o, work).Some?
    ensures var (credit, reply) := C.Handle(s.credit, CallOf(s.cells[o].record, o, work).value);
            WorldLater(s, Put(s.(credit := credit), o, Learnt(s.cells[o], ReplyToken(work, reply))))
  {
    hide CellOk, L.StateOk, C.Handle, KeysOk, Grows, BookOk;
    var call := CallOf(s.cells[o].record, o, work).value;
    assert call.order == o;
    HandleBook(s.credit, call, o);
    HandleServes(s.credit, call);
    var (credit, reply) := C.Handle(s.credit, call);
    var s' := Put(s.(credit := credit), o, Learnt(s.cells[o], ReplyToken(work, reply)));
    SameRecordLater(s, s', o);
    PutLater(s, s', o);
  }

  lemma OutcomeLater(s: World, o: OrderId, k: nat)
    requires WorldOk(s) && o in s.cells && EventOf(s.cells[o].record, k).Some?
    ensures WorldLater(s, s.(credit :=
              C.ApplyOutcome(s.credit, EventOf(s.cells[o].record, k).value, C.LatenessPayout).0))
  {
    hide CellOk, L.StateOk, C.ApplyOutcome, KeysOk, Grows, BookOk, OutcomeOf;
    var event := EventOf(s.cells[o].record, k).value;
    assert CellOk(o, s.cells[o], BookIn(s, o));
    EventIsEnd(o, s.cells[o], BookIn(s, o), k);
    var s' := s.(credit := C.ApplyOutcome(s.credit, event, C.LatenessPayout).0);
    OutcomeBook(s.credit, event, C.LatenessPayout, o);
    SameRecordLater(s, s', o);
    forall p | p in s.cells && p != o
      ensures BookIn(s', p) == BookIn(s, p)
    {
      OutcomeKeepsOthers(s.credit, event, p);
    }
    PutLater(s, s', o);
  }

  lemma AcceptLater(s: World, o: OrderId, caller: Caller, key: Key, now: Time)
    requires WorldOk(s) && o in s.cells && AcceptOrder(s.cells[o].record, s.keys, caller, key, now).Ok?
    ensures var a := AcceptOrder(s.cells[o].record, s.keys, caller, key, now).value;
            WorldLater(s, Put(s.(keys := a.keys), o, s.cells[o].(record := a.record)))
  {
    hide L.StateOk, AcceptOrder, AttemptsRetained, Follows, RecordOk, Ties, BookOk, NetOk;
    var cell, b := s.cells[o], BookIn(s, o);
    assert CellOk(o, cell, b) && AttemptsRetained(o, cell.record, s.keys);
    var a := AcceptOrder(cell.record, s.keys, caller, key, now).value;
    AcceptTies(cell.record, b, s.keys, caller, key, now);
    AcceptRetains(cell.record, s.keys, caller, key, now);
    var s' := Put(s.(keys := a.keys), o, cell.(record := a.record));
    SameBookLater(s, s', o);
    PutLater(s, s', o);
  }

  lemma LearnLater(s: World, o: OrderId, token: Option<Token>)
    requires o in s.cells
    ensures WorldLater(s, Put(s, o, Learnt(s.cells[o], token)))
  {
    var s' := Put(s, o, Learnt(s.cells[o], token));
    FollowsSelf(s.cells[o].record);
    SameBookLater(s, s', o);
    PutLater(s, s', o);
  }

  lemma SameLater(s: World)
    ensures WorldLater(s, s)
  {
    hide CellLater;
    forall o | o in s.cells
      ensures CellLater(s, s, o)
    {
      SelfLater(s, s, o);
    }
  }

  lemma StepLater(s: World, o: OrderId, step: Saga.Step)
    requires WorldOk(s) && o in s.cells
    ensures WorldLater(s, TakeOn(s, o, step))
  {
    hide WorldLater, CellOk, CellStep, L.StateOk, KeysOk, ClaimStep, ApplyWork, Act, C.ApplyOutcome, C.Handle,
         AcceptOrder, OutcomeOf, CallOf, ReadToken, ReplyToken;
    var cell, b := s.cells[o], BookIn(s, o);
    assert CellOk(o, cell, b);
    SameLater(s);
    match step {
      case ClaimIt(target, now) =>
        ClaimKeepsCell(o, cell, target, now, b);
        ClaimGrowsNet(cell, target, now);
        MoveLater(s, o, ClaimStep(cell, target, now));
      case CallCredit(work) =>
        if Claim(work) in cell.net && CallOf(cell.record, o, work).Some? {
          CallLater(s, o, work);
        }
      case ReadBack(work) => LearnLater(s, o, ReadToken(cell.net, b, o, work));
      case ApplyIt(work, seen, now, jitter) =>
        if IsKnown(cell.net, work, seen) {
          ApplyKeepsCell(o, cell, work, seen, now, jitter, b);
          MoveLater(s, o, Stored(cell, ApplyWork(cell.record, work, seen, now, jitter)));
        }
      case AcceptIt(caller, key, now) =>
        if AcceptOrder(cell.record, s.keys, caller, key, now).Ok? {
          AcceptLater(s, o, caller, key, now);
        }
      case ActLocally(action) =>
        ActKeepsCell(o, cell, action, b);
        MoveLater(s, o, Stored(cell, Act(cell.record, action)));
      case DeliverOutcome(k) =>
        if EventOf(cell.record, k).Some? {
          OutcomeLater(s, o, k);
        }
    }
  }

  lemma ClaimGrowsNet(cell: Cell, target: Target, now: Time)
    ensures cell.net <= ClaimStep(cell, target, now).net
  {
    ClaimCases(cell, target, now);
  }

  lemma OpenLater(s: World, user: UserId)
    ensures WorldLater(s, s.(credit := C.Next(s.credit, C.Opened(user), C.LatenessPayout)))
  {
    hide CellLater;
    var s' := s.(credit := C.Next(s.credit, C.Opened(user), C.LatenessPayout));
    forall o | o in s.cells
      ensures CellLater(s, s', o)
    {
      assert BookIn(s', o) == BookIn(s, o);
      SelfLater(s, s', o);
    }
  }

  lemma AdmitLater(s: World, o: OrderId, cell: Cell)
    requires o !in s.cells
    ensures WorldLater(s, Put(s, o, cell))
  {
    hide CellLater;
    forall p | p in s.cells
      ensures CellLater(s, Put(s, o, cell), p)
    {
      SelfLater(s, Put(s, o, cell), p);
    }
  }

  lemma TakeLater(s: World, l: Label)
    requires WorldOk(s)
    ensures WorldLater(s, Take(s, l))
  {
    hide WorldOk, WorldLater, TakeOn, AdmitCreation;
    SameLater(s);
    match l {
      case OpenAccount(user) => OpenLater(s, user);
      case Admit(o, requester, input, now) =>
        if o !in s.cells && AdmitCreation(o, requester, input, now).Ok? {
          AdmitLater(s, o, Cell(AdmitCreation(o, requester, input, now).value, {}));
        }
      case On(o, step) =>
        if o in s.cells {
          StepLater(s, o, step);
        }
    }
  }

  /** No run takes back a resolved workflow or attempt, a phase of no return, a fact, a retained key, a terminal
      reservation or a fence. */
  lemma {:induction false} RunLater(s: World, labels: seq<Label>)
    requires WorldOk(s)
    ensures WorldLater(s, Run(s, labels)) && WorldOk(Run(s, labels))
    decreases |labels|
  {
    hide WorldOk, WorldLater, Take;
    if labels == [] {
      SameLater(s);
    } else {
      TakeKeepsWorld(s, labels[0]);
      TakeLater(s, labels[0]);
      RunLater(Take(s, labels[0]), labels[1..]);
      WorldLaterTransitive(s, Take(s, labels[0]), Run(s, labels));
    }
  }

  lemma ReachedLater(labels: seq<Label>, more: seq<Label>)
    ensures WorldOk(Run(START, labels)) && WorldOk(Run(Run(START, labels), more))
    ensures WorldLater(Run(START, labels), Run(Run(START, labels), more))
  {
    hide WorldOk, WorldLater, Run;
    ReachedOk(labels);
    RunLater(Run(START, labels), more);
  }

  // Outcomes count once

  lemma TerminalStays(s: World, s': World, o: OrderId)
    requires CellLater(s, s', o) && BookIn(s, o).current.Some? && BookIn(s, o).current.value.IsTerminal()
    ensures BookIn(s', o).current == BookIn(s, o).current
  {}

  lemma DeliveryEnds(s: World, o: OrderId, k: nat)
    requires WorldOk(s) && o in s.cells && EventOf(s.cells[o].record, k).Some?
    ensures var s' := TakeOn(s, o, DeliverOutcome(k));
            && s'.cells == s.cells
            && BookIn(s', o).current.Some? && BookIn(s', o).current.value.IsTerminal()
  {
    hide KeysOk, CellOk, OutcomeOf, C.ApplyOutcome, C.End, BookOk, Grows;
    var event := EventOf(s.cells[o].record, k).value;
    EventAccepted(s, o, k);
    AcceptedEnds(s.credit, event, C.LatenessPayout);
    L.BookOfOk(s.credit, o);
    EndKeepsBook(BookIn(s, o), C.Canonical(event), C.LatenessPayout);
  }

  lemma EventLasts(s: World, s': World, o: OrderId, k: nat)
    requires CellLater(s, s', o) && EventOf(s.cells[o].record, k).Some?
    ensures EventOf(s'.cells[o].record, k) == EventOf(s.cells[o].record, k)
  {}

  /** However often and however late an outcome is delivered again, Credit accepts it and reports it as not applied:
      only the first delivery counts. */
  lemma OutcomeCountsOnce(labels: seq<Label>, o: OrderId, k: nat, more: seq<Label>)
    requires o in Run(START, labels).cells && EventOf(Run(START, labels).cells[o].record, k).Some?
    ensures var delivered := Run(START, labels + [On(o, DeliverOutcome(k))]);
            var later := Run(delivered, more);
            && o in later.cells && EventOf(later.cells[o].record, k) == EventOf(Run(START, labels).cells[o].record, k)
            && var reply := C.ApplyOutcome(later.credit, EventOf(later.cells[o].record, k).value, C.LatenessPayout).1;
               reply.Ok? && !reply.value.applied
  {
    hide WorldOk, Run, C.ApplyOutcome, EventOf, TakeOn;
    var s := Run(START, labels);
    RunAppend(START, labels, On(o, DeliverOutcome(k)));
    ReachedOk(labels);
    DeliveryEnds(s, o, k);
    var delivered := TakeOn(s, o, DeliverOutcome(k));
    TakeKeepsWorld(s, On(o, DeliverOutcome(k)));
    RunLater(delivered, more);
    var later := Run(delivered, more);
    assert CellLater(delivered, later, o);
    EventLasts(delivered, later, o, k);
    TerminalStays(delivered, later, o);
    EventAccepted(later, o, k);
  }

  lemma {:induction false} RunAppend(s: World, labels: seq<Label>, l: Label)
    ensures Run(s, labels + [l]) == Take(Run(s, labels), l)
    decreases |labels|
  {
    hide Take;
    if labels == [] {
      assert Run(s, [l]) == Run(Take(s, l), []) by {
        assert [l][1..] == [];
      }
      assert [] + [l] == [l];
    } else {
      assert (labels + [l])[1..] == labels[1..] + [l];
      RunAppend(Take(s, labels[0]), labels[1..], l);
    }
  }

  // Creation

  /** A rejected creation leaves nothing: in every later state the order holds no credits at Credit, and a Reserve
      that still arrives is refused and changes nothing. */
  lemma RejectedHoldsNothing(labels: seq<Label>, o: OrderId, more: seq<Label>, requester: UserId, amount: int)
    requires o in Run(START, labels).cells
    requires Run(START, labels).cells[o].record.workflow.phase == CreationRejected
    ensures var later := Run(Run(START, labels), more);
            && o in later.cells && later.cells[o].record.order.status == Rejected
            && L.ReservedFor(BookIn(later, o)) == 0
            && C.Handle(later.credit, C.Call.Reserve(o, requester, amount)).1.Err?
            && C.Handle(later.credit, C.Call.Reserve(o, requester, amount)).0 == later.credit
  {
    hide Run, L.StateOk, KeysOk, BookOk, C.Handle, NetOk, AttemptsTie, WithdrawalsTie, EndTie, Grows, KeysLater;
    ReachedLater(labels, more);
    var later := Run(Run(START, labels), more);
    assert CellLater(Run(START, labels), later, o);
    assert CellOk(o, later.cells[o], BookIn(later, o));
    NoHoldNow(later.credit, o, requester, amount);
  }

  lemma AbortClaimMeans(r: Record, b: C.Book, net: set<Token>, generation: int)
    requires NetOk(r, b, net) && Claim(CreationWork(generation, AbortPending)) in net
    ensures r.workflow.phase == AbortPending || r.workflow.phase == CreationRejected
  {
    assert TokenOk(r, b, Claim(CreationWork(generation, AbortPending)));
  }

  /** An opened order's hold was never released for expiry, nor will it be: no worker ever holds a claim to do so. */
  lemma OpenedIsNeverReleased(labels: seq<Label>, o: OrderId, more: seq<Label>, generation: int)
    requires o in Run(START, labels).cells
    requires Run(START, labels).cells[o].record.workflow.phase == CreationOpened
    ensures var later := Run(Run(START, labels), more);
            && o in later.cells && later.cells[o].record.workflow.phase == CreationOpened
            && Claim(CreationWork(generation, AbortPending)) !in later.cells[o].net
  {
    hide Run, L.StateOk, KeysOk, BookOk, RecordOk, Ties, Grows, KeysLater;
    ReachedLater(labels, more);
    var later := Run(Run(START, labels), more);
    assert CellLater(Run(START, labels), later, o);
    assert CellOk(o, later.cells[o], BookIn(later, o));
    if Claim(CreationWork(generation, AbortPending)) in later.cells[o].net {
      AbortClaimMeans(later.cells[o].record, BookIn(later, o), later.cells[o].net, generation);
    }
  }

  lemma OpensOnHold(r: Record, b: C.Book, r': Record)
    requires RecordOk(r) && BookOk(b) && Ties(r, b) && RecordOk(r') && Ties(r', b) && Follows(r, r')
    requires !r.workflow.IsResolved() && r'.workflow.phase == CreationOpened
    ensures b.current.Some?
    ensures var v := b.current.value;
            && v.status == C.Status.Held && v.requester == Some(r'.order.requester)
            && v.reserved == v.original == r'.workflow.amount
  {
    CurrentShape(b);
  }

  lemma OpensBeforeExpiry(r: Record, work: Work, seen: Seen, now: Time, jitter: Jitter)
    requires RecordOk(r) && ApplyWork(r, work, seen, now, jitter).Ok? && !r.workflow.IsResolved()
    requires ApplyWork(r, work, seen, now, jitter).value.workflow.phase == CreationOpened
    ensures work.CreationWork? && now < r.workflow.expiresAt
    ensures ApplyWork(r, work, seen, now, jitter).value.workflow.expiresAt == r.workflow.expiresAt
  {
    hide RecordOk, CreationMoveOf, CreationChange, NewChange, AssignmentMoveOf, Transition, RetryDelay;
    match work {
      case CreationWork(generation, phase) => DecidedExactly(r, generation, phase, seen, now, jitter);
      case _ =>
    }
  }

  /** At the moment an order opens it has not expired, and Credit holds exactly its amount for its requester. */
  lemma OpeningRestsOnHold(labels: seq<Label>, o: OrderId, work: Work, seen: Seen, now: Time, jitter: Jitter)
    requires o in Run(START, labels).cells && IsKnown(Run(START, labels).cells[o].net, work, seen)
    requires var r := Run(START, labels).cells[o].record;
             var result := ApplyWork(r, work, seen, now, jitter);
             result.Ok? && !r.workflow.IsResolved() && result.value.workflow.phase == CreationOpened
    ensures var s := Run(START, labels);
            var b := BookIn(s, o);
            var r' := ApplyWork(s.cells[o].record, work, seen, now, jitter).value;
            && b.current.Some?
            && var v := b.current.value;
               && v.status == C.Status.Held && v.requester == Some(r'.order.requester)
               && v.reserved == v.original == r'.workflow.amount && now < r'.workflow.expiresAt
  {
    hide Run, L.StateOk, KeysOk, BookOk, RecordOk, Ties, NetOk, ApplyWork, Follows, KeepsKeys;
    ReachedOk(labels);
    var s := Run(START, labels);
    var cell, b := s.cells[o], BookIn(s, o);
    assert CellOk(o, cell, b);
    OpensBeforeExpiry(cell.record, work, seen, now, jitter);
    ApplyKeepsCell(o, cell, work, seen, now, jitter, b);
    OpensOnHold(cell.record, b, ApplyWork(cell.record, work, seen, now, jitter).value);
  }

  // Attempts

  /** At most one attempt of an order is unresolved. */
  lemma OneAttemptAtATime(labels: seq<Label>, o: OrderId, i: AttemptId, j: AttemptId)
    requires o in Run(START, labels).cells
    requires var attempts := Run(START, labels).cells[o].record.attempts;
             i < |attempts| && j < |attempts| && !attempts[i].IsResolved() && !attempts[j].IsResolved()
    ensures i == j
  {
    hide Run, L.StateOk, KeysOk, BookOk, Ties, NetOk, HolderOk, CancellationsOk, FactsOk;
    ReachedOk(labels);
    var s := Run(START, labels);
    assert CellOk(o, s.cells[o], BookIn(s, o));
    ActiveIsTheOne(s.cells[o].record, i);
  }

  /** A result obtained under an older generation or another phase changes nothing, in any of the three sagas. */
  lemma StaleResultsChangeNothing(r: Record, work: Work, seen: Seen, now: Time, jitter: Jitter)
    requires match work
             case CreationWork(g, creation) => r.workflow.generation != g || r.workflow.phase != creation
             case AttemptWork(i, g, phase) =>
               i < |r.attempts| && (r.attempts[i].generation != g || r.attempts[i].phase != phase)
             case WithdrawalWork(c, g) => c < |r.cancellations| && r.cancellations[c].generation != g
    ensures ApplyWork(r, work, seen, now, jitter) == Ok(r)
  {}

  /** Once a worker may have sent the Revert of an attempt that had not succeeded, that attempt never succeeds. */
  lemma RevertedNeverSucceeds(labels: seq<Label>, o: OrderId, i: AttemptId, generation: int, more: seq<Label>)
    requires o in Run(START, labels).cells
    requires Claim(AttemptWork(i, generation, RevertPending)) in Run(START, labels).cells[o].net
    ensures var later := Run(Run(START, labels), more);
            && o in later.cells && i < |later.cells[o].record.attempts|
            && later.cells[o].record.attempts[i].phase != AssignmentSucceeded
  {
    hide Run, L.StateOk, KeysOk, BookOk, RecordOk, Ties, Grows, KeysLater, RecordLater;
    ReachedLater(labels, more);
    var later := Run(Run(START, labels), more);
    assert CellLater(Run(START, labels), later, o);
    assert CellOk(o, later.cells[o], BookIn(later, o));
    assert TokenOk(later.cells[o].record, BookIn(later, o), Claim(AttemptWork(i, generation, RevertPending)));
  }

  /** A rejected attempt that owned an offer is fenced for ever: no Adjust of it, however late, moves a credit. */
  lemma RejectedStaysFenced(labels: seq<Label>, o: OrderId, i: AttemptId, more: seq<Label>, courier: UserId,
                            offer: int)
    requires o in Run(START, labels).cells && i < |Run(START, labels).cells[o].record.attempts|
    requires var w := Run(START, labels).cells[o].record.attempts[i];
             w.phase == AssignmentRejected && w.offer.Some?
    ensures var later := Run(Run(START, labels), more);
            && IsFenced(BookIn(later, o), i)
            && C.Handle(later.credit, C.Call.Adjust(o, i, courier, offer)).1.Err?
            && C.Handle(later.credit, C.Call.Adjust(o, i, courier, offer)).0 == later.credit
  {
    hide Run, L.StateOk, KeysOk, BookOk, RecordOk, NetOk, C.Handle, Grows, KeysLater, RecordLater, CreationTie,
         WithdrawalsTie, EndTie;
    ReachedLater(labels, more);
    var s := Run(START, labels);
    var later := Run(s, more);
    assert CellLater(s, later, o);
    assert CellOk(o, s.cells[o], BookIn(s, o));
    assert AttemptTie(s.cells[o].record, BookIn(s, o), i);
    FencesLast(BookIn(s, o), BookIn(later, o), i);
    FencedNow(later.credit, o, i, courier, offer);
  }

  lemma FencedNow(credit: C.State, o: OrderId, a: AttemptId, courier: UserId, offer: int)
    requires L.StateOk(credit) && IsFenced(C.BookOf(credit, o), a)
    ensures C.Handle(credit, C.Call.Adjust(o, a, courier, offer)).1.Err?
    ensures C.Handle(credit, C.Call.Adjust(o, a, courier, offer)).0 == credit
  {
    var call := C.Call.Adjust(o, a, courier, offer);
    L.BookOfOk(credit, o);
    FencedAdjust(C.BookOf(credit, o), call, EnoughFor(credit, call));
    ErrorChangesNothing(credit, call);
  }

  /** A courier's AcceptOrder key names at most one attempt of at most one order, and the same one for ever. */
  lemma KeyNamesOneAttempt(labels: seq<Label>, more: seq<Label>, o: OrderId, i: AttemptId, p: OrderId, j: AttemptId)
    requires var s := Run(START, labels);
             && o in s.cells && i < |s.cells[o].record.attempts|
             && s.cells[o].record.attempts[i].how.AcceptOrderMethod?
    requires var later := Run(Run(START, labels), more);
             && p in later.cells && j < |later.cells[p].record.attempts|
             && later.cells[p].record.attempts[j].how == Run(START, labels).cells[o].record.attempts[i].how
             && later.cells[p].record.attempts[j].caller == Run(START, labels).cells[o].record.attempts[i].caller
    ensures p == o && j == i
  {
    hide Run, L.StateOk, CellOk, CellLater;
    ReachedLater(labels, more);
    var s := Run(START, labels);
    var later := Run(s, more);
    assert AttemptsRetained(o, s.cells[o].record, s.keys);
    assert AttemptsRetained(p, later.cells[p].record, later.keys);
  }
}
