/** The whole system keeps the invariant over every run, so Order and Credit agree whatever is lost, late, repeated
    or done by a worker that was thought dead. */
module SagaSafety {
  import opened Common
  import opened Orders
  import opened OrderRecords
  import opened OrderInvariants
  import opened OrderSteps
  import opened Encoding
  import opened Saga
  import opened SagaInvariants
  import opened SagaCredit
  import opened SagaSteps
  import opened CreditBooks
  import opened CreditFences
  import C = Credit
  import L = CreditLedger
  import S = CreditSafety

  // One cell moves, Credit stands still

  lemma CellMovesWorld(s: World, o: OrderId, cell': Cell)
    requires WorldOk(s) && o in s.cells && CellStep(o, s.cells[o], cell', BookIn(s, o))
    ensures WorldOk(Put(s, o, cell'))
  {
    hide CellOk, AttemptsRetained, KeepsKeys, L.StateOk;
    var s' := Put(s, o, cell');
    forall p | p in s'.cells
      ensures CellOk(p, s'.cells[p], BookIn(s', p)) && AttemptsRetained(p, s'.cells[p].record, s'.keys)
    {
      assert AttemptsRetained(p, s.cells[p].record, s.keys);
      if p == o {
        RetainedLasts(o, s.cells[o].record, cell'.record, s.keys);
      }
    }
  }

  lemma RetainedLasts(o: OrderId, r: Record, r': Record, keys: Keys)
    requires AttemptsRetained(o, r, keys) && KeepsKeys(r, r')
    ensures AttemptsRetained(o, r', keys)
  {}

  lemma CellLearns(o: OrderId, cell: Cell, token: Option<Token>, b: C.Book)
    requires CellOk(o, cell, b) && (token.Some? ==> TokenOk(cell.record, b, token.value))
    ensures CellStep(o, cell, Learnt(cell, token), b)
  {
    CellStays(o, cell, b);
  }

  lemma ReadIsOk(o: OrderId, cell: Cell, work: Work, b: C.Book)
    requires CellOk(o, cell, b) && ReadToken(cell.net, b, o, work).Some?
    ensures TokenOk(cell.record, b, ReadToken(cell.net, b, o, work).value)
  {
    ViewIsOk(b, o);
    if TakesBack(work) {
      assert TokenOk(cell.record, b, Ack(work));
    }
  }

  lemma ReadKeepsWorld(s: World, o: OrderId, work: Work)
    requires WorldOk(s) && o in s.cells
    ensures WorldOk(Put(s, o, Learnt(s.cells[o], ReadToken(s.cells[o].net, BookIn(s, o), o, work))))
  {
    hide CellOk, CellStep, TokenOk, L.StateOk, KeysOk, ReadToken;
    var cell, b := s.cells[o], BookIn(s, o);
    var token := ReadToken(cell.net, b, o, work);
    assert CellOk(o, cell, b);
    if token.Some? {
      ReadIsOk(o, cell, work, b);
    }
    CellLearns(o, cell, token, b);
    CellMovesWorld(s, o, Learnt(cell, token));
  }

  // Keys

  lemma KeyAdded(o: OrderId, r: Record, keys: Keys, scope: KeyScope, kept: Retained)
    requires AttemptsRetained(o, r, keys) && scope !in keys
    ensures AttemptsRetained(o, r, keys[scope := kept])
  {}

  lemma AcceptRetains(r: Record, keys: Keys, caller: Caller, key: Key, now: Time)
    requires AttemptsRetained(r.order.id, r, keys) && AcceptOrder(r, keys, caller, key, now).Ok?
    ensures var a := AcceptOrder(r, keys, caller, key, now).value;
            && AttemptsRetained(r.order.id, a.record, a.keys)
            && (a.keys == keys || (KeyScope(caller.id, key) !in keys
                && a.keys == keys[KeyScope(caller.id, key) := Retained(r.order.id, |r.attempts|)]))
  {
    var a := AcceptOrder(r, keys, caller, key, now).value;
    if a.record == r {
    } else {
      KeyAdded(r.order.id, r, keys, KeyScope(caller.id, key), Retained(r.order.id, |r.attempts|));
      assert a.record.attempts[..|r.attempts|] == r.attempts;
    }
  }

  lemma AcceptKeepsWorld(s: World, o: OrderId, caller: Caller, key: Key, now: Time)
    requires WorldOk(s) && o in s.cells && AcceptOrder(s.cells[o].record, s.keys, caller, key, now).Ok?
    ensures var a := AcceptOrder(s.cells[o].record, s.keys, caller, key, now).value;
            WorldOk(Put(s.(keys := a.keys), o, s.cells[o].(record := a.record)))
  {
    hide L.StateOk, AcceptOrder, AttemptsRetained, Follows, RecordOk, Ties;
    var cell, b := s.cells[o], BookIn(s, o);
    assert CellOk(o, cell, b);
    var r := cell.record;
    var a := AcceptOrder(r, s.keys, caller, key, now).value;
    AcceptTies(r, b, s.keys, caller, key, now);
    assert AttemptsRetained(o, r, s.keys);
    AcceptRetains(r, s.keys, caller, key, now);
    CellMoves(o, cell, a.record, b);
    AcceptedWorld(s, o, cell.(record := a.record), a.keys, KeyScope(caller.id, key), Retained(o, |r.attempts|));
  }

  lemma AcceptedWorld(s: World, o: OrderId, cell': Cell, keys: Keys, scope: KeyScope, kept: Retained)
    requires WorldOk(s) && o in s.cells && CellOk(o, cell', BookIn(s, o))
    requires keys == s.keys || (scope !in s.keys && keys == s.keys[scope := kept])
    requires AttemptsRetained(o, cell'.record, keys)
    ensures WorldOk(Put(s.(keys := keys), o, cell'))
  {
    hide CellOk, AttemptsRetained, L.StateOk;
    var s' := Put(s.(keys := keys), o, cell');
    forall p | p in s'.cells
      ensures CellOk(p, s'.cells[p], BookIn(s', p)) && AttemptsRetained(p, s'.cells[p].record, keys)
    {
      if p != o {
        assert CellOk(p, s.cells[p], BookIn(s, p));
        assert AttemptsRetained(p, s.cells[p].record, s.keys);
        if keys != s.keys {
          KeyAdded(p, s.cells[p].record, s.keys, scope, kept);
        }
      }
    }
  }

  // Credit moves on one order

  lemma CreditMovesWorld(s: World, o: OrderId, credit: C.State, cell': Cell)
    requires WorldOk(s) && o in s.cells && L.StateOk(credit)
    requires forall p :: p != o ==> C.BookOf(credit, p) == BookIn(s, p)
    requires cell'.record == s.cells[o].record && CellOk(o, cell', C.BookOf(credit, o))
    ensures WorldOk(Put(s.(credit := credit), o, cell'))
  {
    hide CellOk, AttemptsRetained, L.StateOk;
    var s' := Put(s.(credit := credit), o, cell');
    forall p | p in s'.cells
      ensures CellOk(p, s'.cells[p], BookIn(s', p)) && AttemptsRetained(p, s'.cells[p].record, s'.keys)
    {
      assert AttemptsRetained(p, s.cells[p].record, s.keys);
      if p != o {
        assert CellOk(p, s.cells[p], BookIn(s, p));
      }
    }
  }

  lemma ServeIsStep(b: C.Book, call: C.Call, enough: bool)
    requires BookOk(b)
    ensures BookStep(b, C.Serve(b, call, enough).book)
  {
    ServeKeepsBook(b, call, enough);
    if NoHold(b) {
      ServeKeepsNoHold(b, call, enough);
    }
  }

  lemma CallKeepsCell(o: OrderId, cell: Cell, work: Work, b: C.Book, enough: bool)
    requires CellOk(o, cell, b) && Claim(work) in cell.net && CallOf(cell.record, o, work).Some?
    ensures var served := C.Serve(b, CallOf(cell.record, o, work).value, enough);
            CellOk(o, Learnt(cell, ReplyToken(work, served.reply)), served.book)
  {
    var served := C.Serve(b, CallOf(cell.record, o, work).value, enough);
    assert TokenOk(cell.record, b, Claim(work));
    ServeIsStep(b, CallOf(cell.record, o, work).value, enough);
    CallKeepsTies(cell.record, b, o, work, enough);
    ReplyIsOk(cell.record, b, o, work, enough);
    FollowsSelf(cell.record);
    NetLasts(cell.record, b, cell.record, served.book, cell.net);
    CellLearns(o, cell, ReplyToken(work, served.reply), served.book);
  }

  lemma CallKeepsWorld(s: World, o: OrderId, work: Work)
    requires WorldOk(s) && o in s.cells
    requires Claim(work) in s.cells[o].net && CallOf(s.cells[o].record, o, work).Some?
    ensures var (credit, reply) := C.Handle(s.credit, CallOf(s.cells[o].record, o, work).value);
            WorldOk(Put(s.(credit := credit), o, Learnt(s.cells[o], ReplyToken(work, reply))))
  {
    hide CellOk, L.StateOk, C.Handle, C.Serve, AttemptsRetained;
    var cell := s.cells[o];
    assert CellOk(o, cell, BookIn(s, o));
    var call := CallOf(cell.record, o, work).value;
    assert call.order == o;
    HandleServes(s.credit, call);
    S.HandleKeepsState(s.credit, call);
    CallKeepsCell(o, cell, work, BookIn(s, o), EnoughFor(s.credit, call));
    CreditMovesWorld(s, o, C.Handle(s.credit, call).0, Learnt(cell, ReplyToken(work, C.Handle(s.credit, call).1)));
  }

  // Outcomes

  lemma MicrosKeepsOrder(a: Time, b: Time)
    requires a <= b
    ensures Micros(a) <= Micros(b)
  {}

  // The event of an ended order is one that Credit accepts as well formed.
  lemma EndEventIsValid(o: Order, amount: int)
    requires OrderShape(o, amount) && HasOutcome(o.status)
    requires o.status == Completed ==> o.pickedUpAt.value <= o.deliveredAt.value
    ensures C.IsValidOutcome(C.Canonical(EndEvent(o)))
  {
    if o.status == Completed {
      MicrosKeepsOrder(o.pickedUpAt.value, o.deliveredAt.value);
      MicrosKeepsOrder(MIN_DURATION, o.deliveryDuration);
    }
  }

  lemma EventIsEnd(o: OrderId, cell: Cell, b: C.Book, k: nat)
    requires CellOk(o, cell, b) && EventOf(cell.record, k).Some?
    ensures var event, r := EventOf(cell.record, k).value, cell.record;
            && event == EndEvent(r.order) && event.order == o && HasOutcome(r.order.status)
            && C.IsValidOutcome(C.Canonical(event))
            && Agrees(b, C.Canonical(event))
  {
    var r := cell.record;
    OutcomeIsEnd(r, k);
    EndEventIsValid(r.order, r.workflow.amount);
    EndedAgrees(r, b);
    AgreesAlike(b, r.order, C.Canonical(EndEvent(r.order)));
  }

  lemma EndKeepsCell(o: OrderId, cell: Cell, b: C.Book, out: C.OrderOutcome)
    requires CellOk(o, cell, b) && HasOutcome(cell.record.order.status)
    requires out.kind == EndName(cell.record.order) && out.requester == cell.record.order.requester
    requires out.courier == cell.record.order.courier
    requires C.IsValidOutcome(out) && C.End(b, out, C.LatenessPayout).Accept?
    ensures CellOk(o, cell, C.End(b, out, C.LatenessPayout).book)
  {
    var b' := C.End(b, out, C.LatenessPayout).book;
    EndKeepsTies(cell.record, b, out);
    EndKeepsBook(b, out, C.LatenessPayout);
    if NoHold(b) {
      EndKeepsNoHold(b, out, C.LatenessPayout);
    }
    FollowsSelf(cell.record);
    NetLasts(cell.record, b, cell.record, b', cell.net);
  }

  lemma OutcomeKeepsOthers(credit: C.State, event: C.OrderOutcome, p: OrderId)
    requires p != event.order
    ensures C.BookOf(C.ApplyOutcome(credit, event, C.LatenessPayout).0, p) == C.BookOf(credit, p)
  {}

  lemma OutcomeKeepsWorld(s: World, o: OrderId, k: nat)
    requires WorldOk(s) && o in s.cells && EventOf(s.cells[o].record, k).Some?
    ensures WorldOk(s.(credit :=
              C.ApplyOutcome(s.credit, EventOf(s.cells[o].record, k).value, C.LatenessPayout).0))
  {
    hide CellOk, L.StateOk, C.ApplyOutcome, AttemptsRetained, C.End, Agrees;
    var cell, b := s.cells[o], BookIn(s, o);
    assert CellOk(o, cell, b);
    var event := EventOf(cell.record, k).value;
    EventIsEnd(o, cell, b, k);
    S.OutcomeKeepsState(s.credit, event, C.LatenessPayout);
    var credit := C.ApplyOutcome(s.credit, event, C.LatenessPayout).0;
    OutcomeEnds(s.credit, event, C.LatenessPayout, o);
    if C.End(b, C.Canonical(event), C.LatenessPayout).Accept? {
      EndKeepsCell(o, cell, b, C.Canonical(event));
    }
    forall p | p != o
      ensures C.BookOf(credit, p) == BookIn(s, p)
    {
      OutcomeKeepsOthers(s.credit, event, p);
    }
    CreditMovesWorld(s, o, credit, cell);
    assert Put(s.(credit := credit), o, cell) == s.(credit := credit);
  }

  // Admission and accounts

  lemma FreshTies(r: Record)
    requires r.attempts == [] && r.cancellations == [] && r.workflow.phase == ReservePending
    requires r.order.status == PendingReservation
    ensures Ties(r, C.EMPTY_BOOK)
  {}

  lemma AdmitKeepsWorld(s: World, o: OrderId, requester: UserId, input: CreateInput, now: Time)
    requires WorldOk(s) && o !in s.cells && AdmitCreation(o, requester, input, now).Ok?
    ensures WorldOk(Put(s, o, Cell(AdmitCreation(o, requester, input, now).value, {})))
  {
    hide WorldOk, RecordOk, Ties;
    AdmitOk(o, requester, input, now);
    FreshTies(AdmitCreation(o, requester, input, now).value);
    AddedWorld(s, o, AdmitCreation(o, requester, input, now).value);
  }

  lemma NothingRetained(o: OrderId, r: Record, keys: Keys)
    requires r.attempts == []
    ensures AttemptsRetained(o, r, keys)
  {}

  lemma AddedWorld(s: World, o: OrderId, r: Record)
    requires WorldOk(s) && o !in s.cells && RecordOk(r) && r.order.id == o && r.attempts == []
    requires Ties(r, C.EMPTY_BOOK)
    ensures WorldOk(Put(s, o, Cell(r, {})))
  {
    hide AttemptsRetained, L.StateOk, RecordOk, Ties, BookOk;
    var s' := Put(s, o, Cell(r, {}));
    L.EmptyBookOk();
    NothingRetained(o, r, s.keys);
    forall p | p in s'.cells
      ensures CellOk(p, s'.cells[p], BookIn(s', p)) && AttemptsRetained(p, s'.cells[p].record, s'.keys)
    {
      if p != o {
        assert CellOk(p, s.cells[p], BookIn(s, p));
        assert AttemptsRetained(p, s.cells[p].record, s.keys);
      }
    }
  }

  lemma OpenKeepsWorld(s: World, user: UserId)
    requires WorldOk(s)
    ensures WorldOk(s.(credit := C.Next(s.credit, C.Opened(user), C.LatenessPayout)))
  {
    hide CellOk, L.StateOk, AttemptsRetained;
    L.OpenKeepsState(s.credit, user);
    var s' := s.(credit := C.Next(s.credit, C.Opened(user), C.LatenessPayout));
    assert forall p :: BookIn(s', p) == BookIn(s, p);
  }

  // Every step, every run

  lemma StepKeepsWorld(s: World, o: OrderId, step: Saga.Step)
    requires WorldOk(s) && o in s.cells
    ensures WorldOk(TakeOn(s, o, step))
  {
    hide CellOk, CellStep, L.StateOk, AttemptsRetained, ClaimStep, ApplyWork, Act, C.ApplyOutcome, C.Handle,
         AcceptOrder, OutcomeOf, CallOf, ReadToken;
    var cell, b := s.cells[o], BookIn(s, o);
    assert CellOk(o, cell, b);
    match step {
      case ClaimIt(target, now) =>
        ClaimKeepsCell(o, cell, target, now, b);
        CellMovesWorld(s, o, ClaimStep(cell, target, now));
      case CallCredit(work) =>
        if Claim(work) in cell.net && CallOf(cell.record, o, work).Some? {
          CallKeepsWorld(s, o, work);
        }
      case ReadBack(work) => ReadKeepsWorld(s, o, work);
      case ApplyIt(work, seen, now, jitter) =>
        if IsKnown(cell.net, work, seen) {
          ApplyKeepsCell(o, cell, work, seen, now, jitter, b);
          CellMovesWorld(s, o, Stored(cell, ApplyWork(cell.record, work, seen, now, jitter)));
        }
      case AcceptIt(caller, key, now) =>
        if AcceptOrder(cell.record, s.keys, caller, key, now).Ok? {
          AcceptKeepsWorld(s, o, caller, key, now);
        }
      case ActLocally(action) =>
        ActKeepsCell(o, cell, action, b);
        CellMovesWorld(s, o, Stored(cell, Act(cell.record, action)));
      case DeliverOutcome(k) =>
        if EventOf(cell.record, k).Some? {
          OutcomeKeepsWorld(s, o, k);
        }
    }
  }

  lemma TakeKeepsWorld(s: World, l: Label)
    requires WorldOk(s)
    ensures WorldOk(Take(s, l))
  {
    hide WorldOk, TakeOn, AdmitCreation;
    match l {
      case OpenAccount(user) => OpenKeepsWorld(s, user);
      case Admit(o, requester, input, now) =>
        if o !in s.cells && AdmitCreation(o, requester, input, now).Ok? {
          AdmitKeepsWorld(s, o, requester, input, now);
        }
      case On(o, step) =>
        if o in s.cells {
          StepKeepsWorld(s, o, step);
        }
    }
  }

  lemma StartOk()
    ensures WorldOk(START)
  {
    S.InitialOk();
  }

  /** The invariant holds after any run: any interleaving of users, workers, crashes, lost or repeated messages. */
  lemma {:induction false} RunKeepsWorld(s: World, labels: seq<Label>)
    requires WorldOk(s)
    ensures WorldOk(Run(s, labels))
    decreases |labels|
  {
    hide WorldOk, Take;
    if labels != [] {
      TakeKeepsWorld(s, labels[0]);
      RunKeepsWorld(Take(s, labels[0]), labels[1..]);
    }
  }

  lemma ReachedOk(labels: seq<Label>)
    ensures WorldOk(Run(START, labels))
  {
    hide WorldOk, Take;
    StartOk();
    RunKeepsWorld(START, labels);
  }
}
