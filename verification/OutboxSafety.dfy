/** Whatever relays do, each order's facts first reach the broker in order, none is skipped, and no Drain attempts a
    fact twice. */
module OutboxSafety {
  import opened Common
  import opened Outbox

  lemma {:induction false} FirstIsFirst(log: seq<EventId>, e: EventId, i: nat)
    requires i < |log| && log[i] == e && e !in log[..i]
    ensures First(log, e) == i
  {
    var j := First(log, e);
  }

  lemma FirstStays(log: seq<EventId>, more: seq<EventId>, e: EventId)
    requires e in log
    ensures e in log + more && First(log + more, e) == First(log, e)
  {
    var i := First(log, e);
    assert (log + more)[..i] == log[..i];
    FirstIsFirst(log + more, e, i);
  }

  lemma FirstIsNew(log: seq<EventId>, e: EventId)
    requires e !in log
    ensures First(log + [e], e) == |log|
  {
    assert (log + [e])[..|log|] == log;
    FirstIsFirst(log + [e], e, |log|);
  }

  // Commits

  // A new fact comes after every stored fact of its order.
  lemma InsertKeepsMarks(box: Box, e: EventId, order: OrderId, revision: int, ordinal: int, f: EventId)
    requires f in box.items && EarlierMarked(box, f)
    ensures EarlierMarked(Insert(box, e, order, revision, ordinal), f)
  {}

  lemma InsertInOrder(box: Box, e: EventId, order: OrderId, revision: int, ordinal: int)
    requires InOrder(box) && LogOk(box)
    ensures InOrder(Insert(box, e, order, revision, ordinal))
  {
    var box' := Insert(box, e, order, revision, ordinal);
    forall a, b | a in box'.items && b in box'.items && IsEarlier(box'.items[a], box'.items[b]) && b in box'.log
      ensures a in box'.log && First(box'.log, a) < First(box'.log, b)
    {
      if box' != box {
        assert b != e && a != e;
      }
    }
  }

  lemma InsertKeepsBox(box: Box, e: EventId, order: OrderId, revision: int, ordinal: int)
    requires BoxOk(box)
    ensures BoxOk(Insert(box, e, order, revision, ordinal))
  {
    hide InOrder, EarlierMarked;
    var box' := Insert(box, e, order, revision, ordinal);
    InsertInOrder(box, e, order, revision, ordinal);
    if box' != box {
      forall t | t in box'.tickets
        ensures TicketOk(box', box'.tickets[t])
      {
        assert TicketOk(box, box.tickets[t]);
        InsertKeepsMarks(box, e, order, revision, ordinal, box.tickets[t].event);
      }
      forall f | f in box'.items && box'.items[f].publishedAt.Some?
        ensures EarlierMarked(box', f)
      {
        InsertKeepsMarks(box, e, order, revision, ordinal, f);
      }
    }
  }

  // Steps that insert no fact

  // At most one fact moves: its lease, or its mark.
  ghost predicate ItemMoves(box: Box, box': Box, e: EventId) {
    && e in box.items && box'.items.Keys == box.items.Keys
    && (forall f :: f in box.items && f != e ==> box'.items[f] == box.items[f])
    && box'.items[e].order == box.items[e].order && box'.items[e].revision == box.items[e].revision
    && box'.items[e].ordinal == box.items[e].ordinal
    && (box.items[e].publishedAt.Some? ==> box'.items[e].publishedAt.Some?)
    && box'.log == box.log && box'.acked == box.acked && box'.batches == box.batches
    && (forall t :: t in box.tickets ==> t in box'.tickets && box'.tickets[t] == box.tickets[t])
  }

  lemma MovedMarks(box: Box, box': Box, e: EventId, f: EventId)
    requires ItemMoves(box, box', e) && f in box.items && EarlierMarked(box, f)
    ensures EarlierMarked(box', f)
  {
    forall g | g in box'.items && IsEarlier(box'.items[g], box'.items[f])
      ensures box'.items[g].publishedAt.Some?
    {
      assert IsEarlier(box.items[g], box.items[f]);
    }
  }

  lemma SameLogInOrder(box: Box, box': Box)
    requires InOrder(box) && box'.log == box.log && box'.items.Keys == box.items.Keys
    requires forall e :: e in box.items ==>
               && box'.items[e].order == box.items[e].order && box'.items[e].revision == box.items[e].revision
               && box'.items[e].ordinal == box.items[e].ordinal
    ensures InOrder(box')
  {
    forall a, b | a in box'.items && b in box'.items && IsEarlier(box'.items[a], box'.items[b]) && b in box'.log
      ensures a in box'.log && First(box'.log, a) < First(box'.log, b)
    {
      assert IsEarlier(box.items[a], box.items[b]);
    }
  }

  lemma MovedKeepsBox(box: Box, box': Box, e: EventId)
    requires BoxOk(box) && ItemMoves(box, box', e)
    requires forall t :: t in box'.tickets && t !in box.tickets ==>
               box'.tickets[t].event == e && box'.tickets[t].batch in box.batches
    requires box'.items[e].publishedAt.Some? || box'.tickets != box.tickets ==> EarlierMarked(box, e)
    requires box'.items[e].publishedAt.Some? ==> e in box.log
    ensures BoxOk(box')
  {
    hide InOrder, EarlierMarked, IsEarlier;
    SameLogInOrder(box, box');
    forall f | f in box'.items && EarlierMarked(box, f)
      ensures EarlierMarked(box', f)
    {
      MovedMarks(box, box', e, f);
    }
    forall t | t in box'.tickets
      ensures TicketOk(box', box'.tickets[t])
    {
      if t in box.tickets {
        assert TicketOk(box, box.tickets[t]);
      }
    }
  }

  lemma StartMarks(box: Box, b: Batch, eligibleAt: Time)
    requires MarkedOk(box)
    ensures MarkedOk(Start(box, b, eligibleAt))
  {
    hide IsEarlier;
    var box' := Start(box, b, eligibleAt);
    assert forall e :: EarlierMarked(box, e) ==> EarlierMarked(box', e);
  }

  lemma StartTicket(box: Box, b: Batch, eligibleAt: Time, t: Ticket)
    requires TicketOk(box, t)
    ensures TicketOk(Start(box, b, eligibleAt), t)
  {
    hide IsEarlier;
  }

  lemma StartKeepsBox(box: Box, b: Batch, eligibleAt: Time)
    requires BoxOk(box)
    ensures BoxOk(Start(box, b, eligibleAt))
  {
    hide InOrder, TicketOk, MarkedOk;
    var box' := Start(box, b, eligibleAt);
    StartMarks(box, b, eligibleAt);
    SameLogInOrder(box, box');
    forall t | t in box'.tickets
      ensures TicketOk(box', box'.tickets[t])
    {
      StartTicket(box, b, eligibleAt, box.tickets[t]);
    }
  }

  lemma ClaimKeepsBox(box: Box, b: Batch, e: EventId, token: LeaseToken, now: Time)
    requires BoxOk(box)
    ensures BoxOk(Claim(box, b, e, token, now))
  {
    hide InOrder, TicketOk, MarkedOk;
    var box' := Claim(box, b, e, token, now);
    if box' != box {
      MovedKeepsBox(box, box', e);
    }
  }

  lemma PublishInOrder(box: Box, token: LeaseToken)
    requires InOrder(box) && MarkedOk(box) && token in box.tickets && TicketOk(box, box.tickets[token])
    ensures InOrder(Publish(box, token))
  {
    var box' := Publish(box, token);
    var e := box.tickets[token].event;
    forall a, b | a in box'.items && b in box'.items && IsEarlier(box'.items[a], box'.items[b]) && b in box'.log
      ensures a in box'.log && First(box'.log, a) < First(box'.log, b)
    {
      if b in box.log {
        FirstStays(box.log, [e], a);
        FirstStays(box.log, [e], b);
      } else {
        assert box.items[a].publishedAt.Some?;
        FirstStays(box.log, [e], a);
        FirstIsNew(box.log, e);
      }
    }
  }

  lemma PublishKeepsBox(box: Box, token: LeaseToken)
    requires BoxOk(box)
    ensures BoxOk(Publish(box, token))
  {
    hide InOrder;
    var box' := Publish(box, token);
    if token in box.tickets {
      assert TicketOk(box, box.tickets[token]);
      PublishInOrder(box, token);
      assert forall e :: EarlierMarked(box, e) ==> EarlierMarked(box', e);
      forall t | t in box'.tickets
        ensures TicketOk(box', box'.tickets[t])
      {
        assert TicketOk(box, box.tickets[t]);
      }
    }
  }

  lemma MarkKeepsBox(box: Box, token: LeaseToken, now: Time)
    requires BoxOk(box)
    ensures BoxOk(Mark(box, token, now))
  {
    hide InOrder;
    var box' := Mark(box, token, now);
    if box' != box {
      assert TicketOk(box, box.tickets[token]);
      MovedKeepsBox(box, box', box.tickets[token].event);
    }
  }

  lemma RetryKeepsBox(box: Box, token: LeaseToken, now: Time)
    requires BoxOk(box)
    ensures BoxOk(Retry(box, token, now))
  {
    hide InOrder, TicketOk, MarkedOk;
    var box' := Retry(box, token, now);
    if box' != box {
      MovedKeepsBox(box, box', box.tickets[token].event);
    }
  }

  lemma TakeKeepsBox(box: Box, s: Step)
    requires BoxOk(box)
    ensures BoxOk(Take(box, s))
  {
    hide BoxOk, Insert, Start, Claim, Publish, Mark, Retry;
    match s {
      case Commit(e, order, revision, ordinal) => InsertKeepsBox(box, e, order, revision, ordinal);
      case Begin(b, eligibleAt) => StartKeepsBox(box, b, eligibleAt);
      case ClaimOne(b, e, token, now) => ClaimKeepsBox(box, b, e, token, now);
      case Accepted(token) => PublishKeepsBox(box, token);
      case Acknowledge(token, now) => MarkKeepsBox(box, token, now);
      case Defer(token, now) => RetryKeepsBox(box, token, now);
    }
  }

  lemma {:induction false} RunKeepsBox(box: Box, steps: seq<Step>)
    requires BoxOk(box)
    ensures BoxOk(Run(box, steps))
    decreases |steps|
  {
    hide BoxOk, Take;
    if steps != [] {
      TakeKeepsBox(box, steps[0]);
      RunKeepsBox(Take(box, steps[0]), steps[1..]);
    }
  }

  lemma EmptyBoxOk()
    ensures BoxOk(EMPTY_BOX) && OnceOk(EMPTY_BOX)
  {}

  /** With any number of relays, any clocks, expired leases, failed publications and lost acknowledgements: a fact
      reaches the broker only after every earlier fact of its order has, so first publications follow (revision,
      ordinal). */
  lemma FactsArriveInOrder(steps: seq<Step>, a: EventId, b: EventId)
    requires var box := Run(EMPTY_BOX, steps);
             a in box.items && b in box.items && IsEarlier(box.items[a], box.items[b]) && b in box.log
    ensures var box := Run(EMPTY_BOX, steps);
            a in box.log && First(box.log, a) < First(box.log, b)
  {
    hide Run, IsEarlier, MarkedOk, TicketOk, LogOk;
    EmptyBoxOk();
    RunKeepsBox(EMPTY_BOX, steps);
  }

  /** A fact is marked published only if the broker has it and every earlier fact of its order is marked too: no
      outstanding fact is ever skipped. */
  lemma NoFactIsSkipped(steps: seq<Step>, a: EventId, b: EventId)
    requires var box := Run(EMPTY_BOX, steps);
             && a in box.items && b in box.items && IsEarlier(box.items[a], box.items[b])
             && box.items[b].publishedAt.Some?
    ensures var box := Run(EMPTY_BOX, steps);
            b in box.log && box.items[a].publishedAt.Some?
  {
    hide Run;
    EmptyBoxOk();
    RunKeepsBox(EMPTY_BOX, steps);
    assert MarkedOk(Run(EMPTY_BOX, steps));
  }

  // One attempt in a batch

  // A fact already claimed by a batch is never eligible for it again.
  lemma SpentIsNotEligible(box: Box, t: Ticket)
    requires IsSpent(box, t)
    ensures !IsEligible(box, t.event, box.batches[t.batch])
  {}

  lemma InsertOnce(box: Box, e: EventId, order: OrderId, revision: int, ordinal: int)
    requires OnceOk(box)
    ensures OnceOk(Insert(box, e, order, revision, ordinal))
  {
    var box' := Insert(box, e, order, revision, ordinal);
    forall f | f in box'.items
      ensures LeaseOk(box', f)
    {
      if f in box.items {
        assert LeaseOk(box, f);
      }
    }
  }

  lemma StartOnce(box: Box, b: Batch, eligibleAt: Time)
    requires OnceOk(box)
    ensures OnceOk(Start(box, b, eligibleAt))
  {
    var box' := Start(box, b, eligibleAt);
    assert forall t :: t in box.tickets ==> IsSpent(box, box.tickets[t]);
    forall f | f in box'.items
      ensures LeaseOk(box', f)
    {
      assert LeaseOk(box, f);
    }
  }

  // One fact's lease moves on, or its mark is set; the other facts' leases stand.
  lemma MovedOnce(box: Box, box': Box, e: EventId)
    requires OnceOk(box) && ItemMoves(box, box', e) && LeaseOk(box', e) && OncePerBatch(box')
    requires forall t :: t in box'.tickets && t !in box.tickets ==> box'.tickets[t].event == e
    requires forall t :: t in box'.tickets ==> IsSpent(box', box'.tickets[t])
    ensures OnceOk(box')
  {
    forall f | f in box'.items
      ensures LeaseOk(box', f)
    {
      if f != e {
        assert LeaseOk(box, f);
      }
    }
  }

  lemma ClaimLease(box: Box, b: Batch, e: EventId, token: LeaseToken, now: Time)
    requires OnceOk(box) && Claim(box, b, e, token, now) != box && box.batches[b] < now + CLAIM_LEASE
    ensures LeaseOk(Claim(box, b, e, token, now), e)
  {
    var box' := Claim(box, b, e, token, now);
    assert LeaseOk(box, e);
    forall t | t in box'.tickets && box'.tickets[t].event == e && box'.tickets[t].batch in box'.batches
      ensures box'.batches[box'.tickets[t].batch] <= box'.batches[b]
    {
      if t != token {
        assert IsSpent(box, box.tickets[t]);
      }
    }
  }

  lemma ClaimOnce(box: Box, b: Batch, e: EventId, token: LeaseToken, now: Time)
    requires OnceOk(box) && (b in box.batches ==> box.batches[b] < now + CLAIM_LEASE)
    ensures OnceOk(Claim(box, b, e, token, now))
  {
    var box' := Claim(box, b, e, token, now);
    if box' != box {
      ClaimLease(box, b, e, token, now);
      forall t | t in box'.tickets
        ensures IsSpent(box', box'.tickets[t])
      {
        if t != token {
          assert IsSpent(box, box.tickets[t]);
        }
      }
      forall s | s in box.tickets && box.tickets[s].batch == b
        ensures box.tickets[s].event != e
      {
        SpentIsNotEligible(box, box.tickets[s]);
      }
      MovedOnce(box, box', e);
    }
  }

  lemma PublishOnce(box: Box, token: LeaseToken)
    requires OnceOk(box)
    ensures OnceOk(Publish(box, token))
  {
    var box' := Publish(box, token);
    forall f | f in box'.items
      ensures LeaseOk(box', f)
    {
      assert LeaseOk(box, f);
    }
  }

  lemma MarkOnce(box: Box, token: LeaseToken, now: Time)
    requires OnceOk(box)
    ensures OnceOk(Mark(box, token, now))
  {
    var box' := Mark(box, token, now);
    if box' != box {
      assert forall t :: t in box.tickets ==> IsSpent(box, box.tickets[t]);
      MovedOnce(box, box', box.tickets[token].event);
    }
  }

  lemma RetryLease(box: Box, token: LeaseToken, now: Time)
    requires Retry(box, token, now) != box && LeaseOk(box, box.tickets[token].event)
    requires ReadsAhead(box, Defer(token, now))
    ensures LeaseOk(Retry(box, token, now), box.tickets[token].event)
    ensures forall t :: t in box.tickets && IsSpent(box, box.tickets[t]) ==>
              IsSpent(Retry(box, token, now), box.tickets[t])
  {}

  lemma RetryOnce(box: Box, token: LeaseToken, now: Time)
    requires OnceOk(box) && ReadsAhead(box, Defer(token, now))
    ensures OnceOk(Retry(box, token, now))
  {
    hide IsSpent, LeaseOk;
    var box' := Retry(box, token, now);
    if box' != box {
      RetryLease(box, token, now);
      MovedOnce(box, box', box.tickets[token].event);
    }
  }

  lemma TakeOnce(box: Box, s: Step)
    requires OnceOk(box) && ReadsAhead(box, s)
    ensures OnceOk(Take(box, s))
  {
    hide OnceOk, Insert, Start, Claim, Publish, Mark, Retry;
    match s {
      case Commit(e, order, revision, ordinal) => InsertOnce(box, e, order, revision, ordinal);
      case Begin(b, eligibleAt) => StartOnce(box, b, eligibleAt);
      case ClaimOne(b, e, token, now) => ClaimOnce(box, b, e, token, now);
      case Accepted(token) => PublishOnce(box, token);
      case Acknowledge(token, now) => MarkOnce(box, token, now);
      case Defer(token, now) => RetryOnce(box, token, now);
    }
  }

  lemma {:induction false} RunOnce(box: Box, steps: seq<Step>)
    requires OnceOk(box) && AllReadAhead(box, steps)
    ensures OnceOk(Run(box, steps))
    decreases |steps|
  {
    hide OnceOk, Take, ReadsAhead;
    if steps != [] {
      TakeOnce(box, steps[0]);
      RunOnce(Take(box, steps[0]), steps[1..]);
    }
  }

  /** No Drain claims the same fact twice, however slow its publications and whatever other relays do meanwhile, as
      long as no claim reads the clock 30 seconds, and no deferral 2 seconds, behind its batch's instant. */
  lemma DrainAttemptsOnce(steps: seq<Step>, s: LeaseToken, t: LeaseToken)
    requires AllReadAhead(EMPTY_BOX, steps)
    requires var box := Run(EMPTY_BOX, steps);
             && s in box.tickets && t in box.tickets && s != t
             && box.tickets[s].batch == box.tickets[t].batch
    ensures Run(EMPTY_BOX, steps).tickets[s].event != Run(EMPTY_BOX, steps).tickets[t].event
  {
    hide Run, AllReadAhead;
    EmptyBoxOk();
    RunOnce(EMPTY_BOX, steps);
  }

  /** Those bounds are exact: right after a claim or a deferral its fact is eligible again for the same batch exactly
      if the reading was that far behind. */
  lemma EligibleAgainExactly(box: Box, b: Batch, e: EventId, token: LeaseToken, claimedAt: Time, deferredAt: Time)
    requires BoxOk(box) && Claim(box, b, e, token, claimedAt) != box
    ensures var claimed := Claim(box, b, e, token, claimedAt);
            var deferred := Retry(claimed, token, deferredAt);
            && (IsEligible(claimed, e, claimed.batches[b]) <==> claimedAt + CLAIM_LEASE <= claimed.batches[b])
            && (IsEligible(deferred, e, deferred.batches[b]) <==> deferredAt + RETRY_LEASE <= deferred.batches[b])
  {
    var claimed := Claim(box, b, e, token, claimedAt);
    assert forall f :: f in box.items && IsEarlier(claimed.items[f], claimed.items[e]) ==>
             IsEarlier(box.items[f], box.items[e]);
  }

  // A batch frozen at 100 seconds, and a clock set back to 90 when its publication is refused.
  const SET_BACK: seq<Step> :=
    [Commit(0, 0, 1, 0), Begin(0, 100 * SECOND), ClaimOne(0, 0, 0, 100 * SECOND), Defer(0, 90 * SECOND),
     ClaimOne(0, 0, 1, 90 * SECOND)]

  lemma RunSteps(box: Box, s: Step, rest: seq<Step>)
    ensures Run(box, [s] + rest) == Run(Take(box, s), rest)
  {
    assert ([s] + rest)[1..] == rest;
  }

  /** With the clock set back by ten seconds inside a batch, one Drain does attempt a fact twice. */
  lemma SetBackAttemptsTwice()
    ensures var box := Run(EMPTY_BOX, SET_BACK);
            0 in box.tickets && 1 in box.tickets && box.tickets[0] == box.tickets[1]
  {
    var b1 := Take(EMPTY_BOX, SET_BACK[0]);
    var b2 := Take(b1, SET_BACK[1]);
    var b3 := Take(b2, SET_BACK[2]);
    var b4 := Take(b3, SET_BACK[3]);
    var b5 := Take(b4, SET_BACK[4]);
    assert b5.tickets == map[0 := Ticket(0, 0), 1 := Ticket(0, 0)];
    RunSteps(b4, SET_BACK[4], []);
    RunSteps(b3, SET_BACK[3], SET_BACK[4..]);
    RunSteps(b2, SET_BACK[2], SET_BACK[3..]);
    RunSteps(b1, SET_BACK[1], SET_BACK[2..]);
    RunSteps(EMPTY_BOX, SET_BACK[0], SET_BACK[1..]);
    assert SET_BACK == [SET_BACK[0]] + SET_BACK[1..] && SET_BACK[1..] == [SET_BACK[1]] + SET_BACK[2..];
    assert SET_BACK[2..] == [SET_BACK[2]] + SET_BACK[3..] && SET_BACK[3..] == [SET_BACK[3]] + SET_BACK[4..];
    assert SET_BACK[4..] == [SET_BACK[4]] + [];
  }

  // One relay's bounded loop

  // What one turn of the loop meets: the fact the claim gets, whether the broker accepts it, whether the database then
  // takes the mark or the deferral, and the clock at the claim and after the publication. A broken turn never gets a
  // claim: the context has ended, or the query failed.
  datatype Turn =
    | Broken
    | Turn(event: EventId, token: LeaseToken, accepted: bool, stored: bool, claimedAt: Time, finishedAt: Time)

  // going says that the batch has not ended; whole that every attempt was marked or deferred; err that Drain returns
  // an error.
  datatype Drained = Drained(box: Box, tried: seq<EventId>, going: bool, whole: bool, err: bool)

  function DrainOne(d: Drained, b: Batch, a: Turn): Drained {
    if !d.going then d
    else if a.Broken? then d.(going := false, err := true)
    else
      var claimed := Claim(d.box, b, a.event, a.token, a.claimedAt);
      var tried := d.tried + [a.event];
      if claimed == d.box then d.(going := false)
      else if !a.accepted then
        if a.stored then Drained(Retry(claimed, a.token, a.finishedAt), tried, true, true, true)
        else Drained(claimed, tried, false, false, true)
      else
        var published := Publish(claimed, a.token);
        if a.stored && MayMark(published, a.token, a.finishedAt)
        then Drained(Mark(published, a.token, a.finishedAt), tried, true, true, d.err)
        else Drained(published, tried, false, false, true)
  }

  function DrainAll(box: Box, b: Batch, eligibleAt: Time, plan: seq<Turn>): Drained {
    if plan == [] then Drained(Start(box, b, eligibleAt), [], true, true, false)
    else DrainOne(DrainAll(box, b, eligibleAt, plan[..|plan| - 1]), b, plan[|plan| - 1])
  }

  class Relay {
    var box: Box

    constructor (box: Box)
      ensures this.box == box
    {
      this.box := box;
    }

    // Claims, publishes, and marks or defers up to limit facts. A refused publication is remembered and the batch
    // goes on; a lost lease or a failing database ends it.
    method Drain(b: Batch, eligibleAt: Time, plan: seq<Turn>, limit: nat) returns (tried: seq<EventId>, err: bool)
      modifies this
      ensures var d := DrainAll(old(box), b, eligibleAt, plan[..Min(limit, |plan|)]);
              box == d.box && tried == d.tried && err == d.err
    {
      hide Start, Claim, Publish, Mark, Retry, MayMark;
      var n := Min(limit, |plan|);
      box := Start(box, b, eligibleAt);
      tried, err := [], false;
      var k := 0;
      while k < n
        invariant 0 <= k <= n
        invariant DrainAll(old(box), b, eligibleAt, plan[..k]) == Drained(box, tried, true, true, err)
      {
        var a := plan[k];
        DrainOneMore(old(box), b, eligibleAt, plan, k);
        if a.Broken? {
          DrainStops(old(box), b, eligibleAt, plan, k + 1, n);
          return tried, true;
        }
        var claimed := Claim(box, b, a.event, a.token, a.claimedAt);
        if claimed == box {
          DrainStops(old(box), b, eligibleAt, plan, k + 1, n);
          return;
        }
        box, tried := claimed, tried + [a.event];
        if !a.accepted {
          err := true;
          if !a.stored {
            DrainStops(old(box), b, eligibleAt, plan, k + 1, n);
            return;
          }
          box := Retry(box, a.token, a.finishedAt);
        } else {
          box := Publish(box, a.token);
          if !a.stored || !MayMark(box, a.token, a.finishedAt) {
            DrainStops(old(box), b, eligibleAt, plan, k + 1, n);
            return tried, true;
          }
          box := Mark(box, a.token, a.finishedAt);
        }
        k := k + 1;
      }
    }
  }

  lemma DrainOneMore(box: Box, b: Batch, eligibleAt: Time, plan: seq<Turn>, k: nat)
    requires k < |plan|
    ensures DrainAll(box, b, eligibleAt, plan[..k + 1]) == DrainOne(DrainAll(box, b, eligibleAt, plan[..k]), b, plan[k])
  {
    assert plan[..k + 1][..k] == plan[..k];
  }

  lemma {:induction false} DrainStops(box: Box, b: Batch, eligibleAt: Time, plan: seq<Turn>, k: nat, n: nat)
    requires k <= n <= |plan| && !DrainAll(box, b, eligibleAt, plan[..k]).going
    ensures DrainAll(box, b, eligibleAt, plan[..n]) == DrainAll(box, b, eligibleAt, plan[..k])
    decreases n
  {
    hide DrainOne;
    if k < n {
      DrainStops(box, b, eligibleAt, plan, k, n - 1);
      DrainOneMore(box, b, eligibleAt, plan, n - 1);
      StoppedStays(DrainAll(box, b, eligibleAt, plan[..n - 1]), b, plan[n - 1]);
    }
  }

  lemma StoppedStays(d: Drained, b: Batch, a: Turn)
    requires !d.going
    ensures DrainOne(d, b, a) == d
  {}

  // What a batch leaves behind

  // The facts that the broker accepted, in the order of the attempts.
  function Sent(plan: seq<Turn>): seq<EventId> {
    if plan == [] then []
    else
      Sent(plan[..|plan| - 1])
      + if plan[|plan| - 1].Turn? && plan[|plan| - 1].accepted then [plan[|plan| - 1].event] else []
  }

  // An accepted fact is marked under its own claim; a refused one stays outstanding, deferred by two seconds.
  ghost predicate IsHandled(items: map<EventId, Item>, a: Turn)
    requires a.Turn?
  {
    && a.event in items && a.stored
    && if a.accepted then items[a.event].publishedAt == Some(a.finishedAt)
       else items[a.event].publishedAt.None?
            && items[a.event].lease == Some(Lease(a.token, a.finishedAt + RETRY_LEASE))
  }

  // The mark or deferral did not happen: the fact stays outstanding under its claim's lease.
  ghost predicate IsLeft(items: map<EventId, Item>, a: Turn)
    requires a.Turn?
  {
    && a.event in items && items[a.event].publishedAt.None?
    && items[a.event].lease == Some(Lease(a.token, a.claimedAt + CLAIM_LEASE))
    && (!a.stored || (a.accepted && a.claimedAt + CLAIM_LEASE <= a.finishedAt))
  }

  // Which attempts were made: a prefix of the plan, each of another fact, under its own claim.
  ghost predicate TriedWell(b: Batch, plan: seq<Turn>, d: Drained) {
    var n := |d.tried|;
    && n <= |plan|
    && (forall i :: 0 <= i < n ==> plan[i].Turn? && d.tried[i] == plan[i].event)
    && (forall i, j :: 0 <= i < j < n ==> plan[i].event != plan[j].event)
    && (forall i :: 0 <= i < n ==>
          plan[i].token in d.box.tickets && d.box.tickets[plan[i].token] == Ticket(plan[i].event, b))
    && (d.going ==> n == |plan| && d.whole)
    && (!d.going && d.whole ==> n < |plan|)
  }

  // What became of each attempt, and that nothing else was touched.
  ghost predicate LeavesWell(box: Box, plan: seq<Turn>, d: Drained) {
    var n := |d.tried|;
    && n <= |plan| && (forall i :: 0 <= i < n ==> plan[i].Turn?)
    && (forall i :: 0 <= i < (if d.whole then n else n - 1) ==> IsHandled(d.box.items, plan[i]))
    && (!d.whole ==> n > 0 && IsLeft(d.box.items, plan[n - 1]))
    && d.box.items.Keys == box.items.Keys
    && (forall e :: e in box.items && e !in d.tried ==> d.box.items[e] == box.items[e])
  }

  ghost predicate LogsWell(box: Box, plan: seq<Turn>, d: Drained) {
    |d.tried| <= |plan| && d.box.log == box.log + Sent(plan[..|d.tried|])
  }

  // Drain returns an error exactly if a publication was refused, an attempt was left, or the batch was broken off.
  ghost predicate ErrsWell(plan: seq<Turn>, d: Drained) {
    var n := |d.tried|;
    && n <= |plan|
    && (d.err <==>
          || !d.whole
          || (exists i :: 0 <= i < n && plan[i].Turn? && !plan[i].accepted)
          || (n < |plan| && plan[n].Broken?))
  }

  ghost predicate DrainedWell(box: Box, b: Batch, plan: seq<Turn>, d: Drained) {
    TriedWell(b, plan, d) && LeavesWell(box, plan, d) && LogsWell(box, plan, d) && ErrsWell(plan, d)
  }

  // No deferral reads the clock two seconds behind the instant the batch was frozen at.
  ghost predicate DefersAhead(eligibleAt: Time, plan: seq<Turn>) {
    forall i :: 0 <= i < |plan| && plan[i].Turn? && !plan[i].accepted ==> eligibleAt < plan[i].finishedAt + RETRY_LEASE
  }

  lemma OneKeepsBox(d: Drained, b: Batch, a: Turn)
    requires BoxOk(d.box)
    ensures BoxOk(DrainOne(d, b, a).box)
  {
    hide BoxOk, Claim, Publish, Mark, Retry, MayMark;
    if a.Turn? {
      var claimed := Claim(d.box, b, a.event, a.token, a.claimedAt);
      ClaimKeepsBox(d.box, b, a.event, a.token, a.claimedAt);
      PublishKeepsBox(claimed, a.token);
      MarkKeepsBox(Publish(claimed, a.token), a.token, a.finishedAt);
      RetryKeepsBox(claimed, a.token, a.finishedAt);
    }
  }

  /** Whatever a Drain meets, it keeps the order of first publications and skips no fact. */
  lemma {:induction false} DrainKeepsBox(box: Box, b: Batch, eligibleAt: Time, plan: seq<Turn>)
    requires BoxOk(box)
    ensures BoxOk(DrainAll(box, b, eligibleAt, plan).box)
  {
    hide BoxOk, DrainOne, Start;
    if plan == [] {
      StartKeepsBox(box, b, eligibleAt);
    } else {
      DrainKeepsBox(box, b, eligibleAt, plan[..|plan| - 1]);
      OneKeepsBox(DrainAll(box, b, eligibleAt, plan[..|plan| - 1]), b, plan[|plan| - 1]);
    }
  }

  // One more turn that got a claim, told apart by what the broker and the database answered.
  ghost predicate Turns(d: Drained, b: Batch, a: Turn, d': Drained) {
    && a.Turn?
    && d'.tried == d.tried + [a.event] && d'.box.items.Keys == d.box.items.Keys && a.event in d.box.items
    && (forall e :: e in d.box.items && e != a.event ==> d'.box.items[e] == d.box.items[e])
    && d'.box.log == d.box.log + (if a.accepted then [a.event] else [])
    && d'.box.tickets == d.box.tickets[a.token := Ticket(a.event, b)]
    && (d'.going <==> d'.whole)
    && (if d'.whole then IsHandled(d'.box.items, a) else IsLeft(d'.box.items, a))
    && (d'.err <==> d.err || !a.accepted || !d'.whole)
  }

  lemma OneTurns(d: Drained, b: Batch, a: Turn)
    requires d.going && a.Turn? && Claim(d.box, b, a.event, a.token, a.claimedAt) != d.box
    ensures Turns(d, b, a, DrainOne(d, b, a)) && a.token !in d.box.tickets
    ensures DrainOne(d, b, a).box.batches == d.box.batches
  {}

  // What was marked, or deferred ahead of the batch's instant, is not eligible for the batch again.
  lemma TurnIsDistinct(d: Drained, b: Batch, eligibleAt: Time, a: Turn, plan: seq<Turn>)
    requires a.Turn? && Claim(d.box, b, a.event, a.token, a.claimedAt) != d.box
    requires b in d.box.batches && d.box.batches[b] == eligibleAt && DefersAhead(eligibleAt, plan)
    requires forall i :: 0 <= i < |plan| ==> plan[i].Turn? && IsHandled(d.box.items, plan[i])
    ensures forall i :: 0 <= i < |plan| ==> plan[i].event != a.event
  {}

  lemma TurnIsTried(b: Batch, plan: seq<Turn>, d: Drained, d': Drained)
    requires plan != [] && d.going && TriedWell(b, plan[..|plan| - 1], d)
    requires Turns(d, b, plan[|plan| - 1], d') && plan[|plan| - 1].token !in d.box.tickets
    requires forall i :: 0 <= i < |plan| - 1 ==> plan[i].Turn? && plan[i].event != plan[|plan| - 1].event
    ensures TriedWell(b, plan, d')
  {
    hide IsHandled, IsLeft;
    var n := |plan| - 1;
    assert forall i :: 0 <= i < n ==> plan[..n][i] == plan[i];
  }

  lemma TurnLeaves(box: Box, b: Batch, plan: seq<Turn>, d: Drained, d': Drained)
    requires plan != [] && d.going && TriedWell(b, plan[..|plan| - 1], d) && LeavesWell(box, plan[..|plan| - 1], d)
    requires Turns(d, b, plan[|plan| - 1], d')
    requires forall i :: 0 <= i < |plan| - 1 ==> plan[i].Turn? && plan[i].event != plan[|plan| - 1].event
    ensures LeavesWell(box, plan, d')
  {
    var n := |plan| - 1;
    assert forall i :: 0 <= i < n ==> plan[..n][i] == plan[i];
  }

  lemma TurnLogs(box: Box, b: Batch, plan: seq<Turn>, d: Drained, d': Drained)
    requires plan != [] && d.going && TriedWell(b, plan[..|plan| - 1], d) && LogsWell(box, plan[..|plan| - 1], d)
    requires Turns(d, b, plan[|plan| - 1], d')
    ensures LogsWell(box, plan, d')
  {
    var n := |plan| - 1;
    assert plan[..n + 1] == plan && plan[..n][..n] == plan[..n];
  }

  lemma TurnErrs(b: Batch, plan: seq<Turn>, d: Drained, d': Drained)
    requires plan != [] && d.going && TriedWell(b, plan[..|plan| - 1], d) && ErrsWell(plan[..|plan| - 1], d)
    requires Turns(d, b, plan[|plan| - 1], d')
    ensures ErrsWell(plan, d')
  {
    hide IsHandled, IsLeft;
    var n := |plan| - 1;
    assert forall i :: 0 <= i < n ==> plan[..n][i] == plan[i];
  }

  // A batch that has ended, or ends for want of a fact, stays as it is.
  lemma StoppedIsWell(box: Box, b: Batch, plan: seq<Turn>, d: Drained)
    requires plan != [] && DrainedWell(box, b, plan[..|plan| - 1], d)
    requires d.going ==> !plan[|plan| - 1].Broken?
    ensures DrainedWell(box, b, plan, d.(going := false))
  {
    hide IsHandled, IsLeft;
    var n := |plan| - 1;
    assert plan[..n][..|d.tried|] == plan[..|d.tried|];
    assert forall i :: 0 <= i < n ==> plan[..n][i] == plan[i];
    StoppedErrs(b, plan, d);
  }

  lemma StoppedErrs(b: Batch, plan: seq<Turn>, d: Drained)
    requires plan != [] && ErrsWell(plan[..|plan| - 1], d) && TriedWell(b, plan[..|plan| - 1], d)
    requires d.going ==> !plan[|plan| - 1].Broken?
    ensures ErrsWell(plan, d.(going := false))
  {
    var n := |plan| - 1;
    assert forall i :: 0 <= i < n ==> plan[..n][i] == plan[i];
  }

  lemma BrokenIsWell(box: Box, b: Batch, plan: seq<Turn>, d: Drained)
    requires plan != [] && DrainedWell(box, b, plan[..|plan| - 1], d) && d.going && plan[|plan| - 1].Broken?
    ensures DrainedWell(box, b, plan, d.(going := false, err := true))
  {
    hide IsHandled, IsLeft;
    var n := |plan| - 1;
    assert plan[..n][..|d.tried|] == plan[..|d.tried|];
    assert forall i :: 0 <= i < n ==> plan[..n][i] == plan[i];
  }

  lemma StartsWell(box: Box, b: Batch, eligibleAt: Time)
    ensures DrainedWell(box, b, [], Drained(Start(box, b, eligibleAt), [], true, true, false))
  {}

  lemma GoingIsHandled(box: Box, plan: seq<Turn>, d: Drained, b: Batch)
    requires TriedWell(b, plan, d) && LeavesWell(box, plan, d) && d.going
    ensures forall i :: 0 <= i < |plan| ==> plan[i].Turn? && IsHandled(d.box.items, plan[i])
  {}

  lemma SameBatches(d: Drained, b: Batch, a: Turn)
    ensures DrainOne(d, b, a).box.batches == d.box.batches
  {}

  lemma ClaimedIsWell(box: Box, b: Batch, eligibleAt: Time, plan: seq<Turn>, d: Drained)
    requires plan != [] && d.going && DrainedWell(box, b, plan[..|plan| - 1], d)
    requires b in d.box.batches && d.box.batches[b] == eligibleAt && DefersAhead(eligibleAt, plan[..|plan| - 1])
    requires var a := plan[|plan| - 1];
             a.Turn? && Claim(d.box, b, a.event, a.token, a.claimedAt) != d.box
    ensures DrainedWell(box, b, plan, DrainOne(d, b, plan[|plan| - 1]))
  {
    hide IsHandled, IsLeft, TriedWell, LeavesWell, LogsWell, ErrsWell, Turns, DrainOne, Claim, DefersAhead;
    var n := |plan| - 1;
    var a := plan[n];
    var d' := DrainOne(d, b, a);
    GoingIsHandled(box, plan[..n], d, b);
    OneTurns(d, b, a);
    TurnIsDistinct(d, b, eligibleAt, a, plan[..n]);
    assert forall i :: 0 <= i < n ==> plan[..n][i] == plan[i];
    TurnIsTried(b, plan, d, d');
    TurnLeaves(box, b, plan, d, d');
    TurnLogs(box, b, plan, d, d');
    TurnErrs(b, plan, d, d');
  }

  // A turn that ends the batch without an attempt: it was broken off, or its fact could not be claimed.
  predicate EndsTheBatch(box: Box, b: Batch, a: Turn) {
    a.Broken? || Claim(box, b, a.event, a.token, a.claimedAt) == box
  }

  // Refused publications do not end a batch: it goes on until an attempt is left or a turn has nothing to claim.
  ghost predicate EndsWell(b: Batch, plan: seq<Turn>, d: Drained) {
    && (d.going ==> |d.tried| == |plan|)
    && (!d.going && d.whole ==> |d.tried| < |plan| && EndsTheBatch(d.box, b, plan[|d.tried|]))
  }

  lemma {:induction false} DrainEnds(box: Box, b: Batch, eligibleAt: Time, plan: seq<Turn>)
    ensures EndsWell(b, plan, DrainAll(box, b, eligibleAt, plan))
  {
    hide Claim, Publish, Mark, Retry, MayMark, Start;
    if plan != [] {
      var n := |plan| - 1;
      DrainEnds(box, b, eligibleAt, plan[..n]);
      var d := DrainAll(box, b, eligibleAt, plan[..n]);
      assert |d.tried| < n ==> plan[..n][|d.tried|] == plan[|d.tried|];
    }
  }

  /** One Drain never attempts a fact twice; it marks exactly the facts the broker accepted under a lease that still
      held, defers the refused ones and goes on, logs the accepted ones in order and touches no other fact; it ends
      before the plan only at a fact that cannot be claimed or when an attempt is left; and it returns an error
      exactly if a publication was refused, a lease was lost or the database or context failed. All that is asked is
      that no deferral reads the clock two seconds behind the batch's instant. */
  lemma {:induction false} DrainDoesExactly(box: Box, b: Batch, eligibleAt: Time, plan: seq<Turn>)
    requires b !in box.batches && DefersAhead(eligibleAt, plan)
    ensures var d := DrainAll(box, b, eligibleAt, plan);
            && DrainedWell(box, b, plan, d) && EndsWell(b, plan, d)
            && b in d.box.batches && d.box.batches[b] == eligibleAt
  {
    hide DrainedWell, EndsWell, DrainOne, Claim;
    DrainEnds(box, b, eligibleAt, plan);
    if plan == [] {
      StartsWell(box, b, eligibleAt);
    } else {
      var n := |plan| - 1;
      var d, a := DrainAll(box, b, eligibleAt, plan[..n]), plan[n];
      assert forall i :: 0 <= i < n ==> plan[..n][i] == plan[i];
      DrainDoesExactly(box, b, eligibleAt, plan[..n]);
      SameBatches(d, b, a);
      if !d.going {
        StoppedStays(d, b, a);
        StoppedIsWell(box, b, plan, d);
        assert d.(going := false) == d;
      } else if a.Broken? {
        BrokenStops(d, b, a);
        BrokenIsWell(box, b, plan, d);
      } else if Claim(d.box, b, a.event, a.token, a.claimedAt) == d.box {
        NothingStops(d, b, a);
        StoppedIsWell(box, b, plan, d);
      } else {
        ClaimedIsWell(box, b, eligibleAt, plan, d);
      }
    }
  }

  lemma BrokenStops(d: Drained, b: Batch, a: Turn)
    requires d.going && a.Broken?
    ensures DrainOne(d, b, a) == d.(going := false, err := true)
  {}

  lemma NothingStops(d: Drained, b: Batch, a: Turn)
    requires d.going && a.Turn? && Claim(d.box, b, a.event, a.token, a.claimedAt) == d.box
    ensures DrainOne(d, b, a) == d.(going := false)
  {}
}
