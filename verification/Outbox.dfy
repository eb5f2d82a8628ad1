/** The outbox and any number of relays that drain it: leases expire, publications fail or repeat, acknowledgements
    are lost. A claim may skip rows that another claim is locking, so any eligible fact may be picked. */
module Outbox {
  import opened Common

  const CLAIM_LEASE: int := 30 * SECOND
  const RETRY_LEASE: int := 2 * SECOND

  type EventId = nat
  type LeaseToken = nat
  type Batch = nat

  datatype Lease = Lease(token: LeaseToken, until: Time)

  datatype Item = Item(order: OrderId, revision: int, ordinal: int, publishedAt: Option<Time>, lease: Option<Lease>)

  // One claim by one Drain: which fact, and for which batch.
  datatype Ticket = Ticket(event: EventId, batch: Batch)

  // log is what the broker accepted; acked are the claims whose own publication it acknowledged.
  datatype Box = Box(
    items: map<EventId, Item>,
    log: seq<EventId>,
    tickets: map<LeaseToken, Ticket>,
    acked: set<LeaseToken>,
    batches: map<Batch, Time>)

  const EMPTY_BOX: Box := Box(map[], [], map[], {}, map[])

  predicate IsEarlier(a: Item, b: Item) {
    a.order == b.order && (a.revision < b.revision || (a.revision == b.revision && a.ordinal < b.ordinal))
  }

  // Outstanding, not leased at the batch's instant, and first among its order's outstanding facts.
  predicate IsEligible(box: Box, e: EventId, at: Time) {
    && e in box.items && box.items[e].publishedAt.None?
    && (box.items[e].lease.Some? ==> box.items[e].lease.value.until <= at)
    && forall f :: f in box.items && IsEarlier(box.items[f], box.items[e]) ==> box.items[f].publishedAt.Some?
  }

  // Facts of an order commit in order of revision and ordinal.
  predicate IsNext(box: Box, e: EventId, order: OrderId, revision: int, ordinal: int) {
    && e !in box.items
    && forall f :: f in box.items && box.items[f].order == order ==>
         IsEarlier(box.items[f], Item(order, revision, ordinal, None, None))
  }

  function Insert(box: Box, e: EventId, order: OrderId, revision: int, ordinal: int): Box {
    if IsNext(box, e, order, revision, ordinal)
    then box.(items := box.items[e := Item(order, revision, ordinal, None, None)]) else box
  }

  // A Drain freezes eligibility for its whole batch.
  function Start(box: Box, b: Batch, eligibleAt: Time): Box {
    if b in box.batches then box else box.(batches := box.batches[b := eligibleAt])
  }

  function Claim(box: Box, b: Batch, e: EventId, token: LeaseToken, now: Time): Box {
    if b !in box.batches || token in box.tickets || !IsEligible(box, e, box.batches[b]) then box
    else
      box.(items := box.items[e := box.items[e].(lease := Some(Lease(token, now + CLAIM_LEASE)))],
           tickets := box.tickets[token := Ticket(e, b)])
  }

  // The broker accepts the fact of a claim, whether or not its lease still holds.
  function Publish(box: Box, token: LeaseToken): Box {
    if token !in box.tickets then box
    else box.(log := box.log + [box.tickets[token].event], acked := box.acked + {token})
  }

  predicate HoldsLease(box: Box, token: LeaseToken) {
    && token in box.tickets
    && var e := box.tickets[token].event;
       && e in box.items && box.items[e].publishedAt.None?
       && box.items[e].lease.Some? && box.items[e].lease.value.token == token
  }

  // Marks a fact published after the broker's acknowledgement; false when the lease was lost.
  predicate MayMark(box: Box, token: LeaseToken, now: Time) {
    token in box.acked && HoldsLease(box, token) && box.items[box.tickets[token].event].lease.value.until > now
  }

  function Mark(box: Box, token: LeaseToken, now: Time): Box {
    if !MayMark(box, token, now) then box
    else
      var e := box.tickets[token].event;
      box.(items := box.items[e := box.items[e].(publishedAt := Some(now), lease := None)])
  }

  // Defers a fact that could not be published.
  function Retry(box: Box, token: LeaseToken, now: Time): Box {
    if !HoldsLease(box, token) then box
    else
      var e := box.tickets[token].event;
      box.(items := box.items[e := box.items[e].(lease := Some(Lease(token, now + RETRY_LEASE)))])
  }

  datatype Step =
    | Commit(event: EventId, order: OrderId, revision: int, ordinal: int)
    | Begin(batch: Batch, eligibleAt: Time)
    | ClaimOne(batch: Batch, event: EventId, token: LeaseToken, now: Time)
    | Accepted(token: LeaseToken)
    | Acknowledge(token: LeaseToken, now: Time)
    | Defer(token: LeaseToken, now: Time)

  function Take(box: Box, s: Step): Box {
    match s
    case Commit(e, order, revision, ordinal) => Insert(box, e, order, revision, ordinal)
    case Begin(b, eligibleAt) => Start(box, b, eligibleAt)
    case ClaimOne(b, e, token, now) => Claim(box, b, e, token, now)
    case Accepted(token) => Publish(box, token)
    case Acknowledge(token, now) => Mark(box, token, now)
    case Defer(token, now) => Retry(box, token, now)
  }

  function Run(box: Box, steps: seq<Step>): Box
    decreases |steps|
  {
    if steps == [] then box else Run(Take(box, steps[0]), steps[1..])
  }

  ghost predicate EarlierMarked(box: Box, e: EventId) {
    forall f :: f in box.items && e in box.items && IsEarlier(box.items[f], box.items[e]) ==>
      box.items[f].publishedAt.Some?
  }

  ghost predicate MarkedOk(box: Box) {
    forall e :: e in box.items && box.items[e].publishedAt.Some? ==> e in box.log && EarlierMarked(box, e)
  }

  ghost predicate TicketOk(box: Box, t: Ticket) {
    t.event in box.items && t.batch in box.batches && EarlierMarked(box, t.event)
  }

  ghost predicate LogOk(box: Box) {
    && (forall t :: t in box.acked ==> t in box.tickets && box.tickets[t].event in box.log)
    && (forall e :: e in box.log ==> e in box.items)
  }

  ghost predicate BoxOk(box: Box) {
    && MarkedOk(box)
    && (forall t :: t in box.tickets ==> TicketOk(box, box.tickets[t]))
    && LogOk(box)
    && InOrder(box)
  }

  // The position of a fact's first publication.
  function First(log: seq<EventId>, e: EventId): (i: nat)
    requires e in log
    ensures i < |log| && log[i] == e && e !in log[..i]
  {
    if log[0] == e then 0 else 1 + First(log[1..], e)
  }

  // First publications of an order follow revision and ordinal, and none is skipped.
  ghost predicate InOrder(box: Box) {
    forall a, b :: a in box.items && b in box.items && IsEarlier(box.items[a], box.items[b]) && b in box.log ==>
      a in box.log && First(box.log, a) < First(box.log, b)
  }

  // One attempt in a batch

  ghost predicate OncePerBatch(box: Box) {
    forall s, t :: s in box.tickets && t in box.tickets && s != t && box.tickets[s].batch == box.tickets[t].batch ==>
      box.tickets[s].event != box.tickets[t].event
  }

  // The batch of this claim can no longer see its fact as eligible.
  ghost predicate IsSpent(box: Box, t: Ticket) {
    && t.event in box.items && t.batch in box.batches
    && (box.items[t.event].publishedAt.Some?
        || (box.items[t.event].lease.Some? && box.items[t.event].lease.value.until > box.batches[t.batch]))
  }

  // A lease belongs to a claim, and outlasts the instant its batch was frozen at.
  ghost predicate LeaseOk(box: Box, e: EventId) {
    e in box.items && box.items[e].lease.Some? ==>
      var l := box.items[e].lease.value;
      && l.token in box.tickets && box.tickets[l.token].event == e && box.tickets[l.token].batch in box.batches
      && l.until > box.batches[box.tickets[l.token].batch]
      && forall t :: t in box.tickets && box.tickets[t].event == e && box.tickets[t].batch in box.batches ==>
           box.batches[box.tickets[t].batch] <= box.batches[box.tickets[l.token].batch]
  }

  ghost predicate OnceOk(box: Box) {
    && OncePerBatch(box)
    && (forall t :: t in box.tickets ==> IsSpent(box, box.tickets[t]))
    && (forall e :: e in box.items ==> LeaseOk(box, e))
  }

  // The reading behind a lease is not so far behind the batch's instant that the lease is over by then.
  predicate ReadsAhead(box: Box, s: Step) {
    match s
    case ClaimOne(b, _, _, now) => b in box.batches ==> box.batches[b] < now + CLAIM_LEASE
    case Defer(token, now) =>
      token in box.tickets && box.tickets[token].batch in box.batches ==>
        box.batches[box.tickets[token].batch] < now + RETRY_LEASE
    case _ => true
  }

  predicate AllReadAhead(box: Box, steps: seq<Step>)
    decreases |steps|
  {
    steps == [] || (ReadsAhead(box, steps[0]) && AllReadAhead(Take(box, steps[0]), steps[1..]))
  }
}
