/** Which facts a relay may take, what each of its steps stores, and why no order's outbox gets stuck. */
module OutboxEffects {
  import opened Common
  import opened Outbox

  // Nothing of the order comes before it but what is published.
  ghost predicate IsHead(box: Box, e: EventId) {
    && e in box.items && box.items[e].publishedAt.None?
    && forall f :: f in box.items && box.items[f].order == box.items[e].order && box.items[f].publishedAt.None? ==>
         || box.items[e].revision < box.items[f].revision
         || (box.items[e].revision == box.items[f].revision && box.items[e].ordinal <= box.items[f].ordinal)
  }

  // Somebody's lease on the fact is not over by then.
  predicate IsLeased(box: Box, e: EventId, at: Time) {
    e in box.items && box.items[e].lease.Some? && at < box.items[e].lease.value.until
  }

  /** A claim takes exactly the first outstanding fact of an order, unless it is leased at the instant its batch was
      frozen at; it leases the fact for thirty seconds from its own reading, and touches no other. */
  lemma ClaimsExactly(box: Box, b: Batch, e: EventId, token: LeaseToken, now: Time)
    requires b in box.batches && token !in box.tickets
    ensures Claim(box, b, e, token, now) ==
            if IsHead(box, e) && !IsLeased(box, e, box.batches[b]) then
              box.(items := box.items[e := box.items[e].(lease := Some(Lease(token, now + 30 * SECOND)))],
                   tickets := box.tickets[token := Ticket(e, b)])
            else box
  {
    if e in box.items && box.items[e].publishedAt.None? {
      assert IsHead(box, e) <==>
             forall f :: f in box.items && IsEarlier(box.items[f], box.items[e]) ==> box.items[f].publishedAt.Some?;
    }
  }

  // The claim's own lease on its outstanding fact.
  predicate Holds(box: Box, token: LeaseToken, e: EventId) {
    && token in box.tickets && box.tickets[token].event == e && e in box.items
    && box.items[e].publishedAt.None? && box.items[e].lease.Some? && box.items[e].lease.value.token == token
  }

  /** After the broker's acknowledgement a fact is marked exactly under the claim's own lease while it still runs, and a
      refused one is put off by two seconds exactly under the claim's own lease; a claim that was overtaken does
      neither. */
  lemma FinishesExactly(box: Box, token: LeaseToken, now: Time)
    requires token in box.tickets
    ensures var e := box.tickets[token].event;
            && Mark(box, token, now) ==
               (if token in box.acked && Holds(box, token, e) && now < box.items[e].lease.value.until
                then box.(items := box.items[e := box.items[e].(publishedAt := Some(now), lease := None)]) else box)
            && Retry(box, token, now) ==
               (if Holds(box, token, e)
                then box.(items := box.items[e := box.items[e].(lease := Some(Lease(token, now + 2 * SECOND)))])
                else box)
  {}

  // Some member of a set of facts has none of them before it.
  lemma {:induction false} FirstOf(box: Box, es: set<EventId>) returns (e: EventId)
    requires es != {} && es <= box.items.Keys
    ensures e in es && forall f :: f in es ==> !IsEarlier(box.items[f], box.items[e])
    decreases |es|
  {
    var x :| x in es;
    if es == {x} {
      e := x;
    } else {
      assert es - {x} != {};
      e := FirstOf(box, es - {x});
      if IsEarlier(box.items[x], box.items[e]) {
        e := x;
      }
    }
  }

  /** No order's outbox gets stuck: while a fact of it is outstanding, one of them is the first, and any batch frozen
      once that one's lease is over can claim it. */
  lemma NeverStuck(box: Box, outstanding: EventId) returns (e: EventId)
    requires outstanding in box.items && box.items[outstanding].publishedAt.None?
    ensures IsHead(box, e) && box.items[e].order == box.items[outstanding].order
    ensures forall b, token, now :: b in box.batches && token !in box.tickets && !IsLeased(box, e, box.batches[b]) ==>
              Claim(box, b, e, token, now) != box
  {
    var o := box.items[outstanding].order;
    var es := set f | f in box.items && box.items[f].order == o && box.items[f].publishedAt.None?;
    assert outstanding in es;
    e := FirstOf(box, es);
    forall f | f in box.items && box.items[f].order == o && box.items[f].publishedAt.None?
      ensures !IsEarlier(box.items[f], box.items[e])
    {
      assert f in es;
    }
    forall b, token, now | b in box.batches && token !in box.tickets && !IsLeased(box, e, box.batches[b])
      ensures Claim(box, b, e, token, now) != box
    {
      ClaimsExactly(box, b, e, token, now);
      assert token in Claim(box, b, e, token, now).tickets;
    }
  }
}
