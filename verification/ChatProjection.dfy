/** The chat service's copy of an order's participants, fed by status facts that may repeat or arrive in any order. */
module ChatProjection {
  import opened Common
  import opened Orders

  datatype Participants = Participants(
    requester: UserId,
    courier: Option<UserId>,
    status: Status,
    revision: int,
    endedAt: Option<Time>)

  type Copies = map<OrderId, Participants>

  function CopyOf(p: Payload): Participants {
    Participants(p.requester, p.courier, p.status, p.revision, if IsTerminal(p.status) then Some(p.at) else None)
  }

  // A copy of the same or a newer revision stays.
  function Saved(copies: Copies, p: Payload): Copies {
    if p.order in copies && copies[p.order].revision >= p.revision then copies else copies[p.order := CopyOf(p)]
  }

  function SavedAll(copies: Copies, ps: seq<Payload>): Copies {
    if ps == [] then copies else Saved(SavedAll(copies, ps[..|ps| - 1]), ps[|ps| - 1])
  }

  class Projection {
    var copies: Copies

    constructor ()
      ensures copies == map[]
    {
      copies := map[];
    }

    method Apply(e: Payload)
      modifies this
      ensures copies == Saved(old(copies), e)
    {
      var ended := None;
      if IsTerminal(e.status) {
        ended := Some(e.at);
      }
      var o := Participants(e.requester, e.courier, e.status, e.revision, ended);
      if e.order !in copies || copies[e.order].revision < o.revision {
        copies := copies[e.order := o];
      }
    }

    method ApplyAll(events: seq<Payload>)
      modifies this
      ensures copies == SavedAll(old(copies), events)
    {
      var k := 0;
      while k < |events|
        invariant 0 <= k <= |events|
        invariant copies == SavedAll(old(copies), events[..k])
      {
        assert events[..k + 1][..k] == events[..k];
        Apply(events[k]);
        k := k + 1;
      }
      assert events[..k] == events;
    }
  }

  // One payload per revision of the order: the source of truth never contradicts itself.
  ghost predicate IsConsistent(ps: seq<Payload>, o: OrderId) {
    forall i, j ::
      0 <= i < |ps| && 0 <= j < |ps| && ps[i].order == ps[j].order == o && ps[i].revision == ps[j].revision ==>
        ps[i] == ps[j]
  }

  // No delivered payload of the order is newer than p.
  ghost predicate IsNewest(ps: seq<Payload>, p: Payload) {
    p in ps && forall q :: q in ps && q.order == p.order ==> q.revision <= p.revision
  }

  // The copy of an order is that of some delivered payload, and no delivered payload is newer.
  lemma {:induction false} CopyIsDelivered(ps: seq<Payload>, o: OrderId)
    ensures o in SavedAll(map[], ps) <==> exists p :: p in ps && p.order == o
    ensures o in SavedAll(map[], ps) ==>
              exists p :: p in ps && p.order == o && SavedAll(map[], ps)[o] == CopyOf(p) && IsNewest(ps, p)
  {
    if ps != [] {
      var earlier, last := ps[..|ps| - 1], ps[|ps| - 1];
      CopyIsDelivered(earlier, o);
      assert ps == earlier + [last];
      var before := SavedAll(map[], earlier);
      if o in before {
        var p :| p in earlier && p.order == o && before[o] == CopyOf(p) && IsNewest(earlier, p);
        if last.order == o && p.revision < last.revision {
          assert IsNewest(ps, last);
        } else {
          assert IsNewest(ps, p);
        }
      } else if last.order == o {
        assert IsNewest(ps, last);
      }
    }
  }

  /** However the status facts are repeated and reordered, the copy is that of the highest revision delivered. */
  lemma NewestWins(ps: seq<Payload>, p: Payload)
    requires IsConsistent(ps, p.order) && IsNewest(ps, p)
    ensures p.order in SavedAll(map[], ps) && SavedAll(map[], ps)[p.order] == CopyOf(p)
  {
    CopyIsDelivered(ps, p.order);
  }

  // Whatever is delivered about the order is one of its status facts; other orders' facts may come between.
  ghost predicate ComesFrom(ps: seq<Payload>, o: OrderId, told: seq<Fact>) {
    forall p :: p in ps && p.order == o ==> exists k :: 0 <= k < |told| && told[k].payload == p
  }

  lemma {:induction false} ChainGrowsStrictly(told: seq<Fact>, i: nat, j: nat)
    requires IsChain(told) && i < j < |told|
    ensures told[i].payload.revision < told[j].payload.revision
    decreases j
  {
    if i < j - 1 {
      ChainGrowsStrictly(told, i, j - 1);
    }
  }

  lemma ToldIsConsistent(told: seq<Fact>, ps: seq<Payload>, o: OrderId)
    requires IsChain(told) && ComesFrom(ps, o, told)
    ensures IsConsistent(ps, o)
  {
    forall i, j | 0 <= i < |ps| && 0 <= j < |ps| && ps[i].order == ps[j].order == o
                  && ps[i].revision == ps[j].revision
      ensures ps[i] == ps[j]
    {
      assert ps[i] in ps && ps[j] in ps;
      var k :| 0 <= k < |told| && told[k].payload == ps[i];
      var l :| 0 <= l < |told| && told[l].payload == ps[j];
      if k < l {
        ChainGrowsStrictly(told, k, l);
      } else if l < k {
        ChainGrowsStrictly(told, l, k);
      }
    }
  }

  lemma LastIsNewest(told: seq<Fact>, ps: seq<Payload>)
    requires IsChain(told) && told != [] && told[|told| - 1].payload in ps
    requires ComesFrom(ps, told[|told| - 1].payload.order, told)
    ensures IsNewest(ps, told[|told| - 1].payload)
  {
    var last := told[|told| - 1].payload;
    forall q | q in ps && q.order == last.order
      ensures q.revision <= last.revision
    {
      var k :| 0 <= k < |told| && told[k].payload == q;
      if k < |told| - 1 {
        ChainGrowsStrictly(told, k, |told| - 1);
      }
    }
  }

  /** End to end: once an order's latest status fact has been delivered, the chat copy shows the order's present
      status and participants, whatever else was delivered before or after it, about this order or any other, in
      whatever order and how often. */
  lemma CopyShowsOrder(life: seq<Step>, ps: seq<Payload>)
    requires IsLife(life) && life != []
    requires var told := StatusFacts(FactsUpTo(life, |life|));
             ComesFrom(ps, life[|life| - 1].after.id, told) && told != [] && told[|told| - 1].payload in ps
    ensures var o := life[|life| - 1].after;
            && o.id in SavedAll(map[], ps)
            && var copy := SavedAll(map[], ps)[o.id];
               && copy.requester == o.requester && copy.courier == o.courier && copy.status == o.status
               && (copy.endedAt.Some? <==> IsTerminal(o.status))
  {
    hide FactsUpTo, StatusFacts, SavedAll, IsLife;
    var told := StatusFacts(FactsUpTo(life, |life|));
    StatusFactsTellTheLife(life, |life|);
    ToldIsConsistent(told, ps, life[|life| - 1].after.id);
    LastIsNewest(told, ps);
    NewestWins(ps, told[|told| - 1].payload);
  }
}
