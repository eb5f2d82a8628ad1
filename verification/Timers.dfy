/** The paged scanner behind the lifecycle timers: it advances past failed candidates, so none starves the rest. */
module Timers {
  import opened Common

  const BATCH: nat := 50
  const MIN_DELAY: int := SECOND
  const MAX_DELAY: int := 30 * SECOND

  // Zero is the nil cursor; every order's id is above it.
  type Id = nat

  datatype Retry = Retry(nextAttempt: Time, delay: int, seen: bool)

  datatype Cursor = Cursor(after: Id, retries: map<Id, Retry>)

  const FRESH: Cursor := Cursor(0, map[])

  // What one scan meets: the attempts that will fail, and the clock before and after them.
  datatype Weather = Weather(fails: set<Id>, now: Time, later: Time)

  predicate IsSorted(ids: seq<Id>) {
    (forall i, j :: 0 <= i < j < |ids| ==> ids[i] < ids[j]) && (forall i :: 0 <= i < |ids| ==> 0 < ids[i])
  }

  // The position of the first id above the cursor.
  function Above(overdue: seq<Id>, after: Id): (i: nat)
    ensures i <= |overdue|
  {
    if overdue == [] || overdue[0] > after then 0 else 1 + Above(overdue[1..], after)
  }

  // One page of the persisted overdue orders above the cursor, in order.
  function Page(overdue: seq<Id>, after: Id): seq<Id> {
    var i := Above(overdue, after);
    overdue[i..Min(i + BATCH, |overdue|)]
  }

  predicate IsWaiting(retries: map<Id, Retry>, id: Id, now: Time) {
    id in retries && retries[id].nextAttempt > now
  }

  function Marked(retries: map<Id, Retry>, ids: seq<Id>): map<Id, Retry> {
    map id | id in retries :: if id in ids then retries[id].(seen := true) else retries[id]
  }

  // The discovered ids whose retry time has passed.
  function Due(retries: map<Id, Retry>, ids: seq<Id>, now: Time): seq<Id> {
    if ids == [] then []
    else
      Due(retries, ids[..|ids| - 1], now)
      + if IsWaiting(retries, ids[|ids| - 1], now) then [] else [ids[|ids| - 1]]
  }

  function NextDelay(delay: int): int {
    Min(MAX_DELAY, Max(MIN_DELAY, 2 * delay))
  }

  function Failed(retries: map<Id, Retry>, id: Id, later: Time): map<Id, Retry> {
    var delay := NextDelay(if id in retries then retries[id].delay else 0);
    retries[id := Retry(later + delay, delay, true)]
  }

  function Settled(retries: map<Id, Retry>, tried: seq<Id>, w: Weather): map<Id, Retry> {
    if tried == [] then retries
    else
      var earlier := Settled(retries, tried[..|tried| - 1], w);
      var id := tried[|tried| - 1];
      if id in w.fails then Failed(earlier, id, w.later) else earlier - {id}
  }

  // Failures no longer found in the overdue set are forgotten once the sweep is complete.
  function Forgotten(retries: map<Id, Retry>): map<Id, Retry> {
    map id | id in retries && retries[id].seen :: retries[id].(seen := false)
  }

  datatype Scan = Scan(cursor: Cursor, discovered: seq<Id>, tried: seq<Id>)

  function ScanOver(c: Cursor, overdue: seq<Id>, w: Weather): Scan {
    var ids := Page(overdue, c.after);
    var marked := Marked(c.retries, ids);
    var tried := Due(marked, ids, w.now);
    var settled := Settled(marked, tried, w);
    if |ids| == BATCH then Scan(Cursor(ids[|ids| - 1], settled), ids, tried)
    else Scan(Cursor(0, Forgotten(settled)), ids, tried)
  }

  // The cursor after several scans of the same overdue orders.
  function After(c: Cursor, overdue: seq<Id>, ws: seq<Weather>): Cursor {
    if ws == [] then c else ScanOver(After(c, overdue, ws[..|ws| - 1]), overdue, ws[|ws| - 1]).cursor
  }

  class Scanner {
    var after: Id
    var retries: map<Id, Retry>

    function State(): Cursor
      reads this
    {
      Cursor(after, retries)
    }

    constructor ()
      ensures State() == FRESH
    {
      after, retries := 0, map[];
    }

    // Marks what was discovered, and holds back what is still waiting for its retry time.
    method Gate(ids: seq<Id>, now: Time) returns (tried: seq<Id>)
      requires IsSorted(ids)
      modifies this`retries
      ensures retries == Marked(old(retries), ids) && tried == Due(retries, ids, now)
    {
      tried := [];
      ghost var start := retries;
      var k := 0;
      while k < |ids|
        invariant 0 <= k <= |ids|
        invariant retries == Marked(start, ids[..k])
        invariant tried == Due(Marked(start, ids), ids[..k], now)
      {
        var id := ids[k];
        MarkOneMore(start, ids, k);
        assert ids[..k + 1][..k] == ids[..k];
        var waiting := false;
        if id in retries {
          retries := retries[id := retries[id].(seen := true)];
          waiting := retries[id].nextAttempt > now;
        }
        if !waiting {
          tried := tried + [id];
        }
        k := k + 1;
      }
      assert ids[..k] == ids;
    }

    method Settle(tried: seq<Id>, w: Weather)
      modifies this`retries
      ensures retries == Settled(old(retries), tried, w)
    {
      var j := 0;
      while j < |tried|
        invariant 0 <= j <= |tried|
        invariant retries == Settled(old(retries), tried[..j], w)
      {
        var id := tried[j];
        assert tried[..j + 1][..j] == tried[..j];
        if id in w.fails {
          var delay := NextDelay(if id in retries then retries[id].delay else 0);
          retries := retries[id := Retry(w.later + delay, delay, true)];
        } else {
          retries := retries - {id};
        }
        j := j + 1;
      }
      assert tried[..j] == tried;
    }

    // One bounded page. A failed candidate keeps its own pace; the cursor moves on past it.
    method ScanOnce(overdue: seq<Id>, w: Weather) returns (discovered: seq<Id>, tried: seq<Id>)
      requires IsSorted(overdue)
      modifies this
      ensures ScanOver(old(State()), overdue, w) == Scan(State(), discovered, tried)
    {
      discovered := Page(overdue, after);
      PageIsSorted(overdue, after);
      tried := Gate(discovered, w.now);
      Settle(tried, w);
      if |discovered| == BATCH {
        after := discovered[|discovered| - 1];
      } else {
        after := 0;
        ForgetUnseen();
      }
    }

    method ForgetUnseen()
      modifies this`retries
      ensures retries == Forgotten(old(retries))
    {
      ghost var settled := retries;
      var rest := retries.Keys;
      while rest != {}
        invariant rest <= settled.Keys
        invariant retries == map id | id in settled && (id in rest || settled[id].seen) ::
                    if id in rest then settled[id] else settled[id].(seen := false)
        decreases |rest|
      {
        var id :| id in rest;
        if retries[id].seen {
          retries := retries[id := retries[id].(seen := false)];
        } else {
          retries := retries - {id};
        }
        rest := rest - {id};
      }
    }
  }

  lemma MarkOneMore(start: map<Id, Retry>, ids: seq<Id>, k: nat)
    requires k < |ids| && forall i, j :: 0 <= i < j < |ids| ==> ids[i] < ids[j]
    ensures ids[k] in start ==>
              Marked(start, ids[..k + 1]) == Marked(start, ids[..k])[ids[k] := start[ids[k]].(seen := true)]
    ensures ids[k] !in start ==> Marked(start, ids[..k + 1]) == Marked(start, ids[..k])
    ensures ids[k] in start ==> Marked(start, ids)[ids[k]] == start[ids[k]].(seen := true)
    ensures ids[k] in start ==> Marked(start, ids[..k])[ids[k]].(seen := true) == start[ids[k]].(seen := true)
  {
    assert ids[..k + 1] == ids[..k] + [ids[k]];
  }

  lemma PageIsSorted(overdue: seq<Id>, after: Id)
    requires IsSorted(overdue)
    ensures IsSorted(Page(overdue, after))
  {}

  // Retry pacing

  ghost predicate Paced(retries: map<Id, Retry>) {
    forall id :: id in retries ==> MIN_DELAY <= retries[id].delay <= MAX_DELAY
  }

  lemma {:induction false} SettledIsPaced(retries: map<Id, Retry>, tried: seq<Id>, w: Weather)
    requires Paced(retries)
    ensures Paced(Settled(retries, tried, w))
  {
    if tried != [] {
      SettledIsPaced(retries, tried[..|tried| - 1], w);
    }
  }

  /** Every retry waits between one and thirty seconds, in every state a scanner can reach. */
  lemma {:induction false} AlwaysPaced(c: Cursor, overdue: seq<Id>, ws: seq<Weather>)
    requires Paced(c.retries)
    ensures Paced(After(c, overdue, ws).retries)
  {
    if ws != [] {
      AlwaysPaced(c, overdue, ws[..|ws| - 1]);
      var before := After(c, overdue, ws[..|ws| - 1]);
      var w := ws[|ws| - 1];
      var ids := Page(overdue, before.after);
      SettledIsPaced(Marked(before.retries, ids), Due(Marked(before.retries, ids), ids, w.now), w);
    }
  }

  // Coverage

  lemma {:induction false} AboveIsPosition(overdue: seq<Id>, k: nat)
    requires IsSorted(overdue) && k < |overdue|
    ensures Above(overdue, overdue[k]) == k + 1
  {
    if k > 0 {
      assert overdue[1..][k - 1] == overdue[k];
      AboveIsPosition(overdue[1..], k - 1);
    } else if |overdue| > 1 {
      assert overdue[1..][0] == overdue[1];
    }
  }

  lemma AboveNil(overdue: seq<Id>)
    requires IsSorted(overdue)
    ensures Above(overdue, 0) == 0
  {}

  // Where the k-th page of a sweep starts.
  ghost predicate IsAt(c: Cursor, overdue: seq<Id>, k: nat) {
    k * BATCH <= |overdue| && c.after == if k == 0 then 0 else overdue[k * BATCH - 1]
  }

  lemma PageAt(c: Cursor, overdue: seq<Id>, k: nat)
    requires IsSorted(overdue) && IsAt(c, overdue, k)
    ensures Page(overdue, c.after) == overdue[k * BATCH..Min(k * BATCH + BATCH, |overdue|)]
  {
    if k == 0 {
      AboveNil(overdue);
    } else {
      AboveIsPosition(overdue, k * BATCH - 1);
    }
  }

  // Full pages move the cursor on by exactly one page, whatever failed.
  lemma {:induction false} SweepPosition(c: Cursor, overdue: seq<Id>, ws: seq<Weather>)
    requires IsSorted(overdue) && c.after == 0 && |ws| * BATCH <= |overdue|
    ensures IsAt(After(c, overdue, ws), overdue, |ws|)
  {
    if ws != [] {
      var before := After(c, overdue, ws[..|ws| - 1]);
      SweepPosition(c, overdue, ws[..|ws| - 1]);
      PageAt(before, overdue, |ws| - 1);
    }
  }

  // What the k-th scan of a sweep discovers and attempts.
  function ScanAt(c: Cursor, overdue: seq<Id>, ws: seq<Weather>, k: nat): Scan
    requires k < |ws|
  {
    ScanOver(After(c, overdue, ws[..k]), overdue, ws[k])
  }

  lemma {:induction false} DueTries(retries: map<Id, Retry>, ids: seq<Id>, now: Time, id: Id)
    ensures id in Due(retries, ids, now) <==> id in ids && !IsWaiting(retries, id, now)
  {
    if ids != [] {
      DueTries(retries, ids[..|ids| - 1], now, id);
      assert ids == ids[..|ids| - 1] + [ids[|ids| - 1]];
    }
  }

  // The page that holds position i, and where in it.
  lemma PageOf(i: nat, n: nat)
    requires i < n
    ensures var k := i / BATCH;
            && k <= n / BATCH && k * BATCH <= i < k * BATCH + BATCH
            && i - k * BATCH < Min(k * BATCH + BATCH, n) - k * BATCH
  {
    var k := i / BATCH;
    assert i == k * BATCH + i % BATCH;
    assert n == n / BATCH * BATCH + n % BATCH;
  }

  lemma MarkedWaits(retries: map<Id, Retry>, ids: seq<Id>, id: Id, now: Time)
    ensures IsWaiting(Marked(retries, ids), id, now) == IsWaiting(retries, id, now)
  {}

  /** Nobody starves: over a fixed overdue set of n orders, floor(n/50) + 1 scans from the start discover every one of
      them, and attempt it in that scan exactly if its own retry time has passed, whichever attempts fail. */
  lemma EveryOrderIsTried(c: Cursor, overdue: seq<Id>, ws: seq<Weather>, i: nat)
    requires IsSorted(overdue) && c.after == 0 && |ws| == |overdue| / BATCH + 1 && i < |overdue|
    ensures var k := i / BATCH;
            && overdue[i] in ScanAt(c, overdue, ws, k).discovered
            && (overdue[i] in ScanAt(c, overdue, ws, k).tried <==>
                  !IsWaiting(After(c, overdue, ws[..k]).retries, overdue[i], ws[k].now))
  {
    hide Marked, Due, Settled, Page, IsSorted, Forgotten, IsWaiting, After;
    PageOf(i, |overdue|);
    var k := i / BATCH;
    var before := After(c, overdue, ws[..k]);
    SweepPosition(c, overdue, ws[..k]);
    PageAt(before, overdue, k);
    var ids := Page(overdue, before.after);
    assert ids[i - k * BATCH] == overdue[i];
    DueTries(Marked(before.retries, ids), ids, ws[k].now, overdue[i]);
    MarkedWaits(before.retries, ids, overdue[i], ws[k].now);
  }

  // What becomes of one order in a scan

  ghost predicate AreDistinct(ids: seq<Id>) {
    forall i, j :: 0 <= i < j < |ids| ==> ids[i] != ids[j]
  }

  lemma {:induction false} SettledAt(retries: map<Id, Retry>, tried: seq<Id>, w: Weather, id: Id)
    requires AreDistinct(tried)
    ensures var settled := Settled(retries, tried, w);
            && (id !in tried ==> (id in settled <==> id in retries) && (id in retries ==> settled[id] == retries[id]))
            && (id in tried && id in w.fails ==>
                  var delay := NextDelay(if id in retries then retries[id].delay else 0);
                  id in settled && settled[id] == Retry(w.later + delay, delay, true))
            && (id in tried && id !in w.fails ==> id !in settled)
  {
    if tried != [] {
      var n := |tried| - 1;
      SettledAt(retries, tried[..n], w, id);
      assert tried == tried[..n] + [tried[n]];
    }
  }

  lemma {:induction false} DueIsDistinct(retries: map<Id, Retry>, ids: seq<Id>, now: Time)
    requires AreDistinct(ids)
    ensures AreDistinct(Due(retries, ids, now))
    ensures forall id :: id in Due(retries, ids, now) ==> id in ids
  {
    if ids != [] {
      var n := |ids| - 1;
      DueIsDistinct(retries, ids[..n], now);
      assert ids[n] !in ids[..n];
      var earlier := Due(retries, ids[..n], now);
      assert forall i :: 0 <= i < |earlier| ==> earlier[i] in earlier;
    }
  }

  /** What one scan makes of each order's retry: a failed attempt waits a second after the first failure and twice as
      long after each further one, up to thirty; a successful one is forgotten; and an order that was not tried keeps
      its pace. */
  lemma PacedExactly(c: Cursor, overdue: seq<Id>, w: Weather, id: Id)
    requires IsSorted(overdue) && Paced(c.retries)
    ensures var s := ScanOver(c, overdue, w);
            var before, after := c.retries, s.cursor.retries;
            && (id in s.tried && id in w.fails ==>
                  && id in after && after[id].nextAttempt == w.later + after[id].delay
                  && after[id].delay == if id in before then Min(30 * SECOND, 2 * before[id].delay) else SECOND)
            && (id in s.tried && id !in w.fails ==> id !in after)
            && (id !in s.tried && id in after ==>
                  && id in before
                  && after[id].nextAttempt == before[id].nextAttempt && after[id].delay == before[id].delay)
            && (id !in s.tried && id in before && (id in s.discovered || before[id].seen) ==> id in after)
  {
    hide Page, Due, Settled;
    var ids := Page(overdue, c.after);
    PageIsSorted(overdue, c.after);
    var marked := Marked(c.retries, ids);
    DueIsDistinct(marked, ids, w.now);
    SettledAt(marked, Due(marked, ids, w.now), w, id);
  }

  // What a sweep forgets

  // Rows marked seen are overdue orders.
  ghost predicate SeenAreOverdue(retries: map<Id, Retry>, overdue: seq<Id>) {
    forall id :: id in retries && retries[id].seen ==> id in overdue
  }

  lemma {:induction false} SettledSeen(retries: map<Id, Retry>, tried: seq<Id>, w: Weather, overdue: seq<Id>)
    requires SeenAreOverdue(retries, overdue) && forall id :: id in tried ==> id in overdue
    ensures SeenAreOverdue(Settled(retries, tried, w), overdue)
  {
    if tried != [] {
      SettledSeen(retries, tried[..|tried| - 1], w, overdue);
    }
  }

  lemma ScanSeen(c: Cursor, overdue: seq<Id>, w: Weather)
    requires SeenAreOverdue(c.retries, overdue)
    ensures SeenAreOverdue(ScanOver(c, overdue, w).cursor.retries, overdue)
    ensures ScanOver(c, overdue, w).cursor.after == 0 ==>
              |Page(overdue, c.after)| == BATCH
              || forall id :: id in ScanOver(c, overdue, w).cursor.retries ==>
                   id in overdue && !ScanOver(c, overdue, w).cursor.retries[id].seen
  {
    var ids := Page(overdue, c.after);
    var marked := Marked(c.retries, ids);
    var tried := Due(marked, ids, w.now);
    forall id | id in tried
      ensures id in overdue
    {
      DueTries(marked, ids, w.now, id);
    }
    SettledSeen(marked, tried, w, overdue);
  }

  lemma {:induction false} SweepSeen(c: Cursor, overdue: seq<Id>, ws: seq<Weather>)
    requires SeenAreOverdue(c.retries, overdue)
    ensures SeenAreOverdue(After(c, overdue, ws).retries, overdue)
  {
    if ws != [] {
      SweepSeen(c, overdue, ws[..|ws| - 1]);
      ScanSeen(After(c, overdue, ws[..|ws| - 1]), overdue, ws[|ws| - 1]);
    }
  }

  /** A whole sweep ends back at the start, and the retry map then holds only orders found overdue in that sweep: it
      cannot grow with the history of failures. */
  lemma SweepForgets(c: Cursor, overdue: seq<Id>, ws: seq<Weather>)
    requires IsSorted(overdue) && c.after == 0 && |ws| == |overdue| / BATCH + 1
    requires forall id :: id in c.retries ==> !c.retries[id].seen
    ensures var end := After(c, overdue, ws);
            && end.after == 0
            && forall id :: id in end.retries ==> id in overdue && !end.retries[id].seen
  {
    var last := |ws| - 1;
    var before := After(c, overdue, ws[..last]);
    SweepPosition(c, overdue, ws[..last]);
    PageAt(before, overdue, last);
    SweepSeen(c, overdue, ws[..last]);
    ScanSeen(before, overdue, ws[last]);
  }
}
