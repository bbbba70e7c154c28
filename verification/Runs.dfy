/** Runs of the broker: arbitrary sequences of calls by any number of producers,
    workers and maintenance loops. A crashed worker is one that makes no more
    calls; a stalled one calls late. */
module Runs {
  import opened Order
  import opened BrokerModel
  import opened Placement
  import opened CallPlacement
  import opened Delivery
  import Overtaking

  datatype Timed = Timed(at: int, call: Call)

  function RunState(s: State, calls: seq<Timed>): State {
    if calls == [] then s
    else Step(RunState(s, calls[..|calls| - 1]), calls[|calls| - 1].call, calls[|calls| - 1].at)
  }

  /** The history of a run. */
  function Trace(s: State, calls: seq<Timed>): seq<Stamped> {
    if calls == [] then [] else
      var n := |calls| - 1;
      Trace(s, calls[..n]) + Events(RunState(s, calls[..n]), calls[n].call, calls[n].at)
  }

  ghost predicate AdmissibleRun(s: State, calls: seq<Timed>) {
    calls == [] ||
    (var n := |calls| - 1;
     AdmissibleRun(s, calls[..n]) && Admissible(RunState(s, calls[..n]), calls[n].call, calls[n].at))
  }

  /** Every run of calls is a legal history, so everything proved of legal
      histories holds of it, and it never breaks the placement invariant. */
  lemma {:induction false} RunLegal(s: State, calls: seq<Timed>)
    requires Placed(s) && AdmissibleRun(s, calls)
    ensures Legal(s, Trace(s, calls))
    ensures After(s, Trace(s, calls)) == RunState(s, calls)
    ensures Placed(RunState(s, calls))
    decreases |calls|
  {
    if calls == [] {
    } else {
      var n := |calls| - 1;
      var t := RunState(s, calls[..n]);
      RunLegal(s, calls[..n]);
      CallLegal(t, calls[n].call, calls[n].at);
      LegalConcat(s, Trace(s, calls[..n]), Events(t, calls[n].call, calls[n].at));
      AfterConcat(s, Trace(s, calls[..n]), Events(t, calls[n].call, calls[n].at));
    }
  }

  /** Fencing as callers see it: after any run, a report by `worker` succeeds
      exactly when `worker` made the latest claim of the job and nothing has
      released it since. A worker that was reaped gets a refusal until it
      claims again. */
  lemma ReportSucceedsIff(calls: seq<Timed>, worker: string, id: string)
    requires AdmissibleRun(EMPTY, calls) && !RunState(EMPTY, calls).closed
    ensures Fence(RunState(EMPTY, calls), worker, id) == Ok <==> Holder(Trace(EMPTY, calls), id) == Some(worker)
  {
    EmptyPlaced();
    RunLegal(EMPTY, calls);
    HolderIsOwner(Trace(EMPTY, calls), id);
  }

  /** The delivery guarantee for runs of calls. */
  lemma RunNoLoss(calls: seq<Timed>, id: string)
    requires AdmissibleRun(EMPTY, calls)
    requires FreshIds(Trace(EMPTY, calls)) && WasInserted(Trace(EMPTY, calls), id)
    ensures var h := Trace(EMPTY, calls);
      id in RunState(EMPTY, calls).jobs || AckedByHolder(h, id) || PurgedAfterClaim(h, id)
  {
    EmptyPlaced();
    RunLegal(EMPTY, calls);
    NoLoss(Trace(EMPTY, calls), id);
  }

  // -------------------------------------------------------- bounded recovery

  predicate Wants(queues: seq<string>, q: string) { queues == [] || q in queues }

  /** `id` still sits on the lease that ends at `deadline`. */
  predicate Stuck(s: State, id: string, deadline: int) {
    id in s.active && s.active[id] == deadline
  }

  /** The active jobs of the wanted queues that a reap would take before `id`. */
  function Ahead(s: State, queues: seq<string>, id: string, deadline: int): set<string> {
    set x | x in s.active && x in s.jobs && Wants(queues, s.jobs[x].queue)
          && (s.active[x] < deadline || (s.active[x] == deadline && StrLess(x, id)))
  }

  /** A lease that has already ended was there before the event: claims and
      renewals only hand out deadlines in the future. */
  lemma {:induction false} OldLease(s: State, st: Stamped, x: string)
    requires Placed(s) && Enabled(s, st)
    requires x in Apply(s, st).active && Apply(s, st).active[x] <= st.now
    ensures x in s.active && s.active[x] == Apply(s, st).active[x]
    ensures x in s.jobs && x in Apply(s, st).jobs && Apply(s, st).jobs[x].queue == s.jobs[x].queue
  {
    assert PlacedAt(s, x);
    if !st.event.Inserted? && !st.event.Shut? {
      EnabledRipe(s, st);
      OldLeaseKept(s, st.event, st.now, x);
    }
  }

  lemma {:induction false} OldLeaseKept(s: State, e: Event, now: int, x: string)
    requires Ripe(s, e) && PlacedAt(s, x) && (Leases(e) ==> e.deadline > now)
    requires x in Changed(s, e, now).active && Changed(s, e, now).active[x] <= now
    ensures x in s.active && s.active[x] == Changed(s, e, now).active[x]
    ensures x in s.jobs && x in Changed(s, e, now).jobs && Changed(s, e, now).jobs[x].queue == s.jobs[x].queue
  {
    ChangedIndexes(s, e, now);
    if x != e.id { ChangedOther(s, e, now, x); }
  }

  ghost predicate AllAt(h: seq<Stamped>, now: int) {
    forall i :: 0 <= i < |h| ==> h[i].now == now
  }

  lemma {:induction false} OldLeases(s: State, h: seq<Stamped>, now: int, x: string)
    requires Placed(s) && Legal(s, h) && AllAt(h, now)
    requires x in After(s, h).active && After(s, h).active[x] <= now
    ensures x in s.active && s.active[x] == After(s, h).active[x]
    ensures x in s.jobs && x in After(s, h).jobs && After(s, h).jobs[x].queue == s.jobs[x].queue
    decreases |h|
  {
    if h != [] {
      var n := |h| - 1;
      LegalPlaced(s, h[..n]);
      OldLease(After(s, h[..n]), h[n], x);
      assert forall i :: 0 <= i < n ==> h[..n][i] == h[i];
      OldLeases(s, h[..n], now, x);
    } else {
      assert PlacedAt(s, x);
    }
  }

  lemma {:induction false} EventsAllAt(s: State, c: Call, now: int)
    ensures AllAt(Events(s, c, now), now)
  {
    if c.Extend? && c.vt > 0 && !s.closed {
      RenewalsAllAt(s, c.worker, c.ids, now + c.vt, now);
    }
  }

  lemma {:induction false} RenewalsAllAt(s: State, worker: string, ids: seq<string>, deadline: int, now: int)
    ensures AllAt(Renewals(s, worker, ids, deadline, now), now)
  {
    if ids == [] {
    } else {
      RenewalsAllAt(s, worker, ids[..|ids| - 1], deadline, now);
    }
  }

  /** Once a lease has ended, nothing that happens gets in front of it. */
  lemma {:induction false} NothingAhead(s: State, h: seq<Stamped>, now: int, queues: seq<string>, id: string,
                                        deadline: int)
    requires Placed(s) && Legal(s, h) && AllAt(h, now) && deadline <= now
    ensures Stuck(After(s, h), id, deadline) ==> Stuck(s, id, deadline)
    ensures Ahead(After(s, h), queues, id, deadline) <= Ahead(s, queues, id, deadline)
  {
    if Stuck(After(s, h), id, deadline) {
      OldLeases(s, h, now, id);
    }
    forall x | x in Ahead(After(s, h), queues, id, deadline) ensures x in Ahead(s, queues, id, deadline) {
      OldLeases(s, h, now, x);
    }
  }

  /** In particular no call does. */
  lemma NothingGetsAhead(s: State, c: Call, now: int, queues: seq<string>, id: string, deadline: int)
    requires Placed(s) && Admissible(s, c, now) && deadline <= now
    ensures Stuck(Step(s, c, now), id, deadline) ==> Stuck(s, id, deadline)
    ensures Ahead(Step(s, c, now), queues, id, deadline) <= Ahead(s, queues, id, deadline)
  {
    CallLegal(s, c, now);
    EventsAllAt(s, c, now);
    NothingAhead(s, Events(s, c, now), now, queues, id, deadline);
  }

  /** A reap takes the oldest expired leases, as many as the limit allows. */
  lemma ReapTakesOldest(s: State, queues: seq<string>, limit: int, now: int, x: string, y: string)
    requires limit > 0 && x in ReapPicks(s, queues, limit, now)
    requires y in Expired(s, queues, now) && y !in ReapPicks(s, queues, limit, now)
    ensures x in Expired(s, queues, now) && Before(s.active, x, y)
    ensures |ReapPicks(s, queues, limit, now)| == limit
  {
    var all, picks := Sorted(Expired(s, queues, now), s.active), ReapPicks(s, queues, limit, now);
    SortedAscending(Expired(s, queues, now), s.active);
    var i :| 0 <= i < |picks| && picks[i] == x;
    var j :| 0 <= j < |all| && all[j] == y;
    assert forall k :: 0 <= k < |picks| ==> all[k] == picks[k] && picks[k] in picks;
  }

  lemma ReleaseOne(t: State, st: Stamped, x: string)
    requires st.event.Recovered? || st.event.Orphaned?
    ensures x in Apply(t, st).active <==> x in t.active && !(x == st.event.id && x in t.jobs)
  {
  }

  /** The stored jobs a reap takes, and only those, stop being active. */
  lemma {:induction false} ReapReleases(s: State, ids: seq<string>, now: int, x: string)
    ensures x in After(s, ReapEvents(s, ids, now)).active <==> x in s.active && !(x in ids && x in s.jobs)
  {
    if ids == [] {
    } else {
      var h, n := ReapEvents(s, ids, now), |ids| - 1;
      ReapReleases(s, ids[..n], now, x);
      assert h[..n] == ReapEvents(s, ids[..n], now);
      Overtaking.ReapsQueues(s, ids[..n], now, x);
      ReleaseOne(After(s, h[..n]), h[n], x);
      assert x in ids <==> x in ids[..n] || x == ids[n];
    }
  }

  lemma Shrinks(before: set<string>, after: set<string>, taken: set<string>)
    requires after <= before && taken <= before && taken !! after
    ensures |after| + |taken| <= |before|
  {
    SubsetSize(after, before - taken);
    SubsetSize(taken, before);
  }

  /** A reap that passes over an expired lease takes `limit` jobs, all of them
      from in front of it. */
  lemma {:induction false} ReapPassesOver(s: State, queues: seq<string>, limit: int, now: int, id: string)
    requires limit > 0 && id in Expired(s, queues, now) && id !in ReapPicks(s, queues, limit, now)
    ensures |set x | x in ReapPicks(s, queues, limit, now)| == limit
    ensures forall x :: x in ReapPicks(s, queues, limit, now) ==> x in Ahead(s, queues, id, s.active[id])
  {
    var picks := ReapPicks(s, queues, limit, now);
    SortedAscending(Expired(s, queues, now), s.active);
    NoDupSet(picks);
    assert picks != [] by { assert |Sorted(Expired(s, queues, now), s.active)| > 0; }
    ReapTakesOldest(s, queues, limit, now, picks[0], id);
    forall x | x in picks ensures x in Ahead(s, queues, id, s.active[id]) {
      ReapTakesOldest(s, queues, limit, now, x, id);
    }
  }

  /** A reap leaves `id` stuck only by passing over it. */
  lemma {:induction false} StuckNotPicked(s: State, queues: seq<string>, limit: int, now: int, id: string)
    requires Placed(s) && !s.closed && id in After(s, OnReap(s, queues, limit, now)).active
    ensures id !in ReapPicks(s, queues, limit, now)
  {
    var picks := ReapPicks(s, queues, limit, now);
    if id in picks {
      ReapPicked(s, queues, limit, now);
      ReapReleases(s, picks, now, id);
    }
  }

  lemma {:induction false} PicksReleased(s: State, queues: seq<string>, limit: int, now: int)
    requires Placed(s) && !s.closed
    ensures forall x :: x in ReapPicks(s, queues, limit, now) ==> x !in After(s, OnReap(s, queues, limit, now)).active
  {
    ReapPicked(s, queues, limit, now);
    forall x | x in ReapPicks(s, queues, limit, now)
      ensures x !in After(s, OnReap(s, queues, limit, now)).active
    {
      ReapReleases(s, ReapPicks(s, queues, limit, now), now, x);
    }
  }

  lemma ReapAllAt(s: State, queues: seq<string>, limit: int, now: int)
    ensures AllAt(OnReap(s, queues, limit, now), now)
  {
  }

  /** A reap that leaves `id` stuck has taken `limit` jobs from in front of it. */
  lemma {:induction false} ReapShortens(s: State, queues: seq<string>, limit: int, now: int, id: string, deadline: int)
    requires Placed(s) && !s.closed && limit > 0 && deadline <= now
    requires id in s.jobs && Wants(queues, s.jobs[id].queue) && Stuck(s, id, deadline)
    requires Stuck(After(s, OnReap(s, queues, limit, now)), id, deadline)
    ensures |Ahead(After(s, OnReap(s, queues, limit, now)), queues, id, deadline)| + limit
         <= |Ahead(s, queues, id, deadline)|
  {
    var picks, h := ReapPicks(s, queues, limit, now), OnReap(s, queues, limit, now);
    StuckNotPicked(s, queues, limit, now, id);
    ReapPassesOver(s, queues, limit, now, id);
    PicksReleased(s, queues, limit, now);
    ReapLegal(s, queues, limit, now);
    ReapAllAt(s, queues, limit, now);
    NothingAhead(s, h, now, queues, id, deadline);
    Shrinks(Ahead(s, queues, id, deadline), Ahead(After(s, h), queues, id, deadline), set x | x in picks);
  }

  // Turns: whatever happens at one moment, be it a call or a script.

  datatype Turn = Turn(at: int, events: seq<Stamped>)

  function TurnsState(s: State, turns: seq<Turn>): State {
    if turns == [] then s else After(TurnsState(s, turns[..|turns| - 1]), turns[|turns| - 1].events)
  }

  ghost predicate LegalTurns(s: State, turns: seq<Turn>) {
    turns == [] ||
    (var n := |turns| - 1;
     && LegalTurns(s, turns[..n]) && Legal(TurnsState(s, turns[..n]), turns[n].events)
     && AllAt(turns[n].events, turns[n].at))
  }

  /** The turn is a reap of these queues with at least this limit. */
  ghost predicate IsReap(s: State, t: Turn, queues: seq<string>, limit: int) {
    exists l :: l >= limit && t.events == OnReap(s, queues, l, t.at)
  }

  /** How many such reaps there are. */
  ghost function ReapTurns(s: State, turns: seq<Turn>, queues: seq<string>, limit: int): nat {
    if turns == [] then 0 else
      var n := |turns| - 1;
      ReapTurns(s, turns[..n], queues, limit)
      + if IsReap(TurnsState(s, turns[..n]), turns[n], queues, limit) then 1 else 0
  }

  lemma {:induction false} TurnsPlaced(s: State, turns: seq<Turn>)
    requires Placed(s) && LegalTurns(s, turns)
    ensures Placed(TurnsState(s, turns))
  {
    if turns == [] {
    } else {
      var n := |turns| - 1;
      TurnsPlaced(s, turns[..n]);
      LegalPlaced(TurnsState(s, turns[..n]), turns[n].events);
    }
  }

  lemma {:induction false} TurnShortens(s: State, t: Turn, queues: seq<string>, limit: int, id: string, deadline: int)
    requires Placed(s) && Legal(s, t.events) && AllAt(t.events, t.at) && !s.closed && limit > 0 && deadline <= t.at
    requires id in s.jobs && Wants(queues, s.jobs[id].queue) && Stuck(After(s, t.events), id, deadline)
    ensures id in After(s, t.events).jobs && After(s, t.events).jobs[id].queue == s.jobs[id].queue
    ensures |Ahead(After(s, t.events), queues, id, deadline)| + (if IsReap(s, t, queues, limit) then limit else 0)
         <= |Ahead(s, queues, id, deadline)|
  {
    NothingAhead(s, t.events, t.at, queues, id, deadline);
    OldLeases(s, t.events, t.at, id);
    if IsReap(s, t, queues, limit) {
      var l :| l >= limit && t.events == OnReap(s, queues, l, t.at);
      ReapShortens(s, queues, l, t.at, id, deadline);
    } else {
      SubsetSize(Ahead(After(s, t.events), queues, id, deadline), Ahead(s, queues, id, deadline));
    }
  }

  /** How many jobs those reaps may take between them. */
  ghost function Quota(s: State, turns: seq<Turn>, queues: seq<string>, limit: int): int {
    if turns == [] then 0 else
      var n := |turns| - 1;
      Quota(s, turns[..n], queues, limit)
      + if IsReap(TurnsState(s, turns[..n]), turns[n], queues, limit) then limit else 0
  }

  lemma OneMore(limit: int, m: nat, more: bool)
    ensures limit * (m + if more then 1 else 0) == limit * m + if more then limit else 0
  {
    assert limit * (m + 1) == limit * m + limit;
  }

  lemma {:induction false} QuotaOfReaps(s: State, turns: seq<Turn>, queues: seq<string>, limit: int)
    ensures Quota(s, turns, queues, limit) == limit * ReapTurns(s, turns, queues, limit)
  {
    if turns == [] {
    } else {
      var n := |turns| - 1;
      QuotaOfReaps(s, turns[..n], queues, limit);
      OneMore(limit, ReapTurns(s, turns[..n], queues, limit),
              IsReap(TurnsState(s, turns[..n]), turns[n], queues, limit));
    }
  }

  lemma ManyReaps(k: nat, limit: int, m: nat)
    requires limit > 0 && m > k / limit
    ensures limit * m > k
  {
    assert limit * m >= limit * (k / limit + 1);
  }

  lemma {:induction false} ClosedStays(s: State, h: seq<Stamped>)
    requires s.closed
    ensures After(s, h).closed
  {
    if h == [] {
    } else {
      ClosedStays(s, h[..|h| - 1]);
    }
  }

  lemma OpenBefore(s: State, h: seq<Stamped>)
    requires !After(s, h).closed
    ensures !s.closed
  {
    if s.closed { ClosedStays(s, h); }
  }

  lemma {:induction false} TurnsShorten(s: State, turns: seq<Turn>, queues: seq<string>, limit: int, id: string,
                                        deadline: int)
    requires Placed(s) && LegalTurns(s, turns) && !TurnsState(s, turns).closed && limit > 0
    requires forall i :: 0 <= i < |turns| ==> deadline <= turns[i].at
    requires id in s.jobs && Wants(queues, s.jobs[id].queue) && Stuck(TurnsState(s, turns), id, deadline)
    ensures id in TurnsState(s, turns).jobs && TurnsState(s, turns).jobs[id].queue == s.jobs[id].queue
    ensures |Ahead(TurnsState(s, turns), queues, id, deadline)| + Quota(s, turns, queues, limit)
         <= |Ahead(s, queues, id, deadline)|
    decreases |turns|
  {
    if turns == [] {
    } else {
      var n := |turns| - 1;
      var t := TurnsState(s, turns[..n]);
      TurnsPlaced(s, turns[..n]);
      OpenBefore(t, turns[n].events);
      NothingAhead(t, turns[n].events, turns[n].at, queues, id, deadline);
      assert forall i :: 0 <= i < n ==> turns[..n][i] == turns[i];
      TurnsShorten(s, turns[..n], queues, limit, id, deadline);
      TurnShortens(t, turns[n], queues, limit, id, deadline);
    }
  }

  /** Bounded recovery: an expired lease with `k` active jobs ahead of it is
      gone after `k / limit + 1` reaps of its queues, whatever else happens in
      between: the job was recovered, dead-lettered, reported on or renewed. */
  lemma TurnsRecover(s: State, turns: seq<Turn>, queues: seq<string>, limit: int, id: string, deadline: int)
    requires Placed(s) && LegalTurns(s, turns) && !TurnsState(s, turns).closed && limit > 0
    requires forall i :: 0 <= i < |turns| ==> deadline <= turns[i].at
    requires id in s.jobs && Wants(queues, s.jobs[id].queue)
    requires ReapTurns(s, turns, queues, limit) > |Ahead(s, queues, id, deadline)| / limit
    ensures !Stuck(TurnsState(s, turns), id, deadline)
  {
    if Stuck(TurnsState(s, turns), id, deadline) {
      TurnsShorten(s, turns, queues, limit, id, deadline);
      QuotaOfReaps(s, turns, queues, limit);
      ManyReaps(|Ahead(s, queues, id, deadline)|, limit, ReapTurns(s, turns, queues, limit));
    }
  }

  // The same for runs of calls, each call being one turn.

  function TurnsOf(s: State, calls: seq<Timed>): (turns: seq<Turn>)
    ensures |turns| == |calls| && forall i :: 0 <= i < |calls| ==> turns[i].at == calls[i].at
  {
    if calls == [] then [] else
      var n := |calls| - 1;
      TurnsOf(s, calls[..n]) + [Turn(calls[n].at, Events(RunState(s, calls[..n]), calls[n].call, calls[n].at))]
  }

  /** The call reaps the same queues, in whatever order it names them, with at
      least this limit. */
  predicate ReapsSet(c: Call, queues: seq<string>, limit: int) {
    c.Reap? && (set q | q in c.queues) == (set q | q in queues) && c.limit >= limit
  }

  function Reaps(calls: seq<Timed>, queues: seq<string>, limit: int): nat {
    if calls == [] then 0 else
      var n := |calls| - 1;
      Reaps(calls[..n], queues, limit) + if ReapsSet(calls[n].call, queues, limit) then 1 else 0
  }

  lemma SameQueues(s: State, a: seq<string>, b: seq<string>, limit: int, now: int)
    requires (set q | q in a) == (set q | q in b)
    ensures OnReap(s, a, limit, now) == OnReap(s, b, limit, now)
  {
    var x, y := (set q | q in a), (set q | q in b);
    assert forall q :: (q in a <==> q in x) && (q in b <==> q in y);
    assert |a| > 0 ==> a[0] in x;
    assert |b| > 0 ==> b[0] in y;
    assert Expired(s, a, now) == Expired(s, b, now);
  }

  lemma ReapCallIsReap(s: State, c: Call, now: int, queues: seq<string>, limit: int)
    requires ReapsSet(c, queues, limit)
    ensures IsReap(s, Turn(now, Events(s, c, now)), queues, limit)
  {
    SameQueues(s, c.queues, queues, c.limit, now);
  }

  lemma SnocTurn(s: State, turns: seq<Turn>, t: Turn, queues: seq<string>, limit: int)
    ensures TurnsState(s, turns + [t]) == After(TurnsState(s, turns), t.events)
    ensures LegalTurns(s, turns + [t]) <==>
      LegalTurns(s, turns) && Legal(TurnsState(s, turns), t.events) && AllAt(t.events, t.at)
    ensures ReapTurns(s, turns + [t], queues, limit)
      == ReapTurns(s, turns, queues, limit) + if IsReap(TurnsState(s, turns), t, queues, limit) then 1 else 0
  {
    assert (turns + [t])[..|turns + [t]| - 1] == turns;
  }

  lemma CallTurn(s: State, c: Call, now: int)
    requires Placed(s) && Admissible(s, c, now)
    ensures Legal(s, Events(s, c, now)) && AllAt(Events(s, c, now), now)
  {
    CallLegal(s, c, now);
    EventsAllAt(s, c, now);
  }

  lemma {:induction false} CallTurns(s: State, calls: seq<Timed>, queues: seq<string>, limit: int)
    requires Placed(s) && AdmissibleRun(s, calls)
    ensures LegalTurns(s, TurnsOf(s, calls)) && TurnsState(s, TurnsOf(s, calls)) == RunState(s, calls)
    ensures ReapTurns(s, TurnsOf(s, calls), queues, limit) >= Reaps(calls, queues, limit)
    decreases |calls|
  {
    if calls == [] {
    } else {
      var n := |calls| - 1;
      var t, c, now := RunState(s, calls[..n]), calls[n].call, calls[n].at;
      CallTurns(s, calls[..n], queues, limit);
      RunLegal(s, calls[..n]);
      CallTurn(t, c, now);
      SnocTurn(s, TurnsOf(s, calls[..n]), Turn(now, Events(t, c, now)), queues, limit);
      if ReapsSet(c, queues, limit) { ReapCallIsReap(t, c, now, queues, limit); }
    }
  }

  /** Bounded recovery over runs of calls. */
  lemma BoundedRecovery(s: State, calls: seq<Timed>, queues: seq<string>, limit: int, id: string, deadline: int)
    requires Placed(s) && AdmissibleRun(s, calls) && !RunState(s, calls).closed && limit > 0
    requires forall i :: 0 <= i < |calls| ==> deadline <= calls[i].at
    requires id in s.jobs && Wants(queues, s.jobs[id].queue)
    requires Reaps(calls, queues, limit) > |Ahead(s, queues, id, deadline)| / limit
    ensures !Stuck(RunState(s, calls), id, deadline)
  {
    CallTurns(s, calls, queues, limit);
    TurnsRecover(s, TurnsOf(s, calls), queues, limit, id, deadline);
  }

  // ------------------------------------------------------ renewal exclusivity

  predicate Extends(c: Call, worker: string, id: string) {
    c.Extend? && c.worker == worker && c.vt > 0 && id in c.ids
  }

  predicate Reports(c: Call, worker: string, id: string) {
    (c.Ack? || c.Nack? || c.Kill?) && c.worker == worker && c.id == id
  }

  /** When the worker's lease ends, if nothing but its own renewals touch it. */
  function LeaseEnd(calls: seq<Timed>, worker: string, id: string, start: int): int {
    if calls == [] then start else
      var last := calls[|calls| - 1];
      if Extends(last.call, worker, id) then last.at + last.call.vt
      else LeaseEnd(calls[..|calls| - 1], worker, id, start)
  }

  /** Every renewal by the worker lands strictly before its lease ends. */
  predicate RenewsInTime(calls: seq<Timed>, worker: string, id: string, start: int) {
    calls == [] ||
    (var n := |calls| - 1;
     && RenewsInTime(calls[..n], worker, id, start)
     && (Extends(calls[n].call, worker, id) ==> calls[n].at < LeaseEnd(calls[..n], worker, id, start)))
  }

  ghost predicate Untouched(h: seq<Stamped>, id: string) {
    forall i :: 0 <= i < |h| && !h[i].event.Shut? && Target(h[i].event) == id ==> h[i].event.Renewed?
  }

  lemma {:induction false} FrameHistory(s: State, h: seq<Stamped>, id: string)
    requires Placed(s) && Legal(s, h)
    requires forall i :: 0 <= i < |h| ==> h[i].event.Shut? || Target(h[i].event) != id
    ensures SameView(s, After(s, h), id)
    decreases |h|
  {
    if h == [] {
    } else {
      var n := |h| - 1;
      assert forall i :: 0 <= i < n ==> h[..n][i] == h[i];
      FrameHistory(s, h[..n], id);
      LegalPlaced(s, h[..n]);
      ApplyPlaced(After(s, h[..n]), h[n]);
      SameViewTrans(s, After(s, h[..n]), After(s, h), id);
    }
  }

  /** Nothing but a report or a renewal by its owner reaches a live lease. */
  lemma {:induction false} LeaseShields(s: State, c: Call, now: int, worker: string, id: string)
    requires Placed(s) && Admissible(s, c, now) && Holds(s, worker, id)
    requires id in s.active && now < s.active[id]
    requires !Reports(c, worker, id) && !Extends(c, worker, id)
    ensures forall i :: 0 <= i < |Events(s, c, now)| ==>
      Events(s, c, now)[i].event.Shut? || Target(Events(s, c, now)[i].event) != id
  {
    var h := Events(s, c, now);
    assert PlacedAt(s, id);
    if c.Extend? {
      if h != [] { RenewalsTargets(s, c.worker, c.ids, now + c.vt, now); }
    } else if c.Reap? || c.Promote? || c.RetryDead? || c.PurgeDead? {
      BatchTargets(s, c, now);
    } else if h != [] {
      SingleCall(s, c, now);
      SingleShields(s, h[0], worker, id);
    }
  }

  /** The other calls cause one event at most. */
  lemma SingleCall(s: State, c: Call, now: int)
    requires Placed(s) && Admissible(s, c, now) && Events(s, c, now) != []
    requires !c.Extend? && !c.Reap? && !c.Promote? && !c.RetryDead? && !c.PurgeDead?
    ensures |Events(s, c, now)| == 1 && Enabled(s, Events(s, c, now)[0])
    ensures var e := Events(s, c, now)[0].event;
      && (e.Acked? || e.Retried? || e.Killed? ==> Reports(c, e.worker, e.id))
      && !Lone(e) && !e.Renewed?
  {
    CallLegal(s, c, now);
    OneLegal(s, Events(s, c, now)[0]);
    assert Events(s, c, now) == [Events(s, c, now)[0]];
  }

  lemma SingleShields(s: State, st: Stamped, worker: string, id: string)
    requires Placed(s) && Enabled(s, st) && Holds(s, worker, id)
    requires st.event.Inserted? || st.event.Shut? || st.event.Claimed?
      || ((st.event.Acked? || st.event.Retried? || st.event.Killed?) && !(st.event.worker == worker
        && st.event.id == id))
    ensures st.event.Shut? || Target(st.event) != id
  {
    if st.event.Claimed? { EnabledRipe(s, st); }
  }

  lemma {:induction false} RenewalsTargets(s: State, worker: string, ids: seq<string>, deadline: int, now: int)
    ensures forall i :: 0 <= i < |Renewals(s, worker, ids, deadline, now)| ==>
      var e := Renewals(s, worker, ids, deadline, now)[i].event;
      e.Renewed? && e.id in ids && Holds(s, worker, e.id)
  {
    if ids == [] {
    } else {
      var n := |ids| - 1;
      RenewalsTargets(s, worker, ids[..n], deadline, now);
    }
  }

  /** A batch call only takes jobs that it finds expired, due or dead. */
  lemma {:induction false} BatchTargets(s: State, c: Call, now: int)
    requires Placed(s) && Admissible(s, c, now) && (c.Reap? || c.Promote? || c.RetryDead? || c.PurgeDead?)
    ensures forall i :: 0 <= i < |Events(s, c, now)| ==>
      var e := Events(s, c, now)[i].event;
      Lone(e) && !(e.id in s.active && now < s.active[e.id])
  {
    if !s.closed {
      BatchCall(s, c, now);
      forall i | 0 <= i < |Events(s, c, now)| ensures
        var e := Events(s, c, now)[i].event;
        Lone(e) && !(e.id in s.active && now < s.active[e.id])
      {
        var st := Events(s, c, now)[i];
        EventsAllAt(s, c, now);
        assert Lone(st.event) && Enabled(s, st) && PlacedAt(s, st.event.id);
      }
    }
  }

  lemma {:induction false} BatchCall(s: State, c: Call, now: int)
    requires Placed(s) && Admissible(s, c, now) && (c.Reap? || c.Promote? || c.RetryDead? || c.PurgeDead?) && !s.closed
    ensures Batch(s, Events(s, c, now))
  {
    if c.Reap? {
      ReapBatch(s, c.queues, c.limit, now);
    } else if c.Promote? {
      PromoteBatch(s, c.limit, now);
    } else {
      var ids := SelectDead(s, c.ids);
      SelectDeadMembers(s, c.ids);
      DistinctMembers(ids);
      DeadBatch(s, if c.RetryDead? then ids else Distinct(ids), now);
    }
  }

  /** A renewal by the owner moves the end of the lease and nothing else. */
  lemma {:induction false} RenewalsEffect(s: State, worker: string, ids: seq<string>, deadline: int, now: int,
                                          id: string)
    requires Holds(s, worker, id) && id in s.active
    ensures var t := After(s, Renewals(s, worker, ids, deadline, now));
      && Holds(t, worker, id) && id in t.active
      && t.active[id] == if id in ids then deadline else s.active[id]
  {
    if ids == [] {
    } else {
      var n := |ids| - 1;
      var g, h := Renewals(s, worker, ids[..n], deadline, now), Renewals(s, worker, ids, deadline, now);
      RenewalsEffect(s, worker, ids[..n], deadline, now, id);
      assert ids == ids[..n] + [ids[n]];
      if Holds(s, worker, ids[n]) {
        assert h[..|h| - 1] == g;
      } else {
        assert h == g;
      }
    }
  }

  lemma {:induction false} CallKeepsLease(s: State, c: Call, now: int, worker: string, id: string)
    requires Placed(s) && Admissible(s, c, now) && !s.closed && Holds(s, worker, id)
    requires id in s.active && now < s.active[id] && !Reports(c, worker, id)
    ensures var t := Step(s, c, now);
      && Holds(t, worker, id) && id in t.active
      && t.active[id] == if Extends(c, worker, id) then now + c.vt else s.active[id]
    ensures Untouched(Events(s, c, now), id)
  {
    if Extends(c, worker, id) {
      RenewalsEffect(s, worker, c.ids, now + c.vt, now, id);
      RenewalsTargets(s, worker, c.ids, now + c.vt, now);
    } else {
      LeaseShields(s, c, now, worker, id);
      CallLegal(s, c, now);
      FrameHistory(s, Events(s, c, now), id);
    }
  }

  /** Renewal keeps exclusivity: as long as each renewal lands before the lease
      it renews ends, then up to the end of the last lease no reap takes the
      job, nobody else is handed it and it stays with its worker, whatever
      calls others interleave. */
  lemma {:induction false} RenewalKeepsLease(s: State, calls: seq<Timed>, worker: string, id: string, start: int,
                                             horizon: int)
    requires Placed(s) && AdmissibleRun(s, calls) && !RunState(s, calls).closed
    requires Holds(s, worker, id) && Stuck(s, id, start)
    requires forall i, j :: 0 <= i < j < |calls| ==> calls[i].at <= calls[j].at
    requires forall i :: 0 <= i < |calls| ==> calls[i].at <= horizon && !Reports(calls[i].call, worker, id)
    requires RenewsInTime(calls, worker, id, start) && horizon < LeaseEnd(calls, worker, id, start)
    ensures Holds(RunState(s, calls), worker, id)
    ensures Stuck(RunState(s, calls), id, LeaseEnd(calls, worker, id, start))
    ensures Untouched(Trace(s, calls), id)
    decreases |calls|
  {
    if calls == [] {
    } else {
      var n := |calls| - 1;
      var t, c, now := RunState(s, calls[..n]), calls[n].call, calls[n].at;
      assert forall i :: 0 <= i < n ==> calls[..n][i] == calls[i];
      RunLegal(s, calls[..n]);
      OpenBefore(t, Events(t, c, now));
      RenewalKeepsLease(s, calls[..n], worker, id, start, if Extends(c, worker, id) then now else horizon);
      CallKeepsLease(t, c, now, worker, id);
    }
  }
}
