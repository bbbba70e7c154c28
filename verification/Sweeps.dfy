/** What a call about many jobs does, said of the tables and the arguments alone:
    exactly which jobs it takes, what becomes of each, and that the rest is left
    alone. Then what that means over runs: no waiting job starts before its time. */
module Sweeps {
  import opened Jobs
  import opened Order
  import opened BrokerModel
  import opened Placement
  import opened CallPlacement
  import opened Runs
  import opened Outcomes
  import Decimal

  // ------------------------------------------------------------------- renewal

  /** The IDs reported lost are the requested ones the worker does not hold, in
      request order: a request in two parts loses what the parts lose. */
  lemma {:induction false} LostConcat(s: State, worker: string, a: seq<string>, b: seq<string>)
    ensures LostIds(s, worker, a + b) == LostIds(s, worker, a) + LostIds(s, worker, b)
    decreases |b|
  {
    if b == [] {
      assert a + b == a;
    } else {
      var n := |b| - 1;
      assert (a + b)[..|a + b| - 1] == a + b[..n];
      LostConcat(s, worker, a, b[..n]);
    }
  }

  lemma LostOne(s: State, worker: string, id: string)
    ensures LostIds(s, worker, []) == []
    ensures LostIds(s, worker, [id]) == if Holds(s, worker, id) then [] else [id]
  {
    assert [id][..0] == [];
  }

  /** A renewal gives every requested lease the worker holds the length asked for,
      from now. */
  lemma {:induction false} ExtendRenews(s: State, worker: string, ids: seq<string>, vt: int, now: int, x: string)
    requires Placed(s) && !s.closed && vt > 0 && x in ids && Holds(s, worker, x)
    ensures var t := Step(s, Extend(worker, ids, vt), now);
      x in t.jobs && t.jobs[x] == s.jobs[x].(deadline := now + vt) && x in t.active && t.active[x] == now + vt
  {
    RenewalsReach(s, worker, ids, now + vt, now, x);
  }

  /** It touches no other job, and reports the ones it did not renew. */
  lemma {:induction false} ExtendSpares(s: State, worker: string, ids: seq<string>, vt: int, now: int, x: string)
    requires Placed(s) && !s.closed && vt > 0 && !(x in ids && Holds(s, worker, x))
    ensures ExtendReply(s, worker, ids, vt) == Lost(LostIds(s, worker, ids))
    ensures SameView(s, Step(s, Extend(worker, ids, vt), now), x)
  {
    RenewalsFrame(s, worker, ids, now + vt, now, x);
  }

  lemma {:induction false} RenewalsFrame(s: State, worker: string, ids: seq<string>, deadline: int, now: int,
                                         x: string)
    requires Placed(s) && deadline > now && !(x in ids && Holds(s, worker, x))
    ensures SameView(s, After(s, Renewals(s, worker, ids, deadline, now)), x)
  {
    var h := Renewals(s, worker, ids, deadline, now);
    RenewalsTargets(s, worker, ids, deadline, now);
    assert forall i :: 0 <= i < |h| ==> Target(h[i].event) != x;
    RenewalsLegal(s, worker, ids, deadline, now);
    FrameHistory(s, h, x);
  }

  lemma RenewOne(t: State, id: string, worker: string, deadline: int, now: int, x: string)
    ensures var u := Apply(t, Stamped(now, Renewed(id, worker, deadline)));
      && (x in u.jobs <==> x in t.jobs)
      && (x in t.jobs ==> u.jobs[x] == if x == id then t.jobs[x].(deadline := deadline) else t.jobs[x])
      && (id in t.jobs ==> u.active == t.active[id := deadline])
  {
  }

  lemma {:induction false} RenewalsReach(s: State, worker: string, ids: seq<string>, deadline: int, now: int,
                                         x: string)
    requires Placed(s)
    ensures var t := After(s, Renewals(s, worker, ids, deadline, now));
      && (x in t.jobs <==> x in s.jobs)
      && (x in ids && Holds(s, worker, x) ==>
            t.jobs[x] == s.jobs[x].(deadline := deadline) && x in t.active && t.active[x] == deadline)
      && (x !in ids && x in s.jobs ==> t.jobs[x] == s.jobs[x])
  {
    if ids == [] {
    } else {
      var n := |ids| - 1;
      var g, h := Renewals(s, worker, ids[..n], deadline, now), Renewals(s, worker, ids, deadline, now);
      RenewalsReach(s, worker, ids[..n], deadline, now, x);
      RenewalsReach(s, worker, ids[..n], deadline, now, ids[n]);
      assert x in ids <==> x in ids[..n] || x == ids[n];
      if Holds(s, worker, ids[n]) {
        assert h[..|h| - 1] == g;
        RenewOne(After(s, g), ids[n], worker, deadline, now, x);
      } else {
        assert h == g;
      }
    }
  }

  // ------------------------------------------------------------------- batches

  /** In `t` the job of `st` is as that event alone leaves it when it happens in `s`. */
  ghost predicate Left(s: State, t: State, st: Stamped)
    requires Lone(st.event)
  {
    var id := st.event.id;
    && id in s.jobs && (id in t.jobs <==> !st.event.Purged?)
    && (id in t.jobs ==> t.jobs[id] == Revise(st.event, s.jobs[id], st.now))
  }

  lemma LeftStays(s: State, t: State, u: State, st: Stamped)
    requires Lone(st.event) && Left(s, t, st) && SameView(t, u, st.event.id)
    ensures Left(s, u, st)
  {
  }

  lemma LeftLast(s: State, t: State, st: Stamped)
    requires Lone(st.event) && st.event.id in s.jobs && SameView(s, t, st.event.id)
    ensures Left(s, Apply(t, st), st)
  {
  }

  lemma LoneStored(s: State, st: Stamped)
    requires Placed(s) && Lone(st.event) && Enabled(s, st)
    ensures st.event.id in s.jobs
  {
  }

  /** In the end each job of a batch is as its own event leaves it. */
  lemma {:induction false} BatchJob(s: State, h: seq<Stamped>, i: nat)
    requires Placed(s) && Batch(s, h) && i < |h|
    ensures Left(s, After(s, h), h[i])
    decreases |h|
  {
    var n := |h| - 1;
    BatchPrefix(s, h);
    if i < n {
      BatchJob(s, h[..n], i);
      assert h[..n][i] == h[i];
      BatchNext(s, h, h[i].event.id);
      LeftStays(s, After(s, h[..n]), After(s, h), h[i]);
    } else {
      BatchSpares(s, h[..n], h[n].event.id);
      LoneStored(s, h[n]);
      LeftLast(s, After(s, h[..n]), h[n]);
    }
  }

  lemma {:induction false} BatchNext(s: State, h: seq<Stamped>, x: string)
    requires Placed(s) && Batch(s, h) && h != [] && h[|h| - 1].event.id != x
    ensures SameView(After(s, h[..|h| - 1]), After(s, h), x)
  {
    BatchPrefix(s, h);
    BatchLegal(s, h[..|h| - 1]);
    BatchLegal(s, h);
    ApplySpares(After(s, h[..|h| - 1]), h[|h| - 1], x);
  }

  lemma BatchAt(s: State, h: seq<Stamped>, i: nat)
    requires Placed(s) && Batch(s, h) && i < |h|
    ensures Left(s, After(s, h), h[i]) && PlacedAt(After(s, h), h[i].event.id)
  {
    BatchJob(s, h, i);
    BatchLegal(s, h);
  }

  // ---------------------------------------------------------------------- reap

  /** The leases a reap of these queues may take. */
  function RunOut(s: State, queues: seq<string>, now: int): set<string> {
    set y | y in s.active && y in s.jobs && s.active[y] <= now && (queues == [] || s.jobs[y].queue in queues)
  }

  /** The lease of `x` has run out, its queue is wanted, and fewer than `limit` such
      leases ran out sooner. */
  predicate Overdue(s: State, queues: seq<string>, limit: int, now: int, x: string) {
    x in RunOut(s, queues, now) && |Sooner(RunOut(s, queues, now), s.active, x)| < limit
  }

  lemma {:induction false} PickedIff(s: State, queues: seq<string>, limit: int, now: int, x: string)
    ensures x in ReapPicks(s, queues, limit, now) <==> Overdue(s, queues, limit, now, x)
  {
    var all := RunOut(s, queues, now);
    assert all == Expired(s, queues, now);
    if x in all {
      TakenIff(all, s.active, limit, x);
    } else {
      assert x !in Sorted(all, s.active);
    }
  }

  /** What becomes of a job whose lease is taken back. */
  predicate TakenBack(j: Job, t: State, x: string) {
    && x in t.jobs && x !in t.active
    && (j.attempt < j.maxAttempts ==>
          && t.jobs[x] == j.(state := Pending, owner := "", recoveries := j.recoveries + 1)
          && x in Ready(t, j.queue))
    && (j.attempt >= j.maxAttempts ==>
          && t.jobs[x] == j.(state := Dead, owner := "", recoveries := j.recoveries + 1,
               lastErr := "orphaned: lease expired after " + Decimal.Signed(j.attempt) + " attempts")
          && x in t.dead)
  }

  lemma RecoveredSo(s: State, t: State, st: Stamped)
    requires st.event.Recovered? || st.event.Orphaned?
    requires Left(s, t, st) && PlacedAt(t, st.event.id)
    requires st.event.Orphaned? <==> s.jobs[st.event.id].Exhausted()
    ensures TakenBack(s.jobs[st.event.id], t, st.event.id)
  {
  }

  lemma RecoveredAt(s: State, ids: seq<string>, now: int, i: nat)
    requires Placed(s) && Batch(s, ReapEvents(s, ids, now)) && i < |ids|
    ensures ids[i] in s.jobs && TakenBack(s.jobs[ids[i]], After(s, ReapEvents(s, ids, now)), ids[i])
  {
    var h := ReapEvents(s, ids, now);
    BatchAt(s, h, i);
    RecoveredSo(s, After(s, h), h[i]);
  }

  /** A reap takes exactly the overdue leases. A job with attempts left is ready again
      in its own queue, any other is dead-lettered with a note; either way the
      recovery is counted. */
  lemma {:induction false} ReapRecovers(s: State, queues: seq<string>, limit: int, now: int, x: string)
    requires Placed(s) && !s.closed && Overdue(s, queues, limit, now, x)
    ensures TakenBack(s.jobs[x], Step(s, Reap(queues, limit), now), x)
  {
    var ids := ReapPicks(s, queues, limit, now);
    PickedIff(s, queues, limit, now, x);
    var i :| 0 <= i < |ids| && ids[i] == x;
    ReapBatch(s, queues, limit, now);
    RecoveredAt(s, ids, now, i);
  }

  /** It leaves every other job alone. */
  lemma {:induction false} ReapSpares(s: State, queues: seq<string>, limit: int, now: int, x: string)
    requires Placed(s) && !Overdue(s, queues, limit, now, x)
    ensures SameView(s, Step(s, Reap(queues, limit), now), x)
  {
    var ids := ReapPicks(s, queues, limit, now);
    PickedIff(s, queues, limit, now, x);
    ReapBatch(s, queues, limit, now);
    if !s.closed {
      ReapNames(s, ids, now, x);
      BatchSpares(s, ReapEvents(s, ids, now), x);
    }
  }

  lemma ReapNames(s: State, ids: seq<string>, now: int, x: string)
    requires x !in ids
    ensures Spares(ReapEvents(s, ids, now), x)
  {
    assert forall i :: 0 <= i < |ids| ==> ids[i] in ids;
  }

  // ------------------------------------------------------------------- promote

  /** The waiting jobs whose time has come. */
  function ComeDue(s: State, now: int): set<string> {
    (set y | y in s.scheduled && y !in s.retry && s.scheduled[y] <= now) + (set y | y in s.retry && s.retry[y] <= now)
  }

  /** The time of `x` has come, and fewer than `limit` such jobs were due sooner. */
  predicate Ripened(s: State, limit: int, now: int, x: string) {
    x in ComeDue(s, now) && |Sooner(ComeDue(s, now), s.scheduled + s.retry, x)| < limit
  }

  lemma PicksAre(s: State, limit: int, now: int)
    ensures PromotePicks(s, limit, now) == Take(Sorted(ComeDue(s, now), s.scheduled + s.retry), limit)
  {
    assert ComeDue(s, now) == DueIds(s, now);
  }

  lemma {:induction false} PromotedIff(s: State, limit: int, now: int, x: string)
    ensures x in PromotePicks(s, limit, now) <==> Ripened(s, limit, now, x)
  {
    var at, all := s.scheduled + s.retry, ComeDue(s, now);
    PicksAre(s, limit, now);
    if x in all {
      TakenIff(all, at, limit, x);
    } else {
      assert x !in Sorted(all, at);
    }
  }

  /** What becomes of a waiting job whose time has come. */
  predicate Readied(j: Job, t: State, x: string) {
    && x in t.jobs && t.jobs[x] == j.(state := Pending)
    && x !in t.scheduled && x !in t.retry && x in Ready(t, j.queue)
  }

  lemma PromotedSo(s: State, t: State, st: Stamped)
    requires st.event.Promoted? && Left(s, t, st) && PlacedAt(t, st.event.id)
    ensures Readied(s.jobs[st.event.id], t, st.event.id)
  {
  }

  lemma PromotedAt(s: State, ids: seq<string>, now: int, i: nat)
    requires Placed(s) && Batch(s, PromoteEvents(ids, now)) && i < |ids|
    ensures ids[i] in s.jobs && Readied(s.jobs[ids[i]], After(s, PromoteEvents(ids, now)), ids[i])
  {
    var h := PromoteEvents(ids, now);
    BatchAt(s, h, i);
    PromotedSo(s, After(s, h), h[i]);
  }

  /** A promotion takes exactly the ripe jobs, delayed and backing off alike, into
      their queues. */
  lemma {:induction false} PromoteReadies(s: State, limit: int, now: int, x: string)
    requires Placed(s) && !s.closed && Ripened(s, limit, now, x)
    ensures x in s.jobs && Readied(s.jobs[x], Step(s, Promote(limit), now), x)
  {
    var ids := PromotePicks(s, limit, now);
    PromotedIff(s, limit, now, x);
    var i :| 0 <= i < |ids| && ids[i] == x;
    PromoteBatch(s, limit, now);
    PromotedAt(s, ids, now, i);
  }

  lemma {:induction false} PromoteSpares(s: State, limit: int, now: int, x: string)
    requires Placed(s) && !Ripened(s, limit, now, x)
    ensures SameView(s, Step(s, Promote(limit), now), x)
  {
    var ids := PromotePicks(s, limit, now);
    PromotedIff(s, limit, now, x);
    if !s.closed {
      PromoteBatch(s, limit, now);
      PromoteNames(ids, now, x);
      BatchSpares(s, PromoteEvents(ids, now), x);
    }
  }

  lemma PromoteNames(ids: seq<string>, now: int, x: string)
    requires x !in ids
    ensures Spares(PromoteEvents(ids, now), x)
  {
    assert forall i :: 0 <= i < |ids| ==> ids[i] in ids;
  }

  lemma PromoteOneReady(t: State, id: string, now: int, q: string, x: string)
    ensures var u := Apply(t, Stamped(now, Promoted(id)));
      && Ready(u, q) == Ready(t, q) + (if id in t.jobs && t.jobs[id].queue == q then [id] else [])
      && (x in u.jobs <==> x in t.jobs) && (x in t.jobs ==> u.jobs[x].queue == t.jobs[x].queue)
  {
  }

  lemma {:induction false} PromoteQueues(s: State, ids: seq<string>, now: int, x: string)
    ensures var t := After(s, PromoteEvents(ids, now));
      (x in t.jobs <==> x in s.jobs) && (x in s.jobs ==> t.jobs[x].queue == s.jobs[x].queue)
  {
    if ids == [] {
    } else {
      var n := |ids| - 1;
      PromoteQueues(s, ids[..n], now, x);
      assert PromoteEvents(ids, now)[..n] == PromoteEvents(ids[..n], now);
      PromoteOneReady(After(s, PromoteEvents(ids[..n], now)), ids[n], now, "", x);
    }
  }

  lemma {:induction false} PromotesReady(s: State, ids: seq<string>, now: int, q: string)
    ensures Ready(After(s, PromoteEvents(ids, now)), q) == Ready(s, q) + OfQueue(s, ids, q)
  {
    if ids == [] {
    } else {
      var n := |ids| - 1;
      PromotesReady(s, ids[..n], now, q);
      PromoteQueues(s, ids[..n], now, ids[n]);
      assert PromoteEvents(ids, now)[..n] == PromoteEvents(ids[..n], now);
      PromoteOneReady(After(s, PromoteEvents(ids[..n], now)), ids[n], now, q, ids[n]);
    }
  }

  /** The promoted jobs of a queue line up behind what it holds. */
  lemma {:induction false} PromoteLinesUp(s: State, limit: int, now: int, q: string)
    requires !s.closed
    ensures Ready(Step(s, Promote(limit), now), q) == Ready(s, q) + OfQueue(s, PromotePicks(s, limit, now), q)
  {
    PromotesReady(s, PromotePicks(s, limit, now), now, q);
  }

  /** They are taken soonest first. */
  lemma PicksAscend(s: State, limit: int, now: int)
    ensures var taken := PromotePicks(s, limit, now);
      forall i, j :: 0 <= i < j < |taken| ==>
        taken[i] in Waiting(s) && taken[j] in Waiting(s) && Waiting(s)[taken[i]] <= Waiting(s)[taken[j]]
  {
    var all := Sorted(DueIds(s, now), Waiting(s));
    SortedAscending(DueIds(s, now), Waiting(s));
    assert forall i :: 0 <= i < |all| ==> all[i] in DueIds(s, now);
  }

  // --------------------------------------------------------------- dead letters

  /** The selection keeps request order: a request in two parts selects what the
      parts select. */
  lemma {:induction false} KeptConcat(s: State, a: seq<string>, b: seq<string>)
    ensures KeepDead(s, a + b) == KeepDead(s, a) + KeepDead(s, b)
    decreases |b|
  {
    if b == [] {
      assert a + b == a;
    } else {
      var n := |b| - 1;
      assert (a + b)[..|a + b| - 1] == a + b[..n];
      KeptConcat(s, a, b[..n]);
    }
  }

  lemma KeptOne(s: State, id: string)
    ensures SelectDead(s, []) == s.dead
    ensures SelectDead(s, [id]) == KeepDead(s, [id]) == if id in s.dead then [id] else []
  {
    assert [id][..0] == [];
  }

  /** What becomes of a replayed job. */
  predicate Restarts(j: Job, t: State, x: string) {
    && x in t.jobs && x !in t.dead && x in Ready(t, j.queue)
    && t.jobs[x] == j.(state := Pending, owner := "", attempt := 0, recoveries := 0)
  }

  lemma ReplayedSo(s: State, t: State, st: Stamped)
    requires st.event.Replayed? && Left(s, t, st) && PlacedAt(t, st.event.id)
    ensures Restarts(s.jobs[st.event.id], t, st.event.id)
  {
  }

  lemma ReplayedAt(s: State, ids: seq<string>, now: int, i: nat)
    requires Placed(s) && Batch(s, ReplayEvents(ids, now)) && i < |ids|
    ensures ids[i] in s.jobs && Restarts(s.jobs[ids[i]], After(s, ReplayEvents(ids, now)), ids[i])
  {
    var h := ReplayEvents(ids, now);
    BatchAt(s, h, i);
    ReplayedSo(s, After(s, h), h[i]);
  }

  /** A replay returns each requested dead job, all of them if none is named, to its
      queue with nothing spent. */
  lemma {:induction false} ReplayRestarts(s: State, ids: seq<string>, now: int, x: string)
    requires Placed(s) && !s.closed && Admissible(s, RetryDead(ids), now)
    requires x in s.dead && (ids == [] || x in ids)
    ensures x in s.jobs && Restarts(s.jobs[x], Step(s, RetryDead(ids), now), x)
  {
    var picked := SelectDead(s, ids);
    SelectDeadMembers(s, ids);
    var i :| 0 <= i < |picked| && picked[i] == x;
    DeadBatch(s, picked, now);
    ReplayedAt(s, picked, now, i);
  }

  /** A purge deletes each requested dead job, all of them if none is named. */
  lemma {:induction false} PurgeDeletes(s: State, ids: seq<string>, now: int, x: string)
    requires Placed(s) && !s.closed && x in s.dead && (ids == [] || x in ids)
    ensures var t := Step(s, PurgeDead(ids), now);
      x !in t.jobs && x !in t.dead
  {
    var picked := Distinct(SelectDead(s, ids));
    SelectDeadMembers(s, ids);
    DistinctMembers(SelectDead(s, ids));
    var i :| 0 <= i < |picked| && picked[i] == x;
    DeadBatch(s, picked, now);
    BatchAt(s, PurgeEvents(picked, now), i);
  }

  /** Neither reaches any other job. */
  lemma {:induction false} PurgeSpares(s: State, ids: seq<string>, now: int, x: string)
    requires Placed(s) && !(x in s.dead && (ids == [] || x in ids))
    ensures SameView(s, Step(s, PurgeDead(ids), now), x)
  {
    var picked := SelectDead(s, ids);
    SelectDeadMembers(s, ids);
    DistinctMembers(picked);
    if !s.closed { OthersSpared(s, Distinct(picked), now, x); }
  }

  lemma {:induction false} ReplaySpares(s: State, ids: seq<string>, now: int, x: string)
    requires Placed(s) && Admissible(s, RetryDead(ids), now) && !(x in s.dead && (ids == [] || x in ids))
    ensures SameView(s, Step(s, RetryDead(ids), now), x)
  {
    SelectDeadMembers(s, ids);
    if !s.closed { OthersSpared(s, SelectDead(s, ids), now, x); }
  }

  lemma {:induction false} OthersSpared(s: State, picked: seq<string>, now: int, x: string)
    requires Placed(s) && NoDup(picked) && x !in picked && forall y :: y in picked ==> y in s.dead
    ensures SameView(s, After(s, ReplayEvents(picked, now)), x) && SameView(s, After(s, PurgeEvents(picked, now)), x)
  {
    DeadBatch(s, picked, now);
    assert forall i :: 0 <= i < |picked| ==> picked[i] in picked;
    BatchSpares(s, ReplayEvents(picked, now), x);
    BatchSpares(s, PurgeEvents(picked, now), x);
  }

  // ------------------------------------------------------------------ over runs

  /** `x` waits for time `at`, delayed or backing off. */
  predicate WaitsFor(s: State, x: string, at: int) {
    (x in s.scheduled && s.scheduled[x] == at) || (x in s.retry && s.retry[x] == at)
  }

  /** No event that can happen before its time reaches a waiting job. */
  lemma WaitingSpared(s: State, st: Stamped, x: string, at: int)
    requires Placed(s) && Enabled(s, st) && WaitsFor(s, x, at) && st.now < at
    ensures st.event.Shut? || Target(st.event) != x
  {
    assert PlacedAt(s, x);
    if !st.event.Inserted? && !st.event.Shut? { EnabledRipe(s, st); }
  }

  lemma {:induction false} HistoryWaits(s: State, h: seq<Stamped>, x: string, at: int)
    requires Placed(s) && Legal(s, h) && WaitsFor(s, x, at) && forall i :: 0 <= i < |h| ==> h[i].now < at
    ensures SameView(s, After(s, h), x)
    decreases |h|
  {
    if h == [] {
    } else {
      var n := |h| - 1;
      assert forall i :: 0 <= i < n ==> h[..n][i] == h[i];
      HistoryWaits(s, h[..n], x, at);
      LegalPlaced(s, h[..n]);
      WaitingSpared(After(s, h[..n]), h[n], x, at);
      StepSpares(After(s, h[..n]), h[n], x);
      SameViewTrans(s, After(s, h[..n]), After(s, h), x);
    }
  }

  lemma StepSpares(s: State, st: Stamped, x: string)
    requires Placed(s) && Enabled(s, st) && (st.event.Shut? || Target(st.event) != x)
    ensures SameView(s, Apply(s, st), x)
  {
    ApplyPlaced(s, st);
  }

  /** Whatever is called before its time, a waiting job stays as it is. */
  lemma {:induction false} NotBeforeItsTime(s: State, calls: seq<Timed>, x: string, at: int)
    requires Placed(s) && AdmissibleRun(s, calls) && WaitsFor(s, x, at)
    requires forall i :: 0 <= i < |calls| ==> calls[i].at < at
    ensures SameView(s, RunState(s, calls), x)
    decreases |calls|
  {
    if calls == [] {
    } else {
      var n := |calls| - 1;
      var t, c, now := RunState(s, calls[..n]), calls[n].call, calls[n].at;
      assert forall i :: 0 <= i < n ==> calls[..n][i] == calls[i];
      NotBeforeItsTime(s, calls[..n], x, at);
      RunLegal(s, calls[..n]);
      CallLegal(t, c, now);
      EventsAllAt(t, c, now);
      HistoryWaits(t, Events(t, c, now), x, at);
      SameViewTrans(s, t, RunState(s, calls), x);
    }
  }

  /** A backoff is served in full: until the time the worker gave, whatever is called
      and by whom, the failed job waits with its reason, nobody's. */
  lemma {:induction false} BackoffServed(s: State, worker: string, id: string, retryAt: int, reason: string, now: int,
                                         calls: seq<Timed>)
    requires Placed(s) && !s.closed && Holds(s, worker, id) && s.jobs[id].attempt < s.jobs[id].maxAttempts
    requires AdmissibleRun(Step(s, Nack(worker, id, retryAt, reason), now), calls)
    requires forall i :: 0 <= i < |calls| ==> calls[i].at < retryAt
    ensures var t := RunState(Step(s, Nack(worker, id, retryAt, reason), now), calls);
      && id in t.retry && t.retry[id] == retryAt
      && id in t.jobs && t.jobs[id] == s.jobs[id].(state := Retry, owner := "", lastErr := reason)
  {
    NackFails(s, worker, id, retryAt, reason, now);
    CallLegal(s, Nack(worker, id, retryAt, reason), now);
    NotBeforeItsTime(Step(s, Nack(worker, id, retryAt, reason), now), calls, id, retryAt);
  }

  /** A delayed job does not start early. */
  lemma {:induction false} DelayServed(s: State, j: Job, newId: string, now: int, calls: seq<Timed>)
    requires Placed(s) && Admissible(s, Enqueue(j, newId), now) && EnqueueReply(s, j, now) == Ok && j.runAt > now
    requires AdmissibleRun(Step(s, Enqueue(j, newId), now), calls)
    requires forall i :: 0 <= i < |calls| ==> calls[i].at < j.runAt
    ensures var t, id := RunState(Step(s, Enqueue(j, newId), now), calls), if j.id == "" then newId else j.id;
      id in t.scheduled && t.scheduled[id] == j.runAt && id in t.jobs && t.jobs[id].state == Scheduled
  {
    var id := if j.id == "" then newId else j.id;
    EnqueueStores(s, j, newId, now);
    CallLegal(s, Enqueue(j, newId), now);
    NotBeforeItsTime(Step(s, Enqueue(j, newId), now), calls, id, j.runAt);
  }
}
