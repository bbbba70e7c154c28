/** Every broker call is a legal batch of events, so it keeps the placement
    invariant; for the two calls that can break it, exactly when they do. */
module CallPlacement {
  import opened Jobs
  import opened Order
  import opened BrokerModel
  import opened Placement

  // --------------------------------------------------------------- histories

  lemma {:induction false} AfterConcat(s: State, g: seq<Stamped>, h: seq<Stamped>)
    ensures After(s, g + h) == After(After(s, g), h)
    decreases |h|
  {
    if h == [] {
      assert g + h == g;
    } else {
      var n := |h| - 1;
      assert (g + h)[..|g + h| - 1] == g + h[..n];
      AfterConcat(s, g, h[..n]);
    }
  }

  lemma {:induction false} LegalConcat(s: State, g: seq<Stamped>, h: seq<Stamped>)
    ensures Legal(s, g + h) <==> Legal(s, g) && Legal(After(s, g), h)
    decreases |h|
  {
    if h == [] {
      assert g + h == g;
    } else {
      var n := |h| - 1;
      assert (g + h)[..|g + h| - 1] == g + h[..n];
      AfterConcat(s, g, h[..n]);
      LegalConcat(s, g, h[..n]);
    }
  }

  lemma {:induction false} LegalPrefix(s: State, h: seq<Stamped>, i: nat)
    requires Legal(s, h) && i < |h|
    ensures Legal(s, h[..i]) && Enabled(After(s, h[..i]), h[i])
    decreases |h|
  {
    var n := |h| - 1;
    if i < n {
      LegalPrefix(s, h[..n], i);
      assert h[..n][..i] == h[..i];
    }
  }

  /** Safety over whole histories: no legal sequence of events, however long,
      leaves a job in two places, in none, or in the wrong one. */
  lemma {:induction false} LegalPlaced(s: State, h: seq<Stamped>)
    requires Placed(s) && Legal(s, h)
    ensures Placed(After(s, h))
    decreases |h|
  {
    if h == [] {
    } else {
      var n := |h| - 1;
      LegalPlaced(s, h[..n]);
      ApplyPlaced(After(s, h[..n]), h[n]);
    }
  }

  // ------------------------------------------------------------------ batches

  /** Events whose being enabled depends on their own job only. */
  predicate Lone(e: Event) {
    e.Recovered? || e.Orphaned? || e.Promoted? || e.Replayed? || e.Purged?
  }

  lemma EnabledAgain(s: State, t: State, st: Stamped)
    requires Lone(st.event) && Enabled(s, st) && SameView(s, t, st.event.id)
    ensures Enabled(t, st)
  {
  }

  ghost predicate Batch(s: State, h: seq<Stamped>) {
    && (forall i :: 0 <= i < |h| ==> Lone(h[i].event) && Enabled(s, h[i]))
    && (forall i, j :: 0 <= i < j < |h| ==> h[i].event.id != h[j].event.id)
  }

  /** No event of the batch is about `x`. */
  ghost predicate Spares(h: seq<Stamped>, x: string) {
    forall i :: 0 <= i < |h| ==> Target(h[i].event) != x
  }

  lemma BatchPrefix(s: State, h: seq<Stamped>)
    requires Batch(s, h) && h != []
    ensures var n := |h| - 1;
      Batch(s, h[..n]) && Lone(h[n].event) && Enabled(s, h[n]) && Spares(h[..n], h[n].event.id)
  {
  }

  /** Distinct jobs can be dealt with one after the other: dealing with one
      never disables another. */
  lemma {:induction false} BatchLegal(s: State, h: seq<Stamped>)
    requires Placed(s) && Batch(s, h)
    ensures Legal(s, h) && Placed(After(s, h))
    decreases |h|, 0
  {
    if h == [] {
    } else {
      var n := |h| - 1;
      BatchPrefix(s, h);
      BatchLegal(s, h[..n]);
      BatchSpares(s, h[..n], h[n].event.id);
      EnabledAgain(s, After(s, h[..n]), h[n]);
      ApplyPlaced(After(s, h[..n]), h[n]);
    }
  }

  /** Nor does it disturb any job the batch is not about. */
  lemma {:induction false} BatchSpares(s: State, h: seq<Stamped>, x: string)
    requires Placed(s) && Batch(s, h) && Spares(h, x)
    ensures SameView(s, After(s, h), x)
    decreases |h|, 1
  {
    if h == [] {
    } else {
      var n := |h| - 1;
      BatchPrefix(s, h);
      BatchLegal(s, h[..n]);
      BatchLegal(s, h);
      BatchSpares(s, h[..n], x);
      ApplySpares(After(s, h[..n]), h[n], x);
      SameViewTrans(s, After(s, h[..n]), After(s, h), x);
    }
  }

  lemma ApplySpares(s: State, st: Stamped, x: string)
    requires Placed(s) && Enabled(s, st) && Target(st.event) != x
    ensures SameView(s, Apply(s, st), x)
  {
    ApplyPlaced(s, st);
  }

  lemma SameViewTrans(s: State, t: State, u: State, x: string)
    requires SameView(s, t, x) && SameView(t, u, x)
    ensures SameView(s, u, x)
  {
  }

  /** A reap picks expired leases, each once. */
  lemma ReapPicked(s: State, queues: seq<string>, limit: int, now: int)
    ensures var ids := ReapPicks(s, queues, limit, now);
      NoDup(ids) && forall i :: 0 <= i < |ids| ==> LeaseExpired(s, ids[i], now)
  {
    SortedAscending(Expired(s, queues, now), s.active);
    var all, ids := Sorted(Expired(s, queues, now), s.active), ReapPicks(s, queues, limit, now);
    forall i | 0 <= i < |ids| ensures LeaseExpired(s, ids[i], now) {
      assert all[i] in Expired(s, queues, now);
    }
  }

  lemma ReapEnabled(s: State, ids: seq<string>, now: int, i: nat)
    requires i < |ids| && LeaseExpired(s, ids[i], now)
    ensures var st := ReapEvents(s, ids, now)[i];
      Lone(st.event) && st.event.id == ids[i] && Enabled(s, st)
  {
  }

  lemma ReapBatch(s: State, queues: seq<string>, limit: int, now: int)
    ensures Batch(s, ReapEvents(s, ReapPicks(s, queues, limit, now), now))
  {
    var ids := ReapPicks(s, queues, limit, now);
    var h := ReapEvents(s, ids, now);
    ReapPicked(s, queues, limit, now);
    forall i | 0 <= i < |h| ensures Lone(h[i].event) && h[i].event.id == ids[i] && Enabled(s, h[i]) {
      ReapEnabled(s, ids, now, i);
    }
  }

  /** A promotion picks waiting jobs that are due, each once. */
  lemma PromotePicked(s: State, limit: int, now: int)
    ensures var ids := PromotePicks(s, limit, now);
      NoDup(ids) && forall i :: 0 <= i < |ids| ==> Due(s, ids[i], now)
  {
    SortedAscending(DueIds(s, now), Waiting(s));
    var all, ids := Sorted(DueIds(s, now), Waiting(s)), PromotePicks(s, limit, now);
    forall i | 0 <= i < |ids| ensures Due(s, ids[i], now) {
      assert all[i] in DueIds(s, now);
    }
  }

  lemma DueUnion(s: State, now: int)
    requires Placed(s)
    ensures DueIds(s, now) == DueIn(s.scheduled, now) + DueIn(s.retry, now)
    ensures DueIn(s.scheduled, now) !! DueIn(s.retry, now)
    ensures forall x :: x in s.scheduled ==> Waiting(s)[x] == s.scheduled[x]
  {
    forall id ensures !(id in s.scheduled && id in s.retry) { assert PlacedAt(s, id); }
  }

  lemma DueStored(s: State, id: string, now: int)
    requires Placed(s) && Due(s, id, now)
    ensures Enabled(s, Stamped(now, Promoted(id)))
  {
    assert PlacedAt(s, id);
  }

  lemma PromoteBatch(s: State, limit: int, now: int)
    requires Placed(s)
    ensures Batch(s, PromoteEvents(PromotePicks(s, limit, now), now))
  {
    var ids := PromotePicks(s, limit, now);
    PromotePicked(s, limit, now);
    forall i | 0 <= i < |ids| ensures Enabled(s, Stamped(now, Promoted(ids[i]))) {
      DueStored(s, ids[i], now);
    }
  }

  lemma {:induction false} KeepDeadMembers(s: State, ids: seq<string>)
    ensures forall x :: x in KeepDead(s, ids) <==> x in ids && x in s.dead
  {
    if ids == [] {
    } else {
      var n := |ids| - 1;
      KeepDeadMembers(s, ids[..n]);
      assert ids == ids[..n] + [ids[n]];
    }
  }

  lemma SelectDeadMembers(s: State, ids: seq<string>)
    ensures forall x :: x in SelectDead(s, ids) <==> x in s.dead && (ids == [] || x in ids)
  {
    KeepDeadMembers(s, ids);
  }

  lemma {:induction false} DistinctMembers(xs: seq<string>)
    ensures NoDup(Distinct(xs)) && forall x :: x in Distinct(xs) <==> x in xs
  {
    if xs == [] {
    } else {
      var n := |xs| - 1;
      DistinctMembers(xs[..n]);
      NoDupAppend(Distinct(xs[..n]), xs[n]);
      assert xs == xs[..n] + [xs[n]];
    }
  }

  lemma DeadBatch(s: State, ids: seq<string>, now: int)
    requires Placed(s) && NoDup(ids) && forall x :: x in ids ==> x in s.dead
    ensures Batch(s, ReplayEvents(ids, now)) && Batch(s, PurgeEvents(ids, now))
  {
    forall i | 0 <= i < |ids| ensures ids[i] in s.dead && ids[i] in s.jobs {
      assert PlacedAt(s, ids[i]);
    }
  }

  lemma {:induction false} HistorySnoc(s: State, h: seq<Stamped>, st: Stamped)
    requires Legal(s, h) && Enabled(After(s, h), st)
    ensures Legal(s, h + [st]) && After(s, h + [st]) == Apply(After(s, h), st)
  {
    assert (h + [st])[..|h + [st]| - 1] == h;
  }

  /** `worker` holds the same leases in both states. */
  ghost predicate SameHolds(s: State, t: State, worker: string) {
    forall x :: Holds(t, worker, x) <==> Holds(s, worker, x)
  }

  lemma RenewHolds(s: State, worker: string, id: string, deadline: int, now: int)
    requires Holds(s, worker, id)
    ensures SameHolds(s, Apply(s, Stamped(now, Renewed(id, worker, deadline))), worker)
  {
  }

  /** Renewing keeps every lease where it is, so a batch may even repeat IDs. */
  lemma {:induction false} RenewalsLegal(s: State, worker: string, ids: seq<string>, deadline: int, now: int)
    requires deadline > now
    ensures Legal(s, Renewals(s, worker, ids, deadline, now))
    ensures SameHolds(s, After(s, Renewals(s, worker, ids, deadline, now)), worker)
  {
    if ids == [] {
    } else {
      var n := |ids| - 1;
      var g := Renewals(s, worker, ids[..n], deadline, now);
      RenewalsLegal(s, worker, ids[..n], deadline, now);
      if Holds(s, worker, ids[n]) {
        RenewHolds(After(s, g), worker, ids[n], deadline, now);
        HistorySnoc(s, g, Stamped(now, Renewed(ids[n], worker, deadline)));
      } else {
        assert Renewals(s, worker, ids, deadline, now) == g;
      }
    }
  }

  // -------------------------------------------------------------------- calls

  lemma {:induction false} NextReadyHead(s: State, queues: seq<string>)
    ensures NextReady(s, queues).Some? ==>
      exists q :: q in queues && Ready(s, q) != [] && Ready(s, q)[0] == NextReady(s, queues).value
    ensures NextReady(s, queues).None? <==> forall q :: q in queues ==> Ready(s, q) == []
  {
    if queues == [] {
    } else {
      if Ready(s, queues[0]) == [] {
        NextReadyHead(s, queues[1..]);
        assert queues == [queues[0]] + queues[1..];
      } else {
        assert queues[0] in queues;
      }
    }
  }

  /** What the source demands of its callers: fresh IDs, and no repeats in a
      list of jobs to replay. */
  ghost predicate Admissible(s: State, c: Call, now: int) {
    && (c.Enqueue? && Accepts(s, c.job, now) ==> Envelope(c.job, c.newId, now).id !in s.jobs)
    && (c.RetryDead? && !s.closed ==> NoDup(SelectDead(s, c.ids)))
  }

  lemma {:induction false} OneLegal(s: State, st: Stamped)
    ensures Legal(s, [st]) <==> Enabled(s, st)
    ensures After(s, [st]) == Apply(s, st)
  {
    assert [st][..0] == [];
  }

  lemma {:induction false} EnqueueLegal(s: State, j: Job, newId: string, now: int)
    requires Placed(s) && Admissible(s, Enqueue(j, newId), now)
    ensures Legal(s, OnEnqueue(s, j, newId, now)) && Placed(After(s, OnEnqueue(s, j, newId, now)))
  {
    var h := OnEnqueue(s, j, newId, now);
    if h != [] { OneLegal(s, h[0]); }
    LegalPlaced(s, h);
  }

  lemma {:induction false} DequeueLegal(s: State, worker: string, queues: seq<string>, vt: int, now: int)
    requires Placed(s)
    ensures Legal(s, OnDequeue(s, worker, queues, vt, now)) && Placed(After(s, OnDequeue(s, worker, queues, vt, now)))
  {
    var h := OnDequeue(s, worker, queues, vt, now);
    NextReadyHead(s, queues);
    if h != [] {
      var q :| q in queues && Ready(s, q) != [] && Ready(s, q)[0] == NextReady(s, queues).value;
      assert Ready(s, q)[0] in Ready(s, q) && PlacedAt(s, Ready(s, q)[0]);
      OneLegal(s, h[0]);
    }
    LegalPlaced(s, h);
  }

  lemma {:induction false} AckLegal(s: State, worker: string, id: string, now: int)
    requires Placed(s)
    ensures Legal(s, OnAck(s, worker, id, now)) && Placed(After(s, OnAck(s, worker, id, now)))
  {
    var h := OnAck(s, worker, id, now);
    if h != [] { OneLegal(s, h[0]); }
    LegalPlaced(s, h);
  }

  lemma {:induction false} KillLegal(s: State, worker: string, id: string, reason: string, now: int)
    requires Placed(s)
    ensures Legal(s, OnKill(s, worker, id, reason, now)) && Placed(After(s, OnKill(s, worker, id, reason, now)))
  {
    var h := OnKill(s, worker, id, reason, now);
    if h != [] { OneLegal(s, h[0]); }
    LegalPlaced(s, h);
  }

  lemma {:induction false} NackLegal(s: State, worker: string, id: string, retryAt: int, reason: string, now: int)
    requires Placed(s)
    ensures Legal(s, OnNack(s, worker, id, retryAt, reason, now))
    ensures Placed(After(s, OnNack(s, worker, id, retryAt, reason, now)))
  {
    var h := OnNack(s, worker, id, retryAt, reason, now);
    if h != [] { OneLegal(s, h[0]); }
    LegalPlaced(s, h);
  }

  lemma {:induction false} ExtendLegal(s: State, worker: string, ids: seq<string>, vt: int, now: int)
    requires Placed(s)
    ensures Legal(s, OnExtend(s, worker, ids, vt, now)) && Placed(After(s, OnExtend(s, worker, ids, vt, now)))
  {
    if vt > 0 && !s.closed { RenewalsLegal(s, worker, ids, now + vt, now); }
    LegalPlaced(s, OnExtend(s, worker, ids, vt, now));
  }

  lemma {:induction false} ReapLegal(s: State, queues: seq<string>, limit: int, now: int)
    requires Placed(s)
    ensures Batch(s, OnReap(s, queues, limit, now)) && Legal(s, OnReap(s, queues, limit, now))
    ensures Placed(After(s, OnReap(s, queues, limit, now)))
  {
    ReapBatch(s, queues, limit, now);
    BatchLegal(s, OnReap(s, queues, limit, now));
  }

  lemma {:induction false} PromoteLegal(s: State, limit: int, now: int)
    requires Placed(s)
    ensures Batch(s, OnPromote(s, limit, now)) && Legal(s, OnPromote(s, limit, now))
    ensures Placed(After(s, OnPromote(s, limit, now)))
  {
    PromoteBatch(s, limit, now);
    BatchLegal(s, OnPromote(s, limit, now));
  }

  lemma {:induction false} RetryDeadLegal(s: State, ids: seq<string>, now: int)
    requires Placed(s) && Admissible(s, RetryDead(ids), now)
    ensures Legal(s, OnRetryDead(s, ids, now)) && Placed(After(s, OnRetryDead(s, ids, now)))
  {
    if !s.closed {
      SelectDeadMembers(s, ids);
      DeadBatch(s, SelectDead(s, ids), now);
      BatchLegal(s, OnRetryDead(s, ids, now));
    }
  }

  lemma {:induction false} PurgeDeadLegal(s: State, ids: seq<string>, now: int)
    requires Placed(s)
    ensures Legal(s, OnPurgeDead(s, ids, now)) && Placed(After(s, OnPurgeDead(s, ids, now)))
  {
    SelectDeadMembers(s, ids);
    DistinctMembers(SelectDead(s, ids));
    DeadBatch(s, Distinct(SelectDead(s, ids)), now);
    BatchLegal(s, OnPurgeDead(s, ids, now));
  }

  lemma {:induction false} CloseLegal(s: State, now: int)
    requires Placed(s)
    ensures Legal(s, [Stamped(now, Shut)]) && Placed(After(s, [Stamped(now, Shut)]))
  {
    OneLegal(s, Stamped(now, Shut));
    LegalPlaced(s, [Stamped(now, Shut)]);
  }

  /** Each call is a legal history of its own. */
  lemma {:induction false} CallLegal(s: State, c: Call, now: int)
    requires Placed(s) && Admissible(s, c, now)
    ensures Legal(s, Events(s, c, now)) && Placed(Step(s, c, now))
  {
    match c {
      case Enqueue(j, newId) => EnqueueLegal(s, j, newId, now);
      case Dequeue(worker, queues, vt) => DequeueLegal(s, worker, queues, vt, now);
      case Ack(worker, id) => AckLegal(s, worker, id, now);
      case Nack(worker, id, retryAt, reason) => NackLegal(s, worker, id, retryAt, reason, now);
      case Kill(worker, id, reason) => KillLegal(s, worker, id, reason, now);
      case Extend(worker, ids, vt) => ExtendLegal(s, worker, ids, vt, now);
      case Reap(queues, limit) => ReapLegal(s, queues, limit, now);
      case Promote(limit) => PromoteLegal(s, limit, now);
      case RetryDead(ids) => RetryDeadLegal(s, ids, now);
      case PurgeDead(ids) => PurgeDeadLegal(s, ids, now);
      case Close => CloseLegal(s, now);
    }
  }

  // ------------------------------------------------- exactly when it can break

  /** Storing a job under `id` keeps the invariant exactly when the ID is free,
      or its current holder is scheduled and the new job is too. */
  predicate Storable(s: State, j: Job) {
    j.id !in s.jobs || (s.jobs[j.id].state == Scheduled && j.state == Scheduled)
  }

  lemma {:induction false} InsertPlacedExactly(s: State, j: Job, now: int)
    requires Placed(s) && j.owner == "" && j.maxAttempts >= 1
    requires j.state == Scheduled || j.state == Pending
    ensures Placed(Insert(s, j, now)) <==> Storable(s, j)
  {
    var t := Insert(s, j, now);
    assert PlacedAt(s, j.id);
    NoDupAppend(Ready(s, j.queue), j.id);
    if j.id !in s.jobs {
      InsertPlaced(s, j, now);
    } else if Storable(s, j) {
      assert forall q :: Ready(t, q) == Ready(s, q);
      assert PlacedAt(t, j.id);
      forall x | x != j.id ensures PlacedAt(t, x) {
        InsertFrame(s, j, now, x);
        SameViewPlaced(s, t, x);
      }
    } else {
      var q := s.jobs[j.id].queue;
      if InPhase(s, j.id, Pending) && j.state == Pending && q == j.queue {
        assert !NoDup(Ready(t, q));
      } else {
        assert j.id in Ready(s, q) ==> j.id in Ready(t, q);
        assert !PlacedAt(t, j.id);
      }
    }
  }

  /** The members of `ids` that belong to queue `q`. */
  function OfQueue(s: State, ids: seq<string>, q: string): seq<string> {
    if ids == [] then [] else
      var n := |ids| - 1;
      OfQueue(s, ids[..n], q) + (if ids[n] in s.jobs && s.jobs[ids[n]].queue == q then [ids[n]] else [])
  }

  lemma ReplayOneReady(s: State, id: string, now: int, q: string)
    ensures Ready(Apply(s, Stamped(now, Replayed(id))), q)
         == Ready(s, q) + if id in s.jobs && s.jobs[id].queue == q then [id] else []
  {
  }

  lemma ReplayOneQueue(s: State, id: string, now: int, x: string)
    ensures var t := Apply(s, Stamped(now, Replayed(id)));
      (x in t.jobs <==> x in s.jobs) && (x in s.jobs ==> t.jobs[x].queue == s.jobs[x].queue)
  {
  }

  /** Replaying neither stores nor deletes jobs, nor moves them between queues. */
  lemma {:induction false} ReplayQueues(s: State, ids: seq<string>, now: int, x: string)
    ensures var t := After(s, ReplayEvents(ids, now));
      (x in t.jobs <==> x in s.jobs) && (x in s.jobs ==> t.jobs[x].queue == s.jobs[x].queue)
  {
    if ids == [] {
    } else {
      var n := |ids| - 1;
      ReplayQueues(s, ids[..n], now, x);
      assert ReplayEvents(ids, now)[..n] == ReplayEvents(ids[..n], now);
      ReplayOneQueue(After(s, ReplayEvents(ids[..n], now)), ids[n], now, x);
    }
  }

  /** Replaying appends each listed job to its own queue, in list order, as
      often as it is listed. */
  lemma {:induction false} ReplayReady(s: State, ids: seq<string>, now: int, q: string)
    ensures Ready(After(s, ReplayEvents(ids, now)), q) == Ready(s, q) + OfQueue(s, ids, q)
  {
    if ids == [] {
    } else {
      var n := |ids| - 1;
      var t := After(s, ReplayEvents(ids[..n], now));
      ReplayReady(s, ids[..n], now, q);
      ReplayQueues(s, ids[..n], now, ids[n]);
      assert ReplayEvents(ids, now)[..n] == ReplayEvents(ids[..n], now);
      ReplayOneReady(t, ids[n], now, q);
      assert OfQueue(s, ids, q) == OfQueue(s, ids[..n], q) + if ids[n] in s.jobs
        && s.jobs[ids[n]].queue == q then [ids[n]] else [];
    }
  }

  lemma {:induction false} OfQueueRepeats(s: State, ids: seq<string>, i: nat, j: nat)
    requires i < j < |ids| && ids[i] == ids[j] && ids[i] in s.jobs
    ensures !NoDup(OfQueue(s, ids, s.jobs[ids[i]].queue))
  {
    var n := |ids| - 1;
    var q := s.jobs[ids[i]].queue;
    var head := OfQueue(s, ids[..n], q);
    if j == n {
      OfQueueMember(s, ids[..n], i);
      var k :| 0 <= k < |head| && head[k] == ids[i];
      assert OfQueue(s, ids, q)[k] == OfQueue(s, ids, q)[|head|];
    } else {
      OfQueueRepeats(s, ids[..n], i, j);
      var a, b :| 0 <= a < b < |head| && head[a] == head[b];
      assert OfQueue(s, ids, q)[a] == OfQueue(s, ids, q)[b];
    }
  }

  lemma {:induction false} OfQueueMember(s: State, ids: seq<string>, i: nat)
    requires i < |ids| && ids[i] in s.jobs
    ensures ids[i] in OfQueue(s, ids, s.jobs[ids[i]].queue)
  {
    var n := |ids| - 1;
    if i < n {
      OfQueueMember(s, ids[..n], i);
    }
  }

  lemma RepeatedTail(was: seq<string>, tail: seq<string>)
    requires !NoDup(tail)
    ensures !NoDup(was + tail)
  {
    var a, b :| 0 <= a < b < |tail| && tail[a] == tail[b];
    assert (was + tail)[|was| + a] == (was + tail)[|was| + b];
  }

  lemma {:induction false} ReplayTwice(s: State, picked: seq<string>, now: int)
    requires !NoDup(picked) && forall x :: x in picked ==> x in s.jobs
    ensures !ListsDistinct(After(s, ReplayEvents(picked, now)))
  {
    var i, j :| 0 <= i < j < |picked| && picked[i] == picked[j];
    assert picked[i] in picked;
    var q := s.jobs[picked[i]].queue;
    ReplayReady(s, picked, now, q);
    OfQueueRepeats(s, picked, i, j);
    RepeatedTail(Ready(s, q), OfQueue(s, picked, q));
  }

  /** Replaying dead jobs keeps the invariant exactly when no dead job is
      listed twice. */
  lemma {:induction false} ReplayPlacedExactly(s: State, ids: seq<string>, now: int)
    requires Placed(s) && !s.closed
    ensures Placed(After(s, OnRetryDead(s, ids, now))) <==> NoDup(SelectDead(s, ids))
  {
    var picked := SelectDead(s, ids);
    if NoDup(picked) {
      RetryDeadLegal(s, ids, now);
    } else {
      SelectDeadMembers(s, ids);
      forall x | x in picked ensures x in s.jobs { assert PlacedAt(s, x); }
      ReplayTwice(s, picked, now);
    }
  }

  /** So naming a dead job twice in one replay breaks the invariant. */
  lemma ReplayTwiceBreaks(s: State, id: string, now: int)
    requires Placed(s) && !s.closed && id in s.dead
    ensures !Placed(After(s, OnRetryDead(s, [id, id], now)))
  {
    var ids := [id, id];
    assert ids[..1] == [id] && ids[..1][..0] == [];
    assert KeepDead(s, [id]) == KeepDead(s, []) + [id] by { assert [id][..0] == []; }
    assert KeepDead(s, ids) == KeepDead(s, [id]) + [id] == [id, id];
    assert [id, id][0] == [id, id][1];
    ReplayPlacedExactly(s, ids, now);
  }

  /** And so does a second ready job under an ID still in use: the broker does
      not look. */
  lemma EnqueueTwiceBreaks(j: Job, now: int)
    requires j.id != "" && j.queue != "" && j.kind != "" && j.uniqueKey == "" && j.runAt <= now
    ensures var once := After(EMPTY, OnEnqueue(EMPTY, j, "", now));
      Placed(once) && !Placed(After(once, OnEnqueue(once, j, "", now)))
  {
    EmptyPlaced();
    var e := Envelope(j, "", now);
    OneLegal(EMPTY, Stamped(now, Inserted(e)));
    var once := After(EMPTY, OnEnqueue(EMPTY, j, "", now));
    InsertPlacedExactly(EMPTY, e, now);
    OneLegal(once, Stamped(now, Inserted(e)));
    InsertPlacedExactly(once, e, now);
  }

  // -------------------------------------------------------------- transitions

  function PhaseOf(s: State, id: string): Phase {
    if id in s.jobs then s.jobs[id].state else Absent
  }

  /** Every state change an event makes is an edge of the lifecycle graph; only
      a purge, which deletes a dead envelope, is not a transition. */
  lemma {:induction false} ApplyTransition(s: State, st: Stamped, id: string)
    requires Placed(s) && Enabled(s, st)
    ensures var p, q := PhaseOf(s, id), PhaseOf(Apply(s, st), id);
      || p == q
      || CanTransition(p, q)
      || (st.event.Acked? && CanTransition(p, Completed))
      || (st.event.Purged? && p == Dead)
  {
    if st.event.Shut? || id != Target(st.event) {
      ApplyPlaced(s, st);
    } else if !st.event.Inserted? {
      EnabledRipe(s, st);
      if !Removes(st.event) { ChangedEnvelope(s, st.event, st.now); }
    }
  }

  /** How often the indexes of the broker name `id`, over all queues in `qs`. */
  ghost function Occurrences(s: State, id: string, qs: seq<string>): nat {
    (if id in s.active then 1 else 0) + (if id in s.scheduled then 1 else 0)
    + (if id in s.retry then 1 else 0) + multiset(s.dead)[id] + ReadyOccurrences(s, id, qs)
  }

  ghost function ReadyOccurrences(s: State, id: string, qs: seq<string>): nat {
    if qs == [] then 0 else multiset(Ready(s, qs[0]))[id] + ReadyOccurrences(s, id, qs[1..])
  }

  lemma {:induction false} NoDupCount(xs: seq<string>, x: string)
    requires NoDup(xs)
    ensures multiset(xs)[x] == if x in xs then 1 else 0
  {
    if xs == [] {
    } else {
      var n := |xs| - 1;
      NoDupCount(xs[..n], x);
      assert xs == xs[..n] + [xs[n]];
    }
  }

  lemma {:induction false} ReadyOnce(s: State, id: string, qs: seq<string>)
    requires Placed(s) && NoDup(qs)
    ensures ReadyOccurrences(s, id, qs) ==
      if InPhase(s, id, Pending) && s.jobs[id].queue in qs then 1 else 0
  {
    if qs == [] {
    } else {
      NoDupTail(qs);
      ReadyOnce(s, id, qs[1..]);
      NoDupCount(Ready(s, qs[0]), id);
      assert PlacedAt(s, id);
      assert qs == [qs[0]] + qs[1..];
    }
  }

  /** Counted over all the queues the broker knows, a stored job is named by
      its indexes exactly once and an unknown ID never. */
  lemma {:induction false} ExactlyOnePlace(s: State, id: string, qs: seq<string>)
    requires Placed(s) && NoDup(qs) && forall q :: q in s.queues ==> q in qs
    ensures Occurrences(s, id, qs) == if id in s.jobs then 1 else 0
  {
    ReadyOnce(s, id, qs);
    NoDupCount(s.dead, id);
    assert PlacedAt(s, id);
  }
}
