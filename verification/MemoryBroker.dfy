/** The in-memory broker itself (internal/memory/memory.go): one object whose
    methods update its tables in place. Each method is proved to take the state
    exactly where the events of its call lead (`BrokerModel.Events`) and to give
    the reply stated there. `now` is the clock reading of the call. */
module MemoryBroker {
  import opened Jobs
  import opened Order
  import opened BrokerModel
  import opened Placement
  import opened CallPlacement
  import opened Census
  import opened Outcomes

  class Broker {
    var jobs: map<string, Job>
    var pending: map<string, seq<string>>
    var active: map<string, int>
    var scheduled: map<string, int>
    var retry: map<string, int>
    var dead: seq<string>
    var queues: set<string>
    var unique: map<string, UniqueEntry>
    var processed: int
    var failed: int
    var closed: bool

    function View(): State
      reads this
    {
      State(jobs, pending, active, scheduled, retry, dead, queues, unique, processed, failed, closed)
    }

    ghost predicate Valid()
      reads this
    {
      Placed(View())
    }

    constructor ()
      ensures View() == EMPTY && Valid()
    {
      jobs, pending, active, scheduled, retry := map[], map[], map[], map[], map[];
      dead, queues, unique := [], {}, map[];
      processed, failed, closed := 0, 0, false;
      new;
      EmptyPlaced();
    }

    method Enqueue(job: Job, newId: string, now: int) returns (r: Reply)
      requires Valid()
      modifies this
      ensures r == EnqueueReply(old(View()), job, now)
      ensures View() == After(old(View()), OnEnqueue(old(View()), job, newId, now))
      ensures r == Ok ==> (Valid() <==> Storable(old(View()), Envelope(job, newId, now)))
      ensures r != Ok ==> View() == old(View())
    {
      if job.queue == "" || job.kind == "" {
        return Invalid;
      }
      if closed {
        return Closed;
      }
      if job.uniqueKey != "" && job.uniqueKey in unique && unique[job.uniqueKey].expiresAt > now {
        return Duplicate(job.uniqueKey, unique[job.uniqueKey].jobID);
      }
      var stored := job;
      if stored.id == "" {
        stored := stored.(id := newId);
      }
      if stored.maxAttempts <= 0 {
        stored := stored.(maxAttempts := DEFAULT_MAX_ATTEMPTS);
      }
      if stored.enqueuedAt == ZERO_TIME {
        stored := stored.(enqueuedAt := now);
      }
      stored := stored.(owner := "", state := if stored.runAt > now then Scheduled else Pending);
      StoredIs(View(), job, newId, now);
      Store(stored, now);
      r := Ok;
    }

    /** Writes an envelope, routes it and takes its unique key. */
    method Store(stored: Job, now: int)
      modifies this
      ensures View() == Insert(old(View()), stored, now)
    {
      if stored.state == Scheduled {
        scheduled := scheduled[stored.id := stored.runAt];
      } else {
        Append(stored.queue, stored.id);
      }
      jobs := jobs[stored.id := stored];
      queues := queues + {stored.queue};
      TakeKey(stored, now);
    }

    method TakeKey(stored: Job, now: int)
      modifies this`unique
      ensures unique == if stored.uniqueKey == "" then old(unique)
        else old(unique)[stored.uniqueKey := UniqueEntry(stored.id, now + EffectiveTTL(stored))]
    {
      if stored.uniqueKey != "" {
        var ttl := stored.uniqueTTL;
        if ttl <= 0 {
          ttl := HOUR_MS;
        }
        unique := unique[stored.uniqueKey := UniqueEntry(stored.id, now + ttl)];
      }
    }

    method Append(q: string, id: string)
      modifies this`pending
      ensures pending == old(pending)[q := Ready(old(View()), q) + [id]]
    {
      pending := pending[q := (if q in pending then pending[q] else []) + [id]];
    }

    method Dequeue(worker: string, wanted: seq<string>, vt: int, now: int) returns (r: Reply)
      requires Valid()
      modifies this
      ensures r == DequeueReply(old(View()), worker, wanted, vt, now)
      ensures View() == After(old(View()), OnDequeue(old(View()), worker, wanted, vt, now))
      ensures forall i: nat :: worker != "" && vt > 0 && !old(closed) && FirstReady(old(View()), wanted, i) ==>
        HandsOut(old(View()), View(), r, wanted[i], worker, vt, now)
      ensures Valid()
    {
      HandsOutFirst(View(), worker, wanted, vt, now);
      if worker == "" || vt <= 0 {
        return Invalid;
      }
      if closed {
        return Closed;
      }
      ghost var s := View();
      DequeueLegal(s, worker, wanted, vt, now);
      for i := 0 to |wanted|
        invariant View() == s
        invariant NextReady(s, wanted) == NextReady(s, wanted[i..])
      {
        var q := wanted[i];
        assert wanted[i..][1..] == wanted[i + 1..];
        if q !in pending || pending[q] == [] {
          continue;
        }
        var id := pending[q][0];
        HeadStored(s, q);
        if id !in jobs {
          assert false; // no ready list holds a dangling ID
        }
        var j := Claim(q, worker, vt, now);
        OneLegal(s, Stamped(now, Claimed(id, worker, now + vt)));
        return Got(j);
      }
      r := NoJob;
    }

    /** Pops the head of a ready list and leases it to `worker`. */
    method Claim(q: string, worker: string, vt: int, now: int) returns (j: Job)
      requires q in pending && pending[q] != [] && pending[q][0] in jobs && jobs[pending[q][0]].queue == q
      modifies this
      ensures var id := old(pending[q])[0];
        && View() == Apply(old(View()), Stamped(now, Claimed(id, worker, now + vt)))
        && j == Revise(Claimed(id, worker, now + vt), old(jobs)[id], now)
    {
      var id := pending[q][0];
      pending := pending[q := pending[q][1..]];
      j := jobs[id];
      j := j.(attempt := j.attempt + 1, state := Active, owner := worker, startedAt := now, deadline := now + vt);
      jobs := jobs[id := j];
      active := active[id := j.deadline];
    }

    /** The fencing check. */
    method OwnedActive(worker: string, id: string) returns (r: Reply)
      requires !closed
      ensures r == Fence(View(), worker, id)
    {
      if id !in jobs {
        return NotFound;
      }
      if jobs[id].state != Active || jobs[id].owner != worker {
        return LeaseLost;
      }
      r := Ok;
    }

    method Ack(worker: string, id: string, now: int) returns (r: Reply)
      requires Valid()
      modifies this
      ensures r == Fence(old(View()), worker, id)
      ensures View() == After(old(View()), OnAck(old(View()), worker, id, now))
      ensures Valid()
    {
      ghost var s := View();
      AckLegal(s, worker, id, now);
      if closed {
        return Closed;
      }
      r := OwnedActive(worker, id);
      if r != Ok {
        return;
      }
      if !CanTransition(jobs[id].state, Completed) {
        assert false; // an active job may always complete
      }
      active := active - {id};
      jobs := jobs - {id};
      processed := processed + 1;
      AckedIs(s, worker, id, now);
    }

    /** Dead-letters a job whose lease has been dropped. */
    method MoveToDead(id: string, j: Job)
      requires j.id == id
      modifies this
      ensures View() == old(View()).(jobs := old(jobs)[id := j.(state := Dead, owner := "")],
                                     dead := old(dead) + [id], failed := old(failed) + 1)
    {
      jobs := jobs[id := j.(state := Dead, owner := "")];
      dead := dead + [j.id];
      failed := failed + 1;
    }

    method Nack(worker: string, id: string, retryAt: int, reason: string, now: int) returns (r: Reply)
      requires Valid()
      modifies this
      ensures r == Fence(old(View()), worker, id)
      ensures View() == After(old(View()), OnNack(old(View()), worker, id, retryAt, reason, now))
      ensures r == Ok ==> id in old(jobs) && Fails(old(View()), View(), id, retryAt, reason)
      ensures Valid()
    {
      ghost var s := View();
      if !closed && Holds(s, worker, id) { NackFails(s, worker, id, retryAt, reason, now); }
      NackLegal(s, worker, id, retryAt, reason, now);
      if closed {
        return Closed;
      }
      r := OwnedActive(worker, id);
      if r != Ok {
        return;
      }
      assert PlacedAt(s, id);
      FailOne(worker, id, retryAt, reason, now);
      OneLegal(s, OnNack(s, worker, id, retryAt, reason, now)[0]);
    }

    /** Sends a failed attempt to its backoff, or to the dead-letter list. */
    method FailOne(worker: string, id: string, retryAt: int, reason: string, now: int)
      requires id in jobs && jobs[id].id == id
      modifies this
      ensures View() == Apply(old(View()),
        Stamped(now, if old(jobs)[id].Exhausted()
          then Killed(id, worker, reason) else Retried(id, worker, retryAt, reason)))
    {
      active := active - {id};
      var j := jobs[id].(owner := "", lastErr := reason);
      if j.Exhausted() {
        MoveToDead(id, j);
      } else {
        jobs := jobs[id := j.(state := Retry)];
        retry := retry[id := retryAt];
      }
    }

    method Kill(worker: string, id: string, reason: string, now: int) returns (r: Reply)
      requires Valid()
      modifies this
      ensures r == Fence(old(View()), worker, id)
      ensures View() == After(old(View()), OnKill(old(View()), worker, id, reason, now))
      ensures r == Ok ==> id in old(jobs) && DeadLetters(old(View()), View(), id, reason)
      ensures Valid()
    {
      ghost var s := View();
      if !closed && Holds(s, worker, id) { KillBuries(s, worker, id, reason, now); }
      KillLegal(s, worker, id, reason, now);
      if closed {
        return Closed;
      }
      r := OwnedActive(worker, id);
      if r != Ok {
        return;
      }
      assert PlacedAt(s, id);
      active := active - {id};
      MoveToDead(id, jobs[id].(owner := "", lastErr := reason));
      KilledIs(s, worker, id, reason, now);
    }

    method Extend(worker: string, ids: seq<string>, vt: int, now: int) returns (r: Reply)
      requires Valid()
      modifies this
      ensures r == ExtendReply(old(View()), worker, ids, vt)
      ensures View() == After(old(View()), OnExtend(old(View()), worker, ids, vt, now))
      ensures Valid()
    {
      ghost var s := View();
      ExtendLegal(s, worker, ids, vt, now);
      if vt <= 0 {
        return Invalid;
      }
      if closed {
        return Closed;
      }
      var lost := RenewAll(worker, ids, vt, now);
      r := Lost(lost);
    }

    /** Renews what the worker holds and collects what it does not, so that one
        lost lease does not stop the others from renewing. */
    method RenewAll(worker: string, ids: seq<string>, vt: int, now: int) returns (lost: seq<string>)
      requires Valid() && !closed && vt > 0
      modifies this
      ensures View() == After(old(View()), Renewals(old(View()), worker, ids, now + vt, now))
      ensures lost == LostIds(old(View()), worker, ids)
    {
      ghost var s, done := View(), [];
      lost := [];
      for i := 0 to |ids|
        invariant RenewedSo(s, worker, ids, i, now + vt, now, done, lost)
        invariant View() == After(s, done) && !closed
      {
        RenewTurn(s, worker, ids, i, now + vt, now, done, lost);
        var held := RenewOne(worker, ids[i], now + vt, now);
        if held {
          done := done + [Stamped(now, Renewed(ids[i], worker, now + vt))];
        } else {
          lost := lost + [ids[i]];
        }
      }
      assert ids[..|ids|] == ids;
    }

    method RenewOne(worker: string, id: string, deadline: int, now: int) returns (held: bool)
      requires !closed
      modifies this
      ensures held == Holds(old(View()), worker, id) && !closed
      ensures View() == RenewIfHeld(old(View()), worker, id, deadline, now)
    {
      var r := OwnedActive(worker, id);
      held := r == Ok;
      if held {
        Renew(worker, id, deadline, now);
      }
    }

    method Renew(worker: string, id: string, deadline: int, now: int)
      requires id in jobs
      modifies this
      ensures View() == Apply(old(View()), Stamped(now, Renewed(id, worker, deadline)))
      ensures closed == old(closed)
    {
      jobs := jobs[id := jobs[id].(deadline := deadline)];
      active := active[id := jobs[id].deadline];
    }

    method Reap(wanted: seq<string>, limit: int, now: int) returns (r: Reply)
      requires Valid()
      modifies this
      ensures r == SweepReply(old(View()), limit, OnReap(old(View()), wanted, limit, now))
      ensures View() == After(old(View()), OnReap(old(View()), wanted, limit, now))
      ensures Valid()
    {
      ghost var s := View();
      ReapLegal(s, wanted, limit, now);
      if limit <= 0 {
        return Count(0);
      }
      if closed {
        return Closed;
      }
      var expired := CollectExpired(wanted, now);
      var n := ReapAll(wanted, Sorted(expired, active), limit, now);
      r := Count(n);
    }

    method ReapAll(ghost wanted: seq<string>, order: seq<string>, limit: int, now: int) returns (n: nat)
      requires Valid() && !closed && limit > 0
      requires order == Sorted(Expired(View(), wanted, now), View().active)
      modifies this
      ensures View() == After(old(View()), OnReap(old(View()), wanted, limit, now))
      ensures n == |OnReap(old(View()), wanted, limit, now)|
    {
      ghost var s := View();
      n := 0;
      ghost var h := OnReap(s, wanted, limit, now);
      while n < |order| && n < limit
        invariant 0 <= n <= |h|
        invariant |h| == if |order| < limit then |order| else limit
        invariant View() == After(s, h[..n])
        decreases |order| - n
      {
        ReapNext(s, wanted, limit, now, n);
        RecoverOne(order[n], now);
        n := n + 1;
      }
      assert h[..n] == h;
    }

    /** Takes an expired lease back: the job goes to the head of its queue, or
        to the dead-letter list if its attempts are spent. */
    method RecoverOne(id: string, now: int)
      requires id in jobs && jobs[id].id == id
      modifies this
      ensures View() == Apply(old(View()),
        Stamped(now, if old(jobs)[id].Exhausted() then Orphaned(id) else Recovered(id)))
    {
      var j := jobs[id];
      active := active - {id};
      j := j.(owner := "", recoveries := j.recoveries + 1);
      if j.Exhausted() {
        MoveToDead(id, j.(lastErr := OrphanNote(j.attempt)));
      } else {
        jobs := jobs[id := j.(state := Pending)];
        pending := pending[j.queue := [id] + if j.queue in pending then pending[j.queue] else []];
      }
    }

    /** The jobs a reap may take, gathered in no particular order. */
    method CollectExpired(wanted: seq<string>, now: int) returns (expired: set<string>)
      ensures expired == Expired(View(), wanted, now)
    {
      var want := set q | q in wanted;
      assert wanted != [] ==> wanted[0] in want;
      expired := {};
      var rest := active.Keys;
      while rest != {}
        invariant rest <= active.Keys
        invariant expired == Expired(View(), wanted, now) - rest
      {
        var id :| id in rest;
        rest := rest - {id};
        if active[id] > now {
          continue;
        }
        if id !in jobs {
          continue;
        }
        if want != {} {
          if jobs[id].queue !in want {
            continue;
          }
        }
        expired := expired + {id};
      }
    }

    method Promote(limit: int, now: int) returns (r: Reply)
      requires Valid()
      modifies this
      ensures r == SweepReply(old(View()), limit, OnPromote(old(View()), limit, now))
      ensures View() == After(old(View()), OnPromote(old(View()), limit, now))
      ensures Valid()
    {
      ghost var s := View();
      PromoteLegal(s, limit, now);
      if limit <= 0 {
        return Count(0);
      }
      if closed {
        return Closed;
      }
      var delayed := CollectDue(scheduled, now);
      var retrying := CollectDue(retry, now);
      DueUnion(s, now);
      var order := Sorted(delayed + retrying, scheduled + retry);
      var n := PromoteAll(order, limit, now);
      r := Count(n);
    }

    method PromoteAll(order: seq<string>, limit: int, now: int) returns (n: nat)
      requires Valid() && !closed && limit > 0
      requires order == Sorted(DueIds(View(), now), Waiting(View()))
      modifies this
      ensures View() == After(old(View()), OnPromote(old(View()), limit, now))
      ensures n == |OnPromote(old(View()), limit, now)|
    {
      ghost var s := View();
      n := 0;
      ghost var h := OnPromote(s, limit, now);
      while n < |order| && n < limit
        invariant 0 <= n <= |h|
        invariant |h| == if |order| < limit then |order| else limit
        invariant View() == After(s, h[..n])
        decreases |order| - n
      {
        PromoteNext(s, limit, now, n);
        if order[n] !in jobs {
          assert false; // a waiting job is always stored
        }
        PromoteOne(order[n], now);
        n := n + 1;
      }
      assert h[..n] == h;
    }

    /** Drops a job from the waiting table it is in. */
    method LeaveWaiting(id: string)
      requires id in scheduled <==> id !in retry
      modifies this`scheduled, this`retry
      ensures scheduled == old(scheduled) - {id} && retry == old(retry) - {id}
    {
      if id in scheduled {
        scheduled := scheduled - {id};
      } else {
        retry := retry - {id};
      }
    }

    method PromoteOne(id: string, now: int)
      requires id in jobs && (id in scheduled <==> id !in retry)
      modifies this
      ensures View() == Apply(old(View()), Stamped(now, Promoted(id)))
    {
      PromotedIs(View(), id, now);
      LeaveWaiting(id);
      var j := jobs[id].(state := Pending);
      jobs := jobs[id := j];
      Append(j.queue, id);
    }

    /** The members of `table` that are due, gathered in no particular order. */
    method CollectDue(table: map<string, int>, now: int) returns (due: set<string>)
      ensures due == DueIn(table, now)
    {
      due := {};
      var rest := table.Keys;
      while rest != {}
        invariant rest <= table.Keys
        invariant due == DueIn(table, now) - rest
      {
        var id :| id in rest;
        rest := rest - {id};
        if table[id] > now {
          continue;
        }
        due := due + {id};
      }
    }

    /** Resolves an ID filter to dead jobs; no IDs means all of them. */
    method SelectDeadIds(ids: seq<string>) returns (picked: seq<string>)
      ensures picked == SelectDead(View(), ids)
    {
      if ids == [] {
        return dead;
      }
      var inDLQ := set id | id in dead;
      picked := [];
      for i := 0 to |ids|
        invariant picked == KeepDead(View(), ids[..i])
      {
        assert ids[..i + 1][..i] == ids[..i];
        if ids[i] in inDLQ {
          picked := picked + [ids[i]];
        }
      }
      assert ids[..|ids|] == ids;
    }

    method RemoveDead(id: string)
      modifies this`dead
      ensures dead == RemoveFirst(old(dead), id)
    {
      for i := 0 to |dead|
        invariant dead == old(dead) && id !in dead[..i]
      {
        if dead[i] == id {
          RemovesFirst(dead, id, i);
          dead := dead[..i] + dead[i + 1..];
          return;
        }
      }
      RemovesNone(dead, id);
    }

    method RetryDead(ids: seq<string>, now: int) returns (r: Reply)
      requires Valid()
      modifies this
      ensures r == InspectReply(old(View()), OnRetryDead(old(View()), ids, now))
      ensures View() == After(old(View()), OnRetryDead(old(View()), ids, now))
      ensures !closed ==> (Valid() <==> NoDup(SelectDead(old(View()), ids)))
    {
      if closed {
        return Closed;
      }
      ghost var s := View();
      var picked := SelectDeadIds(ids);
      DeadStored(s, ids);
      var n := ReplayAll(picked, now);
      ReplayPlacedExactly(s, ids, now);
      r := Count(n);
    }

    method ReplayAll(picked: seq<string>, now: int) returns (n: nat)
      requires !closed && forall x :: x in picked ==> x in jobs
      modifies this
      ensures View() == After(old(View()), ReplayEvents(picked, now)) && closed == old(closed)
      ensures n == |picked|
    {
      ghost var s := View();
      n := 0;
      for i := 0 to |picked|
        invariant n == i && !closed
        invariant View() == After(s, ReplayEvents(picked[..i], now))
      {
        ReplayTurn(s, picked, i, now);
        if picked[i] !in jobs {
          assert false; // a dead job is always stored
        }
        ReplayDead(picked[i], now);
        n := n + 1;
      }
      assert picked[..|picked|] == picked;
    }

    /** Sends a dead job back to its queue with a fresh budget. */
    method ReplayDead(id: string, now: int)
      requires id in jobs
      modifies this
      ensures View() == Apply(old(View()), Stamped(now, Replayed(id))) && closed == old(closed)
    {
      var j := jobs[id].(state := Pending, attempt := 0, recoveries := 0, owner := "");
      jobs := jobs[id := j];
      Append(j.queue, id);
      RemoveDead(id);
    }

    method PurgeDead(ids: seq<string>, now: int) returns (r: Reply)
      requires Valid()
      modifies this
      ensures r == InspectReply(old(View()), OnPurgeDead(old(View()), ids, now))
      ensures View() == After(old(View()), OnPurgeDead(old(View()), ids, now))
      ensures Valid()
    {
      ghost var s := View();
      PurgeDeadLegal(s, ids, now);
      if closed {
        return Closed;
      }
      var picked := SelectDeadIds(ids);
      SelectDeadMembers(s, ids);
      var n := PurgeAll(picked, now);
      r := Count(n);
    }

    method PurgeAll(picked: seq<string>, now: int) returns (n: nat)
      requires Valid() && !closed && forall x :: x in picked ==> x in dead
      modifies this
      ensures View() == After(old(View()), PurgeEvents(Distinct(picked), now)) && n == |Distinct(picked)|
    {
      ghost var s := View();
      n := 0;
      for i := 0 to |picked|
        invariant n == |Distinct(picked[..i])| && !closed
        invariant View() == After(s, PurgeEvents(Distinct(picked[..i]), now))
      {
        PurgeTurn(s, picked, i, now);
        if picked[i] !in jobs {
          continue;
        }
        Discard(picked[i], now);
        n := n + 1;
      }
      assert picked[..|picked|] == picked;
    }

    method Discard(id: string, now: int)
      requires id in jobs
      modifies this
      ensures View() == Apply(old(View()), Stamped(now, Purged(id))) && closed == old(closed)
    {
      jobs := jobs - {id};
      RemoveDead(id);
    }

    /** Queue statistics; none once the broker is closed. */
    method GetStats() returns (ok: bool, r: Stats)
      requires Valid()
      ensures ok <==> !closed
      ensures ok ==> Accurate(View(), r)
    {
      r := Stats(map[], |dead|, processed, failed);
      if closed {
        return false, r;
      }
      ghost var s := View();
      DeadSize(s);
      IndexesStored(s);
      var table := CountPending();
      var counts := Tally(active.Keys);
      table := map q | q in table :: table[q].(active := counts[q]);
      counts := Tally(scheduled.Keys);
      table := map q | q in table :: table[q].(scheduled := counts[q]);
      counts := Tally(retry.Keys);
      table := map q | q in table :: table[q].(retry := counts[q]);
      forall q | q in queues ensures table[q] == Recount(s, q) {
        FiledSize(s, q);
        ReadySize(s, q);
      }
      ok, r := true, r.(queues := table);
    }

    method CountPending() returns (table: map<string, QueueStats>)
      ensures table.Keys == queues
      ensures forall q :: q in queues ==> table[q] == QueueStats(q, |Ready(View(), q)|, 0, 0, 0)
    {
      table := map[];
      var rest := queues;
      while rest != {}
        invariant rest <= queues && table.Keys == queues - rest
        invariant forall q :: q in table ==> table[q] == QueueStats(q, |Ready(View(), q)|, 0, 0, 0)
      {
        var q :| q in rest;
        rest := rest - {q};
        table := table[q := QueueStats(q, if q in pending then |pending[q]| else 0, 0, 0, 0)];
      }
    }

    /** How many of `ids` belong to each queue. */
    method Tally(ids: set<string>) returns (counts: map<string, int>)
      requires Valid() && ids <= jobs.Keys
      ensures counts.Keys == queues
      ensures forall q :: q in queues ==> counts[q] == |Filed(View(), ids, q)|
    {
      ghost var s := View();
      counts := map q | q in queues :: 0;
      var rest := ids;
      ghost var done := {};
      while rest != {}
        invariant rest <= ids && done == ids - rest
        invariant counts.Keys == queues
        invariant forall q :: q in queues ==> counts[q] == |Filed(s, done, q)|
      {
        var id :| id in rest;
        assert PlacedAt(s, id);
        forall q ensures |Filed(s, done + {id}, q)| == |Filed(s, done, q)| + if s.jobs[id].queue == q then 1 else 0 {
          FiledNext(s, done, id, q);
        }
        rest, done := rest - {id}, done + {id};
        counts := counts[jobs[id].queue := counts[jobs[id].queue] + 1];
      }
      assert done == ids;
    }

    method Shutdown(now: int) returns (r: Reply)
      requires Valid()
      modifies this
      ensures r == Ok
      ensures View() == After(old(View()), [Stamped(now, Shut)])
      ensures Valid()
    {
      ghost var s := View();
      CloseLegal(s, now);
      closed := true;
      OneLegal(s, Stamped(now, Shut));
      r := Ok;
    }
  }

  // What single events come to, field by field.

  lemma StoredIs(s: State, j: Job, newId: string, now: int)
    requires Placed(s) && Accepts(s, j, now)
    ensures var e := Envelope(j, newId, now);
      && After(s, OnEnqueue(s, j, newId, now)) == Insert(s, e, now)
      && (Placed(Insert(s, e, now)) <==> Storable(s, e))
  {
    var e := Envelope(j, newId, now);
    OneLegal(s, Stamped(now, Inserted(e)));
    InsertPlacedExactly(s, e, now);
  }

  lemma AckedIs(s: State, worker: string, id: string, now: int)
    requires id in s.jobs
    ensures After(s, [Stamped(now, Acked(id, worker))])
         == s.(jobs := s.jobs - {id}, active := s.active - {id}, processed := s.processed + 1)
  {
    OneLegal(s, Stamped(now, Acked(id, worker)));
  }

  lemma KilledIs(s: State, worker: string, id: string, reason: string, now: int)
    requires id in s.jobs
    ensures After(s, [Stamped(now, Killed(id, worker, reason))])
         == s.(jobs := s.jobs[id := s.jobs[id].(state := Dead, owner := "", lastErr := reason)],
               active := s.active - {id}, dead := s.dead + [id], failed := s.failed + 1)
  {
    OneLegal(s, Stamped(now, Killed(id, worker, reason)));
  }

  lemma PromotedIs(s: State, id: string, now: int)
    requires id in s.jobs
    ensures var j := s.jobs[id];
      Apply(s, Stamped(now, Promoted(id)))
        == s.(jobs := s.jobs[id := j.(state := Pending)],
              pending := s.pending[j.queue := Ready(s, j.queue) + [id]],
              scheduled := s.scheduled - {id}, retry := s.retry - {id})
  {
  }

  lemma {:induction false} RemovesFirst(xs: seq<string>, x: string, i: nat)
    requires i < |xs| && xs[i] == x && x !in xs[..i]
    ensures RemoveFirst(xs, x) == xs[..i] + xs[i + 1..]
  {
    if i > 0 {
      assert xs[..i][0] == xs[0] && xs[1..][..i - 1] == xs[..i][1..];
      RemovesFirst(xs[1..], x, i - 1);
    }
  }

  lemma {:induction false} RemovesNone(xs: seq<string>, x: string)
    requires x !in xs
    ensures RemoveFirst(xs, x) == xs
  {
    if xs == [] {
    } else {
      RemovesNone(xs[1..], x);
    }
  }

  lemma HeadStored(s: State, q: string)
    requires Placed(s) && Ready(s, q) != []
    ensures Ready(s, q)[0] in s.jobs && s.jobs[Ready(s, q)[0]].queue == q
  {
    assert Ready(s, q)[0] in Ready(s, q) && PlacedAt(s, Ready(s, q)[0]);
  }

  function RenewIfHeld(v: State, worker: string, id: string, deadline: int, now: int): State {
    if Holds(v, worker, id) then Apply(v, Stamped(now, Renewed(id, worker, deadline))) else v
  }

  /** After `n` turns of the renewal loop: what was renewed and what was lost. */
  ghost predicate RenewedSo(s: State, worker: string, ids: seq<string>, n: nat, deadline: int, now: int,
                            done: seq<Stamped>, lost: seq<string>)
  {
    n <= |ids| && done == Renewals(s, worker, ids[..n], deadline, now) && lost == LostIds(s, worker, ids[..n])
  }

  /** One turn of the renewal loop. */
  lemma RenewTurn(s: State, worker: string, ids: seq<string>, n: nat, deadline: int, now: int,
                  done: seq<Stamped>, lost: seq<string>)
    requires Placed(s) && deadline > now && n < |ids| && RenewedSo(s, worker, ids, n, deadline, now, done, lost)
    ensures var more := done + [Stamped(now, Renewed(ids[n], worker, deadline))];
      if Holds(After(s, done), worker, ids[n])
      then RenewedSo(s, worker, ids, n + 1, deadline, now, more, lost)
        && After(s, more) == Apply(After(s, done), Stamped(now, Renewed(ids[n], worker, deadline)))
      else RenewedSo(s, worker, ids, n + 1, deadline, now, done, lost + [ids[n]])
  {
    RenewalsSnoc(s, worker, ids, n, deadline, now);
    assert ids[..n + 1][..n] == ids[..n];
  }

  /** Earlier renewals change nobody's lease. */
  lemma RenewalsSnoc(s: State, worker: string, ids: seq<string>, i: nat, deadline: int, now: int)
    requires Placed(s) && deadline > now && i < |ids|
    ensures Holds(After(s, Renewals(s, worker, ids[..i], deadline, now)), worker, ids[i]) <==> Holds(s, worker, ids[i])
    ensures Holds(s, worker, ids[i]) ==>
      && LostIds(s, worker, ids[..i + 1]) == LostIds(s, worker, ids[..i])
      && After(s, Renewals(s, worker, ids[..i + 1], deadline, now))
         == Apply(After(s, Renewals(s, worker, ids[..i], deadline, now)), Stamped(now, Renewed(ids[i], worker,
           deadline)))
    ensures !Holds(s, worker, ids[i]) ==>
      && LostIds(s, worker, ids[..i + 1]) == LostIds(s, worker, ids[..i]) + [ids[i]]
      && Renewals(s, worker, ids[..i + 1], deadline, now) == Renewals(s, worker, ids[..i], deadline, now)
  {
    RenewalsLegal(s, worker, ids[..i], deadline, now);
    var h := Renewals(s, worker, ids[..i + 1], deadline, now);
    assert ids[..i + 1][..i] == ids[..i];
    if Holds(s, worker, ids[i]) {
      assert h[..|h| - 1] == Renewals(s, worker, ids[..i], deadline, now);
    }
  }

  lemma DeadStored(s: State, ids: seq<string>)
    requires Placed(s)
    ensures forall x :: x in SelectDead(s, ids) ==> x in s.jobs
  {
    SelectDeadMembers(s, ids);
    forall x | x in SelectDead(s, ids) ensures x in s.jobs { assert PlacedAt(s, x); }
  }

  lemma ReplayTurn(s: State, picked: seq<string>, i: nat, now: int)
    requires i < |picked| && forall x :: x in picked ==> x in s.jobs
    ensures var t := After(s, ReplayEvents(picked[..i], now));
      && picked[i] in t.jobs
      && After(s, ReplayEvents(picked[..i + 1], now)) == Apply(t, Stamped(now, Replayed(picked[i])))
  {
    ReplayQueues(s, picked[..i], now, picked[i]);
    assert picked[i] in picked;
    assert ReplayEvents(picked[..i + 1], now)[..i] == ReplayEvents(picked[..i], now);
  }

  /** Part-way through a batch, the job up next is untouched. */
  lemma BatchRest(s: State, h: seq<Stamped>, n: nat)
    requires Placed(s) && Batch(s, h) && n < |h|
    ensures SameView(s, After(s, h[..n]), h[n].event.id)
  {
    BatchSpares(s, h[..n], h[n].event.id);
  }

  lemma AfterSnoc(s: State, h: seq<Stamped>, n: nat)
    requires n < |h|
    ensures After(s, h[..n + 1]) == Apply(After(s, h[..n]), h[n])
  {
    assert h[..n + 1][..n] == h[..n];
  }

  /** The reap's next victim is still as the reap found it. */
  lemma ReapNext(s: State, queues: seq<string>, limit: int, now: int, n: nat)
    requires Placed(s) && !s.closed && n < |OnReap(s, queues, limit, now)|
    ensures var h := OnReap(s, queues, limit, now);
      var id, t := Sorted(Expired(s, queues, now), s.active)[n], After(s, h[..n]);
      && id in t.jobs && t.jobs[id].id == id
      && After(s, h[..n + 1]) == Apply(t, Stamped(now, if t.jobs[id].Exhausted() then Orphaned(id) else Recovered(id)))
  {
    var h, id := OnReap(s, queues, limit, now), Sorted(Expired(s, queues, now), s.active)[n];
    assert id in Expired(s, queues, now) && PlacedAt(s, id);
    ReapLegal(s, queues, limit, now);
    BatchRest(s, h, n);
    AfterSnoc(s, h, n);
  }

  lemma PromoteNext(s: State, limit: int, now: int, n: nat)
    requires Placed(s) && !s.closed && n < |OnPromote(s, limit, now)|
    ensures var h := OnPromote(s, limit, now);
      var id, t := Sorted(DueIds(s, now), Waiting(s))[n], After(s, h[..n]);
      && id in t.jobs && (id in t.scheduled <==> id !in t.retry)
      && After(s, h[..n + 1]) == Apply(t, Stamped(now, Promoted(id)))
  {
    var h, id := OnPromote(s, limit, now), Sorted(DueIds(s, now), Waiting(s))[n];
    assert id in DueIds(s, now) && PlacedAt(s, id);
    PromoteLegal(s, limit, now);
    BatchRest(s, h, n);
    AfterSnoc(s, h, n);
  }

  lemma PurgeSnoc(s: State, g: seq<string>, id: string, now: int)
    ensures After(s, PurgeEvents(g + [id], now)) == Apply(After(s, PurgeEvents(g, now)), Stamped(now, Purged(id)))
  {
    assert PurgeEvents(g + [id], now)[..|g|] == PurgeEvents(g, now);
  }

  /** Part-way through a purge, a listed job is stored until its first turn. */
  lemma PurgeRest(s: State, picked: seq<string>, i: nat, now: int)
    requires Placed(s) && i < |picked| && forall x :: x in picked ==> x in s.dead
    ensures picked[i] in After(s, PurgeEvents(Distinct(picked[..i]), now)).jobs <==> picked[i] !in picked[..i]
  {
    DistinctMembers(picked[..i]);
    assert picked[i] in picked && PlacedAt(s, picked[i]);
    Purges(s, Distinct(picked[..i]), picked[i], now);
  }

  /** One turn of the purge: a repeated ID is passed over. */
  lemma PurgeTurn(s: State, picked: seq<string>, i: nat, now: int)
    requires Placed(s) && i < |picked| && forall x :: x in picked ==> x in s.dead
    ensures var t := After(s, PurgeEvents(Distinct(picked[..i]), now));
      && (picked[i] !in t.jobs ==> Distinct(picked[..i + 1]) == Distinct(picked[..i]))
      && (picked[i] in t.jobs ==>
            && Distinct(picked[..i + 1]) == Distinct(picked[..i]) + [picked[i]]
            && After(s, PurgeEvents(Distinct(picked[..i + 1]), now)) == Apply(t, Stamped(now, Purged(picked[i]))))
  {
    PurgeRest(s, picked, i, now);
    DistinctSnoc(picked, i);
    PurgeSnoc(s, Distinct(picked[..i]), picked[i], now);
  }

  lemma DistinctSnoc(xs: seq<string>, i: nat)
    requires i < |xs|
    ensures Distinct(xs[..i + 1]) == if xs[i] in xs[..i] then Distinct(xs[..i]) else Distinct(xs[..i]) + [xs[i]]
  {
    assert xs[..i + 1][..i] == xs[..i];
  }

  lemma {:induction false} Purges(s: State, ids: seq<string>, id: string, now: int)
    ensures id in After(s, PurgeEvents(ids, now)).jobs <==> id in s.jobs && id !in ids
  {
    if ids == [] {
    } else {
      var n := |ids| - 1;
      assert PurgeEvents(ids, now)[..n] == PurgeEvents(ids[..n], now);
      assert ids == ids[..n] + [ids[n]];
      Purges(s, ids[..n], id, now);
    }
  }
}
