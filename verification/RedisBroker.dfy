/** The Redis broker: each Lua script is one method, run atomically.

    `history` is the history of the reference broker that this keyspace
    simulates. Every script extends it by legal events only, and says which, so
    everything proved about legal histories (placement, fencing, no loss,
    termination) holds of the Redis broker too, and where a script and the
    reference operation do the same thing the events are literally the same. */
module RedisBroker {
  import opened Jobs
  import opened Order
  import opened BrokerModel
  import opened Placement
  import opened CallPlacement
  import opened RedisModel
  import Overtaking

  /** What enqueue.lua keeps of the job it is given: it starts the counters, the
      failure note and all times but `runAt` afresh. */
  function Restarted(j: Job): Job {
    j.(attempt := 0, recoveries := 0, lastErr := "", enqueuedAt := ZERO_TIME,
       startedAt := ZERO_TIME, deadline := ZERO_TIME)
  }

  function EnqueueAnswer(r: Redis, j: Job, now: int): Reply {
    if j.queue == "" || j.kind == "" then Invalid
    else if j.uniqueKey != "" && Held(r, j.uniqueKey, now) then Duplicate(j.uniqueKey, r.unique[j.uniqueKey].jobID)
    else Ok
  }

  class Broker {
    var hashes: map<string, Hash>
    var lists: map<string, seq<string>>
    var active: map<string, map<string, int>>
    var delayed: map<string, int>
    var retry: map<string, int>
    var dead: map<string, int>
    var queues: set<string>
    var unique: map<string, UniqueEntry>
    var processed: int
    var failed: int
    const retention: int
    ghost var history: seq<Stamped>

    function View(): Redis
      reads this
    {
      Redis(hashes, lists, active, delayed, retry, dead, queues, unique, processed, failed)
    }

    /** The reference state this keyspace simulates. */
    ghost function Model(): State
      reads this
    {
      After(EMPTY, history)
    }

    ghost predicate Valid()
      reads this
    {
      Legal(EMPTY, history) && Sim(View(), Model())
    }

    constructor (completedTTL: int)
      ensures Valid() && View() == BLANK && history == [] && retention == completedTTL
    {
      hashes, lists, active := map[], map[], map[];
      delayed, retry, dead := map[], map[], map[];
      queues, unique, processed, failed := {}, map[], 0, 0;
      retention := completedTTL;
      history := [];
      new;
      BlankSim();
    }

    /** enqueue.lua and its wrapper. The keyspace stays in step with the reference
        broker exactly when it held no envelope under the job's ID, live or
        completed. */
    method Enqueue(job: Job, newId: string, now: int) returns (r: Reply)
      requires Valid() && now > 0
      modifies this
      ensures r == EnqueueAnswer(old(View()), job, now)
      ensures r != Ok ==> View() == old(View()) && history == old(history)
      ensures r == Ok ==> history == old(history) + [Stamped(now, Inserted(Envelope(Restarted(job), newId, now)))]
      ensures r == Ok ==> (Valid() <==> !Exists(old(View()), Envelope(job, newId, now).id, now))
      ensures r == Ok ==> Records(old(View()), View(), job, newId, now)
    {
      if job.queue == "" || job.kind == "" {
        return Invalid;
      }
      var id := if job.id == "" then newId else job.id;
      var maxAttempts := if job.maxAttempts <= 0 then DEFAULT_MAX_ATTEMPTS else job.maxAttempts;
      var ttl := 0;
      if job.uniqueKey != "" {
        ttl := if job.uniqueTTL <= 0 then HOUR_MS else job.uniqueTTL;
      }
      if ttl > 0 && job.uniqueKey in unique && now <= unique[job.uniqueKey].expiresAt {
        return Duplicate(job.uniqueKey, unique[job.uniqueKey].jobID);
      }
      HashIs(job, newId, now);
      WriteRecords(View(), job, newId, now);
      StoreHash(Job(id, job.queue, job.kind, job.payload, 0, maxAttempts, 0,
                    if Ms(job.runAt) > now then Scheduled else Pending, "", job.uniqueKey, 0, "",
                    now, Ms(job.runAt), 0, 0),
                now, ttl, Envelope(Restarted(job), newId, now));
      r := Ok;
    }

    /** The storing half of enqueue.lua; `e` is the envelope the hash encodes. */
    method StoreHash(hash: Job, now: int, ttl: int, ghost e: Job)
      requires Valid() && now > 0 && hash == Encode(e) && Storing(View(), e, now)
      requires ttl == if e.uniqueKey == "" then 0 else EffectiveTTL(e)
      modifies this
      ensures history == old(history) + [Stamped(now, Inserted(e))]
      ensures Valid() <==> !Exists(old(View()), e.id, now)
      ensures View() == Write(old(View()), hash, now, ttl)
    {
      InStepIff(View(), history, e, now, ttl);
      WriteHash(hash, now, ttl);
      history := history + [Stamped(now, Inserted(e))];
    }

    method WriteHash(hash: Job, now: int, ttl: int)
      modifies this
      ensures View() == Write(old(View()), hash, now, ttl) && history == old(history)
    {
      if ttl > 0 {
        unique := unique[hash.uniqueKey := UniqueEntry(hash.id, now + ttl)];
      }
      hashes := hashes[hash.id := Hash(hash, if Exists(View(), hash.id, now) then hashes[hash.id].expiresAt else None)];
      if hash.state == Scheduled {
        delayed := delayed[hash.id := hash.runAt];
      } else {
        lists := lists[hash.queue := LRange(View(), hash.queue) + [hash.id]];
      }
      queues := queues + {hash.queue};
    }

    /** dequeue.lua. Up to twenty IDs per queue may be skipped if their envelope
        is gone; none ever is. */
    method Dequeue(worker: string, wanted: seq<string>, vt: int, now: int) returns (r: Reply)
      requires Valid() && now > 0
      modifies this
      ensures Valid()
      ensures history == old(history) + OnDequeue(old(Model()), worker, wanted, vt, now)
      ensures match DequeueReply(old(Model()), worker, wanted, vt, now)
              case Got(j) => r == Got(Encode(j))
              case other => r == other
      ensures forall i: nat :: worker != "" && vt > 0 && FirstListed(old(View()), wanted, i) ==>
        PopsHead(old(View()), View(), r, wanted[i], worker, vt, now)
    {
      if worker == "" || vt <= 0 {
        return Invalid;
      }
      if wanted == [] {
        return NoJob;
      }
      ghost var v, m := View(), Model();
      for i := 0 to |wanted|
        invariant View() == v && history == old(history) && Model() == m
        invariant NextReady(m, wanted) == NextReady(m, wanted[i..])
        invariant forall k :: 0 <= k < i ==> LRange(v, wanted[k]) == []
      {
        var q := wanted[i];
        assert wanted[i..][1..] == wanted[i + 1..];
        assert LRange(v, q) == Ready(m, q);
        for k := 0 to 20
          invariant View() == v && history == old(history)
          invariant k == 0 // the first pop decides
        {
          if q !in lists || lists[q] == [] {
            break;
          }
          var id := lists[q][0];
          HeadLive(v, history, q);
          if !Exists(View(), id, now) {
            assert false; // no ready list holds a dangling ID
          }
          var j := DoClaim(q, worker, vt, now);
          return Got(j);
        }
      }
      r := NoJob;
    }

    // Each step below makes one event: it updates the keyspace as its script
    // does and records the event.

    method DoClaim(q: string, worker: string, vt: int, now: int) returns (j: Job)
      requires Valid() && now > 0 && worker != "" && vt > 0 && LRange(View(), q) != []
      modifies this
      ensures var id := LRange(old(View()), q)[0];
        && Valid() && history == old(history) + [Stamped(now, Claimed(id, worker, now + vt))]
        && id in old(Model()).jobs && j == Encode(Revise(Claimed(id, worker, now + vt), old(Model()).jobs[id], now))
      ensures PopsHead(old(View()), View(), Got(j), q, worker, vt, now)
    {
      ghost var v, h, id := View(), history, lists[q][0];
      ghost var st := Stamped(now, Claimed(id, worker, now + vt));
      ClaimCommits(v, h, q, worker, vt, now, retention);
      j := ClaimHead(q, worker, vt, now);
      history := h + [st];
    }

    method DoAck(worker: string, id: string, now: int)
      requires Valid() && now > 0 && Holds(Model(), worker, id)
      modifies this
      ensures Valid() && history == old(history) + [Stamped(now, Acked(id, worker))]
      ensures id in old(hashes) && CompletesAt(old(View()), View(), id, now, retention)
    {
      ghost var v, h, st := View(), history, Stamped(now, Acked(id, worker));
      Commit(v, h, st, retention);
      AckCompletes(v, id, worker, now, retention);
      Complete(worker, id, now);
      history := h + [st];
    }

    method DoFail(worker: string, id: string, retryAt: int, reason: string, now: int)
      requires Valid() && now > 0 && Holds(Model(), worker, id)
      modifies this
      ensures Valid()
      ensures history == old(history) + [Stamped(now, if old(Model()).jobs[id].Exhausted()
        then Killed(id, worker, reason)
                                                      else Retried(id, worker, retryAt, reason))]
      ensures id in old(hashes) && FailsAt(old(View()), View(), id, retryAt, reason, now)
    {
      ghost var v, h := View(), history;
      ghost var st := Stamped(now, if Model().jobs[id].Exhausted() then Killed(id, worker, reason)
                                   else Retried(id, worker, retryAt, reason));
      Commit(v, h, st, retention);
      FailJob(worker, id, retryAt, reason, now);
      history := h + [st];
    }

    method DoKill(worker: string, id: string, reason: string, now: int)
      requires Valid() && now > 0 && Holds(Model(), worker, id)
      modifies this
      ensures Valid() && history == old(history) + [Stamped(now, Killed(id, worker, reason))]
      ensures id in old(hashes) && DiesAt(old(View()), View(), id, reason, now)
    {
      ghost var v, h, st := View(), history, Stamped(now, Killed(id, worker, reason));
      Commit(v, h, st, retention);
      KillDies(v, id, worker, reason, now, retention);
      BuryJob(worker, id, reason, now);
      history := h + [st];
    }

    method DoRenew(worker: string, id: string, deadline: int, now: int)
      requires Valid() && now > 0 && Holds(Model(), worker, id) && deadline > now
      modifies this
      ensures Valid() && history == old(history) + [Stamped(now, Renewed(id, worker, deadline))]
    {
      ghost var v, h, st := View(), history, Stamped(now, Renewed(id, worker, deadline));
      Commit(v, h, st, retention);
      RenewJob(worker, id, deadline, now);
      history := h + [st];
    }

    method DoRecover(id: string, now: int) returns (died: bool)
      requires Valid() && now > 0 && LeaseExpired(Model(), id, now)
      modifies this
      ensures Valid() && died == old(Model()).jobs[id].Exhausted()
      ensures history == old(history) + [Stamped(now, if died then Orphaned(id) else Recovered(id))]
    {
      ghost var v, h := View(), history;
      ghost var st := Stamped(now, if Model().jobs[id].Exhausted() then Orphaned(id) else Recovered(id));
      Commit(v, h, st, retention);
      died := RecoverJob(id, now);
      history := h + [st];
    }

    method DoPromote(id: string, now: int)
      requires Valid() && now > 0 && id in Model().jobs && Due(Model(), id, now)
      modifies this
      ensures Valid() && history == old(history) + [Stamped(now, Promoted(id))]
    {
      ghost var v, h, st := View(), history, Stamped(now, Promoted(id));
      Commit(v, h, st, retention);
      DueInOne(v, h, id);
      PromotedOwner(v, h, id, now);
      MoveToReady(id, now);
      history := h + [st];
    }

    // The keyspace updates of the scripts.

    method ClaimHead(q: string, worker: string, vt: int, now: int) returns (j: Job)
      requires q in lists && lists[q] != [] && lists[q][0] in hashes
      requires hashes[lists[q][0]].expiresAt.None? && hashes[lists[q][0]].job.queue == q
      modifies this
      ensures var id := old(lists[q])[0];
        && View() == Effect(old(View()), Claimed(id, worker, now + vt), old(hashes)[id].job, now, retention)
        && j == Revise(Claimed(id, worker, now + vt), old(hashes)[id].job, now)
      ensures PopsHead(old(View()), View(), Got(j), q, worker, vt, now)
      ensures history == old(history)
    {
      ClaimPops(View(), q, worker, vt, now, retention);
      var id := lists[q][0];
      lists := lists[q := lists[q][1..]];
      var deadline := now + vt;
      j := hashes[id].job;
      j := j.(attempt := j.attempt + 1);
      j := j.(state := Active, owner := worker, startedAt := now, deadline := deadline);
      hashes := hashes[id := Hash(j, None)];
      active := active[q := Leased(View(), q)[id := deadline]];
    }

    /** The check every report script opens with. */
    method Fenced(worker: string, id: string, now: int) returns (r: Reply)
      requires Valid()
      ensures r == FenceReply(View(), Model(), worker, id, now)
      ensures r == Ok <==> Holds(Model(), worker, id)
      ensures r == Ok ==> id in hashes && hashes[id].expiresAt.None?
    {
      assert SimAt(View(), Model(), id);
      if !Exists(View(), id, now) {
        return NotFound;
      }
      if hashes[id].job.state != Active || hashes[id].job.owner != worker {
        return LeaseLost;
      }
      r := Ok;
    }

    /** ZREM from the job's active set. */
    method Release(id: string)
      requires id in hashes
      modifies this`active
      ensures active == old(active)[hashes[id].job.queue := Leased(old(View()), hashes[id].job.queue) - {id}]
    {
      var q := hashes[id].job.queue;
      active := active[q := Leased(View(), q) - {id}];
    }

    /** ack.lua. */
    method Ack(worker: string, id: string, now: int) returns (r: Reply)
      requires Valid() && now > 0
      modifies this
      ensures Valid()
      ensures history == old(history) + OnAck(old(Model()), worker, id, now)
      ensures r == Ok ==> id in old(hashes) && CompletesAt(old(View()), View(), id, now, retention)
      ensures r == FenceReply(old(View()), old(Model()), worker, id, now)
    {
      r := Fenced(worker, id, now);
      if r != Ok {
        return;
      }
      DoAck(worker, id, now);
    }

    method Complete(worker: string, id: string, now: int)
      requires id in hashes
      modifies this
      ensures View() == Effect(old(View()), Acked(id, worker), old(hashes)[id].job, now, retention)
      ensures history == old(history)
    {
      Release(id);
      processed := processed + 1;
      if retention > 0 {
        hashes := hashes[id := Hash(hashes[id].job.(state := Completed, owner := ""), Some(now + retention))];
      } else {
        hashes := hashes - {id};
      }
    }

    /** nack.lua. */
    method Nack(worker: string, id: string, retryAt: int, reason: string, now: int) returns (r: Reply)
      requires Valid() && now > 0
      modifies this
      ensures Valid()
      ensures history == old(history) + OnNack(old(Model()), worker, id, Ms(retryAt), reason, now)
      ensures r == Ok ==> id in old(hashes) && FailsAt(old(View()), View(), id, Ms(retryAt), reason, now)
      ensures r == FenceReply(old(View()), old(Model()), worker, id, now)
    {
      r := Fenced(worker, id, now);
      if r != Ok {
        return;
      }
      DoFail(worker, id, Ms(retryAt), reason, now);
    }

    method FailJob(worker: string, id: string, retryAt: int, reason: string, now: int)
      requires id in hashes && hashes[id].expiresAt.None?
      modifies this
      ensures history == old(history)
      ensures var j := old(hashes)[id].job;
        && (j.Exhausted() ==> View() == Effect(old(View()), Killed(id, worker, reason), j, now, retention))
        && (!j.Exhausted() ==> View() == Effect(old(View()), Retried(id, worker, retryAt, reason), j, now, retention))
      ensures FailsAt(old(View()), View(), id, retryAt, reason, now)
    {
      KillDies(View(), id, worker, reason, now, retention);
      if !hashes[id].job.Exhausted() { RetryFails(View(), id, worker, retryAt, reason, now, retention); }
      if hashes[id].job.attempt >= hashes[id].job.maxAttempts {
        BuryJob(worker, id, reason, now);
      } else {
        BackOff(worker, id, retryAt, reason, now);
      }
    }

    method BackOff(worker: string, id: string, retryAt: int, reason: string, ghost now: int)
      requires id in hashes
      modifies this
      ensures View() == Effect(old(View()), Retried(id, worker, retryAt, reason), old(hashes)[id].job, now, retention)
      ensures history == old(history)
    {
      RetriedIs(View(), Retried(id, worker, retryAt, reason), hashes[id].job, now, retention);
      Release(id);
      hashes := hashes[id := Hash(hashes[id].job.(state := Retry, owner := "", lastErr := reason), None)];
      retry := retry[id := retryAt];
    }

    /** kill.lua. */
    method Kill(worker: string, id: string, reason: string, now: int) returns (r: Reply)
      requires Valid() && now > 0
      modifies this
      ensures Valid()
      ensures history == old(history) + OnKill(old(Model()), worker, id, reason, now)
      ensures r == Ok ==> id in old(hashes) && DiesAt(old(View()), View(), id, reason, now)
      ensures r == FenceReply(old(View()), old(Model()), worker, id, now)
    {
      r := Fenced(worker, id, now);
      if r != Ok {
        return;
      }
      DoKill(worker, id, reason, now);
    }

    method BuryJob(worker: string, id: string, reason: string, now: int)
      requires id in hashes
      modifies this
      ensures View() == Effect(old(View()), Killed(id, worker, reason), old(hashes)[id].job, now, retention)
      ensures history == old(history)
    {
      BuriedIs(View(), Killed(id, worker, reason), hashes[id].job, now, retention);
      Release(id);
      hashes := hashes[id := Hash(hashes[id].job.(state := Dead, owner := "", lastErr := reason), None)];
      dead := dead[id := now];
      failed := failed + 1;
    }

    /** extend.lua and its wrapper. */
    method Extend(worker: string, ids: seq<string>, vt: int, now: int) returns (r: Reply)
      requires Valid() && now > 0
      modifies this
      ensures Valid()
      ensures history == old(history) + OnExtend(old(Model()), worker, ids, vt, now)
      ensures r == ExtendReply(old(Model()), worker, ids, vt)
    {
      if vt <= 0 {
        return Invalid;
      }
      var lost := RenewAll(worker, ids, now + vt, now);
      r := Lost(lost);
    }

    method RenewAll(worker: string, ids: seq<string>, deadline: int, now: int) returns (lost: seq<string>)
      requires Valid() && now > 0 && deadline > now
      modifies this
      ensures Valid()
      ensures history == old(history) + Renewals(old(Model()), worker, ids, deadline, now)
      ensures lost == LostIds(old(Model()), worker, ids)
    {
      ghost var m, h := Model(), history;
      lost := [];
      for i := 0 to |ids|
        invariant Valid()
        invariant history == h + Renewals(m, worker, ids[..i], deadline, now)
        invariant lost == LostIds(m, worker, ids[..i])
      {
        RenewalTurn(h, worker, ids, i, deadline, now);
        var held := Fenced(worker, ids[i], now);
        if held != Ok {
          lost := lost + [ids[i]];
        } else {
          DoRenew(worker, ids[i], deadline, now);
        }
      }
      assert ids[..|ids|] == ids;
    }

    method RenewJob(worker: string, id: string, deadline: int, now: int)
      requires id in hashes && hashes[id].expiresAt.None?
      modifies this
      ensures View() == Effect(old(View()), Renewed(id, worker, deadline), old(hashes)[id].job, now, retention)
      ensures history == old(history)
    {
      var q := hashes[id].job.queue;
      hashes := hashes[id := Hash(hashes[id].job.(deadline := deadline), None)];
      active := active[q := Leased(View(), q)[id := deadline]];
    }

    /** reap.lua, one queue. */
    method ReapQueue(q: string, limit: int, now: int) returns (recovered: nat, buried: nat)
      requires Valid() && now > 0 && limit > 0
      modifies this
      ensures Valid()
      ensures history == old(history) + OnReap(old(Model()), [q], limit, now)
      ensures recovered + buried == |OnReap(old(Model()), [q], limit, now)|
    {
      ghost var m, h := Model(), history;
      var expired := RangeByScore(Leased(View(), q), now, limit);
      ReapRange(View(), h, q, limit, now);
      ReapPlan(h, q, limit, now);
      recovered, buried := ReapAll(q, expired, OnReap(m, [q], limit, now), now);
    }

    /** The loop of reap.lua. `plan` is what the reference broker would do. */
    method ReapAll(q: string, expired: seq<string>, ghost plan: seq<Stamped>, now: int)
      returns (recovered: nat, buried: nat)
      requires Valid() && now > 0 && Legal(EMPTY, history + plan) && |expired| == |plan|
      requires forall k :: 0 <= k < |plan| ==> ReapOf(history, plan, k, expired[k], q, now)
      modifies this
      ensures Valid() && history == old(history) + plan
      ensures recovered + buried == |plan|
    {
      ghost var h := history;
      recovered, buried := 0, 0;
      assert h + plan[..0] == h;
      for n := 0 to |expired|
        invariant Valid() && history == h + plan[..n]
        invariant recovered + buried == n
      {
        var id := expired[n];
        ReapTurn(View(), h, plan, n, id, q, now);
        if id !in Leased(View(), q) || !Exists(View(), id, now) {
          assert false; // the lease set holds live jobs only
        }
        var died := DoRecover(id, now);
        if died {
          buried := buried + 1;
        } else {
          recovered := recovered + 1;
        }
      }
      assert plan[..|plan|] == plan;
    }

    method RecoverJob(id: string, now: int) returns (died: bool)
      requires id in hashes && hashes[id].expiresAt.None?
      modifies this
      ensures died == old(hashes)[id].job.Exhausted() && history == old(history)
      ensures died ==> View() == Effect(old(View()), Orphaned(id), old(hashes)[id].job, now, retention)
      ensures !died ==> View() == Effect(old(View()), Recovered(id), old(hashes)[id].job, now, retention)
    {
      died := hashes[id].job.attempt >= hashes[id].job.maxAttempts;
      if died {
        BuryOrphan(id, now);
      } else {
        PushFront(id, now);
      }
    }

    method BuryOrphan(id: string, now: int)
      requires id in hashes
      modifies this
      ensures View() == Effect(old(View()), Orphaned(id), old(hashes)[id].job, now, retention)
      ensures history == old(history)
    {
      OrphanedIs(View(), id, hashes[id].job, now, retention);
      Release(id);
      var j := hashes[id].job;
      j := j.(recoveries := j.recoveries + 1, owner := "");
      hashes := hashes[id := Hash(j.(state := Dead, lastErr := OrphanNote(j.attempt)), None)];
      dead := dead[id := now];
      failed := failed + 1;
    }

    method PushFront(id: string, ghost now: int)
      requires id in hashes
      modifies this
      ensures View() == Effect(old(View()), Recovered(id), old(hashes)[id].job, now, retention)
      ensures history == old(history)
    {
      RecoveredIs(View(), Recovered(id), hashes[id].job, now, retention);
      Release(id);
      var j := hashes[id].job;
      j := j.(recoveries := j.recoveries + 1, owner := "");
      hashes := hashes[id := Hash(j.(state := Pending), None)];
      lists := lists[j.queue := [id] + LRange(View(), j.queue)];
    }

    /** The Go wrapper: the limit applies to each queue in turn. */
    method Reap(wanted: seq<string>, limit: int, now: int) returns (total: nat)
      requires Valid() && now > 0
      modifies this
      ensures Valid()
      ensures history == if limit <= 0 then old(history) else QueueByQueue(old(history), wanted, limit, now)
      ensures total == |history| - |old(history)|
    {
      total := 0;
      if limit <= 0 {
        return;
      }
      ghost var h := history;
      for i := 0 to |wanted|
        invariant Valid() && history == QueueByQueue(h, wanted[..i], limit, now)
        invariant total == |history| - |h|
      {
        NextQueue(h, wanted, i, limit, now);
        var recovered, buried := ReapQueue(wanted[i], limit, now);
        total := total + recovered + buried;
      }
      assert wanted[..|wanted|] == wanted;
    }

    /** promote.lua: due delayed jobs first, then due retries. */
    method Promote(limit: int, now: int) returns (promoted: nat)
      requires Valid() && now > 0
      modifies this
      ensures Valid()
      ensures history == old(history) + PromoteEvents(DelayedFirst(old(Model()), limit, now), now)
      ensures promoted == |DelayedFirst(old(Model()), limit, now)|
    {
      if limit <= 0 {
        return 0;
      }
      ghost var h := history;
      var due := PromoteDelayed(limit, now);
      promoted := |due|;
      var more := [];
      if promoted < limit {
        more := PromoteRetries(h, due, limit, limit - promoted, now);
        promoted := promoted + |more|;
      }
      PromotesAre(h, due, more, limit, now);
    }

    method PromoteDelayed(limit: int, now: int) returns (due: seq<string>)
      requires Valid() && now > 0
      modifies this
      ensures Valid() && due == RangeByScore(old(Model()).scheduled, now, limit)
      ensures history == old(history) + PromoteEvents(due, now)
    {
      due := RangeByScore(delayed, now, limit);
      DelayedLegal(View(), history, limit, now);
      PromoteSet(due, now);
    }

    /** `h` is the history before the delayed jobs `due` were promoted. */
    method PromoteRetries(ghost h: seq<Stamped>, ghost due: seq<string>, ghost limit: int, rest: int, now: int)
      returns (more: seq<string>)
      requires Valid() && now > 0 && Legal(EMPTY, h) && history == h + PromoteEvents(due, now)
      requires due == RangeByScore(After(EMPTY, h).scheduled, now, limit)
      modifies this
      ensures Valid() && more == RangeByScore(After(EMPTY, h).retry, now, rest)
      ensures history == old(history) + PromoteEvents(more, now)
    {
      RangeMembers(After(EMPTY, h).scheduled, now, limit);
      RetryLegal(View(), h, due, rest, now);
      more := RangeByScore(retry, now, rest);
      PromoteSet(more, now);
    }

    /** The loop of promote.lua over the due members of one sorted set. */
    method PromoteSet(due: seq<string>, now: int)
      requires Valid() && now > 0 && Legal(EMPTY, history + PromoteEvents(due, now))
      modifies this
      ensures Valid() && history == old(history) + PromoteEvents(due, now)
    {
      ghost var h, goal := history, history + PromoteEvents(due, now);
      for n := 0 to |due|
        invariant Valid() && history == goal[..|h| + n]
      {
        PromoteTurn(View(), h, due, goal, n, now);
        if (due[n] !in delayed && due[n] !in retry) || !Exists(View(), due[n], now) {
          assert false; // the waiting sets hold live jobs only
        }
        DoPromote(due[n], now);
      }
      assert goal[..|h| + |due|] == goal;
    }

    /** ZREM from the sorted set the job is in. */
    method LeaveWaiting(id: string)
      requires !(id in delayed && id in retry)
      modifies this`delayed, this`retry
      ensures delayed == old(delayed) - {id} && retry == old(retry) - {id}
    {
      if id in delayed {
        delayed := delayed - {id};
      } else {
        retry := retry - {id};
      }
    }

    method MoveToReady(id: string, ghost now: int)
      requires id in hashes && hashes[id].job.owner == "" && !(id in delayed && id in retry)
      modifies this
      ensures View() == Effect(old(View()), Promoted(id), old(hashes)[id].job, now, retention)
      ensures history == old(history)
    {
      PromotedIs(View(), id, hashes[id].job, now, retention);
      LeaveWaiting(id);
      var j := hashes[id].job.(state := Pending, owner := "");
      hashes := hashes[id := Hash(j, None)];
      lists := lists[j.queue := LRange(View(), j.queue) + [id]];
    }
  }

  // ------------------------------------------------------------------- replies

  /** The fencing outcome. A completed envelope that is still retained answers
      "lease lost" where the reference broker answers "not found". */
  ghost function FenceReply(r: Redis, m: State, worker: string, id: string, now: int): Reply {
    if Exists(r, id, now) && r.hashes[id].job.state == Completed then LeaseLost else Fence(m, worker, id)
  }

  /** The history after reaping queue by queue, each with the full limit. */
  ghost function QueueByQueue(h: seq<Stamped>, queues: seq<string>, limit: int, now: int): seq<Stamped> {
    if queues == [] then h else
      var n := |queues| - 1;
      var g := QueueByQueue(h, queues[..n], limit, now);
      g + OnReap(After(EMPTY, g), [queues[n]], limit, now)
  }

  lemma NextQueue(h: seq<Stamped>, queues: seq<string>, i: nat, limit: int, now: int)
    requires i < |queues|
    ensures var g := QueueByQueue(h, queues[..i], limit, now);
      QueueByQueue(h, queues[..i + 1], limit, now) == g + OnReap(After(EMPTY, g), [queues[i]], limit, now)
  {
    assert queues[..i + 1][..i] == queues[..i];
  }

  /** The jobs promote.lua picks: delayed ones first, retries with what is left. */
  ghost function DelayedFirst(m: State, limit: int, now: int): seq<string> {
    var first := RangeByScore(m.scheduled, now, limit);
    first + RangeByScore(m.retry, now, limit - |first|)
  }

  // -------------------------------------------------------------------- lemmas

  lemma BlankSim()
    ensures Legal(EMPTY, []) && Sim(BLANK, EMPTY)
  {
    forall id ensures SimAt(BLANK, EMPTY, id) {
      assert forall q :: LeaseAt(BLANK, EMPTY, id, q);
    }
  }

  /** One scripted event, applied to the keyspace and recorded in the history. */
  lemma {:induction false} Commit(v: Redis, h: seq<Stamped>, st: Stamped, retention: int)
    requires Legal(EMPTY, h) && Sim(v, After(EMPTY, h)) && Enabled(After(EMPTY, h), st)
    requires Scripted(st.event) && st.now > 0
    ensures Legal(EMPTY, h + [st])
    ensures var e := st.event;
      && e.id in v.hashes && v.hashes[e.id] == Hash(Encode(After(EMPTY, h).jobs[e.id]), None)
      && Sim(Effect(v, e, v.hashes[e.id].job, st.now, retention), After(EMPTY, h + [st]))
  {
    var m := After(EMPTY, h);
    EmptyPlaced();
    LegalPlaced(EMPTY, h);
    EnabledRipe(m, st);
    assert SimAt(v, m, st.event.id);
    EffectSim(v, m, st.event, st.now, retention);
    assert (h + [st])[..|h|] == h;
  }

  /** The same for the claim of the head of a list. */
  lemma ClaimCommits(v: Redis, h: seq<Stamped>, q: string, worker: string, vt: int, now: int, retention: int)
    requires Legal(EMPTY, h) && Sim(v, After(EMPTY, h)) && LRange(v, q) != [] && worker != "" && vt > 0 && now > 0
    ensures var m, st := After(EMPTY, h), Stamped(now, Claimed(LRange(v, q)[0], worker, now + vt));
      var id := st.event.id;
      && id in m.jobs && id in v.hashes && v.hashes[id].expiresAt.None? && v.hashes[id].job.queue == q
      && Revise(st.event, v.hashes[id].job, now) == Encode(Revise(st.event, m.jobs[id], now))
      && Legal(EMPTY, h + [st])
      && Sim(Effect(v, st.event, v.hashes[id].job, now, retention), After(EMPTY, h + [st]))
  {
    var st := Stamped(now, Claimed(LRange(v, q)[0], worker, now + vt));
    HeadLive(v, h, q);
    Commit(v, h, st, retention);
    ReviseEncoded(st.event, After(EMPTY, h).jobs[st.event.id], now);
  }

  lemma {:induction false} CommitInsert(v: Redis, h: seq<Stamped>, j: Job, now: int, ttl: int)
    requires Legal(EMPTY, h) && Sim(v, After(EMPTY, h)) && Enabled(After(EMPTY, h), Stamped(now, Inserted(j)))
    requires now > 0 && !Exists(v, j.id, now) && ttl == if j.uniqueKey == "" then 0 else EffectiveTTL(j)
    ensures Legal(EMPTY, h + [Stamped(now, Inserted(j))])
    ensures Sim(Write(v, Encode(j), now, ttl), After(EMPTY, h + [Stamped(now, Inserted(j))]))
  {
    EmptyPlaced();
    LegalPlaced(EMPTY, h);
    WriteSim(v, After(EMPTY, h), j, now, ttl);
    HistorySnoc(EMPTY, h, Stamped(now, Inserted(j)));
  }

  /** The hash enqueue.lua writes holds the envelope, encoded. */
  lemma HashIs(j: Job, newId: string, now: int)
    requires now > 0
    ensures var e := Envelope(Restarted(j), newId, now);
      && Encode(e) == Job(if j.id == "" then newId else j.id, j.queue, j.kind, j.payload, 0,
                          if j.maxAttempts <= 0 then DEFAULT_MAX_ATTEMPTS else j.maxAttempts, 0,
                          if Ms(j.runAt) > now then Scheduled else Pending, "", j.uniqueKey, 0, "",
                          now, Ms(j.runAt), 0, 0)
      && e.owner == "" && e.maxAttempts >= 1 && e.uniqueKey == j.uniqueKey && e.uniqueTTL == j.uniqueTTL
      && e.id == Envelope(j, newId, now).id && (if e.runAt > now then e.state == Scheduled else e.state == Pending)
  {
  }

  /** Writing that hash records the job. */
  lemma WriteRecords(r: Redis, j: Job, newId: string, now: int)
    ensures var hash := Job(if j.id == "" then newId else j.id, j.queue, j.kind, j.payload, 0,
                            if j.maxAttempts <= 0 then DEFAULT_MAX_ATTEMPTS else j.maxAttempts, 0,
                            if Ms(j.runAt) > now then Scheduled else Pending, "", j.uniqueKey, 0, "",
                            now, Ms(j.runAt), 0, 0);
      var ttl := if j.uniqueKey == "" then 0 else if j.uniqueTTL <= 0 then HOUR_MS else j.uniqueTTL;
      Records(r, Write(r, hash, now, ttl), j, newId, now)
  {
  }

  /** A new envelope may be stored: everything but its ID is in order. */
  predicate Storing(v: Redis, j: Job, now: int) {
    && j.owner == "" && j.maxAttempts >= 1 && (j.uniqueKey != "" ==> !Held(v, j.uniqueKey, now))
    && if j.runAt > now then j.state == Scheduled else j.state == Pending
  }

  /** Storing under an ID still in use, or still retained, puts the keyspace out
      of step, and nothing else does. */
  lemma {:induction false} InStepIff(v: Redis, h: seq<Stamped>, j: Job, now: int, ttl: int)
    requires Legal(EMPTY, h) && Sim(v, After(EMPTY, h)) && now > 0 && Storing(v, j, now)
    requires ttl == if j.uniqueKey == "" then 0 else EffectiveTTL(j)
    ensures var g := h + [Stamped(now, Inserted(j))];
      Legal(EMPTY, g) && Sim(Write(v, Encode(j), now, ttl), After(EMPTY, g)) <==> !Exists(v, j.id, now)
  {
    var m, g := After(EMPTY, h), h + [Stamped(now, Inserted(j))];
    assert g[..|g| - 1] == h;
    assert SimAt(v, m, j.id);
    if !Exists(v, j.id, now) {
      CommitInsert(v, h, j, now, ttl);
    } else if j.id !in m.jobs {
      KeepsExpiry(v, m, j, now, ttl);
    }
  }

  lemma KeepsExpiry(v: Redis, m: State, j: Job, now: int, ttl: int)
    requires SimAt(v, m, j.id) && Exists(v, j.id, now) && j.id !in m.jobs
    ensures !SimAt(Write(v, Encode(j), now, ttl), Insert(m, j, now), j.id)
  {
  }

  /** The head of a ready list is a live job of that queue. */
  lemma HeadLive(v: Redis, h: seq<Stamped>, q: string)
    requires Legal(EMPTY, h) && Sim(v, After(EMPTY, h)) && LRange(v, q) != []
    ensures var id, m := LRange(v, q)[0], After(EMPTY, h);
      && id in m.jobs && m.jobs[id].queue == q && Ready(m, q) == LRange(v, q)
      && id in v.hashes && v.hashes[id] == Hash(Encode(m.jobs[id]), None)
  {
    var id, m := LRange(v, q)[0], After(EMPTY, h);
    EmptyPlaced();
    LegalPlaced(EMPTY, h);
    assert Ready(m, q) == LRange(v, q) && id in Ready(m, q);
    assert SimAt(v, m, id) && PlacedAt(m, id);
  }

  lemma {:induction false} RenewalTurn(h: seq<Stamped>, worker: string, ids: seq<string>, i: nat, deadline: int,
                                       now: int)
    requires Legal(EMPTY, h) && deadline > now && i < |ids|
    ensures var m := After(EMPTY, h);
      var now' := After(EMPTY, h + Renewals(m, worker, ids[..i], deadline, now));
      && (Holds(now', worker, ids[i]) <==> Holds(m, worker, ids[i]))
      && Renewals(m, worker, ids[..i + 1], deadline, now) == Renewals(m, worker, ids[..i], deadline, now)
         + (if Holds(m, worker, ids[i]) then [Stamped(now, Renewed(ids[i], worker, deadline))] else [])
      && LostIds(m, worker, ids[..i + 1]) == LostIds(m, worker, ids[..i]) + (if Holds(m, worker, ids[i])
        then [] else [ids[i]])
  {
    var m := After(EMPTY, h);
    EmptyPlaced();
    LegalPlaced(EMPTY, h);
    RenewalsLegal(m, worker, ids[..i], deadline, now);
    AfterConcat(EMPTY, h, Renewals(m, worker, ids[..i], deadline, now));
    assert ids[..i + 1][..i] == ids[..i];
  }

  /** The range query of reap.lua names what the reference broker would reap. */
  lemma {:induction false} ReapRange(v: Redis, h: seq<Stamped>, q: string, limit: int, now: int)
    requires Legal(EMPTY, h) && Sim(v, After(EMPTY, h))
    ensures RangeByScore(Leased(v, q), now, limit) == ReapPicks(After(EMPTY, h), [q], limit, now)
  {
    var m := After(EMPTY, h);
    EmptyPlaced();
    LegalPlaced(EMPTY, h);
    forall id ensures id in DueIn(Leased(v, q), now) <==> id in Expired(m, [q], now) {
      assert SimAt(v, m, id) && LeaseAt(v, m, id, q) && PlacedAt(m, id);
    }
    assert DueIn(Leased(v, q), now) == Expired(m, [q], now);
    forall id | id in DueIn(Leased(v, q), now) ensures Leased(v, q)[id] == m.active[id] {
      assert SimAt(v, m, id) && LeaseAt(v, m, id, q);
    }
    SortedAgrees(DueIn(Leased(v, q), now), Leased(v, q), m.active);
  }

  /** Part-way to a legal history its next event is enabled. */
  lemma {:induction false} GoalTurn(goal: seq<Stamped>, k: nat)
    requires Legal(EMPTY, goal) && k < |goal|
    ensures Legal(EMPTY, goal[..k]) && Enabled(After(EMPTY, goal[..k]), goal[k])
    ensures goal[..k + 1] == goal[..k] + [goal[k]]
  {
    LegalPrefix(EMPTY, goal, k);
  }

  /** Event `k` of the plan takes back the expired lease of `id`, a job that
      belongs to queue `q` when its turn comes. */
  predicate ReapOf(h: seq<Stamped>, plan: seq<Stamped>, k: nat, id: string, q: string, now: int)
    requires k < |plan|
  {
    var m := After(EMPTY, h + plan[..k]);
    && plan[k].now == now && (plan[k].event == Recovered(id) || plan[k].event == Orphaned(id))
    && id in m.jobs && m.jobs[id].queue == q
  }

  lemma {:induction false} ReapPlan(h: seq<Stamped>, q: string, limit: int, now: int)
    requires Legal(EMPTY, h) && !After(EMPTY, h).closed
    ensures var m := After(EMPTY, h);
      var plan, ids := OnReap(m, [q], limit, now), ReapPicks(m, [q], limit, now);
      && Legal(EMPTY, h + plan) && |plan| == |ids|
      && forall k :: 0 <= k < |plan| ==> ReapOf(h, plan, k, ids[k], q, now)
  {
    var m := After(EMPTY, h);
    var plan, ids := OnReap(m, [q], limit, now), ReapPicks(m, [q], limit, now);
    EmptyPlaced();
    LegalPlaced(EMPTY, h);
    ReapLegal(m, [q], limit, now);
    LegalConcat(EMPTY, h, plan);
    forall k | 0 <= k < |plan| ensures ReapOf(h, plan, k, ids[k], q, now) {
      ReapPlanAt(h, q, limit, now, k);
    }
  }

  lemma {:induction false} ReapPlanAt(h: seq<Stamped>, q: string, limit: int, now: int, k: nat)
    requires !After(EMPTY, h).closed && k < |ReapPicks(After(EMPTY, h), [q], limit, now)|
    ensures var m := After(EMPTY, h);
      var plan, ids := OnReap(m, [q], limit, now), ReapPicks(m, [q], limit, now);
      k < |plan| && ReapOf(h, plan, k, ids[k], q, now)
  {
    var m := After(EMPTY, h);
    var plan, ids := OnReap(m, [q], limit, now), ReapPicks(m, [q], limit, now);
    PickedOfQueue(m, q, limit, now, k);
    Overtaking.ReapsQueues(m, ids[..k], now, ids[k]);
    assert plan[..k] == ReapEvents(m, ids[..k], now);
    AfterConcat(EMPTY, h, plan[..k]);
  }

  lemma PickedOfQueue(m: State, q: string, limit: int, now: int, k: nat)
    requires k < |ReapPicks(m, [q], limit, now)|
    ensures var id := ReapPicks(m, [q], limit, now)[k];
      id in m.jobs && m.jobs[id].queue == q
  {
    assert Sorted(Expired(m, [q], now), m.active)[k] in Expired(m, [q], now);
  }

  /** A lease the reference broker would reap next is in its queue's lease set. */
  lemma {:induction false} ReapTurn(v: Redis, h: seq<Stamped>, plan: seq<Stamped>, k: nat, id: string, q: string,
                                    now: int)
    requires k < |plan| && Legal(EMPTY, h + plan) && Sim(v, After(EMPTY, h + plan[..k]))
    requires ReapOf(h, plan, k, id, q, now)
    ensures var m := After(EMPTY, h + plan[..k]);
      && id in Leased(v, q) && id in v.hashes && v.hashes[id].expiresAt.None?
      && LeaseExpired(m, id, now)
      && h + plan[..k + 1] == (h + plan[..k]) + [Stamped(now, if m.jobs[id].Exhausted()
        then Orphaned(id) else Recovered(id))]
  {
    PlanTurn(h, plan, k);
    PlanSnoc(h, plan, k);
    ReapLive(v, After(EMPTY, h + plan[..k]), plan[k], q);
  }

  lemma {:induction false} PlanTurn(h: seq<Stamped>, plan: seq<Stamped>, k: nat)
    requires k < |plan| && Legal(EMPTY, h + plan)
    ensures Enabled(After(EMPTY, h + plan[..k]), plan[k])
  {
    LegalConcat(EMPTY, h, plan);
    LegalPrefix(After(EMPTY, h), plan, k);
    AfterConcat(EMPTY, h, plan[..k]);
  }

  lemma PlanSnoc(h: seq<Stamped>, plan: seq<Stamped>, k: nat)
    requires k < |plan|
    ensures h + plan[..k + 1] == (h + plan[..k]) + [plan[k]]
  {
    assert plan[..k + 1] == plan[..k] + [plan[k]];
  }

  lemma {:induction false} ReapLive(v: Redis, m: State, st: Stamped, q: string)
    requires Sim(v, m) && Enabled(m, st) && (st.event.Recovered? || st.event.Orphaned?)
    requires st.event.id in m.jobs && m.jobs[st.event.id].queue == q
    ensures var id := st.event.id;
      && id in Leased(v, q) && id in v.hashes && v.hashes[id].expiresAt.None?
      && LeaseExpired(m, id, st.now) && st.event == if m.jobs[id].Exhausted() then Orphaned(id) else Recovered(id)
  {
    assert SimAt(v, m, st.event.id) && LeaseAt(v, m, st.event.id, q);
  }

  /** One turn of the promotion loop. */
  lemma {:induction false} PromoteTurn(v: Redis, h: seq<Stamped>, due: seq<string>, goal: seq<Stamped>, n: nat,
                                       now: int)
    requires n < |due| && goal == h + PromoteEvents(due, now) && Legal(EMPTY, goal)
    requires Sim(v, After(EMPTY, goal[..|h| + n]))
    ensures var m, id := After(EMPTY, goal[..|h| + n]), due[n];
      && id in m.jobs && Due(m, id, now)
      && (id in v.delayed || id in v.retry) && id in v.hashes && v.hashes[id].expiresAt.None?
      && goal[..|h| + n + 1] == goal[..|h| + n] + [Stamped(now, Promoted(id))]
  {
    assert goal[|h| + n] == Stamped(now, Promoted(due[n]));
    GoalTurn(goal, |h| + n);
    PromoteLive(v, goal[..|h| + n], due[n], now);
  }

  lemma {:induction false} PromoteLive(v: Redis, h: seq<Stamped>, id: string, now: int)
    requires Legal(EMPTY, h) && Sim(v, After(EMPTY, h)) && Enabled(After(EMPTY, h), Stamped(now, Promoted(id)))
    ensures (id in v.delayed || id in v.retry) && id in v.hashes && v.hashes[id].expiresAt.None?
  {
    assert SimAt(v, After(EMPTY, h), id);
  }

  lemma {:induction false} PromotesConcat(h: seq<Stamped>, a: seq<string>, b: seq<string>, now: int)
    ensures h + PromoteEvents(a, now) + PromoteEvents(b, now) == h + PromoteEvents(a + b, now)
  {
  }

  lemma PromotesAre(h: seq<Stamped>, due: seq<string>, more: seq<string>, limit: int, now: int)
    requires due == RangeByScore(After(EMPTY, h).scheduled, now, limit) && limit > 0
    requires more == if |due| < limit then RangeByScore(After(EMPTY, h).retry, now, limit - |due|) else []
    ensures var picks := DelayedFirst(After(EMPTY, h), limit, now);
      && h + PromoteEvents(due, now) + PromoteEvents(more, now) == h + PromoteEvents(picks, now)
      && h + PromoteEvents(due, now) + [] == h + PromoteEvents(due, now) && |picks| == |due| + |more|
  {
    PromotesConcat(h, due, more, now);
  }

  /** Promoting due members of either waiting set is legal. */
  lemma {:induction false} WaitingLegal(h: seq<Stamped>, ids: seq<string>, zset: map<string, int>, limit: int, now: int)
    requires Legal(EMPTY, h) && (zset == After(EMPTY, h).scheduled || zset == After(EMPTY, h).retry)
    requires ids == RangeByScore(zset, now, limit)
    ensures Legal(EMPTY, h + PromoteEvents(ids, now))
  {
    var m := After(EMPTY, h);
    EmptyPlaced();
    LegalPlaced(EMPTY, h);
    RangeMembers(zset, now, limit);
    WaitingBatch(m, ids, now);
    BatchLegal(m, PromoteEvents(ids, now));
    LegalConcat(EMPTY, h, PromoteEvents(ids, now));
  }

  lemma {:induction false} DelayedLegal(v: Redis, h: seq<Stamped>, limit: int, now: int)
    requires Legal(EMPTY, h) && Sim(v, After(EMPTY, h))
    ensures RangeByScore(v.delayed, now, limit) == RangeByScore(After(EMPTY, h).scheduled, now, limit)
    ensures Legal(EMPTY, h + PromoteEvents(RangeByScore(v.delayed, now, limit), now))
  {
    SameSets(v, After(EMPTY, h));
    WaitingLegal(h, RangeByScore(v.delayed, now, limit), v.delayed, limit, now);
  }

  /** Promoting delayed jobs leaves the retry set as it was. */
  lemma {:induction false} RetryLegal(v: Redis, h: seq<Stamped>, due: seq<string>, limit: int, now: int)
    requires Legal(EMPTY, h) && forall x :: x in due ==> x in After(EMPTY, h).scheduled
    requires Legal(EMPTY, h + PromoteEvents(due, now)) && Sim(v, After(EMPTY, h + PromoteEvents(due, now)))
    ensures RangeByScore(v.retry, now, limit) == RangeByScore(After(EMPTY, h).retry, now, limit)
    ensures Legal(EMPTY, h + PromoteEvents(due, now) + PromoteEvents(RangeByScore(v.retry, now, limit), now))
  {
    var m, g := After(EMPTY, h), h + PromoteEvents(due, now);
    EmptyPlaced();
    LegalPlaced(EMPTY, h);
    AfterConcat(EMPTY, h, PromoteEvents(due, now));
    SameSets(v, After(EMPTY, g));
    PromotesRetry(m, due, now);
    WaitingLegal(g, RangeByScore(v.retry, now, limit), v.retry, limit, now);
  }

  lemma {:induction false} PromotesRetry(m: State, ids: seq<string>, now: int)
    requires Placed(m) && forall x :: x in ids ==> x in m.scheduled
    ensures After(m, PromoteEvents(ids, now)).retry == m.retry
  {
    if ids == [] {
    } else {
      var n := |ids| - 1;
      assert PromoteEvents(ids, now)[..n] == PromoteEvents(ids[..n], now);
      PromotesRetry(m, ids[..n], now);
      assert ids[n] in ids && PlacedAt(m, ids[n]);
      assert m.retry - {ids[n]} == m.retry;
    }
  }

  lemma PromotedOwner(v: Redis, h: seq<Stamped>, id: string, now: int)
    requires Legal(EMPTY, h) && Sim(v, After(EMPTY, h))
    requires id in After(EMPTY, h).jobs && Due(After(EMPTY, h), id, now)
    ensures id in v.hashes && v.hashes[id].job.owner == ""
  {
    EmptyPlaced();
    LegalPlaced(EMPTY, h);
    assert SimAt(v, After(EMPTY, h), id) && PlacedAt(After(EMPTY, h), id);
  }

  lemma SameSets(v: Redis, m: State)
    requires Sim(v, m)
    ensures v.delayed == m.scheduled && v.retry == m.retry
  {
    forall id ensures
      && (id in v.delayed <==> id in m.scheduled) && (id in m.scheduled ==> v.delayed[id] == m.scheduled[id])
      && (id in v.retry <==> id in m.retry) && (id in m.retry ==> v.retry[id] == m.retry[id])
    { assert SimAt(v, m, id); }
  }

  lemma DueInOne(v: Redis, h: seq<Stamped>, id: string)
    requires Legal(EMPTY, h) && Sim(v, After(EMPTY, h))
    ensures !(id in v.delayed && id in v.retry)
  {
    EmptyPlaced();
    LegalPlaced(EMPTY, h);
    SameSets(v, After(EMPTY, h));
    assert PlacedAt(After(EMPTY, h), id);
  }

  lemma {:induction false} RangeMembers(zset: map<string, int>, now: int, limit: int)
    ensures NoDup(RangeByScore(zset, now, limit))
    ensures forall i :: 0 <= i < |RangeByScore(zset, now, limit)| ==>
      RangeByScore(zset, now, limit)[i] in zset && zset[RangeByScore(zset, now, limit)[i]] <= now
  {
    SortedAscending(DueIn(zset, now), zset);
    var all, r := Sorted(DueIn(zset, now), zset), RangeByScore(zset, now, limit);
    forall i | 0 <= i < |r| ensures r[i] in DueIn(zset, now) { assert r[i] == all[i]; }
  }

  lemma {:induction false} WaitingBatch(m: State, ids: seq<string>, now: int)
    requires Placed(m) && NoDup(ids)
    requires forall i :: 0 <= i < |ids| ==> Due(m, ids[i], now)
    ensures Batch(m, PromoteEvents(ids, now))
  {
    forall i | 0 <= i < |ids| ensures ids[i] in m.jobs { assert PlacedAt(m, ids[i]); }
  }
}
