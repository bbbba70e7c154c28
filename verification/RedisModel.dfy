/** The Redis keyspace the Lua scripts work on (internal/rdb/scripts), and its
    relation to the reference broker. Every key family is its own table: hashes
    for envelopes, a list and a sorted set per queue, three global sorted sets. */
module RedisModel {
  import opened Jobs
  import opened Order
  import opened BrokerModel
  import opened Placement

  /** An envelope hash. Only a completed envelope carries a time to live. */
  datatype Hash = Hash(job: Job, expiresAt: Option<int>)

  datatype Redis = Redis(
    hashes: map<string, Hash>,
    lists: map<string, seq<string>>,
    active: map<string, map<string, int>>,
    delayed: map<string, int>,
    retry: map<string, int>,
    dead: map<string, int>,
    queues: set<string>,
    unique: map<string, UniqueEntry>,
    processed: int,
    failed: int)

  const BLANK := Redis(map[], map[], map[], map[], map[], map[], {}, map[], 0, 0)

  function LRange(r: Redis, q: string): seq<string> {
    if q in r.lists then r.lists[q] else []
  }

  /** The sorted set of active leases of one queue. */
  function Leased(r: Redis, q: string): map<string, int> {
    if q in r.active then r.active[q] else map[]
  }

  /** EXISTS. A key lives up to and including the millisecond it expires at. */
  predicate Exists(r: Redis, id: string, now: int) {
    id in r.hashes && (r.hashes[id].expiresAt.None? || now <= r.hashes[id].expiresAt.value)
  }

  /** SET NX fails: the unique key is still there. */
  predicate Held(r: Redis, key: string, now: int) {
    key in r.unique && now <= r.unique[key].expiresAt
  }

  /** ZRANGEBYSCORE -inf now LIMIT 0 limit. */
  function RangeByScore(zset: map<string, int>, now: int, limit: int): seq<string> {
    Take(Sorted(DueIn(zset, now), zset), limit)
  }

  /** Times travel as Unix milliseconds, the zero time as 0. */
  function Ms(t: int): int { if t == ZERO_TIME then 0 else t }

  /** The envelope as its hash stores it; a unique TTL is not stored. */
  function Encode(j: Job): Job {
    j.(uniqueTTL := 0, enqueuedAt := Ms(j.enqueuedAt), runAt := Ms(j.runAt),
       startedAt := Ms(j.startedAt), deadline := Ms(j.deadline))
  }

  // ------------------------------------------------------------- the relation

  /** The lease set of `q` holds `id` exactly while `id` is active on `q`. */
  ghost predicate LeaseAt(r: Redis, m: State, id: string, q: string) {
    && (id in Leased(r, q) <==> id in m.active && id in m.jobs && m.jobs[id].queue == q)
    && (id in Leased(r, q) ==> Leased(r, q)[id] == m.active[id])
  }

  /** Both brokers say the same about job `id`. */
  ghost predicate SimAt(r: Redis, m: State, id: string) {
    && (id in m.jobs <==> id in r.hashes && r.hashes[id].job.state != Completed)
    && (id in m.jobs ==> r.hashes[id] == Hash(Encode(m.jobs[id]), None))
    && (id in r.hashes && r.hashes[id].job.state == Completed ==> r.hashes[id].expiresAt.Some?)
    && (forall q :: LeaseAt(r, m, id, q))
    && (id in r.delayed <==> id in m.scheduled) && (id in m.scheduled ==> r.delayed[id] == m.scheduled[id])
    && (id in r.retry <==> id in m.retry) && (id in m.retry ==> r.retry[id] == m.retry[id])
    && (id in r.dead <==> id in m.dead)
  }

  /** `r` simulates the reference state `m`: completed envelopes aside, and with
      the dead-letter set unordered, they hold the same. */
  ghost predicate Sim(r: Redis, m: State) {
    && (forall id :: SimAt(r, m, id))
    && (forall q :: LRange(r, q) == Ready(m, q))
    && r.queues == m.queues && r.unique == m.unique
    && r.processed == m.processed && r.failed == m.failed
    && !m.closed
  }

  /** No index entry points at a missing, completed or expiring hash. */
  ghost predicate NoDangling(r: Redis) {
    forall id, q ::
      (id in LRange(r, q) || id in Leased(r, q) || id in r.delayed || id in r.retry || id in r.dead) ==>
      id in r.hashes && r.hashes[id].expiresAt.None? && r.hashes[id].job.state != Completed
  }

  lemma SimNoDangling(r: Redis, m: State)
    requires Placed(m) && Sim(r, m)
    ensures NoDangling(r)
  {
    forall id, q | id in LRange(r, q) || id in Leased(r, q) || id in r.delayed || id in r.retry || id in r.dead
      ensures id in r.hashes && r.hashes[id].expiresAt.None? && r.hashes[id].job.state != Completed
    {
      assert SimAt(r, m, id) && PlacedAt(m, id) && LeaseAt(r, m, id, q);
    }
  }

  // ------------------------------------------------------- effects, per script

  /** What the scripts do to the keyspace for one event on a stored job whose
      hash holds `j`. `retention` is how long a completed envelope is kept. */
  function Effect(r: Redis, e: Event, j: Job, now: int, retention: int): Redis
    requires !e.Inserted? && !e.Shut?
  {
    r.(hashes := if e.Acked? then
                   (if retention > 0 then r.hashes[e.id := Hash(j.(state := Completed, owner := ""),
                     Some(now + retention))]
                    else r.hashes - {e.id})
                 else r.hashes[e.id := Hash(Revise(e, j, now), None)],
       lists := if Requeues(e) then r.lists[j.queue := Requeue(e, LRange(r, j.queue))] else r.lists,
       active := if Leases(e) then r.active[j.queue := Leased(r, j.queue)[e.id := e.deadline]]
                 else if Releases(e) then r.active[j.queue := Leased(r, j.queue) - {e.id}] else r.active,
       delayed := if e.Promoted? then r.delayed - {e.id} else r.delayed,
       retry := if e.Retried? then r.retry[e.id := e.retryAt]
                else if e.Promoted? then r.retry - {e.id} else r.retry,
       dead := if Buries(e) then r.dead[e.id := now] else r.dead,
       processed := if e.Acked? then r.processed + 1 else r.processed,
       failed := if Buries(e) then r.failed + 1 else r.failed)
  }

  // What single events come to, table by table.

  lemma BuriedIs(r: Redis, e: Event, j: Job, now: int, retention: int)
    requires Buries(e)
    ensures Effect(r, e, j, now, retention)
         == r.(hashes := r.hashes[e.id := Hash(Revise(e, j, now), None)],
               active := r.active[j.queue := Leased(r, j.queue) - {e.id}],
               dead := r.dead[e.id := now], failed := r.failed + 1)
  {
  }

  lemma OrphanedIs(r: Redis, id: string, j: Job, now: int, retention: int)
    ensures Effect(r, Orphaned(id), j, now, retention)
         == r.(hashes := r.hashes[id := Hash(j.(recoveries := j.recoveries + 1, owner := "", state := Dead,
                                                lastErr := OrphanNote(j.attempt)), None)],
               active := r.active[j.queue := Leased(r, j.queue) - {id}],
               dead := r.dead[id := now], failed := r.failed + 1)
  {
    BuriedIs(r, Orphaned(id), j, now, retention);
  }

  lemma RetriedIs(r: Redis, e: Event, j: Job, now: int, retention: int)
    requires e.Retried?
    ensures Effect(r, e, j, now, retention)
         == r.(hashes := r.hashes[e.id := Hash(Revise(e, j, now), None)],
               active := r.active[j.queue := Leased(r, j.queue) - {e.id}],
               retry := r.retry[e.id := e.retryAt])
  {
  }

  lemma RecoveredIs(r: Redis, e: Event, j: Job, now: int, retention: int)
    requires e.Recovered?
    ensures Effect(r, e, j, now, retention)
         == r.(hashes := r.hashes[e.id := Hash(Revise(e, j, now), None)],
               active := r.active[j.queue := Leased(r, j.queue) - {e.id}],
               lists := r.lists[j.queue := [e.id] + LRange(r, j.queue)])
  {
  }

  lemma PromotedIs(r: Redis, id: string, j: Job, now: int, retention: int)
    requires j.owner == ""
    ensures Effect(r, Promoted(id), j, now, retention)
         == r.(hashes := r.hashes[id := Hash(j.(state := Pending, owner := ""), None)],
               lists := r.lists[j.queue := LRange(r, j.queue) + [id]],
               delayed := r.delayed - {id}, retry := r.retry - {id})
  {
  }

  /** What enqueue.lua does to the keyspace once it has the unique key. HSET on a
      hash that is still there leaves its time to live in place. */
  function Write(r: Redis, j: Job, now: int, ttl: int): Redis {
    r.(hashes := r.hashes[j.id := Hash(j, if Exists(r, j.id, now) then r.hashes[j.id].expiresAt else None)],
       delayed := if j.state == Scheduled then r.delayed[j.id := j.runAt] else r.delayed,
       lists := if j.state == Scheduled then r.lists else r.lists[j.queue := LRange(r, j.queue) + [j.id]],
       queues := r.queues + {j.queue},
       unique := if ttl > 0 then r.unique[j.uniqueKey := UniqueEntry(j.id, now + ttl)] else r.unique)
  }

  // What the scripts that deal with one job come to, said of the keyspace alone.

  /** From `r` to `t` the job was recorded with fresh counters, a default budget and
      all times but its own unset; it waits for its time or joins the end of its list,
      and takes its unique key, for an hour if it asks for no time. */
  predicate Records(r: Redis, t: Redis, job: Job, newId: string, now: int) {
    var id, at := if job.id == "" then newId else job.id, if job.runAt == ZERO_TIME then 0 else job.runAt;
    var j := Job(id, job.queue, job.kind, job.payload, 0, if job.maxAttempts <= 0 then 25 else job.maxAttempts, 0,
                 if at > now then Scheduled else Pending, "", job.uniqueKey, 0, "", now, at, 0, 0);
    t == r.(hashes := r.hashes[id := Hash(j, if Exists(r, id, now) then r.hashes[id].expiresAt else None)],
            delayed := if at > now then r.delayed[id := at] else r.delayed,
            lists := if at > now then r.lists else r.lists[job.queue := LRange(r, job.queue) + [id]],
            queues := r.queues + {job.queue},
            unique := if job.uniqueKey == "" then r.unique
                      else r.unique[job.uniqueKey :=
                        UniqueEntry(id, now + if job.uniqueTTL <= 0 then 3_600_000 else job.uniqueTTL)])
  }

  /** From `r` to `t` job `id` was completed: counted, and its envelope kept for the
      retention if there is one. */
  predicate CompletesAt(r: Redis, t: Redis, id: string, now: int, retention: int)
    requires id in r.hashes
  {
    var j := r.hashes[id].job;
    t == r.(hashes := if retention <= 0 then r.hashes - {id}
                      else r.hashes[id := Hash(j.(state := Completed, owner := ""), Some(now + retention))],
            active := r.active[j.queue := Leased(r, j.queue) - {id}], processed := r.processed + 1)
  }

  lemma AckCompletes(r: Redis, id: string, worker: string, now: int, retention: int)
    requires id in r.hashes
    ensures CompletesAt(r, Effect(r, Acked(id, worker), r.hashes[id].job, now, retention), id, now, retention)
  {
  }

  /** Queue `i` is the first of `queues` whose list holds anything. */
  predicate FirstListed(r: Redis, queues: seq<string>, i: nat) {
    i < |queues| && LRange(r, queues[i]) != [] && forall k :: 0 <= k < i ==> LRange(r, queues[k]) == []
  }

  /** From `r` to `t` the head of the list of `q` was handed to `worker` under a lease
      of length `vt` with one attempt more, and the list keeps the rest. */
  predicate PopsHead(r: Redis, t: Redis, reply: Reply, q: string, worker: string, vt: int, now: int) {
    && LRange(r, q) != [] && LRange(r, q)[0] in r.hashes
    && var id := LRange(r, q)[0];
    && var was := r.hashes[id].job;
    && var j := was.(attempt := was.attempt + 1, state := Active, owner := worker, startedAt := now,
                     deadline := now + vt);
    && reply == Got(j)
    && t == r.(hashes := r.hashes[id := Hash(j, None)], lists := r.lists[q := LRange(r, q)[1..]],
               active := r.active[q := Leased(r, q)[id := now + vt]])
  }

  /** From `r` to `t` job `id` was dead-lettered with its reason. */
  predicate DiesAt(r: Redis, t: Redis, id: string, reason: string, now: int)
    requires id in r.hashes
  {
    var j := r.hashes[id].job;
    t == r.(hashes := r.hashes[id := Hash(j.(state := Dead, owner := "", lastErr := reason), None)],
            active := r.active[j.queue := Leased(r, j.queue) - {id}],
            dead := r.dead[id := now], failed := r.failed + 1)
  }

  /** From `r` to `t` job `id` failed: it waits until `retryAt` with the reason given, or
      is dead-lettered if its attempts are spent. */
  predicate FailsAt(r: Redis, t: Redis, id: string, retryAt: int, reason: string, now: int)
    requires id in r.hashes
  {
    var j := r.hashes[id].job;
    if j.attempt >= j.maxAttempts then DiesAt(r, t, id, reason, now)
    else t == r.(hashes := r.hashes[id := Hash(j.(state := Retry, owner := "", lastErr := reason), None)],
                 active := r.active[j.queue := Leased(r, j.queue) - {id}], retry := r.retry[id := retryAt])
  }

  lemma ClaimPops(r: Redis, q: string, worker: string, vt: int, now: int, retention: int)
    requires LRange(r, q) != [] && LRange(r, q)[0] in r.hashes && r.hashes[LRange(r, q)[0]].job.queue == q
    ensures var id := LRange(r, q)[0];
      var e := Claimed(id, worker, now + vt);
      PopsHead(r, Effect(r, e, r.hashes[id].job, now, retention), Got(Revise(e, r.hashes[id].job, now)), q, worker, vt,
               now)
  {
  }

  lemma KillDies(r: Redis, id: string, worker: string, reason: string, now: int, retention: int)
    requires id in r.hashes
    ensures DiesAt(r, Effect(r, Killed(id, worker, reason), r.hashes[id].job, now, retention), id, reason, now)
  {
    BuriedIs(r, Killed(id, worker, reason), r.hashes[id].job, now, retention);
  }

  lemma RetryFails(r: Redis, id: string, worker: string, retryAt: int, reason: string, now: int, retention: int)
    requires id in r.hashes && r.hashes[id].job.attempt < r.hashes[id].job.maxAttempts
    ensures var e := Retried(id, worker, retryAt, reason);
      FailsAt(r, Effect(r, e, r.hashes[id].job, now, retention), id, retryAt, reason, now)
  {
    RetriedIs(r, Retried(id, worker, retryAt, reason), r.hashes[id].job, now, retention);
  }

  lemma ReviseEncoded(e: Event, j: Job, now: int)
    requires now != ZERO_TIME && (Leases(e) ==> e.deadline != ZERO_TIME)
    ensures Revise(e, Encode(j), now) == Encode(Revise(e, j, now))
  {
  }

  /** Scripts exist for every event but the operator's replay and purge. */
  predicate Scripted(e: Event) {
    !e.Inserted? && !e.Shut? && !Exhumes(e)
  }

  /** The ready lists after an event. */
  lemma EffectRange(r: Redis, e: Event, j: Job, now: int, retention: int, q: string)
    requires !e.Inserted? && !e.Shut?
    ensures LRange(Effect(r, e, j, now, retention), q)
         == if Requeues(e) && q == j.queue then Requeue(e, LRange(r, q)) else LRange(r, q)
  {
  }

  /** One event, made by its script, keeps the two brokers in step. */
  lemma {:induction false} EffectSim(r: Redis, m: State, e: Event, now: int, retention: int)
    requires Sim(r, m) && ListsDistinct(m) && Ripe(m, e) && Scripted(e)
    requires now != ZERO_TIME && (Leases(e) ==> e.deadline != ZERO_TIME)
    ensures e.id in r.hashes && r.hashes[e.id].job == Encode(m.jobs[e.id])
    ensures Sim(Effect(r, e, r.hashes[e.id].job, now, retention), Changed(m, e, now))
  {
    assert SimAt(r, m, e.id);
    var t, n := Effect(r, e, r.hashes[e.id].job, now, retention), Changed(m, e, now);
    forall q ensures LRange(t, q) == Ready(n, q) {
      assert LRange(r, q) == Ready(m, q);
      EffectRange(r, e, r.hashes[e.id].job, now, retention, q);
      ChangedReady(m, e, now, q);
    }
    EffectTarget(r, m, e, now, retention);
    forall x | x != e.id ensures SimAt(t, n, x) {
      EffectFrame(r, m, e, now, retention, x);
    }
  }

  /** The lease sets after an event. */
  lemma EffectLeased(r: Redis, e: Event, j: Job, now: int, retention: int, q: string)
    requires !e.Inserted? && !e.Shut?
    ensures Leased(Effect(r, e, j, now, retention), q)
         == if q != j.queue then Leased(r, q)
            else if Leases(e) then Leased(r, q)[e.id := e.deadline]
            else if Releases(e) then Leased(r, q) - {e.id} else Leased(r, q)
  {
  }

  lemma {:induction false} TargetLease(r: Redis, m: State, e: Event, now: int, retention: int, q: string)
    requires Ripe(m, e) && Scripted(e) && LeaseAt(r, m, e.id, q)
    requires e.id in r.hashes && r.hashes[e.id].job.queue == m.jobs[e.id].queue
    ensures LeaseAt(Effect(r, e, r.hashes[e.id].job, now, retention), Changed(m, e, now), e.id, q)
  {
    EffectLeased(r, e, r.hashes[e.id].job, now, retention, q);
    ChangedIndexes(m, e, now);
    if !Removes(e) { ChangedEnvelope(m, e, now); }
  }

  /** The hash of the job itself: gone or completed after an ack, else revised. */
  lemma {:induction false} TargetHash(r: Redis, m: State, e: Event, now: int, retention: int)
    requires Ripe(m, e) && Scripted(e) && SimAt(r, m, e.id)
    requires now != ZERO_TIME && (Leases(e) ==> e.deadline != ZERO_TIME)
    ensures var t, n := Effect(r, e, r.hashes[e.id].job, now, retention), Changed(m, e, now);
      && (e.id in n.jobs <==> e.id in t.hashes && t.hashes[e.id].job.state != Completed)
      && (e.id in n.jobs ==> t.hashes[e.id] == Hash(Encode(n.jobs[e.id]), None))
      && (e.id in t.hashes && t.hashes[e.id].job.state == Completed ==> t.hashes[e.id].expiresAt.Some?)
  {
    ReviseEncoded(e, m.jobs[e.id], now);
    if !Removes(e) { ChangedEnvelope(m, e, now); }
  }

  /** The waiting and dead sets say the same about the job itself. */
  lemma {:induction false} TargetSets(r: Redis, m: State, e: Event, j: Job, now: int, retention: int)
    requires ListsDistinct(m) && Ripe(m, e) && Scripted(e) && SimAt(r, m, e.id)
    ensures var t, n := Effect(r, e, j, now, retention), Changed(m, e, now);
      && (e.id in t.delayed <==> e.id in n.scheduled) && (e.id in n.scheduled ==> t.delayed[e.id] == n.scheduled[e.id])
      && (e.id in t.retry <==> e.id in n.retry) && (e.id in n.retry ==> t.retry[e.id] == n.retry[e.id])
      && (e.id in t.dead <==> e.id in n.dead)
  {
    DeadEffect(m, e, now);
  }

  lemma {:induction false} EffectTarget(r: Redis, m: State, e: Event, now: int, retention: int)
    requires ListsDistinct(m) && Ripe(m, e) && Scripted(e) && SimAt(r, m, e.id)
    requires now != ZERO_TIME && (Leases(e) ==> e.deadline != ZERO_TIME)
    ensures SimAt(Effect(r, e, r.hashes[e.id].job, now, retention), Changed(m, e, now), e.id)
  {
    TargetHash(r, m, e, now, retention);
    TargetSets(r, m, e, r.hashes[e.id].job, now, retention);
    forall q ensures LeaseAt(Effect(r, e, r.hashes[e.id].job, now, retention), Changed(m, e, now), e.id, q) {
      assert LeaseAt(r, m, e.id, q);
      TargetLease(r, m, e, now, retention, q);
    }
  }

  lemma {:induction false} EffectLease(r: Redis, m: State, e: Event, j: Job, now: int, retention: int,
                                       x: string, q: string)
    requires Ripe(m, e) && LeaseAt(r, m, x, q) && x != e.id
    ensures LeaseAt(Effect(r, e, j, now, retention), Changed(m, e, now), x, q)
  {
    EffectLeased(r, e, j, now, retention, q);
    ChangedOther(m, e, now, x);
  }

  /** Nothing but the lease sets is left to say about another job. */
  lemma EffectOther(r: Redis, e: Event, j: Job, now: int, retention: int, x: string)
    requires !e.Inserted? && !e.Shut? && x != e.id
    ensures var t := Effect(r, e, j, now, retention);
      && (x in t.hashes <==> x in r.hashes) && (x in r.hashes ==> t.hashes[x] == r.hashes[x])
      && (x in t.delayed <==> x in r.delayed) && (x in r.delayed ==> t.delayed[x] == r.delayed[x])
      && (x in t.retry <==> x in r.retry) && (x in r.retry ==> t.retry[x] == r.retry[x])
      && (x in t.dead <==> x in r.dead)
  {
  }

  lemma {:induction false} EffectFrame(r: Redis, m: State, e: Event, now: int, retention: int, x: string)
    requires ListsDistinct(m) && Ripe(m, e) && Scripted(e) && SimAt(r, m, e.id) && SimAt(r, m, x) && x != e.id
    ensures SimAt(Effect(r, e, r.hashes[e.id].job, now, retention), Changed(m, e, now), x)
  {
    var j := r.hashes[e.id].job;
    DeadEffect(m, e, now);
    ChangedOther(m, e, now, x);
    EffectOther(r, e, j, now, retention, x);
    forall q ensures LeaseAt(Effect(r, e, j, now, retention), Changed(m, e, now), x, q) {
      EffectLease(r, m, e, j, now, retention, x, q);
    }
  }

  lemma {:induction false} WriteAt(r: Redis, m: State, j: Job, now: int, ttl: int, x: string)
    requires SimAt(r, m, x) && PlacedAt(m, x) && !Exists(r, j.id, now)
    requires j.state == Scheduled || j.state == Pending
    requires j.state == Scheduled ==> j.runAt != ZERO_TIME
    ensures SimAt(Write(r, Encode(j), now, ttl), Insert(m, j, now), x)
  {
    var t, n := Write(r, Encode(j), now, ttl), Insert(m, j, now);
    forall q ensures LeaseAt(t, n, x, q) { assert LeaseAt(r, m, x, q); }
  }

  lemma {:induction false} WriteSim(r: Redis, m: State, j: Job, now: int, ttl: int)
    requires Sim(r, m) && Placed(m) && !Exists(r, j.id, now)
    requires j.state == Scheduled || j.state == Pending
    requires j.state == Scheduled ==> j.runAt != ZERO_TIME
    requires ttl == if j.uniqueKey == "" then 0 else EffectiveTTL(j)
    ensures Sim(Write(r, Encode(j), now, ttl), Insert(m, j, now))
  {
    var t, n := Write(r, Encode(j), now, ttl), Insert(m, j, now);
    forall q ensures LRange(t, q) == Ready(n, q) { assert LRange(r, q) == Ready(m, q); }
    forall x ensures SimAt(t, n, x) {
      assert SimAt(r, m, x) && PlacedAt(m, x);
      WriteAt(r, m, j, now, ttl, x);
    }
  }
}
