/** The job a tick gets (scheduler.go), said of the tables of the broker, for one tick
    and for a whole pass over the due ticks. */
module TickJobs {
  import opened Jobs
  import opened BrokerModel
  import Outcomes
  import opened CronStore
  import opened CronProtocol
  import Decimal

  /** This process can fire the tick: it knows the entry, which goes on. */
  predicate Fireable(t: Tick, entries: map<string, Entry>, clock: int) {
    t.id in entries && NextOf(t, entries[t.id], clock).Some?
  }

  function KeyOf(t: Tick): string { "cron:" + t.id + ":" + Decimal.Signed(t.fireAt) }

  lemma KeyIs(t: Tick)
    ensures TickKey(t) == KeyOf(t)
  {
  }

  /** No enqueue holds the key of the tick at `now`. */
  predicate KeyFree(s: State, t: Tick, now: int) {
    KeyOf(t) !in s.unique || s.unique[KeyOf(t)].expiresAt <= now
  }

  /** Job `id` is the one the tick gets at `now`: the entry's queue, type and payload,
      its budget or 25 attempts, nothing spent, and the key of the tick for five
      minutes. */
  predicate JobOfTick(s: State, t: Tick, e: Entry, id: string, now: int) {
    && id in s.jobs && s.jobs[id].id == id
    && s.jobs[id].queue == e.queue && s.jobs[id].kind == e.kind && s.jobs[id].payload == e.payload
    && s.jobs[id].maxAttempts == (if e.maxAttempts <= 0 then 25 else e.maxAttempts)
    && s.jobs[id].attempt == 0 && s.jobs[id].recoveries == 0
    && s.jobs[id].owner == "" && s.jobs[id].lastErr == "" && s.jobs[id].enqueuedAt == now
    && s.jobs[id].state == (if now < ZERO_TIME then Scheduled else Pending)
    && s.jobs[id].uniqueKey == KeyOf(t)
    && KeyOf(t) in s.unique && s.unique[KeyOf(t)] == UniqueEntry(id, now + 300_000)
  }

  predicate SameJob(s: State, u: State, x: string) {
    (x in u.jobs <==> x in s.jobs) && (x in s.jobs ==> u.jobs[x] == s.jobs[x])
  }

  predicate SameKey(s: State, u: State, k: string) {
    (k in u.unique <==> k in s.unique) && (k in s.unique ==> u.unique[k] == s.unique[k])
  }

  /** From `s` to `u` the tick got job `id`, at the end of the entry's queue, and nothing
      else about jobs, queues and keys changed. A clock before the year 1 would take the
      job's unset time for a later one. */
  ghost predicate Enters(s: State, u: State, t: Tick, e: Entry, id: string, now: int) {
    && JobOfTick(u, t, e, id, now)
    && Ready(u, e.queue) == Ready(s, e.queue) + (if now < ZERO_TIME then [] else [id])
    && (forall q :: q != e.queue ==> Ready(u, q) == Ready(s, q))
    && (forall x :: x != id ==> SameJob(s, u, x))
    && (forall k :: k != KeyOf(t) ==> SameKey(s, u, k))
  }

  /** The tables with the tick's job in them. */
  function Entered(s: State, t: Tick, e: Entry, id: string, now: int): State {
    s.(jobs := s.jobs[id := Job(id, e.queue, e.kind, e.payload, 0, if e.maxAttempts <= 0 then 25 else e.maxAttempts, 0,
                                if now < ZERO_TIME then Scheduled else Pending, "", KeyOf(t), 300_000, "",
                                now, ZERO_TIME, ZERO_TIME, ZERO_TIME)],
       scheduled := if now < ZERO_TIME then s.scheduled[id := ZERO_TIME] else s.scheduled,
       pending := if now < ZERO_TIME then s.pending else s.pending[e.queue := Ready(s, e.queue) + [id]],
       queues := s.queues + {e.queue},
       unique := s.unique[KeyOf(t) := UniqueEntry(id, now + 300_000)])
  }

  lemma {:induction false} EnqueuesTick(s: State, t: Tick, e: Entry, id: string, now: int)
    requires !s.closed && e.queue != "" && e.kind != "" && KeyFree(s, t, now)
    ensures After(s, OnEnqueue(s, TickJob(t, e), id, now)) == Entered(s, t, e, id, now)
  {
    KeyIs(t);
    Outcomes.EnqueueStores(s, TickJob(t, e), id, now);
  }

  lemma EnteredSo(s: State, t: Tick, e: Entry, id: string, now: int)
    ensures Enters(s, Entered(s, t, e, id, now), t, e, id, now)
  {
  }

  /** Enqueuing the job of a tick whose key is free does that. */
  lemma TickEnters(s: State, t: Tick, e: Entry, id: string, now: int)
    requires !s.closed && e.queue != "" && e.kind != "" && KeyFree(s, t, now)
    ensures Enters(s, After(s, OnEnqueue(s, TickJob(t, e), id, now)), t, e, id, now)
  {
    EnqueuesTick(s, t, e, id, now);
    EnteredSo(s, t, e, id, now);
  }

  /** While the key is held the broker refuses it. */
  lemma TickRefused(s: State, t: Tick, e: Entry, id: string, now: int)
    requires !KeyFree(s, t, now)
    ensures After(s, OnEnqueue(s, TickJob(t, e), id, now)) == s
  {
    KeyIs(t);
  }

  /** From `s` to `u` the tick got its job, if it can be fired and its key was free, else
      nothing happened. */
  ghost predicate Fired(s: State, u: State, t: Tick, entries: map<string, Entry>, clock: int, id: string, now: int) {
    if Fireable(t, entries, clock) && KeyFree(s, t, now) then Enters(s, u, t, entries[t.id], id, now) else u == s
  }

  lemma TickFired(s: State, t: Tick, entries: map<string, Entry>, clock: int, id: string, now: int)
    requires !s.closed && Fireable(t, entries, clock) && entries[t.id].queue != "" && entries[t.id].kind != ""
    ensures Fired(s, After(s, OnEnqueue(s, TickJob(t, entries[t.id]), id, now)), t, entries, clock, id, now)
  {
    if KeyFree(s, t, now) {
      TickEnters(s, t, entries[t.id], id, now);
    } else {
      TickRefused(s, t, entries[t.id], id, now);
    }
  }

  // -------------------------------------------------------------------- a pass

  /** A pass: the ticks reported, the entries its process knows, the clocks of the
      process and of the broker at each tick, and the IDs the broker mints. */
  datatype Pass = Pass(due: seq<Tick>, entries: map<string, Entry>, clock: nat -> int, now: nat -> int,
                       newId: nat -> string)
  {
    /** Distinct entries and distinct new IDs. */
    ghost predicate Apart() {
      && (forall j, k :: 0 <= j < k < |due| ==> due[j].id != due[k].id)
      && (forall j: nat, k: nat :: j != k ==> newId(j) != newId(k))
    }
  }

  /** Tick `k` of the pass gets a job: it can be fired and its key was free. */
  predicate Gets(s: State, p: Pass, k: nat) {
    k < |p.due| && Fireable(p.due[k], p.entries, p.clock(k)) && KeyFree(s, p.due[k], p.now(k))
  }

  /** The jobs the first `n` ticks put at the end of queue `q`, in order. */
  function LinedUp(s: State, p: Pass, n: nat, q: string): seq<string> {
    if n == 0 then [] else
      LinedUp(s, p, n - 1, q)
      + (if Gets(s, p, n - 1) && p.entries[p.due[n - 1].id].queue == q && p.now(n - 1) >= ZERO_TIME
         then [p.newId(n - 1)] else [])
  }

  /** From `s` to `u` the first `n` ticks of the pass got their jobs, in order, and the
      broker stored nothing else. */
  ghost predicate Stocked(s: State, u: State, p: Pass, n: nat) {
    && (forall k: nat :: k < n && Gets(s, p, k) ==>
          JobOfTick(u, p.due[k], p.entries[p.due[k].id], p.newId(k), p.now(k)))
    && (forall q :: Ready(u, q) == Ready(s, q) + LinedUp(s, p, n, q))
    && (forall x :: (forall k: nat :: k < n && Gets(s, p, k) ==> p.newId(k) != x) ==> SameJob(s, u, x))
    && (forall key :: (forall k: nat :: k < n && k < |p.due| ==> KeyOf(p.due[k]) != key) ==> SameKey(s, u, key))
  }

  lemma StockedNone(s: State, p: Pass)
    ensures Stocked(s, s, p, 0)
  {
  }

  lemma KeysApart(t: Tick, u: Tick)
    requires t.id != u.id
    ensures KeyOf(t) != KeyOf(u)
  {
    KeyIs(t);
    KeyIs(u);
    if TickKey(t) == TickKey(u) { TickKeyInjective(t, u); }
  }

  /** What the ticks before tick `n` left does not bear on its key. */
  lemma {:induction false} StillFree(s: State, u: State, p: Pass, n: nat)
    requires p.Apart() && n < |p.due| && Stocked(s, u, p, n)
    ensures KeyFree(u, p.due[n], p.now(n)) <==> KeyFree(s, p.due[n], p.now(n))
  {
    forall k: nat | k < n ensures KeyOf(p.due[k]) != KeyOf(p.due[n]) { KeysApart(p.due[k], p.due[n]); }
    assert SameKey(s, u, KeyOf(p.due[n]));
  }

  /** A tick that gets no job. */
  lemma {:induction false} StockedSkip(s: State, u: State, p: Pass, n: nat)
    requires p.Apart() && n < |p.due| && Stocked(s, u, p, n) && !Gets(s, p, n)
    ensures Stocked(s, u, p, n + 1)
  {
    forall q ensures Ready(u, q) == Ready(s, q) + LinedUp(s, p, n + 1, q) {
      assert LinedUp(s, p, n + 1, q) == LinedUp(s, p, n, q);
    }
  }

  lemma JobStays(u: State, v: State, p: Pass, k: nat, n: nat)
    requires p.Apart() && k < n < |p.due| && p.due[k].id in p.entries
    requires JobOfTick(u, p.due[k], p.entries[p.due[k].id], p.newId(k), p.now(k))
    requires SameJob(u, v, p.newId(k)) && SameKey(u, v, KeyOf(p.due[k]))
    ensures JobOfTick(v, p.due[k], p.entries[p.due[k].id], p.newId(k), p.now(k))
  {
  }

  lemma {:induction false} JobsStay(s: State, u: State, v: State, p: Pass, n: nat)
    requires p.Apart() && n < |p.due| && Stocked(s, u, p, n) && Gets(s, p, n)
    requires Enters(u, v, p.due[n], p.entries[p.due[n].id], p.newId(n), p.now(n))
    ensures forall k: nat :: k < n + 1 && Gets(s, p, k) ==>
      JobOfTick(v, p.due[k], p.entries[p.due[k].id], p.newId(k), p.now(k))
  {
    forall k: nat | k < n && Gets(s, p, k)
      ensures JobOfTick(v, p.due[k], p.entries[p.due[k].id], p.newId(k), p.now(k))
    {
      KeysApart(p.due[k], p.due[n]);
      assert p.newId(k) != p.newId(n);
      JobStays(u, v, p, k, n);
    }
  }

  /** A tick that gets one. */
  lemma {:induction false} StockedNext(s: State, u: State, v: State, p: Pass, n: nat)
    requires p.Apart() && n < |p.due| && Stocked(s, u, p, n) && Gets(s, p, n)
    requires Enters(u, v, p.due[n], p.entries[p.due[n].id], p.newId(n), p.now(n))
    ensures Stocked(s, v, p, n + 1)
  {
    JobsStay(s, u, v, p, n);
    forall q ensures Ready(v, q) == Ready(s, q) + LinedUp(s, p, n + 1, q) {
      LineNext(s, u, v, p, n, q);
    }
    forall x | forall k: nat :: k < n + 1 && Gets(s, p, k) ==> p.newId(k) != x ensures SameJob(s, v, x) {
      assert SameJob(s, u, x) && SameJob(u, v, x);
    }
    forall key | forall k: nat :: k < n + 1 && k < |p.due| ==> KeyOf(p.due[k]) != key ensures SameKey(s, v, key) {
      assert SameKey(s, u, key) && SameKey(u, v, key);
    }
  }

  lemma {:induction false} LineNext(s: State, u: State, v: State, p: Pass, n: nat, q: string)
    requires n < |p.due| && Gets(s, p, n) && Ready(u, q) == Ready(s, q) + LinedUp(s, p, n, q)
    requires var e := p.entries[p.due[n].id];
      Ready(v, q) == Ready(u, q) + if q == e.queue && p.now(n) >= ZERO_TIME then [p.newId(n)] else []
    ensures Ready(v, q) == Ready(s, q) + LinedUp(s, p, n + 1, q)
  {
  }

  /** One tick of the pass. */
  lemma StockedTurn(s: State, u: State, v: State, p: Pass, n: nat)
    requires p.Apart() && n < |p.due| && Stocked(s, u, p, n)
    requires Fired(u, v, p.due[n], p.entries, p.clock(n), p.newId(n), p.now(n))
    ensures Stocked(s, v, p, n + 1)
  {
    StillFree(s, u, p, n);
    if Gets(s, p, n) {
      StockedNext(s, u, v, p, n);
    } else {
      StockedSkip(s, u, p, n);
    }
  }
}
