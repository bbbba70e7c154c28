/** One scheduler process (scheduler.go): its loops over the registered entries
    and over the due ticks, run against the broker and the cron table. What it
    does is recorded as actions of the firing protocol, so everything proved of
    runs of that protocol holds of it. */
module Scheduler {
  import opened BrokerModel
  import opened Placement
  import opened CallPlacement
  import opened CronSchedule
  import opened CronStore
  import opened CronProtocol
  import opened TickJobs
  import MemoryBroker

  /** Identifiers the broker may mint: fresh and never repeated. */
  ghost predicate Fresh(newId: nat -> string, s: State, from: nat) {
    && (forall k: nat :: k >= from ==> newId(k) !in s.jobs)
    && (forall j: nat, k: nat :: j != k ==> newId(j) != newId(k))
  }

  /** Registered entries have an ID, a queue and a task type. */
  predicate EntriesOk(entries: map<string, Entry>) {
    forall id :: id in entries ==> id != "" && entries[id].queue != "" && entries[id].kind != ""
  }

  /** The table after the ticks were fired and claimed, first to last; `clock(n)` is
      the process's time when it handles tick `n`. */
  function Advanced(cron: map<string, int>, ticks: seq<Tick>, entries: map<string, Entry>,
                    clock: nat -> int): map<string, int> {
    if ticks == [] then cron else
      var n := |ticks| - 1;
      var before := Advanced(cron, ticks[..n], entries, clock);
      if Fireable(ticks[n], entries, clock(n))
      then before[ticks[n].id := NextOf(ticks[n], entries[ticks[n].id], clock(n)).value]
      else before
  }

  lemma {:induction false} AdvancedOthers(cron: map<string, int>, ticks: seq<Tick>, entries: map<string, Entry>,
                                          clock: nat -> int, id: string)
    requires forall k :: 0 <= k < |ticks| ==> ticks[k].id != id
    ensures id in Advanced(cron, ticks, entries, clock) <==> id in cron
    ensures id in cron ==> Advanced(cron, ticks, entries, clock)[id] == cron[id]
  {
    if ticks == [] {
    } else {
      AdvancedOthers(cron, ticks[..|ticks| - 1], entries, clock, id);
    }
  }

  /** A pass moves the entry of each tick it can fire to its first fire after the time
      of the pass, or after the tick if that is later, and leaves other ticks alone. */
  lemma {:induction false} AdvancedAt(cron: map<string, int>, ticks: seq<Tick>, entries: map<string, Entry>,
                                      clock: nat -> int, k: nat)
    requires k < |ticks| && forall i, j :: 0 <= i < j < |ticks| ==> ticks[i].id != ticks[j].id
    requires ticks[k].id in cron
    ensures var t, after := ticks[k], Advanced(cron, ticks, entries, clock);
      t.id in after &&
      if t.id in entries && NaiveNext(entries[t.id].schedule, Later(clock(k), t.fireAt)).Some?
      then Some(after[t.id]) == NaiveNext(entries[t.id].schedule, Later(clock(k), t.fireAt))
      else after[t.id] == cron[t.id]
  {
    var n := |ticks| - 1;
    if k < n {
      assert forall i :: 0 <= i < n ==> ticks[..n][i] == ticks[i];
      AdvancedAt(cron, ticks[..n], entries, clock, k);
    } else {
      AdvancedOthers(cron, ticks[..n], entries, clock, ticks[n].id);
    }
  }

  function Later(a: int, b: int): int { if a < b then b else a }

  /** The first fire times recorded for entries that have none. */
  function Seeded(cron: map<string, int>, ids: set<string>, entries: map<string, Entry>, clock: int): map<string, int>
    requires ids <= entries.Keys
  {
    cron + map id | id in ids && id !in cron && NaiveNext(entries[id].schedule, clock).Some?
             :: NaiveNext(entries[id].schedule, clock).value
  }

  /** Seeding gives an entry that has none its first fire after the time of the process,
      if it ever fires, and touches no other. */
  lemma SeededAt(cron: map<string, int>, entries: map<string, Entry>, clock: int, id: string)
    ensures var after := Seeded(cron, entries.Keys, entries, clock);
      && (id in cron ==> id in after && after[id] == cron[id])
      && (id !in cron && id in entries && NaiveNext(entries[id].schedule, clock).Some? ==>
            id in after && after[id] == NaiveNext(entries[id].schedule, clock).value)
      && (id in after ==> id in cron || id in entries)
  {
  }

  lemma SeededNext(cron: map<string, int>, ids: set<string>, entries: map<string, Entry>, clock: int, id: string)
    requires ids <= entries.Keys && id in entries && id !in ids
    ensures var was, next := Seeded(cron, ids, entries, clock), NaiveNext(entries[id].schedule, clock);
      Seeded(cron, ids + {id}, entries, clock)
        == if id in was || next.None? then was else was[id := next.value]
  {
  }

  /** Every fireable tick among the first `n` has a job. */
  ghost predicate AllBacked(h: seq<Stamped>, due: seq<Tick>, n: nat, entries: map<string, Entry>, clock: nat -> int) {
    forall k :: 0 <= k < n && k < |due| && Fireable(due[k], entries, clock(k)) ==> Backed(h, due[k])
  }

  lemma AllBackedNext(h: seq<Stamped>, g: seq<Stamped>, due: seq<Tick>, n: nat, entries: map<string, Entry>,
                      clock: nat -> int)
    requires n < |due| && AllBacked(h, due, n, entries, clock)
    requires h <= g && (Fireable(due[n], entries, clock(n)) ==> Backed(g, due[n]))
    ensures AllBacked(g, due, n + 1, entries, clock)
  {
    forall k | 0 <= k < n && Fireable(due[k], entries, clock(k)) ensures Backed(g, due[k]) {
      BackedStays(h, g[|h|..], due[k]);
      assert g == h + g[|h|..];
    }
  }

  lemma AdvancedNext(cron: map<string, int>, due: seq<Tick>, n: nat, entries: map<string, Entry>, clock: nat -> int)
    requires n < |due| && forall j, k :: 0 <= j < k < |due| ==> due[j].id != due[k].id
    ensures var was, t := Advanced(cron, due[..n], entries, clock), due[n];
      && (t.id in was <==> t.id in cron) && (t.id in cron ==> was[t.id] == cron[t.id])
      && Advanced(cron, due[..n + 1], entries, clock)
           == if Fireable(t, entries, clock(n)) then was[t.id := NextOf(t, entries[t.id], clock(n)).value] else was
  {
    AdvancedOthers(cron, due[..n], entries, clock, due[n].id);
    assert due[..n + 1][..n] == due[..n];
  }

  /** The ticks are distinct entries of the table, each at its own tick. */
  ghost predicate Current(cron: map<string, int>, due: seq<Tick>) {
    && (forall k :: 0 <= k < |due| ==> due[k].id in cron && cron[due[k].id] == due[k].fireAt)
    && (forall j, k :: 0 <= j < k < |due| ==> due[j].id != due[k].id)
  }

  lemma SeedStep(run: seq<Action>, id: string, e: Entry, clock: int)
    requires FeasibleRun(run) && id != ""
    ensures var w, v, at := Reach(run), Reach(run + [Action.Seed(id, e, clock)]), NaiveNext(e.schedule, clock);
      && FeasibleRun(run + [Action.Seed(id, e, clock)]) && v.h == w.h
      && v.cron == if Broker(w).closed || id in w.cron || at.None? then w.cron else w.cron[id := at.value]
  {
    RunSnoc(run, Action.Seed(id, e, clock));
  }

  /** From `w` to `v` process `p` has dealt with its first tick, and the broker has
      stored nothing but perhaps job `id`. */
  ghost predicate Handles(w: World, v: World, p: string, id: string)
    requires p in w.local && w.local[p].due != []
  {
    && w.h <= v.h && p in v.local && v.local[p] == Local(w.local[p].due[1..], None)
    && forall x :: x in Broker(v).jobs ==> x in Broker(w).jobs || x == id
  }

  /** A tick that cannot be fired is passed over. */
  lemma SkipRun(run: seq<Action>, p: string, e: Option<Entry>, clock: int, now: int, id: string)
    requires FeasibleRun(run) && id !in Broker(Reach(run)).jobs && ToFire(Reach(run), p)
    requires e.None? || NextOf(Head(Reach(run), p), e.value, clock).None?
    ensures var longer := run + [Fire(p, e, clock, now, id)];
      var w, v := Reach(run), Reach(longer);
      && FeasibleRun(longer) && run <= longer && v.h == w.h && v.cron == w.cron && Handles(w, v, p, id)
  {
    RunSnoc(run, Fire(p, e, clock, now, id));
  }

  lemma DueCurrent(run: seq<Action>, p: string, now: int)
    requires FeasibleRun(run) && !Broker(Reach(run)).closed
    ensures var w, v := Reach(run), Reach(run + [ReadDue(p, now)]);
      && FeasibleRun(run + [ReadDue(p, now)]) && v.h == w.h && v.cron == w.cron
      && Current(w.cron, DueTicks(w.cron, CRON_BATCH, now))
      && p in v.local && v.local[p] == Local(DueTicks(w.cron, CRON_BATCH, now), None)
  {
    RunSnoc(run, ReadDue(p, now));
    DueTicksSoonest(Reach(run).cron, CRON_BATCH, now);
  }

  class Process {
    const name: string
    const entries: map<string, Entry>
    const broker: MemoryBroker.Broker
    const store: Store
    ghost var run: seq<Action>

    ghost predicate Valid()
      reads this, broker, store
    {
      && EntriesOk(entries) && FeasibleRun(run)
      && broker.View() == Broker(Reach(run)) && broker.closed == store.closed
      && store.cron == Reach(run).cron
    }

    constructor (name: string, entries: map<string, Entry>, broker: MemoryBroker.Broker, store: Store,
                 ghost run: seq<Action>)
      requires EntriesOk(entries) && FeasibleRun(run)
      requires broker.View() == Broker(Reach(run)) && broker.closed == store.closed && store.cron == Reach(run).cron
      ensures Valid() && this.name == name && this.entries == entries
      ensures this.broker == broker && this.store == store && this.run == run
    {
      this.name, this.entries, this.broker, this.store, this.run := name, entries, broker, store, run;
    }

    /** Records a first fire time for every entry that has none and leaves
        running schedules alone; a closed store stops it. */
    method SeedSchedules(clock: int) returns (ok: bool)
      requires Valid()
      modifies this`run, store`cron
      ensures Valid() && (!store.closed ==> ok)
      ensures store.cron == if store.closed then old(store.cron)
        else Seeded(old(store.cron), entries.Keys, entries, clock)
    {
      ghost var cron := store.cron;
      var rest := entries.Keys;
      assert Seeded(cron, {}, entries, clock) == cron;
      while rest != {}
        invariant rest <= entries.Keys && Valid()
        invariant store.cron == if store.closed then cron else Seeded(cron, entries.Keys - rest, entries, clock)
      {
        var id :| id in rest;
        ghost var done := entries.Keys - rest;
        rest := rest - {id};
        assert entries.Keys - rest == done + {id};
        SeededNext(cron, done, entries, clock, id);
        ok := Seed(id, clock);
        if !ok {
          return;
        }
      }
      assert entries.Keys - rest == entries.Keys;
      ok := true;
    }

    method Seed(id: string, clock: int) returns (ok: bool)
      requires Valid() && id in entries
      modifies this`run, store`cron
      ensures Valid() && (!store.closed ==> ok)
      ensures store.cron == if store.closed || id in old(store.cron) || NaiveNext(entries[id].schedule, clock).None?
        then old(store.cron) else old(store.cron)[id := NaiveNext(entries[id].schedule, clock).value]
    {
      SeedStep(run, id, entries[id], clock);
      var next := Next(entries[id].schedule, clock);
      ok := true;
      if next.Some? {
        var r := store.ScheduleCronIfAbsent(id, next.value);
        ok := r.Done?;
      }
      run := run + [Action.Seed(id, entries[id], clock)];
    }

    /** A pass that nothing else interleaves with. Every reported tick of a known
        entry that goes on gets a job, and its entry moves to its next fire;
        all other entries stay where they are. `clock` and `now` give the times of
        the process and of the store when it handles each tick. */
    method FireDueSchedules(clock: nat -> int, now: nat -> int, readAt: int, newId: nat -> string)
      requires Valid() && Fresh(newId, broker.View(), 0)
      modifies this`run, broker, store`cron
      ensures Valid() && old(run) <= run
      ensures old(store.closed) ==> store.cron == old(store.cron) && broker.View() == old(broker.View())
      ensures !old(store.closed) ==>
        var due := DueTicks(old(store.cron), 100, readAt);
        && store.cron == Advanced(old(store.cron), due, entries, clock)
        && AllBacked(Reach(run).h, due, |due|, entries, clock)
        && Stocked(old(broker.View()), broker.View(), Pass(due, entries, clock, now, newId), |due|)
    {
      var read := store.DueCron(CRON_BATCH, readAt);
      if !read.Done? {
        return;
      }
      DueCurrent(run, name, readAt);
      run := run + [ReadDue(name, readAt)];
      var due := read.value;
      assert due[0..] == due && due[..|due|] == due;
      FireAll(store.cron, due, clock, now, newId);
    }

    /** The pass has handled the first `n` ticks. */
    ghost predicate Handled(cron: map<string, int>, due: seq<Tick>, n: nat, clock: nat -> int, newId: nat -> string)
      requires n <= |due|
      reads this, broker, store
    {
      && Valid() && !store.closed && Current(cron, due) && Fresh(newId, broker.View(), n)
      && name in Reach(run).local && Reach(run).local[name] == Local(due[n..], None)
      && store.cron == Advanced(cron, due[..n], entries, clock)
      && AllBacked(Reach(run).h, due, n, entries, clock)
    }

    method FireAll(ghost cron: map<string, int>, due: seq<Tick>, clock: nat -> int, now: nat -> int,
                   newId: nat -> string)
      requires Handled(cron, due, 0, clock, newId)
      modifies this`run, broker, store`cron
      ensures Handled(cron, due, |due|, clock, newId) && old(run) <= run
      ensures Stocked(old(broker.View()), broker.View(), Pass(due, entries, clock, now, newId), |due|)
    {
      ghost var s, p := broker.View(), Pass(due, entries, clock, now, newId);
      StockedNone(s, p);
      for i := 0 to |due|
        invariant Handled(cron, due, i, clock, newId) && old(run) <= run
        invariant Stocked(s, broker.View(), p, i)
      {
        AdvancedNext(cron, due, i, entries, clock);
        ghost var h, u := Reach(run).h, broker.View();
        FireOne(due[i], clock(i), now(i), newId(i));
        AllBackedNext(h, Reach(run).h, due, i, entries, clock);
        StockedTurn(s, u, broker.View(), p, i);
      }
    }

    /** Enqueues the tick's job, then claims the tick. */
    method FireOne(t: Tick, clock: int, now: int, id: string)
      requires Valid() && !store.closed && id !in broker.jobs
      requires ToFire(Reach(run), name) && Head(Reach(run), name) == t
      requires t.id in store.cron && store.cron[t.id] == t.fireAt
      modifies this`run, broker, store`cron
      ensures Valid() && old(run) <= run && !store.closed
      ensures Handles(old(Reach(run)), Reach(run), name, id)
      ensures store.cron == if Fireable(t, entries, clock)
        then old(store.cron)[t.id := NextOf(t, entries[t.id], clock).value] else old(store.cron)
      ensures Fireable(t, entries, clock) ==> Backed(Reach(run).h, t)
      ensures Fired(old(broker.View()), broker.View(), t, entries, clock, id, now)
    {
      if t.id !in entries {
        SkipRun(run, name, None, clock, now, id);
        run := run + [Fire(name, None, clock, now, id)];
        return;
      }
      var e := entries[t.id];
      var base := clock;
      if base < t.fireAt {
        base := t.fireAt;
      }
      var next := Next(e.schedule, base);
      if next.None? {
        SkipRun(run, name, Some(e), clock, now, id);
        run := run + [Fire(name, Some(e), clock, now, id)];
        return;
      }
      StoreAndClaim(t, e, next.value, clock, now, id);
    }

    /** Enqueues the tick's job. */
    method StoreJob(t: Tick, e: Entry, id: string, now: int)
      requires Placed(broker.View()) && !broker.closed && e.queue != "" && e.kind != ""
      modifies broker
      ensures broker.View() == After(old(broker.View()), OnEnqueue(old(broker.View()), TickJob(t, e), id, now))
    {
      var reply := broker.Enqueue(TickJob(t, e), id, now);
      if reply != Ok && !reply.Duplicate? {
        // An open broker gives a registered entry no other answer.
        assert false;
      }
    }

    method StoreAndClaim(t: Tick, e: Entry, next: int, clock: int, now: int, id: string)
      requires Valid() && !store.closed && id !in broker.jobs && t.id in entries && e == entries[t.id]
      requires ToFire(Reach(run), name) && Head(Reach(run), name) == t && NextOf(t, e, clock) == Some(next)
      requires t.id in store.cron && store.cron[t.id] == t.fireAt
      modifies this`run, broker, store`cron
      ensures Valid() && old(run) <= run && !store.closed
      ensures Handles(old(Reach(run)), Reach(run), name, id)
      ensures store.cron == old(store.cron)[t.id := next] && Backed(Reach(run).h, t)
      ensures Fired(old(broker.View()), broker.View(), t, entries, clock, id, now)
    {
      TickFired(broker.View(), t, entries, clock, id, now);
      FireClaimRun(run, name, e, clock, now, id);
      StoreJob(t, e, id, now);
      var won := store.ClaimCron(t.id, t.fireAt, next);
      run := run + [Fire(name, Some(e), clock, now, id)] + [Claim(name)];
    }
  }

  /** The same as steps of a run. */
  lemma {:induction false} FireClaimRun(run: seq<Action>, p: string, e: Entry, clock: int, now: int, id: string)
    requires FeasibleRun(run) && id !in Broker(Reach(run)).jobs && ToFire(Reach(run), p) && !Broker(Reach(run)).closed
    requires e.queue != "" && e.kind != "" && NextOf(Head(Reach(run), p), e, clock).Some?
    requires var w := Reach(run); Head(w, p).id in w.cron && w.cron[Head(w, p).id] == Head(w, p).fireAt
    ensures Placed(Broker(Reach(run)))
    ensures var longer := run + [Fire(p, Some(e), clock, now, id)] + [Claim(p)];
      var w, v, t := Reach(run), Reach(longer), Head(Reach(run), p);
      && FeasibleRun(longer) && run <= longer && Handles(w, v, p, id)
      && Broker(v) == After(Broker(w), OnEnqueue(Broker(w), TickJob(t, e), id, now)) && !Broker(v).closed
      && v.cron == w.cron[t.id := NextOf(t, e, clock).value] && Backed(v.h, t)
  {
    var fire := Fire(p, Some(e), clock, now, id);
    RunKeeps(run);
    RunSnoc(run, fire);
    RunSnoc(run + [fire], Claim(p));
    Enqueued(Reach(run), p, e, clock, now, id);
  }

  /** What the enqueue and the claim of a current tick do to the world. */
  lemma {:induction false} Enqueued(w: World, p: string, e: Entry, clock: int, now: int, id: string)
    requires ToFire(w, p) && !Broker(w).closed && e.queue != "" && e.kind != ""
    requires NextOf(Head(w, p), e, clock).Some?
    requires Head(w, p).id in w.cron && w.cron[Head(w, p).id] == Head(w, p).fireAt
    ensures var t, next := Head(w, p), NextOf(Head(w, p), e, clock).value;
      var g := OnEnqueue(Broker(w), TickJob(t, e), id, now);
      var v := DoClaim(DoFire(w, p, Some(e), clock, now, id), p);
      && Broker(v) == After(Broker(w), g) && !Broker(v).closed
      && v.cron == w.cron[t.id := next] && Backed(v.h, t) && Handles(w, v, p, id)
  {
    var t := Head(w, p);
    var g := OnEnqueue(Broker(w), TickJob(t, e), id, now);
    AfterConcat(EMPTY, w.h, g);
    if g != [] { OneLegal(Broker(w), g[0]); }
    EnqueueBacks(w.h, t, e, id, now);
  }
}
