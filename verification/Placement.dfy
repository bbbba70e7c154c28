/** The placement invariant: the indexes of the broker never disagree about a
    job, whatever calls are made in whatever order. */
module Placement {
  import opened Jobs
  import opened Order
  import opened BrokerModel

  ghost predicate EnvelopeOk(s: State, id: string, j: Job) {
    && j.id == id
    && j.state != Absent && j.state != Completed
    && j.queue in s.queues
    && j.maxAttempts >= 1
    && (j.owner != "" <==> j.state == Active)
  }

  predicate InPhase(s: State, id: string, p: Phase) {
    id in s.jobs && s.jobs[id].state == p
  }

  /** Each index holds `id` exactly when the stored envelope of `id` names it. */
  ghost predicate PlacedAt(s: State, id: string) {
    && (id in s.jobs ==> EnvelopeOk(s, id, s.jobs[id]))
    && (id in s.active <==> InPhase(s, id, Active))
    && (id in s.active ==> s.active[id] == s.jobs[id].deadline)
    && (id in s.scheduled <==> InPhase(s, id, Scheduled))
    && (id in s.retry <==> InPhase(s, id, Retry))
    && (id in s.dead <==> InPhase(s, id, Dead))
    && (forall q :: id in Ready(s, q) <==> InPhase(s, id, Pending) && s.jobs[id].queue == q)
  }

  /** No list names a job twice. */
  ghost predicate ListsDistinct(s: State) {
    NoDup(s.dead) && forall q :: NoDup(Ready(s, q))
  }

  /** Every job is in exactly one place, exactly once, and it is the place its
      envelope names; no index holds an unknown ID. */
  ghost predicate Placed(s: State) {
    ListsDistinct(s) && forall id :: PlacedAt(s, id)
  }

  lemma NoDupTail(xs: seq<string>)
    requires NoDup(xs) && xs != []
    ensures NoDup(xs[1..])
    ensures forall x :: x in xs[1..] <==> x in xs && x != xs[0]
  {
    forall x ensures x in xs[1..] <==> x in xs && x != xs[0] {
      if x in xs && x != xs[0] {
        var i :| 0 <= i < |xs| && xs[i] == x;
        assert xs[1..][i - 1] == x;
      }
    }
  }

  lemma NoDupAppend(xs: seq<string>, x: string)
    requires NoDup(xs)
    ensures NoDup(xs + [x]) <==> x !in xs
    ensures NoDup([x] + xs) <==> x !in xs
    ensures forall y :: y in xs + [x] <==> y in xs || y == x
    ensures forall y :: y in [x] + xs <==> y in xs || y == x
  {
    var r, l := xs + [x], [x] + xs;
    if x in xs {
      var i :| 0 <= i < |xs| && xs[i] == x;
      assert r[i] == r[|xs|] && l[0] == l[i + 1];
    }
  }

  lemma {:induction false} RemoveFirstMembers(xs: seq<string>, x: string)
    requires NoDup(xs)
    ensures NoDup(RemoveFirst(xs, x))
    ensures forall y :: y in RemoveFirst(xs, x) <==> y in xs && y != x
    ensures |RemoveFirst(xs, x)| == if x in xs then |xs| - 1 else |xs|
  {
    if xs == [] {
    } else {
      NoDupTail(xs);
      RemoveFirstMembers(xs[1..], x);
      if xs[0] != x {
        NoDupAppend(RemoveFirst(xs[1..], x), xs[0]);
      }
    }
  }

  lemma EmptyPlaced()
    ensures Placed(EMPTY)
  {
  }

  /** The indexes say the same about `id` in both states. */
  ghost predicate SameView(s: State, t: State, id: string) {
    && (id in t.jobs <==> id in s.jobs) && (id in s.jobs ==> t.jobs[id] == s.jobs[id])
    && (id in t.active <==> id in s.active) && (id in s.active ==> t.active[id] == s.active[id])
    && (id in t.scheduled <==> id in s.scheduled) && (id in s.scheduled ==> t.scheduled[id] == s.scheduled[id])
    && (id in t.retry <==> id in s.retry) && (id in s.retry ==> t.retry[id] == s.retry[id])
    && (id in t.dead <==> id in s.dead)
    && (forall q :: id in Ready(t, q) <==> id in Ready(s, q))
  }

  lemma SameViewPlaced(s: State, t: State, x: string)
    requires PlacedAt(s, x) && SameView(s, t, x) && s.queues <= t.queues
    ensures PlacedAt(t, x)
  {
  }

  /** The phase an event takes its job from. */
  predicate From(e: Event, p: Phase) {
    if e.Claimed? then p == Pending
    else if e.Promoted? then p == Scheduled || p == Retry
    else if Exhumes(e) then p == Dead
    else p == Active
  }

  /** `e` may change the stored job `e.id`: it finds the job where `From` says. */
  ghost predicate Ripe(s: State, e: Event) {
    && !e.Inserted? && !e.Shut?
    && PlacedAt(s, e.id) && e.id in s.jobs
    && From(e, s.jobs[e.id].state)
    && (e.Claimed? ==> e.worker != "" && Ready(s, s.jobs[e.id].queue) != [] && Ready(s, s.jobs[e.id].queue)[0] == e.id)
  }

  lemma EnabledRipe(s: State, st: Stamped)
    requires Placed(s) && Enabled(s, st) && !st.event.Inserted? && !st.event.Shut?
    ensures Ripe(s, st.event)
  {
    assert PlacedAt(s, st.event.id);
    if st.event.Claimed? {
      assert st.event.id in Ready(s, s.jobs[st.event.id].queue);
    }
  }

  ghost function Changed(s: State, e: Event, now: int): State
    requires Ripe(s, e)
  {
    Change(s, e, s.jobs[e.id], now)
  }

  lemma {:induction false} RequeueMembers(e: Event, ready: seq<string>)
    requires NoDup(ready) && Requeues(e)
    requires if e.Claimed? then ready != [] && ready[0] == e.id else e.id !in ready
    ensures NoDup(Requeue(e, ready))
    ensures forall x :: x != e.id ==> (x in Requeue(e, ready) <==> x in ready)
    ensures e.id in Requeue(e, ready) <==> !e.Claimed?
  {
    if e.Claimed? {
      NoDupTail(ready);
    } else {
      NoDupAppend(ready, e.id);
    }
  }

  /** The ready lists after a change. */
  lemma ChangedReady(s: State, e: Event, now: int, q: string)
    requires Ripe(s, e)
    ensures Ready(Changed(s, e, now), q)
         == if Requeues(e) && q == s.jobs[e.id].queue then Requeue(e, Ready(s, q)) else Ready(s, q)
  {
  }

  /** Only a claim finds its job in a ready list, at the head of its queue's. */
  lemma RipeReady(s: State, e: Event, q: string)
    requires Ripe(s, e)
    ensures e.id in Ready(s, q) <==> e.Claimed? && q == s.jobs[e.id].queue
  {
  }

  /** What a change does to one ready list. */
  lemma {:induction false} ReadyEffect(s: State, e: Event, now: int, q: string)
    requires NoDup(Ready(s, q)) && Ripe(s, e)
    ensures NoDup(Ready(Changed(s, e, now), q))
    ensures forall x :: x != e.id ==> (x in Ready(Changed(s, e, now), q) <==> x in Ready(s, q))
    ensures e.id in Ready(Changed(s, e, now), q) <==>
      (e.Recovered? || e.Promoted? || e.Replayed?) && q == s.jobs[e.id].queue
  {
    ChangedReady(s, e, now, q);
    RipeReady(s, e, q);
    if q == s.jobs[e.id].queue && Requeues(e) {
      RequeueMembers(e, Ready(s, q));
    }
  }

  /** What a change does to the dead-letter list. */
  lemma {:induction false} DeadEffect(s: State, e: Event, now: int)
    requires NoDup(s.dead) && Ripe(s, e)
    ensures NoDup(Changed(s, e, now).dead)
    ensures forall x :: x != e.id ==> (x in Changed(s, e, now).dead <==> x in s.dead)
    ensures e.id in Changed(s, e, now).dead <==> Buries(e)
  {
    if Buries(e) {
      NoDupAppend(s.dead, e.id);
    } else if Exhumes(e) {
      RemoveFirstMembers(s.dead, e.id);
    }
  }

  /** A change leaves every other job alone. */
  lemma {:induction false} ChangeFrame(s: State, e: Event, now: int, x: string)
    requires ListsDistinct(s) && Ripe(s, e) && x != e.id
    ensures SameView(s, Changed(s, e, now), x)
  {
    DeadEffect(s, e, now);
    forall q ensures x in Ready(Changed(s, e, now), q) <==> x in Ready(s, q) {
      ReadyEffect(s, e, now, q);
    }
  }

  /** The phase an event leaves its job in. */
  function To(e: Event): Phase {
    if Leases(e) then Active
    else if e.Retried? then Retry
    else if Buries(e) then Dead
    else if Removes(e) then Absent
    else Pending
  }

  /** The envelope after a change that keeps the job. */
  lemma ChangedEnvelope(s: State, e: Event, now: int)
    requires Ripe(s, e) && !Removes(e)
    ensures var t := Changed(s, e, now);
      && e.id in t.jobs && t.jobs[e.id].state == To(e) && t.jobs[e.id].queue == s.jobs[e.id].queue
      && EnvelopeOk(t, e.id, t.jobs[e.id]) && (Leases(e) ==> t.jobs[e.id].deadline == e.deadline)
  {
  }

  /** The other indexes after a change. */
  lemma ChangedIndexes(s: State, e: Event, now: int)
    requires Ripe(s, e)
    ensures var t := Changed(s, e, now);
      && (Removes(e) ==> e.id !in t.jobs)
      && (e.id in t.active <==> Leases(e)) && (Leases(e) ==> t.active[e.id] == e.deadline)
      && e.id !in t.scheduled && (e.id in t.retry <==> e.Retried?)
  {
  }

  /** The tables say the same about another job after a change. */
  lemma ChangedOther(s: State, e: Event, now: int, x: string)
    requires Ripe(s, e) && x != e.id
    ensures var t := Changed(s, e, now);
      && (x in t.jobs <==> x in s.jobs) && (x in s.jobs ==> t.jobs[x] == s.jobs[x])
      && (x in t.active <==> x in s.active) && (x in s.active ==> t.active[x] == s.active[x])
      && (x in t.scheduled <==> x in s.scheduled) && (x in s.scheduled ==> t.scheduled[x] == s.scheduled[x])
      && (x in t.retry <==> x in s.retry) && (x in s.retry ==> t.retry[x] == s.retry[x])
  {
  }

  /** A change moves its own job to the place its new envelope names. */
  lemma {:induction false} ChangeTarget(s: State, e: Event, now: int)
    requires ListsDistinct(s) && Ripe(s, e)
    ensures PlacedAt(Changed(s, e, now), e.id)
  {
    var t := Changed(s, e, now);
    if !Removes(e) { ChangedEnvelope(s, e, now); }
    ChangedIndexes(s, e, now);
    DeadEffect(s, e, now);
    forall q ensures e.id in Ready(t, q) <==> InPhase(t, e.id, Pending) && t.jobs[e.id].queue == q {
      ReadyEffect(s, e, now, q);
    }
  }

  lemma {:induction false} ChangePlaced(s: State, e: Event, now: int)
    requires Placed(s) && Ripe(s, e)
    ensures Placed(Changed(s, e, now))
  {
    var t := Changed(s, e, now);
    assert ListsDistinct(t) by {
      DeadEffect(s, e, now);
      forall q ensures NoDup(Ready(t, q)) { ReadyEffect(s, e, now, q); }
    }
    ChangeTarget(s, e, now);
    forall x | x != e.id ensures PlacedAt(t, x) {
      ChangeFrame(s, e, now, x);
      SameViewPlaced(s, t, x);
    }
  }

  lemma {:induction false} InsertFrame(s: State, j: Job, now: int, x: string)
    requires ListsDistinct(s) && x != j.id
    ensures SameView(s, Insert(s, j, now), x)
  {
    NoDupAppend(Ready(s, j.queue), j.id);
  }

  lemma {:induction false} InsertPlaced(s: State, j: Job, now: int)
    requires Placed(s) && j.id !in s.jobs && j.owner == "" && j.maxAttempts >= 1
    requires j.state == Scheduled || j.state == Pending
    ensures Placed(Insert(s, j, now))
  {
    var t := Insert(s, j, now);
    assert PlacedAt(s, j.id);
    NoDupAppend(Ready(s, j.queue), j.id);
    assert forall q :: q != j.queue ==> Ready(t, q) == Ready(s, q);
    assert PlacedAt(t, j.id);
    forall x | x != j.id ensures PlacedAt(t, x) {
      InsertFrame(s, j, now, x);
      SameViewPlaced(s, t, x);
    }
  }

  /** Every enabled event keeps the placement invariant and leaves every job
      but its own alone. */
  lemma {:induction false} ApplyPlaced(s: State, st: Stamped)
    requires Placed(s) && Enabled(s, st)
    ensures Placed(Apply(s, st))
    ensures forall x :: x != Target(st.event) || st.event.Shut? ==> SameView(s, Apply(s, st), x)
  {
    var e := st.event;
    if e.Inserted? {
      InsertPlaced(s, e.job, st.now);
      forall x | x != e.job.id { InsertFrame(s, e.job, st.now, x); }
    } else if !e.Shut? {
      EnabledRipe(s, st);
      ChangePlaced(s, e, st.now);
      forall x | x != e.id { ChangeFrame(s, e, st.now, x); }
    } else {
      ShutPlaced(s);
    }
  }

  lemma {:induction false} ShutPlaced(s: State)
    requires Placed(s)
    ensures Placed(s.(closed := true))
    ensures forall x :: SameView(s, s.(closed := true), x)
  {
    var t := s.(closed := true);
    assert forall q :: Ready(t, q) == Ready(s, q);
    forall x ensures PlacedAt(t, x) { assert PlacedAt(s, x); }
  }
}
