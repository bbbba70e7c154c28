/** Queue statistics agree with a recount of the stored jobs. */
module Census {
  import opened Jobs
  import opened Order
  import opened BrokerModel
  import opened Placement

  datatype QueueStats = QueueStats(queue: string, pending: int, active: int, scheduled: int, retry: int)

  datatype Stats = Stats(queues: map<string, QueueStats>, dead: int, processed: int, failed: int)

  /** The stored jobs of queue `q` in phase `p`. */
  function JobsIn(s: State, q: string, p: Phase): set<string> {
    set id | id in s.jobs && s.jobs[id].queue == q && s.jobs[id].state == p
  }

  function Recount(s: State, q: string): QueueStats {
    QueueStats(q, |JobsIn(s, q, Pending)|, |JobsIn(s, q, Active)|, |JobsIn(s, q, Scheduled)|, |JobsIn(s, q, Retry)|)
  }

  ghost predicate Accurate(s: State, r: Stats) {
    && r.queues.Keys == s.queues
    && (forall q :: q in s.queues ==> r.queues[q] == Recount(s, q))
    && r.dead == |set id | id in s.jobs && s.jobs[id].state == Dead|
    && r.processed == s.processed && r.failed == s.failed
  }

  function Total(qs: QueueStats): int { qs.pending + qs.active + qs.scheduled + qs.retry }

  ghost function SumQueues(table: map<string, QueueStats>, qs: set<string>): int
    requires qs <= table.Keys
  {
    if qs == {} then 0 else
      var q :| q in qs;
      Total(table[q]) + SumQueues(table, qs - {q})
  }

  function Alive(s: State, qs: set<string>): set<string> {
    set id | id in s.jobs && s.jobs[id].queue in qs && s.jobs[id].state != Dead
  }

  lemma DisjointSize(a: set<string>, b: set<string>)
    requires a !! b
    ensures |a + b| == |a| + |b|
  {
  }

  lemma AliveInQueue(s: State, q: string)
    requires Placed(s)
    ensures Total(Recount(s, q)) == |Alive(s, {q})|
  {
    var p, a, d, r := JobsIn(s, q, Pending), JobsIn(s, q, Active), JobsIn(s, q, Scheduled), JobsIn(s, q, Retry);
    FourSizes(p, a, d, r);
    AliveIs(s, q);
  }

  lemma AliveIs(s: State, q: string)
    requires Placed(s)
    ensures Alive(s, {q})
         == JobsIn(s, q, Pending) + JobsIn(s, q, Active) + JobsIn(s, q, Scheduled) + JobsIn(s, q, Retry)
  {
    forall id | id in s.jobs
      ensures s.jobs[id].state in {Pending, Active, Scheduled, Retry, Dead}
    {
      assert PlacedAt(s, id);
    }
  }

  lemma FourSizes(a: set<string>, b: set<string>, c: set<string>, d: set<string>)
    requires a !! b && a !! c && a !! d && b !! c && b !! d && c !! d
    ensures |a + b + c + d| == |a| + |b| + |c| + |d|
  {
    DisjointSize(a + b + c, d);
    DisjointSize(a + b, c);
    DisjointSize(a, b);
  }

  lemma AliveSplit(s: State, qs: set<string>, q: string)
    requires q in qs
    ensures |Alive(s, qs)| == |Alive(s, {q})| + |Alive(s, qs - {q})|
  {
    AliveUnion(s, qs, q);
    DisjointSize(Alive(s, {q}), Alive(s, qs - {q}));
  }

  lemma AliveUnion(s: State, qs: set<string>, q: string)
    requires q in qs
    ensures Alive(s, qs) == Alive(s, {q}) + Alive(s, qs - {q}) && Alive(s, {q}) !! Alive(s, qs - {q})
  {
  }

  lemma {:induction false} SumIsAlive(s: State, table: map<string, QueueStats>, qs: set<string>)
    requires Placed(s) && qs <= table.Keys && forall q :: q in qs ==> table[q] == Recount(s, q)
    ensures SumQueues(table, qs) == |Alive(s, qs)|
    decreases |qs|
  {
    if qs == {} {
      assert Alive(s, qs) == {};
    } else {
      var q :| q in qs && SumQueues(table, qs) == Total(table[q]) + SumQueues(table, qs - {q});
      SumIsAlive(s, table, qs - {q});
      AliveInQueue(s, q);
      AliveSplit(s, qs, q);
    }
  }

  /** Every stored job is counted once: over all queues, or as dead. */
  lemma StatsAddUp(s: State, r: Stats)
    requires Placed(s) && Accurate(s, r)
    ensures SumQueues(r.queues, r.queues.Keys) + r.dead == |s.jobs|
  {
    SumIsAlive(s, r.queues, s.queues);
    AliveOrDead(s);
  }

  lemma AliveOrDead(s: State)
    requires Placed(s)
    ensures |Alive(s, s.queues)| + |set id | id in s.jobs && s.jobs[id].state == Dead| == |s.jobs|
  {
    var alive, buried := Alive(s, s.queues), set id | id in s.jobs && s.jobs[id].state == Dead;
    assert alive !! buried;
    DisjointSize(alive, buried);
    forall id | id in s.jobs ensures s.jobs[id].queue in s.queues { assert PlacedAt(s, id); }
    assert s.jobs.Keys == alive + buried;
  }

  lemma IndexesStored(s: State)
    requires Placed(s)
    ensures s.active.Keys <= s.jobs.Keys && s.scheduled.Keys <= s.jobs.Keys && s.retry.Keys <= s.jobs.Keys
  {
    forall id | id in s.active.Keys + s.scheduled.Keys + s.retry.Keys ensures id in s.jobs { assert PlacedAt(s, id); }
  }

  /** A ready list holds as many IDs as its queue has pending jobs. */
  lemma ReadySize(s: State, q: string)
    requires Placed(s)
    ensures |Ready(s, q)| == |JobsIn(s, q, Pending)|
  {
    NoDupSet(Ready(s, q));
    forall id ensures id in Ready(s, q) <==> id in JobsIn(s, q, Pending) { assert PlacedAt(s, id); }
    assert (set id | id in Ready(s, q)) == JobsIn(s, q, Pending);
  }

  lemma DeadSize(s: State)
    requires Placed(s)
    ensures |s.dead| == |set id | id in s.jobs && s.jobs[id].state == Dead|
  {
    NoDupSet(s.dead);
    forall id ensures id in s.dead <==> InPhase(s, id, Dead) { assert PlacedAt(s, id); }
    assert (set id | id in s.dead) == set id | id in s.jobs && s.jobs[id].state == Dead;
  }

  /** The members of an index that belong to queue `q`. */
  function Filed(s: State, ids: set<string>, q: string): set<string> {
    set id | id in ids && id in s.jobs && s.jobs[id].queue == q
  }

  lemma FiledSize(s: State, q: string)
    requires Placed(s)
    ensures |Filed(s, s.active.Keys, q)| == |JobsIn(s, q, Active)|
    ensures |Filed(s, s.scheduled.Keys, q)| == |JobsIn(s, q, Scheduled)|
    ensures |Filed(s, s.retry.Keys, q)| == |JobsIn(s, q, Retry)|
  {
    forall id ensures
      && (id in s.active <==> InPhase(s, id, Active))
      && (id in s.scheduled <==> InPhase(s, id, Scheduled))
      && (id in s.retry <==> InPhase(s, id, Retry))
    { assert PlacedAt(s, id); }
    assert Filed(s, s.active.Keys, q) == JobsIn(s, q, Active);
    assert Filed(s, s.scheduled.Keys, q) == JobsIn(s, q, Scheduled);
    assert Filed(s, s.retry.Keys, q) == JobsIn(s, q, Retry);
  }

  /** Counting one more ID. */
  lemma FiledNext(s: State, ids: set<string>, id: string, q: string)
    requires id !in ids && id in s.jobs
    ensures |Filed(s, ids + {id}, q)| == |Filed(s, ids, q)| + if s.jobs[id].queue == q then 1 else 0
  {
    if s.jobs[id].queue == q {
      assert Filed(s, ids + {id}, q) == Filed(s, ids, q) + {id};
    } else {
      assert Filed(s, ids + {id}, q) == Filed(s, ids, q);
    }
  }
}
