/** What a call about one job does, said of the tables and the arguments alone:
    which job it reaches, what the envelope holds afterwards and where the job is
    then. */
module Outcomes {
  import opened Jobs
  import opened BrokerModel
  import opened Placement
  import opened CallPlacement

  // ------------------------------------------------------------------- enqueue

  /** A job that is not refused is stored with its defaults filled in, waits for its
      time or joins the end of its queue, and takes its unique key, for an hour if
      it asks for no time. */
  lemma {:induction false} EnqueueStores(s: State, j: Job, newId: string, now: int)
    requires !s.closed && j.queue != "" && j.kind != ""
    requires j.uniqueKey == "" || j.uniqueKey !in s.unique || s.unique[j.uniqueKey].expiresAt <= now
    ensures EnqueueReply(s, j, now) == Ok
    ensures var id, late := if j.id == "" then newId else j.id, j.runAt > now;
      Step(s, Enqueue(j, newId), now) == s.(
        jobs := s.jobs[id := j.(id := id, maxAttempts := if j.maxAttempts <= 0 then 25 else j.maxAttempts,
                                enqueuedAt := if j.enqueuedAt == ZERO_TIME then now else j.enqueuedAt,
                                owner := "", state := if late then Scheduled else Pending)],
        scheduled := if late then s.scheduled[id := j.runAt] else s.scheduled,
        pending := if late then s.pending else s.pending[j.queue := Ready(s, j.queue) + [id]],
        queues := s.queues + {j.queue},
        unique := if j.uniqueKey == "" then s.unique
                  else s.unique[j.uniqueKey :=
                    UniqueEntry(id, now + if j.uniqueTTL <= 0 then 3_600_000 else j.uniqueTTL)])
  {
    OneLegal(s, OnEnqueue(s, j, newId, now)[0]);
  }

  /** A refused job leaves the broker as it was. */
  lemma EnqueueRefused(s: State, j: Job, newId: string, now: int)
    ensures var r := EnqueueReply(s, j, now);
      && (r == Invalid <==> j.queue == "" || j.kind == "")
      && (r == Closed <==> j.queue != "" && j.kind != "" && s.closed)
      && (r.Duplicate? ==> r.key == j.uniqueKey && r.key in s.unique && now < s.unique[r.key].expiresAt)
      && (r.Duplicate? ==> r.existing == s.unique[r.key].jobID)
      && (r == Ok || r == Invalid || r == Closed || r.Duplicate?)
      && (r != Ok ==> Step(s, Enqueue(j, newId), now) == s)
  {
  }

  // ------------------------------------------------------------------- dequeue

  /** Queue `i` is the first of `queues` that holds a ready job. */
  predicate FirstReady(s: State, queues: seq<string>, i: nat) {
    i < |queues| && Ready(s, queues[i]) != [] && forall k :: 0 <= k < i ==> Ready(s, queues[k]) == []
  }

  lemma {:induction false} FirstReadyNext(s: State, queues: seq<string>, i: nat)
    requires FirstReady(s, queues, i)
    ensures NextReady(s, queues) == Some(Ready(s, queues[i])[0])
  {
    if i == 0 {
    } else {
      assert queues[1..][i - 1] == queues[i];
      FirstReadyNext(s, queues[1..], i - 1);
    }
  }

  /** From `s` to `t` the head of `q` was handed to `worker` under a lease of length
      `vt` with one attempt more, and `q` keeps the rest. */
  predicate HandsOut(s: State, t: State, r: Reply, q: string, worker: string, vt: int, now: int) {
    && Ready(s, q) != [] && Ready(s, q)[0] in s.jobs
    && var id := Ready(s, q)[0];
    && var j := s.jobs[id].(attempt := s.jobs[id].attempt + 1, state := Active, owner := worker,
                            startedAt := now, deadline := now + vt);
    && r == Got(j)
    && t == s.(jobs := s.jobs[id := j], active := s.active[id := now + vt], pending := s.pending[q := Ready(s, q)[1..]])
  }

  /** A dequeue tries the queues in the order given and hands out the head of the
      first one that holds anything. */
  lemma {:induction false} DequeueClaims(s: State, worker: string, queues: seq<string>, vt: int, now: int, i: nat)
    requires Placed(s) && !s.closed && worker != "" && vt > 0 && FirstReady(s, queues, i)
    ensures var t, r := Step(s, Dequeue(worker, queues, vt), now), DequeueReply(s, worker, queues, vt, now);
      HandsOut(s, t, r, queues[i], worker, vt, now)
  {
    FirstReadyNext(s, queues, i);
    var id := Ready(s, queues[i])[0];
    assert id in Ready(s, queues[i]) && PlacedAt(s, id);
    OneLegal(s, Stamped(now, Claimed(id, worker, now + vt)));
  }

  /** The same, whichever queue is the first. */
  lemma HandsOutFirst(s: State, worker: string, queues: seq<string>, vt: int, now: int)
    requires Placed(s)
    ensures var t, r := After(s, OnDequeue(s, worker, queues, vt, now)), DequeueReply(s, worker, queues, vt, now);
      forall i: nat :: worker != "" && vt > 0 && !s.closed && FirstReady(s, queues, i) ==>
        HandsOut(s, t, r, queues[i], worker, vt, now)
  {
    forall i: nat | worker != "" && vt > 0 && !s.closed && FirstReady(s, queues, i)
      ensures var t, r := After(s, OnDequeue(s, worker, queues, vt, now)), DequeueReply(s, worker, queues, vt, now);
        HandsOut(s, t, r, queues[i], worker, vt, now)
    {
      DequeueClaims(s, worker, queues, vt, now, i);
    }
  }

  /** Otherwise nothing is handed out and nothing changes. */
  lemma {:induction false} DequeueRefused(s: State, worker: string, queues: seq<string>, vt: int, now: int)
    requires worker == "" || vt <= 0 || s.closed || forall q :: q in queues ==> Ready(s, q) == []
    ensures DequeueReply(s, worker, queues, vt, now)
         == if worker == "" || vt <= 0 then Invalid else if s.closed then Closed else NoJob
    ensures Step(s, Dequeue(worker, queues, vt), now) == s
  {
    NextReadyHead(s, queues);
  }

  // ------------------------------------------------------------------- reports

  /** The holder's success deletes the job and counts it. */
  lemma {:induction false} AckDeletes(s: State, worker: string, id: string, now: int)
    requires !s.closed && Holds(s, worker, id)
    ensures Step(s, Ack(worker, id), now)
         == s.(jobs := s.jobs - {id}, active := s.active - {id}, processed := s.processed + 1)
  {
    OneLegal(s, Stamped(now, Acked(id, worker)));
  }

  /** From `s` to `t` job `id` was dead-lettered: the reason is kept, and the job is
      listed last. */
  predicate DeadLetters(s: State, t: State, id: string, reason: string)
    requires id in s.jobs
  {
    t == s.(jobs := s.jobs[id := s.jobs[id].(state := Dead, owner := "", lastErr := reason)],
            active := s.active - {id}, dead := s.dead + [id], failed := s.failed + 1)
  }

  /** From `s` to `t` job `id` failed: it waits until `retryAt` with the reason given, or
      is dead-lettered if its attempts are spent. */
  predicate Fails(s: State, t: State, id: string, retryAt: int, reason: string)
    requires id in s.jobs
  {
    if s.jobs[id].attempt >= s.jobs[id].maxAttempts then DeadLetters(s, t, id, reason)
    else t == s.(jobs := s.jobs[id := s.jobs[id].(state := Retry, owner := "", lastErr := reason)],
                 active := s.active - {id}, retry := s.retry[id := retryAt])
  }

  /** The holder's failure is kept for the time and with the reason it gives. */
  lemma {:induction false} NackFails(s: State, worker: string, id: string, retryAt: int, reason: string, now: int)
    requires !s.closed && Holds(s, worker, id)
    ensures Fails(s, Step(s, Nack(worker, id, retryAt, reason), now), id, retryAt, reason)
  {
    OneLegal(s, OnNack(s, worker, id, retryAt, reason, now)[0]);
  }

  lemma {:induction false} KillBuries(s: State, worker: string, id: string, reason: string, now: int)
    requires !s.closed && Holds(s, worker, id)
    ensures DeadLetters(s, Step(s, Kill(worker, id, reason), now), id, reason)
  {
    OneLegal(s, Stamped(now, Killed(id, worker, reason)));
  }

  predicate IsReport(c: Call) { c.Ack? || c.Nack? || c.Kill? }

  /** A report by anyone else changes nothing, and says whether there is such a job. */
  lemma ReportRefused(s: State, c: Call, now: int)
    requires IsReport(c) && (s.closed || !Holds(s, c.worker, c.id))
    ensures Fence(s, c.worker, c.id) == if s.closed then Closed else if c.id in s.jobs then LeaseLost else NotFound
    ensures Step(s, c, now) == s
  {
  }

  /** Once closed, no call changes anything. */
  lemma ClosedForGood(s: State, c: Call, now: int)
    requires s.closed
    ensures Step(s, c, now) == s
  {
    if c.Close? {
      OneLegal(s, Stamped(now, Shut));
    }
  }
}
