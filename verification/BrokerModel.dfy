/** The in-memory broker as a state machine (internal/memory/memory.go).

    Every operation is one atomic call under the broker's mutex. A call changes
    the state through a short list of elementary events, each about one job;
    `Events` says which events a call causes and `Apply` what one event does.
    A run of the system is a sequence of calls, so its history is a sequence of
    events, and that is what the run properties talk about. */
module BrokerModel {
  import opened Jobs
  import opened Order
  import Decimal

  datatype UniqueEntry = UniqueEntry(jobID: string, expiresAt: int)

  datatype State = State(
    jobs: map<string, Job>,
    pending: map<string, seq<string>>,
    active: map<string, int>,
    scheduled: map<string, int>,
    retry: map<string, int>,
    dead: seq<string>,
    queues: set<string>,
    unique: map<string, UniqueEntry>,
    processed: int,
    failed: int,
    closed: bool)

  const EMPTY := State(map[], map[], map[], map[], map[], [], {}, map[], 0, 0, false)

  /** A queue's ready list, head first; a queue never written is empty. */
  function Ready(s: State, q: string): seq<string> {
    if q in s.pending then s.pending[q] else []
  }

  // ------------------------------------------------------------------ events

  datatype Event =
    | Inserted(job: Job)
    | Claimed(id: string, worker: string, deadline: int)
    | Acked(id: string, worker: string)
    | Retried(id: string, worker: string, retryAt: int, reason: string)
    | Killed(id: string, worker: string, reason: string)
    | Renewed(id: string, worker: string, deadline: int)
    | Recovered(id: string)
    | Orphaned(id: string)
    | Promoted(id: string)
    | Replayed(id: string)
    | Purged(id: string)
    | Shut

  /** An event and the broker time at which it happened. */
  datatype Stamped = Stamped(now: int, event: Event)

  /** The job an event is about. */
  function Target(e: Event): string {
    if e.Inserted? then e.job.id else if e.Shut? then "" else e.id
  }

  function EffectiveTTL(j: Job): int {
    if j.uniqueTTL <= 0 then HOUR_MS else j.uniqueTTL
  }

  function RemoveFirst(xs: seq<string>, x: string): seq<string> {
    if xs == [] then [] else if xs[0] == x then xs[1..] else [xs[0]] + RemoveFirst(xs[1..], x)
  }

  function OrphanNote(attempt: int): string {
    "orphaned: lease expired after " + Decimal.Signed(attempt) + " attempts"
  }

  function Tail(xs: seq<string>): seq<string> {
    if xs == [] then [] else xs[1..]
  }

  /** What one event does. An event about an unknown job does nothing. */
  function Apply(s: State, st: Stamped): State {
    if st.event.Inserted? then Insert(s, st.event.job, st.now)
    else if st.event.Shut? then s.(closed := true)
    else if st.event.id !in s.jobs then s
    else Change(s, st.event, s.jobs[st.event.id], st.now)
  }

  function Insert(s: State, j: Job, now: int): State {
    s.(jobs := s.jobs[j.id := j],
       scheduled := if j.state == Scheduled then s.scheduled[j.id := j.runAt] else s.scheduled,
       pending := if j.state == Scheduled then s.pending
                  else s.pending[j.queue := Ready(s, j.queue) + [j.id]],
       queues := s.queues + {j.queue},
       unique := if j.uniqueKey == "" then s.unique
                 else s.unique[j.uniqueKey := UniqueEntry(j.id, now + EffectiveTTL(j))])
  }

  /** The event hands out or prolongs a lease. */
  predicate Leases(e: Event) { e.Claimed? || e.Renewed? }

  /** The event ends a lease. */
  predicate Releases(e: Event) { e.Acked? || e.Retried? || e.Killed? || e.Recovered? || e.Orphaned? }

  /** The event dead-letters its job. */
  predicate Buries(e: Event) { e.Killed? || e.Orphaned? }

  /** The event takes its job off the dead-letter list. */
  predicate Exhumes(e: Event) { e.Replayed? || e.Purged? }

  /** The event deletes its job. */
  predicate Removes(e: Event) { e.Acked? || e.Purged? }

  /** The event rewrites its job's ready list. */
  predicate Requeues(e: Event) { e.Claimed? || e.Recovered? || e.Promoted? || e.Replayed? }

  /** A stored job's envelope after an event. */
  function Revise(e: Event, j: Job, now: int): Job {
    match e
    case Claimed(_, worker, deadline) =>
      j.(attempt := j.attempt + 1, state := Active, owner := worker, startedAt := now, deadline := deadline)
    case Retried(_, _, _, reason) => j.(state := Retry, owner := "", lastErr := reason)
    case Killed(_, _, reason) => j.(state := Dead, owner := "", lastErr := reason)
    case Renewed(_, _, deadline) => j.(deadline := deadline)
    case Recovered(_) => j.(state := Pending, owner := "", recoveries := j.recoveries + 1)
    case Orphaned(_) =>
      j.(state := Dead, owner := "", recoveries := j.recoveries + 1, lastErr := OrphanNote(j.attempt))
    case Promoted(_) => j.(state := Pending)
    case Replayed(_) => j.(state := Pending, owner := "", attempt := 0, recoveries := 0)
    case _ => j
  }

  /** The ready list of the job's queue after an event. */
  function Requeue(e: Event, ready: seq<string>): seq<string>
    requires Requeues(e)
  {
    if e.Claimed? then Tail(ready)
    else if e.Recovered? then [e.id] + ready
    else ready + [e.id]
  }

  /** An event on a stored job, whose envelope is `j`. */
  function Change(s: State, e: Event, j: Job, now: int): State
    requires !e.Inserted? && !e.Shut?
  {
    s.(jobs := if Removes(e) then s.jobs - {e.id} else s.jobs[e.id := Revise(e, j, now)],
       pending := if Requeues(e) then s.pending[j.queue := Requeue(e, Ready(s, j.queue))] else s.pending,
       active := if Leases(e) then s.active[e.id := e.deadline]
                 else if Releases(e) then s.active - {e.id} else s.active,
       scheduled := if e.Promoted? then s.scheduled - {e.id} else s.scheduled,
       retry := if e.Retried? then s.retry[e.id := e.retryAt]
                else if e.Promoted? then s.retry - {e.id} else s.retry,
       dead := if Buries(e) then s.dead + [e.id]
               else if Exhumes(e) then RemoveFirst(s.dead, e.id) else s.dead,
       processed := if e.Acked? then s.processed + 1 else s.processed,
       failed := if Buries(e) then s.failed + 1 else s.failed)
  }

  /** `worker` still holds the lease on `id`: the fencing check. */
  predicate Holds(s: State, worker: string, id: string) {
    id in s.jobs && s.jobs[id].state == Active && s.jobs[id].owner == worker
  }

  predicate LeaseExpired(s: State, id: string, now: int) {
    id in s.jobs && id in s.active && s.active[id] <= now
  }

  predicate Due(s: State, id: string, now: int) {
    || (id in s.scheduled && s.scheduled[id] <= now)
    || (id in s.retry && s.retry[id] <= now)
  }

  /** When an event may happen: what its originating call has checked. */
  predicate Enabled(s: State, st: Stamped) {
    var e := st.event;
    match e
    case Inserted(j) =>
      && j.id !in s.jobs && j.owner == "" && j.maxAttempts >= 1
      && (if j.runAt > st.now then j.state == Scheduled else j.state == Pending)
      && (j.uniqueKey in s.unique && j.uniqueKey != "" ==> s.unique[j.uniqueKey].expiresAt <= st.now)
    case Claimed(id, worker, deadline) =>
      && id in s.jobs && worker != "" && deadline > st.now
      && Ready(s, s.jobs[id].queue) != [] && Ready(s, s.jobs[id].queue)[0] == id
    case Acked(id, worker) => Holds(s, worker, id)
    case Retried(id, worker, _, _) => Holds(s, worker, id) && !s.jobs[id].Exhausted()
    case Killed(id, worker, _) => Holds(s, worker, id)
    case Renewed(id, worker, deadline) => Holds(s, worker, id) && deadline > st.now
    case Recovered(id) => LeaseExpired(s, id, st.now) && !s.jobs[id].Exhausted()
    case Orphaned(id) => LeaseExpired(s, id, st.now) && s.jobs[id].Exhausted()
    case Promoted(id) => id in s.jobs && Due(s, id, st.now)
    case Replayed(id) => id in s.jobs && id in s.dead
    case Purged(id) => id in s.jobs && id in s.dead
    case Shut => true
  }

  /** The state after a history. */
  function After(s: State, h: seq<Stamped>): State {
    if h == [] then s else Apply(After(s, h[..|h| - 1]), h[|h| - 1])
  }

  /** Every event of the history was enabled when it happened. */
  predicate Legal(s: State, h: seq<Stamped>) {
    h == [] || (Legal(s, h[..|h| - 1]) && Enabled(After(s, h[..|h| - 1]), h[|h| - 1]))
  }

  // ------------------------------------------------------------------- calls

  datatype Call =
    | Enqueue(job: Job, newId: string)
    | Dequeue(worker: string, queues: seq<string>, vt: int)
    | Ack(worker: string, id: string)
    | Nack(worker: string, id: string, retryAt: int, reason: string)
    | Kill(worker: string, id: string, reason: string)
    | Extend(worker: string, ids: seq<string>, vt: int)
    | Reap(queues: seq<string>, limit: int)
    | Promote(limit: int)
    | RetryDead(ids: seq<string>)
    | PurgeDead(ids: seq<string>)
    | Close

  datatype Reply =
    | Ok
    | Invalid
    | Closed
    | Duplicate(key: string, existing: string)
    | NoJob
    | Got(job: Job)
    | NotFound
    | LeaseLost
    | Lost(ids: seq<string>)
    | Count(n: nat)

  /** The unique key is held by an earlier enqueue. */
  predicate Taken(s: State, key: string, now: int) {
    key != "" && key in s.unique && s.unique[key].expiresAt > now
  }

  /** The envelope `Enqueue` stores: defaults filled in, routed by `runAt`.
      `newId` is the identifier minted when the caller left it empty. */
  function Envelope(j: Job, newId: string, now: int): Job {
    j.(id := if j.id == "" then newId else j.id,
       maxAttempts := if j.maxAttempts <= 0 then DEFAULT_MAX_ATTEMPTS else j.maxAttempts,
       enqueuedAt := if j.enqueuedAt == ZERO_TIME then now else j.enqueuedAt,
       owner := "",
       state := if j.runAt > now then Scheduled else Pending)
  }

  predicate Accepts(s: State, j: Job, now: int) {
    j.queue != "" && j.kind != "" && !s.closed && !Taken(s, j.uniqueKey, now)
  }

  datatype Option<T> = None | Some(value: T)

  /** The head of the first non-empty ready list, in the caller's queue order. */
  function NextReady(s: State, queues: seq<string>): Option<string> {
    if queues == [] then None
    else if Ready(s, queues[0]) == [] then NextReady(s, queues[1..])
    else Some(Ready(s, queues[0])[0])
  }

  /** Active jobs of the wanted queues (all queues if none is named) whose
      lease has run out. */
  function Expired(s: State, queues: seq<string>, now: int): set<string> {
    set id | id in s.active && LeaseExpired(s, id, now) && (queues == [] || s.jobs[id].queue in queues)
  }

  function ReapPicks(s: State, queues: seq<string>, limit: int, now: int): seq<string> {
    Take(Sorted(Expired(s, queues, now), s.active), limit)
  }

  function ReapEvents(s: State, ids: seq<string>, now: int): seq<Stamped> {
    seq(|ids|, i requires 0 <= i < |ids| =>
      Stamped(now, if ids[i] in s.jobs && s.jobs[ids[i]].Exhausted() then Orphaned(ids[i]) else Recovered(ids[i])))
  }

  /** The waiting jobs, delayed and backing off alike, with their due times. */
  function Waiting(s: State): map<string, int> {
    s.scheduled + s.retry
  }

  /** The members of a table of due times that are due. */
  function DueIn(table: map<string, int>, now: int): set<string> {
    set id | id in table && table[id] <= now
  }

  function DueIds(s: State, now: int): set<string> {
    set id | id in Waiting(s) && Waiting(s)[id] <= now
  }

  function PromotePicks(s: State, limit: int, now: int): seq<string> {
    Take(Sorted(DueIds(s, now), Waiting(s)), limit)
  }

  function PromoteEvents(ids: seq<string>, now: int): seq<Stamped> {
    seq(|ids|, i requires 0 <= i < |ids| => Stamped(now, Promoted(ids[i])))
  }

  function Renewals(s: State, worker: string, ids: seq<string>, deadline: int, now: int): seq<Stamped> {
    if ids == [] then [] else
      var n := |ids| - 1;
      Renewals(s, worker, ids[..n], deadline, now)
      + (if Holds(s, worker, ids[n]) then [Stamped(now, Renewed(ids[n], worker, deadline))] else [])
  }

  /** The requested IDs the worker does not hold, in request order. */
  function LostIds(s: State, worker: string, ids: seq<string>): seq<string> {
    if ids == [] then [] else
      var n := |ids| - 1;
      LostIds(s, worker, ids[..n]) + (if Holds(s, worker, ids[n]) then [] else [ids[n]])
  }

  /** Resolves an ID filter to dead jobs; no IDs means every dead job. */
  function SelectDead(s: State, ids: seq<string>): seq<string> {
    if ids == [] then s.dead else KeepDead(s, ids)
  }

  function KeepDead(s: State, ids: seq<string>): seq<string> {
    if ids == [] then [] else
      var n := |ids| - 1;
      KeepDead(s, ids[..n]) + (if ids[n] in s.dead then [ids[n]] else [])
  }

  function ReplayEvents(ids: seq<string>, now: int): seq<Stamped> {
    seq(|ids|, i requires 0 <= i < |ids| => Stamped(now, Replayed(ids[i])))
  }

  /** First occurrences only. */
  function Distinct(xs: seq<string>): seq<string> {
    if xs == [] then [] else
      var n := |xs| - 1;
      Distinct(xs[..n]) + (if xs[n] in xs[..n] then [] else [xs[n]])
  }

  function PurgeEvents(ids: seq<string>, now: int): seq<Stamped> {
    seq(|ids|, i requires 0 <= i < |ids| => Stamped(now, Purged(ids[i])))
  }

  // The events each operation causes, guards included.

  function OnEnqueue(s: State, j: Job, newId: string, now: int): seq<Stamped> {
    if Accepts(s, j, now) then [Stamped(now, Inserted(Envelope(j, newId, now)))] else []
  }

  function OnDequeue(s: State, worker: string, queues: seq<string>, vt: int, now: int): seq<Stamped> {
    if worker == "" || vt <= 0 || s.closed || NextReady(s, queues).None? then []
    else [Stamped(now, Claimed(NextReady(s, queues).value, worker, now + vt))]
  }

  function OnAck(s: State, worker: string, id: string, now: int): seq<Stamped> {
    if s.closed || !Holds(s, worker, id) then [] else [Stamped(now, Acked(id, worker))]
  }

  function OnNack(s: State, worker: string, id: string, retryAt: int, reason: string, now: int): seq<Stamped> {
    if s.closed || !Holds(s, worker, id) then []
    else if s.jobs[id].Exhausted() then [Stamped(now, Killed(id, worker, reason))]
    else [Stamped(now, Retried(id, worker, retryAt, reason))]
  }

  function OnKill(s: State, worker: string, id: string, reason: string, now: int): seq<Stamped> {
    if s.closed || !Holds(s, worker, id) then [] else [Stamped(now, Killed(id, worker, reason))]
  }

  function OnExtend(s: State, worker: string, ids: seq<string>, vt: int, now: int): seq<Stamped> {
    if vt <= 0 || s.closed then [] else Renewals(s, worker, ids, now + vt, now)
  }

  function OnReap(s: State, queues: seq<string>, limit: int, now: int): seq<Stamped> {
    if s.closed then [] else ReapEvents(s, ReapPicks(s, queues, limit, now), now)
  }

  function OnPromote(s: State, limit: int, now: int): seq<Stamped> {
    if s.closed then [] else PromoteEvents(PromotePicks(s, limit, now), now)
  }

  function OnRetryDead(s: State, ids: seq<string>, now: int): seq<Stamped> {
    if s.closed then [] else ReplayEvents(SelectDead(s, ids), now)
  }

  function OnPurgeDead(s: State, ids: seq<string>, now: int): seq<Stamped> {
    if s.closed then [] else PurgeEvents(Distinct(SelectDead(s, ids)), now)
  }

  /** The events a call causes. */
  function Events(s: State, c: Call, now: int): seq<Stamped> {
    match c
    case Enqueue(j, newId) => OnEnqueue(s, j, newId, now)
    case Dequeue(worker, queues, vt) => OnDequeue(s, worker, queues, vt, now)
    case Ack(worker, id) => OnAck(s, worker, id, now)
    case Nack(worker, id, retryAt, reason) => OnNack(s, worker, id, retryAt, reason, now)
    case Kill(worker, id, reason) => OnKill(s, worker, id, reason, now)
    case Extend(worker, ids, vt) => OnExtend(s, worker, ids, vt, now)
    case Reap(queues, limit) => OnReap(s, queues, limit, now)
    case Promote(limit) => OnPromote(s, limit, now)
    case RetryDead(ids) => OnRetryDead(s, ids, now)
    case PurgeDead(ids) => OnPurgeDead(s, ids, now)
    case Close => [Stamped(now, Shut)]
  }

  function Step(s: State, c: Call, now: int): State {
    After(s, Events(s, c, now))
  }

  // What each operation answers.

  function EnqueueReply(s: State, j: Job, now: int): Reply {
    if j.queue == "" || j.kind == "" then Invalid
    else if s.closed then Closed
    else if Taken(s, j.uniqueKey, now) then Duplicate(j.uniqueKey, s.unique[j.uniqueKey].jobID)
    else Ok
  }

  /** The claimed job comes back as the claim left it. */
  function DequeueReply(s: State, worker: string, queues: seq<string>, vt: int, now: int): Reply {
    if worker == "" || vt <= 0 then Invalid
    else if s.closed then Closed
    else if NextReady(s, queues).None? || NextReady(s, queues).value !in s.jobs then NoJob
    else
      var id := NextReady(s, queues).value;
      Got(Revise(Claimed(id, worker, now + vt), s.jobs[id], now))
  }

  /** Ack, Nack and Kill answer with the outcome of the fencing check. */
  function Fence(s: State, worker: string, id: string): Reply {
    if s.closed then Closed
    else if id !in s.jobs then NotFound
    else if !Holds(s, worker, id) then LeaseLost
    else Ok
  }

  function ExtendReply(s: State, worker: string, ids: seq<string>, vt: int): Reply {
    if vt <= 0 then Invalid else if s.closed then Closed else Lost(LostIds(s, worker, ids))
  }

  /** Reap and Promote accept a non-positive limit even when closed. */
  function SweepReply(s: State, limit: int, h: seq<Stamped>): Reply {
    if limit > 0 && s.closed then Closed else Count(|h|)
  }

  function InspectReply(s: State, h: seq<Stamped>): Reply {
    if s.closed then Closed else Count(|h|)
  }
}
