/** The delivery contract over whole histories: leases are exclusive and fenced,
    no accepted job is lost, and the counters balance. */
module Delivery {
  import opened Jobs
  import opened Order
  import opened BrokerModel
  import opened Placement
  import opened CallPlacement

  // ------------------------------------------------------------------ fencing

  /** The worker of the latest claim of `id` with no release since. */
  function Holder(h: seq<Stamped>, id: string): Option<string> {
    if h == [] then None else
      var e := h[|h| - 1].event;
      if e.Claimed? && e.id == id then Some(e.worker)
      else if Releases(e) && e.id == id then None
      else Holder(h[..|h| - 1], id)
  }

  /** The broker's owner field is exactly that worker. */
  lemma {:induction false} HolderIsOwner(h: seq<Stamped>, id: string)
    requires Legal(EMPTY, h)
    ensures var s := After(EMPTY, h);
      Holder(h, id) == if InPhase(s, id, Active) then Some(s.jobs[id].owner) else None
    decreases |h|
  {
    if h == [] {
    } else {
      var n := |h| - 1;
      var s := After(EMPTY, h[..n]);
      HolderIsOwner(h[..n], id);
      EmptyPlaced();
      LegalPlaced(EMPTY, h[..n]);
      ApplyPlaced(s, h[n]);
      if Target(h[n].event) == id && !h[n].event.Shut? {
        TargetOwner(s, h[n]);
      } else {
        assert SameView(s, After(EMPTY, h), id);
      }
    }
  }

  lemma TargetOwner(s: State, st: Stamped)
    requires Placed(s) && Enabled(s, st) && !st.event.Shut?
    ensures var e, t := st.event, Apply(s, st);
      && (e.Claimed? ==> Holds(t, e.worker, e.id))
      && (Releases(e) ==> !InPhase(t, e.id, Active))
      && (!e.Claimed? && !Releases(e) ==>
           (InPhase(t, Target(e), Active) <==> InPhase(s, Target(e), Active))
           && (InPhase(s, Target(e), Active) ==> t.jobs[Target(e)].owner == s.jobs[Target(e)].owner))
  {
    if !st.event.Inserted? {
      EnabledRipe(s, st);
      if !Removes(st.event) { ChangedEnvelope(s, st.event, st.now); }
    }
  }

  /** Claims and releases of a job strictly alternate, and a report succeeds
      only for the worker of the latest unreleased claim. */
  lemma FencedAt(h: seq<Stamped>, i: nat)
    requires Legal(EMPTY, h) && i < |h|
    ensures var e := h[i].event;
      && (e.Claimed? ==> Holder(h[..i], e.id) == None)
      && (Releases(e) ==> Holder(h[..i], e.id).Some?)
      && (e.Acked? || e.Retried? || e.Killed? || e.Renewed? ==> Holder(h[..i], e.id) == Some(e.worker))
  {
    LegalPrefix(EMPTY, h, i);
    var s := After(EMPTY, h[..i]);
    EmptyPlaced();
    LegalPlaced(EMPTY, h[..i]);
    if h[i].event.Claimed? || Releases(h[i].event) || h[i].event.Renewed? {
      HolderIsOwner(h[..i], h[i].event.id);
      EnabledRipe(s, h[i]);
    }
  }

  // ------------------------------------------------------------------ no loss

  /** Identifiers are minted once: no two enqueues share one. */
  ghost predicate FreshIds(h: seq<Stamped>) {
    forall i, j :: 0 <= i < j < |h| && h[i].event.Inserted? && h[j].event.Inserted? ==>
      h[i].event.job.id != h[j].event.job.id
  }

  ghost predicate WasInserted(h: seq<Stamped>, id: string) {
    exists i :: 0 <= i < |h| && h[i].event.Inserted? && h[i].event.job.id == id
  }

  /** The job was acked, by the worker whose claim was then current. */
  ghost predicate AckedByHolder(h: seq<Stamped>, id: string) {
    exists i :: 0 <= i < |h| && h[i].event.Acked? && h[i].event.id == id
      && Holder(h[..i], id) == Some(h[i].event.worker)
  }

  ghost predicate ClaimedIn(h: seq<Stamped>, id: string) {
    exists i :: 0 <= i < |h| && h[i].event.Claimed? && h[i].event.id == id
  }

  /** The job was purged from the dead-letter list, after at least one claim. */
  ghost predicate PurgedAfterClaim(h: seq<Stamped>, id: string) {
    exists i :: 0 <= i < |h| && h[i].event.Purged? && h[i].event.id == id && ClaimedIn(h[..i], id)
  }

  /** A job can only die after it was handed to a worker. */
  lemma {:induction false} BusyWasClaimed(h: seq<Stamped>, id: string)
    requires Legal(EMPTY, h)
    requires InPhase(After(EMPTY, h), id, Active) || InPhase(After(EMPTY, h), id, Dead)
    ensures ClaimedIn(h, id)
    decreases |h|
  {
    var n := |h| - 1;
    var s := After(EMPTY, h[..n]);
    EmptyPlaced();
    LegalPlaced(EMPTY, h[..n]);
    ApplyPlaced(s, h[n]);
    if h[n].event.Claimed? && h[n].event.id == id {
      assert ClaimedIn(h, id);
    } else {
      if Target(h[n].event) == id && !h[n].event.Shut? && !h[n].event.Inserted? {
        EnabledRipe(s, h[n]);
      } else {
        assert Target(h[n].event) != id || h[n].event.Shut? ==> SameView(s, After(EMPTY, h), id);
      }
      BusyWasClaimed(h[..n], id);
      var i :| 0 <= i < n && h[..n][i].event.Claimed? && h[..n][i].event.id == id;
      assert h[i].event.Claimed? && h[i].event.id == id;
    }
  }

  /** No job whose enqueue succeeded is ever lost: it is still stored, or it was
      completed by the worker holding it, or an operator purged it after it had
      been delivered at least once. */
  lemma {:induction false} NoLoss(h: seq<Stamped>, id: string)
    requires Legal(EMPTY, h) && FreshIds(h) && WasInserted(h, id)
    ensures id in After(EMPTY, h).jobs || AckedByHolder(h, id) || PurgedAfterClaim(h, id)
    decreases |h|
  {
    var n := |h| - 1;
    var g, s := h[..n], After(EMPTY, h[..n]);
    if h[n].event.Inserted? && h[n].event.job.id == id {
      assert id in After(EMPTY, h).jobs;
    } else {
      assert WasInserted(g, id) by {
        var i :| 0 <= i < |h| && h[i].event.Inserted? && h[i].event.job.id == id;
        assert g[i] == h[i];
      }
      NoLoss(g, id);
      if AckedByHolder(g, id) || PurgedAfterClaim(g, id) {
        StillSo(h, n, id);
      } else if id !in After(EMPTY, h).jobs {
        RemovedHow(h, id);
      }
    }
  }

  /** What happened in a prefix happened. */
  lemma StillSo(h: seq<Stamped>, n: nat, id: string)
    requires n <= |h|
    ensures AckedByHolder(h[..n], id) ==> AckedByHolder(h, id)
    ensures PurgedAfterClaim(h[..n], id) ==> PurgedAfterClaim(h, id)
  {
    var g := h[..n];
    assert forall i :: 0 <= i < n ==> g[i] == h[i] && g[..i] == h[..i];
    if AckedByHolder(g, id) {
      var i :| 0 <= i < n && g[i].event.Acked? && g[i].event.id == id && Holder(g[..i], id) == Some(g[i].event.worker);
      assert h[i] == g[i] && h[..i] == g[..i];
    }
    if PurgedAfterClaim(g, id) {
      var i :| 0 <= i < n && g[i].event.Purged? && g[i].event.id == id && ClaimedIn(g[..i], id);
      assert h[i] == g[i] && h[..i] == g[..i];
    }
  }

  /** The only two ways a stored job leaves the broker. */
  lemma RemovedHow(h: seq<Stamped>, id: string)
    requires h != [] && Legal(EMPTY, h)
    requires id in After(EMPTY, h[..|h| - 1]).jobs && id !in After(EMPTY, h).jobs
    ensures AckedByHolder(h, id) || PurgedAfterClaim(h, id)
  {
    var n := |h| - 1;
    var s := After(EMPTY, h[..n]);
    OnlyRemovesDelete(s, h[n], id);
    FencedAt(h, n);
    if h[n].event.Purged? {
      EmptyPlaced();
      LegalPlaced(EMPTY, h[..n]);
      EnabledRipe(s, h[n]);
      BusyWasClaimed(h[..n], id);
    }
  }

  lemma OnlyRemovesDelete(s: State, st: Stamped, id: string)
    requires id in s.jobs && id !in Apply(s, st).jobs
    ensures Removes(st.event) && st.event.id == id
  {
  }

  /** `id` was inserted among the first `i` events. */
  ghost predicate InsertedBy(h: seq<Stamped>, i: nat, id: string) {
    exists k :: 0 <= k < i && k < |h| && h[k].event.Inserted? && h[k].event.job.id == id
  }

  /** An ID is acked at most once. */
  lemma {:induction false} AckedOnce(h: seq<Stamped>, i: nat, j: nat)
    requires Legal(EMPTY, h) && FreshIds(h) && i < j < |h|
    requires h[i].event.Acked? && h[j].event.Acked?
    ensures h[i].event.id != h[j].event.id
  {
    var id := h[i].event.id;
    AckRemoves(h, i);
    StaysGone(h, i + 1, j, id);
    AckRemoves(h, j);
  }

  lemma {:induction false} AckRemoves(h: seq<Stamped>, i: nat)
    requires Legal(EMPTY, h) && i < |h| && h[i].event.Acked?
    ensures InsertedBy(h, i + 1, h[i].event.id)
    ensures h[i].event.id in After(EMPTY, h[..i]).jobs && h[i].event.id !in After(EMPTY, h[..i + 1]).jobs
  {
    LegalPrefix(EMPTY, h, i);
    InsertedBefore(h, i, h[i].event.id);
    assert h[..i + 1][..i] == h[..i];
  }

  lemma {:induction false} InsertedBefore(h: seq<Stamped>, i: nat, id: string)
    requires i <= |h| && id in After(EMPTY, h[..i]).jobs
    ensures InsertedBy(h, i, id)
    decreases i
  {
    var g := h[..i];
    assert g[..i - 1] == h[..i - 1] && g[i - 1] == h[i - 1];
    if !(h[i - 1].event.Inserted? && h[i - 1].event.job.id == id) {
      InsertedBefore(h, i - 1, id);
    }
  }

  lemma OnlyInsertAdds(s: State, st: Stamped, id: string)
    requires id !in s.jobs && id in Apply(s, st).jobs
    ensures st.event.Inserted? && st.event.job.id == id
  {
  }

  /** Once its minted ID is gone, a job does not come back. */
  lemma {:induction false} StaysGone(h: seq<Stamped>, i: nat, j: nat, id: string)
    requires FreshIds(h) && i <= j <= |h| && InsertedBy(h, i, id)
    requires id !in After(EMPTY, h[..i]).jobs
    ensures id !in After(EMPTY, h[..j]).jobs
    decreases j - i
  {
    if i < j {
      assert h[..i + 1][..i] == h[..i];
      if id in After(EMPTY, h[..i + 1]).jobs {
        OnlyInsertAdds(After(EMPTY, h[..i]), h[i], id);
      } else {
        StaysGone(h, i + 1, j, id);
      }
    }
  }

  // ------------------------------------------------------------- conservation

  datatype Tally = Tally(inserted: nat, acked: nat, died: nat, replayed: nat, purged: nat)

  function Count(h: seq<Stamped>): Tally {
    if h == [] then Tally(0, 0, 0, 0, 0) else
      var e, t := h[|h| - 1].event, Count(h[..|h| - 1]);
      if e.Inserted? then t.(inserted := t.inserted + 1)
      else if e.Acked? then t.(acked := t.acked + 1)
      else if Buries(e) then t.(died := t.died + 1)
      else if e.Replayed? then t.(replayed := t.replayed + 1)
      else if e.Purged? then t.(purged := t.purged + 1)
      else t
  }

  lemma MapSize(m: map<string, Job>, id: string, j: Job)
    ensures |m[id := j]| == if id in m then |m| else |m| + 1
    ensures |m - {id}| == if id in m then |m| - 1 else |m|
  {
    var n, d := m[id := j], m - {id};
    assert n.Keys == m.Keys + {id};
    assert d.Keys == m.Keys - {id};
  }

  lemma {:induction false} ChangeCounts(s: State, e: Event, now: int)
    requires Ripe(s, e) && NoDup(s.dead)
    ensures var t := Changed(s, e, now);
      && |t.jobs| == |s.jobs| + (if Removes(e) then -1 else 0)
      && |t.dead| == |s.dead| + (if Buries(e) then 1 else if Exhumes(e) then -1 else 0)
  {
    RemoveFirstMembers(s.dead, e.id);
    MapSize(s.jobs, e.id, Revise(e, s.jobs[e.id], now));
  }

  lemma {:induction false} ApplyCounts(s: State, st: Stamped)
    requires Placed(s) && Enabled(s, st)
    ensures var e, t := st.event, Apply(s, st);
      && |t.jobs| == |s.jobs| + (if e.Inserted? then 1 else if Removes(e) then -1 else 0)
      && |t.dead| == |s.dead| + (if Buries(e) then 1 else if Exhumes(e) then -1 else 0)
      && t.processed == s.processed + (if e.Acked? then 1 else 0)
      && t.failed == s.failed + (if Buries(e) then 1 else 0)
  {
    if st.event.Inserted? {
      MapSize(s.jobs, st.event.job.id, st.event.job);
    } else if !st.event.Shut? {
      EnabledRipe(s, st);
      ChangeCounts(s, st.event, st.now);
    }
  }

  /** Every accepted job is stored, processed or purged; every failure is in the
      dead-letter list, replayed or purged. */
  lemma {:induction false} Conservation(h: seq<Stamped>)
    requires Legal(EMPTY, h)
    ensures var s, t := After(EMPTY, h), Count(h);
      && t.inserted == |s.jobs| + s.processed + t.purged
      && s.failed == |s.dead| + t.replayed + t.purged
      && s.processed == t.acked && s.failed == t.died
    decreases |h|
  {
    if h == [] {
    } else {
      var n := |h| - 1;
      Conservation(h[..n]);
      EmptyPlaced();
      LegalPlaced(EMPTY, h[..n]);
      ApplyCounts(After(EMPTY, h[..n]), h[n]);
    }
  }

  // ----------------------------------------------------------- what is delivered

  /** `j` is still the job `sent`: nothing the producer set has changed. */
  predicate SameWork(sent: Job, j: Job) {
    && j.id == sent.id && j.queue == sent.queue && j.kind == sent.kind && j.payload == sent.payload
    && j.maxAttempts == sent.maxAttempts && j.uniqueKey == sent.uniqueKey && j.uniqueTTL == sent.uniqueTTL
    && j.enqueuedAt == sent.enqueuedAt && j.runAt == sent.runAt
  }

  /** The job last stored under `id`. */
  function Sent(h: seq<Stamped>, id: string): Option<Job> {
    if h == [] then None
    else if h[|h| - 1].event.Inserted? && h[|h| - 1].event.job.id == id then Some(h[|h| - 1].event.job)
    else Sent(h[..|h| - 1], id)
  }

  /** The reason the latest failure of `id` left behind. */
  function LastReason(h: seq<Stamped>, id: string): string {
    if h == [] then "" else
      var n := |h| - 1;
      var e := h[n].event;
      if e.Inserted? && e.job.id == id then e.job.lastErr
      else if (e.Retried? || e.Killed?) && e.id == id then e.reason
      else if e.Orphaned? && e.id == id && id in After(EMPTY, h[..n]).jobs
        then OrphanNote(After(EMPTY, h[..n]).jobs[id].attempt)
      else LastReason(h[..n], id)
  }

  /** Retries, recoveries, promotions and replays hand out the job that was
      enqueued, with the reason of its latest failure. */
  lemma {:induction false} DeliveredIntact(h: seq<Stamped>, id: string)
    requires id in After(EMPTY, h).jobs
    ensures Sent(h, id).Some? && SameWork(Sent(h, id).value, After(EMPTY, h).jobs[id])
    ensures After(EMPTY, h).jobs[id].lastErr == LastReason(h, id)
  {
    var n := |h| - 1;
    if !(h[n].event.Inserted? && h[n].event.job.id == id) {
      StepIntact(After(EMPTY, h[..n]), h[n], id);
      DeliveredIntact(h[..n], id);
    }
  }

  /** The envelope of a job after an event that does not store it anew. */
  lemma JobAfter(s: State, st: Stamped, id: string)
    requires id in Apply(s, st).jobs && !(st.event.Inserted? && st.event.job.id == id)
    ensures id in s.jobs
    ensures Apply(s, st).jobs[id]
         == if st.event.Inserted? || st.event.Shut? || st.event.id != id then s.jobs[id]
            else Revise(st.event, s.jobs[id], st.now)
  {
  }

  lemma ReviseIntact(e: Event, j: Job, now: int)
    ensures SameWork(j, Revise(e, j, now))
    ensures Revise(e, j, now).lastErr
         == if e.Retried? || e.Killed? then e.reason else if e.Orphaned? then OrphanNote(j.attempt) else j.lastErr
  {
  }

  /** What one event leaves behind of a job it does not store anew. */
  lemma StepIntact(s: State, st: Stamped, id: string)
    requires id in Apply(s, st).jobs && !(st.event.Inserted? && st.event.job.id == id)
    ensures id in s.jobs && SameWork(s.jobs[id], Apply(s, st).jobs[id])
    ensures Apply(s, st).jobs[id].lastErr
         == if (st.event.Retried? || st.event.Killed?) && st.event.id == id then st.event.reason
            else if st.event.Orphaned? && st.event.id == id then OrphanNote(s.jobs[id].attempt)
            else s.jobs[id].lastErr
  {
    JobAfter(s, st, id);
    ReviseIntact(st.event, s.jobs[id], st.now);
  }
}
