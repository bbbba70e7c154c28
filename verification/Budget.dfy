/** No job runs for ever: a claim costs an attempt before the handler starts, so
    however its workers behave a job is claimed only so often, and without new
    work or replays the whole broker can only take so many effective steps. */
module Budget {
  import opened Jobs
  import opened BrokerModel
  import opened Placement
  import opened CallPlacement

  /** The attempt accounting of one stored job. */
  predicate InBudget(j: Job) {
    && 0 <= j.recoveries <= j.attempt <= j.maxAttempts
    && (j.state == Active ==> j.recoveries < j.attempt)
    && (j.state == Dead ==> 1 <= j.attempt)
    && (j.state in {Pending, Scheduled, Retry} ==> j.attempt < j.maxAttempts)
  }

  ghost predicate Budgeted(s: State) {
    forall id :: id in s.jobs ==> InBudget(s.jobs[id])
  }

  /** Enqueued envelopes start with nothing spent, as the client builds them. */
  predicate Unspent(e: Event) {
    e.Inserted? ==> e.job.attempt == 0 && e.job.recoveries == 0
  }

  ghost predicate AllUnspent(h: seq<Stamped>) {
    forall i :: 0 <= i < |h| ==> Unspent(h[i].event)
  }

  lemma {:induction false} ApplyBudget(s: State, st: Stamped)
    requires Placed(s) && Enabled(s, st) && Budgeted(s) && Unspent(st.event)
    ensures Budgeted(Apply(s, st))
  {
    var e, t := st.event, Apply(s, st);
    if !e.Inserted? && !e.Shut? {
      EnabledRipe(s, st);
      ReviseBudget(s.jobs[e.id], st, s);
    }
  }

  lemma ReviseBudget(j: Job, st: Stamped, s: State)
    requires Enabled(s, st) && Ripe(s, st.event) && j == s.jobs[st.event.id] && InBudget(j)
    ensures InBudget(Revise(st.event, j, st.now))
  {
  }

  /** In every reachable state no attempt count exceeds its ceiling, and a job
      that is waiting can still be tried. */
  lemma {:induction false} LegalBudget(s: State, h: seq<Stamped>)
    requires Placed(s) && Budgeted(s) && Legal(s, h) && AllUnspent(h)
    ensures Budgeted(After(s, h))
    decreases |h|
  {
    if h == [] {
    } else {
      var n := |h| - 1;
      assert forall i :: 0 <= i < n ==> h[..n][i] == h[i];
      LegalBudget(s, h[..n]);
      LegalPlaced(s, h[..n]);
      ApplyBudget(After(s, h[..n]), h[n]);
    }
  }

  // ---------------------------------------------------------- claims per job

  /** How often `id` was claimed since it was last enqueued or replayed. */
  function ClaimsSince(h: seq<Stamped>, id: string): nat {
    if h == [] then 0 else
      var e, before := h[|h| - 1].event, ClaimsSince(h[..|h| - 1], id);
      if Target(e) != id || e.Shut? then before
      else if e.Claimed? then before + 1
      else if e.Inserted? || e.Replayed? then 0
      else before
  }

  /** The attempt counter is that number, so between replays a job is claimed at
      most `maxAttempts` times, whatever its workers do. */
  lemma {:induction false} ClaimsBounded(h: seq<Stamped>, id: string)
    requires Legal(EMPTY, h) && AllUnspent(h)
    requires id in After(EMPTY, h).jobs
    ensures ClaimsSince(h, id) == After(EMPTY, h).jobs[id].attempt
    ensures ClaimsSince(h, id) <= After(EMPTY, h).jobs[id].maxAttempts
    decreases |h|
  {
    EmptyPlaced();
    LegalBudget(EMPTY, h);
    AttemptCountsClaims(h, id);
  }

  lemma {:induction false} AttemptCountsClaims(h: seq<Stamped>, id: string)
    requires Legal(EMPTY, h) && AllUnspent(h)
    ensures id in After(EMPTY, h).jobs ==> ClaimsSince(h, id) == After(EMPTY, h).jobs[id].attempt
    decreases |h|
  {
    if h == [] {
    } else {
      var n := |h| - 1;
      var s := After(EMPTY, h[..n]);
      assert forall i :: 0 <= i < n ==> h[..n][i] == h[i];
      AttemptCountsClaims(h[..n], id);
      EmptyPlaced();
      LegalPlaced(EMPTY, h[..n]);
      ApplyPlaced(s, h[n]);
      if Target(h[n].event) == id && !h[n].event.Shut? {
        TargetAttempt(s, h[n]);
      } else {
        assert SameView(s, After(EMPTY, h), id);
      }
    }
  }

  lemma TargetAttempt(s: State, st: Stamped)
    requires Placed(s) && Enabled(s, st) && !st.event.Shut?
    ensures var e, t := st.event, Apply(s, st);
      Target(e) in t.jobs ==>
        t.jobs[Target(e)].attempt ==
          if e.Inserted? then e.job.attempt
          else if e.Replayed? then 0
          else if e.Claimed? then s.jobs[e.id].attempt + 1
          else s.jobs[e.id].attempt
    ensures !st.event.Inserted? ==> Target(st.event) in s.jobs
  {
    if !st.event.Inserted? {
      EnabledRipe(s, st);
    }
  }

  // ------------------------------------------------------ recoveries per job

  /** How often `id` was taken back from a worker whose lease ran out since it was
      last enqueued or replayed. */
  function TakenBackSince(h: seq<Stamped>, id: string): nat {
    if h == [] then 0 else
      var e, before := h[|h| - 1].event, TakenBackSince(h[..|h| - 1], id);
      if Target(e) != id || e.Shut? then before
      else if e.Recovered? || e.Orphaned? then before + 1
      else if e.Inserted? || e.Replayed? then 0
      else before
  }

  /** The recovery counter is that number. */
  lemma {:induction false} RecoveriesCounted(h: seq<Stamped>, id: string)
    requires Legal(EMPTY, h) && AllUnspent(h)
    ensures id in After(EMPTY, h).jobs ==> TakenBackSince(h, id) == After(EMPTY, h).jobs[id].recoveries
    decreases |h|
  {
    if h == [] {
    } else {
      var n := |h| - 1;
      var s := After(EMPTY, h[..n]);
      assert forall i :: 0 <= i < n ==> h[..n][i] == h[i];
      RecoveriesCounted(h[..n], id);
      EmptyPlaced();
      LegalPlaced(EMPTY, h[..n]);
      ApplyPlaced(s, h[n]);
      if Target(h[n].event) == id && !h[n].event.Shut? {
        TargetRecoveries(s, h[n]);
      } else {
        assert SameView(s, After(EMPTY, h), id);
      }
    }
  }

  lemma TargetRecoveries(s: State, st: Stamped)
    requires Placed(s) && Enabled(s, st) && !st.event.Shut?
    ensures var e, t := st.event, Apply(s, st);
      Target(e) in t.jobs ==>
        t.jobs[Target(e)].recoveries ==
          if e.Inserted? then e.job.recoveries
          else if e.Replayed? then 0
          else if e.Recovered? || e.Orphaned? then s.jobs[e.id].recoveries + 1
          else s.jobs[e.id].recoveries
    ensures !st.event.Inserted? ==> Target(st.event) in s.jobs
  {
    if !st.event.Inserted? {
      EnabledRipe(s, st);
    }
  }

  // ---------------------------------------------------------------- potential

  function Rank(p: Phase): nat {
    match p
    case Active => 3
    case Scheduled => 2
    case Retry => 2
    case _ => 1
  }

  /** How many effective steps one job can still take. */
  function Weight(j: Job): nat
    requires InBudget(j)
  {
    3 * (j.maxAttempts - j.attempt) + Rank(j.state)
  }

  ghost function Potential(jobs: map<string, Job>): nat
    requires forall id :: id in jobs ==> InBudget(jobs[id])
  {
    if jobs == map[] then 0 else
      var id :| id in jobs;
      Weight(jobs[id]) + Potential(jobs - {id})
  }

  lemma {:induction false} PotentialSplit(jobs: map<string, Job>, id: string)
    requires forall x :: x in jobs ==> InBudget(jobs[x])
    requires id in jobs
    ensures Potential(jobs) == Weight(jobs[id]) + Potential(jobs - {id})
    decreases |jobs|
  {
    var x :| x in jobs && Potential(jobs) == Weight(jobs[x]) + Potential(jobs - {x});
    if x != id {
      PotentialSplit(jobs - {x}, id);
      PotentialSplit(jobs - {id}, x);
      assert jobs - {x} - {id} == jobs - {id} - {x};
    }
  }

  /** The event does something to a job; a renewal only moves a deadline. */
  predicate Effective(e: Event) { !e.Renewed? && !e.Shut? }

  function EffectiveSteps(h: seq<Stamped>): nat {
    if h == [] then 0
    else EffectiveSteps(h[..|h| - 1]) + if Effective(h[|h| - 1].event) then 1 else 0
  }

  /** The history brings in no work: nothing is enqueued and nothing replayed. */
  ghost predicate NoNewWork(h: seq<Stamped>) {
    forall i :: 0 <= i < |h| ==> !h[i].event.Inserted? && !h[i].event.Replayed?
  }

  lemma ReviseWeight(s: State, st: Stamped)
    requires Enabled(s, st) && Ripe(s, st.event) && InBudget(s.jobs[st.event.id])
    requires InBudget(Revise(st.event, s.jobs[st.event.id], st.now))
    requires !st.event.Replayed? && !Removes(st.event)
    ensures Weight(Revise(st.event, s.jobs[st.event.id], st.now))
         <= Weight(s.jobs[st.event.id]) - if Effective(st.event) then 1 else 0
  {
  }

  /** Every effective event uses up some of the potential. */
  lemma {:induction false} ApplyPotential(s: State, st: Stamped)
    requires Placed(s) && Enabled(s, st) && Budgeted(s) && Budgeted(Apply(s, st))
    requires !st.event.Inserted? && !st.event.Replayed?
    ensures Potential(Apply(s, st).jobs) <= Potential(s.jobs) - if Effective(st.event) then 1 else 0
  {
    var e, t := st.event, Apply(s, st);
    if !e.Shut? {
      EnabledRipe(s, st);
      PotentialSplit(s.jobs, e.id);
      if !Removes(e) {
        PotentialSplit(t.jobs, e.id);
        assert t.jobs - {e.id} == s.jobs - {e.id};
        ReviseWeight(s, st);
      }
    }
  }

  /** From any state, a run that brings in no new work takes at most
      `Potential` effective steps: nothing cycles for ever. */
  lemma {:induction false} EffectiveStepsBounded(s: State, h: seq<Stamped>)
    requires Placed(s) && Budgeted(s) && Legal(s, h) && NoNewWork(h)
    ensures Budgeted(After(s, h))
    ensures EffectiveSteps(h) + Potential(After(s, h).jobs) <= Potential(s.jobs)
    decreases |h|
  {
    if h == [] {
    } else {
      var n := |h| - 1;
      assert forall i :: 0 <= i < n ==> h[..n][i] == h[i];
      EffectiveStepsBounded(s, h[..n]);
      LegalPlaced(s, h[..n]);
      ApplyBudget(After(s, h[..n]), h[n]);
      ApplyPotential(After(s, h[..n]), h[n]);
    }
  }
}
