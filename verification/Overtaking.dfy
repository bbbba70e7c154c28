/** Bounded overtaking: only recoveries can get in front of a ready job, and
    only claims from its queue bring it forward. */
module Overtaking {
  import opened BrokerModel
  import opened Placement
  import opened CallPlacement

  predicate OnQueue(s: State, e: Event, q: string) {
    !e.Inserted? && !e.Shut? && e.id in s.jobs && s.jobs[e.id].queue == q
  }

  /** Claims from queue `q` during a history. */
  function ClaimsFrom(s: State, h: seq<Stamped>, q: string): nat {
    if h == [] then 0 else
      var g, e := h[..|h| - 1], h[|h| - 1].event;
      ClaimsFrom(s, g, q) + if e.Claimed? && OnQueue(After(s, g), e, q) then 1 else 0
  }

  /** Recovered jobs pushed onto the head of queue `q` during a history. */
  function PushesOnto(s: State, h: seq<Stamped>, q: string): nat {
    if h == [] then 0 else
      var g, e := h[..|h| - 1], h[|h| - 1].event;
      PushesOnto(s, g, q) + if e.Recovered? && OnQueue(After(s, g), e, q) then 1 else 0
  }

  ghost predicate NeverClaimed(h: seq<Stamped>, id: string) {
    forall i :: 0 <= i < |h| && h[i].event.Claimed? ==> h[i].event.id != id
  }

  /** The job at place `p` of queue `q` is `id`. */
  ghost predicate At(s: State, q: string, p: int, id: string) {
    0 <= p < |Ready(s, q)| && Ready(s, q)[p] == id
  }

  /** How far back an event moves the jobs of queue `q`. */
  function Shift(s: State, e: Event, q: string): int {
    if !OnQueue(s, e, q) then 0 else if e.Recovered? then 1 else if e.Claimed? then -1 else 0
  }

  /** One event moves a ready job that it does not claim by one place at most,
      and only as a claim from, or a recovery onto, its queue. */
  lemma {:induction false} ApplyPosition(s: State, st: Stamped, q: string, p: int, id: string)
    requires Placed(s) && Enabled(s, st) && At(s, q, p, id)
    requires st.event.Claimed? ==> st.event.id != id
    ensures At(Apply(s, st), q, p + Shift(s, st.event, q), id)
  {
    if !st.event.Inserted? && !st.event.Shut? {
      EnabledRipe(s, st);
      ChangedReady(s, st.event, st.now, q);
    }
  }

  lemma Shifted(s: State, h: seq<Stamped>, q: string)
    requires h != []
    ensures var n := |h| - 1;
      PushesOnto(s, h, q) - ClaimsFrom(s, h, q)
        == PushesOnto(s, h[..n], q) - ClaimsFrom(s, h[..n], q) + Shift(After(s, h[..n]), h[n].event, q)
  {
  }

  /** A job's place in its queue is its starting place, plus the recoveries
      pushed onto the queue since, minus the claims made from it since. */
  lemma {:induction false} Position(s: State, h: seq<Stamped>, q: string, p: int, id: string)
    requires Placed(s) && Legal(s, h) && At(s, q, p, id) && NeverClaimed(h, id)
    ensures At(After(s, h), q, p + PushesOnto(s, h, q) - ClaimsFrom(s, h, q), id)
    decreases |h|
  {
    if h == [] {
    } else {
      var n := |h| - 1;
      NeverClaimedYet(h, n, id);
      Position(s, h[..n], q, p, id);
      LegalPlaced(s, h[..n]);
      PositionNext(s, h, q, p, id);
    }
  }

  lemma NeverClaimedYet(h: seq<Stamped>, n: nat, id: string)
    requires n <= |h| && NeverClaimed(h, id)
    ensures NeverClaimed(h[..n], id)
  {
  }

  lemma {:induction false} PositionNext(s: State, h: seq<Stamped>, q: string, p: int, id: string)
    requires h != []
    requires var n := |h| - 1;
      && Placed(After(s, h[..n])) && Enabled(After(s, h[..n]), h[n])
      && (h[n].event.Claimed? ==> h[n].event.id != id)
      && At(After(s, h[..n]), q, p + PushesOnto(s, h[..n], q) - ClaimsFrom(s, h[..n], q), id)
    ensures At(After(s, h), q, p + PushesOnto(s, h, q) - ClaimsFrom(s, h, q), id)
  {
    var n := |h| - 1;
    ApplyPosition(After(s, h[..n]), h[n], q, p + PushesOnto(s, h[..n], q) - ClaimsFrom(s, h[..n], q), id);
    Shifted(s, h, q);
  }

  /** So nothing starves: once more claims than `p` plus the recoveries have
      been made from the queue, the job at place `p` was among them. */
  lemma ClaimedInTurn(s: State, h: seq<Stamped>, q: string, p: nat)
    requires Placed(s) && Legal(s, h) && p < |Ready(s, q)|
    requires ClaimsFrom(s, h, q) > p + PushesOnto(s, h, q)
    ensures exists i :: 0 <= i < |h| && h[i].event.Claimed? && h[i].event.id == Ready(s, q)[p]
  {
    if NeverClaimed(h, Ready(s, q)[p]) {
      Position(s, h, q, p, Ready(s, q)[p]);
    }
  }

  // ------------------------------------------------------- one reap, one queue

  function Reverse(xs: seq<string>): seq<string> {
    if xs == [] then [] else [xs[|xs| - 1]] + Reverse(xs[..|xs| - 1])
  }

  /** `[id]` if the job goes back to queue `q` rather than die. */
  function ReturnedOne(s: State, id: string, q: string): seq<string> {
    if id in s.jobs && s.jobs[id].queue == q && !s.jobs[id].Exhausted() then [id] else []
  }

  /** The jobs among `ids` that go back to queue `q`, in order. */
  function Returned(s: State, ids: seq<string>, q: string): seq<string> {
    if ids == [] then [] else Returned(s, ids[..|ids| - 1], q) + ReturnedOne(s, ids[|ids| - 1], q)
  }

  /** A reap event on a stored job of queue `q` puts it in front, unless it dies. */
  lemma ReapOneReady(t: State, st: Stamped, q: string)
    requires st.event.Recovered? || st.event.Orphaned?
    ensures Ready(Apply(t, st), q)
         == if st.event.Recovered? && OnQueue(t, st.event, q) then [st.event.id] + Ready(t, q) else Ready(t, q)
  {
  }

  lemma {:induction false} RecoverReady(t: State, st: Stamped, q: string, front: seq<string>, rest: seq<string>)
    requires st.event.Recovered? || st.event.Orphaned?
    requires Ready(t, q) == Reverse(front) + rest
    ensures Ready(Apply(t, st), q) ==
      Reverse(front + if st.event.Recovered? && OnQueue(t, st.event, q) then [st.event.id] else []) + rest
  {
    ReapOneReady(t, st, q);
    if st.event.Recovered? && OnQueue(t, st.event, q) {
      ReverseSnoc(front, st.event.id);
    } else {
      assert front + [] == front;
    }
  }

  lemma ReapOneQueue(t: State, st: Stamped, x: string)
    requires st.event.Recovered? || st.event.Orphaned?
    ensures x in Apply(t, st).jobs <==> x in t.jobs
    ensures x in t.jobs ==> Apply(t, st).jobs[x].queue == t.jobs[x].queue
  {
  }

  /** Reaping neither stores nor deletes jobs, nor moves them between queues. */
  lemma {:induction false} ReapsQueues(s: State, ids: seq<string>, now: int, x: string)
    ensures var t := After(s, ReapEvents(s, ids, now));
      (x in t.jobs <==> x in s.jobs) && (x in s.jobs ==> t.jobs[x].queue == s.jobs[x].queue)
  {
    if ids == [] {
    } else {
      var h, n := ReapEvents(s, ids, now), |ids| - 1;
      ReapsQueues(s, ids[..n], now, x);
      assert h[..n] == ReapEvents(s, ids[..n], now);
      ReapOneQueue(After(s, h[..n]), h[n], x);
    }
  }

  /** What the reap event of a job does to queue `q`, in a state `t` on the way. */
  lemma ReapTurnReady(s: State, t: State, ids: seq<string>, now: int, n: nat, q: string, front: seq<string>,
                      rest: seq<string>)
    requires n < |ids| && Ready(t, q) == Reverse(front) + rest && (ids[n] in t.jobs <==> ids[n] in s.jobs)
    requires ids[n] in s.jobs ==> t.jobs[ids[n]].queue == s.jobs[ids[n]].queue
    ensures Ready(Apply(t, ReapEvents(s, ids, now)[n]), q) == Reverse(front + ReturnedOne(s, ids[n], q)) + rest
  {
    RecoverReady(t, ReapEvents(s, ids, now)[n], q, front, rest);
  }

  lemma {:induction false} ReapsReady(s: State, ids: seq<string>, now: int, q: string)
    ensures Ready(After(s, ReapEvents(s, ids, now)), q) == Reverse(Returned(s, ids, q)) + Ready(s, q)
  {
    if ids == [] {
    } else {
      var n := |ids| - 1;
      var g, h := ReapEvents(s, ids[..n], now), ReapEvents(s, ids, now);
      ReapsReady(s, ids[..n], now, q);
      ReapsQueues(s, ids[..n], now, ids[n]);
      assert h[..n] == g;
      ReapTurnReady(s, After(s, g), ids, now, n, q, Returned(s, ids[..n], q), Ready(s, q));
      assert After(s, h) == Apply(After(s, g), h[n]);
      assert Returned(s, ids, q) == Returned(s, ids[..n], q) + ReturnedOne(s, ids[n], q);
    }
  }

  lemma ReverseSnoc(xs: seq<string>, x: string)
    ensures Reverse(xs + [x]) == [x] + Reverse(xs)
  {
    assert (xs + [x])[..|xs|] == xs;
  }

  /** One reap puts the recovered jobs of a queue in front of it, the longest
      expired lease last, and leaves the rest in order. */
  lemma ReapQueue(s: State, queues: seq<string>, limit: int, now: int, q: string)
    requires !s.closed
    ensures Ready(After(s, OnReap(s, queues, limit, now)), q)
         == Reverse(Returned(s, ReapPicks(s, queues, limit, now), q)) + Ready(s, q)
  {
    ReapsReady(s, ReapPicks(s, queues, limit, now), now, q);
  }
}
