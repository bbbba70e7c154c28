/** A reap queue by queue, as the Redis broker does it, as one batch. */
module RedisSweep {
  import opened Order
  import opened BrokerModel
  import opened Placement
  import opened CallPlacement
  import opened Overtaking
  import opened Runs
  import opened RedisBroker

  /** The jobs such a reap takes, in order. */
  function Swept(m: State, queues: seq<string>, limit: int, now: int): seq<string> {
    if queues == [] then [] else
      var n := |queues| - 1;
      Swept(m, queues[..n], limit, now) + ReapPicks(m, [queues[n]], limit, now)
  }

  lemma PickOfQueue(m: State, q: string, limit: int, now: int, x: string)
    requires x in ReapPicks(m, [q], limit, now)
    ensures x in Expired(m, [q], now) && x in m.jobs && m.jobs[x].queue == q
  {
    var i :| 0 <= i < |ReapPicks(m, [q], limit, now)| && ReapPicks(m, [q], limit, now)[i] == x;
    assert Sorted(Expired(m, [q], now), m.active)[i] in Expired(m, [q], now);
  }

  /** A job is taken exactly when the reap of its own queue takes it. */
  lemma {:induction false} SweptMember(m: State, queues: seq<string>, limit: int, now: int, x: string)
    ensures x in Swept(m, queues, limit, now) <==>
      x in m.jobs && m.jobs[x].queue in queues && x in ReapPicks(m, [m.jobs[x].queue], limit, now)
  {
    if queues == [] {
    } else {
      var n := |queues| - 1;
      SweptMember(m, queues[..n], limit, now, x);
      assert queues == queues[..n] + [queues[n]];
      if x in ReapPicks(m, [queues[n]], limit, now) { PickOfQueue(m, queues[n], limit, now, x); }
    }
  }

  lemma NoDupConcat(a: seq<string>, b: seq<string>)
    requires NoDup(a) && NoDup(b) && forall x :: x in a ==> x !in b
    ensures NoDup(a + b)
  {
    assert forall i :: 0 <= i < |a| ==> a[i] in a;
    assert forall i :: 0 <= i < |b| ==> b[i] in b;
  }

  lemma {:induction false} SweptOnce(m: State, queues: seq<string>, limit: int, now: int)
    requires NoDup(queues)
    ensures NoDup(Swept(m, queues, limit, now))
  {
    if queues == [] {
    } else {
      var n := |queues| - 1;
      var a, b := Swept(m, queues[..n], limit, now), ReapPicks(m, [queues[n]], limit, now);
      SweptOnce(m, queues[..n], limit, now);
      ReapPicked(m, [queues[n]], limit, now);
      forall x | x in a ensures x !in b {
        SweptMember(m, queues[..n], limit, now, x);
        if x in b { PickOfQueue(m, queues[n], limit, now, x); }
      }
      NoDupConcat(a, b);
    }
  }

  lemma SweptExpired(m: State, queues: seq<string>, limit: int, now: int, x: string)
    requires x in Swept(m, queues, limit, now)
    ensures LeaseExpired(m, x, now)
  {
    SweptMember(m, queues, limit, now, x);
    PickOfQueue(m, m.jobs[x].queue, limit, now, x);
  }

  lemma {:induction false} SweptBatch(m: State, queues: seq<string>, limit: int, now: int)
    requires NoDup(queues)
    ensures Batch(m, ReapEvents(m, Swept(m, queues, limit, now), now))
  {
    var ids := Swept(m, queues, limit, now);
    var h := ReapEvents(m, ids, now);
    SweptOnce(m, queues, limit, now);
    forall i | 0 <= i < |h| ensures Lone(h[i].event) && h[i].event.id == ids[i] && Enabled(m, h[i]) {
      assert ids[i] in ids;
      SweptExpired(m, queues, limit, now, ids[i]);
      ReapEnabled(m, ids, now, i);
    }
  }

  /** Outside the batch nothing changed. */
  lemma Outside(m: State, ids: seq<string>, now: int, x: string)
    requires Placed(m) && Batch(m, ReapEvents(m, ids, now)) && x !in ids
    ensures SameView(m, After(m, ReapEvents(m, ids, now)), x)
  {
    var h := ReapEvents(m, ids, now);
    assert forall i :: 0 <= i < |h| ==> h[i].event.id == ids[i] && ids[i] in ids;
    BatchSpares(m, h, x);
  }

  lemma OnlyShutCloses(m: State, st: Stamped)
    requires !st.event.Shut?
    ensures Apply(m, st).closed == m.closed
  {
  }

  lemma {:induction false} StaysOpen(m: State, ids: seq<string>, now: int)
    ensures After(m, ReapEvents(m, ids, now)).closed == m.closed
  {
    if ids == [] {
    } else {
      var n := |ids| - 1;
      var h := ReapEvents(m, ids, now);
      assert h[..n] == ReapEvents(m, ids[..n], now);
      StaysOpen(m, ids[..n], now);
      OnlyShutCloses(After(m, h[..n]), h[n]);
    }
  }

  /** Reaping other queues does not change what is expired in queue `q`. */
  lemma {:induction false} StillExpired(m: State, ids: seq<string>, now: int, q: string, x: string)
    requires Placed(m) && Batch(m, ReapEvents(m, ids, now))
    requires forall y :: y in ids ==> y in m.jobs && m.jobs[y].queue != q
    ensures var t := After(m, ReapEvents(m, ids, now));
      && (x in Expired(t, [q], now) <==> x in Expired(m, [q], now))
      && (x in Expired(m, [q], now) ==> t.active[x] == m.active[x] && t.jobs[x] == m.jobs[x])
  {
    if x in ids {
      ReapReleases(m, ids, now, x);
    } else {
      Outside(m, ids, now, x);
    }
  }

  lemma {:induction false} SamePicks(m: State, ids: seq<string>, now: int, q: string, limit: int)
    requires Placed(m) && Batch(m, ReapEvents(m, ids, now))
    requires forall y :: y in ids ==> y in m.jobs && m.jobs[y].queue != q
    ensures var t := After(m, ReapEvents(m, ids, now));
      ReapPicks(t, [q], limit, now) == ReapPicks(m, [q], limit, now)
  {
    var t := After(m, ReapEvents(m, ids, now));
    forall x ensures x in Expired(t, [q], now) <==> x in Expired(m, [q], now) { StillExpired(m, ids, now, q, x); }
    assert Expired(t, [q], now) == Expired(m, [q], now);
    forall x | x in Expired(m, [q], now) ensures t.active[x] == m.active[x] { StillExpired(m, ids, now, q, x); }
    SortedAgrees(Expired(m, [q], now), t.active, m.active);
  }

  lemma {:induction false} SameReap(m: State, ids: seq<string>, now: int, q: string, limit: int)
    requires Placed(m) && !m.closed && Batch(m, ReapEvents(m, ids, now))
    requires forall y :: y in ids ==> y in m.jobs && m.jobs[y].queue != q
    ensures OnReap(After(m, ReapEvents(m, ids, now)), [q], limit, now)
         == ReapEvents(m, ReapPicks(m, [q], limit, now), now)
  {
    var t, picks := After(m, ReapEvents(m, ids, now)), ReapPicks(m, [q], limit, now);
    StaysOpen(m, ids, now);
    SamePicks(m, ids, now, q, limit);
    forall x | x in picks ensures x in t.jobs && x in m.jobs && t.jobs[x] == m.jobs[x] {
      PickOfQueue(m, q, limit, now, x);
      StillExpired(m, ids, now, q, x);
    }
    SameEvents(m, t, picks, now);
  }

  lemma SameEvents(m: State, t: State, ids: seq<string>, now: int)
    requires forall x :: x in ids ==> x in t.jobs && x in m.jobs && t.jobs[x] == m.jobs[x]
    ensures ReapEvents(t, ids, now) == ReapEvents(m, ids, now)
  {
    assert forall i :: 0 <= i < |ids| ==> ids[i] in ids;
  }

  lemma EventsConcat(m: State, a: seq<string>, b: seq<string>, now: int)
    ensures ReapEvents(m, a + b, now) == ReapEvents(m, a, now) + ReapEvents(m, b, now)
  {
  }

  lemma NotAmong(queues: seq<string>, n: nat)
    requires NoDup(queues) && n < |queues|
    ensures queues[n] !in queues[..n] && NoDup(queues[..n])
  {
  }

  lemma SweptElsewhere(m: State, queues: seq<string>, limit: int, now: int, q: string)
    requires q !in queues
    ensures forall y :: y in Swept(m, queues, limit, now) ==> y in m.jobs && m.jobs[y].queue != q
  {
    forall y | y in Swept(m, queues, limit, now) ensures y in m.jobs && m.jobs[y].queue != q {
      SweptMember(m, queues, limit, now, y);
    }
  }

  lemma Rejoined(h: seq<Stamped>, a: seq<Stamped>, b: seq<Stamped>)
    ensures (h + a) + b == h + (a + b)
  {
  }

  /** One more queue after the jobs `ids` of others. */
  lemma {:induction false} SweepNext(h: seq<Stamped>, m: State, ids: seq<string>, q: string, limit: int, now: int)
    requires m == After(EMPTY, h) && Placed(m) && !m.closed && Batch(m, ReapEvents(m, ids, now))
    requires forall y :: y in ids ==> y in m.jobs && m.jobs[y].queue != q
    ensures OnReap(After(EMPTY, h + ReapEvents(m, ids, now)), [q], limit, now)
         == ReapEvents(m, ReapPicks(m, [q], limit, now), now)
  {
    AfterConcat(EMPTY, h, ReapEvents(m, ids, now));
    SameReap(m, ids, now, q, limit);
  }

  /** Queue by queue is one batch of the jobs swept. */
  lemma {:induction false} SweepIsBatch(h: seq<Stamped>, queues: seq<string>, limit: int, now: int)
    requires Legal(EMPTY, h) && !After(EMPTY, h).closed && NoDup(queues)
    ensures QueueByQueue(h, queues, limit, now)
         == h + ReapEvents(After(EMPTY, h), Swept(After(EMPTY, h), queues, limit, now), now)
  {
    var m := After(EMPTY, h);
    if queues == [] {
      assert h + [] == h;
    } else {
      var n := |queues| - 1;
      NotAmong(queues, n);
      SweepIsBatch(h, queues[..n], limit, now);
      EmptyPlaced();
      LegalPlaced(EMPTY, h);
      SweptBatch(m, queues[..n], limit, now);
      SweptElsewhere(m, queues[..n], limit, now, queues[n]);
      var ids, more := Swept(m, queues[..n], limit, now), ReapPicks(m, [queues[n]], limit, now);
      SweepNext(h, m, ids, queues[n], limit, now);
      EventsConcat(m, ids, more, now);
      Rejoined(h, ReapEvents(m, ids, now), ReapEvents(m, more, now));
    }
  }

  // ------------------------------------------------------------- which jobs

  /** All of `ids` are expired leases of one queue, or there are none. */
  ghost predicate OneQueue(m: State, ids: set<string>, now: int) {
    exists q :: ids <= Expired(m, [q], now)
  }

  /** The two reaps take the same jobs. */
  ghost predicate SameTaken(m: State, wanted: seq<string>, limit: int, now: int) {
    forall x :: x in Swept(m, wanted, limit, now) <==> x in ReapPicks(m, wanted, limit, now)
  }

  lemma AllPicked(m: State, queues: seq<string>, limit: int, now: int, x: string)
    requires x in Expired(m, queues, now) && |Expired(m, queues, now)| <= limit
    ensures x in ReapPicks(m, queues, limit, now)
  {
    assert x in Sorted(Expired(m, queues, now), m.active);
  }

  lemma PickExpired(m: State, queues: seq<string>, limit: int, now: int, x: string)
    requires x in ReapPicks(m, queues, limit, now)
    ensures x in Expired(m, queues, now)
  {
    var i :| 0 <= i < |ReapPicks(m, queues, limit, now)| && ReapPicks(m, queues, limit, now)[i] == x;
    assert Sorted(Expired(m, queues, now), m.active)[i] in Expired(m, queues, now);
  }

  lemma InOwnQueue(m: State, wanted: seq<string>, now: int, x: string)
    requires wanted != [] && x in Expired(m, wanted, now)
    ensures x in m.jobs && m.jobs[x].queue in wanted && x in Expired(m, [m.jobs[x].queue], now)
    ensures Expired(m, [m.jobs[x].queue], now) <= Expired(m, wanted, now)
  {
  }

  lemma {:induction false} AgreeWhenFew(m: State, wanted: seq<string>, limit: int, now: int)
    requires wanted != [] && |Expired(m, wanted, now)| <= limit
    ensures SameTaken(m, wanted, limit, now)
  {
    forall x ensures x in Swept(m, wanted, limit, now) <==> x in ReapPicks(m, wanted, limit, now) {
      SweptMember(m, wanted, limit, now, x);
      if x in Expired(m, wanted, now) {
        InOwnQueue(m, wanted, now, x);
        SubsetSize(Expired(m, [m.jobs[x].queue], now), Expired(m, wanted, now));
        AllPicked(m, wanted, limit, now, x);
        AllPicked(m, [m.jobs[x].queue], limit, now, x);
      } else {
        if x in ReapPicks(m, wanted, limit, now) { PickExpired(m, wanted, limit, now, x); }
        if x in Swept(m, wanted, limit, now) { PickOfQueue(m, m.jobs[x].queue, limit, now, x); }
      }
    }
  }

  lemma {:induction false} AgreeInOneQueue(m: State, wanted: seq<string>, limit: int, now: int)
    requires wanted != [] && OneQueue(m, Expired(m, wanted, now), now) && Expired(m, wanted, now) != {}
    ensures SameTaken(m, wanted, limit, now)
  {
    var q :| Expired(m, wanted, now) <= Expired(m, [q], now);
    var y :| y in Expired(m, wanted, now);
    InOwnQueue(m, wanted, now, y);
    assert Expired(m, wanted, now) == Expired(m, [q], now);
    forall x ensures x in Swept(m, wanted, limit, now) <==> x in ReapPicks(m, wanted, limit, now) {
      SweptMember(m, wanted, limit, now, x);
      if x in ReapPicks(m, [q], limit, now) { PickOfQueue(m, q, limit, now, x); }
      if x in Swept(m, wanted, limit, now) {
        PickOfQueue(m, m.jobs[x].queue, limit, now, x);
        assert x in Expired(m, wanted, now);
      }
    }
  }

  /** A queue with something expired loses something. */
  lemma FirstOfQueue(m: State, q: string, limit: int, now: int, z: string) returns (w: string)
    requires limit > 0 && z in Expired(m, [q], now)
    ensures w in ReapPicks(m, [q], limit, now)
  {
    assert |Sorted(Expired(m, [q], now), m.active)| > 0;
    w := ReapPicks(m, [q], limit, now)[0];
  }

  /** Same size, one within the other. */
  lemma SameSize(a: seq<string>, b: seq<string>)
    requires NoDup(a) && NoDup(b) && |a| == |b| && forall x :: x in a ==> x in b
    ensures forall x :: x in b ==> x in a
  {
    NoDupSet(a);
    NoDupSet(b);
    var sa, sb := (set x | x in a), (set x | x in b);
    SubsetSize(sa, sb);
    assert sb - sa == {};
    forall x | x in b ensures x in a { assert x in sb && x !in sb - sa; }
  }

  lemma {:induction false} DifferOtherwise(m: State, wanted: seq<string>, limit: int, now: int)
    requires NoDup(wanted) && wanted != [] && limit > 0 && SameTaken(m, wanted, limit, now)
    requires |Expired(m, wanted, now)| > limit
    ensures OneQueue(m, Expired(m, wanted, now), now)
  {
    var all, picks := Expired(m, wanted, now), ReapPicks(m, wanted, limit, now);
    ReapPicked(m, wanted, limit, now);
    var y := LeftOver(m, wanted, limit, now);
    InOwnQueue(m, wanted, now, y);
    var q := m.jobs[y].queue;
    SweptMember(m, wanted, limit, now, y);
    var w := FirstOfQueue(m, q, limit, now, y);
    ReapTakesOldest(m, [q], limit, now, w, y);
    ReapPicked(m, [q], limit, now);
    forall x | x in ReapPicks(m, [q], limit, now) ensures x in picks {
      PickOfQueue(m, q, limit, now, x);
      SweptMember(m, wanted, limit, now, x);
    }
    SameSize(ReapPicks(m, [q], limit, now), picks);
    forall z | z in all ensures z in Expired(m, [q], now) {
      InOwnQueue(m, wanted, now, z);
      var r := m.jobs[z].queue;
      var v := FirstOfQueue(m, r, limit, now, z);
      PickOfQueue(m, r, limit, now, v);
      SweptMember(m, wanted, limit, now, v);
      PickOfQueue(m, q, limit, now, v);
    }
  }

  lemma LeftOver(m: State, queues: seq<string>, limit: int, now: int) returns (y: string)
    requires |Expired(m, queues, now)| > limit > 0
    ensures y in Expired(m, queues, now) && y !in ReapPicks(m, queues, limit, now)
  {
    var sorted := Sorted(Expired(m, queues, now), m.active);
    SortedAscending(Expired(m, queues, now), m.active);
    y := sorted[limit];
    assert y in sorted;
    assert forall i :: 0 <= i < limit ==> sorted[i] != y;
  }

  /** The two reaps take the same jobs exactly when the limit does not bind, or
      everything expired is in one queue. */
  lemma {:induction false} SameTakenIff(m: State, wanted: seq<string>, limit: int, now: int)
    requires NoDup(wanted) && wanted != [] && limit > 0
    ensures SameTaken(m, wanted, limit, now) <==>
      |Expired(m, wanted, now)| <= limit || OneQueue(m, Expired(m, wanted, now), now)
  {
    if |Expired(m, wanted, now)| <= limit {
      AgreeWhenFew(m, wanted, limit, now);
    } else if OneQueue(m, Expired(m, wanted, now), now) {
      AgreeInOneQueue(m, wanted, limit, now);
    } else if SameTaken(m, wanted, limit, now) {
      DifferOtherwise(m, wanted, limit, now);
    }
  }

  // ------------------------------------------------------- what is left behind

  lemma {:induction false} ReturnedMembers(s: State, ids: seq<string>, q: string, x: string)
    ensures x in Returned(s, ids, q) <==> x in ids && x in s.jobs && s.jobs[x].queue == q && !s.jobs[x].Exhausted()
  {
    if ids == [] {
    } else {
      var n := |ids| - 1;
      ReturnedMembers(s, ids[..n], q, x);
      assert ids == ids[..n] + [ids[n]];
    }
  }

  lemma ReturnedSnoc(s: State, ids: seq<string>, x: string, q: string)
    ensures Returned(s, ids + [x], q) == Returned(s, ids, q) + ReturnedOne(s, x, q)
  {
    var more := ids + [x];
    assert more[..|more| - 1] == ids;
  }

  lemma Associates(a: seq<string>, b: seq<string>, c: seq<string>)
    ensures (a + b) + c == a + (b + c)
  {
  }

  lemma {:induction false} ReturnedConcat(s: State, a: seq<string>, b: seq<string>, q: string)
    ensures Returned(s, a + b, q) == Returned(s, a, q) + Returned(s, b, q)
  {
    if b == [] {
      assert a + b == a;
    } else {
      var n := |b| - 1;
      ReturnedConcat(s, a, b[..n], q);
      ReturnedSnoc(s, a + b[..n], b[n], q);
      assert b == b[..n] + [b[n]];
      Associates(a, b[..n], [b[n]]);
      Associates(Returned(s, a, q), Returned(s, b[..n], q), ReturnedOne(s, b[n], q));
    }
  }

  lemma {:induction false} NoneReturned(s: State, ids: seq<string>, q: string)
    requires forall x :: x in ids ==> x in s.jobs && s.jobs[x].queue != q
    ensures Returned(s, ids, q) == []
  {
    if ids == [] {
    } else {
      assert ids[|ids| - 1] in ids;
      NoneReturned(s, ids[..|ids| - 1], q);
    }
  }

  ghost predicate Climbs(xs: seq<string>, at: map<string, int>) {
    (forall x :: x in xs ==> x in at) && Ascending(xs, at)
  }

  lemma {:induction false} ReturnedClimbs(s: State, ids: seq<string>, q: string)
    requires Climbs(ids, s.active)
    ensures Climbs(Returned(s, ids, q), s.active)
  {
    if ids == [] {
    } else {
      var n := |ids| - 1;
      var r := Returned(s, ids[..n], q);
      ReturnedClimbs(s, ids[..n], q);
      forall x | x in r ensures Before(s.active, x, ids[n]) {
        ReturnedMembers(s, ids[..n], q, x);
        var i :| 0 <= i < n && ids[..n][i] == x;
        assert ids[i] == x;
      }
      forall i | 0 <= i < |r| ensures Before(s.active, r[i], ids[n]) { assert r[i] in r; }
    }
  }

  lemma {:induction false} SweptReturned(m: State, queues: seq<string>, limit: int, now: int, q: string)
    requires NoDup(queues)
    ensures Returned(m, Swept(m, queues, limit, now), q)
         == if q in queues then Returned(m, ReapPicks(m, [q], limit, now), q) else []
  {
    if queues == [] {
    } else {
      var n := |queues| - 1;
      var ids, more := Swept(m, queues[..n], limit, now), ReapPicks(m, [queues[n]], limit, now);
      NotAmong(queues, n);
      SweptReturned(m, queues[..n], limit, now, q);
      ReturnedConcat(m, ids, more, q);
      assert q in queues <==> q in queues[..n] || q == queues[n];
      if q != queues[n] { OtherReturned(m, queues[n], limit, now, q); }
    }
  }

  lemma OtherReturned(m: State, r: string, limit: int, now: int, q: string)
    requires q != r
    ensures Returned(m, ReapPicks(m, [r], limit, now), q) == []
  {
    forall x | x in ReapPicks(m, [r], limit, now) ensures x in m.jobs && m.jobs[x].queue != q {
      PickOfQueue(m, r, limit, now, x);
    }
    NoneReturned(m, ReapPicks(m, [r], limit, now), q);
  }

  lemma PicksClimb(m: State, queues: seq<string>, limit: int, now: int)
    ensures Climbs(ReapPicks(m, queues, limit, now), m.active)
  {
    SortedAscending(Expired(m, queues, now), m.active);
    forall x | x in ReapPicks(m, queues, limit, now) ensures x in m.active { PickExpired(m, queues, limit, now, x); }
  }

  lemma SameListing(a: seq<string>, b: seq<string>, at: map<string, int>)
    requires Climbs(a, at) && Climbs(b, at) && forall x :: x in a <==> x in b
    ensures a == b
  {
    var ids := set x | x in a;
    SortedUnique(a, ids, at);
    SortedUnique(b, ids, at);
  }

  /** Taking the same jobs, both put the same ones back in the same order. */
  lemma {:induction false} SameReturned(m: State, wanted: seq<string>, limit: int, now: int, q: string)
    requires NoDup(wanted) && SameTaken(m, wanted, limit, now)
    ensures Returned(m, Swept(m, wanted, limit, now), q) == Returned(m, ReapPicks(m, wanted, limit, now), q)
  {
    var a, b := Swept(m, wanted, limit, now), ReapPicks(m, wanted, limit, now);
    PicksClimb(m, wanted, limit, now);
    ReturnedClimbs(m, b, q);
    SweptReturned(m, wanted, limit, now, q);
    PicksClimb(m, [q], limit, now);
    ReturnedClimbs(m, ReapPicks(m, [q], limit, now), q);
    forall x ensures x in Returned(m, a, q) <==> x in Returned(m, b, q) {
      ReturnedMembers(m, a, q, x);
      ReturnedMembers(m, b, q, x);
    }
    SameListing(Returned(m, a, q), Returned(m, b, q), m.active);
  }

  // --------------------------------------------------------- what each job sees

  /** A reap event has the same effect on its job wherever that job looks the
      same. */
  lemma {:induction false} SameEffect(s: State, t: State, st: Stamped)
    requires st.event.Recovered? || st.event.Orphaned?
    requires ListsDistinct(s) && ListsDistinct(t) && Ripe(s, st.event) && Ripe(t, st.event)
      && SameView(s, t, st.event.id)
    ensures SameView(Apply(s, st), Apply(t, st), st.event.id)
  {
    var e := st.event;
    DeadEffect(s, e, st.now);
    DeadEffect(t, e, st.now);
    forall q ensures e.id in Ready(Apply(s, st), q) <==> e.id in Ready(Apply(t, st), q) {
      ReadyEffect(s, e, st.now, q);
      ReadyEffect(t, e, st.now, q);
    }
  }

  /** In the end each job of a batch looks as its own event alone leaves it. */
  lemma {:induction false} BatchLooks(m: State, ids: seq<string>, now: int, i: nat)
    requires Placed(m) && Batch(m, ReapEvents(m, ids, now)) && i < |ids|
    ensures SameView(Apply(m, ReapEvents(m, ids, now)[i]), After(m, ReapEvents(m, ids, now)), ids[i])
    decreases |ids|
  {
    var h, n := ReapEvents(m, ids, now), |ids| - 1;
    assert h[..n] == ReapEvents(m, ids[..n], now);
    BatchPrefix(m, h);
    BatchLegal(m, h[..n]);
    BatchLegal(m, h);
    if i < n {
      BatchLooks(m, ids[..n], now, i);
      assert h[i].event.id == ids[i] && h[n].event.id == ids[n] && h[i].event.id != h[n].event.id;
      ApplySpares(After(m, h[..n]), h[n], ids[i]);
      SameViewTrans(Apply(m, h[i]), After(m, h[..n]), After(m, h), ids[i]);
    } else {
      BatchSpares(m, h[..n], ids[n]);
      LastLooks(m, After(m, h[..n]), h[n]);
    }
  }

  lemma LastLooks(m: State, t: State, st: Stamped)
    requires st.event.Recovered? || st.event.Orphaned?
    requires Placed(m) && Placed(t) && Enabled(m, st) && Enabled(t, st) && SameView(m, t, st.event.id)
    ensures SameView(Apply(m, st), Apply(t, st), st.event.id)
  {
    EnabledRipe(m, st);
    EnabledRipe(t, st);
    SameEffect(m, t, st);
  }

  lemma SameViewBack(s: State, t: State, u: State, x: string)
    requires SameView(s, t, x) && SameView(s, u, x)
    ensures SameView(t, u, x)
  {
  }

  /** Batches of the same jobs, in whatever order, leave every job alike. */
  lemma {:induction false} SameJobsSameView(m: State, a: seq<string>, b: seq<string>, now: int, x: string)
    requires Placed(m) && Batch(m, ReapEvents(m, a, now)) && Batch(m, ReapEvents(m, b, now))
    requires x in a <==> x in b
    ensures SameView(After(m, ReapEvents(m, a, now)), After(m, ReapEvents(m, b, now)), x)
  {
    var t, u := After(m, ReapEvents(m, a, now)), After(m, ReapEvents(m, b, now));
    if x in a {
      var i :| 0 <= i < |a| && a[i] == x;
      var j :| 0 <= j < |b| && b[j] == x;
      BatchLooks(m, a, now, i);
      BatchLooks(m, b, now, j);
      assert ReapEvents(m, a, now)[i] == ReapEvents(m, b, now)[j];
      SameViewBack(Apply(m, ReapEvents(m, a, now)[i]), t, u, x);
    } else {
      Outside(m, a, now, x);
      Outside(m, b, now, x);
      SameViewBack(m, t, u, x);
    }
  }
}
