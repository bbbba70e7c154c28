/** What the Redis broker inherits from the reference broker, and exactly where
    the two differ. */
module RedisAgreement {
  import opened Jobs
  import opened Order
  import opened BrokerModel
  import opened Placement
  import opened CallPlacement
  import opened Delivery
  import opened RedisModel
  import opened RedisBroker
  import opened RedisSweep
  import opened Runs

  /** The delivery contract holds of the keyspace: no index entry dangles, and
      every accepted job has a live envelope, or was completed by the worker
      that held it, or was purged after a delivery. */
  lemma RedisDelivery(v: Redis, h: seq<Stamped>, id: string)
    requires Legal(EMPTY, h) && Sim(v, After(EMPTY, h))
    ensures NoDangling(v)
    ensures FreshIds(h) && WasInserted(h, id) ==>
      || (id in v.hashes && v.hashes[id].expiresAt.None?)
      || AckedByHolder(h, id) || PurgedAfterClaim(h, id)
  {
    EmptyPlaced();
    LegalPlaced(EMPTY, h);
    SimNoDangling(v, After(EMPTY, h));
    assert SimAt(v, After(EMPTY, h), id);
    if FreshIds(h) && WasInserted(h, id) {
      NoLoss(h, id);
    }
  }

  // -------------------------------------------------------------------- promote

  /** Each of the first `limit` due delayed jobs is ordered before every due
      retry. */
  ghost predicate DelayedLead(m: State, limit: int, now: int) {
    forall x, y :: x in RangeByScore(m.scheduled, now, limit) && y in DueIn(m.retry, now) ==>
      x in Waiting(m) && Before(Waiting(m), x, y)
  }

  /** Every due delayed job is ordered before every due retry. */
  ghost predicate DelayedAllFirst(m: State, now: int) {
    forall a, b :: a in DueIn(m.scheduled, now) && b in DueIn(m.retry, now) ==> Before(Waiting(m), a, b)
  }

  lemma DueSorted(m: State, now: int)
    requires Placed(m)
    ensures Sorted(DueIn(m.scheduled, now), m.scheduled) == Sorted(DueIn(m.scheduled, now), Waiting(m))
    ensures Sorted(DueIn(m.retry, now), m.retry) == Sorted(DueIn(m.retry, now), Waiting(m))
  {
    DueUnion(m, now);
    SortedAgrees(DueIn(m.scheduled, now), m.scheduled, Waiting(m));
    SortedAgrees(DueIn(m.retry, now), m.retry, Waiting(m));
  }

  lemma TakeApart(p: seq<string>, q: seq<string>, limit: int)
    ensures Take(p, limit) + Take(q, limit - |Take(p, limit)|) == Take(p + q, limit)
  {
  }

  lemma PicksApart(m: State, limit: int, now: int)
    requires Placed(m)
    ensures DelayedFirst(m, limit, now)
         == Take(Sorted(DueIn(m.scheduled, now), Waiting(m)) + Sorted(DueIn(m.retry, now), Waiting(m)), limit)
    ensures RangeByScore(m.scheduled, now, limit) == Take(Sorted(DueIn(m.scheduled, now), Waiting(m)), limit)
  {
    DueSorted(m, now);
    TakeApart(Sorted(DueIn(m.scheduled, now), m.scheduled), Sorted(DueIn(m.retry, now), m.retry), limit);
  }

  /** `xs` lists members of `ids` in order, all of them before the others. */
  ghost predicate Leads(xs: seq<string>, ids: set<string>, at: map<string, int>)
    requires ids <= at.Keys
  {
    && (forall x :: x in xs ==> x in ids) && Ascending(xs, at)
    && forall x, y :: x in xs && y in ids && y !in xs ==> Before(at, x, y)
  }

  /** The members of `ids` that `xs` does not list. */
  function Rest(ids: set<string>, xs: seq<string>): set<string> {
    set x | x in ids && x !in xs
  }

  lemma LeadsAscending(xs: seq<string>, ids: set<string>, at: map<string, int>)
    requires ids <= at.Keys && Leads(xs, ids, at)
    ensures forall x :: x in xs + Sorted(Rest(ids, xs), at) <==> x in ids
    ensures Ascending(xs + Sorted(Rest(ids, xs), at), at)
  {
    var tail := Sorted(Rest(ids, xs), at);
    SortedAscending(Rest(ids, xs), at);
    assert forall i :: 0 <= i < |xs| ==> xs[i] in xs;
    assert forall i :: 0 <= i < |tail| ==> tail[i] in tail;
  }

  /** Such a list is how the sorted listing begins. */
  lemma LeadsSorted(xs: seq<string>, ids: set<string>, at: map<string, int>)
    requires ids <= at.Keys && Leads(xs, ids, at)
    ensures Sorted(ids, at) == xs + Sorted(Rest(ids, xs), at)
  {
    LeadsAscending(xs, ids, at);
    SortedUnique(xs + Sorted(Rest(ids, xs), at), ids, at);
  }

  lemma TakenBefore(a: set<string>, at: map<string, int>, limit: int, x: string, y: string)
    requires a <= at.Keys && x in Take(Sorted(a, at), limit) && y in a && y !in Take(Sorted(a, at), limit)
    ensures x in a && Before(at, x, y)
  {
    var p := Sorted(a, at);
    SortedAscending(a, at);
    var i :| 0 <= i < |Take(p, limit)| && Take(p, limit)[i] == x;
    var j :| 0 <= j < |p| && p[j] == y;
    assert p[i] in p;
    assert forall k :: 0 <= k < |Take(p, limit)| ==> Take(p, limit)[k] == p[k] && p[k] in Take(p, limit);
  }

  lemma TakeAscends(a: set<string>, at: map<string, int>, limit: int)
    requires a <= at.Keys
    ensures forall x :: x in Take(Sorted(a, at), limit) ==> x in a
    ensures Ascending(Take(Sorted(a, at), limit), at)
  {
    var p := Sorted(a, at);
    SortedAscending(a, at);
    assert forall i :: 0 <= i < |Take(p, limit)| ==> Take(p, limit)[i] == p[i] && p[i] in p;
  }

  lemma {:induction false} FirstLead(a: set<string>, b: set<string>, at: map<string, int>, limit: int)
    requires a <= at.Keys && b <= at.Keys && a !! b
    requires forall x, y :: x in Take(Sorted(a, at), limit) && y in b ==> x in at && Before(at, x, y)
    ensures Leads(Take(Sorted(a, at), limit), a + b, at)
  {
    var xs := Take(Sorted(a, at), limit);
    TakeAscends(a, at, limit);
    forall x, y | x in xs && y in a + b && y !in xs ensures Before(at, x, y) {
      if y in a { TakenBefore(a, at, limit, x, y); }
    }
  }

  /** Taking from one listing after the other is taking from the merged listing
      if what is taken of the first comes before all of the second. */
  lemma {:induction false} TakeMerged(a: set<string>, b: set<string>, at: map<string, int>, limit: int)
    requires a <= at.Keys && b <= at.Keys && a !! b
    requires forall x, y :: x in Take(Sorted(a, at), limit) && y in b ==> x in at && Before(at, x, y)
    ensures Take(Sorted(a, at) + Sorted(b, at), limit) == Take(Sorted(a + b, at), limit)
  {
    var p, q := Sorted(a, at), Sorted(b, at);
    var xs := Take(p, limit);
    FirstLead(a, b, at, limit);
    LeadsSorted(xs, a + b, at);
    if |p| < limit { NothingLeft(a, b, at, limit); }
    TakeEither(p, q, Sorted(Rest(a + b, xs), at), limit);
  }

  /** Beyond the limit it does not matter what follows. */
  lemma TakeEither(p: seq<string>, q: seq<string>, rest: seq<string>, limit: int)
    requires |p| < limit ==> rest == q
    ensures Take(p + q, limit) == Take(Take(p, limit) + rest, limit)
  {
  }

  lemma NothingLeft(a: set<string>, b: set<string>, at: map<string, int>, limit: int)
    requires a <= at.Keys && a !! b && |Sorted(a, at)| < limit
    ensures Take(Sorted(a, at), limit) == Sorted(a, at) && Rest(a + b, Take(Sorted(a, at), limit)) == b
  {
  }

  /** And only then. */
  lemma {:induction false} MergedLeads(a: set<string>, b: set<string>, at: map<string, int>, limit: int, x: string,
                                       y: string)
    requires a <= at.Keys && b <= at.Keys && a !! b && x in Take(Sorted(a, at), limit) && y in b
    requires Take(Sorted(a, at) + Sorted(b, at), limit) == Take(Sorted(a + b, at), limit)
    ensures x in at && Before(at, x, y)
  {
    var p, q, r := Sorted(a, at), Sorted(b, at), Sorted(a + b, at);
    SortedAscending(a + b, at);
    var i :| 0 <= i < |Take(p, limit)| && Take(p, limit)[i] == x;
    forall k | 0 <= k < |Take(p, limit)| ensures k < |r| && r[k] == p[k] && r[k] in a {
      InTurn(p, q, r, limit, k);
      assert p[k] in p;
    }
    assert y in r;
    var j :| 0 <= j < |r| && r[j] == y;
    assert i < j;
  }

  lemma {:induction false} TakeMergedIff(a: set<string>, b: set<string>, at: map<string, int>, limit: int)
    requires a <= at.Keys && b <= at.Keys && a !! b
    ensures Take(Sorted(a, at) + Sorted(b, at), limit) == Take(Sorted(a + b, at), limit) <==>
      forall x, y :: x in Take(Sorted(a, at), limit) && y in b ==> x in at && Before(at, x, y)
  {
    if Take(Sorted(a, at) + Sorted(b, at), limit) == Take(Sorted(a + b, at), limit) {
      forall x, y | x in Take(Sorted(a, at), limit) && y in b ensures x in at && Before(at, x, y) {
        MergedLeads(a, b, at, limit, x, y);
      }
    } else {
      TakeAscends(a, at, limit);
      if forall x, y :: x in Take(Sorted(a, at), limit) && y in b ==> x in at && Before(at, x, y) {
        TakeMerged(a, b, at, limit);
      }
    }
  }

  lemma InTurn(p: seq<string>, q: seq<string>, r: seq<string>, limit: int, i: nat)
    requires Take(p + q, limit) == Take(r, limit) && i < |Take(p, limit)|
    ensures i < |r| && r[i] == p[i]
  {
    assert Take(p + q, limit)[i] == (p + q)[i] == p[i];
    assert Take(r, limit)[i] == r[i];
  }

  /** promote.lua drains delayed jobs before retries; the reference broker merges
      both by due time. One call promotes the same jobs in the same order exactly
      when each delayed job it takes comes before every due retry. */
  lemma {:induction false} PromoteAgreesIff(m: State, limit: int, now: int)
    requires Placed(m)
    ensures DelayedFirst(m, limit, now) == PromotePicks(m, limit, now) <==> DelayedLead(m, limit, now)
  {
    var a, b, at := DueIn(m.scheduled, now), DueIn(m.retry, now), Waiting(m);
    DueUnion(m, now);
    PicksApart(m, limit, now);
    TakeMergedIff(a, b, at, limit);
    forall x | x in Take(Sorted(a, at), limit) ensures x in at { TakeAscends(a, at, limit); }
  }

  /** Over all limits: exactly when every due delayed job comes before every due
      retry, in particular when only one kind is due. */
  lemma {:induction false} PromoteAlwaysAgreesIff(m: State, now: int)
    requires Placed(m)
    ensures (forall limit :: DelayedFirst(m, limit, now) == PromotePicks(m, limit, now)) <==> DelayedAllFirst(m, now)
  {
    var a := DueIn(m.scheduled, now);
    var most := |a| + 1;
    assert forall x :: x in RangeByScore(m.scheduled, now, most) <==> x in a;
    if DelayedAllFirst(m, now) {
      forall limit ensures DelayedFirst(m, limit, now) == PromotePicks(m, limit, now) {
        RangeMembers(m.scheduled, now, limit);
        PromoteAgreesIff(m, limit, now);
      }
    } else {
      PromoteAgreesIff(m, most, now);
    }
  }

  function Plain(id: string, runAt: int): Job {
    Job(id, "q", "k", "", 0, 3, 0, Absent, "", "", 0, "", ZERO_TIME, runAt, ZERO_TIME, ZERO_TIME)
  }

  /** A job delayed to time 5 and another that failed and is due again at 3. */
  function Mixed(): seq<Stamped> {
    [Stamped(1, Inserted(Envelope(Plain("x", 5), "", 1))), Stamped(1, Inserted(Envelope(Plain("y", 1), "", 1))),
     Stamped(2, Claimed("y", "w", 9)), Stamped(2, Retried("y", "w", 3, "no"))]
  }

  lemma {:induction false} TwoStored()
    ensures var h := Mixed()[..2];
      Legal(EMPTY, h) && After(EMPTY, h).scheduled == map["x" := 5] && After(EMPTY, h).retry == map[]
    ensures var s := After(EMPTY, Mixed()[..2]);
      "y" in s.jobs && s.jobs["y"] == Envelope(Plain("y", 1), "", 1) && Ready(s, "q") == ["y"]
  {
    var h := Mixed();
    HistorySnoc(EMPTY, [], h[0]);
    HistorySnoc(EMPTY, [h[0]], h[1]);
    assert h[..2] == [] + [h[0]] + [h[1]];
  }

  lemma {:induction false} MixedState()
    ensures Legal(EMPTY, Mixed())
    ensures After(EMPTY, Mixed()).scheduled == map["x" := 5] && After(EMPTY, Mixed()).retry == map["y" := 3]
  {
    var h := Mixed();
    TwoStored();
    HistorySnoc(EMPTY, h[..2], h[2]);
    HistorySnoc(EMPTY, h[..2] + [h[2]], h[3]);
    assert h == h[..2] + [h[2]] + [h[3]];
  }

  lemma SortedOne(id: string, at: map<string, int>)
    requires id in at
    ensures Sorted({id}, at) == [id]
  {
    assert Least({id}, at) == id;
    assert {id} - {id} == {};
  }

  /** With one job delayed to `later` and one retry due `sooner`, and one to be
      promoted, the Redis broker takes the later one. */
  lemma {:induction false} TakesLater(m: State, x: string, y: string, sooner: int, later: int)
    requires m.scheduled == map[x := later] && m.retry == map[y := sooner] && sooner < later && x != y
    ensures DelayedFirst(m, 1, later) == [x] && PromotePicks(m, 1, later) == [y]
  {
    assert DueIn(m.scheduled, later) == {x};
    SortedOne(x, m.scheduled);
    var at := Waiting(m);
    assert DueIds(m, later) == {x, y};
    assert IsLeast({x, y}, at, y);
    LeastUnique({x, y}, at, y, Least({x, y}, at));
  }

  /** The two brokers do promote differently: a legal history that shows it. */
  lemma {:induction false} PromoteDiffers()
    ensures var m := After(EMPTY, Mixed());
      Legal(EMPTY, Mixed()) && DelayedFirst(m, 1, 5) == ["x"] && PromotePicks(m, 1, 5) == ["y"]
  {
    MixedState();
    TakesLater(After(EMPTY, Mixed()), "x", "y", 3, 5);
  }

  // ----------------------------------------------------------------------- reap

  /** The jobs a history is about. */
  function Touched(h: seq<Stamped>): set<string> {
    set st | st in h :: Target(st.event)
  }

  /** What a reap of the Redis broker adds to the history. */
  ghost function SweepEvents(h: seq<Stamped>, wanted: seq<string>, limit: int, now: int): seq<Stamped>
  {
    var g := QueueByQueue(h, wanted, limit, now);
    if |g| < |h| then [] else g[|h|..]
  }

  lemma ReapTouches(m: State, ids: seq<string>, now: int)
    ensures Touched(ReapEvents(m, ids, now)) == set x | x in ids
  {
    var h := ReapEvents(m, ids, now);
    assert forall i :: 0 <= i < |ids| ==> h[i] in h && Target(h[i].event) == ids[i];
    assert forall i :: 0 <= i < |h| ==> ids[i] in ids;
  }

  lemma SameElements(a: seq<string>, b: seq<string>)
    ensures (set x | x in a) == (set x | x in b) <==> forall x :: x in a <==> x in b
  {
    var s, t := (set x | x in a), (set x | x in b);
    assert forall x :: (x in a <==> x in s) && (x in b <==> x in t);
  }

  lemma TouchSame(m: State, a: seq<string>, b: seq<string>, now: int)
    ensures Touched(ReapEvents(m, a, now)) == Touched(ReapEvents(m, b, now)) <==> forall x :: x in a <==> x in b
  {
    ReapTouches(m, a, now);
    ReapTouches(m, b, now);
    SameElements(a, b);
  }

  lemma SweepIs(h: seq<Stamped>, wanted: seq<string>, limit: int, now: int)
    requires Legal(EMPTY, h) && !After(EMPTY, h).closed && NoDup(wanted)
    ensures SweepEvents(h, wanted, limit, now)
         == ReapEvents(After(EMPTY, h), Swept(After(EMPTY, h), wanted, limit, now), now)
  {
    var more := ReapEvents(After(EMPTY, h), Swept(After(EMPTY, h), wanted, limit, now), now);
    SweepIsBatch(h, wanted, limit, now);
    assert (h + more)[|h|..] == more;
  }

  lemma {:induction false} SweepTouches(h: seq<Stamped>, wanted: seq<string>, limit: int, now: int)
    requires Legal(EMPTY, h) && !After(EMPTY, h).closed && NoDup(wanted)
    ensures var m := After(EMPTY, h);
      Touched(SweepEvents(h, wanted, limit, now)) == Touched(OnReap(m, wanted, limit, now)) <==>
        SameTaken(m, wanted, limit, now)
  {
    var m := After(EMPTY, h);
    SweepIs(h, wanted, limit, now);
    TouchSame(m, Swept(m, wanted, limit, now), ReapPicks(m, wanted, limit, now), now);
  }

  /** The Redis broker reaps each queue with the full limit, the reference broker
      all of them with one. They take the same jobs exactly when the limit does
      not bind, or everything expired is in one queue. */
  lemma {:induction false} ReapAgreesIff(h: seq<Stamped>, wanted: seq<string>, limit: int, now: int)
    requires Legal(EMPTY, h) && !After(EMPTY, h).closed && NoDup(wanted) && wanted != [] && limit > 0
    ensures var m := After(EMPTY, h);
      Touched(SweepEvents(h, wanted, limit, now)) == Touched(OnReap(m, wanted, limit, now)) <==>
        |Expired(m, wanted, now)| <= limit || OneQueue(m, Expired(m, wanted, now), now)
  {
    SweepTouches(h, wanted, limit, now);
    SameTakenIff(After(EMPTY, h), wanted, limit, now);
  }

  /** With no queue named the Redis broker reaps none, the reference broker all. */
  lemma {:induction false} ReapUnnamedIff(h: seq<Stamped>, limit: int, now: int)
    requires !After(EMPTY, h).closed && limit > 0
    ensures var m := After(EMPTY, h);
      Touched(SweepEvents(h, [], limit, now)) == Touched(OnReap(m, [], limit, now)) <==> Expired(m, [], now) == {}
  {
    var m := After(EMPTY, h);
    var picks := ReapPicks(m, [], limit, now);
    assert Touched(SweepEvents(h, [], limit, now)) == {};
    ReapTouches(m, picks, now);
    if Expired(m, [], now) == {} {
      assert picks == [];
    } else {
      assert |Sorted(Expired(m, [], now), m.active)| > 0;
      assert picks[0] in (set x | x in picks);
    }
  }

  /** When they take the same jobs, they leave every ready list and every job the
      same. Only the order of newly dead jobs can differ, and the dead-letter set
      of the Redis broker has none. */
  lemma {:induction false} ReapAgreement(h: seq<Stamped>, wanted: seq<string>, limit: int, now: int)
    requires Legal(EMPTY, h) && !After(EMPTY, h).closed && NoDup(wanted)
    requires Touched(SweepEvents(h, wanted, limit, now)) == Touched(OnReap(After(EMPTY, h), wanted, limit, now))
    ensures var m := After(EMPTY, h);
      var t, u := After(m, SweepEvents(h, wanted, limit, now)), After(m, OnReap(m, wanted, limit, now));
      (forall q :: Ready(t, q) == Ready(u, q)) && (forall x :: SameView(t, u, x))
  {
    var m := After(EMPTY, h);
    var a, b := Swept(m, wanted, limit, now), ReapPicks(m, wanted, limit, now);
    var t, u := After(m, ReapEvents(m, a, now)), After(m, ReapEvents(m, b, now));
    EmptyPlaced();
    LegalPlaced(EMPTY, h);
    SweepIs(h, wanted, limit, now);
    SweepTouches(h, wanted, limit, now);
    SweptBatch(m, wanted, limit, now);
    ReapBatch(m, wanted, limit, now);
    forall q ensures Ready(t, q) == Ready(u, q) {
      SameReturned(m, wanted, limit, now, q);
      Overtaking.ReapsReady(m, a, now, q);
      Overtaking.ReapsReady(m, b, now, q);
    }
    forall x ensures SameView(t, u, x) { SameJobsSameView(m, a, b, now, x); }
  }

  /** One job claimed in each of two queues, on leases that end at 3 and 4. */
  function Apart(): seq<Stamped> {
    [Stamped(1, Inserted(Envelope(Plain("x", 1).(queue := "p"), "", 1))),
     Stamped(1, Inserted(Envelope(Plain("y", 1), "", 1))),
     Stamped(2, Claimed("x", "v", 3)), Stamped(2, Claimed("y", "w", 4))]
  }

  lemma {:induction false} ApartStored()
    ensures var h := Apart()[..2];
      && Legal(EMPTY, h) && After(EMPTY, h).active == map[]
      && After(EMPTY, h).jobs.Keys == {"x", "y"} && !After(EMPTY, h).closed
    ensures var s := After(EMPTY, Apart()[..2]);
      && s.jobs["x"] == Envelope(Plain("x", 1).(queue := "p"), "", 1) && s.jobs["y"] == Envelope(Plain("y", 1), "", 1)
      && Ready(s, "p") == ["x"] && Ready(s, "q") == ["y"]
  {
    var h := Apart();
    HistorySnoc(EMPTY, [], h[0]);
    HistorySnoc(EMPTY, [h[0]], h[1]);
    assert h[..2] == [] + [h[0]] + [h[1]];
  }

  lemma {:induction false} ApartState()
    ensures Legal(EMPTY, Apart())
    ensures var s := After(EMPTY, Apart());
      && s.active == map["x" := 3, "y" := 4] && s.jobs.Keys == {"x", "y"} && !s.closed
      && s.jobs["x"].queue == "p" && s.jobs["y"].queue == "q"
  {
    var h := Apart();
    ApartStored();
    HistorySnoc(EMPTY, h[..2], h[2]);
    HistorySnoc(EMPTY, h[..2] + [h[2]], h[3]);
    assert h == h[..2] + [h[2]] + [h[3]];
  }

  lemma OnePick(m: State, queues: seq<string>, now: int, x: string)
    requires x in m.active && Expired(m, queues, now) == {x}
    ensures ReapPicks(m, queues, 1, now) == [x]
  {
    SortedOne(x, m.active);
  }

  lemma FirstPick(m: State, queues: seq<string>, now: int, x: string, y: string)
    requires x in m.active && y in m.active && Expired(m, queues, now) == {x, y} && Before(m.active, x, y)
    ensures ReapPicks(m, queues, 1, now) == [x]
  {
    BeforeTotal(m.active, x, y);
    assert IsLeast({x, y}, m.active, x);
    LeastUnique({x, y}, m.active, x, Least({x, y}, m.active));
  }

  /** Two expired leases in two queues: with limit 1 the reference broker takes
      one of them, the Redis broker one of each queue. */
  lemma {:induction false} TakesBoth(m: State, p: string, q: string, x: string, y: string)
    requires m.active == map[x := 3, y := 4] && x in m.jobs && y in m.jobs && x != y
    requires m.jobs[x].queue == p && m.jobs[y].queue == q && p != q
    ensures ReapPicks(m, [p, q], 1, 5) == [x]
    ensures ReapPicks(m, [p], 1, 5) == [x] && ReapPicks(m, [q], 1, 5) == [y]
  {
    assert Expired(m, [p], 5) == {x} && Expired(m, [q], 5) == {y} && Expired(m, [p, q], 5) == {x, y};
    OnePick(m, [p], 5, x);
    OnePick(m, [q], 5, y);
    FirstPick(m, [p, q], 5, x, y);
  }

  lemma SweptTwo(m: State, p: string, q: string, limit: int, now: int)
    ensures Swept(m, [p, q], limit, now) == ReapPicks(m, [p], limit, now) + ReapPicks(m, [q], limit, now)
  {
    SweptOne(m, p, limit, now);
    var queues := [p, q];
    assert queues[..|queues| - 1] == [p] && queues[|queues| - 1] == q;
  }

  lemma SweptOne(m: State, q: string, limit: int, now: int)
    ensures Swept(m, [q], limit, now) == ReapPicks(m, [q], limit, now)
  {
    var queues := [q];
    assert queues[..|queues| - 1] == [];
  }

  lemma {:induction false} TouchesBoth(h: seq<Stamped>, p: string, q: string, x: string, y: string)
    requires Legal(EMPTY, h) && !After(EMPTY, h).closed
    requires var m := After(EMPTY, h);
      && m.active == map[x := 3, y := 4] && x in m.jobs && y in m.jobs && x != y
      && m.jobs[x].queue == p && m.jobs[y].queue == q && p != q
    ensures Touched(SweepEvents(h, [p, q], 1, 5)) == {x, y}
    ensures Touched(OnReap(After(EMPTY, h), [p, q], 1, 5)) == {x}
  {
    var m := After(EMPTY, h);
    TakesBoth(m, p, q, x, y);
    SweptTwo(m, p, q, 1, 5);
    SweepIs(h, [p, q], 1, 5);
    TouchesTwo(m, x, y, 5);
  }

  lemma TouchesTwo(m: State, x: string, y: string, now: int)
    ensures Touched(ReapEvents(m, [x] + [y], now)) == {x, y} && Touched(ReapEvents(m, [x], now)) == {x}
  {
    ReapTouches(m, [x] + [y], now);
    ReapTouches(m, [x], now);
    assert (set z | z in [x] + [y]) == {x, y} && (set z | z in [x]) == {x};
  }

  /** The two brokers do reap differently: a legal history that shows it. */
  lemma {:induction false} ReapDiffers()
    ensures Legal(EMPTY, Apart()) && !After(EMPTY, Apart()).closed
    ensures Touched(SweepEvents(Apart(), ["p", "q"], 1, 5)) == {"x", "y"}
    ensures Touched(OnReap(After(EMPTY, Apart()), ["p", "q"], 1, 5)) == {"x"}
  {
    ApartState();
    TouchesBoth(Apart(), "p", "q", "x", "y");
  }

  /** Bounded recovery for the Redis broker, whose every script is a turn and
      whose every reap names one queue: only the jobs ahead in the same queue
      count. */
  lemma QueueRecovery(h: seq<Stamped>, turns: seq<Turn>, limit: int, id: string, deadline: int)
    requires Legal(EMPTY, h) && LegalTurns(After(EMPTY, h), turns) && !TurnsState(After(EMPTY, h), turns).closed
    requires limit > 0 && forall i :: 0 <= i < |turns| ==> deadline <= turns[i].at
    requires id in After(EMPTY, h).jobs
    requires var m := After(EMPTY, h);
      var q := m.jobs[id].queue;
      ReapTurns(m, turns, [q], limit) > |Ahead(m, [q], id, deadline)| / limit
    ensures !Stuck(TurnsState(After(EMPTY, h), turns), id, deadline)
  {
    EmptyPlaced();
    LegalPlaced(EMPTY, h);
    TurnsRecover(After(EMPTY, h), turns, [After(EMPTY, h).jobs[id].queue], limit, id, deadline);
  }

  // ---------------------------------------------------------- enqueue and nack

  /** Both brokers answer an enqueue alike, except in the millisecond a unique key
      expires: it is free in the reference broker and still held in Redis. */
  lemma EnqueueAgreesIff(r: Redis, m: State, j: Job, now: int)
    requires Sim(r, m)
    ensures EnqueueAnswer(r, j, now) == EnqueueReply(m, j, now) <==>
      !(j.queue != "" && j.kind != "" && j.uniqueKey != ""
        && j.uniqueKey in m.unique && m.unique[j.uniqueKey].expiresAt == now)
  {
  }

  /** What an accepted enqueue records is what the reference broker does with the
      job that enqueue.lua keeps. */
  lemma EnqueueRecords(m: State, j: Job, newId: string, now: int)
    requires EnqueueReply(m, j, now) == Ok
    ensures OnEnqueue(m, Restarted(j), newId, now) == [Stamped(now, Inserted(Envelope(Restarted(j), newId, now)))]
    ensures Restarted(j) == j <==>
      j.attempt == 0 && j.recoveries == 0 && j.lastErr == ""
      && j.enqueuedAt == ZERO_TIME && j.startedAt == ZERO_TIME && j.deadline == ZERO_TIME
  {
  }

  // ------------------------------------------------------------------- fencing

  /** A completed envelope of `id` is still kept. */
  predicate Retained(r: Redis, id: string, now: int) {
    Exists(r, id, now) && r.hashes[id].job.state == Completed
  }

  /** Reports get the same answer from both brokers exactly when no completed
      envelope of the job is kept. */
  lemma FenceAgreesIff(r: Redis, m: State, worker: string, id: string, now: int)
    requires Sim(r, m)
    ensures FenceReply(r, m, worker, id, now) == Fence(m, worker, id) <==> !Retained(r, id, now)
  {
    assert SimAt(r, m, id);
  }

  /** Every ack under a positive retention leaves one behind, for as long as the
      retention lasts. */
  lemma {:induction false} AckRetains(v: Redis, h: seq<Stamped>, worker: string, id: string, at: int, retention: int,
                                      now: int)
    requires Legal(EMPTY, h) && Sim(v, After(EMPTY, h)) && Holds(After(EMPTY, h), worker, id) && at > 0
    requires retention > 0 && now <= at + retention
    ensures id in v.hashes
    ensures var g, w := h + [Stamped(at, Acked(id, worker))], Effect(v, Acked(id, worker), v.hashes[id].job, at,
      retention);
      && Legal(EMPTY, g) && Sim(w, After(EMPTY, g)) && Retained(w, id, now)
      && FenceReply(w, After(EMPTY, g), worker, id, now) == LeaseLost && Fence(After(EMPTY, g), worker, id) == NotFound
  {
    Commit(v, h, Stamped(at, Acked(id, worker)), retention);
    var g := h + [Stamped(at, Acked(id, worker))];
    var w := Effect(v, Acked(id, worker), v.hashes[id].job, at, retention);
    assert SimAt(w, After(EMPTY, g), id);
  }

  /** Enqueue and claim one job on an empty keyspace. */
  lemma {:induction false} OneClaimed(id: string, worker: string, vt: int, now: int, retention: int)
    returns (v: Redis, h: seq<Stamped>)
    requires worker != "" && vt > 0 && now > 0
    ensures Legal(EMPTY, h) && Sim(v, After(EMPTY, h)) && Holds(After(EMPTY, h), worker, id)
  {
    BlankSim();
    var e := Envelope(Plain(id, ZERO_TIME), id, now);
    CommitInsert(BLANK, [], e, now, 0);
    h := [] + [Stamped(now, Inserted(e))];
    assert h[..0] == [] && After(EMPTY, h) == Insert(EMPTY, e, now);
    v := Write(BLANK, Encode(e), now, 0);
    var st := Stamped(now, Claimed(e.id, worker, now + vt));
    Commit(v, h, st, retention);
    HistorySnoc(EMPTY, h, st);
    v := Effect(v, st.event, v.hashes[e.id].job, now, retention);
    h := h + [st];
  }

  /** So the answers do differ: enqueue, claim and ack one job, and report on it
      again. */
  lemma {:induction false} FenceDiffers(id: string, worker: string, vt: int, now: int, retention: int)
    returns (v: Redis, h: seq<Stamped>)
    requires id != "" && worker != "" && vt > 0 && now > 0 && retention > 0
    ensures Legal(EMPTY, h) && Sim(v, After(EMPTY, h))
    ensures FenceReply(v, After(EMPTY, h), worker, id, now) == LeaseLost
      && Fence(After(EMPTY, h), worker, id) == NotFound
  {
    v, h := OneClaimed(id, worker, vt, now, retention);
    AckRetains(v, h, worker, id, now, retention, now);
    v := Effect(v, Acked(id, worker), v.hashes[id].job, now, retention);
    h := h + [Stamped(now, Acked(id, worker))];
  }
}
