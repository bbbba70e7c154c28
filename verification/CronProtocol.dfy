/** The cron firing protocol (scheduler.go): any number of scheduler processes,
    each reading due ticks, enqueuing a job per tick under a unique key and then
    claiming the tick, interleaved with each other, with crashes at any point
    and with every other use of the broker. */
module CronProtocol {
  import opened Jobs
  import opened BrokerModel
  import opened Placement
  import opened CallPlacement
  import opened UniqueKeys
  import opened CronSchedule
  import opened CronStore
  import Decimal

  const CRON_PREFIX := "cron:"
  const CRON_TTL := 300_000
  const CRON_BATCH := 100

  /** Identifies one tick of one schedule. */
  function TickKey(t: Tick): string {
    CRON_PREFIX + (t.id + ":" + Decimal.Signed(t.fireAt))
  }

  lemma SignedPlain(n: int)
    ensures ':' !in Decimal.Signed(n)
  {
    var d := Decimal.Digits(if n < 0 then -n else n);
    assert forall i :: 0 <= i < |d| ==> Decimal.IsDigit(d[i]);
  }

  /** Text before and after the last colon is determined by the whole. */
  lemma LastColon(a: string, b: string, c: string, d: string)
    requires ':' !in b && ':' !in d && a + ":" + b == c + ":" + d
    ensures a == c && b == d
  {
    var s, t := a + ":" + b, c + ":" + d;
    assert s[|a|] == ':' && t[|c|] == ':';
    assert forall i :: |a| < i < |s| ==> s[i] == b[i - |a| - 1];
    assert forall i :: |c| < i < |t| ==> t[i] == d[i - |c| - 1];
    assert |a| == |c|;
    assert a == s[..|a|] && c == t[..|c|];
    assert b == s[|a| + 1..] && d == t[|c| + 1..];
  }

  /** Distinct ticks have distinct keys, colons in entry IDs notwithstanding. */
  lemma TickKeyInjective(t: Tick, u: Tick)
    requires TickKey(t) == TickKey(u)
    ensures t == u
  {
    assert TickKey(t)[|CRON_PREFIX|..] == t.id + ":" + Decimal.Signed(t.fireAt);
    assert TickKey(u)[|CRON_PREFIX|..] == u.id + ":" + Decimal.Signed(u.fireAt);
    SignedPlain(t.fireAt);
    SignedPlain(u.fireAt);
    LastColon(t.id, Decimal.Signed(t.fireAt), u.id, Decimal.Signed(u.fireAt));
    Decimal.SignedInjective(t.fireAt, u.fireAt);
  }

  // ------------------------------------------------------------ state machine

  /** A compiled cron entry, as one process has it registered. */
  datatype Entry = Entry(schedule: Schedule, queue: string, kind: string, payload: string, maxAttempts: int)

  /** What one process holds during a pass: the ticks still to handle, and once
      the first one's job is enqueued, the fire time to advance that entry to. */
  datatype Local = Local(due: seq<Tick>, next: Option<int>)

  datatype Won = Won(tick: Tick, next: int)

  /** `h` is the broker's history and `wins` lists the successful claims. */
  datatype World = World(h: seq<Stamped>, cron: map<string, int>, local: map<string, Local>, wins: seq<Won>)

  const START := World([], map[], map[], [])

  function Broker(w: World): State { After(EMPTY, w.h) }

  function TickJob(t: Tick, e: Entry): Job {
    Job("", e.queue, e.kind, e.payload, 0, e.maxAttempts, 0, Absent, "", TickKey(t), CRON_TTL, "",
        ZERO_TIME, ZERO_TIME, ZERO_TIME, ZERO_TIME)
  }

  /** `clock` is the process's own time, `now` the store's. A `Fire` with no
      entry is one by a process that does not know the tick's entry. */
  datatype Action =
    | Seed(id: string, first: Entry, clock: int)
    | ReadDue(p: string, now: int)
    | Fire(p: string, entry: Option<Entry>, clock: int, now: int, newId: string)
    | Claim(p: string)
    | Crash(p: string)
    | Other(call: Call, now: int)

  /** The process is about to handle the tick at the head of its list. */
  predicate ToFire(w: World, p: string) {
    p in w.local && w.local[p].due != [] && w.local[p].next.None?
  }

  predicate ToClaim(w: World, p: string) {
    p in w.local && w.local[p].due != [] && w.local[p].next.Some?
  }

  function Head(w: World, p: string): Tick
    requires p in w.local && w.local[p].due != []
  {
    w.local[p].due[0]
  }

  function Skip(w: World, p: string): World
    requires p in w.local && w.local[p].due != []
  {
    w.(local := w.local[p := Local(w.local[p].due[1..], None)])
  }

  /** Where the entry advances to: never from before the tick itself. */
  function NextOf(t: Tick, e: Entry, clock: int): Option<int> {
    NaiveNext(e.schedule, if clock < t.fireAt then t.fireAt else clock)
  }

  function DoSeed(w: World, id: string, e: Entry, clock: int): World {
    var at := NaiveNext(e.schedule, clock);
    if at.None? || id == "" || Broker(w).closed || id in w.cron then w
    else w.(cron := w.cron[id := at.value])
  }

  function DoReadDue(w: World, p: string, now: int): World {
    if Broker(w).closed then w
    else w.(local := w.local[p := Local(DueTicks(w.cron, CRON_BATCH, now), None)])
  }

  function DoFire(w: World, p: string, entry: Option<Entry>, clock: int, now: int, newId: string): World {
    if !ToFire(w, p) then w
    else if entry.None? || NextOf(Head(w, p), entry.value, clock).None? then Skip(w, p)
    else
      var job := TickJob(Head(w, p), entry.value);
      var reply := EnqueueReply(Broker(w), job, now);
      if reply == Ok || reply.Duplicate? then
        w.(h := w.h + OnEnqueue(Broker(w), job, newId, now),
           local := w.local[p := w.local[p].(next := NextOf(Head(w, p), entry.value, clock))])
      else Skip(w, p)
  }

  predicate ClaimWins(w: World, p: string) {
    && ToClaim(w, p) && !Broker(w).closed
    && Head(w, p).id in w.cron && w.cron[Head(w, p).id] == Head(w, p).fireAt
  }

  function DoClaim(w: World, p: string): World {
    if !ToClaim(w, p) then w
    else if ClaimWins(w, p) then
      Skip(w, p).(cron := w.cron[Head(w, p).id := w.local[p].next.value],
                  wins := w.wins + [Won(Head(w, p), w.local[p].next.value)])
    else Skip(w, p)
  }

  function Do(w: World, a: Action): World {
    match a
    case Seed(id, e, clock) => DoSeed(w, id, e, clock)
    case ReadDue(p, now) => DoReadDue(w, p, now)
    case Fire(p, e, clock, now, newId) => DoFire(w, p, e, clock, now, newId)
    case Claim(p) => DoClaim(w, p)
    case Crash(p) => w.(local := w.local - {p})
    case Other(call, now) => w.(h := w.h + Events(Broker(w), call, now))
  }

  /** Minted identifiers are fresh, the broker's callers do what it demands, and
      applications keep off the key prefix of cron ticks. */
  ghost predicate Feasible(w: World, a: Action) {
    match a
    case Fire(_, _, _, _, newId) => newId !in Broker(w).jobs
    case Other(call, now) =>
      Admissible(Broker(w), call, now) && (call.Enqueue? ==> !(CRON_PREFIX <= call.job.uniqueKey))
    case Seed(_, _, _) => true
    case ReadDue(_, _) => true
    case Claim(_) => true
    case Crash(_) => true
  }

  function Reach(run: seq<Action>): World {
    if run == [] then START else Do(Reach(run[..|run| - 1]), run[|run| - 1])
  }

  ghost predicate FeasibleRun(run: seq<Action>) {
    run == [] || (FeasibleRun(run[..|run| - 1]) && Feasible(Reach(run[..|run| - 1]), run[|run| - 1]))
  }

  // --------------------------------------------------------------- invariants

  /** A job has been stored for the tick. */
  predicate Backed(h: seq<Stamped>, t: Tick) {
    Winner(h, TickKey(t)).Some?
  }

  /** Only ticks use the cron keys, and they hold them for `CRON_TTL`. */
  ghost predicate TicksOnly(h: seq<Stamped>) {
    forall i :: 0 <= i < |h| ==> TickEvent(h[i])
  }

  predicate TickEvent(st: Stamped) {
    st.event.Inserted? && CRON_PREFIX <= st.event.job.uniqueKey ==> EffectiveTTL(st.event.job) == CRON_TTL
  }

  ghost predicate BrokerOk(h: seq<Stamped>) {
    Legal(EMPTY, h) && Placed(After(EMPTY, h)) && TicksOnly(h)
  }

  ghost predicate LocalOk(h: seq<Stamped>, l: Local) {
    l.next.Some? ==> l.due != [] && l.due[0].fireAt < l.next.value && Backed(h, l.due[0])
  }

  /** A claimed tick has a job, and its entry has moved past it for good. */
  ghost predicate WonOk(h: seq<Stamped>, cron: map<string, int>, won: Won) {
    && won.tick.fireAt < won.next && Backed(h, won.tick)
    && won.tick.id in cron && won.next <= cron[won.tick.id]
  }

  ghost predicate WinsAscend(wins: seq<Won>) {
    forall i, j :: 0 <= i < j < |wins| && wins[i].tick.id == wins[j].tick.id ==> wins[i].next <= wins[j].tick.fireAt
  }

  ghost predicate Inv(w: World) {
    && BrokerOk(w.h)
    && (forall p :: p in w.local ==> LocalOk(w.h, w.local[p]))
    && (forall i :: 0 <= i < |w.wins| ==> WonOk(w.h, w.cron, w.wins[i]))
    && WinsAscend(w.wins)
  }

  lemma {:induction false} BackedStays(h: seq<Stamped>, g: seq<Stamped>, t: Tick)
    requires Backed(h, t)
    ensures Backed(h + g, t)
    decreases |g|
  {
    if g == [] {
      assert h + g == h;
    } else {
      var n := |g| - 1;
      BackedStays(h, g[..n], t);
      assert (h + g)[..|h + g| - 1] == h + g[..n];
    }
  }

  lemma {:induction false} BrokerGrows(h: seq<Stamped>, call: Call, now: int)
    requires BrokerOk(h) && Admissible(After(EMPTY, h), call, now)
    requires forall st :: st in Events(After(EMPTY, h), call, now) ==> TickEvent(st)
    ensures BrokerOk(h + Events(After(EMPTY, h), call, now))
  {
    var s := After(EMPTY, h);
    var g := Events(s, call, now);
    CallLegal(s, call, now);
    LegalConcat(EMPTY, h, g);
    AfterConcat(EMPTY, h, g);
    assert forall i :: 0 <= i < |g| ==> g[i] in g;
  }

  /** Growing the broker's history keeps everything else true. */
  lemma {:induction false} InvGrows(w: World, g: seq<Stamped>)
    requires Inv(w) && BrokerOk(w.h + g)
    ensures Inv(w.(h := w.h + g))
  {
    forall p | p in w.local ensures LocalOk(w.h + g, w.local[p]) {
      if w.local[p].next.Some? { BackedStays(w.h, g, w.local[p].due[0]); }
    }
    forall i | 0 <= i < |w.wins| ensures WonOk(w.h + g, w.cron, w.wins[i]) {
      BackedStays(w.h, g, w.wins[i].tick);
    }
  }

  /** No call but an enqueue inserts, and it inserts the caller's job. */
  lemma {:induction false} OnlyEnqueueInserts(s: State, call: Call, now: int, st: Stamped)
    requires st in Events(s, call, now) && st.event.Inserted?
    ensures call.Enqueue? && st.event.job.uniqueKey == call.job.uniqueKey
    ensures st.event.job.uniqueTTL == call.job.uniqueTTL
  {
    if call.Extend? {
      if call.vt > 0 && !s.closed { RenewalsRenew(s, call.worker, call.ids, now + call.vt, now, st); }
    } else if !call.Enqueue? {
      NoInsert(s, call, now, st);
    }
  }

  lemma NoInsert(s: State, call: Call, now: int, st: Stamped)
    requires st in Events(s, call, now) && !call.Enqueue? && !call.Extend?
    ensures !st.event.Inserted?
  {
  }

  lemma {:induction false} RenewalsRenew(s: State, worker: string, ids: seq<string>, deadline: int, now: int,
                                         st: Stamped)
    requires st in Renewals(s, worker, ids, deadline, now)
    ensures st.event.Renewed?
  {
    if ids == [] {
    } else {
      var n := |ids| - 1;
      if st in Renewals(s, worker, ids[..n], deadline, now) {
        RenewalsRenew(s, worker, ids[..n], deadline, now, st);
      }
    }
  }

  lemma {:induction false} OtherKeeps(w: World, call: Call, now: int)
    requires Inv(w) && Feasible(w, Other(call, now))
    ensures Inv(Do(w, Other(call, now)))
  {
    var s := Broker(w);
    forall st | st in Events(s, call, now) ensures TickEvent(st) {
      if st.event.Inserted? { OnlyEnqueueInserts(s, call, now, st); }
    }
    BrokerGrows(w.h, call, now);
    InvGrows(w, Events(s, call, now));
  }

  /** After an enqueue that succeeded or found a duplicate, the tick has a job. */
  lemma {:induction false} EnqueueBacks(h: seq<Stamped>, t: Tick, e: Entry, newId: string, now: int)
    requires EnqueueReply(After(EMPTY, h), TickJob(t, e), now) == Ok
      || EnqueueReply(After(EMPTY, h), TickJob(t, e), now).Duplicate?
    ensures Backed(h + OnEnqueue(After(EMPTY, h), TickJob(t, e), newId, now), t)
  {
    var s := After(EMPTY, h);
    var g := OnEnqueue(s, TickJob(t, e), newId, now);
    if g == [] {
      TableHoldsWinner(h, TickKey(t));
      assert h + g == h;
    } else {
      assert (h + g)[|h + g| - 1] == g[0];
    }
  }

  lemma {:induction false} TickGrows(h: seq<Stamped>, t: Tick, e: Entry, newId: string, now: int)
    requires BrokerOk(h) && newId !in After(EMPTY, h).jobs
    ensures BrokerOk(h + OnEnqueue(After(EMPTY, h), TickJob(t, e), newId, now))
  {
    var s := After(EMPTY, h);
    BrokerGrows(h, Enqueue(TickJob(t, e), newId), now);
  }

  /** Recording that the head tick has its job keeps the invariant. */
  lemma {:induction false} StoredKeeps(w: World, p: string, g: seq<Stamped>, next: int)
    requires Inv(w) && BrokerOk(w.h + g) && ToFire(w, p)
    requires Head(w, p).fireAt < next && Backed(w.h + g, Head(w, p))
    ensures Inv(w.(h := w.h + g, local := w.local[p := w.local[p].(next := Some(next))]))
  {
    InvGrows(w, g);
  }

  lemma {:induction false} FireKeeps(w: World, p: string, entry: Option<Entry>, clock: int, now: int, newId: string)
    requires Inv(w) && newId !in Broker(w).jobs
    ensures Inv(DoFire(w, p, entry, clock, now, newId))
  {
    if ToFire(w, p) && entry.Some? && NextOf(Head(w, p), entry.value, clock).Some? {
      var t, e := Head(w, p), entry.value;
      var reply := EnqueueReply(Broker(w), TickJob(t, e), now);
      if reply == Ok || reply.Duplicate? {
        TickGrows(w.h, t, e, newId, now);
        EnqueueBacks(w.h, t, e, newId, now);
        NextAdvances(e.schedule, if clock < t.fireAt then t.fireAt else clock);
        StoredKeeps(w, p, OnEnqueue(Broker(w), TickJob(t, e), newId, now), NextOf(t, e, clock).value);
      }
    }
  }

  lemma {:induction false} ClaimKeeps(w: World, p: string)
    requires Inv(w)
    ensures Inv(DoClaim(w, p))
  {
    if ClaimWins(w, p) {
      var v := DoClaim(w, p);
      assert LocalOk(w.h, w.local[p]);
      forall i | 0 <= i < |v.wins| ensures WonOk(v.h, v.cron, v.wins[i]) {
        if i < |w.wins| { assert WonOk(w.h, w.cron, w.wins[i]); }
      }
      forall i, j | 0 <= i < j < |v.wins| && v.wins[i].tick.id == v.wins[j].tick.id
        ensures v.wins[i].next <= v.wins[j].tick.fireAt
      {
        if j == |w.wins| { assert WonOk(w.h, w.cron, w.wins[i]); }
      }
    }
  }

  lemma {:induction false} SeedKeeps(w: World, id: string, e: Entry, clock: int)
    requires Inv(w)
    ensures Inv(DoSeed(w, id, e, clock))
  {
    var v := DoSeed(w, id, e, clock);
    forall i | 0 <= i < |v.wins| ensures WonOk(v.h, v.cron, v.wins[i]) {
      assert WonOk(w.h, w.cron, w.wins[i]);
    }
  }

  lemma {:induction false} DoKeeps(w: World, a: Action)
    requires Inv(w) && Feasible(w, a)
    ensures Inv(Do(w, a))
  {
    match a
    case Seed(id, e, clock) => SeedKeeps(w, id, e, clock);
    case ReadDue(p, now) =>
    case Fire(p, e, clock, now, newId) => FireKeeps(w, p, e, clock, now, newId);
    case Claim(p) => ClaimKeeps(w, p);
    case Crash(p) =>
    case Other(call, now) => OtherKeeps(w, call, now);
  }

  lemma {:induction false} RunKeeps(run: seq<Action>)
    requires FeasibleRun(run)
    ensures Inv(Reach(run))
  {
    if run == [] {
      EmptyPlaced();
    } else {
      RunKeeps(run[..|run| - 1]);
      DoKeeps(Reach(run[..|run| - 1]), run[|run| - 1]);
    }
  }

  // ---------------------------------------------------------------- guarantees

  /** Claims of one entry move strictly forward in time: no tick is claimed
      twice, and the recorded fire times of an entry strictly increase. */
  lemma TicksClaimedOnce(run: seq<Action>, i: nat, j: nat)
    requires FeasibleRun(run) && i < j < |Reach(run).wins|
    requires Reach(run).wins[i].tick.id == Reach(run).wins[j].tick.id
    ensures var wins := Reach(run).wins;
      wins[i].tick.fireAt < wins[i].next <= wins[j].tick.fireAt
  {
    RunKeeps(run);
    assert WonOk(Reach(run).h, Reach(run).cron, Reach(run).wins[i]);
  }

  /** An entry is never dropped, and leaves a tick only by a claim of that tick
      that moves it forward, after a job for the tick was stored: whatever
      crashes, no tick is skipped without a job. */
  lemma {:induction false} NoTickSkipped(run: seq<Action>, a: Action, id: string)
    requires FeasibleRun(run + [a]) && id in Reach(run).cron
    ensures var w, v := Reach(run), Reach(run + [a]);
      && id in v.cron
      && (v.cron[id] != w.cron[id] ==>
            && v.wins == w.wins + [Won(Tick(id, w.cron[id]), v.cron[id])]
            && v.cron[id] > w.cron[id] && Backed(w.h, Tick(id, w.cron[id])))
  {
    assert (run + [a])[..|run + [a]| - 1] == run;
    var w := Reach(run);
    RunKeeps(run);
    if a.Claim? && ClaimWins(w, a.p) {
      assert LocalOk(w.h, w.local[a.p]);
    }
  }

  /** How many jobs were stored under `key`. */
  function Stores(h: seq<Stamped>, key: string): nat {
    if h == [] then 0 else
      var st := h[|h| - 1];
      Stores(h[..|h| - 1], key) + if st.event.Inserted? && st.event.job.uniqueKey == key then 1 else 0
  }

  lemma {:induction false} StoresBacked(h: seq<Stamped>, t: Tick)
    ensures Stores(h, TickKey(t)) >= 1 <==> Backed(h, t)
  {
    if h == [] {
    } else {
      StoresBacked(h[..|h| - 1], t);
    }
  }

  lemma {:induction false} StoresNone(h: seq<Stamped>, g: seq<Stamped>, key: string)
    requires forall st :: st in g && st.event.Inserted? ==> st.event.job.uniqueKey != key
    ensures Stores(h + g, key) == Stores(h, key)
    decreases |g|
  {
    if g == [] {
      assert h + g == h;
    } else {
      var n := |g| - 1;
      StoresNone(h, g[..n], key);
      assert (h + g)[..|h + g| - 1] == h + g[..n];
    }
  }

  /** The action is an attempt to enqueue the tick that gets as far as the
      unique-key check. */
  predicate Attempts(w: World, a: Action, t: Tick) {
    && a.Fire? && ToFire(w, a.p) && Head(w, a.p) == t
    && a.entry.Some? && NextOf(t, a.entry.value, a.clock).Some?
    && !Broker(w).closed && a.entry.value.queue != "" && a.entry.value.kind != ""
  }

  /** An attempt made when the tick's latest job was stored five minutes ago or
      longer. */
  predicate LateAttempt(w: World, a: Action, t: Tick) {
    && Attempts(w, a, t)
    && var winner := Winner(w.h, TickKey(t)); winner.Some? && a.now >= winner.value.at + CRON_TTL
  }

  lemma {:induction false} WinnerTTL(h: seq<Stamped>, t: Tick)
    requires TicksOnly(h) && Backed(h, t)
    ensures Winner(h, TickKey(t)).value.ttl == CRON_TTL
  {
    var n := |h| - 1;
    assert TickEvent(h[n]);
    assert CRON_PREFIX <= TickKey(t);
    if !(h[n].event.Inserted? && h[n].event.job.uniqueKey == TickKey(t)) {
      WinnerTTL(h[..n], t);
    }
  }

  /** An attempt stores a job exactly when it is the first or comes late. */
  lemma {:induction false} AttemptStoresIff(w: World, a: Action, t: Tick)
    requires Inv(w) && Attempts(w, a, t)
    ensures Accepts(Broker(w), TickJob(t, a.entry.value), a.now) <==> !Backed(w.h, t) || LateAttempt(w, a, t)
  {
    TableHoldsWinner(w.h, TickKey(t));
    if Backed(w.h, t) { WinnerTTL(w.h, t); }
  }

  lemma {:induction false} FireStores(w: World, a: Action, t: Tick)
    requires a.Fire?
    ensures Stores(Do(w, a).h, TickKey(t)) == Stores(w.h, TickKey(t)) +
      if Attempts(w, a, t) && Accepts(Broker(w), TickJob(t, a.entry.value), a.now) then 1 else 0
  {
    if ToFire(w, a.p) && a.entry.Some? && NextOf(Head(w, a.p), a.entry.value, a.clock).Some? {
      EnqueueStores(w.h, Head(w, a.p), t, a.entry.value, a.newId, a.now);
      assert w.h + [] == w.h;
    }
  }

  /** Enqueuing tick `u` adds to the jobs of tick `t` only if they are the same. */
  lemma {:induction false} EnqueueStores(h: seq<Stamped>, u: Tick, t: Tick, e: Entry, newId: string, now: int)
    ensures var s := After(EMPTY, h);
      Stores(h + OnEnqueue(s, TickJob(u, e), newId, now), TickKey(t))
        == Stores(h, TickKey(t)) + if u == t && Accepts(s, TickJob(u, e), now) then 1 else 0
  {
    var g := OnEnqueue(After(EMPTY, h), TickJob(u, e), newId, now);
    if u == t && g != [] {
      assert (h + g)[..|h + g| - 1] == h;
    } else {
      if TickKey(u) == TickKey(t) { TickKeyInjective(u, t); }
      StoresNone(h, g, TickKey(t));
    }
  }

  lemma {:induction false} StepStores(w: World, a: Action, t: Tick)
    requires Inv(w) && Feasible(w, a)
    ensures Stores(Do(w, a).h, TickKey(t)) == Stores(w.h, TickKey(t)) +
      if Attempts(w, a, t) && (!Backed(w.h, t) || LateAttempt(w, a, t)) then 1 else 0
  {
    if a.Fire? {
      FireStores(w, a, t);
      if Attempts(w, a, t) { AttemptStoresIff(w, a, t); }
    } else if a.Other? {
      var g := Events(Broker(w), a.call, a.now);
      assert CRON_PREFIX <= TickKey(t);
      forall st | st in g && st.event.Inserted? ensures st.event.job.uniqueKey != TickKey(t) {
        OnlyEnqueueInserts(Broker(w), a.call, a.now, st);
      }
      StoresNone(w.h, g, TickKey(t));
    }
  }

  /** Some attempt of the run came late for the tick. */
  predicate Late(run: seq<Action>, t: Tick) {
    run != [] && (Late(run[..|run| - 1], t) || LateAttempt(Reach(run[..|run| - 1]), run[|run| - 1], t))
  }

  /** A tick gets a second job in a run exactly when some attempt of it came
      five minutes or more after its latest job was stored. The unique key alone
      does not promise one job per tick. */
  lemma {:induction false} SecondJobIff(run: seq<Action>, t: Tick)
    requires FeasibleRun(run)
    ensures Stores(Reach(run).h, TickKey(t)) >= 2 <==> Late(run, t)
  {
    if run == [] {
    } else {
      var n := |run| - 1;
      var w := Reach(run[..n]);
      SecondJobIff(run[..n], t);
      RunKeeps(run[..n]);
      StepStores(w, run[n], t);
      StoresBacked(w.h, t);
    }
  }

  /** Every claimed tick has a job, and exactly one unless an attempt was late. */
  lemma {:induction false} ClaimedTickHasOneJob(run: seq<Action>, i: nat)
    requires FeasibleRun(run) && i < |Reach(run).wins|
    ensures var n := Stores(Reach(run).h, TickKey(Reach(run).wins[i].tick));
      n >= 1 && (n == 1 <==> !Late(run, Reach(run).wins[i].tick))
  {
    var t := Reach(run).wins[i].tick;
    RunKeeps(run);
    assert WonOk(Reach(run).h, Reach(run).cron, Reach(run).wins[i]);
    StoresBacked(Reach(run).h, t);
    SecondJobIff(run, t);
  }

  lemma {:induction false} RunSnoc(run: seq<Action>, a: Action)
    ensures Reach(run + [a]) == Do(Reach(run), a)
    ensures FeasibleRun(run + [a]) <==> FeasibleRun(run) && Feasible(Reach(run), a)
  {
    assert (run + [a])[..|run + [a]| - 1] == run;
  }

  lemma OneDue(id: string, at: int, now: int)
    requires at <= now
    ensures DueTicks(map[id := at], CRON_BATCH, now) == [Tick(id, at)]
  {
    var cron := map[id := at];
    assert DueEntries(cron, now) == {id};
    AllReported(cron, CRON_BATCH, now, id);
  }

  /** Process `p` starts over and reads the one entry, on its tick. */
  lemma {:induction false} ReadAgain(run: seq<Action>, p: string, id: string, at: int, now: int)
    returns (longer: seq<Action>)
    requires FeasibleRun(run) && Reach(run).cron == map[id := at] && !Broker(Reach(run)).closed && at <= now
    ensures FeasibleRun(longer)
    ensures var w := Reach(longer);
      w.h == Reach(run).h && w.cron == Reach(run).cron && ToFire(w, p) && Head(w, p) == Tick(id, at)
  {
    RunSnoc(run, Crash(p));
    RunSnoc(run + [Crash(p)], ReadDue(p, now));
    OneDue(id, at, now);
    longer := run + [Crash(p)] + [ReadDue(p, now)];
  }

  lemma {:induction false} FireAgain(run: seq<Action>, p: string, e: Entry, t: Tick, now: int, newId: string)
    returns (longer: seq<Action>)
    requires FeasibleRun(run) && newId !in Broker(Reach(run)).jobs
    requires Attempts(Reach(run), Fire(p, Some(e), now, now, newId), t)
    requires !Backed(Reach(run).h, t) || LateAttempt(Reach(run), Fire(p, Some(e), now, now, newId), t)
    ensures FeasibleRun(longer) && longer == run + [Fire(p, Some(e), now, now, newId)]
    ensures Stores(Reach(longer).h, TickKey(t)) == Stores(Reach(run).h, TickKey(t)) + 1
    ensures Reach(longer).h == Reach(run).h + [Stamped(now, Inserted(Envelope(TickJob(t, e), newId, now)))]
    ensures Reach(longer).cron == Reach(run).cron
  {
    var a := Fire(p, Some(e), now, now, newId);
    RunSnoc(run, a);
    RunKeeps(run);
    StepStores(Reach(run), a, t);
    AttemptStoresIff(Reach(run), a, t);
    longer := run + [a];
  }

  /** It does happen, with no other use of the broker at all: one scheduler
      enqueues the tick and crashes before the claim, and the next one comes up
      five minutes later. `e` is any entry that fires at `at` and goes on. */
  lemma {:induction false} CrashThenLate(id: string, e: Entry, clock: int, at: int, late: int)
    returns (run: seq<Action>)
    requires id != "" && e.queue != "" && e.kind != ""
    requires NaiveNext(e.schedule, clock) == Some(at) && late >= at + CRON_TTL
    requires NaiveNext(e.schedule, at).Some? && NaiveNext(e.schedule, late).Some?
    ensures FeasibleRun(run) && Stores(Reach(run).h, TickKey(Tick(id, at))) == 2
    ensures Reach(run).cron == map[id := at]
  {
    var t := Tick(id, at);
    RunSnoc([], Seed(id, e, clock));
    var seeded := ReadAgain([] + [Seed(id, e, clock)], "a", id, at, at);
    var first := FireAgain(seeded, "a", e, t, at, "1");
    var w := Reach(first);
    assert w.h[..0] == [];
    var again := ReadAgain(first, "b", id, at, late);
    assert w.h[|w.h| - 1].event.job.uniqueKey == TickKey(t);
    run := FireAgain(again, "b", e, t, late, "2");
  }

  /** Enqueue and claim with nothing in between. */
  lemma {:induction false} FireThenClaim(w: World, p: string, e: Entry, now: int, newId: string)
    requires ToFire(w, p) && !Broker(w).closed && e.queue != "" && e.kind != ""
    requires Head(w, p).fireAt <= now && Head(w, p).id in w.cron && w.cron[Head(w, p).id] == Head(w, p).fireAt
    requires NaiveNext(e.schedule, now).Some?
    ensures var t, v := Head(w, p), DoClaim(DoFire(w, p, Some(e), now, now, newId), p);
      var next := NaiveNext(e.schedule, now).value;
      v.cron == w.cron[t.id := next] && next > now && v.wins == w.wins + [Won(t, next)] && Backed(v.h, t)
  {
    var t := Head(w, p);
    NextAdvances(e.schedule, now);
    EnqueueBacks(w.h, t, e, newId, now);
    StillOpen(w.h, TickJob(t, e), newId, now);
  }

  /** An undisturbed pass over a due tick stores a job for it, unless it has one,
      and moves its entry to after now, past ticks missed meanwhile. */
  lemma {:induction false} PassFires(run: seq<Action>, p: string, e: Entry, now: int, newId: string)
    returns (longer: seq<Action>)
    requires FeasibleRun(run) && newId !in Broker(Reach(run)).jobs && !Broker(Reach(run)).closed
    requires e.queue != "" && e.kind != "" && NaiveNext(e.schedule, now).Some?
    requires DueTicks(Reach(run).cron, CRON_BATCH, now) != []
    ensures FeasibleRun(longer)
    ensures var t, next := DueTicks(Reach(run).cron, CRON_BATCH, now)[0], NaiveNext(e.schedule, now).value;
      && Reach(longer).cron == Reach(run).cron[t.id := next] && next > now
      && Reach(longer).wins == Reach(run).wins + [Won(t, next)] && Backed(Reach(longer).h, t)
  {
    var reading := ReadPass(run, p, now);
    var fire := Fire(p, Some(e), now, now, newId);
    RunSnoc(reading, fire);
    RunSnoc(reading + [fire], Claim(p));
    FireThenClaim(Reach(reading), p, e, now, newId);
    longer := reading + [fire] + [Claim(p)];
  }

  lemma ReadPass(run: seq<Action>, p: string, now: int) returns (longer: seq<Action>)
    requires FeasibleRun(run) && !Broker(Reach(run)).closed && DueTicks(Reach(run).cron, CRON_BATCH, now) != []
    ensures FeasibleRun(longer)
    ensures var w, v, t := Reach(run), Reach(longer), DueTicks(Reach(run).cron, CRON_BATCH, now)[0];
      && v.h == w.h && v.cron == w.cron && v.wins == w.wins && ToFire(v, p) && Head(v, p) == t
      && t.id in v.cron && v.cron[t.id] == t.fireAt <= now
  {
    RunSnoc(run, ReadDue(p, now));
    DueTicksSoonest(Reach(run).cron, CRON_BATCH, now);
    longer := run + [ReadDue(p, now)];
  }

  lemma StillOpen(h: seq<Stamped>, j: Job, newId: string, now: int)
    ensures var s := After(EMPTY, h);
      After(EMPTY, h + OnEnqueue(s, j, newId, now)).closed == s.closed
  {
    var s := After(EMPTY, h);
    var g := OnEnqueue(s, j, newId, now);
    AfterConcat(EMPTY, h, g);
    if g != [] { OneLegal(s, g[0]); }
  }
}
