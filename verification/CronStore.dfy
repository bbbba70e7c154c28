/** The table of cron entries and their next fire times (internal/memory/cron.go;
    internal/rdb/cron.go keeps the same table in a sorted set). */
module CronStore {
  import opened Order

  /** One tick of one entry. */
  datatype Tick = Tick(id: string, fireAt: int)

  datatype CronReply<T> = Done(value: T) | InvalidEntry | StoreClosed

  function DueEntries(cron: map<string, int>, now: int): set<string> {
    set id | id in cron && cron[id] <= now
  }

  function Ticks(cron: map<string, int>, ids: seq<string>): seq<Tick>
    requires forall id :: id in ids ==> id in cron
  {
    seq(|ids|, k requires 0 <= k < |ids| => Tick(ids[k], cron[ids[k]]))
  }

  /** The due ticks, soonest first and ties by ID, at most `limit` of them. */
  function DueTicks(cron: map<string, int>, limit: int, now: int): seq<Tick> {
    Ticks(cron, Take(Sorted(DueEntries(cron, now), cron), limit))
  }

  lemma {:induction false} DueTickAt(cron: map<string, int>, limit: int, now: int, k: nat)
    requires k < |DueTicks(cron, limit, now)|
    ensures k < |DueEntries(cron, now)| && Sorted(DueEntries(cron, now), cron)[k] in cron
    ensures var id := Sorted(DueEntries(cron, now), cron)[k];
      DueTicks(cron, limit, now)[k] == Tick(id, cron[id]) && cron[id] <= now
  {
    var sorted := Sorted(DueEntries(cron, now), cron);
    assert sorted[k] in sorted;
  }

  /** An entry that is due but not reported comes after all that are. */
  lemma {:induction false} LeftOut(cron: map<string, int>, limit: int, now: int, id: string, k: nat)
    requires id in DueEntries(cron, now) && Tick(id, cron[id]) !in DueTicks(cron, limit, now)
    requires k < |DueTicks(cron, limit, now)|
    ensures DueTicks(cron, limit, now)[k].fireAt <= cron[id] && limit < |DueEntries(cron, now)|
  {
    var sorted, due := Sorted(DueEntries(cron, now), cron), DueTicks(cron, limit, now);
    SortedAscending(DueEntries(cron, now), cron);
    var i :| 0 <= i < |sorted| && sorted[i] == id;
    if i < |due| { DueTickAt(cron, limit, now, i); }
    DueTickAt(cron, limit, now, k);
  }

  /** What is reported is due and current, soonest first and each entry once;
      and an entry left out is no sooner than any reported. */
  lemma {:induction false} DueTicksSoonest(cron: map<string, int>, limit: int, now: int)
    ensures var due := DueTicks(cron, limit, now);
      && (forall k :: 0 <= k < |due| ==> due[k].id in cron && cron[due[k].id] == due[k].fireAt <= now)
      && (forall i, k :: 0 <= i < k < |due| ==> due[i].fireAt <= due[k].fireAt && due[i].id != due[k].id)
      && (forall id, k :: id in DueEntries(cron, now) && Tick(id, cron[id]) !in due && 0 <= k < |due|
            ==> due[k].fireAt <= cron[id])
  {
    var due := DueTicks(cron, limit, now);
    SortedAscending(DueEntries(cron, now), cron);
    forall k | 0 <= k < |due| ensures due[k].id in cron && cron[due[k].id] == due[k].fireAt <= now {
      DueTickAt(cron, limit, now, k);
    }
    forall id, k | id in DueEntries(cron, now) && Tick(id, cron[id]) !in due && 0 <= k < |due|
      ensures due[k].fireAt <= cron[id]
    {
      LeftOut(cron, limit, now, id, k);
    }
  }

  /** Everything due is reported when the limit allows. */
  lemma {:induction false} AllReported(cron: map<string, int>, limit: int, now: int, id: string)
    requires id in DueEntries(cron, now) && limit >= |DueEntries(cron, now)|
    ensures Tick(id, cron[id]) in DueTicks(cron, limit, now)
  {
    var sorted := Sorted(DueEntries(cron, now), cron);
    var i :| 0 <= i < |sorted| && sorted[i] == id;
    DueTickAt(cron, limit, now, i);
  }

  /** Exactly which entries are reported: those whose time has come, unless `limit`
      others are due sooner. */
  lemma {:induction false} ReportedIff(cron: map<string, int>, limit: int, now: int, id: string)
    requires id in cron
    ensures Tick(id, cron[id]) in DueTicks(cron, limit, now) <==>
      cron[id] <= now && |Sooner((set y | y in cron && cron[y] <= now), cron, id)| < limit
  {
    var all := DueEntries(cron, now);
    var ids := Take(Sorted(all, cron), limit);
    assert (set y | y in cron && cron[y] <= now) == all;
    assert Tick(id, cron[id]) in DueTicks(cron, limit, now) <==> id in ids by {
      TicksMember(cron, ids, id);
    }
    if id in all {
      TakenIff(all, cron, limit, id);
    } else {
      assert id !in Sorted(all, cron);
    }
  }

  lemma TicksMember(cron: map<string, int>, ids: seq<string>, id: string)
    requires id in cron && forall x :: x in ids ==> x in cron
    ensures Tick(id, cron[id]) in Ticks(cron, ids) <==> id in ids
  {
    if id in ids {
      var k :| 0 <= k < |ids| && ids[k] == id;
      assert Ticks(cron, ids)[k] == Tick(id, cron[id]);
    }
  }

  class Store {
    var cron: map<string, int>
    var closed: bool

    constructor ()
      ensures cron == map[] && !closed
    {
      cron := map[];
      closed := false;
    }

    /** Records a first fire time; never moves a running schedule. */
    method ScheduleCronIfAbsent(id: string, at: int) returns (r: CronReply<bool>)
      modifies this`cron
      ensures r == if id == "" then InvalidEntry else if closed then StoreClosed else Done(id !in old(cron))
      ensures cron == if r == Done(true) then old(cron)[id := at] else old(cron)
    {
      if id == "" { return InvalidEntry; }
      if closed { return StoreClosed; }
      if id in cron { return Done(false); }
      cron := cron[id := at];
      return Done(true);
    }

    method DueCron(limit: int, now: int) returns (r: CronReply<seq<Tick>>)
      ensures r == if limit <= 0 then Done([]) else if closed then StoreClosed else Done(DueTicks(cron, limit, now))
    {
      if limit <= 0 { return Done([]); }
      if closed { return StoreClosed; }
      var ids := {};
      var rest := cron.Keys;
      while rest != {}
        invariant rest <= cron.Keys && ids == DueEntries(cron, now) - rest
      {
        var id :| id in rest;
        rest := rest - {id};
        if cron[id] > now {
          continue;
        }
        ids := ids + {id};
      }
      assert ids == DueEntries(cron, now);
      return Done(Ticks(cron, Take(Sorted(ids, cron), limit)));
    }

    /** Compare-and-set on the expected fire time: of several claims of one tick
        the first wins, since it moves the entry off the tick. */
    method ClaimCron(id: string, firedAt: int, nextAt: int) returns (r: CronReply<bool>)
      modifies this`cron
      ensures r == if closed then StoreClosed else Done(id in old(cron) && old(cron)[id] == firedAt)
      ensures cron == if r == Done(true) then old(cron)[id := nextAt] else old(cron)
    {
      if closed { return StoreClosed; }
      if id !in cron || cron[id] != firedAt { return Done(false); }
      cron := cron[id := nextAt];
      return Done(true);
    }
  }
}
