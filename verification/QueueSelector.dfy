/** Which order a worker tries its queues in (queues.go): weighted random
    sampling without replacement. */
module QueueSelector {
  import opened Order

  /** `rand.IntN`: the draw of the given step, below the given bound. */
  type Draws = (nat, int) -> int

  ghost predicate Bounded(draws: Draws) {
    forall k: nat, n :: n > 0 ==> 0 <= draws(k, n) < n
  }

  /** Every index names a queue and every queue has a positive weight. */
  predicate PoolOk(weights: seq<int>, pool: seq<nat>) {
    && (forall i :: 0 <= i < |weights| ==> weights[i] >= 1)
    && (forall k :: 0 <= k < |pool| ==> pool[k] < |weights|)
  }

  /** The summed weight of the first `n` queues of the pool. */
  function Weight(weights: seq<int>, pool: seq<nat>, n: nat): (w: int)
    requires PoolOk(weights, pool) && n <= |pool|
    ensures w >= n
  {
    if n == 0 then 0 else Weight(weights, pool, n - 1) + weights[pool[n - 1]]
  }

  function Total(weights: seq<int>, pool: seq<nat>): int
    requires PoolOk(weights, pool)
  {
    Weight(weights, pool, |pool|)
  }

  lemma {:induction false} WeightGrows(weights: seq<int>, pool: seq<nat>, m: nat, n: nat)
    requires PoolOk(weights, pool) && m <= n <= |pool|
    ensures Weight(weights, pool, m) + (n - m) <= Weight(weights, pool, n)
  {
    if m < n { WeightGrows(weights, pool, m, n - 1); }
  }

  /** Draw `r` falls into the share of position `k`. */
  predicate Hits(weights: seq<int>, pool: seq<nat>, r: int, k: nat)
    requires PoolOk(weights, pool) && k < |pool|
  {
    Weight(weights, pool, k) <= r < Weight(weights, pool, k + 1)
  }

  lemma HitsOne(weights: seq<int>, pool: seq<nat>, r: int, j: nat, k: nat)
    requires PoolOk(weights, pool) && j < |pool| && k < |pool|
    requires Hits(weights, pool, r, j) && Hits(weights, pool, r, k)
    ensures j == k
  {
    if j < k {
      WeightGrows(weights, pool, j + 1, k);
    } else if k < j {
      WeightGrows(weights, pool, k + 1, j);
    }
  }

  /** A draw below the total weight hits exactly one position. */
  function Pick(weights: seq<int>, pool: seq<nat>, r: int, n: nat): (k: nat)
    requires PoolOk(weights, pool) && n <= |pool| && 0 <= r < Weight(weights, pool, n)
    ensures k < n && Hits(weights, pool, r, k)
  {
    if r >= Weight(weights, pool, n - 1) then n - 1 else Pick(weights, pool, r, n - 1)
  }

  function Without(pool: seq<nat>, k: nat): (rest: seq<nat>)
    requires k < |pool|
    ensures |rest| == |pool| - 1
  {
    pool[..k] + pool[k + 1..]
  }

  /** Sampling without replacement from `pool`, spending draws from `step` on. */
  function Sample(names: seq<string>, weights: seq<int>, pool: seq<nat>, draws: Draws, step: nat): seq<string>
    requires |names| == |weights| && PoolOk(weights, pool)
    decreases |pool|
  {
    if pool == [] then [] else
      var r := draws(step, Total(weights, pool));
      if !(0 <= r < Total(weights, pool)) then [] else
        var k := Pick(weights, pool, r, |pool|);
        [names[pool[k]]] + Sample(names, weights, Without(pool, k), draws, step + 1)
  }

  function NamesAt(names: seq<string>, pool: seq<nat>): (r: seq<string>)
    requires forall k :: 0 <= k < |pool| ==> pool[k] < |names|
    ensures |r| == |pool| && forall k :: 0 <= k < |pool| ==> r[k] == names[pool[k]]
  {
    seq(|pool|, k requires 0 <= k < |pool| => names[pool[k]])
  }

  function Everyone(n: nat): (pool: seq<nat>)
    ensures |pool| == n && forall k :: 0 <= k < n ==> pool[k] == k
  {
    seq(n, k => k)
  }

  lemma TakeOut(all: seq<string>, k: nat)
    requires k < |all|
    ensures multiset([all[k]] + (all[..k] + all[k + 1..])) == multiset(all)
  {
    assert all == all[..k] + ([all[k]] + all[k + 1..]);
  }

  lemma NamesWithout(names: seq<string>, pool: seq<nat>, k: nat)
    requires k < |pool| && forall k :: 0 <= k < |pool| ==> pool[k] < |names|
    ensures forall k' :: 0 <= k' < |pool| - 1 ==> Without(pool, k)[k'] < |names|
    ensures multiset([names[pool[k]]] + NamesAt(names, Without(pool, k))) == multiset(NamesAt(names, pool))
  {
    var all := NamesAt(names, pool);
    assert NamesAt(names, Without(pool, k)) == all[..k] + all[k + 1..];
    TakeOut(all, k);
  }

  /** One step of the sampling. */
  lemma SampleStep(names: seq<string>, weights: seq<int>, pool: seq<nat>, draws: Draws, step: nat) returns (k: nat)
    requires |names| == |weights| && PoolOk(weights, pool) && pool != [] && Bounded(draws)
    ensures 0 <= draws(step, Total(weights, pool)) < Total(weights, pool)
    ensures k == Pick(weights, pool, draws(step, Total(weights, pool)), |pool|) && PoolOk(weights, Without(pool, k))
    ensures Sample(names, weights, pool, draws, step)
         == [names[pool[k]]] + Sample(names, weights, Without(pool, k), draws, step + 1)
  {
    k := Pick(weights, pool, draws(step, Total(weights, pool)), |pool|);
  }

  /** Whatever is drawn, every queue of the pool comes up exactly once. */
  lemma {:induction false} SamplePermutes(names: seq<string>, weights: seq<int>, pool: seq<nat>, draws: Draws,
                                          step: nat)
    requires |names| == |weights| && PoolOk(weights, pool) && Bounded(draws)
    ensures multiset(Sample(names, weights, pool, draws, step)) == multiset(NamesAt(names, pool))
    decreases |pool|
  {
    if pool == [] {
    } else {
      var k := SampleStep(names, weights, pool, draws, step);
      SamplePermutes(names, weights, Without(pool, k), draws, step + 1);
      NamesWithout(names, pool, k);
    }
  }

  /** The draws `rand.IntN(n)` can return, or a part of them. */
  function Span(low: int, high: int): (r: set<int>)
    ensures forall x :: x in r <==> low <= x < high
    decreases high - low
  {
    if low >= high then {} else Span(low, high - 1) + {high - 1}
  }

  lemma {:induction false} SpanSize(low: int, high: int)
    requires low <= high
    ensures |Span(low, high)| == high - low
    decreases high - low
  {
    if low < high { SpanSize(low, high - 1); }
  }

  /** The draws that pick position `k`. */
  function Picking(weights: seq<int>, pool: seq<nat>, k: nat): set<int>
    requires PoolOk(weights, pool)
  {
    set r | r in Span(0, Total(weights, pool)) && Pick(weights, pool, r, |pool|) == k
  }

  /** Of the draws possible at a step, exactly as many pick position `k` as its
      queue has weight. */
  lemma {:induction false} ShareIsWeight(weights: seq<int>, pool: seq<nat>, k: nat)
    requires PoolOk(weights, pool) && k < |pool|
    ensures |Picking(weights, pool, k)| == weights[pool[k]]
  {
    var low, high := Weight(weights, pool, k), Weight(weights, pool, k + 1);
    WeightGrows(weights, pool, k + 1, |pool|);
    forall r | 0 <= r < Total(weights, pool)
      ensures Pick(weights, pool, r, |pool|) == k <==> low <= r < high
    {
      if low <= r < high { HitsOne(weights, pool, r, Pick(weights, pool, r, |pool|), k); }
    }
    assert Picking(weights, pool, k) == Span(low, high);
    SpanSize(low, high);
  }

  /** The first draws for which the order starts with `name`. */
  function Leading(names: seq<string>, weights: seq<int>, name: string): set<int>
    requires |names| == |weights| && PoolOk(weights, Everyone(|names|))
  {
    set r | r in Span(0, Total(weights, Everyone(|names|))) && Leads(names, weights, r, name)
  }

  /** The order starts with queue `i` for exactly `weights[i]` of the total first
      draws, the names being distinct. */
  lemma {:induction false} LeadShare(names: seq<string>, weights: seq<int>, i: nat)
    requires |names| == |weights| && i < |names| && NoDup(names) && PoolOk(weights, Everyone(|names|))
    ensures |Leading(names, weights, names[i])| == weights[i]
  {
    var all := Everyone(|names|);
    ShareIsWeight(weights, all, i);
    forall r | 0 <= r < Total(weights, all)
      ensures Leads(names, weights, r, names[i]) <==> Pick(weights, all, r, |all|) == i
    {
      LeadIsPick(names, weights, r);
    }
    assert Leading(names, weights, names[i]) == Picking(weights, all, i);
  }

  lemma LeadIsPick(names: seq<string>, weights: seq<int>, r: int)
    requires |names| == |weights| && names != [] && PoolOk(weights, Everyone(|names|))
    requires 0 <= r < Total(weights, Everyone(|names|))
    ensures Leads(names, weights, r, names[Pick(weights, Everyone(|names|), r, |names|)])
    ensures forall n :: Leads(names, weights, r, n) ==> n == names[Pick(weights, Everyone(|names|), r, |names|)]
  {
    var all := Everyone(|names|);
    assert all != [];
  }

  /** With first draw `r`, the order starts with `name`. */
  predicate Leads(names: seq<string>, weights: seq<int>, r: int, name: string)
    requires |names| == |weights| && PoolOk(weights, Everyone(|names|))
    requires 0 <= r < Total(weights, Everyone(|names|))
  {
    var order := Sample(names, weights, Everyone(|names|), (step: nat, n: int) => r, 0);
    order != [] && order[0] == name
  }

  lemma AllNames(names: seq<string>, all: seq<nat>)
    requires all == Everyone(|names|)
    ensures NamesAt(names, all) == names
  {
  }

  lemma OrderPermutes(names: seq<string>, weights: seq<int>, draws: Draws)
    requires |names| == |weights| && PoolOk(weights, Everyone(|names|)) && Bounded(draws)
    ensures multiset(Sample(names, weights, Everyone(|names|), draws, 0)) == multiset(names)
  {
    var all := Everyone(|names|);
    SamplePermutes(names, weights, all, draws, 0);
    AllNames(names, all);
  }

  /** One turn of the loop: the names drawn so far and those still to draw make
      the same order as before, and the weight left is that of the pool. */
  lemma SampleTurn(order: seq<string>, names: seq<string>, weights: seq<int>, pool: seq<nat>, draws: Draws)
    returns (k: nat)
    requires |names| == |weights| && PoolOk(weights, pool) && pool != [] && Bounded(draws)
    ensures 0 <= draws(|order|, Total(weights, pool)) < Total(weights, pool)
    ensures k == Pick(weights, pool, draws(|order|, Total(weights, pool)), |pool|) && PoolOk(weights, Without(pool, k))
    ensures order + [names[pool[k]]] + Sample(names, weights, Without(pool, k), draws, |order| + 1)
         == order + Sample(names, weights, pool, draws, |order|)
    ensures Total(weights, Without(pool, k)) == Total(weights, pool) - weights[pool[k]]
  {
    k := SampleStep(names, weights, pool, draws, |order|);
    TotalWithout(weights, pool, k);
  }

  class Selector {
    const names: seq<string>
    const weights: seq<int>
    const total: int
    const strict: bool
    var order: seq<string>
    var pool: seq<nat>

    ghost predicate Valid() {
      && |names| == |weights| && PoolOk(weights, Everyone(|names|))
      && total == Total(weights, Everyone(|names|))
    }

    /** Unconfigured queues weigh 1; configured weights are at least 1, as
        `NewServer` insists. */
    constructor (names: seq<string>, configured: map<string, int>, strict: bool)
      requires forall n :: n in configured ==> configured[n] >= 1
      ensures Valid() && this.names == names && this.strict == strict
      ensures forall i :: 0 <= i < |names| ==> weights[i] == if names[i] in configured then configured[names[i]] else 1
    {
      var ws: seq<int>, sum := [], 0;
      for i := 0 to |names|
        invariant |ws| == i && PoolOk(ws, Everyone(i)) && sum == Total(ws, Everyone(i))
        invariant forall j :: 0 <= j < i ==> ws[j] == if names[j] in configured then configured[names[j]] else 1
      {
        var w := 1;
        if names[i] in configured {
          w := configured[names[i]];
        }
        TotalNext(ws, w);
        ws := ws + [w];
        sum := sum + w;
      }
      this.names := names;
      this.weights := ws;
      this.total := sum;
      this.strict := strict;
      this.order := [];
      this.pool := [];
    }

    /** The order of one poll: the configured order if there is nothing to
        decide, else a sample, which is a permutation of the names. */
    method Next(draws: Draws) returns (r: seq<string>)
      requires Valid() && Bounded(draws)
      modifies this`order, this`pool
      ensures r == if strict || |names| < 2 then names else Sample(names, weights, Everyone(|names|), draws, 0)
      ensures multiset(r) == multiset(names)
    {
      if strict || |names| < 2 {
        return names;
      }
      DrawAll(draws);
      OrderPermutes(names, weights, draws);
      return order;
    }

    method DrawAll(draws: Draws)
      requires Valid() && Bounded(draws)
      modifies this`order, this`pool
      ensures order == Sample(names, weights, Everyone(|names|), draws, 0) && pool == []
    {
      pool := Everyone(|names|);
      order := [];
      ghost var goal := Sample(names, weights, pool, draws, 0);
      var remaining := total;
      while |pool| > 0
        invariant PoolOk(weights, pool) && remaining == Total(weights, pool)
        invariant order + Sample(names, weights, pool, draws, |order|) == goal
        decreases |pool|
      {
        ghost var k := SampleTurn(order, names, weights, pool, draws);
        var pick := Walk(draws(|order|, remaining));
        var idx := pool[pick];
        order := order + [names[idx]];
        remaining := remaining - weights[idx];
        pool := Without(pool, pick);
      }
    }

    /** Walks the cumulative weights up to the draw; it always hits. */
    method Walk(r: int) returns (pick: nat)
      requires |names| == |weights| && PoolOk(weights, pool) && 0 <= r < Total(weights, pool)
      ensures pick < |pool| && pick == Pick(weights, pool, r, |pool|)
    {
      pick := 0;
      var acc := 0;
      for k := 0 to |pool|
        invariant acc == Weight(weights, pool, k) <= r
      {
        acc := acc + weights[pool[k]];
        if r < acc {
          HitsOne(weights, pool, r, k, Pick(weights, pool, r, |pool|));
          return k;
        }
      }
    }
  }

  lemma {:induction false} WeightSame(ws: seq<int>, vs: seq<int>, pool: seq<nat>, qool: seq<nat>, n: nat)
    requires PoolOk(ws, pool) && PoolOk(vs, qool) && n <= |pool| && n <= |qool|
    requires forall k :: 0 <= k < n ==> ws[pool[k]] == vs[qool[k]]
    ensures Weight(ws, pool, n) == Weight(vs, qool, n)
  {
    if n > 0 { WeightSame(ws, vs, pool, qool, n - 1); }
  }

  lemma TotalNext(ws: seq<int>, w: int)
    requires PoolOk(ws, Everyone(|ws|)) && w >= 1
    ensures PoolOk(ws + [w], Everyone(|ws| + 1))
    ensures Total(ws + [w], Everyone(|ws| + 1)) == Total(ws, Everyone(|ws|)) + w
  {
    WeightSame(ws, ws + [w], Everyone(|ws|), Everyone(|ws| + 1), |ws|);
  }

  lemma {:induction false} TotalWithout(weights: seq<int>, pool: seq<nat>, k: nat)
    requires PoolOk(weights, pool) && k < |pool|
    ensures PoolOk(weights, Without(pool, k))
    ensures Total(weights, Without(pool, k)) == Total(weights, pool) - weights[pool[k]]
    decreases |pool|
  {
    var rest := Without(pool, k);
    WeightSame(weights, weights, pool, rest, k);
    WeightShift(weights, pool, k, |pool|);
  }

  lemma {:induction false} WeightShift(weights: seq<int>, pool: seq<nat>, k: nat, n: nat)
    requires PoolOk(weights, pool) && k < n <= |pool| && PoolOk(weights, Without(pool, k))
    requires Weight(weights, pool, k) == Weight(weights, Without(pool, k), k)
    ensures Weight(weights, Without(pool, k), n - 1) == Weight(weights, pool, n) - weights[pool[k]]
  {
    if n > k + 1 {
      WeightShift(weights, pool, k, n - 1);
      assert Without(pool, k)[n - 2] == pool[n - 1];
    }
  }
}
