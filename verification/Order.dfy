/** The one ordering both brokers share: soonest time first, ties broken by ID.
    The in-memory broker sorts its candidates this way and a Redis sorted set
    yields its members this way. */
module Order {

  /** Byte-wise lexicographic order on identifiers. */
  predicate StrLess(a: string, b: string) {
    b != "" && (a == "" || a[0] < b[0] || (a[0] == b[0] && StrLess(a[1..], b[1..])))
  }

  lemma {:induction false} StrLessTotal(a: string, b: string)
    ensures a == b || StrLess(a, b) || StrLess(b, a)
    ensures !(StrLess(a, b) && StrLess(b, a))
    ensures !StrLess(a, a)
  {
    if a != "" && b != "" {
      StrLessTotal(a[1..], b[1..]);
      assert a[0] == b[0] && a[1..] == b[1..] ==> a == [a[0]] + a[1..] == b;
    }
    if a != "" {
      StrLessTotal(a[1..], a[1..]);
    }
  }

  lemma {:induction false} StrLessTransitive(a: string, b: string, c: string)
    requires StrLess(a, b) && StrLess(b, c)
    ensures StrLess(a, c)
  {
    if a != "" && a[0] == b[0] == c[0] {
      StrLessTransitive(a[1..], b[1..], c[1..]);
    }
  }

  /** `x` comes strictly before `y` in (time, ID) order. */
  predicate Before(at: map<string, int>, x: string, y: string)
    requires x in at && y in at
  {
    at[x] < at[y] || (at[x] == at[y] && StrLess(x, y))
  }

  lemma BeforeTotal(at: map<string, int>, x: string, y: string)
    requires x in at && y in at
    ensures x == y || Before(at, x, y) || Before(at, y, x)
    ensures !(Before(at, x, y) && Before(at, y, x))
    ensures !Before(at, x, x)
  {
    StrLessTotal(x, y);
    StrLessTotal(x, x);
  }

  lemma BeforeTransitive(at: map<string, int>, x: string, y: string, z: string)
    requires x in at && y in at && z in at
    requires Before(at, x, y) && Before(at, y, z)
    ensures Before(at, x, z)
  {
    if at[x] == at[y] == at[z] {
      StrLessTransitive(x, y, z);
    }
  }

  predicate IsLeast(ids: set<string>, at: map<string, int>, m: string)
    requires ids <= at.Keys
  {
    m in ids && forall x :: x in ids && x != m ==> Before(at, m, x)
  }

  lemma LeastExists(ids: set<string>, at: map<string, int>)
    requires ids != {} && ids <= at.Keys
    ensures exists m :: IsLeast(ids, at, m)
  {
    var x :| x in ids;
    if ids == {x} {
      assert IsLeast(ids, at, x);
    } else {
      var rest := ids - {x};
      assert ids == {x} + rest;
      LeastExists(rest, at);
      var m :| IsLeast(rest, at, m);
      BeforeTotal(at, m, x);
      if Before(at, x, m) {
        forall y | y in ids && y != x ensures Before(at, x, y) {
          if y != m { BeforeTransitive(at, x, m, y); }
        }
        assert IsLeast(ids, at, x);
      } else {
        assert IsLeast(ids, at, m);
      }
    }
  }

  lemma LeastUnique(ids: set<string>, at: map<string, int>, m: string, n: string)
    requires ids <= at.Keys && IsLeast(ids, at, m) && IsLeast(ids, at, n)
    ensures m == n
  {
    BeforeTotal(at, m, n);
  }

  function Least(ids: set<string>, at: map<string, int>): (m: string)
    requires ids != {} && ids <= at.Keys
    ensures IsLeast(ids, at, m)
  {
    LeastExists(ids, at);
    assert forall m, n :: IsLeast(ids, at, m) && IsLeast(ids, at, n) ==> m == n by {
      forall m, n | IsLeast(ids, at, m) && IsLeast(ids, at, n) ensures m == n {
        LeastUnique(ids, at, m, n);
      }
    }
    var m :| IsLeast(ids, at, m); m
  }

  /** The members of `ids`, soonest first. */
  function Sorted(ids: set<string>, at: map<string, int>): (r: seq<string>)
    requires ids <= at.Keys
    ensures |r| == |ids|
    ensures forall x :: x in r <==> x in ids
    decreases |ids|
  {
    if ids == {} then [] else
      var m := Least(ids, at);
      [m] + Sorted(ids - {m}, at)
  }

  ghost predicate NoDup<T>(xs: seq<T>) {
    forall i, j :: 0 <= i < j < |xs| ==> xs[i] != xs[j]
  }

  ghost predicate Ascending(xs: seq<string>, at: map<string, int>)
    requires forall x :: x in xs ==> x in at
  {
    forall i, j :: 0 <= i < j < |xs| ==> Before(at, xs[i], xs[j])
  }

  lemma {:induction false} SortedAscending(ids: set<string>, at: map<string, int>)
    requires ids <= at.Keys
    ensures Ascending(Sorted(ids, at), at) && NoDup(Sorted(ids, at))
    decreases |ids|
  {
    if ids != {} {
      var m := Least(ids, at);
      SortedAscending(ids - {m}, at);
      var tail := Sorted(ids - {m}, at);
      assert forall i :: 0 <= i < |tail| ==> tail[i] in tail;
    }
  }

  /** Any ascending listing of a set is *the* sorted listing: sorting has one
      possible result, whatever order the candidates were gathered in. */
  lemma {:induction false} SortedUnique(xs: seq<string>, ids: set<string>, at: map<string, int>)
    requires ids <= at.Keys
    requires forall x :: x in xs <==> x in ids
    requires Ascending(xs, at)
    ensures xs == Sorted(ids, at)
    decreases |xs|
  {
    if xs == [] {
      assert ids == {};
    } else {
      assert xs[0] in ids;
      assert IsLeast(ids, at, xs[0]);
      LeastUnique(ids, at, xs[0], Least(ids, at));
      var rest := ids - {xs[0]};
      forall x ensures x in xs[1..] <==> x in rest {
        if x == xs[0] && x in xs[1..] {
          var i :| 0 <= i < |xs[1..]| && xs[1..][i] == x;
          assert Before(at, xs[0], xs[i + 1]);
          BeforeTotal(at, x, x);
        }
      }
      SortedUnique(xs[1..], rest, at);
    }
  }

  /** Sorting only looks at the times of the members being sorted. */
  lemma SortedAgrees(ids: set<string>, at: map<string, int>, bt: map<string, int>)
    requires ids <= at.Keys && ids <= bt.Keys
    requires forall x :: x in ids ==> at[x] == bt[x]
    ensures Sorted(ids, at) == Sorted(ids, bt)
  {
    SortedAscending(ids, at);
    SortedUnique(Sorted(ids, at), ids, bt);
  }

  /** The first `n` items, or all of them. */
  function Take<T>(xs: seq<T>, n: int): (r: seq<T>)
    ensures r <= xs
    ensures |r| == if n <= 0 then 0 else if n < |xs| then n else |xs|
  {
    if n <= 0 then [] else if n < |xs| then xs[..n] else xs
  }

  /** The candidates that are sooner than `x`, or as soon with a smaller ID. */
  function Sooner(ids: set<string>, at: map<string, int>, x: string): set<string>
    requires ids <= at.Keys && x in at
  {
    set y | y in ids && (at[y] < at[x] || (at[y] == at[x] && StrLess(y, x)))
  }

  lemma {:induction false} SoonerAt(ids: set<string>, at: map<string, int>, i: nat, y: string)
    requires ids <= at.Keys && i < |ids| && Sorted(ids, at)[i] in at
    ensures y in Sooner(ids, at, Sorted(ids, at)[i]) <==> y in Sorted(ids, at)[..i]
  {
    var sorted := Sorted(ids, at);
    SortedAscending(ids, at);
    assert sorted[i] in sorted;
    if y in ids {
      var k :| 0 <= k < |sorted| && sorted[k] == y;
      BeforeTotal(at, sorted[i], y);
      assert y in sorted[..i] <==> k < i;
    } else {
      assert y !in sorted;
    }
  }

  lemma {:induction false} SoonerCount(ids: set<string>, at: map<string, int>, i: nat)
    requires ids <= at.Keys && i < |ids| && Sorted(ids, at)[i] in at
    ensures |Sooner(ids, at, Sorted(ids, at)[i])| == i
  {
    var sorted := Sorted(ids, at);
    forall y ensures y in Sooner(ids, at, sorted[i]) <==> y in sorted[..i] { SoonerAt(ids, at, i, y); }
    assert Sooner(ids, at, sorted[i]) == set y | y in sorted[..i];
    SortedAscending(ids, at);
    NoDupSet(sorted[..i]);
  }

  /** What sorting and cutting off keeps: a candidate comes out exactly when fewer
      than `n` others are sooner. */
  lemma {:induction false} TakenIff(ids: set<string>, at: map<string, int>, n: int, x: string)
    requires ids <= at.Keys && x in ids
    ensures x in Take(Sorted(ids, at), n) <==> |Sooner(ids, at, x)| < n
  {
    var sorted, taken := Sorted(ids, at), Take(Sorted(ids, at), n);
    var i :| 0 <= i < |sorted| && sorted[i] == x;
    SoonerCount(ids, at, i);
    SortedAscending(ids, at);
    if i < n {
      assert taken[i] == x;
    } else {
      assert forall k :: 0 <= k < |taken| ==> taken[k] == sorted[k] != sorted[i];
    }
  }

  /** The order on identifiers is the dictionary order: a proper prefix comes first,
      else the first difference decides. */
  lemma {:induction false} DictionaryOrder(p: string, c: char, d: char, u: string, v: string)
    ensures StrLess(p, p + [c] + u)
    ensures c < d ==> StrLess(p + [c] + u, p + [d] + v)
  {
    if p == "" {
    } else {
      DictionaryOrder(p[1..], c, d, u, v);
      assert (p + [c] + u)[1..] == p[1..] + [c] + u && (p + [d] + v)[1..] == p[1..] + [d] + v;
    }
  }

  // ------------------------------------------------------------- cardinalities

  lemma {:induction false} NoDupSet(xs: seq<string>)
    requires NoDup(xs)
    ensures |set x | x in xs| == |xs|
  {
    if xs == [] {
    } else {
      var n := |xs| - 1;
      NoDupSet(xs[..n]);
      assert xs == xs[..n] + [xs[n]];
      assert (set x | x in xs) == (set x | x in xs[..n]) + {xs[n]};
    }
  }

  lemma {:induction false} SubsetSize<T>(a: set<T>, b: set<T>)
    requires a <= b
    ensures |a| <= |b| && |b - a| == |b| - |a|
  {
    if a != {} {
      var x :| x in a;
      SubsetSize(a - {x}, b - {x});
      assert b - a == (b - {x}) - (a - {x});
    } else {
      assert b - a == b;
    }
  }
}
