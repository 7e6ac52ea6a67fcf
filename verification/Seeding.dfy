/** k-means++ seeding. A random draw is an arbitrary value in its range, so the
    results hold for every seed of the generator; what was drawn is on record. */
module Seeding {
  import opened Vectors
  import opened Lloyd

  // An index below n, or a fraction in [0, 1).
  datatype Draw = Index(n: nat, i: nat) | Fraction(x: real)

  class Rand {
    ghost var drawn: seq<Draw>

    method IntN(n: nat) returns (i: nat)
      requires n > 0
      modifies this
      ensures i < n && drawn == old(drawn) + [Index(n, i)]
    {
      var any: nat := *;
      i := any % n;
      drawn := drawn + [Index(n, i)];
    }

    method Float64() returns (x: real)
      modifies this
      ensures 0.0 <= x < 1.0 && drawn == old(drawn) + [Fraction(x)]
    {
      var num: nat, den: nat := *, *;
      x := if num < den then num as real / den as real else 0.0;
      if num < den { FractionBelowOne(num as real, den as real); }
      drawn := drawn + [Fraction(x)];
    }
  }

  lemma FractionBelowOne(num: real, den: real)
    requires 0.0 <= num < den
    ensures 0.0 <= num / den < 1.0
  {
    Quotient(num / den, den, num);
  }

  lemma Quotient(q: real, den: real, num: real)
    requires den > 0.0 && 0.0 <= num < den && q * den == num
    ensures 0.0 <= q < 1.0
  {
    assert q * den - den == (q - 1.0) * den;
  }

  function Sum(ds: seq<real>): real {
    if ds == [] then 0.0 else Sum(ds[..|ds| - 1]) + ds[|ds| - 1]
  }

  ghost predicate NonNegative(ds: seq<real>) {
    forall i :: 0 <= i < |ds| ==> ds[i] >= 0.0
  }

  lemma {:induction false} SumNonNegative(ds: seq<real>)
    requires NonNegative(ds)
    ensures Sum(ds) >= 0.0
    ensures forall i :: 0 <= i < |ds| ==> ds[i] <= Sum(ds)
  {
    if ds != [] {
      var n := |ds| - 1;
      SumNonNegative(ds[..n]);
      forall i | 0 <= i < |ds| ensures ds[i] <= Sum(ds) {
        if i < n { assert ds[..n][i] == ds[i]; }
      }
    }
  }

  /** Squared distance to the closest of the chosen centroids. */
  function MinDist(u: Vec, cents: seq<Vec>): (d: real)
    requires cents != [] && Shaped(cents, |u|)
    ensures forall c :: 0 <= c < |cents| ==> d <= SquaredDist(u, cents[c])
    ensures exists c :: 0 <= c < |cents| && d == SquaredDist(u, cents[c])
  {
    var n := |cents| - 1;
    var last := SquaredDist(u, cents[n]);
    if n == 0 then last else
      var before := MinDist(u, cents[..n]);
      assert forall c :: 0 <= c < n ==> cents[..n][c] == cents[c];
      if last < before then last else before
  }

  lemma MinDistExtends(u: Vec, cents: seq<Vec>, v: Vec)
    requires cents != [] && Shaped(cents, |u|) && |v| == |u|
    ensures Shaped(cents + [v], |u|)
    ensures MinDist(u, cents + [v]) ==
      if SquaredDist(u, v) < MinDist(u, cents) then SquaredDist(u, v) else MinDist(u, cents)
  {
    assert (cents + [v])[..|cents|] == cents;
  }

  lemma MinDistZero(u: Vec, cents: seq<Vec>)
    requires cents != [] && Shaped(cents, |u|)
    ensures MinDist(u, cents) >= 0.0
    ensures MinDist(u, cents) == 0.0 <==> u in cents
  {
    forall c | 0 <= c < |cents|
      ensures SquaredDist(u, cents[c]) >= 0.0 && (SquaredDist(u, cents[c]) == 0.0 <==> u == cents[c])
    {
      SquaredDistZero(u, cents[c]);
      if u == cents[c] {} else {}
    }
  }

  /** Index i is picked by exactly the positive targets in an interval of length
      ds[i], so with probability proportional to its squared distance; the scan
      always finds it. */
  method PickWeighted(ds: array<real>, total: real, target: real) returns (next: nat)
    requires NonNegative(ds[..]) && total == Sum(ds[..]) && 0.0 <= target < total
    ensures next < ds.Length
    ensures Reaches(ds[..], target, next)
    ensures target > 0.0 ==> Sum(ds[..next]) < target <= Sum(ds[..next]) + ds[next]
    ensures target > 0.0 ==> ds[next] > 0.0
    ensures target == 0.0 ==> next == 0
  {
    assert ds.Length > 0 && ds[..ds.Length] == ds[..];
    next := ds.Length - 1;
    var acc := 0.0;
    for i := 0 to ds.Length
      invariant next == ds.Length - 1
      invariant acc == Sum(ds[..i]) && (i > 0 ==> acc < target)
      invariant forall j :: 1 <= j <= i ==> Sum(ds[..j]) < target
    {
      assert ds[..i + 1][..i] == ds[..i];
      SumNonNegative(ds[..i + 1]);
      acc := acc + ds[i];
      if acc >= target { return i; }
    }
    assert false;
  }

  ghost predicate Distinct(vs: seq<Vec>) {
    forall i, j :: 0 <= i < j < |vs| ==> vs[i] != vs[j]
  }

  ghost predicate DrawnFrom(vs: seq<Vec>, units: seq<Vec>) {
    forall i :: 0 <= i < |vs| ==> vs[i] in units
  }

  lemma Singleton(units: seq<Vec>, i: nat)
    requires i < |units|
    ensures Distinct([units[i]]) && DrawnFrom([units[i]], units)
  {
  }

  lemma Extends(vs: seq<Vec>, units: seq<Vec>, i: nat)
    requires i < |units| && DrawnFrom(vs, units)
    ensures DrawnFrom(vs + [units[i]], units)
    ensures Distinct(vs) && units[i] !in vs ==> Distinct(vs + [units[i]])
  {
  }

  // How many different vectors there are.
  function Variety(vs: seq<Vec>): nat {
    |set v | v in vs|
  }

  lemma {:induction false} DistinctValuesBound(vs: seq<Vec>)
    ensures Variety(vs) <= |vs|
  {
    if vs != [] {
      var n := |vs| - 1;
      DistinctValuesBound(vs[..n]);
      assert (set v | v in vs) == (set v | v in vs[..n]) + {vs[n]};
    }
  }

  lemma CoveredByCentroids(units: seq<Vec>, cents: seq<Vec>)
    requires forall u :: u in units ==> u in cents
    ensures Variety(units) <= |cents|
  {
    DistinctValuesBound(cents);
    var us, cs := set u | u in units, set v | v in cents;
    assert us <= cs;
    assert cs == us + (cs - us);
  }

  // Every entry is the squared distance to the closest chosen centroid.
  ghost predicate Tracks(ds: seq<real>, units: seq<Vec>, cents: seq<Vec>, dim: nat) {
    && cents != [] && Shaped(units, dim) && Shaped(cents, dim) && |ds| == |units|
    && forall i :: 0 <= i < |units| ==> ds[i] == MinDist(units[i], cents)
  }

  method FirstDistances(units: seq<Vec>, c: Vec, dim: nat) returns (ds: array<real>)
    requires Shaped(units, dim) && |c| == dim
    ensures fresh(ds) && Tracks(ds[..], units, [c], dim)
  {
    ds := new real[|units|](i requires 0 <= i < |units| => SquaredDist(units[i], c));
  }

  method UpdateDistances(units: seq<Vec>, cents: seq<Vec>, newC: Vec, ds: array<real>, dim: nat)
    requires |newC| == dim && Tracks(ds[..], units, cents, dim)
    modifies ds
    ensures Tracks(ds[..], units, cents + [newC], dim)
  {
    hide MinDist;
    for i := 0 to |units|
      invariant Shaped(cents + [newC], dim)
      invariant forall j :: 0 <= j < i ==> ds[j] == MinDist(units[j], cents + [newC])
      invariant forall j :: i <= j < |units| ==> ds[j] == MinDist(units[j], cents)
    {
      MinDistExtends(units[i], cents, newC);
      var d := SquaredDist(units[i], newC);
      if d < ds[i] { ds[i] := d; }
    }
  }

  ghost function Distances(units: seq<Vec>, cents: seq<Vec>, dim: nat): (ds: seq<real>)
    requires cents != [] && Shaped(units, dim) && Shaped(cents, dim)
    ensures Tracks(ds, units, cents, dim)
  {
    seq(|units|, i requires 0 <= i < |units| => MinDist(units[i], cents))
  }

  // The first index at which the running sum of the weights reaches the target.
  ghost predicate Reaches(ds: seq<real>, target: real, next: int) {
    && 0 <= next < |ds| && Sum(ds[..next + 1]) >= target
    && forall i :: 1 <= i <= next ==> Sum(ds[..i]) < target
  }

  // The draw picks this point: weighted by the squared distance to the closest of the
  // chosen ones, or uniformly once all of those are zero.
  ghost predicate Picks(units: seq<Vec>, cents: seq<Vec>, dim: nat, draw: Draw, next: nat)
    requires cents != [] && Shaped(units, dim) && Shaped(cents, dim)
  {
    var ds := Distances(units, cents, dim);
    if Sum(ds) > 0.0 then draw.Fraction? && Reaches(ds, Times(draw.x, Sum(ds)), next) else draw == Index(|units|, next)
  }

  ghost predicate PicksPoint(units: seq<Vec>, cents: seq<Vec>, dim: nat, draw: Draw, v: Vec)
    requires cents != [] && Shaped(units, dim) && Shaped(cents, dim)
  {
    exists next :: 0 <= next < |units| && units[next] == v && Picks(units, cents, dim, draw, next)
  }

  // The seeds are what the draws pick, one after the other, the first one uniformly.
  ghost predicate SeededBy(units: seq<Vec>, cents: seq<Vec>, dim: nat, draws: seq<Draw>)
    requires Shaped(units, dim) && Shaped(cents, dim)
  {
    && |draws| == |cents| && cents != []
    && draws[0].Index? && draws[0].n == |units| && draws[0].i < |units| && cents[0] == units[draws[0].i]
    && forall j :: 1 <= j < |cents| ==> PicksPoint(units, cents[..j], dim, draws[j], cents[j])
  }

  lemma SameDistances(ds: seq<real>, units: seq<Vec>, cents: seq<Vec>, dim: nat)
    requires Tracks(ds, units, cents, dim)
    ensures ds == Distances(units, cents, dim)
  {
    hide MinDist;
  }

  lemma ReachesOne(ds: seq<real>, target: real, a: int, b: int)
    requires Reaches(ds, target, a) && Reaches(ds, target, b)
    ensures a == b
  {
    hide Sum;
  }

  lemma PickIsUnique(units: seq<Vec>, cents: seq<Vec>, dim: nat, draw: Draw, v: Vec, w: Vec)
    requires cents != [] && Shaped(units, dim) && Shaped(cents, dim)
    requires PicksPoint(units, cents, dim, draw, v) && PicksPoint(units, cents, dim, draw, w)
    ensures v == w
  {
    hide Reaches, Distances, Sum, Times;
    var i :| 0 <= i < |units| && units[i] == v && Picks(units, cents, dim, draw, i);
    var j :| 0 <= j < |units| && units[j] == w && Picks(units, cents, dim, draw, j);
    var ds := Distances(units, cents, dim);
    if Sum(ds) > 0.0 { ReachesOne(ds, Times(draw.x, Sum(ds)), i, j); }
  }

  /** The seeds are determined by the draws. */
  lemma {:induction false} SameDrawsSameSeeds(units: seq<Vec>, a: seq<Vec>, b: seq<Vec>, dim: nat, draws: seq<Draw>,
                                              n: nat)
    requires Shaped(units, dim) && Shaped(a, dim) && Shaped(b, dim) && n <= |draws|
    requires SeededBy(units, a, dim, draws) && SeededBy(units, b, dim, draws)
    ensures a[..n] == b[..n]
    decreases n
  {
    hide PicksPoint;
    if n > 0 {
      SameDrawsSameSeeds(units, a, b, dim, draws, n - 1);
      if n > 1 { PickIsUnique(units, a[..n - 1], dim, draws[n - 1], a[n - 1], b[n - 1]); }
    }
  }

  /** The next seed is what the draw picks. It differs from every chosen one, unless the
      draw was exactly zero or the chosen ones already cover the input. */
  method PickNext(units: seq<Vec>, cents: seq<Vec>, ds: array<real>, dim: nat, rng: Rand)
    returns (next: nat, ghost zeroDraw: bool)
    requires units != [] && Tracks(ds[..], units, cents, dim)
    modifies rng
    ensures next < |units|
    ensures |rng.drawn| == |old(rng.drawn)| + 1 && old(rng.drawn) <= rng.drawn
    ensures Picks(units, cents, dim, rng.drawn[|old(rng.drawn)|], next)
    ensures zeroDraw <==> rng.drawn[|old(rng.drawn)|] == Fraction(0.0)
    ensures zeroDraw || units[next] !in cents || Variety(units) <= |cents|
  {
    hide MinDist, Sum, Reaches;
    zeroDraw := false;
    SameDistances(ds[..], units, cents, dim);
    forall i | 0 <= i < |units| ensures ds[i] >= 0.0 && (ds[i] == 0.0 <==> units[i] in cents) {
      MinDistZero(units[i], cents);
    }
    SumNonNegative(ds[..]);
    var total := Total(ds);
    if total > 0.0 {
      var x := rng.Float64();
      var target := x * total;
      ScaledBelow(x, total, target);
      next := PickWeighted(ds, total, target);
      zeroDraw := x == 0.0;
      assert target == Times(x, Sum(Distances(units, cents, dim)));
    } else {
      next := rng.IntN(|units|);
      forall u | u in units ensures u in cents {
        var i :| 0 <= i < |units| && units[i] == u;
        assert ds[..][i] <= Sum(ds[..]);
      }
      CoveredByCentroids(units, cents);
    }
  }

  /** Chooses k input points as centroids, each picked by one draw. With no zero draw, the
      points are pairwise different whenever the input holds k different ones. */
  method Seed(units: seq<Vec>, k: nat, dim: nat, rng: Rand) returns (cents: seq<Vec>, ghost zeroDraw: bool)
    requires Units(units, dim) && 1 <= k <= |units|
    modifies rng
    ensures |cents| == k && Units(cents, dim)
    ensures old(rng.drawn) <= rng.drawn && SeededBy(units, cents, dim, rng.drawn[|old(rng.drawn)|..])
    ensures DrawnFrom(cents, units)
    ensures !zeroDraw && Variety(units) >= k ==> Distinct(cents)
  {
    hide Tracks, Dot, Distinct, DrawnFrom, Variety, Picks;
    ghost var from := |rng.drawn|;
    var first := rng.IntN(|units|);
    cents, zeroDraw := [units[first]], false;
    Singleton(units, first);
    var ds := FirstDistances(units, units[first], dim);
    while |cents| < k
      invariant 1 <= |cents| <= k && Units(cents, dim)
      invariant DrawnFrom(cents, units)
      invariant old(rng.drawn) <= rng.drawn && SeededBy(units, cents, dim, rng.drawn[from..])
      invariant Tracks(ds[..], units, cents, dim)
      invariant !zeroDraw && Variety(units) >= k ==> Distinct(cents)
    {
      ghost var draws := rng.drawn[from..];
      var next, zero := PickNext(units, cents, ds, dim, rng);
      SeedsSnoc(units, cents, dim, draws, rng.drawn[from + |draws|], next);
      assert rng.drawn[from..] == draws + [rng.drawn[from + |draws|]];
      zeroDraw := zeroDraw || zero;
      UpdateDistances(units, cents, units[next], ds, dim);
      Extends(cents, units, next);
      cents := cents + [units[next]];
    }
  }

  lemma SeedsSnoc(units: seq<Vec>, cents: seq<Vec>, dim: nat, draws: seq<Draw>, draw: Draw, next: nat)
    requires Shaped(units, dim) && Shaped(cents, dim) && SeededBy(units, cents, dim, draws)
    requires next < |units| && Picks(units, cents, dim, draw, next)
    ensures Shaped(cents + [units[next]], dim) && SeededBy(units, cents + [units[next]], dim, draws + [draw])
  {
    hide Picks;
    var longer := cents + [units[next]];
    forall j | 1 <= j < |longer| ensures PicksPoint(units, longer[..j], dim, (draws + [draw])[j], longer[j]) {
      assert longer[..j] == cents[..j];
      if j == |cents| { assert cents[..j] == cents; }
    }
  }

  lemma ScaledBelow(x: real, total: real, target: real)
    requires 0.0 <= x < 1.0 && total > 0.0 && target == x * total
    ensures 0.0 <= target < total
  {
    TimesPositive(1.0 - x, total, (1.0 - x) * total);
    assert (1.0 - x) * total == total - target;
  }

  method Total(ds: array<real>) returns (total: real)
    ensures total == Sum(ds[..])
  {
    total := 0.0;
    for i := 0 to ds.Length
      invariant total == Sum(ds[..i])
    {
      assert ds[..i + 1][..i] == ds[..i];
      total := total + ds[i];
    }
    assert ds[..ds.Length] == ds[..];
  }
}
