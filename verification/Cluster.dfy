/** The clustering job: normalise, seed, iterate, score. Vectors are real, so the
    clamps against floating-point drift turn out to change nothing. */
module Cluster {
  import opened Wrappers
  import opened Vectors
  import opened Lloyd
  import opened Seeding

  datatype Config = Config(k: int, maxIters: int)

  datatype Assignment = Assignment(cluster: nat, importance: real)

  datatype Error = EmptyVectors | WrongDimension(index: nat) | ZeroVector(index: nat)

  // ---------- Normalisation ----------

  predicate Usable(v: Vec, dim: nat) {
    |v| == dim && !IsZero(v)
  }

  method NormalizeOne(v: Vec, dim: nat, sqrt: real -> real) returns (u: Option<Vec>)
    requires |v| == dim && IsSqrt(sqrt)
    ensures u.None? <==> IsZero(v)
    ensures u.Some? ==> DirectionOf(u.value, v)
  {
    hide Dot, Scale;
    ZeroIffNoNorm(v);
    var norm := sqrt(Dot(v, v));
    if norm == 0.0 { return None; }
    NormalizedIsUnit(v, norm);
    ScaleBack(v, norm);
    return Some(Scale(1.0 / norm, v));
  }

  ghost predicate AllUsable(vectors: seq<Vec>)
    requires vectors != []
  {
    vectors[0] != [] && forall i :: 0 <= i < |vectors| ==> Usable(vectors[i], |vectors[0]|)
  }

  ghost predicate Normalized(units: seq<Vec>, vectors: seq<Vec>)
    requires vectors != []
  {
    && |units| == |vectors| && Units(units, |vectors[0]|)
    && forall i :: 0 <= i < |vectors| ==> DirectionOf(units[i], vectors[i])
  }

  /** Succeeds exactly when all vectors are non-zero and of one positive dimension;
      otherwise it names the first bad one. */
  method Normalize(vectors: seq<Vec>, sqrt: real -> real) returns (r: Result<seq<Vec>, Error>)
    requires vectors != [] && IsSqrt(sqrt)
    ensures r.Success? <==> AllUsable(vectors)
    ensures r.Success? ==> Normalized(r.value, vectors)
    ensures r.Failure? ==>
      match r.error
      case EmptyVectors => vectors[0] == []
      case WrongDimension(i) => FirstBad(vectors, i) && |vectors[i]| != |vectors[0]|
      case ZeroVector(i) => FirstBad(vectors, i) && |vectors[i]| == |vectors[0]| && IsZero(vectors[i])
  {
    var dim := |vectors[0]|;
    if dim == 0 { return Failure(EmptyVectors); }
    hide Dot, Scale, IsZero;
    var units: seq<Vec> := [];
    for i := 0 to |vectors|
      invariant |units| == i && Units(units, dim)
      invariant forall j :: 0 <= j < i ==> Usable(vectors[j], dim) && DirectionOf(units[j], vectors[j])
    {
      if |vectors[i]| != dim { return Failure(WrongDimension(i)); }
      var u := NormalizeOne(vectors[i], dim, sqrt);
      if u.None? { return Failure(ZeroVector(i)); }
      units := units + [u.value];
    }
    return Success(units);
  }

  ghost predicate FirstBad(vectors: seq<Vec>, i: nat)
    requires vectors != []
  {
    i < |vectors| && !Usable(vectors[i], |vectors[0]|) && forall j :: 0 <= j < i ==> Usable(vectors[j], |vectors[0]|)
  }

  // ---------- Scoring ----------

  function Clamp01(x: real): real {
    if x < 0.0 then 0.0 else if x > 1.0 then 1.0 else x
  }

  /** The size of the largest of the first k clusters. */
  function LargestSize(assign: seq<nat>, k: nat): (size: nat)
    ensures forall c :: 0 <= c < k ==> MemberCount(assign, c) <= size
    ensures k > 0 ==> exists c :: 0 <= c < k && MemberCount(assign, c) == size
  {
    if k == 0 then 0 else
      var before, last := LargestSize(assign, k - 1), MemberCount(assign, k - 1);
      if last > before || k == 1 then last else before
  }

  // Cluster size over the largest size, times cosine to the centroid moved onto [0, 1].
  ghost function Score(size: nat, largest: nat, cosine: real): real
    requires largest > 0
  {
    size as real / largest as real * ((cosine + 1.0) / 2.0)
  }

  lemma {:induction false} MemberCounted(assign: seq<nat>, i: nat)
    requires i < |assign|
    ensures MemberCount(assign, assign[i]) >= 1
  {
    if i < |assign| - 1 { MemberCounted(assign[..|assign| - 1], i); }
  }

  lemma {:induction false} NonEmptyHasMember(assign: seq<nat>, c: nat) returns (i: nat)
    requires MemberCount(assign, c) > 0
    ensures i < |assign| && assign[i] == c
  {
    var n := |assign| - 1;
    if assign[n] == c { i := n; } else { i := NonEmptyHasMember(assign[..n], c); }
  }

  lemma ScoreBounds(size: nat, largest: nat, cosine: real)
    requires 0 <= size <= largest && largest > 0 && -1.0 <= cosine <= 1.0
    ensures 0.0 <= size as real / largest as real <= 1.0
    ensures 0.0 <= Score(size, largest, cosine) <= 1.0
  {
    var p := size as real / largest as real;
    var c := (cosine + 1.0) / 2.0;
    Ratio(size as real, largest as real, p);
    Product(p, c, p * c);
  }

  lemma Ratio(x: real, y: real, q: real)
    requires 0.0 <= x <= y && y > 0.0 && q == x / y
    ensures 0.0 <= q <= 1.0
  {
  }

  lemma Product(p: real, c: real, m: real)
    requires 0.0 <= p <= 1.0 && 0.0 <= c <= 1.0 && m == p * c
    ensures 0.0 <= m <= 1.0
  {
    NonNegativeProduct(p, c, m);
    NonNegativeProduct(1.0 - p, c, (1.0 - p) * c);
    assert (1.0 - p) * c == c - m;
  }

  lemma NonNegativeProduct(a: real, b: real, m: real)
    requires a >= 0.0 && b >= 0.0 && m == a * b
    ensures m >= 0.0
  {
  }

  ghost predicate ScoredOne(unit: Vec, centroid: Vec, cluster: nat, size: nat, largest: nat, out: Assignment) {
    && |unit| == |centroid| && largest > 0
    && out.cluster == cluster
    && 0.0 <= out.importance <= 1.0
    && out.importance == Score(size, largest, Dot(unit, centroid))
  }

  // Every point is in its nearest cluster and scored against that cluster's centroid.
  ghost predicate Scored(units: seq<Vec>, cents: seq<Vec>, dim: nat, out: seq<Assignment>)
    requires cents != [] && Shaped(units, dim) && Shaped(cents, dim)
  {
    var assign := NearestAll(units, cents, dim);
    && |out| == |units|
    && forall i :: 0 <= i < |units| ==>
      ScoredOne(units[i], cents[assign[i]], assign[i], MemberCount(assign, assign[i]), LargestSize(assign, |cents|),
                out[i])
  }

  // The points of a cluster.
  function Members(out: seq<Assignment>, c: nat): set<nat> {
    set i: nat | i < |out| && out[i].cluster == c
  }

  ghost predicate IsLargest(out: seq<Assignment>, k: nat, largest: nat) {
    && (forall c: nat :: c < k ==> |Members(out, c)| <= largest)
    && exists c: nat :: c < k && |Members(out, c)| == largest
  }

  // Every point is with the centroid of the highest cosine, the first of them on a tie, and
  // its importance is its cluster's share of the largest cluster's size times that cosine
  // moved onto [0, 1].
  ghost predicate Ranked(units: seq<Vec>, cents: seq<Vec>, dim: nat, out: seq<Assignment>)
    requires Shaped(units, dim) && Shaped(cents, dim)
  {
    |out| == |units| && exists largest: nat :: IsLargest(out, |cents|, largest) && RankedBy(units, cents, out, largest)
  }

  ghost predicate RankedBy(units: seq<Vec>, cents: seq<Vec>, out: seq<Assignment>, largest: nat)
    requires |out| == |units| && forall i :: 0 <= i < |units| ==> Shaped(cents, |units[i]|)
  {
    largest > 0 &&
    forall i :: 0 <= i < |units| ==> RankedOne(units[i], cents, out[i], |Members(out, out[i].cluster)|, largest)
  }

  ghost predicate RankedOne(u: Vec, cents: seq<Vec>, a: Assignment, size: nat, largest: nat)
    requires Shaped(cents, |u|) && largest > 0
  {
    && a.cluster < |cents|
    && (forall c :: 0 <= c < |cents| ==> Dot(u, cents[c]) <= Dot(u, cents[a.cluster]))
    && (forall c :: 0 <= c < a.cluster ==> Dot(u, cents[c]) < Dot(u, cents[a.cluster]))
    && a.importance == size as real / largest as real * ((Dot(u, cents[a.cluster]) + 1.0) / 2.0)
  }

  lemma {:induction false} CountIsMembers(assign: seq<nat>, out: seq<Assignment>, c: nat)
    requires |out| == |assign| && forall i :: 0 <= i < |out| ==> out[i].cluster == assign[i]
    ensures MemberCount(assign, c) == |Members(out, c)|
  {
    if assign != [] {
      var n := |assign| - 1;
      CountIsMembers(assign[..n], out[..n], c);
      assert Members(out, c) == Members(out[..n], c) + if assign[n] == c then {n} else {};
    } else {
      assert Members(out, c) == {};
    }
  }

  lemma RanksOne(u: Vec, cents: seq<Vec>, a: Assignment, size: nat, largest: nat)
    requires cents != [] && Shaped(cents, |u|)
    requires ScoredOne(u, cents[Nearest(u, cents)], Nearest(u, cents), size, largest, a)
    ensures RankedOne(u, cents, a, size, largest)
  {
    hide Dot;
  }

  lemma ScoredIsRanked(units: seq<Vec>, cents: seq<Vec>, dim: nat, out: seq<Assignment>)
    requires units != [] && cents != [] && Shaped(units, dim) && Shaped(cents, dim) && Scored(units, cents, dim, out)
    ensures Ranked(units, cents, dim, out)
  {
    hide Dot, MemberCount, Members, ScoredOne, RankedOne, Nearest;
    var assign := NearestAll(units, cents, dim);
    var largest := LargestSize(assign, |cents|);
    LargestIsPositive(units, cents, dim, out);
    forall i | 0 <= i < |out| ensures out[i].cluster == assign[i] { ItsCluster(units, cents, dim, out, i); }
    forall c: nat ensures MemberCount(assign, c) == |Members(out, c)| { CountIsMembers(assign, out, c); }
    forall i | 0 <= i < |units| ensures RankedOne(units[i], cents, out[i], |Members(out, out[i].cluster)|, largest) {
      RanksOne(units[i], cents, out[i], MemberCount(assign, assign[i]), largest);
    }
    assert IsLargest(out, |cents|, largest) by {
      var c :| 0 <= c < |cents| && MemberCount(assign, c) == largest;
      assert |Members(out, c)| == largest;
    }
  }

  lemma ItsCluster(units: seq<Vec>, cents: seq<Vec>, dim: nat, out: seq<Assignment>, i: nat)
    requires cents != [] && Shaped(units, dim) && Shaped(cents, dim) && Scored(units, cents, dim, out) && i < |units|
    ensures |out| == |units| && out[i].cluster == NearestAll(units, cents, dim)[i]
  {
    hide Dot, MemberCount, Nearest, LargestSize;
  }

  lemma LargestIsPositive(units: seq<Vec>, cents: seq<Vec>, dim: nat, out: seq<Assignment>)
    requires units != [] && cents != [] && Shaped(units, dim) && Shaped(cents, dim) && Scored(units, cents, dim, out)
    ensures LargestSize(NearestAll(units, cents, dim), |cents|) > 0
  {
    hide Dot, Nearest;
    MemberCounted(NearestAll(units, cents, dim), 0);
  }

  method ClusterSizes(assign: seq<nat>, k: nat) returns (sizes: array<nat>)
    requires k > 0 && InRange(assign, |assign|, k)
    ensures sizes.Length == k && forall c :: 0 <= c < k ==> sizes[c] == MemberCount(assign, c)
  {
    sizes := new nat[k](_ => 0);
    assert assign[..0] == [];
    for i := 0 to |assign|
      invariant forall c :: 0 <= c < k ==> sizes[c] == MemberCount(assign[..i], c)
    {
      assert assign[..i + 1][..i] == assign[..i];
      sizes[assign[i]] := sizes[assign[i]] + 1;
    }
    assert assign[..|assign|] == assign;
  }

  method MaxSize(sizes: array<nat>, assign: seq<nat>) returns (maxSize: nat)
    requires forall c :: 0 <= c < sizes.Length ==> sizes[c] == MemberCount(assign, c)
    ensures maxSize == LargestSize(assign, sizes.Length)
  {
    maxSize := 0;
    for c := 0 to sizes.Length
      invariant maxSize == LargestSize(assign, c)
    {
      maxSize := if sizes[c] > maxSize then sizes[c] else maxSize;
    }
  }

  method ScoreAll(units: seq<Vec>, cents: seq<Vec>, assign: seq<nat>, dim: nat) returns (out: seq<Assignment>)
    requires units != [] && cents != [] && Units(units, dim) && Units(cents, dim)
    requires assign == NearestAll(units, cents, dim)
    ensures Scored(units, cents, dim, out) && Ranked(units, cents, dim, out)
  {
    hide Dot, MemberCount, NearestAll, LargestSize, ScoredOne, Ranked;
    var sizes := ClusterSizes(assign, |cents|);
    var maxSize := MaxSize(sizes, assign);
    out := [];
    for i := 0 to |units|
      invariant |out| == i
      invariant forall c :: 0 <= c < sizes.Length ==> sizes[c] == MemberCount(assign, c)
      invariant forall j :: 0 <= j < i ==>
        ScoredOne(units[j], cents[assign[j]], assign[j], MemberCount(assign, assign[j]), maxSize, out[j])
    {
      var c := assign[i];
      MemberCounted(assign, i);
      var one := ScoreOne(units[i], cents[c], c, sizes[c], maxSize);
      out := out + [one];
    }
    ScoredIsRanked(units, cents, dim, out);
  }

  method ScoreOne(unit: Vec, centroid: Vec, cluster: nat, size: nat, maxSize: nat) returns (out: Assignment)
    requires |unit| == |centroid| && IsUnit(unit) && IsUnit(centroid) && 0 < size <= maxSize
    ensures ScoredOne(unit, centroid, cluster, size, maxSize, out)
  {
    hide Dot;
    var prominence := size as real / maxSize as real;
    var centrality := (Dot(unit, centroid) + 1.0) / 2.0;
    CosineBounds(unit, centroid);
    ScoreBounds(size, maxSize, Dot(unit, centroid));
    assert Clamp01(centrality) == centrality;
    out := Assignment(cluster, Clamp01(prominence * Clamp01(centrality)));
  }

  /** Some point sits in a largest cluster, so its importance is its bare centrality. */
  lemma SomePointHasFullProminence(units: seq<Vec>, cents: seq<Vec>, dim: nat, out: seq<Assignment>) returns (i: nat)
    requires units != [] && cents != [] && Shaped(units, dim) && Shaped(cents, dim) && Scored(units, cents, dim, out)
    ensures i < |units|
    ensures out[i].importance == (Dot(units[i], cents[NearestAll(units, cents, dim)[i]]) + 1.0) / 2.0
  {
    hide Dot, MemberCount, NearestAll;
    var assign := NearestAll(units, cents, dim);
    var largest := LargestSize(assign, |cents|);
    var c :| 0 <= c < |cents| && MemberCount(assign, c) == largest;
    assert ScoredOne(units[0], cents[assign[0]], assign[0], MemberCount(assign, assign[0]), largest, out[0]);
    i := NonEmptyHasMember(assign, c);
    assert ScoredOne(units[i], cents[assign[i]], assign[i], MemberCount(assign, assign[i]), largest, out[i]);
    FullScore(largest, Dot(units[i], cents[c]));
  }

  lemma FullScore(size: nat, cosine: real)
    requires size > 0
    ensures Score(size, size, cosine) == (cosine + 1.0) / 2.0
  {
    assert size as real / size as real == 1.0;
  }

  // ---------- The whole run ----------

  function ClampK(k: int, n: nat): (r: nat)
    requires n > 0
    ensures 1 <= r <= n && (1 <= k <= n ==> r == k) && (k < 1 ==> r == 1) && (k > n ==> r == n)
  {
    if k < 1 then 1 else if k > n then n else k
  }

  // One round: each centroid moves to the direction of its members, an empty one to the
  // worst-served point, and similarity does not fall.
  ghost predicate Round(units: seq<Vec>, a: seq<Vec>, b: seq<Vec>, dim: nat, sqrt: real -> real)
    requires units != [] && a != [] && b != [] && Units(units, dim) && Units(a, dim) && Units(b, dim)
  {
    && b == Recomputed(units, NearestAll(units, a, dim), a, dim, |a|, sqrt)
    && |b| == |a| && (forall c :: 0 <= c < |a| ==> MovedTo(units, NearestAll(units, a, dim), a, b, dim, c))
    && Similarity(units, NearestAll(units, a, dim), a, dim) <= Similarity(units, NearestAll(units, b, dim), b, dim)
  }

  ghost predicate Rounds(units: seq<Vec>, trail: seq<seq<Vec>>, k: nat, dim: nat, sqrt: real -> real)
    requires units != [] && Units(units, dim) && k > 0
  {
    && trail != []
    && (forall i :: 0 <= i < |trail| ==> |trail[i]| == k && Units(trail[i], dim))
    && (forall i :: 0 < i < |trail| ==> Round(units, trail[i - 1], trail[i], dim, sqrt))
  }

  // What the points are assigned to before the last assignment; at first to nothing, which
  // the code writes as cluster 0.
  ghost function AssignedBefore(units: seq<Vec>, trail: seq<seq<Vec>>, k: nat, dim: nat, sqrt: real -> real): seq<nat>
    requires units != [] && Units(units, dim) && k > 0 && Rounds(units, trail, k, dim, sqrt)
  {
    if |trail| == 1 then seq(|units|, _ => 0) else NearestAll(units, trail[|trail| - 2], dim)
  }

  // The rounds end at the cap, or exactly when an assignment repeats the one before it.
  ghost predicate Stops(units: seq<Vec>, trail: seq<seq<Vec>>, k: nat, dim: nat, maxIters: nat, sqrt: real -> real)
    requires units != [] && Units(units, dim) && k > 0 && Rounds(units, trail, k, dim, sqrt)
  {
    && |trail| <= maxIters + 1
    && (|trail| <= maxIters ==>
          NearestAll(units, trail[|trail| - 1], dim) == AssignedBefore(units, trail, k, dim, sqrt))
    && KeepsChanging(units, trail, k, dim, sqrt)
  }

  ghost predicate KeepsChanging(units: seq<Vec>, trail: seq<seq<Vec>>, k: nat, dim: nat, sqrt: real -> real)
    requires units != [] && Units(units, dim) && k > 0 && Rounds(units, trail, k, dim, sqrt)
  {
    forall i :: 0 < i < |trail| ==>
      NearestAll(units, trail[i - 1], dim) != AssignedBefore(units, trail[..i], k, dim, sqrt)
  }

  lemma RoundsSnoc(units: seq<Vec>, trail: seq<seq<Vec>>, cents: seq<Vec>, k: nat, dim: nat, sqrt: real -> real)
    requires units != [] && Units(units, dim) && k > 0 && Rounds(units, trail, k, dim, sqrt)
    requires |cents| == k && Units(cents, dim) && Round(units, trail[|trail| - 1], cents, dim, sqrt)
    ensures Rounds(units, trail + [cents], k, dim, sqrt)
    ensures AssignedBefore(units, trail + [cents], k, dim, sqrt) == NearestAll(units, trail[|trail| - 1], dim)
  {
    hide Round, Units, NearestAll, Recomputed, Similarity, Dot;
    assert trail == (trail + [cents])[..|trail|];
  }

  lemma ChangingSnoc(units: seq<Vec>, trail: seq<seq<Vec>>, cents: seq<Vec>, k: nat, dim: nat, sqrt: real -> real)
    requires units != [] && Units(units, dim) && k > 0
    requires Rounds(units, trail, k, dim, sqrt) && Rounds(units, trail + [cents], k, dim, sqrt)
    requires KeepsChanging(units, trail, k, dim, sqrt)
    requires NearestAll(units, trail[|trail| - 1], dim) != AssignedBefore(units, trail, k, dim, sqrt)
    ensures KeepsChanging(units, trail + [cents], k, dim, sqrt)
  {
    hide Round, NearestAll, AssignedBefore;
    var longer := trail + [cents];
    forall i | 0 < i < |longer|
      ensures NearestAll(units, longer[i - 1], dim) != AssignedBefore(units, longer[..i], k, dim, sqrt)
    {
      assert longer[..i] == if i == |trail| then trail else trail[..i];
    }
  }

  lemma RoundsStart(units: seq<Vec>, seeds: seq<Vec>, dim: nat, sqrt: real -> real)
    requires units != [] && seeds != [] && Units(units, dim) && Units(seeds, dim)
    ensures Rounds(units, [seeds], |seeds|, dim, sqrt) && KeepsChanging(units, [seeds], |seeds|, dim, sqrt)
    ensures AssignedBefore(units, [seeds], |seeds|, dim, sqrt) == seq(|units|, _ => 0)
  {
  }

  /** Runs the rounds from the seeds. It stops at the cap, or exactly when an assignment
      repeats the one before it. */
  method Iterate(units: seq<Vec>, seeds: seq<Vec>, dim: nat, maxIters: nat, sqrt: real -> real)
    returns (finals: seq<Vec>, final: seq<nat>, ghost trail: seq<seq<Vec>>)
    requires units != [] && seeds != [] && Units(units, dim) && Units(seeds, dim) && IsSqrt(sqrt) && maxIters >= 1
    ensures |finals| == |seeds| && Units(finals, dim) && final == NearestAll(units, finals, dim)
    ensures Rounds(units, trail, |seeds|, dim, sqrt) && trail[0] == seeds && trail[|trail| - 1] == finals
    ensures Stops(units, trail, |seeds|, dim, maxIters, sqrt)
  {
    hide Dot, Similarity, Recomputed, NearestAll, Round, KeepsChanging, Rounds, AssignedBefore;
    var centroids := new Vec[|seeds|](i requires 0 <= i < |seeds| => seeds[i]);
    var assign := new nat[|units|](_ => 0);
    assert centroids[..] == seeds;
    trail := [seeds];
    RoundsStart(units, seeds, dim, sqrt);
    assert assign[..] == AssignedBefore(units, trail, |seeds|, dim, sqrt);
    for iter := 0 to maxIters
      invariant Units(centroids[..], dim) && InRange(assign[..], |units|, |seeds|)
      invariant Rounds(units, trail, |seeds|, dim, sqrt) && |trail| == iter + 1
      invariant trail[0] == seeds && trail[|trail| - 1] == centroids[..]
      invariant assign[..] == AssignedBefore(units, trail, |seeds|, dim, sqrt)
      invariant KeepsChanging(units, trail, |seeds|, dim, sqrt)
    {
      var changed := AssignToNearest(units, centroids, assign, dim);
      if !changed { break; }
      ghost var before := centroids[..];
      RecomputeAscends(units, assign[..], before, dim, centroids.Length, sqrt);
      RecomputeCentroids(units, assign[..], centroids, dim, sqrt);
      AssignAscends(units, assign[..], centroids[..], dim);
      MakesRound(units, before, centroids[..], dim, sqrt);
      RoundsSnoc(units, trail, centroids[..], |seeds|, dim, sqrt);
      ChangingSnoc(units, trail, centroids[..], |seeds|, dim, sqrt);
      trail := trail + [centroids[..]];
    }
    var _ := AssignToNearest(units, centroids, assign, dim);
    return centroids[..], assign[..], trail;
  }

  lemma MakesRound(units: seq<Vec>, a: seq<Vec>, b: seq<Vec>, dim: nat, sqrt: real -> real)
    requires units != [] && a != [] && b != [] && Units(units, dim) && Units(a, dim) && Units(b, dim) && IsSqrt(sqrt)
    requires b == Recomputed(units, NearestAll(units, a, dim), a, dim, |a|, sqrt)
    requires Similarity(units, NearestAll(units, a, dim), a, dim)
          <= Similarity(units, NearestAll(units, b, dim), b, dim)
    ensures Round(units, a, b, dim, sqrt)
  {
    hide MovedTo, Similarity, NearestAll, Recomputed, Dot;
    RecomputeMoves(units, NearestAll(units, a, dim), a, dim, sqrt);
  }

  /** Over any stretch of the rounds similarity does not fall. */
  lemma {:induction false} RoundsAscend(units: seq<Vec>, trail: seq<seq<Vec>>, k: nat, dim: nat, sqrt: real -> real,
                                        i: nat, j: nat)
    requires units != [] && Units(units, dim) && k > 0 && Rounds(units, trail, k, dim, sqrt) && i <= j < |trail|
    ensures Similarity(units, NearestAll(units, trail[i], dim), trail[i], dim)
         <= Similarity(units, NearestAll(units, trail[j], dim), trail[j], dim)
    decreases j
  {
    hide Similarity, NearestAll, Units;
    if i < j {
      RoundsAscend(units, trail, k, dim, sqrt, i, j - 1);
      assert Round(units, trail[j - 1], trail[j], dim, sqrt);
    }
  }

  /** The centroids stay at the seeds exactly when every point is nearest to the first
      seed, which the initial zeros pass off as nothing having changed: a single cluster's
      centroid is never moved to its members' direction. */
  lemma SeedsStayIff(units: seq<Vec>, trail: seq<seq<Vec>>, k: nat, dim: nat, maxIters: nat, sqrt: real -> real)
    requires units != [] && Units(units, dim) && k > 0 && maxIters >= 1
    requires Rounds(units, trail, k, dim, sqrt) && Stops(units, trail, k, dim, maxIters, sqrt)
    ensures |trail| == 1 <==> NearestAll(units, trail[0], dim) == seq(|units|, _ => 0)
    ensures k == 1 ==> |trail| == 1
  {
    hide Round, Dot;
    if |trail| > 1 { assert trail[..1] == [trail[0]]; }
    if k == 1 { OnlyCluster(units, trail[0], dim); }
  }

  lemma OnlyCluster(units: seq<Vec>, cents: seq<Vec>, dim: nat)
    requires Shaped(units, dim) && Shaped(cents, dim) && |cents| == 1
    ensures NearestAll(units, cents, dim) == seq(|units|, _ => 0)
  {
    hide Dot;
  }

  ghost predicate Clustered(vectors: seq<Vec>, cfg: Config, units: seq<Vec>, trail: seq<seq<Vec>>,
                            out: seq<Assignment>, draws: seq<Draw>, sqrt: real -> real)
    requires vectors != []
  {
    var dim, k := |vectors[0]|, ClampK(cfg.k, |vectors|);
    && Normalized(units, vectors)
    && Rounds(units, trail, k, dim, sqrt) && Stops(units, trail, k, dim, AtLeastOne(cfg.maxIters), sqrt)
    && DrawnFrom(trail[0], units) && SeededBy(units, trail[0], dim, draws)
    && Scored(units, trail[|trail| - 1], dim, out) && Ranked(units, trail[|trail| - 1], dim, out)
  }

  function AtLeastOne(n: int): (r: nat)
    ensures r >= 1 && (n >= 1 ==> r == n) && (n < 1 ==> r == 1)
  {
    if n < 1 then 1 else n
  }

  /** Clusters the vectors. The ghost results expose the unit vectors and the centroids of
      every round: the first are what the draws pick, each round moves every centroid to
      its members' direction and loses no similarity, the rounds end when nothing changes
      or at the cap, and every point is scored against its nearest final centroid. */
  method Cluster(vectors: seq<Vec>, cfg: Config, rng: Rand, sqrt: real -> real)
    returns (r: Result<seq<Assignment>, Error>, ghost units: seq<Vec>, ghost trail: seq<seq<Vec>>)
    requires IsSqrt(sqrt)
    modifies rng
    ensures old(rng.drawn) <= rng.drawn
    ensures vectors == [] ==> r == Success([])
    ensures vectors != [] ==> (r.Success? <==> AllUsable(vectors))
    ensures vectors != [] && r.Success? ==>
      Clustered(vectors, cfg, units, trail, r.value, rng.drawn[|old(rng.drawn)|..], sqrt)
  {
    hide Similarity, NearestAll, Round, Stops, SeededBy, Ranked;
    units, trail := [], [];
    if vectors == [] { return Success([]), units, trail; }
    var normalized := Normalize(vectors, sqrt);
    if normalized.Failure? { return Failure(normalized.error), units, trail; }
    var us, dim := normalized.value, |vectors[0]|;
    var k := ClampK(cfg.k, |us|);
    var maxIters := if cfg.maxIters < 1 then 1 else cfg.maxIters;
    var start, _ := Seed(us, k, dim, rng);
    var finals, assign, rounds := Iterate(us, start, dim, maxIters, sqrt);
    var out := ScoreAll(us, finals, assign, dim);
    return Success(out), us, rounds;
  }

  // ---------- A re-run gives the same clustering ----------

  lemma SameNorm(n: real, m: real)
    requires n > 0.0 && m > 0.0 && n * n == m * m
    ensures n == m
  {
    if n < m { TimesPositive(m - n, m + n, (m - n) * (m + n)); }
    if m < n { TimesPositive(n - m, n + m, (n - m) * (n + m)); }
  }

  lemma NormOfScaled(n: real, u: Vec)
    requires IsUnit(u)
    ensures Dot(Scale(n, u), Scale(n, u)) == n * n
  {
    hide Dot, Scale;
    DotScale(n, u, Scale(n, u));
    DotSymmetric(u, Scale(n, u));
    DotScale(n, u, u);
  }

  lemma DirectionIsUnique(u: Vec, w: Vec, v: Vec)
    requires DirectionOf(u, v) && DirectionOf(w, v)
    ensures u == w
  {
    var n: real :| n > 0.0 && v == Scale(n, u);
    var m: real :| m > 0.0 && v == Scale(m, w);
    NormOfScaled(n, u);
    NormOfScaled(m, w);
    SameNorm(n, m);
    forall i | 0 <= i < |u| ensures u[i] == w[i] { CancelFactor(n, u[i], w[i], v[i]); }
  }

  lemma CancelFactor(n: real, x: real, y: real, product: real)
    requires n > 0.0 && product == n * x && product == n * y
    ensures x == y
  {
    assert n * (x - y) == 0.0;
  }

  lemma SameUnits(a: seq<Vec>, b: seq<Vec>, vectors: seq<Vec>)
    requires vectors != [] && Normalized(a, vectors) && Normalized(b, vectors)
    ensures a == b
  {
    hide DirectionOf, Units;
    forall i | 0 <= i < |vectors| ensures a[i] == b[i] { DirectionIsUnique(a[i], b[i], vectors[i]); }
  }

  lemma {:induction false} SameRounds(units: seq<Vec>, a: seq<seq<Vec>>, b: seq<seq<Vec>>, k: nat, dim: nat,
                                      sqrt: real -> real, n: nat)
    requires units != [] && Units(units, dim) && k > 0 && n <= |a| && n <= |b|
    requires Rounds(units, a, k, dim, sqrt) && Rounds(units, b, k, dim, sqrt) && a[0] == b[0]
    ensures a[..n] == b[..n]
    decreases n
  {
    hide NearestAll, Recomputed, Similarity, MovedTo;
    if n > 1 {
      SameRounds(units, a, b, k, dim, sqrt, n - 1);
      assert a[n - 2] == b[n - 2];
      assert Round(units, a[n - 2], a[n - 1], dim, sqrt) && Round(units, b[n - 2], b[n - 1], dim, sqrt);
    }
  }

  lemma NoShorter(units: seq<Vec>, a: seq<seq<Vec>>, b: seq<seq<Vec>>, k: nat, dim: nat, cap: nat, sqrt: real -> real)
    requires units != [] && Units(units, dim) && k > 0
    requires Rounds(units, a, k, dim, sqrt) && Rounds(units, b, k, dim, sqrt) && a[0] == b[0]
    requires Stops(units, a, k, dim, cap, sqrt) && Stops(units, b, k, dim, cap, sqrt)
    ensures |a| >= |b|
  {
    if |a| < |b| {
      SameRounds(units, a, b, k, dim, sqrt, |a|);
    }
  }

  lemma SameTrails(units: seq<Vec>, a: seq<seq<Vec>>, b: seq<seq<Vec>>, k: nat, dim: nat, cap: nat, draws: seq<Draw>,
                   sqrt: real -> real)
    requires units != [] && Units(units, dim) && k > 0
    requires Rounds(units, a, k, dim, sqrt) && Rounds(units, b, k, dim, sqrt)
    requires Stops(units, a, k, dim, cap, sqrt) && Stops(units, b, k, dim, cap, sqrt)
    requires SeededBy(units, a[0], dim, draws) && SeededBy(units, b[0], dim, draws)
    ensures a == b
  {
    hide Stops, Round, Dot, PicksPoint;
    SameDrawsSameSeeds(units, a[0], b[0], dim, draws, k);
    assert a[0] == a[0][..k] && b[0] == b[0][..k];
    NoShorter(units, a, b, k, dim, cap, sqrt);
    NoShorter(units, b, a, k, dim, cap, sqrt);
    SameRounds(units, a, b, k, dim, sqrt, |a|);
    assert a == a[..|a|] && b == b[..|a|];
  }

  lemma SameScores(units: seq<Vec>, cents: seq<Vec>, dim: nat, a: seq<Assignment>, b: seq<Assignment>)
    requires cents != [] && Shaped(units, dim) && Shaped(cents, dim)
    requires Scored(units, cents, dim, a) && Scored(units, cents, dim, b)
    ensures a == b
  {
    hide Dot, MemberCount, NearestAll, LargestSize, Score;
    forall i | 0 <= i < |units| ensures a[i] == b[i] {}
  }

  /** The same vectors, settings and draws give the same clusters and scores, whatever else
      differs between the runs: a re-run over an unchanged corpus changes nothing. */
  lemma SameDrawsSameClusters(vectors: seq<Vec>, cfg: Config, draws: seq<Draw>, sqrt: real -> real,
                              u: seq<Vec>, a: seq<seq<Vec>>, x: seq<Assignment>,
                              w: seq<Vec>, b: seq<seq<Vec>>, y: seq<Assignment>)
    requires vectors != []
    requires Clustered(vectors, cfg, u, a, x, draws, sqrt) && Clustered(vectors, cfg, w, b, y, draws, sqrt)
    ensures x == y
  {
    hide Stops, Scored, Ranked, SeededBy, DrawnFrom, DirectionOf, Dot, Round;
    var dim, k := |vectors[0]|, ClampK(cfg.k, |vectors|);
    SameUnits(u, w, vectors);
    SameTrails(u, a, b, k, dim, AtLeastOne(cfg.maxIters), draws, sqrt);
    SameScores(u, a[|a| - 1], dim, x, y);
  }
}
