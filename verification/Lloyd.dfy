/** Lloyd's iterations over unit vectors: the assignment and update steps with their
    arrays changed in place, and the proof that neither lowers the total similarity. */
module Lloyd {
  import opened Wrappers
  import opened Vectors

  ghost predicate Units(vs: seq<Vec>, dim: nat) {
    forall i :: 0 <= i < |vs| ==> |vs[i]| == dim && IsUnit(vs[i])
  }

  ghost predicate InRange(assign: seq<nat>, n: nat, k: nat) {
    |assign| == n && forall i :: 0 <= i < n ==> assign[i] < k
  }

  ghost predicate Shaped(vs: seq<Vec>, dim: nat) {
    forall i :: 0 <= i < |vs| ==> |vs[i]| == dim
  }

  // ---------- Assignment step ----------

  /** The centroid with the highest cosine among the first n, lowest index on a tie. */
  function BestOf(u: Vec, cents: seq<Vec>, n: nat): (best: nat)
    requires 1 <= n <= |cents| && Shaped(cents, |u|)
    ensures best < n
    ensures forall c :: 0 <= c < n ==> Dot(u, cents[c]) <= Dot(u, cents[best])
    ensures forall c :: 0 <= c < best ==> Dot(u, cents[c]) < Dot(u, cents[best])
  {
    if n == 1 then 0 else
      var b := BestOf(u, cents, n - 1);
      if Dot(u, cents[n - 1]) > Dot(u, cents[b]) then n - 1 else b
  }

  function Nearest(u: Vec, cents: seq<Vec>): nat
    requires cents != [] && Shaped(cents, |u|)
  {
    BestOf(u, cents, |cents|)
  }

  /** For unit vectors the highest cosine is the smallest Euclidean distance. */
  lemma NearestIsClosest(u: Vec, cents: seq<Vec>)
    requires cents != [] && Units(cents, |u|)
    ensures Shaped(cents, |u|)
    ensures forall c :: 0 <= c < |cents| ==> SquaredDist(u, cents[Nearest(u, cents)]) <= SquaredDist(u, cents[c])
  {
    hide Dot, SquaredDist;
    var best := Nearest(u, cents);
    SquaredDistExpands(u, cents[best]);
    forall c | 0 <= c < |cents| ensures SquaredDist(u, cents[best]) <= SquaredDist(u, cents[c]) {
      SquaredDistExpands(u, cents[c]);
    }
  }

  function NearestAll(units: seq<Vec>, cents: seq<Vec>, dim: nat): (assign: seq<nat>)
    requires cents != [] && Shaped(units, dim) && Shaped(cents, dim)
    ensures InRange(assign, |units|, |cents|)
  {
    seq(|units|, i requires 0 <= i < |units| => Nearest(units[i], cents))
  }

  // ---------- Update step ----------

  function MemberSum(units: seq<Vec>, assign: seq<nat>, c: nat, dim: nat): (sum: Vec)
    requires Shaped(units, dim) && |assign| == |units|
    ensures |sum| == dim
  {
    if units == [] then Zeros(dim) else
      var n := |units| - 1;
      var before := MemberSum(units[..n], assign[..n], c, dim);
      if assign[n] == c then Add(before, units[n]) else before
  }

  function MemberCount(assign: seq<nat>, c: nat): nat {
    if assign == [] then 0 else
      MemberCount(assign[..|assign| - 1], c) + if assign[|assign| - 1] == c then 1 else 0
  }

  /** The point least similar to its own centroid among the first n, lowest index on a tie. */
  function WorstOf(units: seq<Vec>, assign: seq<nat>, cents: seq<Vec>, dim: nat, n: nat): (worst: nat)
    requires Shaped(units, dim) && Shaped(cents, dim) && InRange(assign, |units|, |cents|)
    requires 1 <= n <= |units|
    ensures worst < n
    ensures forall i :: 0 <= i < n ==> Dot(units[worst], cents[assign[worst]]) <= Dot(units[i], cents[assign[i]])
    ensures forall i :: 0 <= i < worst ==> Dot(units[worst], cents[assign[worst]]) < Dot(units[i], cents[assign[i]])
  {
    if n == 1 then 0 else
      var w := WorstOf(units, assign, cents, dim, n - 1);
      if Dot(units[n - 1], cents[assign[n - 1]]) < Dot(units[w], cents[assign[w]]) then n - 1 else w
  }

  function NormalizedOr(sum: Vec, prior: Vec, sqrt: real -> real): (r: Vec)
    requires |sum| == |prior|
    ensures |r| == |sum|
  {
    var norm := sqrt(Dot(sum, sum));
    if norm == 0.0 then prior else Scale(1.0 / norm, sum)
  }

  // One centroid's move, given the centroids as the loop has left them so far.
  function NewCentroid(units: seq<Vec>, assign: seq<nat>, cents: seq<Vec>, dim: nat, c: nat,
                       sqrt: real -> real): (v: Vec)
    requires units != [] && Shaped(units, dim) && Shaped(cents, dim) && InRange(assign, |units|, |cents|) && c < |cents|
    ensures |v| == dim
  {
    if MemberCount(assign, c) == 0
    then units[WorstOf(units, assign, cents, dim, |units|)]
    else NormalizedOr(MemberSum(units, assign, c, dim), cents[c], sqrt)
  }

  function Recomputed(units: seq<Vec>, assign: seq<nat>, cents: seq<Vec>, dim: nat, n: nat,
                      sqrt: real -> real): (r: seq<Vec>)
    requires units != [] && Shaped(units, dim) && Shaped(cents, dim) && InRange(assign, |units|, |cents|)
      && n <= |cents|
    ensures |r| == |cents| && Shaped(r, dim)
  {
    if n == 0 then cents else
      var before := Recomputed(units, assign, cents, dim, n - 1, sqrt);
      before[n - 1 := NewCentroid(units, assign, before, dim, n - 1, sqrt)]
  }

  // ---------- Lloyd ascent ----------

  /** Total similarity of the points to the centroids they are assigned to. */
  function Similarity(units: seq<Vec>, assign: seq<nat>, cents: seq<Vec>, dim: nat): real
    requires Shaped(units, dim) && Shaped(cents, dim) && InRange(assign, |units|, |cents|)
  {
    if units == [] then 0.0 else
      var n := |units| - 1;
      Similarity(units[..n], assign[..n], cents, dim) + Dot(units[n], cents[assign[n]])
  }

  /** Assigning every point to its nearest centroid never lowers the similarity. */
  lemma {:induction false} AssignAscends(units: seq<Vec>, assign: seq<nat>, cents: seq<Vec>, dim: nat)
    requires cents != [] && Shaped(units, dim) && Shaped(cents, dim) && InRange(assign, |units|, |cents|)
    ensures Similarity(units, NearestAll(units, cents, dim), cents, dim) >= Similarity(units, assign, cents, dim)
  {
    if units != [] {
      var n := |units| - 1;
      AssignAscends(units[..n], assign[..n], cents, dim);
      assert NearestAll(units, cents, dim)[..n] == NearestAll(units[..n], cents, dim);
    }
  }

  // Moving one centroid changes the total by what its members' sum gains.
  lemma {:induction false} MoveOneCentroid(units: seq<Vec>, assign: seq<nat>, cents: seq<Vec>, dim: nat, c: nat, v: Vec)
    requires Shaped(units, dim) && Shaped(cents, dim) && InRange(assign, |units|, |cents|) && c < |cents| && |v| == dim
    ensures Similarity(units, assign, cents[c := v], dim) - Similarity(units, assign, cents, dim)
         == Dot(MemberSum(units, assign, c, dim), v) - Dot(MemberSum(units, assign, c, dim), cents[c])
  {
    if units == [] {
      DotZeros(v);
      DotZeros(cents[c]);
    } else {
      hide Dot, Add;
      var n := |units| - 1;
      var before := MemberSum(units[..n], assign[..n], c, dim);
      MoveOneCentroid(units[..n], assign[..n], cents, dim, c, v);
      if assign[n] == c {
        DotAdd(before, units[n], v);
        DotAdd(before, units[n], cents[c]);
      }
    }
  }

  lemma {:induction false} NoMembersNoSum(units: seq<Vec>, assign: seq<nat>, c: nat, dim: nat)
    requires Shaped(units, dim) && |assign| == |units| && MemberCount(assign, c) == 0
    ensures MemberSum(units, assign, c, dim) == Zeros(dim)
  {
    if units != [] {
      NoMembersNoSum(units[..|units| - 1], assign[..|units| - 1], c, dim);
    }
  }

  // A zero sum keeps the old centroid; any other sum is best served by its own direction.
  lemma NormalizedOrAscends(sum: Vec, prior: Vec, sqrt: real -> real)
    requires |sum| == |prior| && IsUnit(prior) && IsSqrt(sqrt)
    ensures IsUnit(NormalizedOr(sum, prior, sqrt))
    ensures Dot(sum, NormalizedOr(sum, prior, sqrt)) >= Dot(sum, prior)
  {
    hide Dot, Scale;
    DotSelfNonNegative(sum);
    var norm := sqrt(Dot(sum, sum));
    if norm != 0.0 {
      NormalizedIsBest(sum, norm, prior);
    }
  }

  /** A zero sum keeps the old centroid; any other sum gets its own direction, the unit
      vector that serves it best. */
  lemma NormalizedOrIs(sum: Vec, prior: Vec, sqrt: real -> real)
    requires |sum| == |prior| && IsSqrt(sqrt)
    ensures Follows(sum, prior, NormalizedOr(sum, prior, sqrt))
  {
    ZeroIffNoNorm(sum);
    var norm := sqrt(Dot(sum, sum));
    if !IsZero(sum) {
      assert norm * norm != 0.0;
      NormalizedIsUnit(sum, norm);
      ScaleBack(sum, norm);
      forall v: Vec | |v| == |sum| && IsUnit(v) ensures Dot(sum, Scale(1.0 / norm, sum)) >= Dot(sum, v) {
        NormalizedIsBest(sum, norm, v);
      }
    }
    hide Dot, Scale, IsZero;
  }

  // v is where a centroid goes from `prior` when its members add up to `sum`.
  ghost predicate Follows(sum: Vec, prior: Vec, v: Vec)
    requires |sum| == |prior|
  {
    if IsZero(sum) then v == prior
    else DirectionOf(v, sum) && forall u: Vec :: |u| == |sum| && IsUnit(u) ==> Dot(sum, v) >= Dot(sum, u)
  }

  // v is the first of the points least similar to their own centroids.
  ghost predicate WorstServed(units: seq<Vec>, assign: seq<nat>, cents: seq<Vec>, dim: nat, v: Vec)
    requires Shaped(units, dim) && Shaped(cents, dim) && InRange(assign, |units|, |cents|)
  {
    exists i :: 0 <= i < |units| && units[i] == v && LeastSimilar(units, assign, cents, dim, i)
  }

  ghost predicate LeastSimilar(units: seq<Vec>, assign: seq<nat>, cents: seq<Vec>, dim: nat, i: nat)
    requires Shaped(units, dim) && Shaped(cents, dim) && InRange(assign, |units|, |cents|) && i < |units|
  {
    && (forall j :: 0 <= j < |units| ==> Dot(units[i], cents[assign[i]]) <= Dot(units[j], cents[assign[j]]))
    && (forall j :: 0 <= j < i ==> Dot(units[i], cents[assign[i]]) < Dot(units[j], cents[assign[j]]))
  }

  predicate HasMember(assign: seq<nat>, c: nat) {
    exists i :: 0 <= i < |assign| && assign[i] == c
  }

  // Where centroid c has moved, with those before it moved already and those after it not.
  ghost predicate MovedTo(units: seq<Vec>, assign: seq<nat>, a: seq<Vec>, b: seq<Vec>, dim: nat, c: nat)
    requires Shaped(units, dim) && Shaped(a, dim) && Shaped(b, dim) && InRange(assign, |units|, |a|)
    requires |a| == |b| && c < |a|
  {
    if HasMember(assign, c) then Follows(MemberSum(units, assign, c, dim), a[c], b[c])
    else WorstServed(units, assign, b[..c] + a[c..], dim, b[c])
  }

  lemma {:induction false} CountsMembers(assign: seq<nat>, c: nat)
    ensures MemberCount(assign, c) > 0 <==> HasMember(assign, c)
  {
    if assign != [] {
      var n := |assign| - 1;
      CountsMembers(assign[..n], c);
      forall i | 0 <= i < n ensures assign[..n][i] == assign[i] {}
    }
  }

  lemma NewCentroidIs(units: seq<Vec>, assign: seq<nat>, cents: seq<Vec>, dim: nat, c: nat, sqrt: real -> real)
    requires units != [] && Shaped(units, dim) && Shaped(cents, dim) && InRange(assign, |units|, |cents|) && c < |cents|
    requires IsSqrt(sqrt)
    ensures var v := NewCentroid(units, assign, cents, dim, c, sqrt);
      if HasMember(assign, c) then Follows(MemberSum(units, assign, c, dim), cents[c], v)
      else WorstServed(units, assign, cents, dim, v)
  {
    CountsMembers(assign, c);
    hide Dot, MemberSum, MemberCount, HasMember, Follows, NormalizedOr;
    if HasMember(assign, c) {
      NormalizedOrIs(MemberSum(units, assign, c, dim), cents[c], sqrt);
    } else {
      var w := WorstOf(units, assign, cents, dim, |units|);
      assert units[w] == NewCentroid(units, assign, cents, dim, c, sqrt) && LeastSimilar(units, assign, cents, dim, w);
    }
  }

  // The centroids when n of them have moved.
  lemma {:induction false} RecomputedSoFar(units: seq<Vec>, assign: seq<nat>, cents: seq<Vec>, dim: nat, n: nat, m: nat,
                                           sqrt: real -> real)
    requires units != [] && Shaped(units, dim) && Shaped(cents, dim) && InRange(assign, |units|, |cents|)
    requires n <= m <= |cents|
    ensures Recomputed(units, assign, cents, dim, n, sqrt)
         == Recomputed(units, assign, cents, dim, m, sqrt)[..n] + cents[n..]
    decreases m
  {
    hide NewCentroid;
    if n == m {
      KeepsTheRest(units, assign, cents, dim, n, sqrt);
    } else {
      RecomputedSoFar(units, assign, cents, dim, n, m - 1, sqrt);
      var before := Recomputed(units, assign, cents, dim, m - 1, sqrt);
      assert Recomputed(units, assign, cents, dim, m, sqrt)[..n] == before[..n];
    }
  }

  lemma {:induction false} KeepsTheRest(units: seq<Vec>, assign: seq<nat>, cents: seq<Vec>, dim: nat, n: nat,
                                        sqrt: real -> real)
    requires units != [] && Shaped(units, dim) && Shaped(cents, dim) && InRange(assign, |units|, |cents|)
    requires n <= |cents|
    ensures Recomputed(units, assign, cents, dim, n, sqrt)[n..] == cents[n..]
  {
    hide NewCentroid;
    if n > 0 {
      KeepsTheRest(units, assign, cents, dim, n - 1, sqrt);
      var before := Recomputed(units, assign, cents, dim, n - 1, sqrt);
      forall i | n <= i < |cents| ensures before[i] == cents[i] {
        assert before[n - 1..][i - n + 1] == cents[n - 1..][i - n + 1];
      }
    }
  }

  /** What recomputing does to every centroid: one with members goes to the direction of
      their sum, which serves them best of all unit vectors, and stays where it is if the
      sum is zero; one without members goes to the point that is then served worst. */
  lemma RecomputeMoves(units: seq<Vec>, assign: seq<nat>, cents: seq<Vec>, dim: nat, sqrt: real -> real)
    requires units != [] && Shaped(units, dim) && Shaped(cents, dim) && InRange(assign, |units|, |cents|)
    requires IsSqrt(sqrt)
    ensures forall c :: 0 <= c < |cents| ==>
      MovedTo(units, assign, cents, Recomputed(units, assign, cents, dim, |cents|, sqrt), dim, c)
  {
    hide NewCentroid, Follows, WorstServed, MemberSum, HasMember;
    var after := Recomputed(units, assign, cents, dim, |cents|, sqrt);
    forall c: nat | c < |cents| ensures MovedTo(units, assign, cents, after, dim, c) {
      var before := Recomputed(units, assign, cents, dim, c, sqrt);
      NewCentroidIs(units, assign, before, dim, c, sqrt);
      RecomputedSoFar(units, assign, cents, dim, c, |cents|, sqrt);
      RecomputedSoFar(units, assign, cents, dim, c + 1, |cents|, sqrt);
      assert before == after[..c] + cents[c..];
      assert Recomputed(units, assign, cents, dim, c + 1, sqrt)[c] == after[c];
    }
  }

  lemma OneMoveAscends(units: seq<Vec>, assign: seq<nat>, cents: seq<Vec>, dim: nat, c: nat, sqrt: real -> real)
    requires units != [] && Units(units, dim) && Units(cents, dim) && IsSqrt(sqrt)
    requires InRange(assign, |units|, |cents|) && c < |cents|
    ensures Shaped(units, dim) && Shaped(cents, dim)
    ensures IsUnit(NewCentroid(units, assign, cents, dim, c, sqrt))
    ensures Similarity(units, assign, cents[c := NewCentroid(units, assign, cents, dim, c, sqrt)], dim)
         >= Similarity(units, assign, cents, dim)
  {
    var v := NewCentroid(units, assign, cents, dim, c, sqrt);
    var sum := MemberSum(units, assign, c, dim);
    MoveOneCentroid(units, assign, cents, dim, c, v);
    if MemberCount(assign, c) == 0 {
      NoMembersNoSum(units, assign, c, dim);
      DotZeros(v);
      DotZeros(cents[c]);
    } else {
      NormalizedOrAscends(sum, cents[c], sqrt);
    }
  }

  /** Recomputing the centroids keeps every one a unit vector and never lowers the
      similarity: members' means, cancelled sums and reseeded empties included. */
  lemma {:induction false} RecomputeAscends(units: seq<Vec>, assign: seq<nat>, cents: seq<Vec>, dim: nat, n: nat,
                                            sqrt: real -> real)
    requires units != [] && Units(units, dim) && Units(cents, dim) && IsSqrt(sqrt)
    requires InRange(assign, |units|, |cents|) && n <= |cents|
    ensures Shaped(units, dim) && Shaped(cents, dim)
    ensures Units(Recomputed(units, assign, cents, dim, n, sqrt), dim)
    ensures Similarity(units, assign, Recomputed(units, assign, cents, dim, n, sqrt), dim)
         >= Similarity(units, assign, cents, dim)
  {
    hide Dot, Similarity, NewCentroid;
    if n > 0 {
      RecomputeAscends(units, assign, cents, dim, n - 1, sqrt);
      var before := Recomputed(units, assign, cents, dim, n - 1, sqrt);
      OneMoveAscends(units, assign, before, dim, n - 1, sqrt);
    }
  }

  // ---------- The methods ----------

  method NearestCentroid(u: Vec, centroids: array<Vec>) returns (best: nat)
    requires centroids.Length > 0 && Shaped(centroids[..], |u|)
    ensures best == Nearest(u, centroids[..])
  {
    best := 0;
    var bestDot: Option<real> := None;
    for c := 0 to centroids.Length
      invariant c == 0 ==> best == 0 && bestDot == None
      invariant c > 0 ==> best == BestOf(u, centroids[..], c) && bestDot == Some(Dot(u, centroids[best]))
    {
      var d := Dot(u, centroids[c]);
      if bestDot.None? || d > bestDot.value {
        bestDot := Some(d);
        best := c;
      }
    }
  }

  /** Reports whether any assignment changed; afterwards each point has its nearest centroid. */
  method AssignToNearest(units: seq<Vec>, centroids: array<Vec>, assign: array<nat>, dim: nat) returns (changed: bool)
    requires centroids.Length > 0 && assign.Length == |units|
    requires Shaped(units, dim) && Shaped(centroids[..], dim)
    modifies assign
    ensures assign[..] == NearestAll(units, centroids[..], dim)
    ensures changed <==> assign[..] != old(assign[..])
  {
    hide BestOf;
    changed := false;
    for i := 0 to |units|
      invariant forall j :: 0 <= j < i ==> assign[j] == Nearest(units[j], centroids[..])
      invariant forall j :: i <= j < |units| ==> assign[j] == old(assign[j])
      invariant changed ==> exists j :: 0 <= j < i && assign[j] != old(assign[j])
      invariant !changed ==> assign[..] == old(assign[..])
    {
      var best := NearestCentroid(units[i], centroids);
      if assign[i] != best {
        assign[i] := best;
        changed := true;
      }
    }
    if changed {
      ghost var j :| 0 <= j < |units| && assign[j] != old(assign[j]);
      assert assign[..][j] != old(assign[..])[j];
    }
  }

  lemma DivideIsScale(x: real, norm: real)
    requires norm != 0.0
    ensures x / norm == 1.0 / norm * x
  {
  }

  method NormalizeInto(sum: Vec, dst: Vec, sqrt: real -> real) returns (r: Vec)
    requires |sum| == |dst|
    ensures r == NormalizedOr(sum, dst, sqrt)
    ensures IsSqrt(sqrt) ==> Follows(sum, dst, r)
  {
    hide Follows;
    if IsSqrt(sqrt) { NormalizedOrIs(sum, dst, sqrt); }
    var square := 0.0;
    for d := 0 to |sum|
      invariant square == Dot(sum[..d], sum[..d])
    {
      square := square + sum[d] * sum[d];
      assert sum[..d + 1][..d] == sum[..d];
    }
    assert sum[..|sum|] == sum;
    var norm := sqrt(square);
    r := dst;
    if norm == 0.0 { return; }
    for d := 0 to |sum|
      invariant |r| == |sum| && forall j :: 0 <= j < d ==> r[j] == Scale(1.0 / norm, sum)[j]
    {
      DivideIsScale(sum[d], norm);
      r := r[d := sum[d] / norm];
    }
    assert r == Scale(1.0 / norm, sum);
  }

  method ReseedEmptyCentroid(units: seq<Vec>, centroids: array<Vec>, assign: seq<nat>, dim: nat, c: nat)
    requires units != [] && Shaped(units, dim) && Shaped(centroids[..], dim)
    requires InRange(assign, |units|, centroids.Length) && c < centroids.Length
    modifies centroids
    ensures centroids[..] == old(centroids[..])[c := units[WorstOf(units, assign, old(centroids[..]), dim, |units|)]]
  {
    var worst, worstDot: Option<real> := 0, None;
    for i := 0 to |units|
      invariant i == 0 ==> worst == 0 && worstDot == None
      invariant i > 0 ==> worst == WorstOf(units, assign, centroids[..], dim, i)
      invariant i > 0 ==> worstDot == Some(Dot(units[worst], centroids[assign[worst]]))
      invariant centroids[..] == old(centroids[..])
    {
      var d := Dot(units[i], centroids[assign[i]]);
      if worstDot.None? || d < worstDot.value {
        worstDot := Some(d);
        worst := i;
      }
    }
    centroids[c] := units[worst];
  }

  method MemberSums(units: seq<Vec>, assign: seq<nat>, k: nat, dim: nat) returns (sums: array<Vec>, counts: array<nat>)
    requires Shaped(units, dim) && InRange(assign, |units|, k)
    ensures sums.Length == counts.Length == k && fresh(sums) && fresh(counts)
    ensures forall c :: 0 <= c < k ==> sums[c] == MemberSum(units, assign, c, dim)
    ensures forall c :: 0 <= c < k ==> counts[c] == MemberCount(assign, c)
  {
    sums := new Vec[k](_ => Zeros(dim));
    counts := new nat[k](_ => 0);
    assert units[..0] == [] && assign[..0] == [];
    for i := 0 to |units|
      invariant forall c :: 0 <= c < k ==> sums[c] == MemberSum(units[..i], assign[..i], c, dim)
      invariant forall c :: 0 <= c < k ==> counts[c] == MemberCount(assign[..i], c)
    {
      var c := assign[i];
      assert units[..i + 1][..i] == units[..i] && assign[..i + 1][..i] == assign[..i];
      counts[c] := counts[c] + 1;
      sums[c] := Add(sums[c], units[i]);
    }
    assert units[..|units|] == units && assign[..|units|] == assign;
  }

  method MoveCentroid(units: seq<Vec>, assign: seq<nat>, centroids: array<Vec>, dim: nat, c: nat, count: nat, sum: Vec,
                      sqrt: real -> real)
    requires units != [] && Shaped(units, dim) && Shaped(centroids[..], dim)
    requires InRange(assign, |units|, centroids.Length) && c < centroids.Length
    requires count == MemberCount(assign, c) && sum == MemberSum(units, assign, c, dim)
    modifies centroids
    ensures centroids[..] == old(centroids[..])[c := NewCentroid(units, assign, old(centroids[..]), dim, c, sqrt)]
  {
    hide WorstOf, MemberSum, MemberCount, NormalizedOr;
    if count == 0 {
      ReseedEmptyCentroid(units, centroids, assign, dim, c);
    } else {
      centroids[c] := NormalizeInto(sum, centroids[c], sqrt);
    }
  }

  method RecomputeCentroids(units: seq<Vec>, assign: seq<nat>, centroids: array<Vec>, dim: nat, sqrt: real -> real)
    requires units != [] && Shaped(units, dim) && Shaped(centroids[..], dim)
    requires InRange(assign, |units|, centroids.Length)
    modifies centroids
    ensures centroids[..] == Recomputed(units, assign, old(centroids[..]), dim, centroids.Length, sqrt)
    ensures IsSqrt(sqrt) ==> forall c :: 0 <= c < centroids.Length ==>
      MovedTo(units, assign, old(centroids[..]), centroids[..], dim, c)
  {
    hide MemberSum, MemberCount, NewCentroid, MovedTo;
    if IsSqrt(sqrt) { RecomputeMoves(units, assign, centroids[..], dim, sqrt); }
    var sums, counts := MemberSums(units, assign, centroids.Length, dim);
    for c := 0 to centroids.Length
      invariant centroids[..] == Recomputed(units, assign, old(centroids[..]), dim, c, sqrt)
      invariant forall j :: 0 <= j < centroids.Length ==> sums[j] == MemberSum(units, assign, j, dim)
      invariant forall j :: 0 <= j < centroids.Length ==> counts[j] == MemberCount(assign, j)
    {
      MoveCentroid(units, assign, centroids, dim, c, counts[c], sums[c], sqrt);
    }
  }
}
