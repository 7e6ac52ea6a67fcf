/** Putting the embeddings of a provider response back into input order. */
module Reorder {
  import opened Wrappers

  // A Go slice: None is nil, which has length 0 like the empty slice.
  type Vector = Option<seq<real>>

  function Len(v: Vector): nat {
    if v.Some? then |v.value| else 0
  }

  datatype Datum = Datum(index: int, embedding: Vector)

  datatype Error = WrongCount | OutOfRange(index: int) | Duplicate(index: int) | WrongDimension(index: int)

  function Empty(n: nat): seq<Vector> {
    seq(n, _ => None)
  }

  function Place(out: seq<Vector>, d: Datum, dim: int): Result<seq<Vector>, Error> {
    if d.index < 0 || d.index >= |out| then Failure(OutOfRange(d.index))
    else if out[d.index] != None then Failure(Duplicate(d.index))
    else if Len(d.embedding) != dim then Failure(WrongDimension(d.index))
    else Success(out[d.index := d.embedding])
  }

  function PlaceAll(data: seq<Datum>, n: nat, dim: int): Result<seq<Vector>, Error> {
    if data == [] then Success(Empty(n)) else
      match PlaceAll(data[..|data| - 1], n, dim)
      case Success(out) => Place(out, data[|data| - 1], dim)
      case Failure(e) => Failure(e)
  }

  function Order(data: seq<Datum>, n: nat, dim: int): Result<seq<Vector>, Error> {
    if |data| != n then Failure(WrongCount) else PlaceAll(data, n, dim)
  }

  // A failure is that of the first entry that fails.
  lemma {:induction false} FailureStays(data: seq<Datum>, n: nat, dim: int, i: nat)
    requires i <= |data| && PlaceAll(data[..i], n, dim).Failure?
    ensures PlaceAll(data, n, dim) == PlaceAll(data[..i], n, dim)
    decreases |data| - i
  {
    if i == |data| {
      assert data[..i] == data;
    } else {
      assert data[..i + 1][..i] == data[..i];
      FailureStays(data, n, dim, i + 1);
    }
  }

  /** Fills the slots in place, checking each entry. */
  method OrderEmbeddings(data: seq<Datum>, n: nat, dim: int) returns (r: Result<seq<Vector>, Error>)
    ensures r == Order(data, n, dim)
    ensures r.Failure? ==> if |data| != n then r.error == WrongCount
                           else exists i :: FirstFault(data, n, dim, i, r.error)
  {
    OrderFaults(data, n, dim);
    if |data| != n { return Failure(WrongCount); }
    var out := new Vector[n](_ => None);
    assert data[..0] == [] && out[..] == Empty(n);
    for i := 0 to |data|
      invariant PlaceAll(data[..i], n, dim) == Success(out[..])
    {
      var d := data[i];
      assert data[..i + 1][..i] == data[..i];
      ghost var before := out[..];
      if d.index < 0 || d.index >= n {
        FailureStays(data, n, dim, i + 1);
        return Failure(OutOfRange(d.index));
      }
      if out[d.index] != None {
        FailureStays(data, n, dim, i + 1);
        return Failure(Duplicate(d.index));
      }
      if Len(d.embedding) != dim {
        FailureStays(data, n, dim, i + 1);
        return Failure(WrongDimension(d.index));
      }
      out[d.index] := d.embedding;
      assert out[..] == before[d.index := d.embedding];
    }
    assert data[..|data|] == data;
    return Success(out[..]);
  }

  // ---------- What failure means ----------

  // An entry before the i-th that is not nil has this index.
  ghost predicate Taken(data: seq<Datum>, i: int, k: int)
    requires i <= |data|
  {
    exists j :: 0 <= j < i && data[j].index == k && data[j].embedding.Some?
  }

  ghost predicate Faultless(data: seq<Datum>, n: nat, dim: int, i: int)
    requires 0 <= i < |data|
  {
    0 <= data[i].index < n && !Taken(data, i, data[i].index) && Len(data[i].embedding) == dim
  }

  // What is wrong with the i-th entry: its range before its repetition before its dimension.
  ghost predicate Fault(data: seq<Datum>, n: nat, dim: int, i: int, e: Error)
    requires 0 <= i < |data|
  {
    var d := data[i];
    if d.index < 0 || d.index >= n then e == OutOfRange(d.index)
    else if Taken(data, i, d.index) then e == Duplicate(d.index)
    else Len(d.embedding) != dim && e == WrongDimension(d.index)
  }

  ghost predicate FirstFault(data: seq<Datum>, n: nat, dim: int, i: int, e: Error) {
    0 <= i < |data| && Fault(data, n, dim, i, e) && forall j :: 0 <= j < i ==> Faultless(data, n, dim, j)
  }

  ghost predicate Says(data: seq<Datum>, n: nat, dim: int, r: Result<seq<Vector>, Error>) {
    match r
    case Failure(e) => exists i :: FirstFault(data, n, dim, i, e)
    case Success(out) =>
      && (forall i :: 0 <= i < |data| ==> Faultless(data, n, dim, i))
      && |out| == n && forall k :: 0 <= k < n ==> (out[k].Some? <==> Taken(data, |data|, k))
  }

  lemma TakenEarlier(data: seq<Datum>, d: Datum, i: int, k: int)
    requires i <= |data|
    ensures Taken(data + [d], i, k) <==> Taken(data, i, k)
  {
    var more := data + [d];
    forall j | 0 <= j < |data| ensures more[j] == data[j] {}
    if Taken(data, i, k) {
      var j :| 0 <= j < i && data[j].index == k && data[j].embedding.Some?;
      assert more[j] == data[j];
    }
  }

  lemma TakenSnoc(data: seq<Datum>, d: Datum, k: int)
    ensures Taken(data + [d], |data| + 1, k) <==> Taken(data, |data|, k) || (d.index == k && d.embedding.Some?)
  {
    var more := data + [d];
    assert more[|data|] == d;
    TakenEarlier(data, d, |data|, k);
  }

  lemma FaultsEarlier(data: seq<Datum>, d: Datum, n: nat, dim: int, i: int)
    requires 0 <= i < |data|
    ensures Faultless(data + [d], n, dim, i) <==> Faultless(data, n, dim, i)
    ensures forall e :: Fault(data + [d], n, dim, i, e) <==> Fault(data, n, dim, i, e)
  {
    assert (data + [d])[i] == data[i];
    TakenEarlier(data, d, i, data[i].index);
    hide Taken;
  }

  lemma SaysSnoc(data: seq<Datum>, d: Datum, n: nat, dim: int, out: seq<Vector>)
    requires Says(data, n, dim, Success(out))
    ensures Says(data + [d], n, dim, Place(out, d, dim))
  {
    hide Taken;
    var more := data + [d];
    assert more[|data|] == d;
    TakenEarlier(data, d, |data|, d.index);
    forall i | 0 <= i < |data| ensures Faultless(more, n, dim, i) { FaultsEarlier(data, d, n, dim, i); }
    forall k | 0 <= k < n ensures Taken(more, |more|, k) <==> out[k].Some? || (d.index == k && d.embedding.Some?) {
      TakenSnoc(data, d, k);
    }
    var r := Place(out, d, dim);
    if r.Failure? { assert FirstFault(more, n, dim, |data|, r.error); }
  }

  lemma SaysEarlier(data: seq<Datum>, d: Datum, n: nat, dim: int, e: Error)
    requires Says(data, n, dim, Failure(e))
    ensures Says(data + [d], n, dim, Failure(e))
  {
    var i :| FirstFault(data, n, dim, i, e);
    hide Taken, Fault, Faultless;
    forall j | 0 <= j <= i
      ensures Faultless(data + [d], n, dim, j) <==> Faultless(data, n, dim, j)
      ensures Fault(data + [d], n, dim, j, e) <==> Fault(data, n, dim, j, e)
    {
      FaultsEarlier(data, d, n, dim, j);
    }
    assert FirstFault(data + [d], n, dim, i, e);
  }

  /** A response is refused for the first entry that is out of range, repeats an index or
      has the wrong dimension, and for no other. */
  lemma {:induction false} PlaceAllSays(data: seq<Datum>, n: nat, dim: int)
    ensures Says(data, n, dim, PlaceAll(data, n, dim))
  {
    if data != [] {
      hide Place, Says;
      var m := |data| - 1;
      assert data == data[..m] + [data[m]];
      PlaceAllSays(data[..m], n, dim);
      match PlaceAll(data[..m], n, dim) {
        case Success(out) => SaysSnoc(data[..m], data[m], n, dim, out);
        case Failure(e) => SaysEarlier(data[..m], data[m], n, dim, e);
      }
    }
  }

  lemma OrderFaults(data: seq<Datum>, n: nat, dim: int)
    ensures var r := Order(data, n, dim);
      r.Failure? ==> if |data| != n then r.error == WrongCount else exists i :: FirstFault(data, n, dim, i, r.error)
  {
    PlaceAllSays(data, n, dim);
  }

  // ---------- What success means ----------

  ghost predicate InShape(data: seq<Datum>, n: nat, dim: int) {
    forall i :: 0 <= i < |data| ==> 0 <= data[i].index < n && Len(data[i].embedding) == dim
  }

  ghost predicate Distinct(data: seq<Datum>) {
    forall i, j :: 0 <= i < j < |data| ==> data[i].index != data[j].index
  }

  ghost function Indices(data: seq<Datum>): set<int> {
    set i | 0 <= i < |data| :: data[i].index
  }

  lemma IndicesSnoc(data: seq<Datum>, d: Datum)
    ensures Indices(data + [d]) == Indices(data) + {d.index}
  {
    var more := data + [d];
    forall k | k in Indices(data) + {d.index} ensures k in Indices(more) {
      if k == d.index {
        assert more[|data|].index == k;
      } else {
        var i :| 0 <= i < |data| && data[i].index == k;
        assert more[i].index == k;
      }
    }
  }

  // Every entry sits at its index, and the other slots are empty.
  ghost predicate Placed(data: seq<Datum>, n: nat, out: seq<Vector>) {
    && |out| == n
    && (forall i :: 0 <= i < |data| ==> 0 <= data[i].index < n && out[data[i].index] == data[i].embedding)
    && (forall k :: 0 <= k < n && k !in Indices(data) ==> out[k] == None)
  }

  lemma PlacedSnoc(data: seq<Datum>, d: Datum, n: nat, dim: int, out: seq<Vector>)
    requires dim != 0 && InShape(data, n, dim) && Distinct(data) && Placed(data, n, out)
    ensures Place(out, d, dim).Success? <==> InShape(data + [d], n, dim) && Distinct(data + [d])
    ensures Place(out, d, dim).Success? ==> Placed(data + [d], n, Place(out, d, dim).value)
  {
    var more := data + [d];
    forall i | 0 <= i < |data| ensures more[i] == data[i] {}
    assert more[|data|] == d;
    IndicesSnoc(data, d);
    if 0 <= d.index < n {
      if out[d.index] == None {
        forall i | 0 <= i < |data| ensures data[i].index != d.index { assert out[data[i].index] == data[i].embedding; }
      } else {
        var i :| 0 <= i < |data| && data[i].index == d.index;
        assert more[i].index == more[|data|].index;
      }
    }
  }

  lemma ShapePrefix(data: seq<Datum>, d: Datum, n: nat, dim: int)
    requires InShape(data + [d], n, dim) && Distinct(data + [d])
    ensures InShape(data, n, dim) && Distinct(data)
  {
    var more := data + [d];
    forall i | 0 <= i < |data| ensures more[i] == data[i] {}
  }

  lemma {:induction false} PlaceAllIff(data: seq<Datum>, n: nat, dim: int)
    requires dim != 0
    ensures PlaceAll(data, n, dim).Success? <==> InShape(data, n, dim) && Distinct(data)
    ensures PlaceAll(data, n, dim).Success? ==> Placed(data, n, PlaceAll(data, n, dim).value)
  {
    if data != [] {
      hide InShape, Distinct, Placed, Place;
      var m := |data| - 1;
      assert data == data[..m] + [data[m]];
      PlaceAllIff(data[..m], n, dim);
      if PlaceAll(data[..m], n, dim).Success? {
        PlacedSnoc(data[..m], data[m], n, dim, PlaceAll(data[..m], n, dim).value);
      } else if InShape(data, n, dim) && Distinct(data) {
        ShapePrefix(data[..m], data[m], n, dim);
      }
    }
  }

  lemma DistinctSnoc(data: seq<Datum>, d: Datum)
    ensures Distinct(data + [d]) <==> Distinct(data) && d.index !in Indices(data)
  {
    var longer := data + [d];
    forall i | 0 <= i < |data| ensures longer[i] == data[i] {}
    if d.index in Indices(data) {
      var i :| 0 <= i < |data| && data[i].index == d.index;
      assert longer[i].index == longer[|data|].index;
    }
    if Distinct(longer) {
      forall i, j | 0 <= i < j < |data| ensures data[i].index != data[j].index {
        assert longer[i].index != longer[j].index;
      }
    }
  }

  lemma {:induction false} DistinctIffCount(data: seq<Datum>)
    ensures |Indices(data)| <= |data|
    ensures Distinct(data) <==> |Indices(data)| == |data|
  {
    if data != [] {
      hide Distinct, Indices;
      var m := |data| - 1;
      DistinctIffCount(data[..m]);
      IndicesSnoc(data[..m], data[m]);
      DistinctSnoc(data[..m], data[m]);
      assert data == data[..m] + [data[m]];
    }
  }

  ghost function Below(n: nat): (r: set<int>)
    ensures |r| == n && forall k :: k in r <==> 0 <= k < n
  {
    if n == 0 then {} else Below(n - 1) + {n - 1}
  }

  /** Pigeonhole: n distinct indices below n are all of them. */
  lemma EveryIndexOccurs(data: seq<Datum>, n: nat, dim: int, k: nat)
    requires InShape(data, n, dim) && Distinct(data) && |data| == n && k < n
    ensures exists i :: 0 <= i < |data| && data[i].index == k
  {
    DistinctIffCount(data);
    if k !in Indices(data) {
      assert Indices(data) <= Below(n) - {k};
      SubsetCount(Indices(data), Below(n) - {k});
    }
  }

  lemma SubsetCount(a: set<int>, b: set<int>)
    requires a <= b
    ensures |a| <= |b|
  {
    assert b == a + (b - a);
  }

  /** With a real dimension, a response is accepted exactly when it is a permutation of
      the inputs, and then every slot holds its own embedding. */
  lemma AcceptsExactlyPermutations(data: seq<Datum>, n: nat, dim: int)
    requires dim != 0
    ensures Order(data, n, dim).Success? <==> |data| == n && InShape(data, n, dim) && Distinct(data)
    ensures Order(data, n, dim).Success? ==>
      var out := Order(data, n, dim).value;
      && |out| == n
      && (forall k :: 0 <= k < n ==> out[k].Some? && |out[k].value| == dim)
      && (forall i :: 0 <= i < |data| ==> 0 <= data[i].index < n && out[data[i].index] == data[i].embedding)
      && Indices(data) == Below(n)
  {
    if |data| == n {
      PlaceAllIff(data, n, dim);
      if Order(data, n, dim).Success? {
        forall k | 0 <= k < n
          ensures k in Indices(data) && Order(data, n, dim).value[k].Some? && Len(Order(data, n, dim).value[k]) == dim
        {
          EveryIndexOccurs(data, n, dim, k);
        }
      }
    }
  }

  lemma SameMembers(a: seq<Datum>, b: seq<Datum>)
    requires multiset(a) == multiset(b)
    ensures |a| == |b| && Indices(a) == Indices(b)
    ensures forall d :: d in a <==> d in b
  {
    assert |multiset(a)| == |a| && |multiset(b)| == |b|;
    forall d ensures d in a <==> d in b { assert d in multiset(a) <==> d in multiset(b); }
    forall k ensures k in Indices(a) <==> k in Indices(b) {
      if i :| 0 <= i < |a| && a[i].index == k { assert a[i] in b; }
      if i :| 0 <= i < |b| && b[i].index == k { assert b[i] in a; }
    }
  }

  /** The order of the response does not matter. */
  lemma OrderOfResponseIsIrrelevant(a: seq<Datum>, b: seq<Datum>, n: nat, dim: int)
    requires dim != 0 && multiset(a) == multiset(b)
    ensures Order(a, n, dim).Success? <==> Order(b, n, dim).Success?
    ensures Order(a, n, dim).Success? ==> Order(a, n, dim) == Order(b, n, dim)
  {
    SameMembers(a, b);
    DistinctIffCount(a);
    DistinctIffCount(b);
    AcceptsExactlyPermutations(a, n, dim);
    AcceptsExactlyPermutations(b, n, dim);
    assert InShape(a, n, dim) <==> InShape(b, n, dim) by {
      forall i | 0 <= i < |a| ensures a[i] in b {}
      forall i | 0 <= i < |b| ensures b[i] in a {}
    }
    if Order(a, n, dim).Success? {
      var x, y := Order(a, n, dim).value, Order(b, n, dim).value;
      forall k | 0 <= k < n ensures x[k] == y[k] {
        EveryIndexOccurs(a, n, dim, k);
        var i :| 0 <= i < |a| && a[i].index == k;
        assert a[i] in b;
        var j :| 0 <= j < |b| && b[j] == a[i];
      }
      assert x == y;
    }
  }

  /** Success implies a permutation for every response exactly when the configured
      dimension is not zero: with dimension 0 a nil embedding never fills its slot, so a
      repeated index goes unnoticed. */
  lemma PermutationIffDimensionNotZero(dim: int)
    ensures (forall data, n :: Order(data, n, dim).Success? ==> Distinct(data)) <==> dim != 0
  {
    if dim == 0 {
      var twice := [Datum(0, None), Datum(0, None)];
      assert twice[..1] == [Datum(0, None)] && twice[..1][..0] == [];
      assert PlaceAll([], 2, 0) == Success(Empty(2));
      assert PlaceAll(twice[..1], 2, 0) == Place(Empty(2), Datum(0, None), 0);
      assert Order(twice, 2, 0).Success?;
      assert twice[0].index == twice[1].index;
    } else {
      forall data, n: nat | Order(data, n, dim).Success?
        ensures Distinct(data)
      {
        AcceptsExactlyPermutations(data, n, dim);
      }
    }
  }
}
