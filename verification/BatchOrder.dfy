/** A batch settles its deliveries in another order than they arrived: the unreadable
    first, then the misshapen, then the rest after one bulk write. These lemmas say
    the order does not matter. */
module BatchOrder {
  import opened Wrappers
  import opened Jobs
  import opened Corpus
  import opened Batching

  function Filter(p: Delivery -> bool, ds: seq<Delivery>): (r: seq<Delivery>)
    ensures forall i :: 0 <= i < |r| ==> r[i] in ds && p(r[i])
    ensures forall i :: 0 <= i < |ds| && p(ds[i]) ==> ds[i] in r
  {
    if ds == [] then [] else
      var n := |ds| - 1;
      Filter(p, ds[..n]) + if p(ds[n]) then [ds[n]] else []
  }

  function Not(p: Delivery -> bool): Delivery -> bool {
    d => !p(d)
  }

  function Tags(ds: seq<Delivery>): set<Tag> {
    set i | 0 <= i < |ds| :: ds[i].tag
  }

  lemma TagsAppend(ds: seq<Delivery>, d: Delivery)
    ensures Tags(ds + [d]) == Tags(ds) + {d.tag}
  {
    var r := ds + [d];
    forall t | t in Tags(ds) + {d.tag} ensures t in Tags(r) {
      if t == d.tag {
        assert r[|ds|].tag == t;
      } else {
        var i :| 0 <= i < |ds| && ds[i].tag == t;
        assert r[i].tag == t;
      }
    }
  }

  lemma {:induction false} TagsCount(ds: seq<Delivery>)
    requires DistinctTags(ds)
    ensures |Tags(ds)| == |ds|
  {
    if ds != [] {
      var n := |ds| - 1;
      TagsCount(ds[..n]);
      TagsAppend(ds[..n], ds[n]);
      assert ds == ds[..n] + [ds[n]];
      assert ds[n].tag !in Tags(ds[..n]);
    }
  }

  lemma FilterLast(p: Delivery -> bool, ds: seq<Delivery>)
    requires ds != []
    ensures p(ds[|ds| - 1]) ==> Filter(p, ds) == Filter(p, ds[..|ds| - 1]) + [ds[|ds| - 1]]
    ensures !p(ds[|ds| - 1]) ==> Filter(p, ds) == Filter(p, ds[..|ds| - 1])
  {
  }

  lemma {:induction false} FilterDistinct(p: Delivery -> bool, ds: seq<Delivery>)
    requires DistinctTags(ds)
    ensures DistinctTags(Filter(p, ds))
  {
    if ds != [] {
      var n := |ds| - 1;
      FilterDistinct(p, ds[..n]);
      FilterLast(p, ds);
      var before := Filter(p, ds[..n]);
      forall i | 0 <= i < |before| ensures before[i].tag != ds[n].tag {
        var j :| 0 <= j < n && ds[..n][j] == before[i];
        assert ds[j].tag != ds[n].tag;
      }
    }
  }

  lemma FilterTags(p: Delivery -> bool, ds: seq<Delivery>)
    ensures forall t :: t in Tags(Filter(p, ds)) ==> exists i :: 0 <= i < |ds| && ds[i].tag == t && p(ds[i])
    ensures forall i :: 0 <= i < |ds| && p(ds[i]) ==> ds[i].tag in Tags(Filter(p, ds))
  {
    var r := Filter(p, ds);
    forall t | t in Tags(r) ensures exists i :: 0 <= i < |ds| && ds[i].tag == t && p(ds[i]) {
      var j :| 0 <= j < |r| && r[j].tag == t;
      var i :| 0 <= i < |ds| && ds[i] == r[j];
    }
    forall i | 0 <= i < |ds| && p(ds[i]) ensures ds[i].tag in Tags(r) {
      var j :| 0 <= j < |r| && r[j] == ds[i];
    }
  }

  lemma FilterSplits(p: Delivery -> bool, ds: seq<Delivery>)
    requires DistinctTags(ds)
    ensures Tags(Filter(p, ds)) + Tags(Filter(Not(p), ds)) == Tags(ds)
    ensures Tags(Filter(p, ds)) !! Tags(Filter(Not(p), ds))
  {
    FilterTags(p, ds);
    FilterTags(Not(p), ds);
    hide Filter;
    forall t | t in Tags(Filter(p, ds)) ensures t !in Tags(Filter(Not(p), ds)) {
      var i :| 0 <= i < |ds| && ds[i].tag == t && p(ds[i]);
      forall j | 0 <= j < |ds| && ds[j].tag == t ensures p(ds[j]) {}
    }
    forall t ensures t in Tags(Filter(p, ds)) + Tags(Filter(Not(p), ds)) <==> t in Tags(ds) {}
  }

  lemma {:induction false} SettleCommutes(s: Settings, e: Provider, sunk: bool, w: World, ds: seq<Delivery>, tag: Tag,
                                          o: Option<Outcome>)
    requires s.maxAttempts >= 1 && tag !in Tags(ds)
    ensures Effects(s, e, sunk, Settle(w, tag, o), ds) == Settle(Effects(s, e, sunk, w, ds), tag, o)
  {
    if ds != [] {
      hide EffectOf;
      var n := |ds| - 1;
      var f := EffectOf(s, e, sunk, ds[n]);
      TagsAppend(ds[..n], ds[n]);
      assert ds == ds[..n] + [ds[n]];
      SettleCommutes(s, e, sunk, w, ds[..n], tag, o);
      ApplySettle(Effects(s, e, sunk, w, ds[..n]), ds[n].tag, f, tag, o);
    }
  }

  lemma ApplySettle(w: World, tag: Tag, f: Effect, other: Tag, o: Option<Outcome>)
    requires tag != other
    ensures Apply(Settle(w, other, o), tag, f) == Settle(Apply(w, tag, f), other, o)
  {
    assert w.settled[other := o][tag := f.outcome] == w.settled[tag := f.outcome][other := o];
  }

  /** Settling the deliveries that write and send nothing before all others is invisible. */
  lemma {:induction false} SettlersFirst(s: Settings, e: Provider, sunk: bool, w: World, p: Delivery -> bool,
                                         ds: seq<Delivery>)
    requires s.maxAttempts >= 1 && DistinctTags(ds)
    requires forall i :: 0 <= i < |ds| && !p(ds[i]) ==>
      EffectOf(s, e, sunk, ds[i]).chunk == None && EffectOf(s, e, sunk, ds[i]).msg == None
    ensures Effects(s, e, sunk, Effects(s, e, sunk, w, Filter(Not(p), ds)), Filter(p, ds)) == Effects(s, e, sunk, w, ds)
  {
    if ds != [] {
      hide EffectOf, Filter, Apply;
      var n := |ds| - 1;
      var d := ds[n];
      SettlersFirst(s, e, sunk, w, p, ds[..n]);
      FilterLast(p, ds);
      FilterLast(Not(p), ds);
      var yes, no := Filter(p, ds[..n]), Filter(Not(p), ds[..n]);
      if p(d) {
        EffectsSnoc(s, e, sunk, Effects(s, e, sunk, w, no), yes, d);
      } else {
        EffectsSnoc(s, e, sunk, w, no, d);
        FilterTags(p, ds[..n]);
        var o := EffectOf(s, e, sunk, d).outcome;
        PureSettle(Effects(s, e, sunk, w, no), d.tag, EffectOf(s, e, sunk, d));
        PureSettle(Effects(s, e, sunk, w, ds[..n]), d.tag, EffectOf(s, e, sunk, d));
        SettleCommutes(s, e, sunk, Effects(s, e, sunk, w, no), yes, d.tag, o);
      }
    }
  }

  lemma EffectsSnoc(s: Settings, e: Provider, sunk: bool, w: World, ds: seq<Delivery>, d: Delivery)
    requires s.maxAttempts >= 1
    ensures Effects(s, e, sunk, w, ds + [d]) == Apply(Effects(s, e, sunk, w, ds), d.tag, EffectOf(s, e, sunk, d))
  {
    assert (ds + [d])[..|ds|] == ds;
  }

  lemma PureSettle(w: World, tag: Tag, f: Effect)
    requires f.chunk == None && f.msg == None
    ensures Apply(w, tag, f) == Settle(w, tag, f.outcome)
  {
  }

  // ---------- The deliveries whose chunks reach the bulk write ----------

  ghost predicate AllWanted(s: Settings, e: Provider, ds: seq<Delivery>) {
    forall i :: 0 <= i < |ds| ==> Wanted(s, e, ds[i]).Some?
  }

  function SettleStored(s: Settings, e: Provider, w: World, ds: seq<Delivery>): World
    requires AllWanted(s, e, ds)
  {
    if ds == [] then w else
      var n := |ds| - 1;
      Settle(SettleStored(s, e, w, ds[..n]), ds[n].tag, Some(Stored(Wanted(s, e, ds[n]).value)))
  }

  lemma {:induction false} SettleStoredKeepsTables(s: Settings, e: Provider, w: World, ds: seq<Delivery>)
    requires AllWanted(s, e, ds)
    ensures SettleStored(s, e, w, ds) == w.(settled := SettleStored(s, e, w, ds).settled)
    ensures forall live, staging ::
      SettleStored(s, e, w.(live := live, staging := staging), ds)
      == SettleStored(s, e, w, ds).(live := live, staging := staging)
  {
    if ds != [] { SettleStoredKeepsTables(s, e, w, ds[..|ds| - 1]); }
  }

  function BulkWorld(s: Settings, e: Provider, w: World, ds: seq<Delivery>): World {
    w.(live := PutAll(w.live, WantedChunks(s, e, ds, false)),
       staging := PutAll(w.staging, WantedChunks(s, e, ds, true)))
  }

  /** Writing all chunks in bulk and then settling equals write-and-settle one by one. */
  lemma {:induction false} BulkThenSettle(s: Settings, e: Provider, w: World, ds: seq<Delivery>)
    requires s.maxAttempts >= 1 && AllWanted(s, e, ds)
    requires !Overflows(s, e, ds, false) && !Overflows(s, e, ds, true)
    ensures SettleStored(s, e, BulkWorld(s, e, w, ds), ds) == Effects(s, e, false, w, ds)
  {
    if ds != [] {
      hide PutAll;
      var n := |ds| - 1;
      var c := Wanted(s, e, ds[n]).value;
      forall b | Overflows(s, e, ds[..n], b) ensures Overflows(s, e, ds, b) { PrefixOverflows(s, e, ds, b); }
      BulkThenSettle(s, e, w, ds[..n]);
      var before, after := BulkWorld(s, e, w, ds[..n]), BulkWorld(s, e, w, ds);
      LastChunk(s, e, w, ds);
      SettleStoredKeepsTables(s, e, before, ds[..n]);
      assert SettleStored(s, e, after, ds[..n]) == Write(SettleStored(s, e, before, ds[..n]), c);
      assert !Fits(c) ==> Overflows(s, e, ds, c.staging);
    }
  }

  lemma LastChunk(s: Settings, e: Provider, w: World, ds: seq<Delivery>)
    requires ds != [] && AllWanted(s, e, ds)
    ensures BulkWorld(s, e, w, ds) == Write(BulkWorld(s, e, w, ds[..|ds| - 1]), Wanted(s, e, ds[|ds| - 1]).value)
  {
    var n := |ds| - 1;
    var c := Wanted(s, e, ds[n]).value;
    var cs := WantedChunks(s, e, ds[..n], c.staging);
    assert WantedChunks(s, e, ds, c.staging) == cs + [c] && (cs + [c])[..|cs|] == cs;
  }

  lemma PrefixOverflows(s: Settings, e: Provider, ds: seq<Delivery>, staging: bool)
    requires ds != [] && Overflows(s, e, ds[..|ds| - 1], staging)
    ensures Overflows(s, e, ds, staging)
  {
    var n := |ds| - 1;
    var i := OverflowAt(s, e, ds[..n], staging);
    assert ds[..n][i] == ds[i];
  }

  lemma SunkWritesNothing(s: Settings, e: Provider, d: Delivery)
    requires s.maxAttempts >= 1
    ensures EffectOf(s, e, true, d).chunk == None
  {
    hide AfterFailure;
  }

  /** When the bulk write failed, what reached the live table does not depend on the retries. */
  lemma {:induction false} SunkLeavesTables(s: Settings, e: Provider, w: World, ds: seq<Delivery>, live: Table)
    requires s.maxAttempts >= 1
    ensures Effects(s, e, true, w.(live := live), ds) == Effects(s, e, true, w, ds).(live := live)
  {
    if ds != [] {
      var n := |ds| - 1;
      SunkWritesNothing(s, e, ds[n]);
      hide EffectOf;
      SunkLeavesTables(s, e, w, ds[..n], live);
    }
  }

  // Filtering down to the deliveries that want a chunk keeps chunks and overflows.
  lemma {:induction false} ChunksFiltered(s: Settings, e: Provider, p: Delivery -> bool, ds: seq<Delivery>,
                                          staging: bool)
    requires forall i :: 0 <= i < |ds| && Wanted(s, e, ds[i]).Some? ==> p(ds[i])
    ensures WantedChunks(s, e, Filter(p, ds), staging) == WantedChunks(s, e, ds, staging)
  {
    if ds != [] {
      hide Filter, Wanted;
      var n := |ds| - 1;
      ChunksFiltered(s, e, p, ds[..n], staging);
      FilterLast(p, ds);
      var before := Filter(p, ds[..n]);
      assert (before + [ds[n]])[..|before|] == before;
    }
  }

  lemma OverflowAt(s: Settings, e: Provider, ds: seq<Delivery>, staging: bool) returns (i: nat)
    requires Overflows(s, e, ds, staging)
    ensures i < |ds| && Wanted(s, e, ds[i]).Some? && Wanted(s, e, ds[i]).value.staging == staging
    ensures !Fits(Wanted(s, e, ds[i]).value)
  {
    i :| 0 <= i < |ds| && Wanted(s, e, ds[i]).Some? && Wanted(s, e, ds[i]).value.staging == staging
      && !Fits(Wanted(s, e, ds[i]).value);
  }

  lemma OverflowsFiltered(s: Settings, e: Provider, p: Delivery -> bool, ds: seq<Delivery>, staging: bool)
    requires forall i :: 0 <= i < |ds| && Wanted(s, e, ds[i]).Some? ==> p(ds[i])
    ensures Overflows(s, e, Filter(p, ds), staging) <==> Overflows(s, e, ds, staging)
  {
    var r := Filter(p, ds);
    if Overflows(s, e, r, staging) {
      var i := OverflowAt(s, e, r, staging);
      var j :| 0 <= j < |ds| && ds[j] == r[i];
    }
    if Overflows(s, e, ds, staging) {
      var i := OverflowAt(s, e, ds, staging);
      var j :| 0 <= j < |r| && r[j] == ds[i];
    }
  }
}
