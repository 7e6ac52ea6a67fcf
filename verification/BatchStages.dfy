/** What the stages of a batch do to the world when nothing fails outside it. */
module BatchStages {
  import opened Wrappers
  import opened Jobs
  import opened Corpus
  import opened Batching
  import opened BatchOrder
  import opened Evidence
  import opened Environment

  function Reads(s: Settings): Delivery -> bool {
    d => JobOf(s, d).Some?
  }

  function Wants(s: Settings, e: Provider): Delivery -> bool {
    d => Wanted(s, e, d).Some?
  }

  lemma RejectedIsOneByOne(s: Settings, e: Provider, w: World, items: seq<Delivery>, texts: seq<string>)
    requires s.maxAttempts >= 1 && |texts| == |items| && EmbedAll(e, texts) == None
    requires forall i :: 0 <= i < |items| ==> JobOf(s, items[i]).Some? && texts[i] == JobOf(s, items[i]).value.content
    ensures Batch(s, e, w, items) == Effects(s, e, false, w, items)
  {
    hide Effects;
    var i :| 0 <= i < |texts| && e(texts[i]).None?;
    assert !AllEmbed(s, e, items);
  }

  lemma AnswersAll(s: Settings, e: Provider, items: seq<Delivery>, texts: seq<string>, vecs: seq<Embedding>)
    requires |texts| == |items| && EmbedAll(e, texts) == Some(vecs)
    requires forall i :: 0 <= i < |items| ==> JobOf(s, items[i]).Some? && texts[i] == JobOf(s, items[i]).value.content
    ensures Answers(s, e, items, vecs) && AllEmbed(s, e, items)
  {
  }

  ghost predicate WantedAre(s: Settings, e: Provider, good: seq<Delivery>, chunks: seq<Chunk>) {
    |chunks| == |good| && forall i :: 0 <= i < |good| ==> Wanted(s, e, good[i]) == Some(chunks[i])
  }

  lemma {:induction false} SelectedAreWanted(s: Settings, e: Provider, good: seq<Delivery>, chunks: seq<Chunk>)
    requires WantedAre(s, e, good, chunks)
    ensures AllWanted(s, e, good) && AllEmbed(s, e, good)
    ensures forall b :: Select(chunks, b) == WantedChunks(s, e, good, b) && Pointwise(e, Select(chunks, b))
    ensures forall b :: AllFit(Select(chunks, b)) <==> !Overflows(s, e, good, b)
  {
    forall b ensures Select(chunks, b) == WantedChunks(s, e, good, b) && Pointwise(e, Select(chunks, b))
             && (AllFit(Select(chunks, b)) <==> !Overflows(s, e, good, b))
    {
      SelectedOfTable(s, e, good, chunks, b);
    }
  }

  lemma {:induction false} SelectedOfTable(s: Settings, e: Provider, good: seq<Delivery>, chunks: seq<Chunk>, b: bool)
    requires WantedAre(s, e, good, chunks)
    ensures Select(chunks, b) == WantedChunks(s, e, good, b)
    ensures Pointwise(e, Select(chunks, b))
    ensures AllFit(Select(chunks, b)) <==> !Overflows(s, e, good, b)
  {
    if good != [] {
      var n := |good| - 1;
      SelectedOfTable(s, e, good[..n], chunks[..n], b);
      assert Wanted(s, e, good[n]) == Some(chunks[n]);
      assert e(chunks[n].content) == Some(chunks[n].embedding);
      var before := Select(chunks[..n], b);
      if chunks[n].staging == b {
        assert Select(chunks, b) == before + [chunks[n]];
        AllFitSnoc(before, chunks[n]);
      } else {
        assert Select(chunks, b) == before;
      }
      OverflowsSnoc(s, e, good, b);
    }
  }

  lemma AllFitSnoc(cs: seq<Chunk>, c: Chunk)
    ensures AllFit(cs + [c]) <==> AllFit(cs) && Fits(c)
  {
    assert (cs + [c])[|cs|] == c;
    forall i | 0 <= i < |cs| ensures (cs + [c])[i] == cs[i] {}
  }

  lemma OverflowsSnoc(s: Settings, e: Provider, ds: seq<Delivery>, b: bool)
    requires ds != []
    ensures var last := Wanted(s, e, ds[|ds| - 1]);
      Overflows(s, e, ds, b) <==>
        Overflows(s, e, ds[..|ds| - 1], b) || (last.Some? && last.value.staging == b && !Fits(last.value))
  {
    if Overflows(s, e, ds[..|ds| - 1], b) { PrefixOverflows(s, e, ds, b); }
    if Overflows(s, e, ds, b) {
      var i := OverflowAt(s, e, ds, b);
      if i < |ds| - 1 { assert ds[..|ds| - 1][i] == ds[i]; }
    }
  }

  lemma {:induction false} MembersSelected(chunks: seq<Chunk>)
    ensures Members(chunks) == Members(Select(chunks, false)) + Members(Select(chunks, true))
  {
    if chunks != [] {
      var n := |chunks| - 1;
      hide Members;
      var b := chunks[n].staging;
      MembersSelected(chunks[..n]);
      assert chunks == chunks[..n] + [chunks[n]];
      SelectSnoc(chunks[..n], chunks[n]);
      MembersSnoc(chunks[..n], chunks[n]);
      MembersSnoc(Select(chunks[..n], b), chunks[n]);
    }
  }

  lemma StoredIsBatch(s: Settings, e: Provider, w: World, good: seq<Delivery>, chunks: seq<Chunk>, written: World)
    requires s.maxAttempts >= 1 && WantedAre(s, e, good, chunks)
    requires AllFit(Select(chunks, false)) && AllFit(Select(chunks, true))
    requires written == w.(live := PutAll(w.live, Select(chunks, false)),
                           staging := PutAll(w.staging, Select(chunks, true)))
    ensures AllWanted(s, e, good)
    ensures SettleStored(s, e, written, good) == Batch(s, e, w, good)
  {
    hide Effects, SettleStored, PutAll;
    SelectedAreWanted(s, e, good, chunks);
    assert written == BulkWorld(s, e, w, good);
    BulkThenSettle(s, e, w, good);
  }

  lemma FailedIsBatch(s: Settings, e: Provider, w: World, good: seq<Delivery>, chunks: seq<Chunk>, written: World)
    requires s.maxAttempts >= 1 && WantedAre(s, e, good, chunks)
    requires !(AllFit(Select(chunks, false)) && AllFit(Select(chunks, true)))
    requires var half := Select(chunks, false);
      written == w.(live := if AllFit(half) then PutAll(w.live, half) else w.live)
    ensures Effects(s, e, true, written, good) == Batch(s, e, w, good)
  {
    hide Effects, PutAll;
    SelectedAreWanted(s, e, good, chunks);
    SunkLeavesTables(s, e, w, good, written.live);
  }

  /** Dropping the deliveries that write and send nothing first leaves a batch of the
      others with the same result. */
  lemma BatchSkipsSettlers(s: Settings, e: Provider, p: Delivery -> bool, w: World, w1: World, ds: seq<Delivery>)
    requires s.maxAttempts >= 1 && DistinctTags(ds) && Dropped(s, e, w, w1, Filter(Not(p), ds))
    requires forall i :: 0 <= i < |ds| && Wanted(s, e, ds[i]).Some? ==> p(ds[i])
    requires forall sunk, i :: 0 <= i < |ds| && !p(ds[i]) ==>
      EffectOf(s, e, sunk, ds[i]).chunk == None && EffectOf(s, e, sunk, ds[i]).msg == None
    requires AllEmbed(s, e, ds) <==> AllEmbed(s, e, Filter(p, ds))
    requires w1.live == w.live
    ensures Batch(s, e, w1, Filter(p, ds)) == Batch(s, e, w, ds)
  {
    hide Effects, EffectOf, Filter, Wanted;
    forall b
      ensures Overflows(s, e, Filter(p, ds), b) <==> Overflows(s, e, ds, b)
    {
      OverflowsFiltered(s, e, p, ds, b);
    }
    ChunksFiltered(s, e, p, ds, false);
    SettlersFirst(s, e, false, w, p, ds);
    SettlersFirst(s, e, true, w, p, ds);
    assert w1 == Effects(s, e, false, w, Filter(Not(p), ds)) == Effects(s, e, true, w, Filter(Not(p), ds));
  }

  lemma {:induction false} SettlersKeepLive(s: Settings, e: Provider, sunk: bool, w: World, ds: seq<Delivery>)
    requires s.maxAttempts >= 1 && forall i :: 0 <= i < |ds| ==> EffectOf(s, e, sunk, ds[i]).chunk == None
    ensures Effects(s, e, sunk, w, ds).live == w.live
  {
    hide EffectOf;
    if ds != [] {
      forall i | 0 <= i < |ds| - 1 ensures ds[..|ds| - 1][i] == ds[i] {}
      SettlersKeepLive(s, e, sunk, w, ds[..|ds| - 1]);
    }
  }

  lemma UnreadEffect(s: Settings, e: Provider, d: Delivery)
    requires s.maxAttempts >= 1 && JobOf(s, d) == None
    ensures forall sunk :: EffectOf(s, e, sunk, d).chunk == None && EffectOf(s, e, sunk, d).msg == None
    ensures Wanted(s, e, d) == None
  {
  }

  lemma UnwantedEffect(s: Settings, e: Provider, d: Delivery)
    requires s.maxAttempts >= 1 && JobOf(s, d).Some? && e(JobOf(s, d).value.content).Some? && Wanted(s, e, d) == None
    ensures forall sunk :: EffectOf(s, e, sunk, d).chunk == None && EffectOf(s, e, sunk, d).msg == None
  {
    hide AfterFailure;
  }

  lemma DropsKeepBatch(s: Settings, e: Provider, w: World, w1: World, ds: seq<Delivery>)
    requires s.maxAttempts >= 1 && DistinctTags(ds)
    requires forall sunk :: w1 == Effects(s, e, sunk, w, Filter(Not(Reads(s)), ds))
    ensures Batch(s, e, w1, Filter(Reads(s), ds)) == Batch(s, e, w, ds)
  {
    hide Batch, Effects, EffectOf, Filter, Wanted;
    var p := Reads(s);
    forall d | JobOf(s, d) == None
      ensures forall sunk :: EffectOf(s, e, sunk, d).chunk == None && EffectOf(s, e, sunk, d).msg == None
      ensures Wanted(s, e, d) == None
    {
      UnreadEffect(s, e, d);
    }
    var no := Filter(Not(p), ds);
    forall i | 0 <= i < |no| ensures EffectOf(s, e, false, no[i]).chunk == None { assert Not(p)(no[i]); }
    SettlersKeepLive(s, e, false, w, no);
    EmbedsFiltered(s, e, ds);
    BatchSkipsSettlers(s, e, p, w, w1, ds);
  }

  lemma EmbedsFiltered(s: Settings, e: Provider, ds: seq<Delivery>)
    ensures AllEmbed(s, e, ds) <==> AllEmbed(s, e, Filter(Reads(s), ds))
  {
    var r := Filter(Reads(s), ds);
    if AllEmbed(s, e, r) {
      forall i | 0 <= i < |ds| && JobOf(s, ds[i]).Some? ensures e(JobOf(s, ds[i]).value.content).Some? {
        assert Reads(s)(ds[i]);
        var j :| 0 <= j < |r| && r[j] == ds[i];
      }
    }
    if AllEmbed(s, e, ds) {
      forall i | 0 <= i < |r| && JobOf(s, r[i]).Some? ensures e(JobOf(s, r[i]).value.content).Some? {
        var j :| 0 <= j < |ds| && ds[j] == r[i];
      }
    }
  }

  lemma ShapesKeepBatch(s: Settings, e: Provider, w: World, w1: World, items: seq<Delivery>,
                        good: seq<Delivery>, chunks: seq<Chunk>, bad: seq<Delivery>)
    requires s.maxAttempts >= 1 && DistinctTags(items) && AllEmbed(s, e, items)
    requires forall i :: 0 <= i < |items| ==> JobOf(s, items[i]).Some?
    requires Sorted(s, e, items, good, chunks, bad) && Dropped(s, e, w, w1, bad)
    ensures WantedAre(s, e, good, chunks)
    ensures Batch(s, e, w1, good) == Batch(s, e, w, items)
  {
    hide Batch, Effects, EffectOf, Filter, Wanted;
    var p := Wants(s, e);
    forall i | 0 <= i < |items| && Wanted(s, e, items[i]) == None
      ensures forall sunk :: EffectOf(s, e, sunk, items[i]).chunk == None && EffectOf(s, e, sunk, items[i]).msg == None
    {
      UnwantedEffect(s, e, items[i]);
    }
    forall i | 0 <= i < |bad| ensures EffectOf(s, e, false, bad[i]).chunk == None {
      assert Not(p)(bad[i]);
      var j :| 0 <= j < |items| && items[j] == bad[i];
    }
    SettlersKeepLive(s, e, false, w, bad);
    assert w1 == Effects(s, e, false, w, bad);
    assert AllEmbed(s, e, good) by {
      forall i | 0 <= i < |good| && JobOf(s, good[i]).Some? ensures e(JobOf(s, good[i]).value.content).Some? {
        var j :| 0 <= j < |items| && items[j] == good[i];
      }
    }
    BatchSkipsSettlers(s, e, p, w, w1, items);
  }

  function Select(cs: seq<Chunk>, staging: bool): seq<Chunk> {
    if cs == [] then [] else
      var n := |cs| - 1;
      Select(cs[..n], staging) + if cs[n].staging == staging then [cs[n]] else []
  }

  lemma SelectSnoc(cs: seq<Chunk>, c: Chunk)
    ensures Select(cs + [c], c.staging) == Select(cs, c.staging) + [c]
    ensures Select(cs + [c], !c.staging) == Select(cs, !c.staging)
  {
    assert (cs + [c])[..|cs|] == cs;
  }

  // The provider's own answer to the batch.
  ghost predicate Answers(s: Settings, e: Provider, items: seq<Delivery>, vecs: seq<Embedding>) {
    |vecs| == |items| && forall i :: 0 <= i < |items| ==>
      JobOf(s, items[i]).Some? && e(JobOf(s, items[i]).value.content) == Some(vecs[i])
  }

  // `good` are the deliveries that want a chunk, `bad` the others.
  ghost predicate Sorted(s: Settings, e: Provider, items: seq<Delivery>, good: seq<Delivery>, chunks: seq<Chunk>,
                         bad: seq<Delivery>) {
    && good == Filter(Wants(s, e), items) && bad == Filter(Not(Wants(s, e)), items) && |chunks| == |good|
    && forall i :: 0 <= i < |good| ==> Wanted(s, e, good[i]) == Some(chunks[i])
  }

  ghost predicate Dropped(s: Settings, e: Provider, w: World, w': World, ds: seq<Delivery>) {
    s.maxAttempts >= 1 && forall sunk :: w' == Effects(s, e, sunk, w, ds)
  }

  lemma SortedNothing(s: Settings, e: Provider)
    ensures Sorted(s, e, [], [], [], [])
  {
  }

  lemma DroppedNothing(s: Settings, e: Provider, w: World)
    ensures s.maxAttempts >= 1 ==> Dropped(s, e, w, w, [])
  {
  }

  lemma SortedGood(s: Settings, e: Provider, items: seq<Delivery>, vecs: seq<Embedding>, i: nat,
                   good: seq<Delivery>, chunks: seq<Chunk>, bad: seq<Delivery>)
    requires Answers(s, e, items, vecs) && i < |items| && |vecs[i]| == EMBEDDING_DIM
    requires Sorted(s, e, items[..i], good, chunks, bad)
    ensures Sorted(s, e, items[..i] + [items[i]], good + [items[i]],
                   chunks + [ChunkOf(JobOf(s, items[i]).value, vecs[i])], bad)
  {
    var more := items[..i] + [items[i]];
    assert more[..i] == items[..i];
    FilterLast(Wants(s, e), more);
    FilterLast(Not(Wants(s, e)), more);
  }

  lemma SortedBad(s: Settings, e: Provider, items: seq<Delivery>, vecs: seq<Embedding>, i: nat,
                  good: seq<Delivery>, chunks: seq<Chunk>, bad: seq<Delivery>)
    requires Answers(s, e, items, vecs) && i < |items| && |vecs[i]| != EMBEDDING_DIM
    requires Sorted(s, e, items[..i], good, chunks, bad)
    ensures Sorted(s, e, items[..i] + [items[i]], good, chunks, bad + [items[i]])
  {
    var more := items[..i] + [items[i]];
    assert more[..i] == items[..i];
    FilterLast(Wants(s, e), more);
    FilterLast(Not(Wants(s, e)), more);
  }

  lemma DroppedSnoc(s: Settings, e: Provider, w: World, w': World, items: seq<Delivery>, vecs: seq<Embedding>, i: nat,
                    bad: seq<Delivery>)
    requires Answers(s, e, items, vecs) && i < |items| && |vecs[i]| != EMBEDDING_DIM && Dropped(s, e, w, w', bad)
    ensures Dropped(s, e, w, Settle(w', items[i].tag, Some(BadShape)), bad + [items[i]])
  {
    forall sunk ensures Settle(w', items[i].tag, Some(BadShape)) == Effects(s, e, sunk, w, bad + [items[i]]) {
      assert w' == Effects(s, e, sunk, w, bad);
      EffectsSnoc(s, e, sunk, w, bad, items[i]);
    }
  }

  lemma SunkEffect(s: Settings, e: Provider, d: Delivery)
    requires s.maxAttempts >= 1
    ensures Wanted(s, e, d).Some? ==>
      JobOf(s, d).Some? && EffectOf(s, e, true, d) == FailEffect(s, d, JobOf(s, d).value)
  {
    hide AfterFailure;
  }

  lemma SingleWrite(f: Provider, t: Table, c: Chunk, t': Table)
    requires BulkWritten(t, [c], t') && f(c.content) == Some(c.embedding)
    ensures t' == Put(t, c)
  {
    BulkIsPutAll(f, t, [c], t');
    assert [c][..0] == [] && PutAll(t, []) == t;
  }
}
