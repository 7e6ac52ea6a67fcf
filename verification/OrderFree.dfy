/** In what order deliveries are handled does not matter: with a provider whose answer
    depends only on the text, the corpus tables and every delivery's fate are the
    same, and the same messages are sent. */
module OrderFree {
  import opened Wrappers
  import opened Jobs
  import opened Corpus
  import opened Batching
  import opened BatchOrder

  // The chunks the deliveries write to one table, in order.
  function Writes(s: Settings, e: Provider, ds: seq<Delivery>, staging: bool): seq<Chunk>
    requires s.maxAttempts >= 1
  {
    if ds == [] then [] else
      Writes(s, e, ds[..|ds| - 1], staging) + TheChunk(EffectOf(s, e, false, ds[|ds| - 1]), staging)
  }

  function Sends(s: Settings, e: Provider, ds: seq<Delivery>): seq<Msg>
    requires s.maxAttempts >= 1
  {
    if ds == [] then [] else
      Sends(s, e, ds[..|ds| - 1]) + TheMsg(EffectOf(s, e, false, ds[|ds| - 1]))
  }

  lemma PutAllSnoc(t: Table, cs: seq<Chunk>, c: Chunk)
    ensures PutAll(t, cs + [c]) == Put(PutAll(t, cs), c)
  {
    assert (cs + [c])[..|cs|] == cs;
  }

  // The world after the effects, said part by part.
  ghost predicate ByParts(w: World, r: World, live: seq<Chunk>, staging: seq<Chunk>, sent: seq<Msg>, tags: set<Tag>) {
    && r.live == PutAll(w.live, live)
    && r.staging == PutAll(w.staging, staging)
    && r.published == w.published + sent
    && r.settled.Keys == w.settled.Keys + tags
    && forall t :: t in w.settled && t !in tags ==> r.settled[t] == w.settled[t]
  }

  lemma WriteByParts(w: World, r: World, live: seq<Chunk>, staging: seq<Chunk>, sent: seq<Msg>, tags: set<Tag>,
                     c: Chunk)
    requires ByParts(w, r, live, staging, sent, tags)
    ensures c.staging ==> ByParts(w, Write(r, c), live, staging + [c], sent, tags)
    ensures !c.staging ==> ByParts(w, Write(r, c), live + [c], staging, sent, tags)
  {
    PutAllSnoc(w.live, live, c);
    PutAllSnoc(w.staging, staging, c);
    hide PutAll, Put;
  }

  lemma SendByParts(w: World, r: World, live: seq<Chunk>, staging: seq<Chunk>, sent: seq<Msg>, tags: set<Tag>, msg: Msg)
    requires ByParts(w, r, live, staging, sent, tags)
    ensures ByParts(w, r.(published := r.published + [msg]), live, staging, sent + [msg], tags)
  {
    hide PutAll;
  }

  lemma SettleByParts(w: World, r: World, live: seq<Chunk>, staging: seq<Chunk>, sent: seq<Msg>, tags: set<Tag>,
                      tag: Tag, o: Option<Outcome>)
    requires ByParts(w, r, live, staging, sent, tags)
    ensures ByParts(w, Settle(r, tag, o), live, staging, sent, tags + {tag})
  {
    hide PutAll;
    forall t | t in w.settled && t !in tags + {tag}
      ensures t in r.settled && Settle(r, tag, o).settled[t] == w.settled[t]
    {
      assert t in r.settled.Keys;
    }
  }

  function TheChunk(f: Effect, staging: bool): seq<Chunk> {
    if f.chunk.Some? && f.chunk.value.staging == staging then [f.chunk.value] else []
  }

  function TheMsg(f: Effect): seq<Msg> {
    if f.msg.Some? then [f.msg.value] else []
  }

  lemma ApplyByParts(w: World, r: World, live: seq<Chunk>, staging: seq<Chunk>, sent: seq<Msg>, tags: set<Tag>,
                     tag: Tag, f: Effect)
    requires ByParts(w, r, live, staging, sent, tags)
    ensures ByParts(w, Apply(r, tag, f), live + TheChunk(f, false), staging + TheChunk(f, true), sent + TheMsg(f),
                    tags + {tag})
  {
    hide ByParts, Write;
    assert live + [] == live && staging + [] == staging && sent + [] == sent;
    var live', staging', sent' := live + TheChunk(f, false), staging + TheChunk(f, true), sent + TheMsg(f);
    var written := if f.chunk.Some? then Write(r, f.chunk.value) else r;
    if f.chunk.Some? { WriteByParts(w, r, live, staging, sent, tags, f.chunk.value); }
    assert ByParts(w, written, live', staging', sent, tags);
    if f.msg.Some? { SendByParts(w, written, live', staging', sent, tags, f.msg.value); }
    var after := if f.msg.Some? then written.(published := written.published + [f.msg.value]) else written;
    SettleByParts(w, after, live', staging', sent', tags, tag, f.outcome);
  }

  lemma LastEffect(s: Settings, e: Provider, w: World, ds: seq<Delivery>)
    requires s.maxAttempts >= 1 && ds != []
    ensures var n := |ds| - 1;
      var f := EffectOf(s, e, false, ds[n]);
      && Writes(s, e, ds, false) == Writes(s, e, ds[..n], false) + TheChunk(f, false)
      && Writes(s, e, ds, true) == Writes(s, e, ds[..n], true) + TheChunk(f, true)
      && Sends(s, e, ds) == Sends(s, e, ds[..n]) + TheMsg(f)
      && Tags(ds) == Tags(ds[..n]) + {ds[n].tag}
      && Effects(s, e, false, w, ds) == Apply(Effects(s, e, false, w, ds[..n]), ds[n].tag, f)
  {
    hide EffectOf, TheChunk, TheMsg, Tags, Apply;
    var n := |ds| - 1;
    TagsAppend(ds[..n], ds[n]);
    assert ds == ds[..n] + [ds[n]];
  }

  lemma {:induction false} EffectsByParts(s: Settings, e: Provider, w: World, ds: seq<Delivery>)
    requires s.maxAttempts >= 1
    ensures ByParts(w, Effects(s, e, false, w, ds), Writes(s, e, ds, false), Writes(s, e, ds, true),
                    Sends(s, e, ds), Tags(ds))
  {
    if ds != [] {
      hide EffectOf, TheChunk, TheMsg, Tags, ByParts, Apply, Effects, Writes, Sends;
      var n := |ds| - 1;
      EffectsByParts(s, e, w, ds[..n]);
      ApplyByParts(w, Effects(s, e, false, w, ds[..n]), Writes(s, e, ds[..n], false), Writes(s, e, ds[..n], true),
                   Sends(s, e, ds[..n]), Tags(ds[..n]), ds[n].tag, EffectOf(s, e, false, ds[n]));
      LastEffect(s, e, w, ds);
    } else {
      assert Tags(ds) == {};
    }
  }

  lemma {:induction false} WritesAre(s: Settings, e: Provider, ds: seq<Delivery>, staging: bool)
    requires s.maxAttempts >= 1
    ensures Pointwise(e, Writes(s, e, ds, staging))
    ensures forall c :: c in Writes(s, e, ds, staging) <==>
              c.staging == staging && exists d :: d in ds && EffectOf(s, e, false, d).chunk == Some(c)
  {
    if ds != [] {
      var n := |ds| - 1;
      WritesAre(s, e, ds[..n], staging);
      ChunkIsPointwise(s, e, ds[n]);
      hide EffectOf;
      forall d ensures d in ds <==> d in ds[..n] || d == ds[n] { assert ds == ds[..n] + [ds[n]]; }
    }
  }

  lemma ChunkIsPointwise(s: Settings, e: Provider, d: Delivery)
    requires s.maxAttempts >= 1
    ensures EffectOf(s, e, false, d).chunk.Some? ==>
      var c := EffectOf(s, e, false, d).chunk.value; e(c.content) == Some(c.embedding)
  {
    hide AfterFailure;
  }

  /** Writes of the same chunks, in whatever order, leave the same table. */
  lemma SameChunksSameTable(e: Provider, t: Table, a: seq<Chunk>, b: seq<Chunk>)
    requires Pointwise(e, a) && Pointwise(e, b) && forall c :: c in a <==> c in b
    ensures PutAll(t, a) == PutAll(t, b)
  {
    PutAllIsBulk(t, a);
    var t' := PutAll(t, a);
    hide PutAll;
    forall k | k in t
      ensures if exists i :: Hits(t, b, k, i)
              then exists i :: Hits(t, b, k, i) && t'[k].embedding == Some(b[i].embedding)
              else t'[k] == t[k]
    {
      if i :| Hits(t, b, k, i) { var j := Find(b, a, i); assert Hits(t, a, k, j); }
      if exists i :: Hits(t, a, k, i) {
        var i :| Hits(t, a, k, i) && t'[k].embedding == Some(a[i].embedding);
        var j := Find(a, b, i);
        assert Hits(t, b, k, j);
      }
    }
    BulkIsPutAll(e, t, b, t');
  }

  ghost function Find<T>(a: seq<T>, b: seq<T>, i: nat): (j: nat)
    requires i < |a| && a[i] in b
    ensures j < |b| && b[j] == a[i]
  {
    var j :| 0 <= j < |b| && b[j] == a[i];
    j
  }

  lemma SameMembers<T>(a: seq<T>, b: seq<T>)
    requires multiset(a) == multiset(b)
    ensures forall x :: x in a <==> x in b
  {
    forall x ensures x in a <==> x in b {
      assert x in a <==> x in multiset(a);
      assert x in b <==> x in multiset(b);
    }
  }

  ghost function One<T>(o: Option<T>): multiset<T> {
    if o.Some? then multiset{o.value} else multiset{}
  }

  lemma SendsSnoc(s: Settings, e: Provider, ds: seq<Delivery>, d: Delivery)
    requires s.maxAttempts >= 1
    ensures multiset(Sends(s, e, ds + [d])) == multiset(Sends(s, e, ds)) + One(EffectOf(s, e, false, d).msg)
  {
    hide EffectOf;
    assert (ds + [d])[..|ds|] == ds;
  }

  lemma {:induction false} SendsWithout(s: Settings, e: Provider, ds: seq<Delivery>, j: nat)
    requires s.maxAttempts >= 1 && j < |ds|
    ensures multiset(Sends(s, e, ds)) == multiset(Sends(s, e, Without(ds, j))) + One(EffectOf(s, e, false, ds[j]).msg)
  {
    hide EffectOf;
    var n := |ds| - 1;
    if j == n {
      assert Without(ds, j) == ds[..n];
    } else {
      var rest := Without(ds, j);
      assert rest == Without(ds[..n], j) + [ds[n]];
      assert ds == ds[..n] + [ds[n]];
      SendsWithout(s, e, ds[..n], j);
      SendsSnoc(s, e, ds[..n], ds[n]);
      SendsSnoc(s, e, Without(ds[..n], j), ds[n]);
      hide Sends, Without;
    }
  }

  lemma WithoutCount(ds: seq<Delivery>, j: nat)
    requires j < |ds|
    ensures multiset(ds) == multiset(Without(ds, j)) + multiset{ds[j]}
  {
    assert ds == ds[..j] + ([ds[j]] + ds[j + 1..]);
  }

  lemma {:induction false} SameSends(s: Settings, e: Provider, a: seq<Delivery>, b: seq<Delivery>)
    requires s.maxAttempts >= 1 && multiset(a) == multiset(b)
    ensures multiset(Sends(s, e, a)) == multiset(Sends(s, e, b))
  {
    if a == [] {
      assert |multiset(b)| == 0;
    } else {
      hide EffectOf;
      SameMembers(a, b);
      var n := |a| - 1;
      var j := Find(a, b, n);
      assert a == a[..n] + [a[n]];
      WithoutCount(b, j);
      assert multiset(a[..n]) == multiset(a) - multiset{a[n]};
      assert multiset(Without(b, j)) == multiset(b) - multiset{b[j]};
      SameSends(s, e, a[..n], Without(b, j));
      SendsWithout(s, e, b, j);
      SendsWithout(s, e, a, n);
      assert Without(a, n) == a[..n];
    }
  }

  // Equal up to the order of the sent messages.
  ghost predicate SameButOrder(a: World, b: World) {
    a.live == b.live && a.staging == b.staging && a.settled == b.settled
      && multiset(a.published) == multiset(b.published)
  }

  lemma OnlyTheirs(s: Settings, e: Provider, w: World, ds: seq<Delivery>)
    requires s.maxAttempts >= 1
    ensures Effects(s, e, false, w, ds).settled.Keys == w.settled.Keys + Tags(ds)
    ensures forall t :: t in w.settled && t !in Tags(ds) ==> Effects(s, e, false, w, ds).settled[t] == w.settled[t]
  {
    EffectsByParts(s, e, w, ds);
    hide Effects, EffectOf, PutAll, Writes, Sends, Tags;
  }

  lemma SameTags(a: seq<Delivery>, b: seq<Delivery>)
    requires multiset(a) == multiset(b)
    ensures Tags(a) == Tags(b)
  {
    SameMembers(a, b);
    forall t ensures t in Tags(a) <==> t in Tags(b) {
      if i :| 0 <= i < |a| && a[i].tag == t { var j := Find(a, b, i); }
      if i :| 0 <= i < |b| && b[i].tag == t { var j := Find(b, a, i); }
    }
  }

  lemma SameSettled(s: Settings, e: Provider, w: World, a: seq<Delivery>, b: seq<Delivery>)
    requires s.maxAttempts >= 1 && DistinctTags(a) && DistinctTags(b) && multiset(a) == multiset(b)
    ensures Effects(s, e, false, w, a).settled == Effects(s, e, false, w, b).settled
  {
    SameMembers(a, b);
    OnlyTheirs(s, e, w, a);
    OnlyTheirs(s, e, w, b);
    SameTags(a, b);
    hide Effects, EffectOf;
    forall t | t in Tags(a) ensures Effects(s, e, false, w, a).settled[t] == Effects(s, e, false, w, b).settled[t] {
      var i :| 0 <= i < |a| && a[i].tag == t;
      SettledAt(s, e, false, w, a, i);
      SettledAt(s, e, false, w, b, Find(a, b, i));
    }
  }

  /** Handling the same deliveries in another order leaves the same tables and the same
      fates, and sends the same messages. */
  lemma OrderIsInvisible(s: Settings, e: Provider, w: World, a: seq<Delivery>, b: seq<Delivery>)
    requires s.maxAttempts >= 1 && DistinctTags(a) && DistinctTags(b) && multiset(a) == multiset(b)
    ensures SameButOrder(OneByOne(s, e, w, a), OneByOne(s, e, w, b))
  {
    OneByOneIsEffects(s, e, w, a);
    OneByOneIsEffects(s, e, w, b);
    SameMembers(a, b);
    EffectsByParts(s, e, w, a);
    EffectsByParts(s, e, w, b);
    SameSettled(s, e, w, a, b);
    SameSends(s, e, a, b);
    hide OneByOne, Effects, EffectOf, PutAll, Writes, Sends;
    forall staging ensures forall c :: c in Writes(s, e, a, staging) <==> c in Writes(s, e, b, staging) {
      WritesAre(s, e, a, staging);
      WritesAre(s, e, b, staging);
    }
    WritesAre(s, e, a, false);
    WritesAre(s, e, b, false);
    WritesAre(s, e, a, true);
    WritesAre(s, e, b, true);
    SameChunksSameTable(e, w.live, Writes(s, e, a, false), Writes(s, e, b, false));
    SameChunksSameTable(e, w.staging, Writes(s, e, a, true), Writes(s, e, b, true));
  }

  lemma SentIs(s: Settings, e: Provider, w: World, ds: seq<Delivery>)
    requires s.maxAttempts >= 1
    ensures multiset(Effects(s, e, false, w, ds).published) == multiset(w.published) + multiset(Sends(s, e, ds))
  {
    EffectsByParts(s, e, w, ds);
    hide Effects, PutAll, Writes, Sends, Tags;
  }

  // Beside the rejected delivery's own message, the same messages are sent.
  ghost predicate SendsBeside(a: World, b: World, own: Option<Msg>) {
    multiset(a.published) == multiset(b.published) + One(own)
  }

  lemma OthersSendTheSame(s: Settings, e: Provider, w: World, ds: seq<Delivery>, j: nat)
    requires s.maxAttempts >= 1 && j < |ds|
    ensures SendsBeside(Effects(s, e, false, w, ds), Effects(s, e, false, w, Without(ds, j)),
                        EffectOf(s, e, false, ds[j]).msg)
  {
    SentIs(s, e, w, ds);
    SentIs(s, e, w, Without(ds, j));
    SendsWithout(s, e, ds, j);
    hide Effects, EffectOf, Sends, Without;
  }

  lemma DifferentForAnother(a: World, b: World, tag: Tag, other: Tag)
    requires other != tag && other in a.settled && other in b.settled && a.settled[other] != b.settled[other]
    ensures !SameForOthers(a, b, tag)
  {
    assert other in a.settled - {tag} && (a.settled - {tag})[other] == a.settled[other];
    assert other in b.settled - {tag} && (b.settled - {tag})[other] == b.settled[other];
  }

  /** If the provider rejects one input of a batch, every other delivery ends exactly as
      it would in the batch without that input, messages and all, if and only if that
      smaller batch does not sink: a rejected input even saves a batch that would. */
  lemma BadInputIsIsolated(s: Settings, e: Provider, w: World, ds: seq<Delivery>, j: nat)
    requires s.maxAttempts >= 1 && DistinctTags(ds) && j < |ds|
    requires JobOf(s, ds[j]).Some? && e(JobOf(s, ds[j]).value.content) == None
    ensures SameForOthers(Batch(s, e, w, ds), Batch(s, e, w, Without(ds, j)), ds[j].tag)
            && SendsBeside(Batch(s, e, w, ds), Batch(s, e, w, Without(ds, j)), EffectOf(s, e, false, ds[j]).msg)
       <==> !Sinks(s, e, Without(ds, j))
  {
    var rest := Without(ds, j);
    assert !AllEmbed(s, e, ds);
    assert DistinctTags(rest);
    assert EffectOf(s, e, false, ds[j]).chunk == None;
    hide Effects, EffectOf, Sinks;
    BatchRefinesOneByOneIff(s, e, w, rest);
    OneByOneIsEffects(s, e, w, rest);
    RemoveOneEffect(s, e, w, ds, j);
    OthersSendTheSame(s, e, w, ds, j);
    if Sinks(s, e, rest) {
      var i := SinkingDiffers(s, e, w, rest);
      hide Batch, OneByOne, SameForOthers;
      SameElsewhere(OneByOne(s, e, w, rest), Batch(s, e, w, ds), ds[j].tag, rest[i].tag);
      DifferentForAnother(Batch(s, e, w, ds), Batch(s, e, w, rest), ds[j].tag, rest[i].tag);
    }
  }

  lemma SameElsewhere(a: World, b: World, tag: Tag, other: Tag)
    requires SameForOthers(b, a, tag) && other != tag && other in a.settled
    ensures other in b.settled && b.settled[other] == a.settled[other]
  {
    assert other in a.settled - {tag};
    assert other in b.settled - {tag};
    assert (a.settled - {tag})[other] == a.settled[other];
  }

  lemma {:induction false} OneByOneConcat(s: Settings, e: Provider, w: World, a: seq<Delivery>, b: seq<Delivery>)
    requires s.maxAttempts >= 1
    ensures OneByOne(s, e, w, a + b) == OneByOne(s, e, OneByOne(s, e, w, a), b)
  {
    hide HandleOne;
    if b == [] {
      assert a + b == a;
    } else {
      var n := |b| - 1;
      assert (a + b)[..|a + b| - 1] == a + b[..n] && (a + b)[|a + b| - 1] == b[n];
      OneByOneConcat(s, e, w, a, b[..n]);
    }
  }

  lemma {:induction false} DistinctCount(ds: seq<Delivery>, d: Delivery)
    requires DistinctTags(ds)
    ensures multiset(ds)[d] == if d in ds then 1 else 0
  {
    if ds != [] {
      var n := |ds| - 1;
      assert ds == ds[..n] + [ds[n]];
      DistinctCount(ds[..n], d);
    }
  }

  lemma SameDeliveries(a: seq<Delivery>, b: seq<Delivery>)
    requires DistinctTags(a) && DistinctTags(b) && Tags(a) == Tags(b)
    requires forall i :: 0 <= i < |a| ==> a[i] in b
    ensures multiset(a) == multiset(b)
  {
    forall d ensures multiset(a)[d] == multiset(b)[d] {
      DistinctCount(a, d);
      DistinctCount(b, d);
      if d in b {
        var j :| 0 <= j < |b| && b[j] == d;
        assert d.tag in Tags(a);
        var i :| 0 <= i < |a| && a[i].tag == d.tag;
        var k :| 0 <= k < |b| && b[k] == a[i];
        assert k == j;
      }
    }
  }
}
