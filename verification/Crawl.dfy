/** The crawl worker: the same broker discipline with one job per delivery and whole-row
    writes. Its codec's decode includes the checks only crawl jobs have. */
module Crawl {
  import opened Wrappers
  import opened Jobs
  import opened Corpus
  import opened Batching
  import opened BatchOrder
  import opened Evidence
  import opened Environment
  import opened Settlement
  import opened OrderFree
  import opened Rows
  import opened Worker
  import opened Consumer

  // Crawl jobs never target the staging table, and their index fits its column.
  ghost predicate CrawlCodec(c: Codec) {
    forall body :: c.decode(body).Some? ==>
      !c.decode(body).value.staging && c.decode(body).value.chunkIndex <= MAX_INT32
  }

  // One job handled when nothing fails outside it.
  function CrawlOne(s: Settings, e: Provider, w: World, d: Delivery): World
    requires s.maxAttempts >= 1
  {
    if !Knows(s, d.msg.version) then Settle(w, d.tag, Some(UnknownVersion)) else
      match Readable(s, d.msg.body)
      case None => Settle(w, d.tag, Some(Unreadable))
      case Some(job) =>
        match e(job.content)
        case None => Fail(s, w, d, job)
        case Some(vec) =>
          var chunk := ChunkOf(job, vec);
          if |vec| != EMBEDDING_DIM then Settle(w, d.tag, Some(BadShape))
          else if !Fits(chunk) then Fail(s, w, d, job)
          else Settle(w.(live := UpsertedWhole(w.live, chunk)), d.tag, Some(Stored(chunk)))
  }

  function CrawlAll(s: Settings, e: Provider, w: World, ds: seq<Delivery>): World
    requires s.maxAttempts >= 1
  {
    if ds == [] then w else CrawlOne(s, e, CrawlAll(s, e, w, ds[..|ds| - 1]), ds[|ds| - 1])
  }

  lemma CrawlSnoc(s: Settings, e: Provider, w: World, ds: seq<Delivery>, d: Delivery)
    requires s.maxAttempts >= 1
    ensures CrawlAll(s, e, w, ds + [d]) == CrawlOne(s, e, CrawlAll(s, e, w, ds), d)
  {
    assert (ds + [d])[..|ds|] == ds;
  }

  // The job names this row and its chunk can be written.
  predicate Owns(s: Settings, e: Provider, d: Delivery, k: Key) {
    Embeds(s, e, d) &&
    var job := TheJob(s, d);
    && job.chunkIndex < 0x8000_0000
    && job.source == k.source && job.externalId == k.externalId && job.chunkIndex == k.chunkIndex
  }

  predicate LastOwner(s: Settings, e: Provider, ds: seq<Delivery>, k: Key, i: int) {
    0 <= i < |ds| && Owns(s, e, ds[i], k) && forall j :: i < j < |ds| ==> !Owns(s, e, ds[j], k)
  }

  // A row some job owns is there, with the text and the vector of the last one; every
  // other row is as it was.
  ghost predicate Crawled(s: Settings, e: Provider, ds: seq<Delivery>, t: Table, t': Table) {
    && (forall i, k {:trigger LastOwner(s, e, ds, k, i)} :: LastOwner(s, e, ds, k, i) ==>
          k in t' && t'[k] == Row(TheJob(s, ds[i]).content, e(TheJob(s, ds[i]).content)))
    && (forall k {:trigger k in t'} :: (forall i :: 0 <= i < |ds| ==> !Owns(s, e, ds[i], k)) ==>
          (k in t' <==> k in t) && (k in t ==> t'[k] == t[k]))
  }

  ghost predicate CrawlLeaves(s: Settings, e: Provider, w: World, ds: seq<Delivery>, r: World) {
    Crawled(s, e, ds, w.live, r.live) && r.staging == w.staging && Handled(s, e, false, w, ds, r)
  }

  lemma CrawlOneIs(s: Settings, e: Provider, w: World, d: Delivery)
    requires s.maxAttempts >= 1
    ensures var r, fate := CrawlOne(s, e, w, d), Fate(s, e, false, d);
      && r.staging == w.staging && r.settled == w.settled[d.tag := fate]
      && r.published == w.published + (if fate.Some? && fate.value.Republished? then [fate.value.msg] else [])
      && r.live == if fate.Some? && fate.value.Stored? then UpsertedWhole(w.live, fate.value.chunk) else w.live
  {
    HeardIsJob(s, d);
    if Heard(s, d) {
      FailIsApply(s, w, d, TheJob(s, d));
      FailureFateIs(s, d);
      FailureNeverStores(s, d);
    }
    hide FailureFate, FailEffect, Fail, JobOf, Sane, UpsertedWhole;
  }

  lemma FailureNeverStores(s: Settings, d: Delivery)
    requires Heard(s, d)
    ensures FailureFate(s, d).Some? ==> !FailureFate(s, d).value.Stored?
  {
  }

  lemma StoredOwns(s: Settings, e: Provider, d: Delivery, t: Table, t': Table)
    requires var fate := Fate(s, e, false, d);
      t' == if fate.Some? && fate.value.Stored? then UpsertedWhole(t, fate.value.chunk) else t
    ensures Crawled(s, e, [d], t, t')
  {
    if Heard(s, d) { FailureNeverStores(s, d); }
    hide FailureFate, Sane;
    forall i, k | LastOwner(s, e, [d], k, i)
      ensures k in t' && t'[k] == Row(TheJob(s, d).content, e(TheJob(s, d).content))
    {
      assert Owns(s, e, [d][0], k);
    }
    forall k | forall i :: 0 <= i < 1 ==> !Owns(s, e, [d][i], k)
      ensures (k in t' <==> k in t) && (k in t ==> t'[k] == t[k])
    {
      assert !Owns(s, e, [d][0], k);
    }
  }

  lemma CrawlOneSaid(s: Settings, e: Provider, w: World, d: Delivery)
    requires s.maxAttempts >= 1
    ensures var r := CrawlOne(s, e, w, d);
      && r.staging == w.staging && Crawled(s, e, [d], w.live, r.live)
      && r.settled == w.settled[d.tag := Fate(s, e, false, d)]
      && r.published == w.published + Resent(s, e, false, [d])
  {
    hide CrawlOne, Fate, Crawled, UpsertedWhole;
    CrawlOneIs(s, e, w, d);
    StoredOwns(s, e, d, w.live, CrawlOne(s, e, w, d).live);
    assert [d][..0] == [];
  }

  lemma CrawledSnoc(s: Settings, e: Provider, ds: seq<Delivery>, d: Delivery, t: Table, m: Table, r: Table)
    requires Crawled(s, e, ds, t, m) && Crawled(s, e, [d], m, r)
    ensures Crawled(s, e, ds + [d], t, r)
  {
    hide Sane;
    var all := ds + [d];
    forall i, k | LastOwner(s, e, all, k, i)
      ensures k in r && r[k] == Row(TheJob(s, all[i]).content, e(TheJob(s, all[i]).content))
    {
      if i == |ds| {
        assert LastOwner(s, e, [d], k, 0);
      } else {
        forall j | i < j < |ds| ensures !Owns(s, e, ds[j], k) { assert all[j] == ds[j]; }
        assert LastOwner(s, e, ds, k, i);
        assert !Owns(s, e, all[|ds|], k);
        assert k in r;
      }
    }
    forall k | forall i :: 0 <= i < |all| ==> !Owns(s, e, all[i], k)
      ensures (k in r <==> k in t) && (k in t ==> r[k] == t[k])
    {
      forall i | 0 <= i < |ds| ensures !Owns(s, e, ds[i], k) { assert all[i] == ds[i]; }
      assert !Owns(s, e, all[|ds|], k);
      assert k in m <==> k in t;
    }
  }

  lemma ResentSnoc(s: Settings, e: Provider, sunk: bool, ds: seq<Delivery>, d: Delivery)
    ensures Resent(s, e, sunk, ds + [d]) == Resent(s, e, sunk, ds) + Resent(s, e, sunk, [d])
  {
    hide Fate;
    assert (ds + [d])[..|ds|] == ds && [d][..0] == [];
  }

  lemma HandledSnoc(s: Settings, e: Provider, w: World, ds: seq<Delivery>, d: Delivery, m: World, r: World)
    requires Handled(s, e, false, w, ds, m) && d.tag !in Tags(ds)
    requires r.settled == m.settled[d.tag := Fate(s, e, false, d)]
    requires r.published == m.published + Resent(s, e, false, [d])
    ensures Handled(s, e, false, w, ds + [d], r)
  {
    hide Fate, Resent;
    TagsAppend(ds, d);
    ResentSnoc(s, e, false, ds, d);
    forall i | 0 <= i < |ds| ensures ds[i].tag in Tags(ds) {}
    hide Tags;
    forall t | t in w.settled && t !in Tags(ds + [d]) ensures r.settled[t] == w.settled[t] {
      assert t in m.settled.Keys;
    }
  }

  /** Crawl jobs handled one after the other with nothing failing outside them: a row some
      stored job names holds the text and the vector of the last such job, every other row
      is untouched, and each delivery has the fate its fields say. */
  lemma {:induction false} CrawlSaid(s: Settings, e: Provider, w: World, ds: seq<Delivery>)
    requires s.maxAttempts >= 1 && DistinctTags(ds)
    ensures CrawlLeaves(s, e, w, ds, CrawlAll(s, e, w, ds))
  {
    if ds != [] {
      hide CrawlOne, Crawled, Handled, Tags;
      var n := |ds| - 1;
      var m := CrawlAll(s, e, w, ds[..n]);
      assert ds == ds[..n] + [ds[n]];
      CrawlSaid(s, e, w, ds[..n]);
      CrawlOneSaid(s, e, m, ds[n]);
      CrawledSnoc(s, e, ds[..n], ds[n], w.live, m.live, CrawlAll(s, e, w, ds).live);
      NotAmongThem(ds);
      HandledSnoc(s, e, w, ds[..n], ds[n], m, CrawlAll(s, e, w, ds));
    } else {
      assert Tags(ds) == {};
    }
  }

  lemma CrawlAloneSaid(s: Settings, e: Provider, w: World, d: Delivery)
    requires s.maxAttempts >= 1
    ensures CrawlLeaves(s, e, w, [d], CrawlOne(s, e, w, d))
  {
    hide CrawlOne, CrawlLeaves;
    CrawlSnoc(s, e, w, [], d);
    assert [] + [d] == [d];
    CrawlSaid(s, e, w, [d]);
  }

  lemma NotAmongThem(ds: seq<Delivery>)
    requires ds != [] && DistinctTags(ds)
    ensures ds[|ds| - 1].tag !in Tags(ds[..|ds| - 1])
  {
  }

  lemma FailIsApply(s: Settings, w: World, d: Delivery, job: Job)
    requires s.maxAttempts >= 1 && Valid(job)
    ensures Fail(s, w, d, job) == Apply(w, d.tag, FailEffect(s, d, job))
  {
    hide AfterFailure;
  }

  class Crawler {
    const worker: Worker
    const env: Env
    const concurrency: nat

    // Deliveries taken by a handler and not yet finished.
    var inflight: seq<Delivery>
    ghost var done: seq<Delivery>

    constructor (worker: Worker, concurrency: int)
      requires worker.env.Valid() && CrawlCodec(worker.env.s.codec)
      ensures this.worker == worker && env == worker.env && Shape() && inflight == [] && done == []
      ensures this.concurrency == if concurrency < 1 then 1 else concurrency
    {
      this.worker, env, this.concurrency := worker, worker.env, if concurrency < 1 then 1 else concurrency;
      inflight, done := [], [];
    }

    ghost predicate Shape() reads this, env {
      worker.env == env && env.Valid() && CrawlCodec(env.s.codec) && concurrency >= 1 && |inflight| <= concurrency
    }

    // Everything handed to a handler is settled or in flight, and with nothing failing
    // the world is what the settled ones leave one after the other.
    ghost predicate Tracks(l0: Ledger, w0: World, handed: seq<Delivery>) reads this, env {
      && Shape() && DistinctTags(handed) && Tags(handed) <= l0.held
      && Accounted(env.s, l0, env.ledger, handed, done, inflight)
      && (env.calm ==> env.W() == CrawlAll(env.s, env.provider, w0, done))
    }

    /** Embeds and upserts one delivery's chunk and settles the delivery. */
    method Handle(d: Delivery)
      requires worker.env == env && env.Valid() && CrawlCodec(env.s.codec) && d.tag in env.ledger.held
      modifies env
      ensures env.Valid() && (old(env.cancelled) ==> env.cancelled)
      ensures Settles(old(env.ledger), env.ledger, {d.tag}) && Fated(env.s, env.ledger, d)
      ensures env.calm ==> env.W() == CrawlOne(env.s, env.provider, old(env.W()), d)
      ensures env.calm ==> CrawlLeaves(env.s, env.provider, old(env.W()), [d], env.W())
    {
      hide Settles, AfterFailure, Fated, Fail, FailEffect, Apply, CrawlLeaves;
      CrawlAloneSaid(env.s, env.provider, env.W(), d);
      if !Knows(env.s, d.msg.version) {
        worker.Drop(d, UnknownVersion);
      } else {
        var job := Readable(env.s, d.msg.body);
        if job == None { worker.Drop(d, Unreadable); } else { Process(d, job.value); }
      }
    }

    method Process(d: Delivery, job: Job)
      requires worker.env == env && env.Valid() && CrawlCodec(env.s.codec) && d.tag in env.ledger.held
      requires JobOf(env.s, d) == Some(job)
      modifies env
      ensures env.Valid() && (old(env.cancelled) ==> env.cancelled)
      ensures Settles(old(env.ledger), env.ledger, {d.tag}) && Fated(env.s, env.ledger, d)
      ensures env.calm ==> env.W() == CrawlOne(env.s, env.provider, old(env.W()), d)
    {
      hide Settles, AfterFailure, Fated, Fail, FailEffect, Apply, Grows;
      ghost var l := env.ledger;
      OneTag(d);
      FailIsApply(env.s, env.W(), d, job);
      var r := env.EmbedDocuments([job.content], [d]);
      ghost var m := env.ledger;
      EmbedSettlesNothing(env.s, l, m, [d], r);
      if r.None? {
        worker.FailOne(d);
      } else if |r.value| != 1 || |r.value[0]| != EMBEDDING_DIM {
        OneMisfit(env.s, l.evidence, d, r.value);
        worker.Drop(d, BadShape);
      } else {
        OneGiven(env.s, l.evidence, d, r.value);
        Upsert(d, job, ChunkOf(job, r.value[0]));
      }
      SettlesAfter(l, m, env.ledger, {d.tag});
    }

    method Upsert(d: Delivery, job: Job, chunk: Chunk)
      requires worker.env == env && env.Valid() && CrawlCodec(env.s.codec) && d.tag in env.ledger.held
      requires JobOf(env.s, d) == Some(job) && BackedOne(env.s, env.ledger.evidence, d, chunk)
      modifies env
      ensures env.Valid() && (old(env.cancelled) ==> env.cancelled)
      ensures Settles(old(env.ledger), env.ledger, {d.tag}) && Fated(env.s, env.ledger, d)
      ensures env.calm ==>
        var stored := old(env.W()).(live := UpsertedWhole(old(env.live), chunk));
        env.W() == if Fits(chunk) then Settle(stored, d.tag, Some(Stored(chunk)))
                   else Fail(env.s, old(env.W()), d, job)
    {
      hide Settles, AfterFailure, Fated, Fail, FailEffect, Apply, Grows;
      ghost var l := env.ledger;
      FailIsApply(env.s, env.W(), d, job);
      var ok := env.UpsertChunk(chunk, d);
      ghost var m := env.ledger;
      WriteSettlesNothing(l, m, {d.tag}, [chunk], ok);
      if !ok {
        worker.FailOne(d);
      } else {
        assert chunk in Members([chunk]);
        worker.Drop(d, Stored(chunk));
      }
      SettlesAfter(l, m, env.ledger, {d.tag});
    }

    /** One handler runs to its end. */
    method FinishOne(ghost l0: Ledger, ghost w0: World, ghost handed: seq<Delivery>)
      requires Tracks(l0, w0, handed) && inflight != []
      modifies env, this
      ensures Tracks(l0, w0, handed) && |inflight| == |old(inflight)| - 1
      ensures old(env.cancelled) ==> env.cancelled
    {
      hide Settles, Explained, Partition, Tags, DistinctTags, Sound, Fated, CrawlOne, CrawlAll;
      var pick: nat := *;
      var i := pick % |inflight|;
      var d := inflight[i];
      ghost var x, y, l := inflight[..i], inflight[i + 1..], env.ledger;
      assert inflight == x + [d] + y;
      PendingIsHeld(env.s, l0, l, handed, done, x, [d], y);
      OneTag(d);
      CrawlSnoc(env.s, env.provider, w0, done, d);
      Handle(d);
      OneExplained(env.s, env.ledger, d);
      BlockDone(env.s, l0, l, env.ledger, handed, done, x, [d], y);
      inflight, done := inflight[..i] + inflight[i + 1..], done + [d];
    }

    /** Waits for a slot; false only if a shutdown cut the wait short. */
    method WaitForSlot(ghost l0: Ledger, ghost w0: World, ghost handed: seq<Delivery>) returns (slot: bool)
      requires Tracks(l0, w0, handed)
      modifies env, this
      ensures Tracks(l0, w0, handed)
      ensures if slot then |inflight| < concurrency else env.cancelled
      ensures old(env.cancelled) ==> env.cancelled
    {
      hide Accounted, Settles, Explained, Partition, Tags, DistinctTags, Sound, CrawlAll;
      while true
        invariant Tracks(l0, w0, handed)
        invariant old(env.cancelled) ==> env.cancelled
        decreases |inflight|
      {
        ghost var l := env.ledger;
        var cancelled := env.Err();
        AliveSettlesNothing(l, env.ledger);
        NothingSettled(l, env.ledger);
        NothingBack(l);
        SeenMore(env.s, l0, l, env.ledger, handed, done, inflight, []);
        var slotFirst: bool := *;
        if |inflight| < concurrency && (slotFirst || !cancelled) { return true; }
        if cancelled { return false; }
        FinishOne(l0, w0, handed);
      }
    }

    lemma NothingBack(l: Ledger)
      ensures GoneBack(l, done, [])
    {
    }

    /** Hands each delivery to a handler as a slot comes free. A shutdown while waiting
        for one leaves the delivery just received unsettled, for the closing channel to
        requeue; every other received delivery is settled by exactly one call, with an
        earned outcome or for a stated cause. With nothing failing the world is the
        deliveries' effects one after the other, in the order the handlers finish. */
    method Run(stream: seq<Delivery>) returns (n: nat, left: Option<Delivery>)
      requires Shape() && inflight == [] && done == []
      requires DistinctTags(stream) && Tags(stream) <= env.ledger.held
      modifies this, env
      ensures n <= |stream| && Settles(old(env.ledger), env.ledger, Tags(stream[..n]))
      ensures Explained(env.s, env.ledger, stream[..n]) && NacksCaused(env.ledger, env.cancelled, stream[..n])
      ensures left.None? ==> n == |stream|
      ensures left.Some? ==>
        env.cancelled && n < |stream| && left.value == stream[n] && stream[n].tag in env.ledger.held
      ensures multiset(done) == multiset(stream[..n])
      ensures env.calm ==> left.None? && env.W() == CrawlAll(env.s, env.provider, old(env.W()), done)
      ensures env.calm ==> CrawlLeaves(env.s, env.provider, old(env.W()), done, env.W())
    {
      hide Settles, Explained, Partition, Tags, DistinctTags, Sound, CrawlAll, Accounted, CrawlLeaves;
      ghost var l0, w0 := env.ledger, env.W();
      StartRun(l0, w0);
      n, left := 0, None;
      while n < |stream|
        invariant n <= |stream| && Tracks(l0, w0, stream[..n]) && left == None
      {
        var slot := WaitForSlot(l0, w0, stream[..n]);
        if !slot {
          left := Some(stream[n]);
          break;
        }
        HandedSnoc(env.s, l0, env.ledger, stream, n, done, inflight);
        inflight := inflight + [stream[n]];
        n := n + 1;
      }
      while inflight != []
        invariant n <= |stream| && Tracks(l0, w0, stream[..n])
        invariant left.None? ==> n == |stream|
        invariant left.Some? ==> env.cancelled && n < |stream| && left.value == stream[n]
        decreases |inflight|
      {
        FinishOne(l0, w0, stream[..n]);
      }
      AllDone(env.s, l0, env.ledger, stream[..n], done);
      NacksHaveCause(env.s, env.ledger, env.cancelled, stream[..n]);
      AllReceivedDone(env.s, l0, env.ledger, stream[..n], done);
      CrawlSaid(env.s, env.provider, w0, done);
      if n < |stream| { StillHeld(l0, env.ledger, stream, n); }
    }

    lemma StartRun(l0: Ledger, w0: World)
      requires Shape() && inflight == [] && done == [] && l0 == env.ledger && w0 == env.W()
      ensures Tracks(l0, w0, [])
    {
      NothingReceived(env.s, l0);
      hide Settles, Explained, Partition, Tags, Sound;
    }
  }

  lemma OneExplained(s: Settings, l: Ledger, d: Delivery)
    requires Fated(s, l, d)
    ensures Explained(s, l, [d])
  {
  }

  lemma AllReceivedDone(s: Settings, l0: Ledger, l: Ledger, received: seq<Delivery>, done: seq<Delivery>)
    requires Accounted(s, l0, l, received, done, []) && DistinctTags(received)
    ensures multiset(done) == multiset(received) && DistinctTags(done)
  {
    DoneIsReceived(received, done);
  }

  lemma HandedSnoc(s: Settings, l0: Ledger, l: Ledger, stream: seq<Delivery>, n: nat, done: seq<Delivery>,
                   pending: seq<Delivery>)
    requires n < |stream| && DistinctTags(stream) && Tags(stream) <= l0.held
      && Accounted(s, l0, l, stream[..n], done, pending)
    ensures Accounted(s, l0, l, stream[..n + 1], done, pending + [stream[n]])
    ensures DistinctTags(stream[..n + 1]) && Tags(stream[..n + 1]) <= l0.held
  {
    hide Tags, DistinctTags, Partition, Settles, Explained;
    assert stream[..n + 1] == stream[..n] + [stream[n]];
    PrefixTags(stream, n + 1);
    PartitionSnoc(stream, n, done, pending);
  }

  lemma StillHeld(l0: Ledger, l: Ledger, stream: seq<Delivery>, n: nat)
    requires n < |stream| && DistinctTags(stream) && Tags(stream) <= l0.held && Settles(l0, l, Tags(stream[..n]))
    ensures stream[n].tag in l.held
  {
    NextIsHeld(l0, l, stream[..n], stream, n);
  }
}
