/** What a batch of deliveries does to the world, one delivery at a time and as a
    batch, when nothing outside fails: no shutdown, a provider whose answer depends
    only on the text, and a database that only refuses an out-of-range index. */
module Batching {
  import opened Wrappers
  import opened Jobs
  import opened Corpus

  type Tag = nat
  type Provider = string -> Option<Embedding>

  datatype Msg = Msg(body: string, priority: nat, version: string)

  datatype Delivery = Delivery(tag: Tag, msg: Msg)

  // Why a delivery may be acknowledged.
  datatype Outcome = UnknownVersion | Unreadable | BadShape | Stored(chunk: Chunk)
                   | BudgetSpent | NotEncodable | Republished(msg: Msg)

  // Settled with an outcome is an Ack; with None it was returned to the broker.
  datatype World = World(live: Table, staging: Table, published: seq<Msg>, settled: map<Tag, Option<Outcome>>)

  function ChunkOf(job: Job, vec: Embedding): Chunk {
    Chunk(job.staging, Key(job.source, job.externalId, job.chunkIndex), job.content, vec)
  }

  // The chunk belongs to the row, the text and the table the job names.
  predicate IsFor(c: Chunk, job: Job) {
    && c.key.source == job.source && c.key.externalId == job.externalId && c.key.chunkIndex == job.chunkIndex
    && c.content == job.content && c.staging == job.staging
  }

  // ---------- One by one ----------

  function Settle(w: World, tag: Tag, o: Option<Outcome>): World {
    w.(settled := w.settled[tag := o])
  }

  function Write(w: World, c: Chunk): World {
    if c.staging then w.(staging := Put(w.staging, c)) else w.(live := Put(w.live, c))
  }

  // A counted failure, decided and applied to the delivery.
  function Fail(s: Settings, w: World, d: Delivery, job: Job): World
    requires s.maxAttempts >= 1 && Valid(job)
  {
    match AfterFailure(s, job)
    case GiveUp => Settle(w, d.tag, Some(BudgetSpent))
    case CannotEncode => Settle(w, d.tag, Some(NotEncodable))
    case Republish(body) =>
      if d.msg.priority > s.maxPriority then Settle(w, d.tag, None) else
        var msg := Msg(body, d.msg.priority, s.version);
        Settle(w.(published := w.published + [msg]), d.tag, Some(Republished(msg)))
  }

  function EmbedAndWrite(s: Settings, e: Provider, w: World, d: Delivery, job: Job): World
    requires s.maxAttempts >= 1 && Valid(job)
  {
    match e(job.content)
    case None => Fail(s, w, d, job)
    case Some(vec) =>
      var chunk := ChunkOf(job, vec);
      if |vec| != EMBEDDING_DIM then Settle(w, d.tag, Some(BadShape))
      else if !Fits(chunk) then Fail(s, w, d, job)
      else Settle(Write(w, chunk), d.tag, Some(Stored(chunk)))
  }

  function HandleOne(s: Settings, e: Provider, w: World, d: Delivery): World
    requires s.maxAttempts >= 1
  {
    if !Knows(s, d.msg.version) then Settle(w, d.tag, Some(UnknownVersion)) else
      match Readable(s, d.msg.body)
      case None => Settle(w, d.tag, Some(Unreadable))
      case Some(job) => EmbedAndWrite(s, e, w, d, job)
  }

  function OneByOne(s: Settings, e: Provider, w: World, ds: seq<Delivery>): World
    requires s.maxAttempts >= 1
  {
    if ds == [] then w else HandleOne(s, e, OneByOne(s, e, w, ds[..|ds| - 1]), ds[|ds| - 1])
  }

  // ---------- Effects of single deliveries ----------

  // What one delivery adds: a chunk write, a message, and its settlement.
  datatype Effect = Effect(chunk: Option<Chunk>, msg: Option<Msg>, outcome: Option<Outcome>)

  function FailEffect(s: Settings, d: Delivery, job: Job): Effect
    requires s.maxAttempts >= 1 && Valid(job)
  {
    match AfterFailure(s, job)
    case GiveUp => Effect(None, None, Some(BudgetSpent))
    case CannotEncode => Effect(None, None, Some(NotEncodable))
    case Republish(body) =>
      if d.msg.priority > s.maxPriority then Effect(None, None, None) else
        var msg := Msg(body, d.msg.priority, s.version);
        Effect(None, Some(msg), Some(Republished(msg)))
  }

  function JobOf(s: Settings, d: Delivery): Option<Job> {
    if Knows(s, d.msg.version) then Readable(s, d.msg.body) else None
  }

  // The chunk a delivery wants written, if the provider answers it with a good vector.
  function Wanted(s: Settings, e: Provider, d: Delivery): Option<Chunk> {
    match JobOf(s, d)
    case None => None
    case Some(job) =>
      match e(job.content)
      case Some(vec) => if |vec| == EMBEDDING_DIM then Some(ChunkOf(job, vec)) else None
      case None => None
  }

  // `sunk` says the batch's write failed.
  function EffectOf(s: Settings, e: Provider, sunk: bool, d: Delivery): Effect
    requires s.maxAttempts >= 1
  {
    match JobOf(s, d)
    case None => Effect(None, None, Some(if Knows(s, d.msg.version) then Unreadable else UnknownVersion))
    case Some(job) =>
      match e(job.content)
      case None => FailEffect(s, d, job)
      case Some(vec) =>
        var chunk := ChunkOf(job, vec);
        if |vec| != EMBEDDING_DIM then Effect(None, None, Some(BadShape))
        else if sunk || !Fits(chunk) then FailEffect(s, d, job)
        else Effect(Some(chunk), None, Some(Stored(chunk)))
  }

  function Apply(w: World, tag: Tag, f: Effect): World {
    var written := if f.chunk.Some? then Write(w, f.chunk.value) else w;
    var sent := if f.msg.Some? then written.(published := written.published + [f.msg.value]) else written;
    Settle(sent, tag, f.outcome)
  }

  function Effects(s: Settings, e: Provider, sunk: bool, w: World, ds: seq<Delivery>): World
    requires s.maxAttempts >= 1
  {
    if ds == [] then w else
      var d := ds[|ds| - 1];
      Apply(Effects(s, e, sunk, w, ds[..|ds| - 1]), d.tag, EffectOf(s, e, sunk, d))
  }

  /** Handled one by one, no delivery influences another's effect. */
  lemma {:induction false} OneByOneIsEffects(s: Settings, e: Provider, w: World, ds: seq<Delivery>)
    requires s.maxAttempts >= 1
    ensures OneByOne(s, e, w, ds) == Effects(s, e, false, w, ds)
  {
    hide HandleOne, Apply, EffectOf;
    if ds != [] {
      var n := |ds| - 1;
      OneByOneIsEffects(s, e, w, ds[..n]);
      HandleIsApply(s, e, OneByOne(s, e, w, ds[..n]), ds[n]);
    }
  }

  lemma HandleIsApply(s: Settings, e: Provider, w: World, d: Delivery)
    requires s.maxAttempts >= 1
    ensures HandleOne(s, e, w, d) == Apply(w, d.tag, EffectOf(s, e, false, d))
  {
    hide AfterFailure;
  }

  // ---------- The batch ----------

  predicate AllEmbed(s: Settings, e: Provider, ds: seq<Delivery>) {
    forall i :: 0 <= i < |ds| && JobOf(s, ds[i]).Some? ==> e(JobOf(s, ds[i]).value.content).Some?
  }

  // Some wanted chunk of the given table has an index its column cannot hold.
  predicate Overflows(s: Settings, e: Provider, ds: seq<Delivery>, staging: bool) {
    exists i :: 0 <= i < |ds| && Wanted(s, e, ds[i]).Some? && Wanted(s, e, ds[i]).value.staging == staging
             && !Fits(Wanted(s, e, ds[i]).value)
  }

  function WantedChunks(s: Settings, e: Provider, ds: seq<Delivery>, staging: bool): seq<Chunk> {
    if ds == [] then [] else
      var before := WantedChunks(s, e, ds[..|ds| - 1], staging);
      match Wanted(s, e, ds[|ds| - 1])
      case Some(c) => if c.staging == staging then before + [c] else before
      case None => before
  }

  predicate WriteFails(s: Settings, e: Provider, ds: seq<Delivery>) {
    AllEmbed(s, e, ds) && (Overflows(s, e, ds, false) || Overflows(s, e, ds, true))
  }

  /** The world after a batch. Its live half is written before the staging half, so a
      failure of the latter leaves the former written. */
  function Batch(s: Settings, e: Provider, w: World, ds: seq<Delivery>): World
    requires s.maxAttempts >= 1
  {
    if !WriteFails(s, e, ds) then Effects(s, e, false, w, ds) else
      var live := if Overflows(s, e, ds, false) then w.live else PutAll(w.live, WantedChunks(s, e, ds, false));
      Effects(s, e, true, w, ds).(live := live)
  }

  predicate DistinctTags(ds: seq<Delivery>) {
    forall i, j :: 0 <= i < j < |ds| ==> ds[i].tag != ds[j].tag
  }

  // ---------- When batching refines one-by-one processing ----------

  predicate WantsFitting(s: Settings, e: Provider, d: Delivery) {
    Wanted(s, e, d).Some? && Fits(Wanted(s, e, d).value)
  }

  predicate WantsOverflowing(s: Settings, e: Provider, d: Delivery) {
    Wanted(s, e, d).Some? && !Fits(Wanted(s, e, d).value)
  }

  // Every text embeds, and an out-of-range index travels with a chunk that would fit.
  predicate Sinks(s: Settings, e: Provider, ds: seq<Delivery>) {
    && AllEmbed(s, e, ds)
    && (exists i :: 0 <= i < |ds| && WantsFitting(s, e, ds[i]))
    && (exists j :: 0 <= j < |ds| && WantsOverflowing(s, e, ds[j]))
  }

  lemma {:induction false} SettledAt(s: Settings, e: Provider, sunk: bool, w: World, ds: seq<Delivery>, i: nat)
    requires s.maxAttempts >= 1 && DistinctTags(ds) && i < |ds|
    ensures ds[i].tag in Effects(s, e, sunk, w, ds).settled
    ensures Effects(s, e, sunk, w, ds).settled[ds[i].tag] == EffectOf(s, e, sunk, ds[i]).outcome
  {
    var n := |ds| - 1;
    if i < n {
      assert DistinctTags(ds[..n]);
      SettledAt(s, e, sunk, w, ds[..n], i);
      assert ds[i].tag != ds[n].tag;
    }
  }

  lemma UnfitEffect(s: Settings, e: Provider, d: Delivery)
    requires s.maxAttempts >= 1 && !WantsFitting(s, e, d)
    ensures EffectOf(s, e, true, d) == EffectOf(s, e, false, d)
    ensures EffectOf(s, e, true, d).chunk == None
  {
    hide AfterFailure;
  }

  lemma {:induction false} NoFittingNoDifference(s: Settings, e: Provider, w: World, ds: seq<Delivery>)
    requires s.maxAttempts >= 1
    requires forall i :: 0 <= i < |ds| ==> !WantsFitting(s, e, ds[i])
    ensures Effects(s, e, true, w, ds) == Effects(s, e, false, w, ds)
    ensures Effects(s, e, true, w, ds).live == w.live
  {
    hide EffectOf, WantsFitting;
    if ds != [] {
      var n := |ds| - 1;
      forall i | 0 <= i < n ensures !WantsFitting(s, e, ds[..n][i]) { assert ds[..n][i] == ds[i]; }
      NoFittingNoDifference(s, e, w, ds[..n]);
      UnfitEffect(s, e, ds[n]);
    }
  }

  lemma {:induction false} NoWantedChunks(s: Settings, e: Provider, ds: seq<Delivery>, staging: bool)
    requires !Overflows(s, e, ds, staging)
    requires forall i :: 0 <= i < |ds| ==> !WantsFitting(s, e, ds[i])
    ensures WantedChunks(s, e, ds, staging) == []
  {
    if ds != [] {
      var n := |ds| - 1;
      forall i | 0 <= i < n ensures ds[..n][i] == ds[i] {}
      NoWantedChunks(s, e, ds[..n], staging);
      assert !WantsFitting(s, e, ds[n]);
    }
  }

  /** A batch leaves tables, messages and outcomes exactly as one-by-one processing
      would, unless an out-of-range chunk index sinks the write of its batch-mates. */
  lemma BatchRefinesOneByOneIff(s: Settings, e: Provider, w: World, ds: seq<Delivery>)
    requires s.maxAttempts >= 1 && DistinctTags(ds)
    ensures Batch(s, e, w, ds) == OneByOne(s, e, w, ds) <==> !Sinks(s, e, ds)
  {
    OneByOneIsEffects(s, e, w, ds);
    if Sinks(s, e, ds) {
      var i := SinkingDiffers(s, e, w, ds);
    } else if WriteFails(s, e, ds) {
      assert exists j :: 0 <= j < |ds| && WantsOverflowing(s, e, ds[j]);
      NoFittingNoDifference(s, e, w, ds);
      if !Overflows(s, e, ds, false) { NoWantedChunks(s, e, ds, false); }
    }
  }

  lemma SunkLosesItsStore(s: Settings, e: Provider, d: Delivery)
    requires s.maxAttempts >= 1 && WantsFitting(s, e, d)
    ensures EffectOf(s, e, true, d).outcome != EffectOf(s, e, false, d).outcome
  {
    hide AfterFailure;
  }

  // One that would fit ends otherwise than on its own.
  lemma SinkingDiffers(s: Settings, e: Provider, w: World, ds: seq<Delivery>) returns (i: nat)
    requires s.maxAttempts >= 1 && DistinctTags(ds) && Sinks(s, e, ds)
    ensures i < |ds| && ds[i].tag in Batch(s, e, w, ds).settled && ds[i].tag in OneByOne(s, e, w, ds).settled
    ensures Batch(s, e, w, ds).settled[ds[i].tag] != OneByOne(s, e, w, ds).settled[ds[i].tag]
  {
    hide Effects, EffectOf;
    OneByOneIsEffects(s, e, w, ds);
    i :| 0 <= i < |ds| && WantsFitting(s, e, ds[i]);
    var j :| 0 <= j < |ds| && WantsOverflowing(s, e, ds[j]);
    assert Overflows(s, e, ds, Wanted(s, e, ds[j]).value.staging);
    SettledAt(s, e, true, w, ds, i);
    SettledAt(s, e, false, w, ds, i);
    SunkLosesItsStore(s, e, ds[i]);
  }

  /** Nothing sinks when every chunk index fits its column, the check the crawl jobs make. */
  lemma {:induction false} InRangeIndicesRefine(s: Settings, e: Provider, w: World, ds: seq<Delivery>)
    requires s.maxAttempts >= 1 && DistinctTags(ds)
    requires forall i :: 0 <= i < |ds| && JobOf(s, ds[i]).Some? ==> JobOf(s, ds[i]).value.chunkIndex <= MAX_INT32
    ensures Batch(s, e, w, ds) == OneByOne(s, e, w, ds)
  {
    BatchRefinesOneByOneIff(s, e, w, ds);
  }

  // ---------- A bad input is isolated ----------

  function Without(ds: seq<Delivery>, j: nat): seq<Delivery>
    requires j < |ds|
  {
    ds[..j] + ds[j + 1..]
  }

  // The worlds agree on both tables and on every other delivery's fate.
  ghost predicate SameForOthers(a: World, b: World, tag: Tag) {
    a.live == b.live && a.staging == b.staging && a.settled - {tag} == b.settled - {tag}
  }

  lemma PutElsewhere<T>(m: map<Tag, T>, m': map<Tag, T>, tag: Tag, other: Tag, v: T)
    requires m - {tag} == m' - {tag} && other != tag
    ensures m[other := v] - {tag} == m'[other := v] - {tag}
  {
    assert m[other := v] - {tag} == (m - {tag})[other := v];
    assert m'[other := v] - {tag} == (m' - {tag})[other := v];
  }

  lemma ApplyKeepsSame(a: World, b: World, tag: Tag, other: Tag, f: Effect)
    requires SameForOthers(a, b, tag) && other != tag
    ensures SameForOthers(Apply(a, other, f), Apply(b, other, f), tag)
  {
    PutElsewhere(a.settled, b.settled, tag, other, f.outcome);
    hide Put;
  }

  lemma ApplyOnlySettles(w: World, tag: Tag, f: Effect)
    requires f.chunk == None
    ensures SameForOthers(Apply(w, tag, f), w, tag)
  {
    assert w.settled[tag := f.outcome] - {tag} == w.settled - {tag};
  }

  lemma {:induction false} RemoveOneEffect(s: Settings, e: Provider, w: World, ds: seq<Delivery>, j: nat)
    requires s.maxAttempts >= 1 && DistinctTags(ds) && j < |ds| && EffectOf(s, e, false, ds[j]).chunk == None
    ensures SameForOthers(Effects(s, e, false, w, ds), Effects(s, e, false, w, Without(ds, j)), ds[j].tag)
  {
    hide EffectOf, Apply, SameForOthers;
    var n := |ds| - 1;
    if j == n {
      assert Without(ds, j) == ds[..n];
      ApplyOnlySettles(Effects(s, e, false, w, ds[..n]), ds[n].tag, EffectOf(s, e, false, ds[n]));
    } else {
      var rest := Without(ds, j);
      assert rest[..|rest| - 1] == Without(ds[..n], j);
      assert rest[|rest| - 1] == ds[n] && ds[..n][j] == ds[j];
      RemoveOneEffect(s, e, w, ds[..n], j);
      ApplyKeepsSame(Effects(s, e, false, w, ds[..n]), Effects(s, e, false, w, Without(ds[..n], j)),
                     ds[j].tag, ds[n].tag, EffectOf(s, e, false, ds[n]));
    }
  }

  // ---------- A concrete batch that sinks ----------

  /** Two valid jobs, the second with chunk index 2^31: one by one the first is stored,
      but as a batch it is dropped with its budget spent and its row gets no vector. */
  lemma OversizedIndexSinksItsNeighbour(s: Settings, vec: Embedding, d1: Delivery, d2: Delivery)
    requires s.maxAttempts == 1 && s.known == None && |vec| == EMBEDDING_DIM && d1.tag != d2.tag
    requires s.codec.decode(d1.msg.body) == Some(Job("wiki", "1", 0, "text", 0, false))
    requires s.codec.decode(d2.msg.body) == Some(Job("wiki", "2", 0x8000_0000, "text", 0, false))
    ensures
      var key := Key("wiki", "1", 0);
      var w := World(map[key := Row("text", None)], map[], [], map[]);
      var e: Provider := _ => Some(vec);
      var single, batch := OneByOne(s, e, w, [d1, d2]), Batch(s, e, w, [d1, d2]);
      && key in single.live && single.live[key].embedding == Some(vec)
      && key in batch.live && batch.live[key].embedding == None
      && d1.tag in batch.settled && batch.settled[d1.tag] == Some(BudgetSpent)
  {
    var ds := [d1, d2];
    var w := World(map[Key("wiki", "1", 0) := Row("text", None)], map[], [], map[]);
    var e: Provider := _ => Some(vec);
    assert ds[..1] == [d1] && [d1][..0] == [];
    assert OneByOne(s, e, w, [d1]) == HandleOne(s, e, OneByOne(s, e, w, []), d1);
    assert OneByOne(s, e, w, ds) == HandleOne(s, e, HandleOne(s, e, w, d1), d2);
    assert WantsOverflowing(s, e, ds[1]);
    assert Overflows(s, e, ds, false);
    assert AllEmbed(s, e, ds);
    SettledAt(s, e, true, w, ds, 0);
  }
}
