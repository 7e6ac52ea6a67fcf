/** What has happened to a delivery outside its worker: the answers the provider gave,
    the failures that count, the writes that succeeded. An acknowledgement needs an
    outcome that is true of the delivery and earned by such evidence. */
module Evidence {
  import opened Wrappers
  import opened Jobs
  import opened Corpus
  import opened Batching
  import opened BatchOrder

  // `given`: the vectors the provider answered a text with. `misfit`: deliveries whose
  // text it answered without one vector of the right shape. `failed`: deliveries whose
  // own embed call, or a write of their batch, failed; `counted`: those of them whose
  // context was seen alive afterwards. `stored`: chunks of writes that succeeded.
  // `sent`: confirmed retries.
  datatype Evidence = Evidence(
    given: set<(string, Embedding)>, misfit: set<Tag>, failed: set<Tag>, counted: set<Tag>,
    stored: set<Chunk>, sent: set<Msg>)

  const NOTHING_SEEN := Evidence({}, {}, {}, {}, {}, {})

  function TextOf(s: Settings, d: Delivery): string {
    match JobOf(s, d)
    case Some(job) => job.content
    case None => ""
  }

  // The i-th of n texts was not answered with one vector of the right shape.
  predicate Misfit(n: nat, vecs: seq<Embedding>, i: nat) {
    i >= |vecs| || |vecs[i]| != EMBEDDING_DIM || (n == 1 && |vecs| != 1)
  }

  function GivenBy(s: Settings, ds: seq<Delivery>, vecs: seq<Embedding>): set<(string, Embedding)> {
    set i | 0 <= i < |ds| && i < |vecs| :: (TextOf(s, ds[i]), vecs[i])
  }

  function MisfitsOf(ds: seq<Delivery>, vecs: seq<Embedding>): set<Tag> {
    set i | 0 <= i < |ds| && Misfit(|ds|, vecs, i) :: ds[i].tag
  }

  // A failed call for several texts blames none of them.
  function AfterEmbed(s: Settings, ev: Evidence, ds: seq<Delivery>, r: Option<seq<Embedding>>): Evidence {
    match r
    case Some(vecs) => ev.(given := ev.given + GivenBy(s, ds, vecs), misfit := ev.misfit + MisfitsOf(ds, vecs))
    case None => if |ds| == 1 then ev.(failed := ev.failed + {ds[0].tag}) else ev
  }

  // A failed write blames the whole batch it belongs to.
  function AfterWrite(ev: Evidence, tags: set<Tag>, cs: seq<Chunk>, ok: bool): Evidence {
    if ok then ev.(stored := ev.stored + Members(cs)) else ev.(failed := ev.failed + tags)
  }

  function AfterAlive(ev: Evidence, tags: set<Tag>): Evidence {
    ev.(counted := ev.counted + ev.failed * tags)
  }

  function Members(cs: seq<Chunk>): set<Chunk> {
    set c | c in cs
  }

  lemma MembersSnoc(cs: seq<Chunk>, c: Chunk)
    ensures Members(cs + [c]) == Members(cs) + {c}
  {
  }

  // ---------- Outcomes ----------

  // What an outcome says about the delivery itself.
  ghost predicate Truthful(s: Settings, d: Delivery, o: Outcome) {
    match o
    case UnknownVersion => !Knows(s, d.msg.version)
    case Unreadable => Knows(s, d.msg.version) && Readable(s, d.msg.body) == None
    case BadShape => JobOf(s, d).Some?
    case Stored(c) =>
      && JobOf(s, d).Some? && IsFor(c, JobOf(s, d).value) && |c.embedding| == EMBEDDING_DIM
    case BudgetSpent => JobOf(s, d).Some? && JobOf(s, d).value.attempt >= s.maxAttempts - 1
    case NotEncodable =>
      JobOf(s, d).Some? && s.maxAttempts >= 1 && AfterFailure(s, JobOf(s, d).value) == CannotEncode
    case Republished(msg) =>
      && JobOf(s, d).Some? && s.maxAttempts >= 1
      && AfterFailure(s, JobOf(s, d).value) == Republish(msg.body) && msg.priority == d.msg.priority
  }

  // What must have happened for it.
  ghost predicate Earned(ev: Evidence, d: Delivery, o: Outcome) {
    match o
    case UnknownVersion => true
    case Unreadable => true
    case BadShape => d.tag in ev.misfit
    case Stored(c) => c in ev.stored && (c.content, c.embedding) in ev.given
    case BudgetSpent => d.tag in ev.counted
    case NotEncodable => d.tag in ev.counted
    case Republished(msg) => d.tag in ev.counted && msg in ev.sent
  }

  ghost predicate Grows(a: Evidence, b: Evidence) {
    && a.given <= b.given && a.misfit <= b.misfit && a.failed <= b.failed
    && a.counted <= b.counted && a.stored <= b.stored && a.sent <= b.sent
  }

  lemma GrowsOn(a: Evidence, b: Evidence, c: Evidence)
    requires Grows(a, b) && Grows(b, c)
    ensures Grows(a, c)
  {
  }

  /** Evidence is never taken back. */
  lemma EarnedLater(a: Evidence, b: Evidence, d: Delivery, o: Outcome)
    requires Earned(a, d, o) && Grows(a, b)
    ensures Earned(b, d, o)
  {
  }

  lemma EveryCallGrows(s: Settings, ev: Evidence, ds: seq<Delivery>, r: Option<seq<Embedding>>,
                       tags: set<Tag>, cs: seq<Chunk>, ok: bool, msg: Msg)
    ensures Grows(ev, AfterEmbed(s, ev, ds, r)) && Grows(ev, AfterWrite(ev, tags, cs, ok))
    ensures Grows(ev, AfterAlive(ev, tags)) && Grows(ev, ev.(sent := ev.sent + {msg}))
  {
    hide GivenBy, MisfitsOf, Members;
  }

  /** A worker that knows less sees its evidence grow within the whole's. */
  lemma CallsAreMonotone(s: Settings, a: Evidence, b: Evidence, ds: seq<Delivery>, r: Option<seq<Embedding>>,
                         tags: set<Tag>, cs: seq<Chunk>, ok: bool, msg: Msg)
    requires Grows(a, b)
    ensures Grows(AfterEmbed(s, a, ds, r), AfterEmbed(s, b, ds, r))
    ensures Grows(AfterWrite(a, tags, cs, ok), AfterWrite(b, tags, cs, ok))
    ensures Grows(AfterAlive(a, tags), AfterAlive(b, tags))
    ensures Grows(a.(sent := a.sent + {msg}), b.(sent := b.sent + {msg}))
  {
    hide GivenBy, MisfitsOf, Members;
  }

  // ---------- Chunks on their way to a table ----------

  // Each chunk carries its delivery's job and a vector of the right shape that the
  // provider gave for its text.
  ghost predicate Backed(s: Settings, ev: Evidence, ds: seq<Delivery>, chunks: seq<Chunk>) {
    |chunks| == |ds| && forall i :: 0 <= i < |ds| ==> BackedOne(s, ev, ds[i], chunks[i])
  }

  ghost predicate BackedOne(s: Settings, ev: Evidence, d: Delivery, c: Chunk) {
    && JobOf(s, d).Some? && IsFor(c, JobOf(s, d).value)
    && |c.embedding| == EMBEDDING_DIM && (c.content, c.embedding) in ev.given
  }

  lemma BackedLater(s: Settings, a: Evidence, b: Evidence, ds: seq<Delivery>, chunks: seq<Chunk>)
    requires Backed(s, a, ds, chunks) && Grows(a, b)
    ensures Backed(s, b, ds, chunks)
  {
    forall i | 0 <= i < |ds| ensures BackedOne(s, b, ds[i], chunks[i]) { assert BackedOne(s, a, ds[i], chunks[i]); }
  }

  lemma BackedSnoc(s: Settings, ev: Evidence, ds: seq<Delivery>, chunks: seq<Chunk>, d: Delivery, c: Chunk)
    requires Backed(s, ev, ds, chunks) && BackedOne(s, ev, d, c)
    ensures Backed(s, ev, ds + [d], chunks + [c])
  {
    hide BackedOne;
    forall i | 0 <= i < |ds| ensures (ds + [d])[i] == ds[i] && (chunks + [c])[i] == chunks[i] {}
  }

  // A part of a batch's chunks, all for one table.
  ghost predicate PartFor(chunks: seq<Chunk>, part: seq<Chunk>, staging: bool) {
    part != [] && forall c :: c in part ==> c in chunks && c.staging == staging
  }

  /** Whatever is written was answered by the provider for that very text. */
  lemma PartIsGiven(s: Settings, ev: Evidence, ds: seq<Delivery>, chunks: seq<Chunk>, part: seq<Chunk>, staging: bool)
    requires Backed(s, ev, ds, chunks) && PartFor(chunks, part, staging)
    ensures AllGiven(ev.given, part)
  {
    forall c | c in part ensures (c.content, c.embedding) in ev.given {
      var i :| 0 <= i < |chunks| && chunks[i] == c;
      assert BackedOne(s, ev, ds[i], chunks[i]);
    }
  }
}
