/** Everything a worker reaches: its context, the provider, the corpus and the broker.
    Each call may be hit by a shutdown and may fail in any way the real one can; only
    in a calm environment are the answers determined. Its preconditions are the rules
    a worker must keep for every delivery:

      held --Decide / Enqueue--> decided --Ack--> settled
      held --------------Nack------------------> settled */
module Environment {
  import opened Wrappers
  import opened Jobs
  import opened Corpus
  import opened Batching
  import opened BatchOrder
  import opened Evidence

  // `refused` holds the deliveries whose republish was not confirmed; `calls` counts
  // every Ack and Nack; `stopped` says that a shutdown made a worker return a delivery.
  datatype Ledger = Ledger(
    held: set<Tag>, decided: map<Tag, Outcome>, settled: map<Tag, Option<Outcome>>, refused: set<Tag>,
    calls: nat, stopped: bool, evidence: Evidence)

  ghost predicate Sound(l: Ledger) {
    l.held !! l.decided.Keys && l.held !! l.settled.Keys && l.decided.Keys !! l.settled.Keys
  }

  function EmbedAll(e: Provider, texts: seq<string>): Option<seq<Embedding>> {
    if forall i :: 0 <= i < |texts| ==> e(texts[i]).Some?
    then Some(seq(|texts|, i requires 0 <= i < |texts| => e(texts[i]).value)) else None
  }

  predicate AllFit(cs: seq<Chunk>) {
    forall i :: 0 <= i < |cs| ==> Fits(cs[i])
  }

  // The map gained entries for exactly these tags and kept the rest.
  ghost predicate Adds<T>(m: map<Tag, T>, m': map<Tag, T>, tags: set<Tag>) {
    m'.Keys == m.Keys + tags && forall t :: t in m && t !in tags ==> m'[t] == m[t]
  }

  // From l to l', exactly the given deliveries were settled, with one call each, and
  // nothing that was known was forgotten.
  ghost predicate Settles(l: Ledger, l': Ledger, tags: set<Tag>) {
    && Grows(l.evidence, l'.evidence) && (l.stopped ==> l'.stopped)
    && tags <= l.held && l'.held == l.held - tags
    && l'.decided == l.decided
    && l.refused <= l'.refused
    && l'.calls == l.calls + |tags|
    && Adds(l.settled, l'.settled, tags)
  }

  lemma SettlesNothing(l: Ledger)
    ensures Settles(l, l, {})
  {
  }

  lemma NothingSettled(l: Ledger, l': Ledger)
    requires Settles(l, l', {})
    ensures l'.held == l.held && l'.settled == l.settled && l'.decided == l.decided && l'.calls == l.calls
  {
  }

  // Nothing settled first, then the given deliveries.
  lemma SettlesAfter(l: Ledger, m: Ledger, r: Ledger, tags: set<Tag>)
    requires Settles(l, m, {}) && Settles(m, r, tags)
    ensures Settles(l, r, tags)
  {
    SettlesCompose(l, m, r, {}, tags);
    assert {} + tags == tags;
    hide Settles;
  }

  lemma SettlesGrows(l: Ledger, l': Ledger, tags: set<Tag>)
    requires Settles(l, l', tags)
    ensures Grows(l.evidence, l'.evidence)
  {
  }

  lemma SettlesKeepsSound(l: Ledger, l': Ledger, tags: set<Tag>)
    requires Sound(l) && Settles(l, l', tags)
    ensures Sound(l')
  {
  }

  lemma DisjointCount<T>(a: set<T>, b: set<T>)
    requires a !! b
    ensures |a + b| == |a| + |b|
  {
  }

  lemma AddsCompose<T>(l: map<Tag, T>, m: map<Tag, T>, r: map<Tag, T>, a: set<Tag>, b: set<Tag>)
    requires Adds(l, m, a) && Adds(m, r, b) && a !! b
    ensures Adds(l, r, a + b)
    ensures forall t :: t in a ==> t in m && t in r && r[t] == m[t]
  {
    forall t | t in a ensures t in m && t in r && r[t] == m[t] {
      assert t in m.Keys;
    }
    forall t | t in l && t !in a + b ensures r[t] == l[t] {
      assert t in m.Keys;
    }
    assert r.Keys == l.Keys + (a + b);
  }

  lemma SettlesDisjoint(l: Ledger, m: Ledger, r: Ledger, a: set<Tag>, b: set<Tag>)
    requires Settles(l, m, a) && Settles(m, r, b)
    ensures a !! b && |a + b| == |a| + |b| && r.held == l.held - (a + b)
  {
    hide Adds;
    assert a !! b;
    DisjointCount(a, b);
  }

  lemma SettlesCompose(l: Ledger, m: Ledger, r: Ledger, a: set<Tag>, b: set<Tag>)
    requires Settles(l, m, a) && Settles(m, r, b)
    ensures Settles(l, r, a + b) && a !! b
    ensures forall t :: t in a ==> t in m.settled && t in r.settled && r.settled[t] == m.settled[t]
  {
    SettlesDisjoint(l, m, r, a, b);
    GrowsOn(l.evidence, m.evidence, r.evidence);
    AddsCompose(l.settled, m.settled, r.settled, a, b);
    hide Adds, Grows;
  }

  // ---------- What the calls do to the ledger ----------

  function Decided(l: Ledger, tag: Tag, o: Outcome): Ledger {
    l.(held := l.held - {tag}, decided := l.decided[tag := o])
  }

  function Retried(l: Ledger, tag: Tag, msg: Msg): Ledger {
    Decided(l, tag, Republished(msg)).(evidence := l.evidence.(sent := l.evidence.sent + {msg}))
  }

  function Refused(l: Ledger, tag: Tag): Ledger {
    l.(refused := l.refused + {tag})
  }

  function Acked(l: Ledger, tag: Tag): Ledger
    requires tag in l.decided
  {
    l.(decided := l.decided - {tag}, settled := l.settled[tag := Some(l.decided[tag])], calls := l.calls + 1)
  }

  function Nacked(l: Ledger, tag: Tag): Ledger {
    l.(held := l.held - {tag}, settled := l.settled[tag := None], calls := l.calls + 1,
       stopped := l.stopped || tag !in l.refused)
  }

  class Env {
    const s: Settings
    const provider: Provider
    const calm: bool

    var cancelled: bool
    ghost var live: Table
    ghost var stage: Table
    ghost var published: seq<Msg>
    ghost var ledger: Ledger

    ghost predicate Valid() reads this {
      s.maxAttempts >= 1 && Sound(ledger) && (calm ==> !cancelled) && (ledger.stopped ==> cancelled)
    }

    ghost function W(): World reads this {
      World(live, stage, published, ledger.settled)
    }

    constructor (s: Settings, provider: Provider, calm: bool, ghost w: World, ghost held: set<Tag>)
      requires s.maxAttempts >= 1 && held !! w.settled.Keys
      ensures Valid() && W() == w && ledger == Ledger(held, map[], w.settled, {}, 0, false, NOTHING_SEEN)
      ensures this.s == s && this.provider == provider && this.calm == calm
    {
      this.s, this.provider, this.calm, cancelled := s, provider, calm, false;
      live, stage, published := w.live, w.staging, w.published;
      ledger := Ledger(held, map[], w.settled, {}, 0, false, NOTHING_SEEN);
    }

    // A shutdown may land during any call, and is final.
    method Tick()
      requires Valid()
      modifies `cancelled
      ensures Valid() && (old(cancelled) ==> cancelled)
    {
      var hit: bool := *;
      if hit && !calm { cancelled := true; }
    }

    /** Asks whether the context is done. If it is not, the failures seen so far count. */
    method Err() returns (c: bool)
      requires Valid()
      modifies `cancelled, `ledger
      ensures Valid() && (old(cancelled) ==> cancelled) && c == cancelled
      ensures ledger == if c then old(ledger)
                        else old(ledger).(evidence := AfterAlive(old(ledger).evidence, old(ledger).held))
    {
      Tick();
      c := cancelled;
      if !c { ledger := ledger.(evidence := AfterAlive(ledger.evidence, ledger.held)); }
    }

    /** One provider call for the texts of held deliveries. */
    method EmbedDocuments(texts: seq<string>, ghost ds: seq<Delivery>) returns (r: Option<seq<Embedding>>)
      requires Valid() && |ds| == |texts| && Tags(ds) <= ledger.held
      requires forall i :: 0 <= i < |ds| ==> JobOf(s, ds[i]).Some? && texts[i] == TextOf(s, ds[i])
      modifies `cancelled, `ledger
      ensures Valid() && (old(cancelled) ==> cancelled)
      ensures ledger == old(ledger).(evidence := AfterEmbed(s, old(ledger).evidence, ds, r))
      ensures calm ==> r == EmbedAll(provider, texts)
    {
      Tick();
      if calm { r := EmbedAll(provider, texts); } else { r := *; }
      ledger := ledger.(evidence := AfterEmbed(s, ledger.evidence, ds, r));
    }

    /** One content-guarded bulk UPDATE of the part of a held batch's chunks that goes to
        one table. A failure may still have been committed, except that an index out of
        range is refused before any SQL runs. */
    method SetChunks(staging: bool, cs: seq<Chunk>, ghost ds: seq<Delivery>, ghost chunks: seq<Chunk>)
      returns (ok: bool)
      requires Valid() && Tags(ds) <= ledger.held && Backed(s, ledger.evidence, ds, chunks)
      requires PartFor(chunks, cs, staging)
      modifies `cancelled, `live, `stage, `ledger
      ensures Valid() && (old(cancelled) ==> cancelled)
      ensures ledger == old(ledger).(evidence := AfterWrite(old(ledger).evidence, Tags(ds), cs, ok))
      ensures staging ==> live == old(live)
      ensures !staging ==> stage == old(stage)
      ensures var before, after := if staging then old(stage) else old(live), if staging then stage else live;
              && (ok ==> AllFit(cs) && BulkWritten(before, cs, after))
              && (!AllFit(cs) ==> after == before)
              && (after == before || BulkWritten(before, cs, after))
      ensures calm ==> ok == AllFit(cs)
    {
      Tick();
      var fails: bool, commits: bool := *, *;
      ok := AllFit(cs) && (calm || !fails);
      if AllFit(cs) && (ok || commits) {
        ghost var before := if staging then stage else live;
        PutAllIsBulk(before, cs);
        ghost var after :| BulkWritten(before, cs, after);
        if staging { stage := after; } else { live := after; }
      }
      ledger := ledger.(evidence := AfterWrite(ledger.evidence, Tags(ds), cs, ok));
    }

    /** Writes a whole row of the live table, content and vector together. A failure may
        still have been committed. */
    method UpsertChunk(c: Chunk, ghost d: Delivery) returns (ok: bool)
      requires Valid() && d.tag in ledger.held && BackedOne(s, ledger.evidence, d, c) && !c.staging
      modifies `cancelled, `live, `ledger
      ensures Valid() && (old(cancelled) ==> cancelled)
      ensures ledger == old(ledger).(evidence := AfterWrite(old(ledger).evidence, {d.tag}, [c], ok))
      ensures live == old(live) || (Fits(c) && live == UpsertedWhole(old(live), c))
      ensures ok ==> Fits(c) && live == UpsertedWhole(old(live), c)
      ensures calm ==> ok == Fits(c) && (!ok ==> live == old(live))
    {
      Tick();
      var fails: bool, commits: bool := *, *;
      ok := Fits(c) && (calm || !fails);
      if Fits(c) && (ok || commits) { live := UpsertedWhole(live, c); }
      ledger := ledger.(evidence := AfterWrite(ledger.evidence, {d.tag}, [c], ok));
    }

    /** Publishes the retry of a failure that counts. An error may hide a message that was
        queued all the same; a priority above the queue's maximum never leaves the process. */
    method Enqueue(d: Delivery, body: string, priority: nat) returns (ok: bool)
      requires Valid() && d.tag in ledger.held && d.tag in ledger.evidence.counted
      requires Truthful(s, d, Republished(Msg(body, priority, s.version)))
      modifies `cancelled, `published, `ledger
      ensures Valid() && (old(cancelled) ==> cancelled)
      ensures var msg := Msg(body, priority, s.version);
              if ok then
                && priority <= s.maxPriority
                && published == old(published) + [msg]
                && ledger == Retried(old(ledger), d.tag, msg)
              else
                && ledger == Refused(old(ledger), d.tag)
                && (published == old(published)
                    || (priority <= s.maxPriority && published == old(published) + [msg]))
      ensures calm ==> ok == (priority <= s.maxPriority) && (!ok ==> published == old(published))
    {
      Tick();
      var fails: bool, queued: bool := *, *;
      ok := priority <= s.maxPriority && (calm || !fails);
      if priority <= s.maxPriority && (ok || (queued && !calm)) {
        published := published + [Msg(body, priority, s.version)];
      }
      ledger := if ok then Retried(ledger, d.tag, Msg(body, priority, s.version)) else Refused(ledger, d.tag);
    }

    /** Records why a delivery may be acknowledged: an outcome that is true of it and that
        the provider, the store or the broker has given reason for. */
    ghost method Decide(d: Delivery, o: Outcome)
      requires Valid() && d.tag in ledger.held && Truthful(s, d, o) && !o.Republished?
      requires Earned(ledger.evidence, d, o)
      modifies `ledger
      ensures Valid()
      ensures ledger == Decided(old(ledger), d.tag, o)
    {
      ledger := Decided(ledger, d.tag, o);
    }

    /** Only a decided delivery may be acknowledged. The broker may refuse: the channel
        may be gone. */
    method Ack(tag: Tag) returns (ok: bool)
      requires Valid() && tag in ledger.decided
      modifies `cancelled, `ledger
      ensures Valid() && (old(cancelled) ==> cancelled)
      ensures ledger == Acked(old(ledger), tag)
    {
      Tick();
      ledger := Acked(ledger, tag);
      ok := *;
    }

    /** Only a shutdown or a refused republish may return a delivery to the broker. */
    method Nack(tag: Tag) returns (ok: bool)
      requires Valid() && tag in ledger.held && (cancelled || tag in ledger.refused)
      modifies `cancelled, `ledger
      ensures Valid() && (old(cancelled) ==> cancelled)
      ensures ledger == Nacked(old(ledger), tag)
    {
      ledger := Nacked(ledger, tag);
      Tick();
      ok := *;
    }
  }
}
