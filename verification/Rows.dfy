/** Which rows the deliveries change, what every delivery's fate is and what is sent again,
    read off the jobs' own fields: the specification the handling of deliveries is held
    against. */
module Rows {
  import opened Wrappers
  import opened Jobs
  import opened Corpus
  import opened Batching
  import opened BatchOrder
  import opened OrderFree

  // ---------- On the fields ----------

  // A body that decodes to a job with nothing missing and nothing negative.
  predicate Sane(s: Settings, body: string) {
    match s.codec.decode(body)
    case Some(job) =>
      job.source != "" && job.externalId != "" && job.chunkIndex >= 0 && job.content != "" && job.attempt >= 0
    case None => false
  }

  predicate Heard(s: Settings, d: Delivery) {
    (s.known == None || d.msg.version in s.known.value) && Sane(s, d.msg.body)
  }

  function TheJob(s: Settings, d: Delivery): Job
    requires Heard(s, d)
  {
    s.codec.decode(d.msg.body).value
  }

  // The delivery's text is answered with a vector of 1024 components.
  predicate Embeds(s: Settings, e: Provider, d: Delivery) {
    && Heard(s, d) && e(TheJob(s, d).content).Some? && |e(TheJob(s, d).content).value| == 1024
  }

  // What a counted failure comes to: dropped on the last attempt, returned when the queue
  // cannot take the priority, else sent again with the next attempt's number.
  function FailureFate(s: Settings, d: Delivery): Option<Outcome>
    requires Heard(s, d)
  {
    var job := TheJob(s, d);
    if job.attempt + 1 >= s.maxAttempts then Some(BudgetSpent)
    else if s.codec.encode(job.(attempt := job.attempt + 1)) == None then Some(NotEncodable)
    else if d.msg.priority > s.maxPriority then None
    else Some(Republished(Msg(s.codec.encode(job.(attempt := job.attempt + 1)).value, d.msg.priority, s.version)))
  }

  // `sunk` says that the write the delivery takes part in fails.
  function Fate(s: Settings, e: Provider, sunk: bool, d: Delivery): Option<Outcome> {
    if s.known.Some? && d.msg.version !in s.known.value then Some(UnknownVersion)
    else if !Sane(s, d.msg.body) then Some(Unreadable)
    else
      var job := TheJob(s, d);
      if e(job.content) == None then FailureFate(s, d)
      else if |e(job.content).value| != 1024 then Some(BadShape)
      else if sunk || job.chunkIndex >= 0x8000_0000 then FailureFate(s, d)
      else
        var key := Key(job.source, job.externalId, job.chunkIndex);
        Some(Stored(Chunk(job.staging, key, job.content, e(job.content).value)))
  }

  // The retries the deliveries leave in the queue.
  function Resent(s: Settings, e: Provider, sunk: bool, ds: seq<Delivery>): seq<Msg> {
    if ds == [] then [] else
      var fate := Fate(s, e, sunk, ds[|ds| - 1]);
      Resent(s, e, sunk, ds[..|ds| - 1])
      + if fate.Some? && fate.value.Republished? then [fate.value.msg] else []
  }

  // The job names this row of the given table, carries its text and can be written.
  predicate Serves(s: Settings, e: Provider, d: Delivery, staging: bool, k: Key, content: string) {
    Embeds(s, e, d) &&
    var job := TheJob(s, d);
    && job.staging == staging && job.content == content && job.chunkIndex < 0x8000_0000
    && job.source == k.source && job.externalId == k.externalId && job.chunkIndex == k.chunkIndex
  }

  // Exactly the rows some delivery serves have the vector of their text; every other row
  // is as it was, and no row's text changes, comes or goes.
  ghost predicate Served(s: Settings, e: Provider, ds: seq<Delivery>, staging: bool, t: Table, t': Table) {
    t'.Keys == t.Keys && forall k :: k in t ==> ServedRow(s, e, ds, staging, k, t[k], t'[k])
  }

  ghost predicate ServedRow(s: Settings, e: Provider, ds: seq<Delivery>, staging: bool, k: Key, row: Row, row': Row) {
    && row'.content == row.content
    && if exists i :: 0 <= i < |ds| && Serves(s, e, ds[i], staging, k, row.content)
       then row'.embedding == e(row.content) else row' == row
  }

  // Some job for the table has an index beyond its column.
  predicate Beyond(s: Settings, e: Provider, ds: seq<Delivery>, staging: bool) {
    exists i :: 0 <= i < |ds| && Embeds(s, e, ds[i])
      && TheJob(s, ds[i]).staging == staging && TheJob(s, ds[i]).chunkIndex >= 0x8000_0000
  }

  // The provider answers every text.
  predicate AllAnswered(s: Settings, e: Provider, ds: seq<Delivery>) {
    forall i :: 0 <= i < |ds| && Heard(s, ds[i]) ==> e(TheJob(s, ds[i]).content).Some?
  }

  // ---------- Single deliveries ----------

  lemma HeardIsJob(s: Settings, d: Delivery)
    ensures Heard(s, d) <==> JobOf(s, d).Some?
    ensures Heard(s, d) ==> JobOf(s, d) == Some(TheJob(s, d)) && Valid(TheJob(s, d))
    ensures Knows(s, d.msg.version) <==> s.known == None || d.msg.version in s.known.value
  {
  }

  lemma FailureFateIs(s: Settings, d: Delivery)
    requires s.maxAttempts >= 1 && Heard(s, d) && Valid(TheJob(s, d))
    ensures var f := FailEffect(s, d, TheJob(s, d));
      && f.outcome == FailureFate(s, d) && f.chunk == None
      && f.msg == if f.outcome.Some? && f.outcome.value.Republished? then Some(f.outcome.value.msg) else None
  {
  }

  lemma EffectIsFate(s: Settings, e: Provider, sunk: bool, d: Delivery)
    requires s.maxAttempts >= 1
    ensures var f := EffectOf(s, e, sunk, d);
      && f.outcome == Fate(s, e, sunk, d)
      && f.msg == (if f.outcome.Some? && f.outcome.value.Republished? then Some(f.outcome.value.msg) else None)
      && f.chunk == (if f.outcome.Some? && f.outcome.value.Stored? then Some(f.outcome.value.chunk) else None)
  {
    HeardIsJob(s, d);
    if Heard(s, d) { FailureFateIs(s, d); }
    hide FailEffect, FailureFate, AfterFailure, JobOf, Readable, Sane;
  }

  lemma StoredServes(s: Settings, e: Provider, d: Delivery, c: Chunk)
    requires s.maxAttempts >= 1
    ensures EffectOf(s, e, false, d).chunk == Some(c) <==>
            Serves(s, e, d, c.staging, c.key, c.content) && e(c.content) == Some(c.embedding)
  {
    EffectIsFate(s, e, false, d);
    HeardIsJob(s, d);
    hide EffectOf, FailureFate, JobOf, Sane;
  }

  // ---------- One by one ----------

  lemma SomeChunk(e: Provider, cs: seq<Chunk>, staging: bool, k: Key, content: string) returns (i: nat)
    requires exists c :: c in cs && c.key == k && c.content == content
    ensures i < |cs| && cs[i].key == k && cs[i].content == content
  {
    var c :| c in cs && c.key == k && c.content == content;
    i :| 0 <= i < |cs| && cs[i] == c;
  }

  // Chunks that are exactly those some delivery serves a row with.
  ghost predicate AreServing(s: Settings, e: Provider, ds: seq<Delivery>, staging: bool, cs: seq<Chunk>) {
    forall c :: c in cs <==>
      c.staging == staging && e(c.content) == Some(c.embedding)
      && exists i :: 0 <= i < |ds| && Serves(s, e, ds[i], staging, c.key, c.content)
  }

  lemma RowIsServed(s: Settings, e: Provider, ds: seq<Delivery>, staging: bool, cs: seq<Chunk>, t: Table, k: Key)
    requires AreServing(s, e, ds, staging, cs) && k in t && BulkWritten(t, cs, PutAll(t, cs))
    ensures ServedRow(s, e, ds, staging, k, t[k], PutAll(t, cs)[k])
  {
    var t' := PutAll(t, cs);
    hide PutAll, Serves;
    if j :| 0 <= j < |ds| && Serves(s, e, ds[j], staging, k, t[k].content) {
      ServesWell(s, e, ds[j], staging, k, t[k].content);
      var c := Chunk(staging, k, t[k].content, e(t[k].content).value);
      assert c in cs;
      var i := SomeChunk(e, cs, staging, k, t[k].content);
      assert Hits(t, cs, k, i);
      var l :| Hits(t, cs, k, l) && t'[k].embedding == Some(cs[l].embedding);
      assert cs[l] in cs;
    } else if l :| Hits(t, cs, k, l) {
      assert false;
    }
  }

  lemma ServesWell(s: Settings, e: Provider, d: Delivery, staging: bool, k: Key, content: string)
    requires Serves(s, e, d, staging, k, content)
    ensures e(content).Some?
  {
  }

  lemma TableIsServed(s: Settings, e: Provider, ds: seq<Delivery>, staging: bool, cs: seq<Chunk>, t: Table)
    requires AreServing(s, e, ds, staging, cs)
    ensures Served(s, e, ds, staging, t, PutAll(t, cs))
  {
    PutAllIsBulk(t, cs);
    forall k | k in t ensures ServedRow(s, e, ds, staging, k, t[k], PutAll(t, cs)[k]) {
      RowIsServed(s, e, ds, staging, cs, t, k);
    }
    hide PutAll, ServedRow, AreServing;
  }

  lemma WritesAreServing(s: Settings, e: Provider, ds: seq<Delivery>, staging: bool)
    requires s.maxAttempts >= 1
    ensures AreServing(s, e, ds, staging, Writes(s, e, ds, staging))
  {
    WritesAre(s, e, ds, staging);
    hide EffectOf, Writes, Serves;
    forall c: Chunk | c.staging == staging
      ensures c in Writes(s, e, ds, staging) <==>
        e(c.content) == Some(c.embedding) && exists i :: 0 <= i < |ds| && Serves(s, e, ds[i], staging, c.key, c.content)
    {
      if d :| d in ds && EffectOf(s, e, false, d).chunk == Some(c) {
        StoredServes(s, e, d, c);
      }
      if i :| 0 <= i < |ds| && Serves(s, e, ds[i], staging, c.key, c.content) {
        StoredServes(s, e, ds[i], c);
      }
    }
  }

  lemma {:induction false} SendsAreResent(s: Settings, e: Provider, ds: seq<Delivery>)
    requires s.maxAttempts >= 1
    ensures Sends(s, e, ds) == Resent(s, e, false, ds)
  {
    if ds != [] {
      hide EffectOf, Fate;
      SendsAreResent(s, e, ds[..|ds| - 1]);
      EffectIsFate(s, e, false, ds[|ds| - 1]);
    }
  }

  // What handling the deliveries leaves when the named tables are written and the rest is not.
  ghost predicate Handled(s: Settings, e: Provider, sunk: bool, w: World, ds: seq<Delivery>, r: World) {
    && r.published == w.published + Resent(s, e, sunk, ds)
    && r.settled.Keys == w.settled.Keys + Tags(ds)
    && (forall t :: t in w.settled && t !in Tags(ds) ==> r.settled[t] == w.settled[t])
    && FatesHold(s, e, sunk, ds, r)
  }

  ghost predicate FatesHold(s: Settings, e: Provider, sunk: bool, ds: seq<Delivery>, r: World) {
    forall i :: 0 <= i < |ds| ==> ds[i].tag in r.settled && r.settled[ds[i].tag] == Fate(s, e, sunk, ds[i])
  }

  lemma FatesAre(s: Settings, e: Provider, sunk: bool, w: World, ds: seq<Delivery>)
    requires s.maxAttempts >= 1 && DistinctTags(ds)
    ensures FatesHold(s, e, sunk, ds, Effects(s, e, sunk, w, ds))
  {
    hide Effects, EffectOf, Fate;
    forall i | 0 <= i < |ds|
      ensures ds[i].tag in Effects(s, e, sunk, w, ds).settled
      ensures Effects(s, e, sunk, w, ds).settled[ds[i].tag] == Fate(s, e, sunk, ds[i])
    {
      SettledAt(s, e, sunk, w, ds, i);
      EffectIsFate(s, e, sunk, ds[i]);
    }
  }

  ghost predicate EachLeaves(s: Settings, e: Provider, w: World, ds: seq<Delivery>, r: World) {
    && Served(s, e, ds, false, w.live, r.live) && Served(s, e, ds, true, w.staging, r.staging)
    && Handled(s, e, false, w, ds, r)
  }

  /** Handled one by one with nothing failing outside them: each table has, in exactly the
      rows the deliveries' jobs name and carry the text of, the provider's vector for that
      text, and is unchanged otherwise; each delivery has the fate its fields say; and the
      retries of the failed ones were sent. */
  lemma OneByOneSaid(s: Settings, e: Provider, w: World, ds: seq<Delivery>)
    requires s.maxAttempts >= 1 && DistinctTags(ds)
    ensures EachLeaves(s, e, w, ds, OneByOne(s, e, w, ds))
  {
    OneByOneIsEffects(s, e, w, ds);
    EffectsByParts(s, e, w, ds);
    FatesAre(s, e, false, w, ds);
    SendsAreResent(s, e, ds);
    WritesAreServing(s, e, ds, false);
    WritesAreServing(s, e, ds, true);
    TableIsServed(s, e, ds, false, Writes(s, e, ds, false), w.live);
    TableIsServed(s, e, ds, true, Writes(s, e, ds, true), w.staging);
    hide OneByOne, Effects, Served, PutAll, Writes, Sends, Resent, Fate, AreServing, Tags;
  }

  lemma EffectsSaid(s: Settings, e: Provider, w: World, ds: seq<Delivery>)
    requires s.maxAttempts >= 1 && DistinctTags(ds)
    ensures EachLeaves(s, e, w, ds, Effects(s, e, false, w, ds))
  {
    OneByOneIsEffects(s, e, w, ds);
    OneByOneSaid(s, e, w, ds);
    hide OneByOne, Effects, EachLeaves;
  }

  lemma EffectSaid(s: Settings, e: Provider, w: World, d: Delivery)
    requires s.maxAttempts >= 1
    ensures EachLeaves(s, e, w, [d], Apply(w, d.tag, EffectOf(s, e, false, d)))
  {
    assert [d][..0] == [];
    assert Effects(s, e, false, w, [d]) == Apply(Effects(s, e, false, w, []), d.tag, EffectOf(s, e, false, d));
    EffectsSaid(s, e, w, [d]);
  }

  lemma SameButOrderSaid(s: Settings, e: Provider, w: World, ds: seq<Delivery>, r: World)
    requires s.maxAttempts >= 1 && DistinctTags(ds) && SameButOrder(r, OneByOne(s, e, w, ds))
    ensures RowsAndFates(s, e, w, ds, r)
  {
    OneByOneSaid(s, e, w, ds);
    hide OneByOne, Served, Resent, Fate, Tags;
  }

  // As each leaves it, whatever the order of the sent messages.
  ghost predicate RowsAndFates(s: Settings, e: Provider, w: World, ds: seq<Delivery>, r: World) {
    && Served(s, e, ds, false, w.live, r.live) && Served(s, e, ds, true, w.staging, r.staging)
    && FatesHold(s, e, false, ds, r)
  }

  // ---------- As a batch ----------

  lemma {:induction false} SunkByParts(s: Settings, e: Provider, w: World, ds: seq<Delivery>)
    requires s.maxAttempts >= 1
    ensures ByParts(w, Effects(s, e, true, w, ds), [], [], Resent(s, e, true, ds), Tags(ds))
  {
    if ds != [] {
      hide EffectOf, Fate, Tags, ByParts, Apply;
      var n := |ds| - 1;
      var f := EffectOf(s, e, true, ds[n]);
      SunkByParts(s, e, w, ds[..n]);
      EffectIsFate(s, e, true, ds[n]);
      SunkWritesNothing(s, e, ds[n]);
      ApplyByParts(w, Effects(s, e, true, w, ds[..n]), [], [], Resent(s, e, true, ds[..n]), Tags(ds[..n]),
                   ds[n].tag, f);
      assert TheChunk(f, false) == [] && TheChunk(f, true) == [];
      TagsAppend(ds[..n], ds[n]);
      assert ds == ds[..n] + [ds[n]];
    } else {
      assert Tags(ds) == {};
    }
  }

  lemma SunkSaid(s: Settings, e: Provider, w: World, ds: seq<Delivery>)
    requires s.maxAttempts >= 1 && DistinctTags(ds)
    ensures var r := Effects(s, e, true, w, ds);
      r.live == w.live && r.staging == w.staging && Handled(s, e, true, w, ds, r)
  {
    FatesAre(s, e, true, w, ds);
    SunkByParts(s, e, w, ds);
    hide FatesHold, Effects, Tags, Resent;
  }

  lemma WantedIs(s: Settings, e: Provider, d: Delivery, c: Chunk)
    ensures Wanted(s, e, d) == Some(c) <==>
      && Embeds(s, e, d) && e(c.content) == Some(c.embedding) && c.content == TheJob(s, d).content
      && c.staging == TheJob(s, d).staging
      && c.key == Key(TheJob(s, d).source, TheJob(s, d).externalId, TheJob(s, d).chunkIndex)
    ensures Embeds(s, e, d) <==> Wanted(s, e, d).Some?
  {
    HeardIsJob(s, d);
    hide JobOf, Sane;
  }

  lemma BeyondIsOverflow(s: Settings, e: Provider, ds: seq<Delivery>, staging: bool)
    ensures Beyond(s, e, ds, staging) <==> Overflows(s, e, ds, staging)
  {
    forall i | 0 <= i < |ds|
      ensures Embeds(s, e, ds[i]) <==> Wanted(s, e, ds[i]).Some?
      ensures Embeds(s, e, ds[i]) ==>
        && Wanted(s, e, ds[i]).value.staging == TheJob(s, ds[i]).staging
        && Wanted(s, e, ds[i]).value.key.chunkIndex == TheJob(s, ds[i]).chunkIndex
    {
      if Wanted(s, e, ds[i]).Some? { WantedIs(s, e, ds[i], Wanted(s, e, ds[i]).value); }
      WantedIs(s, e, ds[i], Chunk(false, Key("", "", 0), "", []));
    }
    hide Wanted, Embeds, TheJob;
  }

  lemma AnsweredIsAllEmbed(s: Settings, e: Provider, ds: seq<Delivery>)
    ensures AllAnswered(s, e, ds) <==> AllEmbed(s, e, ds)
  {
    forall i | 0 <= i < |ds|
      ensures Heard(s, ds[i]) <==> JobOf(s, ds[i]).Some?
      ensures Heard(s, ds[i]) ==> JobOf(s, ds[i]) == Some(TheJob(s, ds[i]))
    {
      HeardIsJob(s, ds[i]);
    }
    hide Heard, JobOf;
  }

  lemma {:induction false} ChunksAreWanted(s: Settings, e: Provider, ds: seq<Delivery>, staging: bool)
    ensures forall c :: c in WantedChunks(s, e, ds, staging) <==>
              c.staging == staging && exists i :: 0 <= i < |ds| && Wanted(s, e, ds[i]) == Some(c)
  {
    if ds != [] {
      hide Wanted;
      var n := |ds| - 1;
      ChunksAreWanted(s, e, ds[..n], staging);
      forall c ensures (exists i :: 0 <= i < |ds| && Wanted(s, e, ds[i]) == Some(c)) <==>
                       (exists i :: 0 <= i < n && Wanted(s, e, ds[..n][i]) == Some(c)) || Wanted(s, e, ds[n]) == Some(c)
      {
        if i :| 0 <= i < |ds| && Wanted(s, e, ds[i]) == Some(c) {
          if i < n { assert ds[..n][i] == ds[i]; }
        }
        if i :| 0 <= i < n && Wanted(s, e, ds[..n][i]) == Some(c) { assert ds[..n][i] == ds[i]; }
      }
    }
  }

  lemma HalfIsServing(s: Settings, e: Provider, ds: seq<Delivery>, staging: bool)
    requires !Beyond(s, e, ds, staging)
    ensures AreServing(s, e, ds, staging, WantedChunks(s, e, ds, staging))
  {
    ChunksAreWanted(s, e, ds, staging);
    hide WantedChunks, Wanted;
    forall c: Chunk, i | c.staging == staging && 0 <= i < |ds|
      ensures Wanted(s, e, ds[i]) == Some(c) <==>
        Serves(s, e, ds[i], staging, c.key, c.content) && e(c.content) == Some(c.embedding)
    {
      WantedIs(s, e, ds[i], c);
    }
    hide Serves, Beyond;
  }

  lemma HandledElsewhere(s: Settings, e: Provider, w: World, ds: seq<Delivery>, r: World, live: Table)
    requires Handled(s, e, true, w, ds, r)
    ensures Handled(s, e, true, w, ds, r.(live := live))
  {
    hide Resent, Tags, Fate;
  }

  lemma SunkBatchSaid(s: Settings, e: Provider, w: World, ds: seq<Delivery>)
    requires s.maxAttempts >= 1 && DistinctTags(ds) && WriteFails(s, e, ds)
    ensures var r := Batch(s, e, w, ds);
      && Handled(s, e, true, w, ds, r) && r.staging == w.staging
      && (if Beyond(s, e, ds, false) then r.live == w.live else Served(s, e, ds, false, w.live, r.live))
  {
    hide Effects, PutAll, Served, Handled, Beyond, WriteFails, Overflows, AreServing, WantedChunks, DistinctTags;
    BeyondIsOverflow(s, e, ds, false);
    SunkSaid(s, e, w, ds);
    HandledElsewhere(s, e, w, ds, Effects(s, e, true, w, ds), Batch(s, e, w, ds).live);
    if !Beyond(s, e, ds, false) {
      HalfIsServing(s, e, ds, false);
      TableIsServed(s, e, ds, false, WantedChunks(s, e, ds, false), w.live);
    }
  }

  ghost predicate BatchLeaves(s: Settings, e: Provider, w: World, ds: seq<Delivery>, r: World) {
    var sunk := AllAnswered(s, e, ds) && (Beyond(s, e, ds, false) || Beyond(s, e, ds, true));
    && Handled(s, e, sunk, w, ds, r)
    && (if AllAnswered(s, e, ds) && Beyond(s, e, ds, false) then r.live == w.live
        else Served(s, e, ds, false, w.live, r.live))
    && (if sunk then r.staging == w.staging else Served(s, e, ds, true, w.staging, r.staging))
  }

  /** Handled as a batch, the same, except when every text is answered and some job's index
      is beyond its column: then every job that would have been stored has the fate of a
      failure, the staging table is left alone, and the live table is too if such a job is
      meant for it. */
  lemma BatchSaid(s: Settings, e: Provider, w: World, ds: seq<Delivery>)
    requires s.maxAttempts >= 1 && DistinctTags(ds)
    ensures BatchLeaves(s, e, w, ds, Batch(s, e, w, ds))
  {
    AnsweredIsAllEmbed(s, e, ds);
    BeyondIsOverflow(s, e, ds, false);
    BeyondIsOverflow(s, e, ds, true);
    hide Effects, OneByOne, PutAll, Served, Handled, AllAnswered, Beyond, AllEmbed, Overflows;
    if WriteFails(s, e, ds) {
      SunkBatchSaid(s, e, w, ds);
    } else {
      OneByOneIsEffects(s, e, w, ds);
      OneByOneSaid(s, e, w, ds);
    }
  }
}
