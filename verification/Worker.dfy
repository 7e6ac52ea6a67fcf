/** The embedding worker's handling of one batch. */
module Worker {
  import opened Wrappers
  import opened Jobs
  import opened Corpus
  import opened Batching
  import opened BatchOrder
  import opened Evidence
  import opened Environment
  import opened Settlement
  import opened BatchStages
  import opened Rows

  class Worker {
    const env: Env

    constructor (env: Env)
      ensures this.env == env
    {
      this.env := env;
    }

    /** Acknowledges a delivery for a reason that is true of it and earned. */
    method Drop(d: Delivery, ghost o: Outcome)
      requires env.Valid() && d.tag in env.ledger.held && Truthful(env.s, d, o) && !o.Republished?
      requires Earned(env.ledger.evidence, d, o)
      modifies env
      ensures env.Valid() && (old(env.cancelled) ==> env.cancelled)
      ensures Settles(old(env.ledger), env.ledger, {d.tag}) && Fated(env.s, env.ledger, d)
      ensures env.ledger.settled[d.tag] == Some(o) && env.ledger.evidence == old(env.ledger).evidence
      ensures env.W() == Settle(old(env.W()), d.tag, Some(o))
    {
      ghost var l := env.ledger;
      env.Decide(d, o);
      ghost var m := env.ledger;
      var _ := env.Ack(d.tag);
      hide Settles, Truthful, Earned, Grows;
      GrowsSame(l.evidence);
      AckAfterDecision(l, m, env.ledger, d.tag, o);
    }

    /** Returns a delivery to the broker. */
    method Return(d: Delivery)
      requires env.Valid() && d.tag in env.ledger.held && (env.cancelled || d.tag in env.ledger.refused)
      modifies env
      ensures env.Valid() && (old(env.cancelled) ==> env.cancelled)
      ensures Settles(old(env.ledger), env.ledger, {d.tag}) && Fated(env.s, env.ledger, d)
      ensures env.ledger.settled[d.tag] == None
      ensures env.W() == Settle(old(env.W()), d.tag, None)
    {
      ghost var l := env.ledger;
      var _ := env.Nack(d.tag);
      hide Settles;
      NackSettles(l, l, env.ledger, d.tag);
    }

    /** Applies the decision on a failed embed or write to its delivery: returned after a
        shutdown, else dropped or re-enqueued as its attempts allow. */
    method FailOne(d: Delivery)
      requires env.Valid() && d.tag in env.ledger.held && JobOf(env.s, d).Some?
      requires d.tag in env.ledger.evidence.failed
      modifies env
      ensures env.Valid() && (old(env.cancelled) ==> env.cancelled)
      ensures Settles(old(env.ledger), env.ledger, {d.tag}) && Fated(env.s, env.ledger, d)
      ensures Failing(env.s)(d, env.ledger.settled[d.tag])
      ensures old(env.cancelled) ==> env.ledger.settled[d.tag] == None
      ensures env.live == old(env.live) && env.stage == old(env.stage)
      ensures env.calm ==> env.W() == Apply(old(env.W()), d.tag, FailEffect(env.s, d, JobOf(env.s, d).value))
    {
      hide Settles, Fated, Grows;
      ghost var l := env.ledger;
      var job := JobOf(env.s, d).value;
      var cancelled := env.Err();
      ghost var m := env.ledger;
      AliveSettlesNothing(l, m);
      if cancelled {
        Return(d);
      } else {
        match AfterFailure(env.s, job) {
          case GiveUp => Drop(d, BudgetSpent);
          case CannotEncode => Drop(d, NotEncodable);
          case Republish(body) => Resend(d, body);
        }
        FatedIsSettled(env.s, env.ledger, d);
        assert env.ledger.settled[d.tag] == None || env.ledger.settled[d.tag] == FailureOutcome(env.s, d);
      }
      SettlesAfter(l, m, env.ledger, {d.tag});
    }

    /** Queues the retry before the original is acknowledged; if the queue does not
        confirm it, the original goes back instead. */
    method Resend(d: Delivery, body: string)
      requires env.Valid() && d.tag in env.ledger.held && d.tag in env.ledger.evidence.counted
      requires Truthful(env.s, d, Republished(Msg(body, d.msg.priority, env.s.version)))
      modifies env
      ensures env.Valid() && (old(env.cancelled) ==> env.cancelled)
      ensures Settles(old(env.ledger), env.ledger, {d.tag}) && Fated(env.s, env.ledger, d)
      ensures var msg := Msg(body, d.msg.priority, env.s.version);
              && env.ledger.settled[d.tag] in {None, Some(Republished(msg))}
              && (env.ledger.settled[d.tag].Some? ==> env.published == old(env.published) + [msg])
      ensures env.live == old(env.live) && env.stage == old(env.stage)
      ensures env.calm ==> env.W() == Apply(old(env.W()), d.tag, FailEffect(env.s, d, JobOf(env.s, d).value))
    {
      ghost var l := env.ledger;
      ghost var msg := Msg(body, d.msg.priority, env.s.version);
      RetryIsEffect(env.s, d, body);
      SendingGrows(l.evidence, msg);
      hide FailEffect, Grows, AfterFailure, Write;
      var queued := env.Enqueue(d, body, d.msg.priority);
      ghost var m := env.ledger;
      if !queued {
        RefusalSettlesNothing(l, d.tag);
        hide Settles, Fated, Truthful;
        Return(d);
        SettlesAfter(l, m, env.ledger, {d.tag});
      } else {
        var _ := env.Ack(d.tag);
        hide Settles;
        AckAfterDecision(l, m, env.ledger, d.tag, Republished(msg));
      }
    }

    /** The one-job path: embed, check the shape, write, acknowledge. */
    method EmbedAndWriteOne(d: Delivery)
      requires env.Valid() && d.tag in env.ledger.held && JobOf(env.s, d).Some?
      modifies env
      ensures env.Valid() && (old(env.cancelled) ==> env.cancelled)
      ensures Settles(old(env.ledger), env.ledger, {d.tag}) && Fated(env.s, env.ledger, d)
      ensures env.calm ==> env.W() == Apply(old(env.W()), d.tag, EffectOf(env.s, env.provider, false, d))
      ensures env.calm ==> EachLeaves(env.s, env.provider, old(env.W()), [d], env.W())
    {
      hide Settles, Put, Fated, Grows, EachLeaves;
      EffectSaid(env.s, env.provider, env.W(), d);
      ghost var l := env.ledger;
      var job := JobOf(env.s, d).value;
      OneTag(d);
      var r := env.EmbedDocuments([job.content], [d]);
      ghost var m := env.ledger;
      EmbedSettlesNothing(env.s, l, m, [d], r);
      if r.None? {
        FailOne(d);
      } else if |r.value| != 1 || |r.value[0]| != EMBEDDING_DIM {
        OneMisfit(env.s, l.evidence, d, r.value);
        Drop(d, BadShape);
      } else {
        OneGiven(env.s, l.evidence, d, r.value);
        WriteOne(d, ChunkOf(job, r.value[0]));
      }
      SettlesAfter(l, m, env.ledger, {d.tag});
    }

    /** Writes one job's chunk and settles its delivery. */
    method WriteOne(d: Delivery, chunk: Chunk)
      requires env.Valid() && d.tag in env.ledger.held && BackedOne(env.s, env.ledger.evidence, d, chunk)
      modifies env
      ensures env.Valid() && (old(env.cancelled) ==> env.cancelled)
      ensures Settles(old(env.ledger), env.ledger, {d.tag}) && Fated(env.s, env.ledger, d)
      ensures env.ledger.settled[d.tag] == Some(Stored(chunk)) || Failing(env.s)(d, env.ledger.settled[d.tag])
      ensures env.calm && env.provider(chunk.content) == Some(chunk.embedding) ==>
        env.W() == Apply(old(env.W()), d.tag, EffectOf(env.s, env.provider, false, d))
    {
      hide Settles, Put, Fated, Grows;
      ghost var l := env.ledger;
      ghost var before := if chunk.staging then env.stage else env.live;
      OneTag(d);
      OneBacked(env.s, l.evidence, d, chunk);
      var ok := env.SetChunks(chunk.staging, [chunk], [d], [chunk]);
      ghost var m := env.ledger;
      WriteSettlesNothing(l, m, {d.tag}, [chunk], ok);
      if !ok {
        assert env.calm ==> !Fits([chunk][0]);
        FailOne(d);
      } else {
        if env.calm && env.provider(chunk.content) == Some(chunk.embedding) {
          SingleWrite(env.provider, before, chunk, if chunk.staging then env.stage else env.live);
        }
        assert AllFit([chunk]) && [chunk][0] == chunk;
        assert chunk in Members([chunk]);
        Drop(d, Stored(chunk));
      }
      SettlesAfter(l, m, env.ledger, {d.tag});
    }

    // ---------- The batch ----------

    ghost predicate Holds(ds: seq<Delivery>) reads env {
      env.Valid() && DistinctTags(ds) && Tags(ds) <= env.ledger.held
    }

    ghost predicate Readables(ds: seq<Delivery>) {
      forall i :: 0 <= i < |ds| ==> JobOf(env.s, ds[i]).Some?
    }

    /** Nacks a batch that a shutdown cut short: every delivery goes back. */
    method RequeueAll(ds: seq<Delivery>)
      requires Holds(ds) && (env.cancelled || ds == [])
      modifies env
      ensures env.Valid() && (old(env.cancelled) ==> env.cancelled)
      ensures Settles(old(env.ledger), env.ledger, Tags(ds)) && Explained(env.s, env.ledger, ds)
      ensures AllMeet(Returned, env.ledger, ds)
      ensures env.live == old(env.live) && env.stage == old(env.stage) && env.published == old(env.published)
    {
      hide Settles, Truthful, Tags, Fated, AllMeet;
      ghost var l := env.ledger;
      StartSettling(env.s, l);
      NothingMeets(Returned, l);
      for i := 0 to |ds|
        invariant env.Valid() && (old(env.cancelled) ==> env.cancelled) && (env.cancelled || ds == [])
        invariant Settles(l, env.ledger, Tags(ds[..i])) && Explained(env.s, env.ledger, ds[..i])
        invariant AllMeet(Returned, env.ledger, ds[..i])
        invariant env.live == old(env.live) && env.stage == old(env.stage) && env.published == old(env.published)
      {
        ghost var m := env.ledger;
        NextIsHeld(l, m, ds[..i], ds, i);
        Return(ds[i]);
        SettlesSnoc(env.s, l, m, env.ledger, ds[..i], ds[i]);
        MeetsSnoc(Returned, m, env.ledger, ds[..i], ds[i]);
        assert ds[..i + 1] == ds[..i] + [ds[i]];
      }
      assert ds[..|ds|] == ds;
    }

    /** Drops the deliveries whose version or body cannot be read, and keeps the rest. */
    method DropUnreadable(ds: seq<Delivery>) returns (items: seq<Delivery>)
      requires Holds(ds)
      modifies env
      ensures env.Valid() && (old(env.cancelled) ==> env.cancelled)
      ensures items == Filter(Reads(env.s), ds)
      ensures var dropped := Filter(Not(Reads(env.s)), ds);
              && Settles(old(env.ledger), env.ledger, Tags(dropped)) && Explained(env.s, env.ledger, dropped)
              && forall sunk :: env.W() == Effects(env.s, env.provider, sunk, old(env.W()), dropped)
    {
      hide Settles, Truthful, Tags, Filter, Fated;
      ghost var l := env.ledger;
      ghost var no := Not(Reads(env.s));
      StartSettling(env.s, l);
      items := [];
      FilterNothing(Reads(env.s));
      FilterNothing(no);
      assert ds[..0] == [];
      for i := 0 to |ds|
        invariant env.Valid() && (old(env.cancelled) ==> env.cancelled)
        invariant items == Filter(Reads(env.s), ds[..i])
        invariant Settles(l, env.ledger, Tags(Filter(no, ds[..i])))
        invariant Explained(env.s, env.ledger, Filter(no, ds[..i]))
        invariant forall sunk :: env.W() == Effects(env.s, env.provider, sunk, old(env.W()), Filter(no, ds[..i]))
      {
        var d := ds[i];
        ghost var done := Filter(no, ds[..i]);
        assert ds[..i + 1] == ds[..i] + [d] && ds[..i + 1][..i] == ds[..i];
        FilterLast(Reads(env.s), ds[..i + 1]);
        FilterLast(no, ds[..i + 1]);
        if JobOf(env.s, d).Some? {
          items := items + [d];
        } else {
          ghost var m := env.ledger;
          NextIsHeld(l, m, done, ds, i);
          DropReason(env.s, d);
          if !Knows(env.s, d.msg.version) { Drop(d, UnknownVersion); } else { Drop(d, Unreadable); }
          SettlesSnoc(env.s, l, m, env.ledger, done, d);
          forall sunk ensures env.W() == Effects(env.s, env.provider, sunk, old(env.W()), done + [d]) {
            EffectsSnoc(env.s, env.provider, sunk, old(env.W()), done, d);
          }
        }
      }
      assert ds[..|ds|] == ds;
    }

    /** Embeds each delivery on its own, so that a bad input fails alone. */
    method Fallback(items: seq<Delivery>)
      requires Holds(items) && Readables(items)
      modifies env
      ensures env.Valid() && (old(env.cancelled) ==> env.cancelled)
      ensures Settles(old(env.ledger), env.ledger, Tags(items)) && Explained(env.s, env.ledger, items)
      ensures env.calm ==> env.W() == Effects(env.s, env.provider, false, old(env.W()), items)
      ensures env.calm ==> EachLeaves(env.s, env.provider, old(env.W()), items, env.W())
    {
      hide Settles, Truthful, Tags, EffectOf, Apply, Fated, EachLeaves;
      EffectsSaid(env.s, env.provider, env.W(), items);
      ghost var l := env.ledger;
      StartSettling(env.s, l);
      for i := 0 to |items|
        invariant env.Valid() && (old(env.cancelled) ==> env.cancelled)
        invariant Settles(l, env.ledger, Tags(items[..i])) && Explained(env.s, env.ledger, items[..i])
        invariant env.calm ==> env.W() == Effects(env.s, env.provider, false, old(env.W()), items[..i])
      {
        ghost var m := env.ledger;
        NextIsHeld(l, m, items[..i], items, i);
        EmbedAndWriteOne(items[i]);
        SettlesSnoc(env.s, l, m, env.ledger, items[..i], items[i]);
        EffectsSnoc(env.s, env.provider, false, old(env.W()), items[..i], items[i]);
        assert items[..i + 1] == items[..i] + [items[i]];
      }
      assert items[..|items|] == items;
    }

    /** Applies the failure of a batch's write to each of its deliveries. */
    method FailAll(good: seq<Delivery>)
      requires Holds(good) && Readables(good) && Tags(good) <= env.ledger.evidence.failed
      modifies env
      ensures env.Valid() && (old(env.cancelled) ==> env.cancelled)
      ensures Settles(old(env.ledger), env.ledger, Tags(good)) && Explained(env.s, env.ledger, good)
      ensures AllMeet(Failing(env.s), env.ledger, good)
      ensures env.live == old(env.live) && env.stage == old(env.stage)
      ensures env.calm && AllWanted(env.s, env.provider, good) ==>
        env.W() == Effects(env.s, env.provider, true, old(env.W()), good)
    {
      hide Settles, Truthful, Tags, EffectOf, Apply, Wanted, FailEffect, Fated, AllMeet, Failing;
      ghost var l := env.ledger;
      StartSettling(env.s, l);
      NothingMeets(Failing(env.s), l);
      for i := 0 to |good|
        invariant env.Valid() && (old(env.cancelled) ==> env.cancelled)
        invariant Settles(l, env.ledger, Tags(good[..i])) && Explained(env.s, env.ledger, good[..i])
        invariant AllMeet(Failing(env.s), env.ledger, good[..i])
        invariant env.live == old(env.live) && env.stage == old(env.stage)
        invariant env.calm && AllWanted(env.s, env.provider, good) ==>
          env.W() == Effects(env.s, env.provider, true, old(env.W()), good[..i])
      {
        ghost var m := env.ledger;
        NextIsHeld(l, m, good[..i], good, i);
        StillFailed(l, m, good, i);
        FailOne(good[i]);
        FatedIsSettled(env.s, env.ledger, good[i]);
        SettlesSnoc(env.s, l, m, env.ledger, good[..i], good[i]);
        MeetsSnoc(Failing(env.s), m, env.ledger, good[..i], good[i]);
        EffectsSnoc(env.s, env.provider, true, old(env.W()), good[..i], good[i]);
        SunkEffect(env.s, env.provider, good[i]);
        assert good[..i + 1] == good[..i] + [good[i]];
      }
      assert good[..|good|] == good;
    }

    /** Acknowledges every delivery of a batch whose chunks were written. */
    method AckAll(good: seq<Delivery>, chunks: seq<Chunk>)
      requires Holds(good) && Backed(env.s, env.ledger.evidence, good, chunks)
      requires Members(chunks) <= env.ledger.evidence.stored
      modifies env
      ensures env.Valid() && (old(env.cancelled) ==> env.cancelled)
      ensures Settles(old(env.ledger), env.ledger, Tags(good)) && Explained(env.s, env.ledger, good)
      ensures AllStored(env.ledger, good, chunks)
      ensures env.live == old(env.live) && env.stage == old(env.stage)
      ensures WantedAre(env.s, env.provider, good, chunks) && AllWanted(env.s, env.provider, good) ==>
        env.W() == SettleStored(env.s, env.provider, old(env.W()), good)
    {
      hide Settles, Tags, Wanted, Fated, Members, AllStored, Truthful, Earned, BackedOne;
      ghost var l, w := env.ledger, env.W();
      StartSettling(env.s, l);
      NothingStored(l);
      assert chunks[..0] == [];
      for i := 0 to |good|
        invariant env.Valid() && (old(env.cancelled) ==> env.cancelled)
        invariant env.live == old(env.live) && env.stage == old(env.stage) && env.ledger.evidence == l.evidence
        invariant Settles(l, env.ledger, Tags(good[..i])) && Explained(env.s, env.ledger, good[..i])
        invariant AllStored(env.ledger, good[..i], chunks[..i])
        invariant WantedAre(env.s, env.provider, good, chunks) && AllWanted(env.s, env.provider, good) ==>
          env.W() == SettleStored(env.s, env.provider, w, good[..i])
      {
        ghost var m := env.ledger;
        NextIsHeld(l, m, good[..i], good, i);
        StoredIsEarned(env.s, l.evidence, good, chunks, i);
        Drop(good[i], Stored(chunks[i]));
        SettlesSnoc(env.s, l, m, env.ledger, good[..i], good[i]);
        StoredSnoc(m, env.ledger, good[..i], chunks[..i], good[i], chunks[i]);
        if WantedAre(env.s, env.provider, good, chunks) && AllWanted(env.s, env.provider, good) {
          OneMoreStored(env.s, env.provider, w, good, chunks, i);
        }
        assert good[..i + 1] == good[..i] + [good[i]];
        assert chunks[..i + 1] == chunks[..i] + [chunks[i]];
      }
      assert good[..|good|] == good && chunks[..|chunks|] == chunks;
    }

    /** Writes the live half, then the staging half, each in one statement. */
    method WriteChunks(live: seq<Chunk>, staging: seq<Chunk>, ghost good: seq<Delivery>, ghost chunks: seq<Chunk>)
      returns (ok: bool)
      requires env.Valid() && Tags(good) <= env.ledger.held && Backed(env.s, env.ledger.evidence, good, chunks)
      requires live == Select(chunks, false) && staging == Select(chunks, true)
      modifies env
      ensures env.Valid() && (old(env.cancelled) ==> env.cancelled)
      ensures Settles(old(env.ledger), env.ledger, {}) && env.published == old(env.published)
      ensures if ok then Members(chunks) <= env.ledger.evidence.stored
              else Tags(good) <= env.ledger.evidence.failed
      ensures env.calm && Pointwise(env.provider, live) && Pointwise(env.provider, staging) ==>
        && (ok <==> AllFit(live) && AllFit(staging))
        && env.live == (if AllFit(live) then PutAll(old(env.live), live) else old(env.live))
        && env.stage == (if ok then PutAll(old(env.stage), staging) else old(env.stage))
    {
      hide Settles, Tags, Fits, Backed, Select, Members, PartFor;
      ghost var l := env.ledger;
      SettlesNothing(l);
      MembersSelected(chunks);
      ok := WriteHalf(false, live, good, chunks);
      if !ok { return; }
      ghost var m := env.ledger;
      SettlesGrows(l, m, {});
      BackedLater(env.s, l.evidence, m.evidence, good, chunks);
      NothingSettled(l, m);
      ok := WriteHalf(true, staging, good, chunks);
      SettlesGrows(m, env.ledger, {});
      SettlesAfter(l, m, env.ledger, {});
    }

    /** One half of the write; an empty half makes no statement. */
    method WriteHalf(staging: bool, part: seq<Chunk>, ghost good: seq<Delivery>, ghost chunks: seq<Chunk>)
      returns (ok: bool)
      requires env.Valid() && Tags(good) <= env.ledger.held && Backed(env.s, env.ledger.evidence, good, chunks)
      requires part == Select(chunks, staging)
      modifies env
      ensures env.Valid() && (old(env.cancelled) ==> env.cancelled)
      ensures Settles(old(env.ledger), env.ledger, {}) && env.published == old(env.published)
      ensures if ok then Members(part) <= env.ledger.evidence.stored
              else Tags(good) <= env.ledger.evidence.failed
      ensures if staging then env.live == old(env.live) else env.stage == old(env.stage)
      ensures env.calm && Pointwise(env.provider, part) ==>
        var before, after := if staging then old(env.stage) else old(env.live), if staging then env.stage else env.live;
        (ok <==> AllFit(part)) && after == if ok then PutAll(before, part) else before
    {
      hide Settles, Tags, Backed, BulkWritten, Fits, Grows;
      ghost var l := env.ledger;
      SettlesNothing(l);
      ok := true;
      if |part| > 0 {
        ghost var before := if staging then env.stage else env.live;
        SelectIsPart(chunks, staging);
        ok := env.SetChunks(staging, part, good, chunks);
        WriteSettlesNothing(l, env.ledger, Tags(good), part, ok);
        if ok && env.calm && Pointwise(env.provider, part) {
          BulkIsPutAll(env.provider, before, part, if staging then env.stage else env.live);
        }
      }
    }

    /** Drops the deliveries whose vector has the wrong shape and collects the chunks
        of the others by table. */
    method CheckShapes(items: seq<Delivery>, vecs: seq<Embedding>)
      returns (good: seq<Delivery>, chunks: seq<Chunk>, live: seq<Chunk>, staging: seq<Chunk>, ghost bad: seq<Delivery>)
      requires Holds(items) && Readables(items) && Answered(env.s, env.ledger.evidence, items, vecs)
      modifies env
      ensures env.Valid() && (old(env.cancelled) ==> env.cancelled)
      ensures Settles(old(env.ledger), env.ledger, Tags(bad)) && Explained(env.s, env.ledger, bad)
      ensures Partition(items, good, bad) && Backed(env.s, env.ledger.evidence, good, chunks)
      ensures AllMeet(Misshapen, env.ledger, bad)
      ensures live == Select(chunks, false) && staging == Select(chunks, true)
      ensures Answers(env.s, env.provider, items, vecs) ==>
        && Sorted(env.s, env.provider, items, good, chunks, bad)
        && Dropped(env.s, env.provider, old(env.W()), env.W(), bad)
    {
      hide Settles, Truthful, Tags, Partition, Sorted, Dropped, Explained, DistinctTags, Backed, Select, AllMeet,
        Answered;
      ghost var l, e := env.ledger, env.provider;
      StartSettling(env.s, l);
      NothingMeets(Misshapen, l);
      good, chunks, live, staging, bad := [], [], [], [], [];
      PartitionNothing();
      NoChunks(env.s, l.evidence);
      SortedNothing(env.s, e);
      DroppedNothing(env.s, e, env.W());
      assert items[..0] == [];
      for i := 0 to |items|
        invariant env.Valid() && (old(env.cancelled) ==> env.cancelled) && env.ledger.evidence == l.evidence
        invariant Settles(l, env.ledger, Tags(bad)) && Explained(env.s, env.ledger, bad)
        invariant AllMeet(Misshapen, env.ledger, bad)
        invariant Partition(items[..i], good, bad) && Backed(env.s, l.evidence, good, chunks)
        invariant live == Select(chunks, false) && staging == Select(chunks, true)
        invariant Answers(env.s, e, items, vecs) ==>
          Sorted(env.s, e, items[..i], good, chunks, bad) && Dropped(env.s, e, old(env.W()), env.W(), bad)
      {
        var d := items[i];
        var vec := if i < |vecs| then vecs[i] else [];
        assert items[..i + 1] == items[..i] + [d];
        PartitionSnoc(items, i, good, bad);
        if |vec| != EMBEDDING_DIM {
          ghost var m, w := env.ledger, env.W();
          PartitionWithin(items[..i], good, bad);
          NextIsHeld(l, m, bad, items, i);
          BadShapeTrue(env.s, d);
          BadShapeEarned(env.s, l.evidence, items, vecs, i);
          Drop(d, BadShape);
          SettlesSnoc(env.s, l, m, env.ledger, bad, d);
          MeetsSnoc(Misshapen, m, env.ledger, bad, d);
          if Answers(env.s, e, items, vecs) {
            SortedBad(env.s, e, items, vecs, i, good, chunks, bad);
            DroppedSnoc(env.s, e, old(env.W()), w, items, vecs, i, bad);
          }
          bad := bad + [d];
        } else {
          var chunk := ChunkOf(JobOf(env.s, d).value, vec);
          if Answers(env.s, e, items, vecs) { SortedGood(env.s, e, items, vecs, i, good, chunks, bad); }
          GoodIsBacked(env.s, l.evidence, items, vecs, i);
          BackedSnoc(env.s, l.evidence, good, chunks, d, chunk);
          SelectSnoc(chunks, chunk);
          good := good + [d];
          chunks := chunks + [chunk];
          if chunk.staging { staging := staging + [chunk]; } else { live := live + [chunk]; }
        }
      }
      assert items[..|items|] == items;
    }

    /** Writes the chunks of a batch and settles its deliveries accordingly: all stored
        after a success; else each returned, or dropped or re-enqueued as its attempts
        allow, and all returned if a shutdown came first. */
    method WriteAndSettle(good: seq<Delivery>, chunks: seq<Chunk>, live: seq<Chunk>, staging: seq<Chunk>)
      requires Holds(good) && Backed(env.s, env.ledger.evidence, good, chunks)
      requires live == Select(chunks, false) && staging == Select(chunks, true)
      modifies env
      ensures env.Valid() && (old(env.cancelled) ==> env.cancelled)
      ensures Settles(old(env.ledger), env.ledger, Tags(good)) && Explained(env.s, env.ledger, good)
      ensures AllStored(env.ledger, good, chunks) || AllMeet(Failing(env.s), env.ledger, good)
      ensures old(env.cancelled) ==> AllStored(env.ledger, good, chunks) || AllMeet(Returned, env.ledger, good)
      ensures env.calm && WantedAre(env.s, env.provider, good, chunks) ==>
        env.W() == Batch(env.s, env.provider, old(env.W()), good)
    {
      hide Settles, Tags, Batch, Effects, SettleStored, WantedAre, PutAll, Explained, Select, Backed, AllStored,
        AllMeet, Failing;
      ghost var l, e, w := env.ledger, env.provider, env.W();
      if WantedAre(env.s, e, good, chunks) { SelectedAreWanted(env.s, e, good, chunks); }
      var ok := WriteChunks(live, staging, good, chunks);
      ghost var m, written := env.ledger, env.W();
      NothingSettled(l, m);
      SettlesGrows(l, m, {});
      BackedLater(env.s, l.evidence, m.evidence, good, chunks);
      if ok {
        AckAll(good, chunks);
        if env.calm && WantedAre(env.s, e, good, chunks) { StoredIsBatch(env.s, e, w, good, chunks, written); }
      } else {
        var cancelled := env.Err();
        ghost var n := env.ledger;
        AliveSettlesNothing(m, n);
        if cancelled {
          RequeueAll(good);
          ReturnedIsFailing(env.s, env.ledger, good);
        } else {
          BackedAreReadable(env.s, m.evidence, good, chunks);
          FailAll(good);
          if env.calm && WantedAre(env.s, e, good, chunks) { FailedIsBatch(env.s, e, w, good, chunks, written); }
        }
        SettlesAfter(m, n, env.ledger, Tags(good));
      }
      SettlesAfter(l, m, env.ledger, Tags(good));
    }

    /** Embeds the readable deliveries in one call and settles them. */
    method EmbedBatch(items: seq<Delivery>)
      requires Holds(items) && Readables(items)
      modifies env
      ensures env.Valid() && (old(env.cancelled) ==> env.cancelled)
      ensures Settles(old(env.ledger), env.ledger, Tags(items)) && Explained(env.s, env.ledger, items)
      ensures env.calm ==> env.W() == Batch(env.s, env.provider, old(env.W()), items)
    {
      hide Settles, Tags, Batch, Effects, Sorted, Dropped, Partition, Explained, Backed, Select, Sound, AllMeet,
        AllStored, Answered, Failing;
      ghost var l, w, e := env.ledger, env.W(), env.provider;
      var texts := seq(|items|, i requires 0 <= i < |items| => JobOf(env.s, items[i]).value.content);
      var r := env.EmbedDocuments(texts, items);
      ghost var m := env.ledger;
      EmbedSettlesNothing(env.s, l, m, items, r);
      if r.None? {
        var cancelled := env.Err();
        ghost var n := env.ledger;
        AliveSettlesNothing(m, n);
        if cancelled {
          RequeueAll(items);
        } else {
          Fallback(items);
          if env.calm { RejectedIsOneByOne(env.s, e, w, items, texts); }
        }
        SettlesAfter(m, n, env.ledger, Tags(items));
      } else {
        AnswerIsSeen(env.s, l.evidence, items, r.value);
        SettleAnswered(items, r.value);
        if env.calm { AnswersAll(env.s, e, items, texts, r.value); }
      }
      SettlesAfter(l, m, env.ledger, Tags(items));
    }

    /** Settles a batch the provider answered. */
    method SettleAnswered(items: seq<Delivery>, vecs: seq<Embedding>)
      requires Holds(items) && Readables(items) && Answered(env.s, env.ledger.evidence, items, vecs)
      modifies env
      ensures env.Valid() && (old(env.cancelled) ==> env.cancelled)
      ensures Settles(old(env.ledger), env.ledger, Tags(items)) && Explained(env.s, env.ledger, items)
      ensures env.calm && Answers(env.s, env.provider, items, vecs) && AllEmbed(env.s, env.provider, items) ==>
        env.W() == Batch(env.s, env.provider, old(env.W()), items)
    {
      hide Settles, Tags, Batch, Effects, Sorted, Dropped, Partition, Explained, Backed, Select, Sound, AllMeet,
        AllStored, Answered, Failing;
      ghost var l, w, e := env.ledger, env.W(), env.provider;
      var good, chunks, live, staging, bad := CheckShapes(items, vecs);
      ghost var m, w1 := env.ledger, env.W();
      GoodIsHeld(l, m, items, good, bad);
      WriteAndSettle(good, chunks, live, staging);
      SettlesParts(env.s, l, m, env.ledger, items, good, bad);
      if env.calm && Answers(env.s, e, items, vecs) && AllEmbed(env.s, e, items) {
        ShapesKeepBatch(env.s, e, w, w1, items, good, chunks, bad);
      }
    }

    /** Processes a whole batch: afterwards every delivery has been settled by exactly one
        call. An ack has an outcome that is true of the delivery and that the provider's
        answers, the failures and the writes account for; a nack follows a shutdown or a
        refused republish. In a calm environment the world is the one `Batch` describes. */
    method ProcessBatch(ds: seq<Delivery>)
      requires Holds(ds)
      modifies env
      ensures env.Valid() && (old(env.cancelled) ==> env.cancelled)
      ensures Settles(old(env.ledger), env.ledger, Tags(ds)) && Explained(env.s, env.ledger, ds)
      ensures NacksCaused(env.ledger, env.cancelled, ds)
      ensures env.calm ==> env.W() == Batch(env.s, env.provider, old(env.W()), ds)
      ensures env.calm ==> BatchLeaves(env.s, env.provider, old(env.W()), ds, env.W())
    {
      hide Settles, Tags, Batch, Effects, Filter, Fated, Sound, Partition, BatchLeaves;
      ghost var l, w, e := env.ledger, env.W(), env.provider;
      var items := DropUnreadable(ds);
      ghost var dropped := Filter(Not(Reads(env.s)), ds);
      ghost var m, w1 := env.ledger, env.W();
      FilterPartitions(Reads(env.s), ds);
      GoodIsHeld(l, m, ds, items, dropped);
      EmbedBatch(items);
      SettlesParts(env.s, l, m, env.ledger, ds, items, dropped);
      DropsKeepBatch(env.s, e, w, w1, ds);
      NacksHaveCause(env.s, env.ledger, env.cancelled, ds);
      BatchSaid(env.s, e, w, ds);
    }
  }

  // ---------- What the calls leave in the ledger ----------

  lemma GrowsSame(ev: Evidence)
    ensures Grows(ev, ev)
  {
  }

  lemma RetryIsEffect(s: Settings, d: Delivery, body: string)
    requires Truthful(s, d, Republished(Msg(body, d.msg.priority, s.version)))
    ensures var msg := Msg(body, d.msg.priority, s.version);
      FailEffect(s, d, JobOf(s, d).value) ==
        if d.msg.priority > s.maxPriority then Effect(None, None, None)
        else Effect(None, Some(msg), Some(Republished(msg)))
  {
  }

  lemma OneMoreStored(s: Settings, e: Provider, w: World, good: seq<Delivery>, chunks: seq<Chunk>, i: nat)
    requires WantedAre(s, e, good, chunks) && AllWanted(s, e, good) && i < |good|
    ensures AllWanted(s, e, good[..i]) && AllWanted(s, e, good[..i + 1])
    ensures SettleStored(s, e, w, good[..i + 1])
         == Settle(SettleStored(s, e, w, good[..i]), good[i].tag, Some(Stored(chunks[i])))
  {
    hide Wanted;
    assert good[..i + 1][..i] == good[..i];
  }

  lemma RefusalSettlesNothing(l: Ledger, tag: Tag)
    ensures Settles(l, Refused(l, tag), {})
  {
  }

  lemma SendingGrows(ev: Evidence, msg: Msg)
    ensures Grows(ev, ev.(sent := ev.sent + {msg}))
  {
  }

  lemma AliveSettlesNothing(l: Ledger, m: Ledger)
    requires m == l || m == l.(evidence := AfterAlive(l.evidence, l.held))
    ensures Settles(l, m, {}) && m.held == l.held && Grows(l.evidence, m.evidence)
    ensures m != l ==> l.held * l.evidence.failed <= m.evidence.counted
  {
  }

  lemma EmbedSettlesNothing(s: Settings, l: Ledger, m: Ledger, ds: seq<Delivery>, r: Option<seq<Embedding>>)
    requires m == l.(evidence := AfterEmbed(s, l.evidence, ds, r))
    ensures Settles(l, m, {})
  {
    hide GivenBy, MisfitsOf;
  }

  lemma WriteSettlesNothing(l: Ledger, m: Ledger, tags: set<Tag>, cs: seq<Chunk>, ok: bool)
    requires m == l.(evidence := AfterWrite(l.evidence, tags, cs, ok))
    ensures Settles(l, m, {}) && m.held == l.held
    ensures if ok then Members(cs) <= m.evidence.stored else tags <= m.evidence.failed
    ensures Grows(l.evidence, m.evidence)
  {
    hide Members;
  }

  lemma NothingMeets(p: Fates, l: Ledger)
    ensures AllMeet(p, l, [])
  {
  }

  lemma NothingStored(l: Ledger)
    ensures AllStored(l, [], [])
  {
  }

  lemma ReturnedIsFailing(s: Settings, l: Ledger, ds: seq<Delivery>)
    requires AllMeet(Returned, l, ds)
    ensures AllMeet(Failing(s), l, ds)
  {
  }

  const Misshapen: Fates := (_: Delivery, fate: Option<Outcome>) => fate == Some(BadShape)

  lemma StillFailed(l: Ledger, m: Ledger, good: seq<Delivery>, i: nat)
    requires i < |good| && Tags(good) <= l.evidence.failed && Settles(l, m, Tags(good[..i]))
    ensures good[i].tag in m.evidence.failed
  {
    assert good[i].tag in Tags(good);
    SettlesGrows(l, m, Tags(good[..i]));
  }

  // ---------- Single deliveries as batches of one ----------

  lemma OneTag(d: Delivery)
    ensures Tags([d]) == {d.tag}
  {
    assert [d][0].tag in Tags([d]);
  }

  lemma OneMisfit(s: Settings, ev: Evidence, d: Delivery, vecs: seq<Embedding>)
    requires |vecs| != 1 || |vecs[0]| != EMBEDDING_DIM
    ensures d.tag in AfterEmbed(s, ev, [d], Some(vecs)).misfit
  {
    assert Misfit(1, vecs, 0) && [d][0] == d;
    assert d.tag in MisfitsOf([d], vecs);
  }

  lemma OneGiven(s: Settings, ev: Evidence, d: Delivery, vecs: seq<Embedding>)
    requires |vecs| == 1 && |vecs[0]| == EMBEDDING_DIM && JobOf(s, d).Some?
    ensures BackedOne(s, AfterEmbed(s, ev, [d], Some(vecs)), d, ChunkOf(JobOf(s, d).value, vecs[0]))
  {
    assert (TextOf(s, [d][0]), vecs[0]) in GivenBy(s, [d], vecs);
  }

  lemma OneBacked(s: Settings, ev: Evidence, d: Delivery, c: Chunk)
    requires BackedOne(s, ev, d, c)
    ensures Backed(s, ev, [d], [c]) && PartFor([c], [c], c.staging)
  {
  }

  // ---------- Batches ----------

  // The evidence covers the provider's answer to the batch.
  ghost predicate Answered(s: Settings, ev: Evidence, ds: seq<Delivery>, vecs: seq<Embedding>) {
    GivenBy(s, ds, vecs) <= ev.given && MisfitsOf(ds, vecs) <= ev.misfit
  }

  lemma AnswerIsSeen(s: Settings, ev: Evidence, ds: seq<Delivery>, vecs: seq<Embedding>)
    ensures Answered(s, AfterEmbed(s, ev, ds, Some(vecs)), ds, vecs)
  {
    hide GivenBy, MisfitsOf;
  }

  lemma BadShapeEarned(s: Settings, ev: Evidence, ds: seq<Delivery>, vecs: seq<Embedding>, i: nat)
    requires Answered(s, ev, ds, vecs) && i < |ds| && (i >= |vecs| || |vecs[i]| != EMBEDDING_DIM)
    ensures Earned(ev, ds[i], BadShape)
  {
    assert Misfit(|ds|, vecs, i);
    assert ds[i].tag in MisfitsOf(ds, vecs);
  }

  lemma GoodIsBacked(s: Settings, ev: Evidence, ds: seq<Delivery>, vecs: seq<Embedding>, i: nat)
    requires Answered(s, ev, ds, vecs) && i < |ds| && i < |vecs| && |vecs[i]| == EMBEDDING_DIM && JobOf(s, ds[i]).Some?
    ensures BackedOne(s, ev, ds[i], ChunkOf(JobOf(s, ds[i]).value, vecs[i]))
  {
    assert (TextOf(s, ds[i]), vecs[i]) in GivenBy(s, ds, vecs);
  }

  lemma NoChunks(s: Settings, ev: Evidence)
    ensures Backed(s, ev, [], []) && Select([], false) == [] && Select([], true) == []
  {
  }

  lemma StoredIsEarned(s: Settings, ev: Evidence, ds: seq<Delivery>, chunks: seq<Chunk>, i: nat)
    requires Backed(s, ev, ds, chunks) && Members(chunks) <= ev.stored && i < |ds|
    ensures Truthful(s, ds[i], Stored(chunks[i])) && Earned(ev, ds[i], Stored(chunks[i]))
  {
    assert BackedOne(s, ev, ds[i], chunks[i]);
    assert chunks[i] in Members(chunks);
  }

  lemma BackedAreReadable(s: Settings, ev: Evidence, ds: seq<Delivery>, chunks: seq<Chunk>)
    requires Backed(s, ev, ds, chunks)
    ensures forall i :: 0 <= i < |ds| ==> JobOf(s, ds[i]).Some?
  {
    forall i | 0 <= i < |ds| ensures JobOf(s, ds[i]).Some? { assert BackedOne(s, ev, ds[i], chunks[i]); }
  }

  lemma SelectIsPart(chunks: seq<Chunk>, staging: bool)
    requires Select(chunks, staging) != []
    ensures PartFor(chunks, Select(chunks, staging), staging)
  {
    SelectWithin(chunks, staging);
  }

  lemma {:induction false} SelectWithin(chunks: seq<Chunk>, staging: bool)
    ensures forall c :: c in Select(chunks, staging) ==> c in chunks && c.staging == staging
  {
    if chunks != [] {
      var n := |chunks| - 1;
      SelectWithin(chunks[..n], staging);
      assert chunks == chunks[..n] + [chunks[n]];
    }
  }
}
