/** No job gets stuck: from every reachable state of the protocol a confirmed job that has
    no fate yet can still be delivered, embedded and stored. */
module Recovery {
  import opened Wrappers
  import opened Jobs
  import opened Corpus
  import opened Batching
  import opened BatchOrder
  import opened Evidence
  import opened Environment
  import opened Protocol

  // The run of these steps can go on to st.
  ghost predicate Ahead(s: Settings, steps: seq<Step>, st: State) {
    exists more :: Run(s, steps + more) == Some(st)
  }

  lemma Now(s: Settings, steps: seq<Step>)
    requires Run(s, steps).Some?
    ensures Ahead(s, steps, Run(s, steps).value)
  {
    assert steps + [] == steps;
  }

  lemma GoOn(s: Settings, steps: seq<Step>, st: State, step: Step) returns (r: State)
    requires Ahead(s, steps, st) && Enabled(s, st, step)
    ensures r == Do(s, st, step) && Ahead(s, steps, r)
  {
    hide Enabled, Do;
    var more :| Run(s, steps + more) == Some(st);
    var so := steps + more;
    assert (so + [step])[..|so|] == so;
    assert steps + (more + [step]) == so + [step];
    r := Do(s, st, step);
    assert Run(s, so + [step]) == Some(r);
  }

  lemma BooksAhead(s: Settings, steps: seq<Step>, st: State)
    requires Lossless(s.codec) && Ahead(s, steps, st)
    ensures Books(s, st)
  {
    hide Run, Books;
    var more :| Run(s, steps + more) == Some(st);
    RunKeepsBooks(s, steps + more);
  }

  lemma AboveAll(used: set<nat>) returns (n: nat)
    ensures forall m :: m in used ==> m < n
    decreases |used|
  {
    n := 0;
    if m :| m in used {
      var below := AboveAll(used - {m});
      n := if m < below then below else m + 1;
      assert forall x :: x in used ==> x == m || x in used - {m};
    }
  }

  // ---------- Made ready ----------

  ghost predicate IsReady(s: Settings, st: State, id: nat, e: nat) {
    IsCopyOf(s, st, id, e) && st.queue[e].holder == None
  }

  // A copy that a delivery holds is ready once that delivery's channel is closed.
  lemma MakeReady(s: Settings, steps: seq<Step>, id: nat) returns (st: State, e: nat)
    requires Lossless(s.codec) && Run(s, steps).Some?
    requires var st := Run(s, steps).value; id in st.confirmed && !HasOutcome(st, id)
    ensures Ahead(s, steps, st) && IsReady(s, st, id, e) && st.origin == Run(s, steps).value.origin
  {
    hide Run, Genuine, RecordSound, Ahead;
    NoJobLost(s, steps, id);
    Now(s, steps);
    st := Run(s, steps).value;
    assert !FateKnown(s, st, id);
    if Waiting(s, st, id) {
      e :| IsCopyOf(s, st, id, e) && st.queue[e].holder == None;
    } else {
      e :| IsCopyOf(s, st, id, e) && st.queue[e].holder.Some? && HeldBy(st, e, st.queue[e].holder.value);
      st := GoOn(s, steps, st, Close(st.handles[st.queue[e].holder.value].channel));
    }
  }

  // ---------- Taken up ----------

  predicate HasIt(st: State, tag: Tag, copy: Copy) {
    tag in st.handles && st.handles[tag].stage == Collected && st.handles[tag].copy == copy
  }

  // A new consumer is handed a ready message.
  lemma TakeUp(s: Settings, steps: seq<Step>, st: State, e: nat) returns (r: State, tag: Tag)
    requires Ahead(s, steps, st) && e in st.queue && st.queue[e].holder == None
    ensures Ahead(s, steps, r) && HasIt(r, tag, st.queue[e].copy) && r.origin == st.origin
  {
    hide Ahead;
    var ch := AboveAll(st.channels.Keys);
    tag := AboveAll(st.handles.Keys);
    r := GoOn(s, steps, st, Open(ch));
    r := GoOn(s, steps, r, Deliver(e, ch, tag));
    r := HandedOn(s, steps, r, tag, st.queue[e].copy);
  }

  lemma HandedOn(s: Settings, steps: seq<Step>, st: State, tag: Tag, copy: Copy) returns (r: State)
    requires Ahead(s, steps, st) && tag in st.handles
    requires st.handles[tag].stage == InForwarder && st.handles[tag].copy == copy
    ensures Ahead(s, steps, r) && HasIt(r, tag, copy) && r.origin == st.origin
  {
    hide Ahead;
    r := GoOn(s, steps, st, HandOn(tag));
    r := GoOn(s, steps, r, HandOn(tag));
  }

  // ---------- Stored ----------

  // The row the job names, if it carries the job's text, holds the vector.
  predicate RowHas(st: State, job: Job, vec: Embedding) {
    var t, key := TableOf(st, job.staging), Key(job.source, job.externalId, job.chunkIndex);
    key in t && t[key].content == job.content ==> t[key].embedding == Some(vec)
  }

  lemma Answered(s: Settings, steps: seq<Step>, st: State, tag: Tag, copy: Copy, job: Job, vec: Embedding)
    returns (r: State)
    requires Ahead(s, steps, st) && HasIt(st, tag, copy) && JobOf(s, DeliveryOf(tag, copy)) == Some(job)
    ensures Ahead(s, steps, r) && HasIt(r, tag, copy) && r.origin == st.origin
    ensures (job.content, vec) in r.evidence.given
  {
    hide Ahead, JobOf;
    var ds := [DeliveryOf(tag, copy)];
    assert Deliveries(st, [tag]) == ds;
    r := GoOn(s, steps, st, Embed([tag], Some([vec])));
    assert TextOf(s, ds[0]) == job.content && [vec][0] == vec;
    assert (TextOf(s, ds[0]), [vec][0]) in GivenBy(s, ds, [vec]);
  }

  lemma OneWrite(before: Table, c: Chunk)
    ensures BulkWritten(before, [c], Put(before, c))
  {
    PutAllIsBulk(before, [c]);
    assert [c][..0] == [];
    hide BulkWritten;
  }

  lemma Written(s: Settings, steps: seq<Step>, st: State, tag: Tag, copy: Copy, job: Job, vec: Embedding)
    returns (r: State)
    requires Ahead(s, steps, st) && HasIt(st, tag, copy) && JobOf(s, DeliveryOf(tag, copy)) == Some(job)
    requires (job.content, vec) in st.evidence.given && |vec| == EMBEDDING_DIM && job.chunkIndex <= MAX_INT32
    ensures Ahead(s, steps, r) && HasIt(r, tag, copy) && r.origin == st.origin
    ensures (job.content, vec) in r.evidence.given && TheChunk(job, vec) in r.evidence.stored && RowHas(r, job, vec)
  {
    hide Ahead, JobOf, BulkWritten;
    var c, before := TheChunk(job, vec), TableOf(st, job.staging);
    OneWrite(before, c);
    assert Deliveries(st, [tag]) == [DeliveryOf(tag, copy)];
    assert BackedOne(s, st.evidence, DeliveryOf(tag, copy), c);
    r := GoOn(s, steps, st, Write(job.staging, [tag], [c], [c], Put(before, c), true));
    assert c in Members([c]);
  }

  lemma Decides(s: Settings, steps: seq<Step>, st: State, tag: Tag, copy: Copy, job: Job, vec: Embedding)
    returns (r: State)
    requires Ahead(s, steps, st) && HasIt(st, tag, copy) && JobOf(s, DeliveryOf(tag, copy)) == Some(job)
    requires (job.content, vec) in st.evidence.given && TheChunk(job, vec) in st.evidence.stored
    requires |vec| == EMBEDDING_DIM && RowHas(st, job, vec)
    ensures Ahead(s, steps, r) && r.origin == st.origin && RowHas(r, job, vec)
    ensures Record(tag, copy, Stored(TheChunk(job, vec))) in r.outcomes
  {
    hide Ahead, JobOf;
    r := GoOn(s, steps, st, Decide(tag, Stored(TheChunk(job, vec))));
  }

  // ---------- Its job ----------

  /** Whatever is published has the queue's own version. */
  lemma {:induction false} OriginsAreCurrent(s: Settings, steps: seq<Step>)
    requires Run(s, steps).Some?
    ensures var st := Run(s, steps).value; forall id :: id in st.origin ==> st.origin[id].version == s.version
  {
    if steps != [] {
      var n := |steps| - 1;
      OriginsAreCurrent(s, steps[..n]);
      StepKeepsCurrent(s, Run(s, steps[..n]).value, steps[n]);
      hide Enabled, Do;
    }
  }

  lemma StepKeepsCurrent(s: Settings, st: State, step: Step)
    requires Enabled(s, st, step) && forall id :: id in st.origin ==> st.origin[id].version == s.version
    ensures var r := Do(s, st, step); forall id :: id in r.origin ==> r.origin[id].version == s.version
  {
    OriginAfter(s, st, step);
    hide Moved, Seen, Tables, Truthful, Earned, Backed, BackedOne, PartFor, MayWrite, JobOf;
  }

  lemma OriginAfter(s: Settings, st: State, step: Step)
    requires Enabled(s, st, step)
    ensures Moved(s, st, step).origin == if step.Publish? then st.origin[step.id := step.msg] else st.origin
  {
    assert forall tag, stage :: tag in st.handles ==> MoveTo(st, tag, stage).origin == st.origin;
    hide Requeue, Dispatched, Enabled, MoveTo, Holds;
  }

  lemma CopyHasJob(s: Settings, origin: map<nat, Msg>, copy: Copy, tag: Tag, job: Job) returns (now: Job)
    requires Genuine(s, origin, copy) && origin[copy.id].version == s.version && Knows(s, s.version)
    requires Readable(s, origin[copy.id].body) == Some(job)
    ensures JobOf(s, DeliveryOf(tag, copy)) == Some(now) && SamePayload(now, job)
  {
    now := Readable(s, copy.msg.body).value;
  }

  lemma SameRow(st: State, a: Job, b: Job, vec: Embedding)
    requires SamePayload(a, b) && RowHas(st, a, vec)
    ensures RowHas(st, b, vec)
  {
    assert a.(attempt := 0) == b.(attempt := 0);
    assert a.staging == a.(attempt := 0).staging && a.content == a.(attempt := 0).content;
  }

  /** Whatever has happened so far, shutdowns, failures, lost acknowledgements and duplicate
      deliveries included: a confirmed readable job without a fate can still be delivered,
      embedded, written to its own row and recorded as stored. */
  lemma CanStillBeStored(s: Settings, steps: seq<Step>, id: nat, job: Job, vec: Embedding) returns (r: State)
    requires Lossless(s.codec) && Run(s, steps).Some? && Knows(s, s.version)
    requires var st := Run(s, steps).value;
      id in st.confirmed && !HasOutcome(st, id) && id in st.origin && Readable(s, st.origin[id].body) == Some(job)
    requires job.chunkIndex <= MAX_INT32 && |vec| == EMBEDDING_DIM
    ensures Ahead(s, steps, r) && StoredOnRecord(s, r, id) && RowHas(r, job, vec)
  {
    hide Run, Ahead, Readable, JobOf, RowHas, HasIt, RecordSound;
    OriginsAreCurrent(s, steps);
    var ready, e := MakeReady(s, steps, id);
    var copy := ready.queue[e].copy;
    var taken, tag := TakeUp(s, steps, ready, e);
    var now := CopyHasJob(s, ready.origin, copy, tag, job);
    var answered := Answered(s, steps, taken, tag, copy, now, vec);
    var written := Written(s, steps, answered, tag, copy, now, vec);
    r := Decides(s, steps, written, tag, copy, now, vec);
    SameRow(r, now, job, vec);
    BooksAhead(s, steps, r);
    assert RecordSound(s, r, Record(tag, copy, Stored(TheChunk(now, vec))));
  }
}
