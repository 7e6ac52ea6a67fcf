/** The whole job protocol as a transition system: producers, the broker's queue, each
    consumer's forwarding goroutines, workers at every point of their handling, and
    the corpus under concurrent ingest. Shutdown, channel loss, lost acknowledgements
    and unconfirmed publishes may strike between any two steps. */
module Protocol {
  import opened Wrappers
  import opened Jobs
  import opened Corpus
  import opened Batching
  import opened BatchOrder
  import opened Evidence
  import opened Environment

  // One queued instance of a job. Retries of a job keep its id.
  datatype Copy = Copy(id: nat, msg: Msg)

  // A message in the broker: ready, or handed out and not yet acknowledged.
  datatype Entry = Entry(copy: Copy, holder: Option<Tag>)

  // Where a handed-out delivery is. `Refused`: its republish was not confirmed.
  datatype Stage = InForwarder | InAdapter | Collected | InFlight | Refused | Decided(outcome: Outcome) | Finished

  // With the worker and not yet decided.
  const HELD := {Collected, InFlight, Refused}

  datatype Handle = Handle(channel: nat, entry: nat, copy: Copy, stage: Stage)

  datatype Channel = Channel(open: bool, cancelled: bool)

  datatype Record = Record(tag: Tag, copy: Copy, outcome: Outcome)

  datatype State = State(
    origin: map<nat, Msg>, confirmed: set<nat>, queue: map<nat, Entry>, handles: map<Tag, Handle>,
    channels: map<nat, Channel>, outcomes: set<Record>, evidence: Evidence, live: Table, staging: Table)

  const EMPTY := State(map[], {}, map[], map[], map[], {}, NOTHING_SEEN, map[], map[])

  datatype Step =
    // A producer publishes; it may see an error although the message was queued.
    | Publish(id: nat, entry: nat, msg: Msg, queued: bool, confirmed: bool)
    | Open(channel: nat)
    | Deliver(entry: nat, channel: nat, tag: Tag)
    | HandOn(tag: Tag)
    // At shutdown a goroutine drops the delivery it holds without settling it.
    | LetGo(tag: Tag)
    | Dispatch(tags: set<Tag>)
    // A provider call for some deliveries, and its answer.
    | Embed(batch: seq<Tag>, answer: Option<seq<Embedding>>)
    // A worker looks at its context and finds it alive.
    | SeeAlive(channel: nat)
    // A bulk write of one table's part of a batch; a failure may have been committed.
    | Write(toStaging: bool, batch: seq<Tag>, chunks: seq<Chunk>, part: seq<Chunk>, after: Table, ok: bool)
    | WriteWhole(tag: Tag, chunk: Chunk, commits: bool, ok: bool)
    | Decide(tag: Tag, outcome: Outcome)
    | Enqueue(tag: Tag, entry: nat, body: string, queued: bool, confirmed: bool)
    // `lost`: the broker never sees the call.
    | Ack(tag: Tag, lost: bool)
    | Nack(tag: Tag, lost: bool)
    | Cancel(channel: nat)
    | Close(channel: nat)
    // Ingest, and the staging table's rebuild and swap.
    | Upsert(toStaging: bool, key: Key, content: string)
    | Delete(fromStaging: bool, keys: set<Key>)
    | CarryForward
    | Swap
    // The delta sync embeds text it read earlier and writes the vector by key alone.
    | EmbedElsewhere(text: string, vec: Embedding)
    | WriteByKey(toStaging: bool, key: Key, vec: Embedding)

  function DeliveryOf(tag: Tag, c: Copy): Delivery {
    Delivery(tag, c.msg)
  }

  function Retry(s: Settings, c: Copy, body: string): Msg {
    Msg(body, c.msg.priority, s.version)
  }

  predicate At(st: State, tag: Tag, stages: set<Stage>) {
    tag in st.handles && st.handles[tag].stage in stages
  }

  predicate Cancelled(st: State, tag: Tag) {
    tag in st.handles && st.handles[tag].channel in st.channels && st.channels[st.handles[tag].channel].cancelled
  }

  predicate AllHeld(st: State, tags: seq<Tag>) {
    forall i :: 0 <= i < |tags| ==> At(st, tags[i], HELD)
  }

  function Deliveries(st: State, tags: seq<Tag>): seq<Delivery>
    requires AllHeld(st, tags)
  {
    seq(|tags|, i requires 0 <= i < |tags| => DeliveryOf(tags[i], st.handles[tags[i]].copy))
  }

  function TableOf(st: State, inStaging: bool): Table {
    if inStaging then st.staging else st.live
  }

  ghost predicate Enabled(s: Settings, st: State, step: Step) {
    match step
    case Publish(id, entry, msg, queued, confirmed) =>
      id !in st.origin && entry !in st.queue && msg.version == s.version
      && (confirmed ==> queued) && (queued ==> msg.priority <= s.maxPriority)
    case Open(ch) => ch !in st.channels
    case Deliver(entry, ch, tag) =>
      entry in st.queue && st.queue[entry].holder == None && tag !in st.handles && ch in st.channels
        && st.channels[ch].open
    case HandOn(tag) => At(st, tag, {InForwarder, InAdapter})
    case LetGo(tag) => At(st, tag, {InForwarder, InAdapter, Collected}) && Cancelled(st, tag)
    case Dispatch(tags) => forall tag :: tag in tags ==> At(st, tag, {Collected})
    case Embed(tags, answer) =>
      AllHeld(st, tags) && forall i :: 0 <= i < |tags| ==> JobOf(s, Deliveries(st, tags)[i]).Some?
    case SeeAlive(ch) => ch in st.channels && !st.channels[ch].cancelled
    case Write(toStaging, tags, chunks, part, after, ok) =>
      && AllHeld(st, tags) && Backed(s, st.evidence, Deliveries(st, tags), chunks)
      && PartFor(chunks, part, toStaging) && MayWrite(TableOf(st, toStaging), part, after, ok)
    case WriteWhole(tag, c, commits, ok) =>
      && At(st, tag, HELD) && BackedOne(s, st.evidence, DeliveryOf(tag, st.handles[tag].copy), c)
      && !c.staging && (ok || commits ==> Fits(c))
    case Decide(tag, o) =>
      At(st, tag, HELD) && !o.Republished? && Truthful(s, DeliveryOf(tag, st.handles[tag].copy), o)
      && Earned(st.evidence, DeliveryOf(tag, st.handles[tag].copy), o)
    case Enqueue(tag, entry, body, queued, confirmed) =>
      At(st, tag, HELD) && entry !in st.queue && tag in st.evidence.counted
      && Truthful(s, DeliveryOf(tag, st.handles[tag].copy), Republished(Retry(s, st.handles[tag].copy, body)))
      && (confirmed ==> queued) && (queued ==> st.handles[tag].copy.msg.priority <= s.maxPriority)
    case Ack(tag, lost) => tag in st.handles && st.handles[tag].stage.Decided?
    case Nack(tag, lost) => At(st, tag, {Refused}) || (At(st, tag, HELD) && Cancelled(st, tag))
    case Cancel(ch) => ch in st.channels
    case Close(ch) => ch in st.channels
    case Upsert(_, _, _) => true
    case Delete(_, _) => true
    case CarryForward => true
    case EmbedElsewhere(_, _) => true
    case WriteByKey(_, _, vec) => exists text :: (text, vec) in st.evidence.given
    case Swap => st.staging != map[] && forall k :: k in st.staging ==> st.staging[k].embedding.Some?
  }

  // A successful write was made; a failed one may have been, if the indices fit.
  ghost predicate MayWrite(before: Table, part: seq<Chunk>, after: Table, ok: bool) {
    (!ok && after == before) || (AllFit(part) && BulkWritten(before, part, after))
  }

  function MoveTo(st: State, tag: Tag, stage: Stage): State
    requires tag in st.handles
  {
    st.(handles := st.handles[tag := st.handles[tag].(stage := stage)])
  }

  function Dispatched(hs: map<Tag, Handle>, tags: set<Tag>): map<Tag, Handle> {
    map tag | tag in hs :: if tag in tags then hs[tag].(stage := InFlight) else hs[tag]
  }

  predicate Holds(st: State, tag: Tag) {
    tag in st.handles && st.handles[tag].entry in st.queue && st.queue[st.handles[tag].entry].holder == Some(tag)
  }

  function Requeue(st: State, ch: nat): map<nat, Entry> {
    map e | e in st.queue ::
      match st.queue[e].holder
      case Some(tag) =>
        if tag in st.handles && st.handles[tag].channel == ch then Entry(st.queue[e].copy, None) else st.queue[e]
      case None => st.queue[e]
  }

  // An ingested row keeps its vector only while its content is unchanged.
  function Upserted(t: Table, key: Key, content: string): Table {
    t[key := if key in t && t[key].content == content then t[key] else Row(content, None)]
  }

  function CarriedForward(live: Table, staging: Table): Table {
    map k | k in staging ::
      if k in live && live[k].content == staging[k].content && live[k].embedding.Some? then live[k] else staging[k]
  }

  // What a step does to everything but the tables.
  ghost function Moved(s: Settings, st: State, step: Step): State
    requires Enabled(s, st, step)
  {
    match step
    case Publish(id, entry, msg, queued, confirmed) =>
      var st1 := st.(origin := st.origin[id := msg],
                     confirmed := if confirmed then st.confirmed + {id} else st.confirmed);
      if queued then st1.(queue := st1.queue[entry := Entry(Copy(id, msg), None)]) else st1
    case Open(ch) => st.(channels := st.channels[ch := Channel(true, false)])
    case Deliver(entry, ch, tag) =>
      var copy := st.queue[entry].copy;
      st.(queue := st.queue[entry := Entry(copy, Some(tag))],
          handles := st.handles[tag := Handle(ch, entry, copy, InForwarder)])
    case HandOn(tag) => MoveTo(st, tag, if st.handles[tag].stage == InForwarder then InAdapter else Collected)
    case LetGo(tag) => MoveTo(st, tag, Finished)
    case Dispatch(tags) =>
      st.(handles := Dispatched(st.handles, tags))
    case Decide(tag, o) =>
      MoveTo(st, tag, Decided(o)).(outcomes := st.outcomes + {Record(tag, st.handles[tag].copy, o)})
    case Enqueue(tag, entry, body, queued, confirmed) =>
      var copy := st.handles[tag].copy;
      var msg := Retry(s, copy, body);
      var st1 := MoveTo(st, tag, if confirmed then Decided(Republished(msg)) else Refused);
      if queued then st1.(queue := st1.queue[entry := Entry(Copy(copy.id, msg), None)]) else st1
    case Ack(tag, lost) =>
      var st1 := MoveTo(st, tag, Finished);
      if Holds(st, tag) && !lost then st1.(queue := st.queue - {st.handles[tag].entry}) else st1
    case Nack(tag, lost) =>
      var st1 := MoveTo(st, tag, Finished);
      var e := st.handles[tag].entry;
      if Holds(st, tag) && !lost then st1.(queue := st.queue[e := Entry(st.queue[e].copy, None)]) else st1
    case Cancel(ch) => st.(channels := st.channels[ch := st.channels[ch].(cancelled := true)])
    case Close(ch) => st.(channels := st.channels[ch := st.channels[ch].(open := false)], queue := Requeue(st, ch))
    case _ => st
  }

  function WithTable(tables: (Table, Table), inStaging: bool, t: Table): (Table, Table) {
    if inStaging then (tables.0, t) else (t, tables.1)
  }

  // The live and the staging table after a step.
  function Tables(st: State, step: Step): (Table, Table) {
    var now := (st.live, st.staging);
    match step
    case Write(toStaging, _, _, _, after, _) => WithTable(now, toStaging, after)
    case WriteWhole(_, c, commits, ok) => if ok || commits then (UpsertedWhole(st.live, c), st.staging) else now
    case WriteByKey(toStaging, key, vec) => WithTable(now, toStaging, WrittenByKey(TableOf(st, toStaging), key, vec))
    case Upsert(toStaging, key, content) => WithTable(now, toStaging, Upserted(TableOf(st, toStaging), key, content))
    case Delete(fromStaging, keys) => WithTable(now, fromStaging, TableOf(st, fromStaging) - keys)
    case CarryForward => (st.live, CarriedForward(st.live, st.staging))
    case Swap => (st.staging, map[])
    case _ => now
  }

  function HeldOn(st: State, ch: nat): set<Tag> {
    set tag | tag in st.handles && st.handles[tag].channel == ch && st.handles[tag].stage in HELD
  }

  // What is known after a step.
  ghost function Seen(s: Settings, st: State, step: Step): Evidence
    requires Enabled(s, st, step)
  {
    match step
    case Embed(tags, answer) => AfterEmbed(s, st.evidence, Deliveries(st, tags), answer)
    case SeeAlive(ch) => AfterAlive(st.evidence, HeldOn(st, ch))
    case Write(_, tags, _, part, _, ok) => AfterWrite(st.evidence, Tags(Deliveries(st, tags)), part, ok)
    case WriteWhole(tag, c, _, ok) => AfterWrite(st.evidence, {tag}, [c], ok)
    case Enqueue(tag, _, body, _, confirmed) =>
      if confirmed then st.evidence.(sent := st.evidence.sent + {Retry(s, st.handles[tag].copy, body)}) else st.evidence
    case EmbedElsewhere(text, vec) => st.evidence.(given := st.evidence.given + {(text, vec)})
    case _ => st.evidence
  }

  ghost function Do(s: Settings, st: State, step: Step): State
    requires Enabled(s, st, step)
  {
    Moved(s, st, step).(evidence := Seen(s, st, step), live := Tables(st, step).0, staging := Tables(st, step).1)
  }

  // The state after a run; None if some step was not enabled.
  ghost function Run(s: Settings, steps: seq<Step>): Option<State> {
    if steps == [] then Some(EMPTY) else
      match Run(s, steps[..|steps| - 1])
      case Some(st) =>
        if Enabled(s, st, steps[|steps| - 1]) then Some(Do(s, st, steps[|steps| - 1])) else None
      case None => None
  }

  // ---------- Invariants ----------

  // Unreadable messages count as attempt -1; they are never retried.
  function AttemptOf(s: Settings, msg: Msg): int {
    match Readable(s, msg.body)
    case Some(job) => job.attempt
    case None => -1
  }

  // `msg` is the published message or one of its retries: same payload, same priority,
  // a higher attempt that stays within the budget.
  ghost predicate InLineage(s: Settings, origin: Msg, msg: Msg) {
    msg == origin ||
    (&& Readable(s, origin.body).Some? && Readable(s, msg.body).Some?
     && SamePayload(Readable(s, msg.body).value, Readable(s, origin.body).value)
     && AttemptOf(s, origin) < AttemptOf(s, msg) < s.maxAttempts
     && msg.priority == origin.priority && msg.version == s.version)
  }

  ghost predicate Genuine(s: Settings, origin: map<nat, Msg>, c: Copy) {
    c.id in origin && InLineage(s, origin[c.id], c.msg)
  }

  ghost predicate HasOutcome(st: State, id: nat) {
    exists r :: r in st.outcomes && r.copy.id == id
  }

  // A copy beyond the given attempt is in the broker, or the job's fate is recorded.
  ghost predicate Covered(s: Settings, st: State, id: nat, beyond: int) {
    (exists e :: e in st.queue && st.queue[e].copy.id == id && AttemptOf(s, st.queue[e].copy.msg) > beyond)
    || HasOutcome(st, id)
  }

  ghost predicate QueueSound(s: Settings, st: State) {
    forall e :: e in st.queue ==>
      && Genuine(s, st.origin, st.queue[e].copy)
      && st.queue[e].copy.msg.priority <= s.maxPriority
      && (st.queue[e].holder.Some? ==> HeldBy(st, e, st.queue[e].holder.value))
  }

  // The holder of a message is the delivery made from it, on an open channel.
  ghost predicate HeldBy(st: State, e: nat, tag: Tag)
    requires e in st.queue
  {
    && tag in st.handles && st.handles[tag].entry == e && st.handles[tag].copy == st.queue[e].copy
    && st.handles[tag].channel in st.channels && st.channels[st.handles[tag].channel].open
  }

  ghost predicate HandleSound(s: Settings, st: State, tag: Tag, h: Handle) {
    && Genuine(s, st.origin, h.copy)
    && (h.stage.Decided? && !h.stage.outcome.Republished? ==> Record(tag, h.copy, h.stage.outcome) in st.outcomes)
    && (h.stage.Decided? && h.stage.outcome.Republished? ==> Covered(s, st, h.copy.id, AttemptOf(s, h.copy.msg)))
  }

  ghost predicate HandlesSound(s: Settings, st: State) {
    forall tag :: tag in st.handles ==> HandleSound(s, st, tag, st.handles[tag])
  }

  ghost predicate RecordsSound(s: Settings, st: State) {
    forall r :: r in st.outcomes ==> RecordSound(s, st, r)
  }

  // A true and earned outcome of a delivery of the job or of one of its retries.
  ghost predicate RecordSound(s: Settings, st: State, r: Record) {
    && r.tag in st.handles && st.handles[r.tag].copy == r.copy && Genuine(s, st.origin, r.copy)
    && !r.outcome.Republished? && Truthful(s, DeliveryOf(r.tag, r.copy), r.outcome)
    && Earned(st.evidence, DeliveryOf(r.tag, r.copy), r.outcome)
  }

  ghost predicate NothingLost(s: Settings, st: State) {
    forall id :: id in st.confirmed ==> id in st.origin && Covered(s, st, id, -2)
  }

  ghost predicate Books(s: Settings, st: State) {
    QueueSound(s, st) && HandlesSound(s, st) && RecordsSound(s, st) && NothingLost(s, st)
  }

  // ---------- Covers survive ----------

  // Every message keeps its copy, and records are kept.
  ghost predicate KeepsCopies(a: State, b: State) {
    && (forall e :: e in a.queue ==> e in b.queue && b.queue[e].copy == a.queue[e].copy)
    && a.outcomes <= b.outcomes
  }

  lemma KeptCover(s: Settings, a: State, b: State, id: nat, beyond: int)
    requires KeepsCopies(a, b) && Covered(s, a, id, beyond)
    ensures Covered(s, b, id, beyond)
  {
    if HasOutcome(a, id) {
      var r :| r in a.outcomes && r.copy.id == id;
      assert r in b.outcomes;
    } else {
      var e :| e in a.queue && a.queue[e].copy.id == id && AttemptOf(s, a.queue[e].copy.msg) > beyond;
      assert e in b.queue;
    }
  }

  /** An acknowledged message is covered by its recorded outcome or by a later retry. */
  lemma AckKeepsCover(s: Settings, a: State, tag: Tag, b: State, id: nat, beyond: int)
    requires HandlesSound(s, a) && QueueSound(s, a) && Holds(a, tag) && a.handles[tag].stage.Decided?
    requires b.queue == a.queue - {a.handles[tag].entry} && b.outcomes == a.outcomes
    requires Covered(s, a, id, beyond)
    ensures Covered(s, b, id, beyond)
  {
    var h := a.handles[tag];
    assert HandleSound(s, a, tag, h) && HeldBy(a, h.entry, tag);
    if HasOutcome(a, id) {
      var r :| r in a.outcomes && r.copy.id == id;
      assert r in b.outcomes;
    } else {
      var e :| e in a.queue && a.queue[e].copy.id == id && AttemptOf(s, a.queue[e].copy.msg) > beyond;
      if e != h.entry {
        assert e in b.queue;
      } else {
        var e' :| e' in a.queue && a.queue[e'].copy.id == id
          && AttemptOf(s, a.queue[e'].copy.msg) > AttemptOf(s, h.copy.msg);
        assert e' in b.queue;
      }
    }
  }

  lemma RetryIsNext(s: Settings, origin: map<nat, Msg>, tag: Tag, c: Copy, body: string)
    requires Lossless(s.codec) && Genuine(s, origin, c)
    requires Truthful(s, DeliveryOf(tag, c), Republished(Retry(s, c, body)))
    ensures Genuine(s, origin, Copy(c.id, Retry(s, c, body)))
    ensures AttemptOf(s, Retry(s, c, body)) > AttemptOf(s, c.msg)
  {
    var job := JobOf(s, DeliveryOf(tag, c)).value;
    RepublishIsNextAttempt(s, job);
  }

  // ---------- Tables ----------

  predicate TouchesTables(step: Step) {
    || step.Write? || step.WriteWhole? || step.Upsert? || step.Delete? || step.CarryForward? || step.Swap?
    || step.WriteByKey?
  }

  // A step that is not a move in the broker or a worker.
  predicate Quiet(step: Step) {
    step.Open? || step.Cancel? || step.Embed? || step.SeeAlive? || step.EmbedElsewhere? || TouchesTables(step)
  }

  ghost predicate AllHonest(st: State) {
    Honest(st.evidence.given, st.live) && Honest(st.evidence.given, st.staging)
  }

  // The row no longer carries a text the vector was computed from.
  ghost predicate Mislabels(st: State, step: Step) {
    && step.WriteByKey? && step.key in TableOf(st, step.toStaging)
    && (TableOf(st, step.toStaging)[step.key].content, step.vec) !in st.evidence.given
  }

  lemma CallGrows(s: Settings, st: State, step: Step)
    requires Enabled(s, st, step) && (step.Embed? || step.SeeAlive? || step.Write? || step.WriteWhole?)
    ensures Grows(st.evidence, Seen(s, st, step))
  {
    hide AfterEmbed, AfterWrite, AfterAlive, Backed, BackedOne, MayWrite, PartFor, HeldOn, Grows, JobOf, Deliveries;
    var ev := st.evidence;
    match step {
      case Embed(batch, answer) => EveryCallGrows(s, ev, Deliveries(st, batch), answer, {}, [], true, NO_MSG);
      case SeeAlive(ch) => EveryCallGrows(s, ev, [], None, HeldOn(st, ch), [], true, NO_MSG);
      case Write(_, batch, _, part, _, ok) =>
        EveryCallGrows(s, ev, [], None, Tags(Deliveries(st, batch)), part, ok, NO_MSG);
      case WriteWhole(tag, c, _, ok) => EveryCallGrows(s, ev, [], None, {tag}, [c], ok, NO_MSG);
    }
  }

  lemma SeenGrows(s: Settings, st: State, step: Step)
    requires Enabled(s, st, step)
    ensures Grows(st.evidence, Seen(s, st, step))
  {
    hide Enabled, AfterEmbed, AfterWrite, AfterAlive;
    if step.Embed? || step.SeeAlive? || step.Write? || step.WriteWhole? { CallGrows(s, st, step); }
  }

  const NO_MSG := Msg("", 0, "")

  lemma SameGrows(ev: Evidence)
    ensures Grows(ev, ev)
  {
  }

  lemma HonestLater(a: Evidence, b: Evidence, t: Table)
    requires Honest(a.given, t) && Grows(a, b)
    ensures Honest(b.given, t)
  {
  }

  lemma WriteHonest(s: Settings, st: State, step: Step)
    requires step.Write? && Enabled(s, st, step) && Honest(st.evidence.given, TableOf(st, step.toStaging))
    ensures Honest(st.evidence.given, step.after)
  {
    match step case Write(toStaging, tags, chunks, part, after, ok) =>
      PartIsGiven(s, st.evidence, Deliveries(st, tags), chunks, part, toStaging);
      if AllFit(part) && BulkWritten(TableOf(st, toStaging), part, after) {
        BulkWriteKeepsHonest(st.evidence.given, TableOf(st, toStaging), part, after);
      }
  }

  lemma WholeHonest(given: Given, t: Table, c: Chunk)
    requires Honest(given, t) && (c.content, c.embedding) in given
    ensures Honest(given, UpsertedWhole(t, c))
  {
  }

  lemma IngestHonest(given: Given, live: Table, staging: Table)
    requires Honest(given, live) && Honest(given, staging)
    ensures forall key, content ::
      Honest(given, Upserted(live, key, content)) && Honest(given, Upserted(staging, key, content))
    ensures forall keys: set<Key> :: Honest(given, live - keys) && Honest(given, staging - keys)
    ensures Honest(given, CarriedForward(live, staging)) && Honest(given, map[])
  {
  }

  /** What ingest, deletion, carry-forward and swap do to every row. */
  lemma IngestSays(s: Settings, st: State, step: Step, k: Key)
    requires Enabled(s, st, step)
    ensures var r := Do(s, st, step);
      match step
      case Upsert(toStaging, key, content) =>
        var t, t' := TableOf(st, toStaging), TableOf(r, toStaging);
        && TableOf(r, !toStaging) == TableOf(st, !toStaging)
        && (k in t' <==> k in t || k == key) && (k != key && k in t ==> t'[k] == t[k])
        && t'[key].content == content
        && t'[key].embedding == if key in t && t[key].content == content then t[key].embedding else None
      case Delete(fromStaging, keys) =>
        var t, t' := TableOf(st, fromStaging), TableOf(r, fromStaging);
        && TableOf(r, !fromStaging) == TableOf(st, !fromStaging)
        && (k in t' <==> k in t && k !in keys) && (k in t' ==> t'[k] == t[k])
      case CarryForward =>
        var t, t', live := st.staging, r.staging, st.live;
        && r.live == live && t'.Keys == t.Keys
        && (k in t ==> t'[k].content == t[k].content)
        && (k in t && k in live && live[k].content == t[k].content && live[k].embedding.Some? ==>
              t'[k].embedding == live[k].embedding)
        && (k in t && !(k in live && live[k].content == t[k].content && live[k].embedding.Some?) ==>
              t'[k].embedding == t[k].embedding)
      case Swap => r.live == st.staging && r.staging == map[]
      case _ => true
  {
    hide Moved, Seen;
  }

  lemma TablesHonestIff(s: Settings, st: State, step: Step)
    requires AllHonest(st) && Enabled(s, st, step)
    ensures var given := st.evidence.given;
      Honest(given, Tables(st, step).0) && Honest(given, Tables(st, step).1) <==> !Mislabels(st, step)
  {
    assert step.WriteWhole? ==> (step.chunk.content, step.chunk.embedding) in st.evidence.given;
    hide Honest, Enabled, Upserted, CarriedForward, UpsertedWhole, WrittenByKey;
    var given := st.evidence.given;
    IngestHonest(given, st.live, st.staging);
    if step.Write? {
      WriteHonest(s, st, step);
    } else if step.WriteWhole? {
      WholeHonest(given, st.live, step.chunk);
    } else if step.WriteByKey? {
      WriteByKeyKeepsHonestIff(given, TableOf(st, step.toStaging), step.key, step.vec);
    }
  }

  /** A step leaves no vector on text it was not computed from, exactly unless it writes
      one by key onto a row whose text has changed since: worker writes, ingest,
      carry-forward, deletion and swap never do. */
  lemma StepHonestIff(s: Settings, st: State, step: Step)
    requires AllHonest(st) && Enabled(s, st, step)
    ensures AllHonest(Do(s, st, step)) <==> !Mislabels(st, step)
  {
    TablesHonestIff(s, st, step);
    SeenGrows(s, st, step);
    hide Honest, Enabled, Tables, Moved, Mislabels;
    var b := Do(s, st, step);
    if !Mislabels(st, step) {
      HonestLater(st.evidence, b.evidence, b.live);
      HonestLater(st.evidence, b.evidence, b.staging);
    } else {
      MislabelSeesNothing(s, st, step);
    }
  }

  lemma MislabelSeesNothing(s: Settings, st: State, step: Step)
    requires Enabled(s, st, step) && Mislabels(st, step)
    ensures Seen(s, st, step) == st.evidence
  {
  }

  // No step of the run mislabels a row.
  ghost predicate Careful(s: Settings, steps: seq<Step>) {
    forall i :: 0 <= i < |steps| && Run(s, steps[..i]).Some? ==> !Mislabels(Run(s, steps[..i]).value, steps[i])
  }

  /** In a run that never writes by key onto changed text, no vector ever sits on text it
      was not computed from, whatever the interleaving. */
  lemma {:induction false} TablesStayHonest(s: Settings, steps: seq<Step>)
    requires Run(s, steps).Some? && Careful(s, steps)
    ensures AllHonest(Run(s, steps).value)
  {
    if steps != [] {
      hide Enabled, Do, Mislabels, AllHonest;
      var n := |steps| - 1;
      forall i | 0 <= i < n ensures steps[..n][..i] == steps[..i] && steps[..n][i] == steps[i] {}
      TablesStayHonest(s, steps[..n]);
      StepHonestIff(s, Run(s, steps[..n]).value, steps[n]);
    }
  }

  // ---------- Every step keeps the broker's books ----------

  ghost predicate KeepsHandles(a: State, b: State) {
    forall tag :: tag in a.handles ==> tag in b.handles && b.handles[tag].copy == a.handles[tag].copy
  }

  ghost predicate KeepsOrigins(a: State, b: State) {
    forall id :: id in a.origin ==> id in b.origin && b.origin[id] == a.origin[id]
  }

  // b has everything a knows of, and the same records and confirmations.
  ghost predicate Extends(a: State, b: State) {
    && KeepsCopies(a, b) && KeepsHandles(a, b) && KeepsOrigins(a, b)
    && b.confirmed == a.confirmed && a.outcomes == b.outcomes && Grows(a.evidence, b.evidence)
  }

  lemma ExtendedRecord(s: Settings, a: State, b: State, r: Record)
    requires RecordSound(s, a, r) && KeepsHandles(a, b) && KeepsOrigins(a, b) && Grows(a.evidence, b.evidence)
    ensures RecordSound(s, b, r)
  {
    hide Truthful, InLineage, Earned, Grows;
    EarnedLater(a.evidence, b.evidence, DeliveryOf(r.tag, r.copy), r.outcome);
  }

  lemma ExtendedBooks(s: Settings, a: State, b: State)
    requires RecordsSound(s, a) && NothingLost(s, a) && Extends(a, b)
    ensures RecordsSound(s, b) && NothingLost(s, b)
  {
    hide RecordSound, KeepsHandles, Covered, Grows;
    forall id | id in b.confirmed ensures id in b.origin && Covered(s, b, id, -2) {
      KeptCover(s, a, b, id, -2);
    }
    forall r | r in b.outcomes ensures RecordSound(s, b, r) { ExtendedRecord(s, a, b, r); }
  }

  lemma ExtendedHandle(s: Settings, a: State, b: State, tag: Tag, h: Handle)
    requires HandleSound(s, a, tag, h) && Extends(a, b)
    ensures HandleSound(s, b, tag, h)
  {
    if h.stage.Decided? && h.stage.outcome.Republished? { KeptCover(s, a, b, h.copy.id, AttemptOf(s, h.copy.msg)); }
    hide KeepsCopies, KeepsHandles, Covered, InLineage, Grows;
  }

  lemma ExtendedHandles(s: Settings, a: State, b: State)
    requires HandlesSound(s, a) && Extends(a, b)
    ensures forall tag :: tag in a.handles ==> HandleSound(s, b, tag, a.handles[tag])
  {
    hide HandleSound, Extends;
    forall tag | tag in a.handles ensures HandleSound(s, b, tag, a.handles[tag]) {
      ExtendedHandle(s, a, b, tag, a.handles[tag]);
    }
  }

  // One handle changes its stage.
  lemma RestageKeeps(s: Settings, a: State, tag: Tag, stage: Stage)
    requires Books(s, a) && tag in a.handles && HandleSound(s, a, tag, a.handles[tag].(stage := stage))
    ensures Books(s, MoveTo(a, tag, stage))
  {
    var b := MoveTo(a, tag, stage);
    hide InLineage, AttemptOf, Covered, RecordSound, RecordsSound, NothingLost, HandleSound;
    ExtendedBooks(s, a, b);
    ExtendedHandle(s, a, b, tag, a.handles[tag].(stage := stage));
    ExtendedHandles(s, a, b);
  }

  // To one that is neither decided nor sure of anything.
  lemma StageKeeps(s: Settings, a: State, tag: Tag, stage: Stage)
    requires Books(s, a) && tag in a.handles && !stage.Decided?
    ensures Books(s, MoveTo(a, tag, stage))
  {
    assert HandleSound(s, a, tag, a.handles[tag]);
    hide Genuine, QueueSound, RecordsSound, NothingLost;
    RestageKeeps(s, a, tag, stage);
  }

  lemma DispatchKeeps(s: Settings, a: State, tags: set<Tag>, b: State)
    requires Books(s, a)
    requires b == a.(handles := Dispatched(a.handles, tags))
    ensures Books(s, b)
  {
    hide InLineage, AttemptOf, Truthful, Covered, RecordsSound, NothingLost;
    ExtendedBooks(s, a, b);
    ExtendedHandles(s, a, b);
  }

  lemma DeliverKeeps(s: Settings, a: State, entry: nat, ch: nat, tag: Tag, b: State)
    requires Books(s, a) && entry in a.queue && tag !in a.handles && ch in a.channels && a.channels[ch].open
    requires var copy := a.queue[entry].copy;
             b == a.(queue := a.queue[entry := Entry(copy, Some(tag))],
                     handles := a.handles[tag := Handle(ch, entry, copy, InForwarder)])
    ensures Books(s, b)
  {
    hide InLineage, AttemptOf, Truthful, Covered, RecordsSound, NothingLost;
    ExtendedBooks(s, a, b);
    ExtendedHandles(s, a, b);
  }

  lemma AddKeeps(s: Settings, a: State, entry: nat, c: Copy, b: State)
    requires Books(s, a) && entry !in a.queue && Genuine(s, a.origin, c) && c.msg.priority <= s.maxPriority
    requires b == a.(queue := a.queue[entry := Entry(c, None)])
    ensures Books(s, b) && forall beyond :: AttemptOf(s, c.msg) > beyond ==> Covered(s, b, c.id, beyond)
  {
    hide InLineage, AttemptOf, Truthful;
    ExtendedBooks(s, a, b);
    ExtendedHandles(s, a, b);
    assert b.queue[entry].copy == c;
    hide RecordsSound, NothingLost;
  }

  lemma OriginKeeps(s: Settings, a: State, id: nat, msg: Msg, b: State)
    requires Books(s, a) && id !in a.origin && b == a.(origin := a.origin[id := msg])
    ensures Books(s, b)
  {
    ExtendedBooks(s, a, b);
    ExtendedHandles(s, a, b);
    hide InLineage, AttemptOf, Truthful, Covered, RecordsSound, NothingLost;
  }

  lemma ConfirmationKeeps(s: Settings, a: State, id: nat, b: State)
    requires Books(s, a) && id in a.origin && Covered(s, a, id, -2) && b == a.(confirmed := a.confirmed + {id})
    ensures Books(s, b)
  {
    SameCovers(s, a, b);
    hide InLineage, AttemptOf, Truthful, Covered;
  }

  lemma PublishKeeps(s: Settings, a: State, id: nat, entry: nat, msg: Msg, queued: bool, confirmed: bool, b: State)
    requires Books(s, a) && id !in a.origin && entry !in a.queue
    requires (confirmed ==> queued) && (queued ==> msg.priority <= s.maxPriority)
    requires var a1 := a.(origin := a.origin[id := msg]);
             var a2 := if queued then a1.(queue := a.queue[entry := Entry(Copy(id, msg), None)]) else a1;
             b == if confirmed then a2.(confirmed := a.confirmed + {id}) else a2
    ensures Books(s, b)
  {
    var a1 := a.(origin := a.origin[id := msg]);
    assert Genuine(s, a1.origin, Copy(id, msg)) && AttemptOf(s, msg) > -2;
    hide InLineage, AttemptOf, Truthful, Covered, Books, Genuine;
    OriginKeeps(s, a, id, msg, a1);
    if queued {
      var a2 := a1.(queue := a.queue[entry := Entry(Copy(id, msg), None)]);
      AddKeeps(s, a1, entry, Copy(id, msg), a2);
      if confirmed { ConfirmationKeeps(s, a2, id, b); }
    }
  }

  lemma SameCovers(s: Settings, a: State, b: State)
    requires a.queue == b.queue && a.outcomes == b.outcomes
    ensures forall id, beyond :: Covered(s, a, id, beyond) ==> Covered(s, b, id, beyond)
  {
    forall id, beyond | Covered(s, a, id, beyond) ensures Covered(s, b, id, beyond) { KeptCover(s, a, b, id, beyond); }
  }

  lemma RecordKeeps(s: Settings, a: State, r: Record, b: State)
    requires Books(s, a) && RecordSound(s, a, r) && b == a.(outcomes := a.outcomes + {r})
    ensures Books(s, b)
  {
    hide InLineage, AttemptOf;
    SameGrows(a.evidence);
    forall id, beyond | Covered(s, a, id, beyond) ensures Covered(s, b, id, beyond) { KeptCover(s, a, b, id, beyond); }
    forall r' | r' in b.outcomes ensures RecordSound(s, b, r') { ExtendedRecord(s, a, b, r'); }
    hide Covered, Genuine, RecordSound, Grows;
  }

  lemma DecideKeeps(s: Settings, a: State, tag: Tag, o: Outcome, b: State)
    requires Books(s, a) && tag in a.handles && !o.Republished?
    requires Truthful(s, DeliveryOf(tag, a.handles[tag].copy), o)
    requires Earned(a.evidence, DeliveryOf(tag, a.handles[tag].copy), o)
    requires b == MoveTo(a, tag, Decided(o)).(outcomes := a.outcomes + {Record(tag, a.handles[tag].copy, o)})
    ensures Books(s, b)
  {
    var r := Record(tag, a.handles[tag].copy, o);
    var b' := a.(outcomes := a.outcomes + {r});
    assert HandleSound(s, a, tag, a.handles[tag]);
    hide Truthful, Earned, QueueSound, RecordsSound, NothingLost, Genuine;
    RecordKeeps(s, a, r, b');
    RestageKeeps(s, b', tag, Decided(o));
  }

  lemma ConfirmKeeps(s: Settings, a: State, tag: Tag, msg: Msg)
    requires Books(s, a) && tag in a.handles
    requires Covered(s, a, a.handles[tag].copy.id, AttemptOf(s, a.handles[tag].copy.msg))
    ensures Books(s, MoveTo(a, tag, Decided(Republished(msg))))
  {
    assert HandleSound(s, a, tag, a.handles[tag]);
    hide Genuine, Covered, QueueSound, RecordsSound, NothingLost;
    RestageKeeps(s, a, tag, Decided(Republished(msg)));
  }

  lemma EnqueueKeeps(s: Settings, a: State, tag: Tag, entry: nat, body: string, queued: bool, confirmed: bool, b: State)
    requires Books(s, a) && Lossless(s.codec) && tag in a.handles && entry !in a.queue
    requires Truthful(s, DeliveryOf(tag, a.handles[tag].copy), Republished(Retry(s, a.handles[tag].copy, body)))
    requires (confirmed ==> queued) && (queued ==> a.handles[tag].copy.msg.priority <= s.maxPriority)
    requires var copy := a.handles[tag].copy;
             var msg := Retry(s, copy, body);
             var a1 := MoveTo(a, tag, if confirmed then Decided(Republished(msg)) else Refused);
             b == if queued then a1.(queue := a.queue[entry := Entry(Copy(copy.id, msg), None)]) else a1
    ensures Books(s, b)
  {
    var copy := a.handles[tag].copy;
    var msg := Retry(s, copy, body);
    assert HandleSound(s, a, tag, a.handles[tag]);
    RetryIsNext(s, a.origin, tag, copy, body);
    hide InLineage, AttemptOf, Truthful, Books, Covered;
    var added := if queued then a.(queue := a.queue[entry := Entry(Copy(copy.id, msg), None)]) else a;
    if queued { AddKeeps(s, a, entry, Copy(copy.id, msg), added); }
    if confirmed { ConfirmKeeps(s, added, tag, msg); } else { StageKeeps(s, added, tag, Refused); }
  }

  lemma AckKeeps(s: Settings, a: State, tag: Tag, b: State)
    requires Books(s, a) && tag in a.handles && a.handles[tag].stage.Decided? && Holds(a, tag)
    requires b == MoveTo(a, tag, Finished).(queue := a.queue - {a.handles[tag].entry})
    ensures Books(s, b)
  {
    hide InLineage, AttemptOf, Truthful;
    forall id, beyond | Covered(s, a, id, beyond) ensures Covered(s, b, id, beyond) {
      AckKeepsCover(s, a, tag, b, id, beyond);
    }
    hide Covered;
    assert QueueSound(s, b) by {
      forall e | e in b.queue ensures e in a.queue && b.queue[e] == a.queue[e] && e != a.handles[tag].entry {}
    }
  }

  lemma NackKeeps(s: Settings, a: State, tag: Tag, b: State)
    requires Books(s, a) && tag in a.handles && Holds(a, tag)
    requires var e := a.handles[tag].entry;
             b == MoveTo(a, tag, Finished).(queue := a.queue[e := Entry(a.queue[e].copy, None)])
    ensures Books(s, b)
  {
    hide InLineage, AttemptOf, Truthful, Covered, RecordsSound, NothingLost;
    ExtendedBooks(s, a, b);
    ExtendedHandles(s, a, b);
  }

  lemma Requeued(a: State, ch: nat, e: nat)
    requires e in a.queue
    ensures e in Requeue(a, ch) && Requeue(a, ch)[e].copy == a.queue[e].copy
    ensures Requeue(a, ch)[e].holder.Some? ==> Requeue(a, ch)[e] == a.queue[e]
    ensures Requeue(a, ch)[e].holder.Some? && a.queue[e].holder.value in a.handles ==>
      a.handles[a.queue[e].holder.value].channel != ch
  {
  }

  lemma EntrySurvivesClose(s: Settings, a: State, ch: nat, b: State, e: nat)
    requires QueueSound(s, a) && ch in a.channels && e in b.queue
    requires b == a.(channels := a.channels[ch := a.channels[ch].(open := false)], queue := Requeue(a, ch))
    ensures e in a.queue && b.queue[e].copy == a.queue[e].copy
    ensures b.queue[e].holder.Some? ==> HeldBy(b, e, b.queue[e].holder.value)
  {
    hide InLineage;
    assert e in a.queue;
    Requeued(a, ch, e);
    if b.queue[e].holder.Some? { assert HeldBy(a, e, a.queue[e].holder.value); }
  }

  lemma CloseKeepsQueue(s: Settings, a: State, ch: nat, b: State)
    requires QueueSound(s, a) && ch in a.channels
    requires b == a.(channels := a.channels[ch := a.channels[ch].(open := false)], queue := Requeue(a, ch))
    ensures QueueSound(s, b)
  {
    forall e | e in b.queue
      ensures e in a.queue && b.queue[e].copy == a.queue[e].copy
      ensures b.queue[e].holder.Some? ==> HeldBy(b, e, b.queue[e].holder.value)
    {
      EntrySurvivesClose(s, a, ch, b, e);
    }
    hide InLineage, HeldBy, Requeue;
  }

  lemma CloseExtends(a: State, ch: nat, b: State)
    requires ch in a.channels
    requires b == a.(channels := a.channels[ch := a.channels[ch].(open := false)], queue := Requeue(a, ch))
    ensures Extends(a, b)
  {
    forall e | e in a.queue ensures e in b.queue && b.queue[e].copy == a.queue[e].copy { Requeued(a, ch, e); }
    hide Requeue;
  }

  /** Closing a channel returns everything it holds to the queue. */
  lemma CloseKeeps(s: Settings, a: State, ch: nat, b: State)
    requires Books(s, a) && ch in a.channels
    requires b == a.(channels := a.channels[ch := a.channels[ch].(open := false)], queue := Requeue(a, ch))
    ensures Books(s, b)
  {
    hide QueueSound, RecordsSound, NothingLost, HandleSound, Requeue, Extends;
    CloseKeepsQueue(s, a, ch, b);
    CloseExtends(a, ch, b);
    ExtendedBooks(s, a, b);
    ExtendedHandles(s, a, b);
  }

  // Only the tables, the evidence or a channel's flags change.
  lemma QuietKeeps(s: Settings, a: State, b: State)
    requires Books(s, a) && Grows(a.evidence, b.evidence)
    requires b == a.(live := b.live, staging := b.staging, evidence := b.evidence, channels := b.channels)
    requires forall ch :: ch in a.channels ==> ch in b.channels && b.channels[ch].open == a.channels[ch].open
    ensures Books(s, b)
  {
    hide InLineage, AttemptOf, Covered, RecordSound, RecordsSound, NothingLost, Grows;
    ExtendedBooks(s, a, b);
    ExtendedHandles(s, a, b);
  }

  lemma JobStepKeeps(s: Settings, st: State, step: Step)
    requires Lossless(s.codec) && Books(s, st) && Enabled(s, st, step)
    requires step.Publish? || step.Decide? || step.Enqueue?
    ensures Books(s, Moved(s, st, step))
  {
    hide Books, Truthful;
    var b := Moved(s, st, step);
    match step {
      case Publish(id, entry, msg, queued, confirmed) => PublishKeeps(s, st, id, entry, msg, queued, confirmed, b);
      case Decide(tag, o) => DecideKeeps(s, st, tag, o, b);
      case Enqueue(tag, entry, body, queued, confirmed) => EnqueueKeeps(s, st, tag, entry, body, queued, confirmed, b);
    }
  }

  lemma HandOverKeeps(s: Settings, st: State, step: Step)
    requires Books(s, st) && Enabled(s, st, step)
    requires step.Deliver? || step.HandOn? || step.LetGo? || step.Dispatch?
    ensures Books(s, Moved(s, st, step))
  {
    hide Books;
    var b := Moved(s, st, step);
    match step {
      case Deliver(entry, ch, tag) => DeliverKeeps(s, st, entry, ch, tag, b);
      case HandOn(tag) => StageKeeps(s, st, tag, b.handles[tag].stage);
      case LetGo(tag) => StageKeeps(s, st, tag, Finished);
      case Dispatch(tags) => DispatchKeeps(s, st, tags, b);
    }
  }

  lemma SettlementKeeps(s: Settings, st: State, step: Step)
    requires Books(s, st) && Enabled(s, st, step) && (step.Ack? || step.Nack?)
    ensures Books(s, Moved(s, st, step))
  {
    hide Books;
    var b := Moved(s, st, step);
    if !Holds(st, step.tag) || step.lost {
      StageKeeps(s, st, step.tag, Finished);
    } else if step.Ack? {
      AckKeeps(s, st, step.tag, b);
    } else {
      NackKeeps(s, st, step.tag, b);
    }
  }

  lemma ChannelStepKeeps(s: Settings, st: State, step: Step)
    requires Books(s, st) && Enabled(s, st, step) && (step.Close? || Quiet(step))
    ensures Books(s, Moved(s, st, step))
  {
    hide Books, Requeue, Truthful, Earned, Backed, BackedOne, MayWrite, PartFor, JobOf;
    var b := Moved(s, st, step);
    if step.Close? {
      CloseKeeps(s, st, step.channel, b);
    } else {
      SameGrows(st.evidence);
      QuietKeeps(s, st, b);
    }
  }

  lemma StepKeepsBooks(s: Settings, st: State, step: Step)
    requires Lossless(s.codec) && Books(s, st) && Enabled(s, st, step)
    ensures Books(s, Do(s, st, step))
  {
    hide Books, Enabled, Tables, Seen, Grows;
    SeenGrows(s, st, step);
    assert Moved(s, st, step).evidence == st.evidence;
    hide Moved;
    if step.Publish? || step.Decide? || step.Enqueue? {
      JobStepKeeps(s, st, step);
    } else if step.Deliver? || step.HandOn? || step.LetGo? || step.Dispatch? {
      HandOverKeeps(s, st, step);
    } else if step.Ack? || step.Nack? {
      SettlementKeeps(s, st, step);
    } else {
      ChannelStepKeeps(s, st, step);
    }
    QuietKeeps(s, Moved(s, st, step), Do(s, st, step));
  }

  /** Every reachable state keeps the books. */
  lemma {:induction false} RunKeepsBooks(s: Settings, steps: seq<Step>)
    requires Lossless(s.codec) && Run(s, steps).Some?
    ensures Books(s, Run(s, steps).value)
  {
    if steps != [] {
      var n := |steps| - 1;
      RunKeepsBooks(s, steps[..n]);
      hide Enabled, Do, QueueSound, HandlesSound, RecordsSound, NothingLost;
      StepKeepsBooks(s, Run(s, steps[..n]).value, steps[n]);
    }
  }

  ghost predicate IsCopyOf(s: Settings, st: State, id: nat, e: nat) {
    e in st.queue && st.queue[e].copy.id == id && Genuine(s, st.origin, st.queue[e].copy)
  }

  ghost predicate Waiting(s: Settings, st: State, id: nat) {
    exists e :: IsCopyOf(s, st, id, e) && st.queue[e].holder == None
  }

  ghost predicate HandedOut(s: Settings, st: State, id: nat) {
    exists e :: IsCopyOf(s, st, id, e) && st.queue[e].holder.Some? && HeldBy(st, e, st.queue[e].holder.value)
  }

  // A delivery of the job or of one of its retries has an outcome on record that is true
  // of it and that the provider, the store or the broker gave reason for.
  ghost predicate FateKnown(s: Settings, st: State, id: nat) {
    exists r :: r in st.outcomes && r.copy.id == id && RecordSound(s, st, r)
  }

  /** No confirmed job is ever lost: in every reachable state it has a copy waiting in
      the queue, a copy held by a delivery on an open channel, or a recorded fate that
      is true of it and earned by what the provider and the store did. */
  lemma NoJobLost(s: Settings, steps: seq<Step>, id: nat)
    requires Lossless(s.codec) && Run(s, steps).Some? && id in Run(s, steps).value.confirmed
    ensures var st := Run(s, steps).value; Waiting(s, st, id) || HandedOut(s, st, id) || FateKnown(s, st, id)
  {
    RunKeepsBooks(s, steps);
    hide Run, RecordSound, InLineage, AttemptOf;
    var st := Run(s, steps).value;
    assert Covered(s, st, id, -2);
    if e :| e in st.queue && st.queue[e].copy.id == id {
      assert IsCopyOf(s, st, id, e);
    }
  }

  /** Once every channel is closed, every confirmed job without a fate waits for the
      next consumer. */
  lemma ClosedMeansWaiting(s: Settings, steps: seq<Step>, id: nat)
    requires Lossless(s.codec) && Run(s, steps).Some? && id in Run(s, steps).value.confirmed
    requires var st := Run(s, steps).value; forall ch :: ch in st.channels ==> !st.channels[ch].open
    ensures var st := Run(s, steps).value; Waiting(s, st, id) || FateKnown(s, st, id)
  {
    NoJobLost(s, steps, id);
    hide Run, IsCopyOf, Waiting, FateKnown;
  }

  /** Once the queue has drained, every confirmed job has a fate that is true of it. */
  lemma DrainedMeansDecided(s: Settings, steps: seq<Step>, id: nat)
    requires Lossless(s.codec) && Run(s, steps).Some?
    requires var st := Run(s, steps).value; id in st.confirmed && st.queue == map[]
    ensures FateKnown(s, Run(s, steps).value, id)
  {
    NoJobLost(s, steps, id);
    hide Run, FateKnown;
  }

  // ---------- What a fate needs ----------

  // The provider answered an embed call for the delivery without one vector of the right
  // shape for it.
  ghost predicate Misanswered(st: State, step: Step, tag: Tag) {
    && step.Embed? && AllHeld(st, step.batch) && step.answer.Some?
    && tag in MisfitsOf(Deliveries(st, step.batch), step.answer.value)
  }

  // The delivery's own embed call failed, or a write for it did.
  ghost predicate Fails(step: Step, tag: Tag) {
    || (step.Embed? && step.answer == None && step.batch == [tag])
    || (step.Write? && !step.ok && tag in step.batch)
    || (step.WriteWhole? && !step.ok && tag == step.tag)
  }

  lemma TagsOfDeliveries(st: State, batch: seq<Tag>)
    requires AllHeld(st, batch)
    ensures Tags(Deliveries(st, batch)) == set tag | tag in batch
  {
    var ds := Deliveries(st, batch);
    forall tag | tag in batch ensures tag in Tags(ds) {
      var i :| 0 <= i < |batch| && batch[i] == tag;
      assert ds[i].tag == tag;
    }
  }

  // A write with the chunk in it succeeded.
  ghost predicate Stores(step: Step, c: Chunk) {
    (step.Write? && step.ok && c in step.part) || (step.WriteWhole? && step.ok && c == step.chunk)
  }

  lemma EmbedIsSeen(s: Settings, st: State, step: Step, tag: Tag)
    requires Enabled(s, st, step) && step.Embed?
    ensures tag in Seen(s, st, step).misfit <==> tag in st.evidence.misfit || Misanswered(st, step, tag)
    ensures tag in Seen(s, st, step).failed <==> tag in st.evidence.failed || Fails(step, tag)
    ensures Seen(s, st, step).stored == st.evidence.stored && Seen(s, st, step).counted == st.evidence.counted
  {
    assert |Deliveries(st, step.batch)| == |step.batch|;
    hide MisfitsOf, GivenBy, JobOf;
  }

  lemma WriteIsSeen(s: Settings, st: State, step: Step, tag: Tag, c: Chunk)
    requires Enabled(s, st, step) && step.Write?
    ensures Seen(s, st, step).misfit == st.evidence.misfit && Seen(s, st, step).counted == st.evidence.counted
    ensures tag in Seen(s, st, step).failed <==> tag in st.evidence.failed || Fails(step, tag)
    ensures c in Seen(s, st, step).stored <==> c in st.evidence.stored || Stores(step, c)
  {
    TagsOfDeliveries(st, step.batch);
    hide Tags, Deliveries, Backed, MayWrite, PartFor;
  }

  lemma OthersAreSeen(s: Settings, st: State, step: Step, tag: Tag, c: Chunk)
    requires Enabled(s, st, step) && !step.Embed? && !step.Write?
    ensures Seen(s, st, step).misfit == st.evidence.misfit && !Misanswered(st, step, tag)
    ensures tag in Seen(s, st, step).failed <==> tag in st.evidence.failed || Fails(step, tag)
    ensures c in Seen(s, st, step).stored <==> c in st.evidence.stored || Stores(step, c)
    ensures Seen(s, st, step).counted <= st.evidence.counted + st.evidence.failed
  {
    hide Enabled;
  }

  lemma StepsAreSeen(s: Settings, st: State, step: Step, tag: Tag, c: Chunk)
    requires Enabled(s, st, step)
    ensures tag in Seen(s, st, step).misfit <==> tag in st.evidence.misfit || Misanswered(st, step, tag)
    ensures tag in Seen(s, st, step).failed <==> tag in st.evidence.failed || Fails(step, tag)
    ensures c in Seen(s, st, step).stored <==> c in st.evidence.stored || Stores(step, c)
    ensures Seen(s, st, step).counted <= st.evidence.counted + st.evidence.failed
  {
    hide Enabled, Seen;
    if step.Embed? {
      EmbedIsSeen(s, st, step, tag);
    } else if step.Write? {
      WriteIsSeen(s, st, step, tag, c);
    } else {
      OthersAreSeen(s, st, step, tag, c);
    }
  }

  ghost predicate WasMisanswered(s: Settings, steps: seq<Step>, tag: Tag) {
    exists i :: 0 <= i < |steps| && Run(s, steps[..i]).Some? && Misanswered(Run(s, steps[..i]).value, steps[i], tag)
  }

  ghost predicate HasFailed(steps: seq<Step>, tag: Tag) {
    exists i :: 0 <= i < |steps| && Fails(steps[i], tag)
  }

  ghost predicate WasStored(steps: seq<Step>, c: Chunk) {
    exists i :: 0 <= i < |steps| && Stores(steps[i], c)
  }

  lemma LaterSeen(s: Settings, steps: seq<Step>, n: nat, tag: Tag, c: Chunk)
    requires n <= |steps|
    ensures WasMisanswered(s, steps[..n], tag) ==> WasMisanswered(s, steps, tag)
    ensures HasFailed(steps[..n], tag) ==> HasFailed(steps, tag)
    ensures WasStored(steps[..n], c) ==> WasStored(steps, c)
  {
    hide Run, Misanswered, Fails, Stores;
    forall i | 0 <= i < n ensures steps[..n][i] == steps[i] && steps[..n][..i] == steps[..i] {}
    if WasMisanswered(s, steps[..n], tag) {
      var i :| 0 <= i < n && Run(s, steps[..n][..i]).Some?
        && Misanswered(Run(s, steps[..n][..i]).value, steps[..n][i], tag);
      assert steps[..n][..i] == steps[..i];
    }
  }

  /** The evidence of a run is what its steps did: a delivery counts as misanswered, as
      failed, or a chunk as stored, only because some call ended that way. */
  lemma {:induction false} EvidenceHasCause(s: Settings, steps: seq<Step>, tag: Tag, c: Chunk)
    requires Run(s, steps).Some?
    ensures var ev := Run(s, steps).value.evidence;
      && (tag in ev.misfit ==> WasMisanswered(s, steps, tag)) && (tag in ev.failed ==> HasFailed(steps, tag))
      && (c in ev.stored ==> WasStored(steps, c)) && ev.counted <= ev.failed
  {
    if steps != [] {
      var n := |steps| - 1;
      var st := Run(s, steps[..n]).value;
      EvidenceHasCause(s, steps[..n], tag, c);
      StepsAreSeen(s, st, steps[n], tag, c);
      SeenGrows(s, st, steps[n]);
      LaterSeen(s, steps, n, tag, c);
      hide Enabled, Seen, Moved, Tables, Misanswered, Fails, Stores;
    }
  }

  /** No job is dropped without cause: a job on record as misshapen was misanswered, one
      whose budget is spent had a call that failed, one on record as stored was written. */
  lemma OutcomeHasCause(s: Settings, steps: seq<Step>, r: Record)
    requires Lossless(s.codec) && Run(s, steps).Some? && r in Run(s, steps).value.outcomes
    ensures r.outcome.BadShape? ==> WasMisanswered(s, steps, r.tag)
    ensures r.outcome.BudgetSpent? || r.outcome.NotEncodable? ==> HasFailed(steps, r.tag)
    ensures r.outcome.Stored? ==> WasStored(steps, r.outcome.chunk)
  {
    RunKeepsBooks(s, steps);
    hide Run, WasMisanswered, HasFailed, WasStored, Truthful, Genuine;
    assert RecordSound(s, Run(s, steps).value, r);
    EvidenceHasCause(s, steps, r.tag, if r.outcome.Stored? then r.outcome.chunk else NO_CHUNK);
  }

  const NO_CHUNK := Chunk(false, Key("", "", 0), "", [])

  ghost predicate StoredOnRecord(s: Settings, st: State, id: nat) {
    exists r :: r in st.outcomes && r.copy.id == id && RecordSound(s, st, r) && r.outcome.Stored?
  }

  /** When no call to the provider or the store goes wrong, every confirmed readable job
      has been stored by the time the queue has drained, whatever shutdowns, lost
      acknowledgements, unconfirmed publishes and redeliveries there were. */
  lemma FaultlessMeansStored(s: Settings, steps: seq<Step>, id: nat)
    requires Lossless(s.codec) && Run(s, steps).Some?
    requires forall tag :: !WasMisanswered(s, steps, tag) && !HasFailed(steps, tag)
    requires var st := Run(s, steps).value; id in st.confirmed && st.queue == map[]
    requires id in Run(s, steps).value.origin
    requires var msg := Run(s, steps).value.origin[id]; Knows(s, msg.version) && Readable(s, msg.body).Some?
    requires Knows(s, s.version)
    ensures StoredOnRecord(s, Run(s, steps).value, id)
  {
    DrainedMeansDecided(s, steps, id);
    var st := Run(s, steps).value;
    var r :| r in st.outcomes && r.copy.id == id && RecordSound(s, st, r);
    OutcomeHasCause(s, steps, r);
    ReadableOutcome(s, st, r);
    hide Run, WasMisanswered, HasFailed, RecordSound;
  }

  lemma ReadableOutcome(s: Settings, st: State, r: Record)
    requires RecordSound(s, st, r) && Knows(s, s.version)
    requires var msg := st.origin[r.copy.id]; Knows(s, msg.version) && Readable(s, msg.body).Some?
    ensures !r.outcome.UnknownVersion? && !r.outcome.Unreadable? && !r.outcome.Republished?
  {
    assert InLineage(s, st.origin[r.copy.id], r.copy.msg);
  }

  // ---------- Duplicates do happen ----------

  ghost predicate Reachable(s: Settings, st: State) {
    exists steps :: Run(s, steps) == Some(st)
  }

  lemma Start(s: Settings)
    ensures Reachable(s, EMPTY)
  {
    assert Run(s, []) == Some(EMPTY);
  }

  lemma Reach(s: Settings, st: State, step: Step)
    requires Reachable(s, st) && Enabled(s, st, step)
    ensures Reachable(s, Do(s, st, step))
  {
    hide Enabled, Do;
    var steps :| Run(s, steps) == Some(st);
    assert (steps + [step])[..|steps|] == steps;
    assert Run(s, steps + [step]) == Some(Do(s, st, step));
  }

  // A delivery of a confirmed job is with its worker, or on its way there.
  function Delivered(msg: Msg, stage: Stage, seen: Evidence): State {
    State(map[0 := msg], {0}, map[0 := Entry(Copy(0, msg), Some(0))], map[0 := Handle(0, 0, Copy(0, msg), stage)],
          map[0 := Channel(true, false)], {}, seen, map[], map[])
  }

  lemma DeliveredIsReachable(s: Settings, msg: Msg)
    requires msg.version == s.version && msg.priority <= s.maxPriority
    ensures Reachable(s, Delivered(msg, InForwarder, NOTHING_SEEN))
  {
    hide Reachable;
    var published := EMPTY.(origin := map[0 := msg], confirmed := {0}, queue := map[0 := Entry(Copy(0, msg), None)]);
    var listening := published.(channels := map[0 := Channel(true, false)]);
    Start(s);
    Reach(s, EMPTY, Publish(0, 0, msg, true, true));
    assert Do(s, EMPTY, Publish(0, 0, msg, true, true)) == published;
    Reach(s, published, Open(0));
    assert Do(s, published, Open(0)) == listening;
    Reach(s, listening, Deliver(0, 0, 0));
    assert Do(s, listening, Deliver(0, 0, 0)) == Delivered(msg, InForwarder, NOTHING_SEEN);
  }

  lemma CollectedIsReachable(s: Settings, msg: Msg)
    requires msg.version == s.version && msg.priority <= s.maxPriority
    ensures Reachable(s, Delivered(msg, Collected, NOTHING_SEEN))
  {
    hide Reachable;
    DeliveredIsReachable(s, msg);
    Reach(s, Delivered(msg, InForwarder, NOTHING_SEEN), HandOn(0));
    assert Do(s, Delivered(msg, InForwarder, NOTHING_SEEN), HandOn(0)) == Delivered(msg, InAdapter, NOTHING_SEEN);
    Reach(s, Delivered(msg, InAdapter, NOTHING_SEEN), HandOn(0));
    assert Do(s, Delivered(msg, InAdapter, NOTHING_SEEN), HandOn(0)) == Delivered(msg, Collected, NOTHING_SEEN);
  }

  const FAILED_ONCE := NOTHING_SEEN.(failed := {0}, counted := {0})

  // Its embed call fails, and its worker is alive to see that.
  lemma FailureIsReachable(s: Settings, msg: Msg)
    requires msg.version == s.version && msg.priority <= s.maxPriority && JobOf(s, Delivery(0, msg)).Some?
    ensures Reachable(s, Delivered(msg, Collected, FAILED_ONCE))
  {
    hide Reachable, JobOf;
    var st := Delivered(msg, Collected, NOTHING_SEEN);
    var st1 := Delivered(msg, Collected, NOTHING_SEEN.(failed := {0}));
    CollectedIsReachable(s, msg);
    assert Deliveries(st, [0]) == [Delivery(0, msg)];
    Reach(s, st, Embed([0], None));
    assert Do(s, st, Embed([0], None)) == st1;
    Reach(s, st1, SeeAlive(0));
    assert HeldOn(st1, 0) == {0};
    assert Do(s, st1, SeeAlive(0)) == Delivered(msg, Collected, FAILED_ONCE);
  }

  // The retry was queued, but the worker saw an error.
  function Unconfirmed(msg: Msg, retry: Msg): State {
    var st := Delivered(msg, Refused, FAILED_ONCE);
    st.(queue := st.queue[1 := Entry(Copy(0, retry), None)])
  }

  lemma UnconfirmedIsReachable(s: Settings, msg: Msg, body: string)
    requires msg.version == s.version && msg.priority <= s.maxPriority
    requires Truthful(s, Delivery(0, msg), Republished(Msg(body, msg.priority, s.version)))
    ensures Reachable(s, Unconfirmed(msg, Msg(body, msg.priority, s.version)))
  {
    assert JobOf(s, Delivery(0, msg)).Some?;
    hide Reachable, Truthful, JobOf;
    var st := Delivered(msg, Collected, FAILED_ONCE);
    FailureIsReachable(s, msg);
    assert DeliveryOf(0, Copy(0, msg)) == Delivery(0, msg);
    var step := Enqueue(0, 1, body, true, false);
    Reach(s, st, step);
    assert Do(s, st, step) == Unconfirmed(msg, Msg(body, msg.priority, s.version));
  }

  predicate WaitsTwice(st: State, msg: Msg, retry: Msg) {
    st.queue == map[0 := Entry(Copy(0, msg), None), 1 := Entry(Copy(0, retry), None)]
  }

  /** Delivery is at least once: when a retry is queued without the worker learning of
      it, the original goes back too, and the job waits twice. */
  lemma DuplicatesHappen(s: Settings, msg: Msg, body: string)
    requires msg.version == s.version && msg.priority <= s.maxPriority
    requires Truthful(s, Delivery(0, msg), Republished(Msg(body, msg.priority, s.version)))
    ensures var retry := Msg(body, msg.priority, s.version);
      exists st :: Reachable(s, st) && 0 in st.confirmed && WaitsTwice(st, msg, retry)
  {
    hide Reachable, Truthful;
    var retry := Msg(body, msg.priority, s.version);
    var st := Unconfirmed(msg, retry);
    UnconfirmedIsReachable(s, msg, body);
    Reach(s, st, Nack(0, false));
    assert WaitsTwice(Do(s, st, Nack(0, false)), msg, retry);
  }

  // ---------- A job can be stored ----------

  // The delivery is with its worker, and the row its job names carries the job's text.
  function AtWork(msg: Msg, stage: Stage, job: Job, seen: Evidence, embedding: Option<Embedding>): State {
    var table := map[Key(job.source, job.externalId, job.chunkIndex) := Row(job.content, embedding)];
    var st := Delivered(msg, stage, seen);
    if job.staging then st.(staging := table) else st.(live := table)
  }

  function TheChunk(job: Job, vec: Embedding): Chunk {
    Chunk(job.staging, Key(job.source, job.externalId, job.chunkIndex), job.content, vec)
  }

  // What is known once the provider has answered, and once the chunk is written.
  function Heard(job: Job, vec: Embedding): Evidence {
    NOTHING_SEEN.(given := {(job.content, vec)})
  }

  function Wrote(job: Job, vec: Embedding): Evidence {
    Heard(job, vec).(stored := {TheChunk(job, vec)})
  }

  predicate Writable(s: Settings, msg: Msg, job: Job, vec: Embedding) {
    && msg.version == s.version && msg.priority <= s.maxPriority && JobOf(s, Delivery(0, msg)) == Some(job)
    && |vec| == EMBEDDING_DIM && job.chunkIndex <= MAX_INT32
  }

  lemma RowIsReachable(s: Settings, msg: Msg, job: Job, vec: Embedding)
    requires Writable(s, msg, job, vec)
    ensures Reachable(s, AtWork(msg, Collected, job, NOTHING_SEEN, None))
  {
    hide Reachable, JobOf;
    var st := Delivered(msg, Collected, NOTHING_SEEN);
    var step := Upsert(job.staging, Key(job.source, job.externalId, job.chunkIndex), job.content);
    CollectedIsReachable(s, msg);
    Reach(s, st, step);
    assert Do(s, st, step) == AtWork(msg, Collected, job, NOTHING_SEEN, None);
  }

  lemma OneAnswer(s: Settings, msg: Msg, job: Job, vec: Embedding)
    requires Writable(s, msg, job, vec)
    ensures GivenBy(s, [Delivery(0, msg)], [vec]) == {(job.content, vec)}
    ensures MisfitsOf([Delivery(0, msg)], [vec]) == {}
  {
    hide JobOf;
    var ds := [Delivery(0, msg)];
    assert TextOf(s, ds[0]) == job.content && [vec][0] == vec;
    forall x | x in GivenBy(s, ds, [vec]) ensures x == (job.content, vec) {}
    assert (TextOf(s, ds[0]), [vec][0]) in GivenBy(s, ds, [vec]);
  }

  lemma AnswerIsReachable(s: Settings, msg: Msg, job: Job, vec: Embedding)
    requires Writable(s, msg, job, vec)
    ensures Reachable(s, AtWork(msg, Collected, job, Heard(job, vec), None))
  {
    hide Reachable, JobOf;
    var st := AtWork(msg, Collected, job, NOTHING_SEEN, None);
    RowIsReachable(s, msg, job, vec);
    assert Deliveries(st, [0]) == [Delivery(0, msg)];
    Reach(s, st, Embed([0], Some([vec])));
    OneAnswer(s, msg, job, vec);
    assert Do(s, st, Embed([0], Some([vec]))) == AtWork(msg, Collected, job, Heard(job, vec), None);
  }

  lemma WriteIsReachable(s: Settings, msg: Msg, job: Job, vec: Embedding)
    requires Writable(s, msg, job, vec)
    ensures Reachable(s, AtWork(msg, Collected, job, Wrote(job, vec), Some(vec)))
  {
    hide Reachable, JobOf;
    var st, c := AtWork(msg, Collected, job, Heard(job, vec), None), TheChunk(job, vec);
    var after := map[c.key := Row(job.content, Some(vec))];
    AnswerIsReachable(s, msg, job, vec);
    assert Deliveries(st, [0]) == [Delivery(0, msg)];
    assert BackedOne(s, st.evidence, Delivery(0, msg), c);
    assert Hits(TableOf(st, job.staging), [c], c.key, 0);
    var step := Write(job.staging, [0], [c], [c], after, true);
    Reach(s, st, step);
    assert Members([c]) == {c};
    assert Do(s, st, step) == AtWork(msg, Collected, job, Wrote(job, vec), Some(vec));
  }

  // Decided, and on record.
  function OnRecord(msg: Msg, job: Job, vec: Embedding): State {
    var o := Stored(TheChunk(job, vec));
    AtWork(msg, Decided(o), job, Wrote(job, vec), Some(vec)).(outcomes := {Record(0, Copy(0, msg), o)})
  }

  lemma DecisionIsReachable(s: Settings, msg: Msg, job: Job, vec: Embedding)
    requires Writable(s, msg, job, vec)
    ensures Reachable(s, OnRecord(msg, job, vec))
  {
    hide Reachable, JobOf;
    var st, c := AtWork(msg, Collected, job, Wrote(job, vec), Some(vec)), TheChunk(job, vec);
    WriteIsReachable(s, msg, job, vec);
    Reach(s, st, Decide(0, Stored(c)));
    assert Do(s, st, Decide(0, Stored(c))) == OnRecord(msg, job, vec);
  }

  // The queue is empty, the job on record as stored, and its row holds its vector.
  ghost predicate Completed(s: Settings, st: State, job: Job, vec: Embedding) {
    && st.queue == map[] && 0 in st.confirmed && StoredOnRecord(s, st, 0)
    && TableOf(st, job.staging) == map[Key(job.source, job.externalId, job.chunkIndex) := Row(job.content, Some(vec))]
  }

  /** Nothing stands in the way of a good job: it can be published, delivered, embedded,
      written to the row it names, decided and acknowledged, and then the queue is empty. */
  lemma JobsCanComplete(s: Settings, msg: Msg, job: Job, vec: Embedding)
    requires Writable(s, msg, job, vec)
    ensures exists st :: Reachable(s, st) && Completed(s, st, job, vec)
  {
    hide Reachable, JobOf;
    var st, r := OnRecord(msg, job, vec), Record(0, Copy(0, msg), Stored(TheChunk(job, vec)));
    DecisionIsReachable(s, msg, job, vec);
    Reach(s, st, Ack(0, false));
    var st1 := Do(s, st, Ack(0, false));
    assert st1.queue == map[];
    assert RecordSound(s, st1, r);
    assert r in st1.outcomes;
  }

  // ---------- The unguarded write does mislabel ----------

  function Stale(key: Key, text: string, vec: Embedding, content: string): State {
    EMPTY.(evidence := NOTHING_SEEN.(given := {(text, vec)}), live := map[key := Row(content, None)])
  }

  predicate Mislabelled(st: State, key: Key, was: string, now: string, vec: Embedding) {
    st.live == map[key := Row(now, Some(vec))] && st.evidence.given == {(was, vec)}
  }

  /** A crawl's upsert between the delta sync's read and its write leaves the old text's
      vector on the new text. */
  lemma DeltaSyncMislabels(s: Settings, key: Key, was: string, now: string, vec: Embedding)
    requires was != now
    ensures exists st :: Reachable(s, st) && Mislabelled(st, key, was, now, vec) && !AllHonest(st)
  {
    hide Reachable;
    var read := EMPTY.(live := map[key := Row(was, None)]);
    Start(s);
    Reach(s, EMPTY, Upsert(false, key, was));
    assert Do(s, EMPTY, Upsert(false, key, was)) == read;
    Reach(s, read, EmbedElsewhere(was, vec));
    assert Do(s, read, EmbedElsewhere(was, vec)) == Stale(key, was, vec, was);
    Reach(s, Stale(key, was, vec, was), Upsert(false, key, now));
    var st := Stale(key, was, vec, now);
    assert Do(s, Stale(key, was, vec, was), Upsert(false, key, now)) == st;
    assert (was, vec) in st.evidence.given;
    Reach(s, st, WriteByKey(false, key, vec));
    var st1 := Do(s, st, WriteByKey(false, key, vec));
    assert Mislabelled(st1, key, was, now, vec);
    assert key in st1.live && (now, vec) !in st1.evidence.given;
  }
}
