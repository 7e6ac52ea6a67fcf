/** The calls the environment lets a worker make are steps of the protocol: a worker
    verified against the one runs inside the other. */
module WorkerSteps {
  import opened Wrappers
  import opened Jobs
  import opened Corpus
  import opened Batching
  import opened BatchOrder
  import opened Evidence
  import opened Environment
  import opened Protocol

  // The worker's ledger says where the deliveries of its channel are; `coming` are those
  // it has not received yet. Whatever it has seen has been seen.
  ghost predicate Mirrors(st: State, ch: nat, cancelled: bool, coming: set<Tag>, l: Ledger) {
    && ch in st.channels && (cancelled ==> st.channels[ch].cancelled)
    && AllMirrored(st.handles, ch, coming, l)
    && Grows(l.evidence, st.evidence) && l.evidence.failed !! coming
  }

  ghost predicate AllMirrored(hs: map<Tag, Handle>, ch: nat, coming: set<Tag>, l: Ledger) {
    forall tag :: Mirrored(hs, ch, coming, l, tag)
  }

  predicate Mine(hs: map<Tag, Handle>, ch: nat, tag: Tag) {
    tag in hs && hs[tag].channel == ch
  }

  predicate WithWorker(hs: map<Tag, Handle>, ch: nat, tag: Tag) {
    Mine(hs, ch, tag) && hs[tag].stage in HELD
  }

  predicate Mirrored(hs: map<Tag, Handle>, ch: nat, coming: set<Tag>, l: Ledger, tag: Tag) {
    && (tag in l.held <==> tag in coming || WithWorker(hs, ch, tag))
    && (tag in coming ==> !WithWorker(hs, ch, tag))
    && (tag in l.decided <==> Mine(hs, ch, tag) && hs[tag].stage.Decided?)
    && (tag in l.decided ==> hs[tag].stage == Decided(l.decided[tag]))
    && (tag in l.refused && tag in l.held ==> WithWorker(hs, ch, tag) && hs[tag].stage == Refused)
  }

  predicate SameElsewhere(l: Ledger, l': Ledger, tag: Tag) {
    && l.held - {tag} == l'.held - {tag} && l.decided - {tag} == l'.decided - {tag}
    && l.refused - {tag} == l'.refused - {tag}
  }

  lemma SameAt(l: Ledger, l': Ledger, tag: Tag, t: Tag)
    requires SameElsewhere(l, l', tag) && t != tag
    ensures t in l.held <==> t in l'.held
    ensures t in l.refused <==> t in l'.refused
    ensures t in l.decided <==> t in l'.decided
    ensures t in l.decided ==> l.decided[t] == l'.decided[t]
  {
    assert t in l.held - {tag} <==> t in l'.held - {tag};
    assert t in l.refused - {tag} <==> t in l'.refused - {tag};
    assert t in l.decided - {tag} <==> t in l'.decided - {tag};
    assert t in l.decided ==> (l.decided - {tag})[t] == (l'.decided - {tag})[t];
  }

  lemma MoveMirrors(hs: map<Tag, Handle>, ch: nat, coming: set<Tag>, l: Ledger, l': Ledger, tag: Tag, h: Handle)
    requires AllMirrored(hs, ch, coming, l) && SameElsewhere(l, l', tag)
    requires Mirrored(hs[tag := h], ch, coming, l', tag)
    ensures AllMirrored(hs[tag := h], ch, coming, l')
  {
    var hs' := hs[tag := h];
    forall t ensures Mirrored(hs', ch, coming, l', t) {
      if t != tag {
        SameAt(l, l', tag, t);
        assert Mirrored(hs, ch, coming, l, t);
      }
    }
  }

  lemma DecidedElsewhere(l: Ledger, tag: Tag, o: Outcome)
    ensures SameElsewhere(l, Environment.Decided(l, tag, o), tag)
  {
  }

  // The delivery is with the worker, and is what the broker handed out.
  ghost predicate Has(st: State, coming: set<Tag>, l: Ledger, d: Delivery) {
    d.tag in l.held && d.tag !in coming && (d.tag in st.handles ==> st.handles[d.tag].copy.msg == d.msg)
  }

  lemma IsWithWorker(st: State, ch: nat, cancelled: bool, coming: set<Tag>, l: Ledger, d: Delivery)
    requires Mirrors(st, ch, cancelled, coming, l) && Has(st, coming, l, d)
    ensures WithWorker(st.handles, ch, d.tag) && DeliveryOf(d.tag, st.handles[d.tag].copy) == d
  {
    assert Mirrored(st.handles, ch, coming, l, d.tag);
  }

  /** A fresh worker, with all of its channel's deliveries still to come. */
  lemma StartMirrors(st: State, ch: nat, coming: set<Tag>, l: Ledger)
    requires ch in st.channels && l == Ledger(coming, map[], l.settled, {}, 0, false, NOTHING_SEEN)
    requires forall tag :: Mine(st.handles, ch, tag) ==> st.handles[tag].stage in {InForwarder, InAdapter}
    ensures Mirrors(st, ch, false, coming, l)
  {
    forall tag ensures Mirrored(st.handles, ch, coming, l, tag) {}
    hide Mirrored;
  }

  /** A shutdown, whichever call it hits. */
  lemma ShutdownIsStep(s: Settings, st: State, ch: nat, cancelled: bool, coming: set<Tag>, l: Ledger)
    requires Mirrors(st, ch, cancelled, coming, l)
    ensures Enabled(s, st, Cancel(ch)) && Mirrors(Do(s, st, Cancel(ch)), ch, true, coming, l)
  {
    hide AllMirrored, Grows;
  }

  // ---------- Settling ----------

  /** Env.Decide. */
  lemma DecideIsStep(s: Settings, st: State, ch: nat, cancelled: bool, coming: set<Tag>, l: Ledger,
                     d: Delivery, o: Outcome)
    requires Mirrors(st, ch, cancelled, coming, l) && Has(st, coming, l, d)
    requires Truthful(s, d, o) && !o.Republished? && Earned(l.evidence, d, o)
    ensures Enabled(s, st, Protocol.Decide(d.tag, o))
    ensures Mirrors(Do(s, st, Protocol.Decide(d.tag, o)), ch, cancelled, coming, Environment.Decided(l, d.tag, o))
  {
    hide Truthful, Tables;
    IsWithWorker(st, ch, cancelled, coming, l, d);
    EarnedLater(l.evidence, st.evidence, d, o);
    hide Earned, Grows;
    assert Mirrored(st.handles, ch, coming, l, d.tag);
    DecidedElsewhere(l, d.tag, o);
    MoveMirrors(st.handles, ch, coming, l, Environment.Decided(l, d.tag, o), d.tag,
                st.handles[d.tag].(stage := Protocol.Decided(o)));
    hide AllMirrored;
  }

  /** Env.Enqueue, when the queue confirms the retry. */
  lemma ConfirmedEnqueueIsStep(s: Settings, st: State, ch: nat, cancelled: bool, coming: set<Tag>, l: Ledger,
                               d: Delivery, body: string, entry: nat)
    requires Mirrors(st, ch, cancelled, coming, l) && Has(st, coming, l, d) && entry !in st.queue
    requires d.tag in l.evidence.counted && d.msg.priority <= s.maxPriority
    requires Truthful(s, d, Republished(Msg(body, d.msg.priority, s.version)))
    ensures Enabled(s, st, Protocol.Enqueue(d.tag, entry, body, true, true))
    ensures Mirrors(Do(s, st, Protocol.Enqueue(d.tag, entry, body, true, true)), ch, cancelled, coming,
                    Retried(l, d.tag, Msg(body, d.msg.priority, s.version)))
  {
    hide Truthful, Tables;
    var msg := Msg(body, d.msg.priority, s.version);
    IsWithWorker(st, ch, cancelled, coming, l, d);
    CallsAreMonotone(s, l.evidence, st.evidence, [], None, {}, [], true, msg);
    assert Mirrored(st.handles, ch, coming, l, d.tag);
    DecidedElsewhere(l, d.tag, Republished(msg));
    MoveMirrors(st.handles, ch, coming, l, Retried(l, d.tag, msg), d.tag,
                st.handles[d.tag].(stage := Protocol.Decided(Republished(msg))));
    hide AllMirrored;
  }

  /** Env.Enqueue, when it fails, with or without the retry having been queued. */
  lemma RefusedEnqueueIsStep(s: Settings, st: State, ch: nat, cancelled: bool, coming: set<Tag>, l: Ledger,
                             d: Delivery, body: string, entry: nat, queued: bool)
    requires Mirrors(st, ch, cancelled, coming, l) && Has(st, coming, l, d) && entry !in st.queue
    requires d.tag in l.evidence.counted && (queued ==> d.msg.priority <= s.maxPriority)
    requires Truthful(s, d, Republished(Msg(body, d.msg.priority, s.version)))
    ensures Enabled(s, st, Protocol.Enqueue(d.tag, entry, body, queued, false))
    ensures Mirrors(Do(s, st, Protocol.Enqueue(d.tag, entry, body, queued, false)), ch, cancelled, coming,
                    Environment.Refused(l, d.tag))
  {
    hide Truthful, Tables;
    IsWithWorker(st, ch, cancelled, coming, l, d);
    assert Mirrored(st.handles, ch, coming, l, d.tag);
    MoveMirrors(st.handles, ch, coming, l, Environment.Refused(l, d.tag), d.tag,
                st.handles[d.tag].(stage := Protocol.Refused));
    hide AllMirrored;
  }

  /** Env.Ack, whether or not it reaches the broker. */
  lemma AckIsStep(s: Settings, st: State, ch: nat, cancelled: bool, coming: set<Tag>, l: Ledger, tag: Tag, lost: bool)
    requires Mirrors(st, ch, cancelled, coming, l) && tag in l.decided
    ensures Enabled(s, st, Protocol.Ack(tag, lost))
    ensures Mirrors(Do(s, st, Protocol.Ack(tag, lost)), ch, cancelled, coming, Acked(l, tag))
  {
    hide Holds, Tables, Grows;
    assert Mirrored(st.handles, ch, coming, l, tag);
    MoveMirrors(st.handles, ch, coming, l, Acked(l, tag), tag, st.handles[tag].(stage := Finished));
    hide AllMirrored;
  }

  /** Env.Nack, whether or not it reaches the broker. */
  lemma NackIsStep(s: Settings, st: State, ch: nat, cancelled: bool, coming: set<Tag>, l: Ledger, tag: Tag, lost: bool)
    requires Mirrors(st, ch, cancelled, coming, l) && tag in l.held && tag !in coming && (cancelled || tag in l.refused)
    ensures Enabled(s, st, Protocol.Nack(tag, lost))
    ensures Mirrors(Do(s, st, Protocol.Nack(tag, lost)), ch, cancelled, coming, Nacked(l, tag))
  {
    hide Holds, Tables, Grows;
    assert Mirrored(st.handles, ch, coming, l, tag);
    MoveMirrors(st.handles, ch, coming, l, Nacked(l, tag), tag, st.handles[tag].(stage := Finished));
    hide AllMirrored;
  }

  // ---------- Calls to the provider and the store ----------

  function TagsInOrder(ds: seq<Delivery>): seq<Tag> {
    seq(|ds|, i requires 0 <= i < |ds| => ds[i].tag)
  }

  ghost predicate HasAll(st: State, coming: set<Tag>, l: Ledger, ds: seq<Delivery>) {
    forall i :: 0 <= i < |ds| ==> Has(st, coming, l, ds[i])
  }

  lemma TheseDeliveries(st: State, ch: nat, cancelled: bool, coming: set<Tag>, l: Ledger, ds: seq<Delivery>)
    requires Mirrors(st, ch, cancelled, coming, l) && HasAll(st, coming, l, ds)
    ensures AllHeld(st, TagsInOrder(ds)) && Deliveries(st, TagsInOrder(ds)) == ds
  {
    forall i | 0 <= i < |ds|
      ensures WithWorker(st.handles, ch, ds[i].tag) && DeliveryOf(ds[i].tag, st.handles[ds[i].tag].copy) == ds[i]
    {
      IsWithWorker(st, ch, cancelled, coming, l, ds[i]);
    }
  }

  // What is seen changes; no delivery moves.
  lemma SeeingMirrors(st: State, st': State, ch: nat, cancelled: bool, coming: set<Tag>, l: Ledger, ev: Evidence)
    requires Mirrors(st, ch, cancelled, coming, l)
    requires st'.handles == st.handles && st'.channels == st.channels
    requires Grows(ev, st'.evidence) && ev.failed !! coming
    ensures Mirrors(st', ch, cancelled, coming, l.(evidence := ev))
  {
    hide Grows;
    forall t ensures Mirrored(st'.handles, ch, coming, l.(evidence := ev), t) {
      assert Mirrored(st.handles, ch, coming, l, t);
    }
    hide Mirrored;
  }

  lemma NotComing(st: State, coming: set<Tag>, l: Ledger, ds: seq<Delivery>)
    requires HasAll(st, coming, l, ds)
    ensures Tags(ds) !! coming
  {
  }

  /** Env.EmbedDocuments, whatever the provider answers. */
  lemma EmbedIsStep(s: Settings, st: State, ch: nat, cancelled: bool, coming: set<Tag>, l: Ledger,
                    ds: seq<Delivery>, r: Option<seq<Embedding>>)
    requires Mirrors(st, ch, cancelled, coming, l) && HasAll(st, coming, l, ds)
    requires forall i :: 0 <= i < |ds| ==> JobOf(s, ds[i]).Some?
    ensures Enabled(s, st, Embed(TagsInOrder(ds), r))
    ensures Mirrors(Do(s, st, Embed(TagsInOrder(ds), r)), ch, cancelled, coming,
                    l.(evidence := AfterEmbed(s, l.evidence, ds, r)))
  {
    hide JobOf, Grows, AllMirrored, GivenBy, MisfitsOf;
    TheseDeliveries(st, ch, cancelled, coming, l, ds);
    hide AllHeld, Deliveries, TagsInOrder;
    CallsAreMonotone(s, l.evidence, st.evidence, ds, r, {}, [], true, NO_MSG);
    SeeingMirrors(st, Do(s, st, Embed(TagsInOrder(ds), r)), ch, cancelled, coming, l, AfterEmbed(s, l.evidence, ds, r));
  }

  /** Env.Err, when the context is alive: the failures of its deliveries count. */
  lemma AliveIsStep(s: Settings, st: State, ch: nat, coming: set<Tag>, l: Ledger)
    requires Mirrors(st, ch, false, coming, l) && !st.channels[ch].cancelled
    ensures Enabled(s, st, SeeAlive(ch))
    ensures Mirrors(Do(s, st, SeeAlive(ch)), ch, false, coming,
                    l.(evidence := AfterAlive(l.evidence, l.held)))
  {
    var st' := Do(s, st, SeeAlive(ch));
    var ev := AfterAlive(l.evidence, l.held);
    forall tag | tag in l.evidence.failed * l.held ensures tag in st.evidence.failed * HeldOn(st, ch) {
      assert Mirrored(st.handles, ch, coming, l, tag);
    }
    assert Grows(ev, st'.evidence);
    hide AllMirrored, Grows, AfterAlive;
    SeeingMirrors(st, st', ch, false, coming, l, ev);
  }

  /** Env.SetChunks: the table it leaves, whether it succeeds, fails or fails after having
      committed, is one a write step leaves. */
  lemma WriteIsStep(s: Settings, st: State, ch: nat, cancelled: bool, coming: set<Tag>, l: Ledger,
                    ds: seq<Delivery>, chunks: seq<Chunk>, toStaging: bool, part: seq<Chunk>, after: Table, ok: bool)
    requires Mirrors(st, ch, cancelled, coming, l) && HasAll(st, coming, l, ds)
    requires Backed(s, l.evidence, ds, chunks) && PartFor(chunks, part, toStaging)
    requires ok ==> AllFit(part) && BulkWritten(TableOf(st, toStaging), part, after)
    requires !AllFit(part) ==> after == TableOf(st, toStaging)
    requires after == TableOf(st, toStaging) || BulkWritten(TableOf(st, toStaging), part, after)
    ensures var step := Write(toStaging, TagsInOrder(ds), chunks, part, after, ok);
            Enabled(s, st, step) && TableOf(Do(s, st, step), toStaging) == after
            && TableOf(Do(s, st, step), !toStaging) == TableOf(st, !toStaging)
            && Mirrors(Do(s, st, step), ch, cancelled, coming,
                       l.(evidence := AfterWrite(l.evidence, Tags(ds), part, ok)))
  {
    hide Grows, AllMirrored, BulkWritten, AllFit, BackedOne;
    var step := Write(toStaging, TagsInOrder(ds), chunks, part, after, ok);
    TheseDeliveries(st, ch, cancelled, coming, l, ds);
    BackedLater(s, l.evidence, st.evidence, ds, chunks);
    NotComing(st, coming, l, ds);
    hide AllHeld, Deliveries, TagsInOrder, Backed, PartFor, Tags;
    CallsAreMonotone(s, l.evidence, st.evidence, [], None, Tags(ds), part, ok, NO_MSG);
    SeeingMirrors(st, Do(s, st, step), ch, cancelled, coming, l, AfterWrite(l.evidence, Tags(ds), part, ok));
  }

  /** Env.UpsertChunk: the live table it leaves is one a whole-row write leaves. */
  lemma UpsertIsStep(s: Settings, st: State, ch: nat, cancelled: bool, coming: set<Tag>, l: Ledger,
                     d: Delivery, c: Chunk, after: Table, ok: bool)
    requires Mirrors(st, ch, cancelled, coming, l) && Has(st, coming, l, d)
    requires BackedOne(s, l.evidence, d, c) && !c.staging
    requires after == st.live || (Fits(c) && after == UpsertedWhole(st.live, c))
    requires ok ==> Fits(c) && after == UpsertedWhole(st.live, c)
    ensures var step := WriteWhole(d.tag, c, after != st.live, ok);
            Enabled(s, st, step) && Do(s, st, step).live == after && Do(s, st, step).staging == st.staging
            && Mirrors(Do(s, st, step), ch, cancelled, coming,
                       l.(evidence := AfterWrite(l.evidence, {d.tag}, [c], ok)))
  {
    hide AllMirrored, JobOf, UpsertedWhole;
    var step := WriteWhole(d.tag, c, after != st.live, ok);
    IsWithWorker(st, ch, cancelled, coming, l, d);
    CallsAreMonotone(s, l.evidence, st.evidence, [], None, {d.tag}, [c], ok, NO_MSG);
    SeeingMirrors(st, Do(s, st, step), ch, cancelled, coming, l, AfterWrite(l.evidence, {d.tag}, [c], ok));
  }

  // ---------- Receiving and dispatching ----------

  /** The adapter hands the worker a delivery of its channel: it is no longer coming, and
      the ledger already counts it as held. */
  lemma ReceiveIsStep(s: Settings, st: State, ch: nat, cancelled: bool, coming: set<Tag>, l: Ledger, tag: Tag)
    requires Mirrors(st, ch, cancelled, coming, l) && tag in coming
    requires Mine(st.handles, ch, tag) && st.handles[tag].stage == InAdapter
    ensures Enabled(s, st, HandOn(tag))
    ensures Mirrors(Do(s, st, HandOn(tag)), ch, cancelled, coming - {tag}, l)
    ensures var st' := Do(s, st, HandOn(tag));
            Has(st', coming - {tag}, l, DeliveryOf(tag, st'.handles[tag].copy))
  {
    hide Tables, Grows;
    var hs' := Do(s, st, HandOn(tag)).handles;
    forall t ensures Mirrored(hs', ch, coming - {tag}, l, t) {
      assert Mirrored(st.handles, ch, coming, l, t);
    }
    assert Mirrored(hs', ch, coming - {tag}, l, tag);
    hide Mirrored;
  }

  lemma DispatchMirrors(hs: map<Tag, Handle>, ch: nat, coming: set<Tag>, l: Ledger, tags: set<Tag>)
    requires AllMirrored(hs, ch, coming, l) && forall tag :: tag in tags ==> tag in hs && hs[tag].stage == Collected
    ensures AllMirrored(Dispatched(hs, tags), ch, coming, l)
  {
    var hs' := Dispatched(hs, tags);
    forall t ensures Mirrored(hs', ch, coming, l, t) { assert Mirrored(hs, ch, coming, l, t); }
  }

  /** The consumer dispatches a batch of deliveries it has collected. */
  lemma DispatchIsStep(s: Settings, st: State, ch: nat, cancelled: bool, coming: set<Tag>, l: Ledger, tags: set<Tag>)
    requires Mirrors(st, ch, cancelled, coming, l)
    requires forall tag :: tag in tags ==> Mine(st.handles, ch, tag) && st.handles[tag].stage == Collected
    ensures Enabled(s, st, Dispatch(tags)) && Mirrors(Do(s, st, Dispatch(tags)), ch, cancelled, coming, l)
  {
    hide AllMirrored, Tables, Grows;
    DispatchMirrors(st.handles, ch, coming, l, tags);
  }

  // ---------- Everyone else ----------

  // Steps of other channels, producers and ingest, and the broker's own moves.
  predicate Foreign(st: State, ch: nat, step: Step) {
    match step
    case HandOn(tag) => tag in st.handles && (st.handles[tag].channel == ch ==> st.handles[tag].stage == InForwarder)
    case LetGo(tag) => tag in st.handles && (st.handles[tag].channel == ch ==> st.handles[tag].stage != Collected)
    case Decide(tag, _) => tag in st.handles && st.handles[tag].channel != ch
    case Enqueue(tag, _, _, _, _) => tag in st.handles && st.handles[tag].channel != ch
    case Ack(tag, _) => tag in st.handles && st.handles[tag].channel != ch
    case Nack(tag, _) => tag in st.handles && st.handles[tag].channel != ch
    case _ => true
  }

  // A handle that is not with this worker before, and still is not after.
  lemma KeepMirror(hs: map<Tag, Handle>, ch: nat, coming: set<Tag>, l: Ledger, tag: Tag, h: Handle)
    requires AllMirrored(hs, ch, coming, l)
    requires Mine(hs, ch, tag) ==> hs[tag].stage !in HELD && !hs[tag].stage.Decided?
    requires h.channel == ch ==> h.stage !in HELD && !h.stage.Decided?
    ensures AllMirrored(hs[tag := h], ch, coming, l)
  {
    assert Mirrored(hs, ch, coming, l, tag);
    MoveMirrors(hs, ch, coming, l, l, tag, h);
  }

  lemma DecisionElsewhere(s: Settings, st: State, ch: nat, coming: set<Tag>, l: Ledger, step: Step)
    requires Enabled(s, st, step) && Foreign(st, ch, step) && AllMirrored(st.handles, ch, coming, l)
    requires step.Decide? || step.Enqueue?
    ensures Do(s, st, step).channels == st.channels && AllMirrored(Do(s, st, step).handles, ch, coming, l)
  {
    hide AllMirrored, Enabled, Tables, Seen;
    var h := st.handles[step.tag];
    match step {
      case Decide(tag, o) => KeepMirror(st.handles, ch, coming, l, tag, h.(stage := Protocol.Decided(o)));
      case Enqueue(tag, _, body, _, confirmed) =>
        var next := if confirmed then Protocol.Decided(Republished(Retry(s, h.copy, body))) else Protocol.Refused;
        KeepMirror(st.handles, ch, coming, l, tag, h.(stage := next));
    }
  }

  lemma SettlementElsewhere(s: Settings, st: State, ch: nat, coming: set<Tag>, l: Ledger, step: Step)
    requires Enabled(s, st, step) && Foreign(st, ch, step) && AllMirrored(st.handles, ch, coming, l)
    requires step.Ack? || step.Nack?
    ensures Do(s, st, step).channels == st.channels && AllMirrored(Do(s, st, step).handles, ch, coming, l)
  {
    hide AllMirrored, Enabled, Holds, Tables, Seen;
    KeepMirror(st.handles, ch, coming, l, step.tag, st.handles[step.tag].(stage := Finished));
  }

  lemma HandOffs(s: Settings, st: State, ch: nat, coming: set<Tag>, l: Ledger, step: Step)
    requires Enabled(s, st, step) && Foreign(st, ch, step) && AllMirrored(st.handles, ch, coming, l)
    requires step.Deliver? || step.HandOn? || step.LetGo? || step.Dispatch?
    ensures Do(s, st, step).channels == st.channels && AllMirrored(Do(s, st, step).handles, ch, coming, l)
  {
    hide AllMirrored, Tables, Seen;
    if step.Dispatch? {
      DispatchMirrors(st.handles, ch, coming, l, step.tags);
    } else {
      var tag := step.tag;
      var h := Do(s, st, step).handles[tag];
      assert Do(s, st, step).handles == st.handles[tag := h];
      KeepMirror(st.handles, ch, coming, l, tag, h);
    }
  }

  lemma OpensAnother(s: Settings, st: State, ch: nat, step: Step)
    requires Enabled(s, st, step) && ch in st.channels && step.Open?
    ensures step.channel != ch
  {
  }

  lemma QuietElsewhere(s: Settings, st: State, ch: nat, step: Step)
    requires Enabled(s, st, step) && ch in st.channels
    requires Quiet(step)
    ensures Do(s, st, step).handles == st.handles && ch in Do(s, st, step).channels
    ensures st.channels[ch].cancelled ==> Do(s, st, step).channels[ch].cancelled
  {
    hide Tables, Enabled, Seen;
    if step.Open? { OpensAnother(s, st, ch, step); }
  }

  lemma QueueElsewhere(s: Settings, st: State, ch: nat, step: Step)
    requires Enabled(s, st, step) && ch in st.channels && (step.Publish? || step.Close?)
    ensures Do(s, st, step).handles == st.handles && ch in Do(s, st, step).channels
    ensures st.channels[ch].cancelled ==> Do(s, st, step).channels[ch].cancelled
  {
    hide Requeue, Tables, Enabled, Seen;
  }

  lemma MovesElsewhere(s: Settings, st: State, ch: nat, coming: set<Tag>, l: Ledger, step: Step)
    requires Enabled(s, st, step) && Foreign(st, ch, step) && AllMirrored(st.handles, ch, coming, l)
    requires ch in st.channels
    ensures var st' := Do(s, st, step);
            AllMirrored(st'.handles, ch, coming, l) && ch in st'.channels
            && (st.channels[ch].cancelled ==> st'.channels[ch].cancelled)
  {
    hide AllMirrored, Enabled, Do, Foreign;
    if step.Decide? || step.Enqueue? {
      DecisionElsewhere(s, st, ch, coming, l, step);
    } else if step.Ack? || step.Nack? {
      SettlementElsewhere(s, st, ch, coming, l, step);
    } else if step.Deliver? || step.HandOn? || step.LetGo? || step.Dispatch? {
      HandOffs(s, st, ch, coming, l, step);
    } else if step.Publish? || step.Close? {
      QueueElsewhere(s, st, ch, step);
    } else {
      QuietElsewhere(s, st, ch, step);
    }
  }

  /** Nothing else, whatever it does in between, changes what the worker knows of its
      deliveries or takes back what it has seen. */
  lemma OthersKeepMirror(s: Settings, st: State, ch: nat, cancelled: bool, coming: set<Tag>, l: Ledger, step: Step)
    requires Mirrors(st, ch, cancelled, coming, l) && Enabled(s, st, step) && Foreign(st, ch, step)
    ensures Mirrors(Do(s, st, step), ch, cancelled, coming, l)
  {
    MovesElsewhere(s, st, ch, coming, l, step);
    SeenGrows(s, st, step);
    GrowsOn(l.evidence, st.evidence, Seen(s, st, step));
    hide AllMirrored, Enabled, Moved, Tables, Seen, Grows, Foreign;
  }
}
