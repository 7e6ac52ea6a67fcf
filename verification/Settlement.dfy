/** Settling deliveries: every one exactly once, and for a reason. */
module Settlement {
  import opened Wrappers
  import opened Jobs
  import opened Corpus
  import opened Batching
  import opened BatchOrder
  import opened Evidence
  import opened Environment

  // ---------- Fates ----------

  // The delivery is settled: acknowledged with an outcome that is true of it and earned,
  // or returned because of a shutdown or of a republish that was not confirmed.
  ghost predicate Fated(s: Settings, l: Ledger, d: Delivery) {
    d.tag in l.settled &&
    match l.settled[d.tag]
    case Some(o) => Truthful(s, d, o) && Earned(l.evidence, d, o)
    case None => l.stopped || d.tag in l.refused
  }

  ghost predicate Explained(s: Settings, l: Ledger, ds: seq<Delivery>) {
    forall i :: 0 <= i < |ds| ==> Fated(s, l, ds[i])
  }

  type Fates = (Delivery, Option<Outcome>) -> bool

  // Every delivery has one of the given fates.
  ghost predicate AllMeet(p: Fates, l: Ledger, ds: seq<Delivery>) {
    forall i :: 0 <= i < |ds| ==> ds[i].tag in l.settled && p(ds[i], l.settled[ds[i].tag])
  }

  const Returned: Fates := (_: Delivery, fate: Option<Outcome>) => fate == None

  // Whatever went back did so because of a shutdown or of an unconfirmed republish.
  ghost predicate NacksCaused(l: Ledger, cancelled: bool, ds: seq<Delivery>) {
    forall i :: 0 <= i < |ds| ==>
      ds[i].tag in l.settled && (l.settled[ds[i].tag].Some? || cancelled || ds[i].tag in l.refused)
  }

  lemma NacksHaveCause(s: Settings, l: Ledger, cancelled: bool, ds: seq<Delivery>)
    requires Explained(s, l, ds) && (l.stopped ==> cancelled)
    ensures NacksCaused(l, cancelled, ds)
  {
    forall i | 0 <= i < |ds|
      ensures ds[i].tag in l.settled && (l.settled[ds[i].tag].Some? || cancelled || ds[i].tag in l.refused)
    {
      assert Fated(s, l, ds[i]);
    }
  }

  // The fates of a failure: returned, or what the decision on the failure says.
  function Failing(s: Settings): Fates {
    (d: Delivery, fate: Option<Outcome>) => fate == None || (s.maxAttempts >= 1 && fate == FailureOutcome(s, d))
  }

  function FailureOutcome(s: Settings, d: Delivery): Option<Outcome>
    requires s.maxAttempts >= 1
  {
    match JobOf(s, d)
    case None => None
    case Some(job) =>
      match AfterFailure(s, job)
      case GiveUp => Some(BudgetSpent)
      case CannotEncode => Some(NotEncodable)
      case Republish(body) => Some(Republished(Msg(body, d.msg.priority, s.version)))
  }

  // Each delivery was acknowledged with its own chunk stored.
  ghost predicate AllStored(l: Ledger, ds: seq<Delivery>, chunks: seq<Chunk>) {
    |chunks| == |ds| && forall i :: 0 <= i < |ds| ==>
      ds[i].tag in l.settled && l.settled[ds[i].tag] == Some(Stored(chunks[i]))
  }

  lemma FatedIsSettled(s: Settings, l: Ledger, d: Delivery)
    requires Fated(s, l, d)
    ensures d.tag in l.settled
  {
  }

  lemma FateKept(l: Ledger, m: Ledger, ds: seq<Delivery>, tags: set<Tag>, i: nat)
    requires i < |ds| && ds[i].tag in l.settled && Settles(l, m, tags) && Tags(ds) !! tags
    ensures ds[i].tag in m.settled && m.settled[ds[i].tag] == l.settled[ds[i].tag]
  {
    assert ds[i].tag in Tags(ds);
    assert ds[i].tag in m.settled.Keys;
  }

  lemma FatedLater(s: Settings, l: Ledger, m: Ledger, d: Delivery, tags: set<Tag>)
    requires Fated(s, l, d) && Settles(l, m, tags) && d.tag in m.settled && m.settled[d.tag] == l.settled[d.tag]
    ensures Fated(s, m, d)
  {
    if l.settled[d.tag].Some? { EarnedLater(l.evidence, m.evidence, d, l.settled[d.tag].value); }
    hide Truthful, Earned;
  }

  lemma ExplainedLater(s: Settings, l: Ledger, m: Ledger, ds: seq<Delivery>, tags: set<Tag>)
    requires Explained(s, l, ds) && Settles(l, m, tags) && Tags(ds) !! tags
    ensures Explained(s, m, ds)
  {
    forall i | 0 <= i < |ds| ensures Fated(s, m, ds[i]) {
      assert Fated(s, l, ds[i]);
      FateKept(l, m, ds, tags, i);
      FatedLater(s, l, m, ds[i], tags);
    }
  }

  lemma MeetsLater(p: Fates, l: Ledger, m: Ledger, ds: seq<Delivery>, tags: set<Tag>)
    requires AllMeet(p, l, ds) && Settles(l, m, tags) && Tags(ds) !! tags
    ensures AllMeet(p, m, ds)
  {
    forall i | 0 <= i < |ds| ensures ds[i].tag in m.settled && p(ds[i], m.settled[ds[i].tag]) {
      FateKept(l, m, ds, tags, i);
    }
  }

  lemma MeetsSnoc(p: Fates, l: Ledger, m: Ledger, ds: seq<Delivery>, d: Delivery)
    requires AllMeet(p, l, ds) && Settles(l, m, {d.tag}) && d.tag !in Tags(ds)
    requires d.tag in m.settled && p(d, m.settled[d.tag])
    ensures AllMeet(p, m, ds + [d])
  {
    MeetsLater(p, l, m, ds, {d.tag});
  }

  lemma StoredSnoc(l: Ledger, m: Ledger, ds: seq<Delivery>, chunks: seq<Chunk>, d: Delivery, c: Chunk)
    requires AllStored(l, ds, chunks) && Settles(l, m, {d.tag}) && d.tag !in Tags(ds)
    requires d.tag in m.settled && m.settled[d.tag] == Some(Stored(c))
    ensures AllStored(m, ds + [d], chunks + [c])
  {
    forall i | 0 <= i < |ds| ensures ds[i].tag in m.settled && m.settled[ds[i].tag] == Some(Stored(chunks[i])) {
      FateKept(l, m, ds, {d.tag}, i);
    }
  }

  // One more delivery settled on top of those of `ds`.
  lemma SettlesSnoc(s: Settings, l: Ledger, m: Ledger, r: Ledger, ds: seq<Delivery>, d: Delivery)
    requires Settles(l, m, Tags(ds)) && Settles(m, r, {d.tag}) && Explained(s, m, ds) && Fated(s, r, d)
    ensures Settles(l, r, Tags(ds + [d])) && Explained(s, r, ds + [d])
    ensures d.tag !in Tags(ds)
  {
    SettlesCompose(l, m, r, Tags(ds), {d.tag});
    TagsAppend(ds, d);
    hide Settles, Fated;
    ExplainedLater(s, m, r, ds, {d.tag});
  }

  // ---------- One delivery ----------

  lemma NextIsHeld(l: Ledger, m: Ledger, done: seq<Delivery>, ds: seq<Delivery>, i: nat)
    requires i < |ds| && DistinctTags(ds) && Tags(ds) <= l.held && Settles(l, m, Tags(done))
    requires forall j :: 0 <= j < |done| ==> done[j] in ds[..i]
    ensures ds[i].tag in m.held
  {
    assert ds[i].tag in Tags(ds);
    forall j | 0 <= j < |done| ensures done[j].tag != ds[i].tag {
      var k :| 0 <= k < |ds[..i]| && ds[..i][k] == done[j];
      assert ds[k].tag != ds[i].tag;
    }
  }

  lemma PutThenRemove<T>(m: map<Tag, T>, tag: Tag, v: T)
    requires tag !in m
    ensures m[tag := v] - {tag} == m
  {
  }

  lemma AddsOne<T>(m: map<Tag, T>, tag: Tag, v: T)
    ensures Adds(m, m[tag := v], {tag})
  {
  }

  lemma AckAfterDecision(l: Ledger, m: Ledger, r: Ledger, tag: Tag, o: Outcome)
    requires tag in l.held && tag !in l.decided
    requires m == l.(held := l.held - {tag}, decided := l.decided[tag := o], evidence := m.evidence)
    requires Grows(l.evidence, m.evidence) && r == Acked(m, tag)
    ensures Settles(l, r, {tag}) && tag in r.settled && r.settled[tag] == Some(o) && r.evidence == m.evidence
  {
    PutThenRemove(l.decided, tag, o);
    AddsOne(l.settled, tag, Some(o));
    hide Adds, Grows;
  }

  lemma NackSettles(l: Ledger, m: Ledger, r: Ledger, tag: Tag)
    requires tag in l.held && l.refused <= m.refused && m == l.(refused := m.refused) && r == Nacked(m, tag)
    ensures Settles(l, r, {tag}) && tag in r.settled && r.settled[tag] == None
    ensures r.stopped || tag in r.refused
  {
    AddsOne(l.settled, tag, None);
    hide Adds;
  }

  // ---------- Several deliveries ----------

  lemma GoodIsHeld(l: Ledger, m: Ledger, ds: seq<Delivery>, good: seq<Delivery>, bad: seq<Delivery>)
    requires Sound(l) && Tags(ds) <= l.held && Settles(l, m, Tags(bad)) && Partition(ds, good, bad)
    ensures Tags(good) <= m.held && DistinctTags(good) && Sound(m)
  {
    hide Tags, DistinctTags;
    SettlesKeepsSound(l, m, Tags(bad));
  }

  lemma SettlesParts(s: Settings, l: Ledger, m: Ledger, r: Ledger, ds: seq<Delivery>, good: seq<Delivery>,
                     bad: seq<Delivery>)
    requires Settles(l, m, Tags(bad)) && Settles(m, r, Tags(good)) && Partition(ds, good, bad) && DistinctTags(ds)
    requires Explained(s, m, bad) && Explained(s, r, good)
    ensures Settles(l, r, Tags(ds)) && Explained(s, r, ds)
  {
    hide Settles, Tags, Explained, DistinctTags;
    SettlesCompose(l, m, r, Tags(bad), Tags(good));
    assert Tags(bad) + Tags(good) == Tags(ds);
    ExplainedLater(s, m, r, bad, Tags(good));
    ExplainedParts(s, r, ds, good, bad);
  }

  lemma ExplainedParts(s: Settings, r: Ledger, ds: seq<Delivery>, good: seq<Delivery>, bad: seq<Delivery>)
    requires Partition(ds, good, bad) && DistinctTags(ds) && Explained(s, r, good) && Explained(s, r, bad)
    ensures Explained(s, r, ds)
  {
    hide Fated, Partition, DistinctTags;
    forall i | 0 <= i < |ds| ensures Fated(s, r, ds[i]) {
      PartOf(ds, good, bad, i);
    }
  }

  lemma FilterPartitions(p: Delivery -> bool, ds: seq<Delivery>)
    requires DistinctTags(ds)
    ensures Partition(ds, Filter(p, ds), Filter(Not(p), ds))
    ensures forall i :: 0 <= i < |Filter(p, ds)| ==> p(Filter(p, ds)[i])
  {
    FilterDistinct(p, ds);
    FilterDistinct(Not(p), ds);
    FilterSplits(p, ds);
  }

  lemma PartOf(ds: seq<Delivery>, good: seq<Delivery>, bad: seq<Delivery>, i: nat)
    requires Partition(ds, good, bad) && DistinctTags(ds) && i < |ds|
    ensures ds[i] in good || ds[i] in bad
  {
    assert ds[i].tag in Tags(ds);
    if ds[i].tag in Tags(good) {
      var j :| 0 <= j < |good| && good[j].tag == ds[i].tag;
      assert good[j] in ds;
    } else {
      var j :| 0 <= j < |bad| && bad[j].tag == ds[i].tag;
      assert bad[j] in ds;
    }
  }

  // Two disjoint parts that together are the whole, each in order.
  ghost predicate Partition(ds: seq<Delivery>, a: seq<Delivery>, b: seq<Delivery>) {
    && Tags(a) + Tags(b) == Tags(ds) && Tags(a) !! Tags(b)
    && DistinctTags(a) && DistinctTags(b)
    && (forall i :: 0 <= i < |a| ==> a[i] in ds)
    && (forall i :: 0 <= i < |b| ==> b[i] in ds)
  }

  lemma PartitionNothing()
    ensures Partition([], [], [])
  {
  }

  lemma PartitionWithin(ds: seq<Delivery>, a: seq<Delivery>, b: seq<Delivery>)
    requires Partition(ds, a, b)
    ensures forall i :: 0 <= i < |b| ==> b[i] in ds
  {
  }

  lemma PartitionSnoc(ds: seq<Delivery>, i: nat, a: seq<Delivery>, b: seq<Delivery>)
    requires i < |ds| && DistinctTags(ds) && Partition(ds[..i], a, b)
    ensures Partition(ds[..i] + [ds[i]], a + [ds[i]], b)
    ensures Partition(ds[..i] + [ds[i]], a, b + [ds[i]])
  {
    var d := ds[i];
    TagsAppend(ds[..i], d);
    TagsAppend(a, d);
    TagsAppend(b, d);
    assert d.tag !in Tags(ds[..i]);
    NewTag(a, d);
    NewTag(b, d);
  }

  lemma NewTag(ds: seq<Delivery>, d: Delivery)
    ensures DistinctTags(ds) && d.tag !in Tags(ds) ==> DistinctTags(ds + [d])
  {
    if DistinctTags(ds) && d.tag !in Tags(ds) {
      forall i | 0 <= i < |ds| ensures ds[i].tag != d.tag { assert ds[i].tag in Tags(ds); }
    }
  }

  lemma StartSettling(s: Settings, l: Ledger)
    ensures Settles(l, l, Tags([])) && Explained(s, l, [])
  {
    SettlesNothing(l);
    assert Tags([]) == {};
  }

  lemma FilterNothing(p: Delivery -> bool)
    ensures Filter(p, []) == []
  {
  }

  lemma DropReason(s: Settings, d: Delivery)
    requires JobOf(s, d) == None
    ensures Truthful(s, d, if Knows(s, d.msg.version) then Unreadable else UnknownVersion)
  {
  }

  lemma BadShapeTrue(s: Settings, d: Delivery)
    requires JobOf(s, d).Some?
    ensures Truthful(s, d, BadShape)
  {
  }
}
