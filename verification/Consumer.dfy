/** The worker's consume loop: it collects deliveries into batches, closed by size or
    by a timer, and hands them to at most `concurrency` handlers. */
module Consumer {
  import opened Wrappers
  import opened Jobs
  import opened Corpus
  import opened Batching
  import opened BatchOrder
  import opened Evidence
  import opened Environment
  import opened Settlement
  import opened BatchStages
  import opened OrderFree
  import opened Rows
  import opened Worker

  /** A time.Timer: it counts down while active, and its channel holds a fire that nobody
      has received yet. */
  class Timer {
    var active: bool
    var pending: bool
    // How often a fire was received.
    ghost var fires: nat

    // A timer that is still counting down has not fired.
    ghost predicate Valid() reads this {
      !(active && pending)
    }

    // Nothing is counting down and nothing is left to receive.
    predicate Quiet() reads this {
      !active && !pending
    }

    constructor ()
      ensures Valid() && active
    {
      active, pending, fires := true, false, 0;
    }

    /** Reports whether it kept the timer from firing; a fire already sent stays pending. */
    method Stop() returns (stopped: bool)
      requires Valid()
      modifies this
      ensures Valid() && stopped == old(active) && !active && pending == old(pending) && fires == old(fires)
    {
      stopped := active;
      active := false;
    }

    /** Receives a pending fire, if there is one. */
    method TryReceive() returns (fired: bool)
      modifies this
      ensures fired == old(pending) && !pending && active == old(active)
      ensures fires == old(fires) + if fired then 1 else 0
    {
      fired := pending;
      fires := fires + if fired then 1 else 0;
      pending := false;
    }

    /** Stops the timer and drains its channel only if Stop came too late, which is enough:
        no stale fire is left for the next Reset to be confused with. */
    method StopAndDrain()
      requires Valid()
      modifies this
      ensures Quiet() && old(fires) <= fires <= old(fires) + 1
    {
      var stopped := Stop();
      if !stopped { var _ := TryReceive(); }
    }

    method Reset()
      requires Quiet()
      modifies this
      ensures Valid() && active && fires == old(fires)
    {
      active := true;
    }

    /** Time passes: an active timer may fire. */
    method Elapse()
      requires Valid()
      modifies this
      ensures Valid() && (Quiet() <==> old(Quiet()))
      ensures (pending == old(pending) || (old(active) && !active && pending)) && fires == old(fires)
    {
      var enough: bool := *;
      if enough && active { active, pending := false, true; }
    }
  }

  function Flat(bs: seq<seq<Delivery>>): seq<Delivery> {
    if bs == [] then [] else Flat(bs[..|bs| - 1]) + bs[|bs| - 1]
  }

  lemma FlatSnoc(bs: seq<seq<Delivery>>, b: seq<Delivery>)
    ensures Flat(bs + [b]) == Flat(bs) + b
  {
    assert (bs + [b])[..|bs|] == bs;
  }

  lemma {:induction false} FlatConcat(a: seq<seq<Delivery>>, b: seq<seq<Delivery>>)
    ensures Flat(a + b) == Flat(a) + Flat(b)
  {
    if b == [] {
      assert a + b == a;
    } else {
      var n := |b| - 1;
      FlatConcat(a, b[..n]);
      FlatSnoc(a + b[..n], b[n]);
      FlatSnoc(b[..n], b[n]);
      assert a + b == a + b[..n] + [b[n]] && b == b[..n] + [b[n]];
    }
  }

  lemma FlatWithout(bs: seq<seq<Delivery>>, i: nat)
    requires i < |bs|
    ensures Flat(bs) == Flat(bs[..i]) + bs[i] + Flat(bs[i + 1..])
    ensures Flat(bs[..i] + bs[i + 1..]) == Flat(bs[..i]) + Flat(bs[i + 1..])
  {
    FlatConcat(bs[..i], bs[i + 1..]);
    FlatSnoc(bs[..i], bs[i]);
    FlatConcat(bs[..i] + [bs[i]], bs[i + 1..]);
    assert bs == bs[..i] + [bs[i]] + bs[i + 1..];
  }

  lemma TagsConcat(a: seq<Delivery>, b: seq<Delivery>)
    ensures Tags(a + b) == Tags(a) + Tags(b)
  {
    forall t | t in Tags(a) + Tags(b) ensures t in Tags(a + b) {
      if t in Tags(a) {
        var i :| 0 <= i < |a| && a[i].tag == t;
        assert (a + b)[i].tag == t;
      } else {
        var i :| 0 <= i < |b| && b[i].tag == t;
        assert (a + b)[|a| + i].tag == t;
      }
    }
  }

  lemma DistinctParts(x: seq<Delivery>, b: seq<Delivery>, y: seq<Delivery>)
    requires DistinctTags(x + b + y)
    ensures DistinctTags(b) && DistinctTags(x + y) && Tags(b) !! Tags(x + y)
  {
    var all := x + b + y;
    forall i | 0 <= i < |b| ensures b[i] == all[|x| + i] {}
    forall i | 0 <= i < |x + y| ensures (x + y)[i] == all[if i < |x| then i else i + |b|] {}
    forall i, j | 0 <= i < |b| && 0 <= j < |x + y| ensures b[i].tag != (x + y)[j].tag {
      assert b[i] == all[|x| + i];
      assert (x + y)[j] == all[if j < |x| then j else j + |b|];
    }
  }

  // A block of pending deliveries moves to the done ones.
  lemma PartitionMove(ds: seq<Delivery>, done: seq<Delivery>, x: seq<Delivery>, b: seq<Delivery>, y: seq<Delivery>)
    requires Partition(ds, done, x + b + y)
    ensures Partition(ds, done + b, x + y)
    ensures DistinctTags(b) && Tags(b) !! Tags(done)
    ensures Tags(b) <= Tags(ds)
  {
    DistinctParts(x, b, y);
    TagsConcat(x + b, y);
    TagsConcat(x, b);
    TagsConcat(x, y);
    TagsConcat(done, b);
    var pending := x + b + y;
    forall i | 0 <= i < |b| ensures b[i] in ds { assert b[i] == pending[|x| + i]; }
    forall i | 0 <= i < |x + y| ensures (x + y)[i] in ds {
      assert (x + y)[i] == pending[if i < |x| then i else i + |b|];
    }
    AppendDistinct(done, b);
  }

  lemma AppendDistinct(a: seq<Delivery>, b: seq<Delivery>)
    requires DistinctTags(a) && DistinctTags(b) && Tags(a) !! Tags(b)
    ensures DistinctTags(a + b)
  {
    forall i, j | 0 <= i < |a| && 0 <= j < |b| ensures a[i].tag != b[j].tag {
      assert a[i].tag in Tags(a) && b[j].tag in Tags(b);
    }
  }

  lemma SettlesBlock(s: Settings, l: Ledger, m: Ledger, r: Ledger, done: seq<Delivery>, b: seq<Delivery>)
    requires Settles(l, m, Tags(done)) && Settles(m, r, Tags(b))
    requires Explained(s, m, done) && Explained(s, r, b) && Tags(done) !! Tags(b)
    ensures Settles(l, r, Tags(done + b)) && Explained(s, r, done + b)
  {
    SettlesCompose(l, m, r, Tags(done), Tags(b));
    TagsConcat(done, b);
    ExplainedLater(s, m, r, done, Tags(b));
    hide Settles, Fated;
    forall i | 0 <= i < |done + b| ensures Fated(s, r, (done + b)[i]) {
      if i >= |done| { assert (done + b)[i] == b[i - |done|]; }
    }
  }

  // These deliveries are among the settled ones, and each went back to the broker.
  ghost predicate GoneBack(l: Ledger, done: seq<Delivery>, returned: seq<Delivery>) {
    Tags(returned) <= Tags(done) && AllMeet(Returned, l, returned)
  }

  lemma StillGoneBack(ds: seq<Delivery>, l: Ledger, m: Ledger, done: seq<Delivery>, returned: seq<Delivery>,
                      x: seq<Delivery>, b: seq<Delivery>, y: seq<Delivery>)
    requires GoneBack(l, done, returned) && Partition(ds, done, x + b + y) && Settles(l, m, Tags(b))
    ensures GoneBack(m, done + b, returned)
  {
    PartitionMove(ds, done, x, b, y);
    TagsConcat(done, b);
    hide Partition, Tags, Settles, DistinctTags;
    MeetsLater(Returned, l, m, returned, Tags(b));
  }

  // Everything received is either settled (in `done`) or still pending.
  ghost predicate Accounted(s: Settings, l0: Ledger, l: Ledger, received: seq<Delivery>, done: seq<Delivery>,
                            pending: seq<Delivery>) {
    Partition(received, done, pending) && Settles(l0, l, Tags(done)) && Explained(s, l, done)
  }

  lemma PendingIsHeld(s: Settings, l0: Ledger, l: Ledger, received: seq<Delivery>, done: seq<Delivery>,
                      x: seq<Delivery>, b: seq<Delivery>, y: seq<Delivery>)
    requires Accounted(s, l0, l, received, done, x + b + y) && Tags(received) <= l0.held
    ensures DistinctTags(b) && Tags(b) <= l.held
  {
    PartitionMove(received, done, x, b, y);
    hide Tags, Partition, DistinctTags;
  }

  lemma BlockDone(s: Settings, l0: Ledger, l: Ledger, l': Ledger, received: seq<Delivery>, done: seq<Delivery>,
                  x: seq<Delivery>, b: seq<Delivery>, y: seq<Delivery>)
    requires Accounted(s, l0, l, received, done, x + b + y) && Settles(l, l', Tags(b)) && Explained(s, l', b)
    ensures Accounted(s, l0, l', received, done + b, x + y)
  {
    PartitionMove(received, done, x, b, y);
    hide Tags, Partition, DistinctTags, Settles, Explained;
    SettlesBlock(s, l0, l, l', done, b);
  }

  lemma AllDone(s: Settings, l0: Ledger, l: Ledger, received: seq<Delivery>, done: seq<Delivery>)
    requires Accounted(s, l0, l, received, done, []) && DistinctTags(received)
    ensures Settles(l0, l, Tags(received)) && Explained(s, l, received)
  {
    assert Tags([]) == {};
    assert Explained(s, l, []);
    ExplainedParts(s, l, received, done, []);
    hide Explained, DistinctTags;
  }

  // Every job's chunk index fits its column.
  ghost predicate Ranged(s: Settings, ds: seq<Delivery>) {
    forall i :: 0 <= i < |ds| && JobOf(s, ds[i]).Some? ==> JobOf(s, ds[i]).value.chunkIndex <= MAX_INT32
  }

  // The world is what handling `done` one delivery at a time would have left.
  ghost predicate InStep(s: Settings, e: Provider, w0: World, w: World, done: seq<Delivery>) {
    s.maxAttempts >= 1 && w == OneByOne(s, e, w0, done)
  }

  lemma BatchInStep(s: Settings, e: Provider, w0: World, w: World, received: seq<Delivery>, done: seq<Delivery>,
                    x: seq<Delivery>, b: seq<Delivery>, y: seq<Delivery>)
    requires InStep(s, e, w0, w, done) && Ranged(s, received) && Partition(received, done, x + b + y)
    ensures InStep(s, e, w0, Batch(s, e, w, b), done + b)
  {
    PartitionMove(received, done, x, b, y);
    PartitionWithin(received, done, x + b + y);
    hide OneByOne, Batch, Tags, Partition;
    forall i | 0 <= i < |b| ensures b[i] in received { assert b[i] == (x + b + y)[|x| + i]; }
    InRangeIndicesRefine(s, e, w, b);
    OneByOneConcat(s, e, w0, done, b);
  }

  lemma WithinRanged(s: Settings, a: seq<Delivery>, b: seq<Delivery>)
    requires Ranged(s, a + b)
    ensures Ranged(s, a)
  {
    forall i | 0 <= i < |a| ensures (a + b)[i] == a[i] {}
  }

  lemma DoneIsReceived(received: seq<Delivery>, done: seq<Delivery>)
    requires Partition(received, done, []) && DistinctTags(received)
    ensures multiset(done) == multiset(received) && DistinctTags(done)
  {
    assert Tags([]) == {};
    SameDeliveries(done, received);
  }

  lemma AccountedParts(s: Settings, l0: Ledger, l: Ledger, received: seq<Delivery>, done: seq<Delivery>,
                       x: seq<Delivery>, b: seq<Delivery>)
    requires Accounted(s, l0, l, received, done, x + b + [])
    ensures Partition(received, done, x + b + [])
  {
  }

  lemma NowGoneBack(l: Ledger, done: seq<Delivery>, batch: seq<Delivery>)
    requires AllMeet(Returned, l, batch)
    ensures GoneBack(l, done + batch, batch)
  {
    TagsConcat(done, batch);
  }

  // Knowing more changes nothing in the accounts.
  lemma SeenMore(s: Settings, l0: Ledger, l: Ledger, m: Ledger, received: seq<Delivery>, done: seq<Delivery>,
                 pending: seq<Delivery>, returned: seq<Delivery>)
    requires Accounted(s, l0, l, received, done, pending) && GoneBack(l, done, returned) && Settles(l, m, {})
    ensures Accounted(s, l0, m, received, done, pending) && GoneBack(m, done, returned)
  {
    hide Settles, Tags, Partition, Explained, AllMeet;
    SettlesCompose(l0, l, m, Tags(done), {});
    assert Tags(done) + {} == Tags(done);
    ExplainedLater(s, l, m, done, {});
    MeetsLater(Returned, l, m, returned, {});
  }

  lemma SettlesNoneKeeps(l: Ledger, l': Ledger, b: seq<Delivery>)
    requires Settles(l, l', Tags(b)) && b == []
    ensures l'.settled == l.settled
  {
    assert Tags(b) == {};
  }

  lemma PrefixTags(ds: seq<Delivery>, n: nat)
    requires n <= |ds| && DistinctTags(ds)
    ensures DistinctTags(ds[..n]) && Tags(ds[..n]) <= Tags(ds)
  {
    assert ds == ds[..n] + ds[n..];
    TagsConcat(ds[..n], ds[n..]);
  }

  lemma NothingReceived(s: Settings, l: Ledger)
    ensures Accounted(s, l, l, [], [], []) && Tags([]) == {} && GoneBack(l, [], [])
  {
    NothingMeets(Returned, l);
    StartSettling(s, l);
    PartitionNothing();
  }

  // How many of the batches are smaller than this.
  function Short(bs: seq<seq<Delivery>>, size: nat): nat {
    if bs == [] then 0 else Short(bs[..|bs| - 1], size) + if |bs[|bs| - 1]| < size then 1 else 0
  }

  lemma ShortSnoc(bs: seq<seq<Delivery>>, b: seq<Delivery>, size: nat)
    ensures Short(bs + [b], size) == Short(bs, size) + if |b| < size then 1 else 0
  {
    assert (bs + [b])[..|bs|] == bs;
  }

  class Consumer {
    const worker: Worker
    const env: Env
    const concurrency: nat
    const batchSize: nat
    const timer: Timer

    var batch: seq<Delivery>
    var timerRunning: bool
    // Batches taken by a handler and not yet finished.
    var inflight: seq<seq<Delivery>>

    // Every batch ever handed to a handler, in order; the held deliveries returned to
    // the broker; and all settled deliveries, in the order of their handling.
    ghost var dispatched: seq<seq<Delivery>>
    ghost var returned: seq<Delivery>
    ghost var done: seq<Delivery>

    constructor (worker: Worker, concurrency: int, batchSize: int)
      requires worker.env.Valid()
      ensures this.worker == worker && env == worker.env && fresh(timer)
      ensures this.concurrency == (if concurrency < 1 then 1 else concurrency)
      ensures this.batchSize == (if batchSize < 1 then 1 else batchSize)
      ensures Idle()
    {
      this.worker, env := worker, worker.env;
      this.concurrency := if concurrency < 1 then 1 else concurrency;
      this.batchSize := if batchSize < 1 then 1 else batchSize;
      timer := new Timer();
      batch, timerRunning, inflight, dispatched, returned, done := [], false, [], [], [], [];
      new;
      timer.StopAndDrain();
    }

    ghost predicate Shape() reads this, timer, env {
      && worker.env == env && env.Valid() && concurrency >= 1 && batchSize >= 1
      && |inflight| <= concurrency
      && timer.Valid() && (timerRunning <==> !timer.Quiet())
      && (forall i :: 0 <= i < |dispatched| ==> 1 <= |dispatched[i]| <= batchSize)
    }

    ghost predicate Idle() reads this, timer, env {
      Shape() && !timerRunning && batch == [] && inflight == [] && dispatched == [] && returned == [] && done == []
    }

    ghost function Pending(): seq<Delivery> reads this {
      Flat(inflight) + batch
    }

    // What was received is dispatched in order, then held or returned; each of it is
    // settled or pending; and with nothing failing, no batching can be told.
    ghost predicate Tracks(l0: Ledger, w0: World, received: seq<Delivery>) reads this, timer, env {
      && Shape()
      && received == Flat(dispatched) + returned + batch
      && (returned == [] || (batch == [] && env.cancelled))
      && DistinctTags(received) && Tags(received) <= l0.held
      && Accounted(env.s, l0, env.ledger, received, done, Pending()) && GoneBack(env.ledger, done, returned)
      && (env.calm && Ranged(env.s, received) ==> InStep(env.s, env.provider, w0, env.W(), done))
    }

    // What holds whenever the loop waits for its next event.
    ghost predicate AtLoopHead(l0: Ledger, w0: World, received: seq<Delivery>) reads this, timer, env {
      && Tracks(l0, w0, received) && returned == [] && |batch| < batchSize && (batch != [] <==> timerRunning)
      && Short(dispatched, batchSize) <= timer.fires
    }

    /** One in-flight batch runs to its end. */
    method FinishOne(ghost l0: Ledger, ghost w0: World, ghost received: seq<Delivery>)
      requires Tracks(l0, w0, received) && inflight != []
      modifies env, `inflight, `done
      ensures Tracks(l0, w0, received) && |inflight| == |old(inflight)| - 1
      ensures old(env.cancelled) ==> env.cancelled
    {
      hide Settles, Explained, Partition, Tags, DistinctTags, Sound, Flat, Batch, Ranged, InStep, GoneBack;
      var pick: nat := *;
      var i := pick % |inflight|;
      var b := inflight[i];
      FlatWithout(inflight, i);
      ghost var x, y := Flat(inflight[..i]), Flat(inflight[i + 1..]);
      ghost var l, w := env.ledger, env.W();
      assert Pending() == x + b + (y + batch);
      PendingIsHeld(env.s, l0, l, received, done, x, b, y + batch);
      worker.ProcessBatch(b);
      BlockDone(env.s, l0, l, env.ledger, received, done, x, b, y + batch);
      StillGoneBack(received, l, env.ledger, done, returned, x, b, y + batch);
      if env.calm && Ranged(env.s, received) {
        BatchInStep(env.s, env.provider, w0, w, received, done, x, b, y + batch);
      }
      inflight := inflight[..i] + inflight[i + 1..];
      done := done + b;
      assert Pending() == x + (y + batch);
    }

    /** Handlers run while the loop waits: any number of batches may finish. */
    method Progress(ghost l0: Ledger, ghost w0: World, ghost received: seq<Delivery>)
      requires Tracks(l0, w0, received)
      modifies env, `inflight, `done
      ensures Tracks(l0, w0, received) && |inflight| <= |old(inflight)|
      ensures old(env.cancelled) ==> env.cancelled
    {
      var more: bool := *;
      while more && inflight != []
        invariant Tracks(l0, w0, received) && |inflight| <= |old(inflight)|
        invariant old(env.cancelled) ==> env.cancelled
        decreases |inflight|
      {
        FinishOne(l0, w0, received);
        more := *;
      }
    }

    /** Looks at the context. */
    method Cancelled(ghost l0: Ledger, ghost w0: World, ghost received: seq<Delivery>) returns (c: bool)
      requires Tracks(l0, w0, received)
      modifies env
      ensures Tracks(l0, w0, received) && c == env.cancelled && (old(env.cancelled) ==> env.cancelled)
    {
      hide Accounted, Settles, Explained, Partition, Tags, DistinctTags, Sound, Flat, Ranged, InStep, GoneBack, Short;
      ghost var l := env.ledger;
      c := env.Err();
      AliveSettlesNothing(l, env.ledger);
      NothingSettled(l, env.ledger);
      SeenMore(env.s, l0, l, env.ledger, received, done, Pending(), returned);
    }

    /** Dispatches the held batch, waiting for a slot; false, with the batch kept, only
        if a shutdown cut the wait short. */
    method Flush(ghost l0: Ledger, ghost w0: World, ghost received: seq<Delivery>) returns (ok: bool)
      requires Tracks(l0, w0, received) && |batch| <= batchSize
      modifies env, `inflight, `done, `batch, `dispatched
      ensures Tracks(l0, w0, received)
      ensures if ok then batch == [] else env.cancelled && batch == old(batch) && batch != []
      ensures dispatched == if ok && old(batch) != [] then old(dispatched) + [old(batch)] else old(dispatched)
      ensures old(env.cancelled) ==> env.cancelled
    {
      hide Accounted, Settles, Explained, Partition, Tags, DistinctTags, Sound, Flat, Ranged, InStep, GoneBack, Short;
      if |batch| == 0 { return true; }
      Progress(l0, w0, received);
      while true
        invariant Tracks(l0, w0, received) && batch == old(batch) && dispatched == old(dispatched)
        invariant old(env.cancelled) ==> env.cancelled
        decreases |inflight|
      {
        var cancelled := Cancelled(l0, w0, received);
        var slotFirst: bool := *;
        if |inflight| < concurrency && (slotFirst || !cancelled) {
          FlatSnoc(inflight, batch);
          FlatSnoc(dispatched, batch);
          assert Flat(inflight) + batch == Flat(inflight + [batch]) + [];
          assert Flat(dispatched) + [] + batch == Flat(dispatched + [batch]) + [] + [];
          inflight, dispatched, batch := inflight + [batch], dispatched + [batch], [];
          return true;
        }
        if cancelled { return false; }
        FinishOne(l0, w0, received);
      }
    }

    /** Takes in one delivery. */
    method Add(ghost l0: Ledger, ghost w0: World, ghost stream: seq<Delivery>, ghost pos: nat, d: Delivery)
      returns (ok: bool)
      requires pos < |stream| && d == stream[pos] && DistinctTags(stream) && Tags(stream) <= l0.held
      requires AtLoopHead(l0, w0, stream[..pos])
      modifies env, timer, `batch, `timerRunning, `inflight, `done, `dispatched
      ensures if ok then AtLoopHead(l0, w0, stream[..pos + 1])
              else Tracks(l0, w0, stream[..pos + 1]) && env.cancelled && batch != []
                   && Short(dispatched, batchSize) <= timer.fires
      ensures old(env.cancelled) ==> env.cancelled
    {
      hide Settles, Explained, Partition, Tags, DistinctTags, Sound, Flat, Ranged, InStep, GoneBack, Short;
      ghost var received := stream[..pos];
      assert stream[..pos + 1] == received + [d];
      PrefixTags(stream, pos + 1);
      PartitionSnoc(stream, pos, done, Pending());
      if Ranged(env.s, received + [d]) { WithinRanged(env.s, received, [d]); }
      assert Pending() + [d] == Flat(inflight) + (batch + [d]);
      assert received + [d] == Flat(dispatched) + [] + (batch + [d]);
      batch := batch + [d];
      assert Tracks(l0, w0, stream[..pos + 1]);
      if |batch| >= batchSize {
        if timerRunning {
          timer.StopAndDrain();
          timerRunning := false;
        }
        ShortSnoc(dispatched, batch, batchSize);
        ok := Flush(l0, w0, stream[..pos + 1]);
        return;
      }
      if !timerRunning {
        timer.Reset();
        timerRunning := true;
      }
      return true;
    }

    /** Returns the held batch to the broker after a shutdown. */
    method RequeueHeld(ghost l0: Ledger, ghost w0: World, ghost received: seq<Delivery>)
      requires Tracks(l0, w0, received) && (env.cancelled || batch == [])
      modifies env, `batch, `done, `returned
      ensures Tracks(l0, w0, received) && batch == []
      ensures old(batch) != [] ==> returned == old(batch)
      ensures old(env.cancelled) ==> env.cancelled
    {
      hide Accounted, Settles, Explained, Partition, Tags, DistinctTags, Sound, Flat, Ranged, InStep, GoneBack, AllMeet;
      ghost var l := env.ledger;
      assert Pending() == Flat(inflight) + batch + [];
      PendingIsHeld(env.s, l0, l, received, done, Flat(inflight), batch, []);
      worker.RequeueAll(batch);
      BlockDone(env.s, l0, l, env.ledger, received, done, Flat(inflight), batch, []);
      AccountedParts(env.s, l0, l, received, done, Flat(inflight), batch);
      StillGoneBack(received, l, env.ledger, done, returned, Flat(inflight), batch, []);
      if batch == [] {
        SettlesNoneKeeps(l, env.ledger, batch);
        assert done + batch == done;
      } else {
        NowGoneBack(env.ledger, done, batch);
        returned := batch;
      }
      done, batch := done + batch, [];
      assert Pending() == Flat(inflight) + [];
    }

    /** One wait of the loop and what it brings: a delivery, the end of the stream or the
        timer, whatever handlers finish meanwhile. As long as the loop goes on, fewer than
        batchSize deliveries are held, the timer is armed exactly while some are, and no
        more than `concurrency` batches are in flight. */
    method Await(ghost l0: Ledger, ghost w0: World, stream: seq<Delivery>, n: nat) returns (more: bool, n': nat)
      requires n <= |stream| && AtLoopHead(l0, w0, stream[..n])
      requires DistinctTags(stream) && Tags(stream) <= l0.held
      modifies env, timer, `batch, `timerRunning, `inflight, `done, `dispatched, `returned
      ensures n <= n' <= |stream| && n' <= n + 1
      ensures if more then AtLoopHead(l0, w0, stream[..n'])
              else Tracks(l0, w0, stream[..n']) && |batch| < batchSize && (n' < |stream| ==> env.cancelled)
                   && Short(dispatched, batchSize) <= timer.fires
      ensures more && n' == n ==> old(timerRunning) && !timerRunning
    {
      hide Accounted, Settles, Explained, Partition, Tags, DistinctTags, Sound, Flat, Ranged, InStep, GoneBack, Short;
      n' := n;
      Progress(l0, w0, stream[..n]);
      timer.Elapse();
      // A ready delivery goes before the timer; else whichever comes first.
      var ready: bool, first: bool := *, *;
      if ready || first || !timer.pending {
        if n == |stream| { return false, n; }
        more := Add(l0, w0, stream, n, stream[n]);
        n' := n + 1;
      } else {
        var _ := timer.TryReceive();
        timerRunning := false;
        ShortSnoc(dispatched, batch, batchSize);
        more := Flush(l0, w0, stream[..n]);
      }
      if !more { RequeueHeld(l0, w0, stream[..n']); }
    }

    /** Collects until the stream closes or a shutdown cuts a dispatch short. */
    method Collect(ghost l0: Ledger, ghost w0: World, stream: seq<Delivery>) returns (n: nat)
      requires AtLoopHead(l0, w0, []) && DistinctTags(stream) && Tags(stream) <= l0.held
      modifies env, timer, `batch, `timerRunning, `inflight, `done, `dispatched, `returned
      ensures n <= |stream| && Tracks(l0, w0, stream[..n]) && |batch| < batchSize
      ensures n < |stream| ==> env.cancelled
      ensures Short(dispatched, batchSize) <= timer.fires
    {
      hide Accounted, Settles, Explained, Partition, Tags, DistinctTags, Sound, Flat, Ranged, InStep, GoneBack, Short;
      n := 0;
      var more := true;
      while more
        invariant n <= |stream|
        invariant if more then AtLoopHead(l0, w0, stream[..n])
                  else Tracks(l0, w0, stream[..n]) && |batch| < batchSize && (n < |stream| ==> env.cancelled)
                       && Short(dispatched, batchSize) <= timer.fires
        decreases more, |stream| - n, timerRunning
      {
        more, n := Await(l0, w0, stream, n);
      }
    }

    /** Embeds the tail, or after a shutdown returns it, and waits for the handlers. */
    method Drain(ghost l0: Ledger, ghost w0: World, ghost received: seq<Delivery>)
      requires Tracks(l0, w0, received) && |batch| <= batchSize
      modifies env, `batch, `inflight, `done, `dispatched, `returned
      ensures Tracks(l0, w0, received) && batch == [] && inflight == []
      ensures Short(dispatched, batchSize) <= Short(old(dispatched), batchSize) + 1
      ensures old(env.cancelled) ==> env.cancelled
    {
      hide Accounted, Settles, Explained, Partition, Tags, DistinctTags, Sound, Flat, Ranged, InStep, GoneBack, Short;
      ShortSnoc(dispatched, batch, batchSize);
      var cancelled := Cancelled(l0, w0, received);
      var ok := false;
      if !cancelled { ok := Flush(l0, w0, received); }
      if !ok { RequeueHeld(l0, w0, received); }
      while inflight != []
        invariant Tracks(l0, w0, received) && batch == []
        invariant Short(dispatched, batchSize) <= Short(old(dispatched), batchSize) + 1
        invariant old(env.cancelled) ==> env.cancelled
        decreases |inflight|
      {
        FinishOne(l0, w0, received);
      }
    }

    /** The whole run over the deliveries the stream sends before it closes. By the time
        it returns, each delivery it received was settled by exactly one Ack or Nack: an
        Ack with an outcome that is true and earned, a Nack after a shutdown or a refused
        republish. Batches went out in order of arrival, and full but for one per fire of
        the timer and the last; what was held at a shutdown was nacked; and if nothing
        failed, the corpus looks as if the deliveries had been handled one at a time as
        they came. */
    method Run(stream: seq<Delivery>) returns (n: nat)
      requires Idle() && DistinctTags(stream) && Tags(stream) <= env.ledger.held
      modifies this, timer, env
      ensures n <= |stream| && (!env.cancelled ==> n == |stream|)
      ensures Settles(old(env.ledger), env.ledger, Tags(stream[..n])) && Explained(env.s, env.ledger, stream[..n])
      ensures stream[..n] == Flat(dispatched) + returned && (!env.cancelled ==> returned == [])
      ensures AllMeet(Returned, env.ledger, returned)
      ensures NacksCaused(env.ledger, env.cancelled, stream[..n])
      ensures forall i :: 0 <= i < |dispatched| ==> 1 <= |dispatched[i]| <= batchSize
      ensures Short(dispatched, batchSize) <= timer.fires + 1
      ensures env.calm && Ranged(env.s, stream) ==>
                SameButOrder(env.W(), OneByOne(env.s, env.provider, old(env.W()), stream))
      ensures env.calm && Ranged(env.s, stream) ==>
                RowsAndFates(env.s, env.provider, old(env.W()), stream, env.W())
    {
      hide Accounted, Settles, Fated, Explained, Partition, Tags, DistinctTags, Sound, Flat, Ranged, InStep, OneByOne,
        Short, SameButOrder, AllMeet, RowsAndFates;
      ghost var l0, w0 := env.ledger, env.W();
      StartRun(l0, w0);
      n := Collect(l0, w0, stream);
      Drain(l0, w0, stream[..n]);
      FinishRun(l0, w0, stream, n);
    }

    lemma StartRun(l0: Ledger, w0: World)
      requires Idle() && l0 == env.ledger && w0 == env.W()
      ensures AtLoopHead(l0, w0, [])
    {
      NothingReceived(env.s, l0);
      hide Settles, Explained, Partition, Tags, Sound;
    }

    lemma FinishRun(l0: Ledger, w0: World, stream: seq<Delivery>, n: nat)
      requires n <= |stream| && Tracks(l0, w0, stream[..n]) && batch == [] && inflight == []
      requires (!env.cancelled ==> n == |stream|) && DistinctTags(stream)
      ensures Settles(l0, env.ledger, Tags(stream[..n])) && Explained(env.s, env.ledger, stream[..n])
      ensures AllMeet(Returned, env.ledger, returned)
      ensures NacksCaused(env.ledger, env.cancelled, stream[..n])
      ensures env.calm && Ranged(env.s, stream) ==>
        SameButOrder(env.W(), OneByOne(env.s, env.provider, w0, stream))
        && RowsAndFates(env.s, env.provider, w0, stream, env.W())
    {
      assert Pending() == [];
      AllDone(env.s, l0, env.ledger, stream[..n], done);
      NacksHaveCause(env.s, env.ledger, env.cancelled, stream[..n]);
      if env.calm && Ranged(env.s, stream) {
        assert stream[..n] == stream;
        DoneIsReceived(stream, done);
        OrderIsInvisible(env.s, env.provider, w0, done, stream);
        SameButOrderSaid(env.s, env.provider, w0, stream, env.W());
      }
    }
  }
}
