/** Embedding jobs: what is valid, what may be retried, and how often. */
module Jobs {
  import opened Wrappers

  // Go's int on a 64-bit platform.
  type Int64 = x: int | -0x8000_0000_0000_0000 <= x < 0x8000_0000_0000_0000

  datatype Job = Job(source: string, externalId: string, chunkIndex: Int64, content: string, attempt: Int64,
                     staging: bool)

  predicate Valid(j: Job) {
    j.source != "" && j.externalId != "" && j.chunkIndex >= 0 && j.content != "" && j.attempt >= 0
  }

  // JSON encoding and decoding of a job body. Either may fail.
  datatype Codec = Codec(encode: Job -> Option<string>, decode: string -> Option<Job>)

  ghost predicate Lossless(c: Codec) {
    forall j :: c.encode(j).Some? ==> c.decode(c.encode(j).value) == Some(j)
  }

  // `known` is None when the version check is disabled; `version` and `maxPriority`
  // belong to the queue the worker republishes to.
  datatype Settings = Settings(
    maxAttempts: Int64, known: Option<set<string>>, codec: Codec, version: string, maxPriority: nat)

  /** The clamps the constructor applies. */
  function MakeSettings(maxAttempts: Int64, versions: seq<string>, codec: Codec, version: string,
                        maxPriority: nat): (s: Settings)
    ensures s.maxAttempts >= 1
    ensures forall v :: Knows(s, v) <==> versions == [] || v in versions
  {
    Settings(if maxAttempts < 1 then 1 else maxAttempts,
             if versions == [] then None else Some(set v | v in versions),
             codec, version, maxPriority)
  }

  predicate Knows(s: Settings, version: string) {
    s.known.None? || version in s.known.value
  }

  function Readable(s: Settings, body: string): Option<Job> {
    match s.codec.decode(body)
    case Some(job) => if Valid(job) then Some(job) else None
    case None => None
  }

  // What to do about a counted failure.
  datatype Verdict = GiveUp | CannotEncode | Republish(body: string)

  function AfterFailure(s: Settings, job: Job): Verdict
    requires s.maxAttempts >= 1 && Valid(job)
  {
    if job.attempt >= s.maxAttempts - 1 then GiveUp else
      match s.codec.encode(NextAttempt(s, job))
      case None => CannotEncode
      case Some(body) => Republish(body)
  }

  /** The counter cannot overflow: a retried attempt stays below the budget. */
  function NextAttempt(s: Settings, job: Job): (retry: Job)
    requires Valid(job) && job.attempt < s.maxAttempts - 1
    ensures Valid(retry) && SamePayload(retry, job)
    ensures job.attempt < retry.attempt < s.maxAttempts
  {
    job.(attempt := job.attempt + 1)
  }

  predicate SamePayload(a: Job, b: Job) {
    a.(attempt := 0) == b.(attempt := 0)
  }

  // ---------- A job's history ----------

  // One delivery that did not complete: cut short by a shutdown, or failed, with
  // its republish (if there was one) confirmed or refused.
  datatype Trouble = Interrupted | Failed(confirmed: bool)

  // The job carried by the next delivery; None once it was dropped.
  function Next(s: Settings, job: Job, t: Trouble): Option<Job>
    requires s.maxAttempts >= 1 && Valid(job)
  {
    match t
    case Interrupted => Some(job)
    case Failed(confirmed) =>
      match AfterFailure(s, job)
      case Republish(body) => if confirmed then Readable(s, body) else Some(job)
      case _ => None
  }

  ghost predicate History(s: Settings, job: Job, ts: seq<Trouble>)
    requires s.maxAttempts >= 1 && Valid(job)
    decreases |ts|
  {
    ts == [] ||
    match Next(s, job, ts[0])
    case None => |ts| == 1
    case Some(next) => Valid(next) && History(s, next, ts[1..])
  }

  // Failures that used up an attempt: all but those whose republish was refused.
  function Counted(s: Settings, job: Job, ts: seq<Trouble>): nat
    requires s.maxAttempts >= 1 && Valid(job)
    decreases |ts|
  {
    if ts == [] then 0 else
      var counts := ts[0].Failed? && (ts[0].confirmed || !AfterFailure(s, job).Republish?);
      (if counts then 1 else 0) +
      match Next(s, job, ts[0])
      case Some(next) => if Valid(next) then Counted(s, next, ts[1..]) else 0
      case None => 0
  }

  function Budget(s: Settings, job: Job): nat {
    if s.maxAttempts - job.attempt >= 1 then s.maxAttempts - job.attempt else 1
  }

  lemma RepublishIsNextAttempt(s: Settings, job: Job)
    requires s.maxAttempts >= 1 && Valid(job) && Lossless(s.codec) && AfterFailure(s, job).Republish?
    ensures job.attempt < s.maxAttempts - 1
    ensures Readable(s, AfterFailure(s, job).body) == Some(NextAttempt(s, job))
  {
  }

  /** From attempt a, at most max(1, maxAttempts - a) failures are ever counted, over
      any history of failures, refused republishes and shutdowns. */
  lemma {:induction false} RetriesAreBounded(s: Settings, job: Job, ts: seq<Trouble>)
    requires s.maxAttempts >= 1 && Valid(job) && Lossless(s.codec) && History(s, job, ts)
    ensures Counted(s, job, ts) <= Budget(s, job)
    decreases |ts|
  {
    if ts != [] && Next(s, job, ts[0]).Some? {
      var next := Next(s, job, ts[0]).value;
      if ts[0] == Failed(true) { RepublishIsNextAttempt(s, job); }
      RetriesAreBounded(s, next, ts[1..]);
    }
  }

  // Steps whose failure was confirmed as republished.
  function Confirmed(ts: seq<Trouble>): nat {
    if ts == [] then 0 else (if ts[0] == Failed(true) then 1 else 0) + Confirmed(ts[1..])
  }

  ghost function Carried(s: Settings, job: Job, ts: seq<Trouble>): Option<Job>
    requires s.maxAttempts >= 1 && Valid(job) && History(s, job, ts)
    decreases |ts|
  {
    if ts == [] then Some(job) else
      match Next(s, job, ts[0])
      case None => None
      case Some(next) => Carried(s, next, ts[1..])
  }

  /** The payload survives every retry, and the attempt counter counts exactly the
      confirmed republishes: shutdowns and refused republishes leave it alone. */
  lemma {:induction false} AttemptCountsRepublishes(s: Settings, job: Job, ts: seq<Trouble>)
    requires s.maxAttempts >= 1 && Valid(job) && Lossless(s.codec) && History(s, job, ts)
    ensures Carried(s, job, ts).Some? ==>
      var now := Carried(s, job, ts).value;
      SamePayload(now, job) && now.attempt == job.attempt + Confirmed(ts)
    decreases |ts|
  {
    if ts != [] && Next(s, job, ts[0]).Some? {
      if ts[0] == Failed(true) { RepublishIsNextAttempt(s, job); }
      AttemptCountsRepublishes(s, Next(s, job, ts[0]).value, ts[1..]);
    }
  }

  /** The bound is reached: if every failure is confirmed and encodable, the job fails
      exactly Budget times and is then dropped. */
  lemma {:induction false} BudgetIsReached(s: Settings, job: Job, n: nat)
    requires s.maxAttempts >= 1 && Valid(job) && Lossless(s.codec) && n == Budget(s, job)
    requires forall j :: s.codec.encode(j).Some?
    ensures History(s, job, seq(n, _ => Failed(true)))
    ensures Counted(s, job, seq(n, _ => Failed(true))) == n
    ensures Carried(s, job, seq(n, _ => Failed(true))) == None
    decreases n
  {
    var ts := seq(n, _ => Failed(true));
    assert ts[1..] == seq(n - 1, _ => Failed(true));
    if job.attempt < s.maxAttempts - 1 {
      RepublishIsNextAttempt(s, job);
      BudgetIsReached(s, NextAttempt(s, job), n - 1);
    }
  }
}
