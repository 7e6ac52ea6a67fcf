/** The per-source tick loop of the scheduler, over every interleaving of the loops, the
    runs they start and the shutdown. */
module Scheduler {
  import opened Wrappers

  // Where a source's loop is: waiting for its timer; fired; past the compare-and-swap;
  // past the wait group's Add; waiting for its runs after a shutdown; or returned.
  datatype Loop = Waiting | Fired | Won | Added | Draining | Returned

  // The runs are counted by their progress: spawned but not begun, inside the body, past
  // it with the flag still set, and past clearing the flag but not yet done.
  datatype Source = Source(
    loop: Loop, running: bool, inFlight: nat,
    spawned: nat, active: nat, ended: nat, cleared: nat,
    ticks: nat, runs: nat, skips: nat, finished: nat)

  const IDLE := Source(Waiting, false, 0, 0, 0, 0, 0, 0, 0, 0, 0)

  datatype Move = Tick | Swap | Add | Spawn | Begin | End | Clear | Done | Drain | Return

  predicate CanMove(x: Source, cancelled: bool, m: Move) {
    match m
    case Tick => x.loop == Waiting
    case Swap => x.loop == Fired
    case Add => x.loop == Won
    case Spawn => x.loop == Added
    case Begin => x.spawned > 0
    case End => x.active > 0
    case Clear => x.ended > 0
    // The wait group's counter may not go negative: Done would panic.
    case Done => x.cleared > 0
    case Drain => x.loop == Waiting && cancelled
    case Return => x.loop == Draining && x.inFlight == 0
  }

  function Moved(x: Source, m: Move): Source
    requires CanMove(x, true, m) && (m == Done ==> x.inFlight > 0)
  {
    match m
    case Tick => x.(loop := Fired, ticks := x.ticks + 1)
    case Swap => if x.running then x.(loop := Waiting, skips := x.skips + 1) else x.(loop := Won, running := true)
    case Add => x.(loop := Added, inFlight := x.inFlight + 1)
    case Spawn => x.(loop := Waiting, spawned := x.spawned + 1, runs := x.runs + 1)
    case Begin => x.(spawned := x.spawned - 1, active := x.active + 1)
    case End => x.(active := x.active - 1, ended := x.ended + 1)
    case Clear => x.(ended := x.ended - 1, cleared := x.cleared + 1, running := false)
    case Done => x.(cleared := x.cleared - 1, inFlight := x.inFlight - 1, finished := x.finished + 1)
    case Drain => x.(loop := Draining)
    case Return => x.(loop := Returned)
  }

  // ---------- One source ----------

  function Starting(x: Source): nat {
    if x.loop == Won || x.loop == Added then 1 else 0
  }

  ghost predicate Sound(x: Source) {
    // The flag is owned by the loop that won it, then by the run it started.
    && Starting(x) + x.spawned + x.active + x.ended == (if x.running then 1 else 0)
    && x.inFlight == (if x.loop == Added then 1 else 0) + x.spawned + x.active + x.ended + x.cleared
    && x.ticks == x.runs + x.skips + (if x.loop == Fired || x.loop == Won || x.loop == Added then 1 else 0)
    && x.runs == x.spawned + x.active + x.ended + x.cleared + x.finished
    && (x.loop == Returned ==> x.inFlight == 0)
  }

  lemma MoveKeepsSound(x: Source, cancelled: bool, m: Move)
    requires Sound(x) && CanMove(x, cancelled, m)
    ensures (m == Done ==> x.inFlight > 0) && Sound(Moved(x, m))
  {
  }

  // ---------- All sources ----------

  datatype State = State(sources: seq<Source>, cancelled: bool, returned: bool)

  datatype Step = Of(source: nat, move: Move) | Cancel | ReturnAll

  function Initial(n: nat): State {
    State(seq(n, _ => IDLE), false, false)
  }

  predicate Enabled(st: State, step: Step) {
    match step
    case Of(i, m) => i < |st.sources| && CanMove(st.sources[i], st.cancelled, m)
      && (m == Done ==> st.sources[i].inFlight > 0)
    case Cancel => true
    case ReturnAll => st.cancelled && forall i :: 0 <= i < |st.sources| ==> st.sources[i].loop == Returned
  }

  function Do(st: State, step: Step): State
    requires Enabled(st, step)
  {
    match step
    case Of(i, m) => st.(sources := st.sources[i := Moved(st.sources[i], m)])
    case Cancel => st.(cancelled := true)
    case ReturnAll => st.(returned := true)
  }

  // The state after some steps; None if one of them was not enabled.
  function Play(st: State, steps: seq<Step>): Option<State>
    decreases |steps|
  {
    if steps == [] then Some(st)
    else if Enabled(st, steps[0]) then Play(Do(st, steps[0]), steps[1..])
    else None
  }

  function After(n: nat, steps: seq<Step>): Option<State> {
    Play(Initial(n), steps)
  }

  ghost predicate Inv(n: nat, st: State) {
    && |st.sources| == n
    && (forall i :: 0 <= i < n ==> Sound(st.sources[i]))
    && (forall i :: 0 <= i < n && st.sources[i].loop in {Draining, Returned} ==> st.cancelled)
    && (st.returned ==> forall i :: 0 <= i < n ==> st.sources[i].loop == Returned)
  }

  lemma StepKeepsInv(n: nat, st: State, step: Step)
    requires Inv(n, st) && Enabled(st, step)
    ensures Inv(n, Do(st, step))
  {
    hide Sound;
    if step.Of? { MoveKeepsSound(st.sources[step.source], st.cancelled, step.move); }
  }

  lemma {:induction false} PlayKeepsInv(n: nat, st: State, steps: seq<Step>)
    requires Inv(n, st) && Play(st, steps).Some?
    ensures Inv(n, Play(st, steps).value)
    decreases |steps|
  {
    if steps != [] {
      hide Inv, Enabled, Do;
      StepKeepsInv(n, st, steps[0]);
      PlayKeepsInv(n, Do(st, steps[0]), steps[1..]);
    }
  }

  lemma RunKeepsInv(n: nat, steps: seq<Step>)
    requires After(n, steps).Some?
    ensures Inv(n, After(n, steps).value)
  {
    assert Inv(n, Initial(n));
    PlayKeepsInv(n, Initial(n), steps);
  }

  /** Runs of one source never overlap; every tick is exactly one run or one skip, but
      for the one being decided; and the wait group's counter never runs out. */
  lemma RunsNeverOverlap(n: nat, steps: seq<Step>, i: nat)
    requires i < n && After(n, steps).Some?
    ensures var st := After(n, steps).value;
      && i < |st.sources|
      && st.sources[i].spawned + st.sources[i].active + st.sources[i].ended <= 1
      && (st.sources[i].loop in {Waiting, Draining, Returned} ==>
        st.sources[i].ticks == st.sources[i].runs + st.sources[i].skips)
      && (CanMove(st.sources[i], st.cancelled, Done) ==> st.sources[i].inFlight > 0)
  {
    RunKeepsInv(n, steps);
    hide After, Play;
    assert Sound(After(n, steps).value.sources[i]);
  }

  /** A tick is skipped exactly while the previous run has not cleared the flag. */
  lemma SkipsExactlyWhileRunning(n: nat, steps: seq<Step>, i: nat)
    requires i < n && After(n, steps).Some? && i < |After(n, steps).value.sources|
    requires After(n, steps).value.sources[i].loop == Fired
    ensures var x := After(n, steps).value.sources[i];
      Moved(x, Swap).skips == x.skips + 1 <==> x.spawned + x.active + x.ended == 1
  {
    RunKeepsInv(n, steps);
    hide After, Play;
    SkipOf(After(n, steps).value.sources[i]);
  }

  lemma SkipOf(x: Source)
    requires Sound(x) && x.loop == Fired
    ensures Moved(x, Swap).skips == x.skips + 1 <==> x.spawned + x.active + x.ended == 1
  {
  }

  /** Once the scheduler has returned, every run any source started has finished, and
      nothing can start another. */
  lemma ReturnedMeansFinished(n: nat, steps: seq<Step>, i: nat)
    requires i < n && After(n, steps).Some? && After(n, steps).value.returned
    ensures var st := After(n, steps).value;
      && i < |st.sources|
      && st.sources[i].runs == st.sources[i].finished && !st.sources[i].running
      && forall m :: !CanMove(st.sources[i], st.cancelled, m)
  {
    RunKeepsInv(n, steps);
    hide After, Play;
    assert Sound(After(n, steps).value.sources[i]);
  }

  // ---------- The scheduler can always return ----------

  // What source x may do next on its way out.
  function NextMove(x: Source): Move {
    if x.cleared > 0 then Done
    else if x.ended > 0 then Clear
    else if x.active > 0 then End
    else if x.spawned > 0 then Begin
    else match x.loop
      case Waiting => Drain
      case Fired => Swap
      case Won => Add
      case Added => Spawn
      case _ => Return
  }

  function MovesLeft(x: Source): nat {
    x.cleared + 2 * x.ended + 3 * x.active + 4 * x.spawned +
    match x.loop
    case Returned => 0
    case Draining => 1
    case Waiting => 2
    case Added => 7
    case Won => 8
    case Fired => 9
  }

  lemma NextMoveLeaves(x: Source)
    requires Sound(x) && x.loop != Returned
    ensures CanMove(x, true, NextMove(x)) && (NextMove(x) == Done ==> x.inFlight > 0)
    ensures MovesLeft(Moved(x, NextMove(x))) < MovesLeft(x)
  {
  }

  // The first n sources have returned.
  ghost predicate OutUpTo(st: State, n: nat) {
    n <= |st.sources| && st.cancelled && forall i :: 0 <= i < n ==> st.sources[i].loop == Returned
  }

  lemma {:induction false} OneMoreOut(n: nat, st: State, i: nat) returns (more: seq<Step>)
    requires Inv(n, st) && i < n && OutUpTo(st, i)
    ensures Play(st, more).Some? && Inv(n, Play(st, more).value) && OutUpTo(Play(st, more).value, i + 1)
    decreases MovesLeft(st.sources[i])
  {
    var x := st.sources[i];
    if x.loop == Returned { return []; }
    NextMoveLeaves(x);
    var step := Of(i, NextMove(x));
    hide Sound, CanMove, Moved, NextMove, MovesLeft;
    StepKeepsInv(n, st, step);
    var rest := OneMoreOut(n, Do(st, step), i);
    more := [step] + rest;
    assert more[1..] == rest;
  }

  lemma {:induction false} AllOut(n: nat, st: State, i: nat) returns (more: seq<Step>)
    requires Inv(n, st) && i <= n && OutUpTo(st, i)
    ensures Play(st, more).Some? && Play(st, more).value.returned
    decreases n - i
  {
    if i == n {
      assert Enabled(st, ReturnAll);
      assert [ReturnAll][1..] == [];
      return [ReturnAll];
    }
    hide Play;
    var first := OneMoreOut(n, st, i);
    var rest := AllOut(n, Play(st, first).value, i + 1);
    PlayConcat(st, first, rest);
    more := first + rest;
  }

  /** Nothing can get stuck: whatever has happened, once cancelled every source can still
      finish the runs it started and return, and so can the scheduler. */
  lemma CanAlwaysReturn(n: nat, steps: seq<Step>) returns (more: seq<Step>)
    requires After(n, steps).Some?
    ensures After(n, steps + more).Some? && After(n, steps + more).value.returned
  {
    RunKeepsInv(n, steps);
    var st := After(n, steps).value;
    StepKeepsInv(n, st, Cancel);
    var rest := AllOut(n, Do(st, Cancel), 0);
    more := [Cancel] + rest;
    assert more[1..] == rest;
    PlayConcat(Initial(n), steps, more);
  }

  // ---------- How high the wait counter can go ----------

  // A run has been counted and has not cleared its flag.
  predicate PastAdd(x: Source) {
    x.loop == Added || x.spawned + x.active + x.ended > 0
  }

  /** In every reachable state the wait group's counter is the run under way, if it is
      past Add, and those that cleared their flag but are not done. So it tells whether a
      run is under way exactly when no run has stalled between the two. */
  lemma WaitCounterCounts(n: nat, steps: seq<Step>, i: nat)
    requires i < n && After(n, steps).Some?
    ensures var st := After(n, steps).value;
      && i < |st.sources|
      && st.sources[i].inFlight == (if PastAdd(st.sources[i]) then 1 else 0) + st.sources[i].cleared
      && (st.sources[i].inFlight == (if PastAdd(st.sources[i]) then 1 else 0) <==> st.sources[i].cleared == 0)
  {
    RunKeepsInv(n, steps);
    hide After, Play, Sound, PastAdd, CanMove, Moved;
    CounterOf(After(n, steps).value.sources[i]);
  }

  lemma CounterOf(x: Source)
    requires Sound(x)
    ensures x.inFlight == (if PastAdd(x) then 1 else 0) + x.cleared
  {
  }

  // A run is started; it clears its flag and stalls before Done.
  const STARTED := [Of(0, Tick)] + ([Of(0, Swap)] + ([Of(0, Add)] + ([Of(0, Spawn)] + [])))
  const STALLED := [Of(0, Begin)] + ([Of(0, End)] + ([Of(0, Clear)] + []))

  function Stalls(k: nat): seq<Step> {
    if k == 0 then [] else Stalls(k - 1) + (STARTED + STALLED)
  }

  // k runs have stalled.
  function StalledState(k: nat): State {
    State([IDLE.(inFlight := k, cleared := k, ticks := k, runs := k)], false, false)
  }

  lemma {:induction false} PlayConcat(st: State, a: seq<Step>, b: seq<Step>)
    requires Play(st, a).Some?
    ensures Play(st, a + b) == Play(Play(st, a).value, b)
    decreases |a|
  {
    if a == [] {
      assert a + b == b;
    } else {
      assert (a + b)[1..] == a[1..] + b;
      PlayConcat(Do(st, a[0]), a[1..], b);
    }
  }

  function Single(x: Source): State {
    State([x], false, false)
  }

  lemma OneMove(x: Source, m: Move, rest: seq<Step>)
    requires CanMove(x, false, m) && m != Done
    ensures Play(Single(x), [Of(0, m)] + rest) == Play(Single(Moved(x, m)), rest)
  {
    assert ([Of(0, m)] + rest)[1..] == rest;
    assert Do(Single(x), Of(0, m)) == Single(Moved(x, m));
  }

  lemma OneMoreStarts(x: Source)
    requires x.loop == Waiting && !x.running
    ensures Play(Single(x), STARTED) ==
      Some(Single(x.(running := true, inFlight := x.inFlight + 1, ticks := x.ticks + 1, spawned := x.spawned + 1,
                     runs := x.runs + 1)))
  {
    var x1 := x.(loop := Fired, ticks := x.ticks + 1);
    var x2 := x1.(loop := Won, running := true);
    var x3 := x2.(loop := Added, inFlight := x.inFlight + 1);
    var x4 := x3.(loop := Waiting, spawned := x.spawned + 1, runs := x.runs + 1);
    assert Play(Single(x4), []) == Some(Single(x4));
    hide Play;
    OneMove(x3, Spawn, []);
    OneMove(x2, Add, [Of(0, Spawn)] + []);
    OneMove(x1, Swap, [Of(0, Add)] + ([Of(0, Spawn)] + []));
    OneMove(x, Tick, [Of(0, Swap)] + ([Of(0, Add)] + ([Of(0, Spawn)] + [])));
  }

  lemma SpawnedStalls(x: Source)
    requires x.spawned == 1 && x.active == 0 && x.ended == 0
    ensures Play(Single(x), STALLED) == Some(Single(x.(spawned := 0, cleared := x.cleared + 1, running := false)))
  {
    var x1 := x.(spawned := 0, active := 1);
    var x2 := x1.(active := 0, ended := 1);
    var x3 := x2.(ended := 0, cleared := x.cleared + 1, running := false);
    assert Play(Single(x3), []) == Some(Single(x3));
    hide Play;
    OneMove(x2, Clear, []);
    OneMove(x1, End, [Of(0, Clear)] + []);
    OneMove(x, Begin, [Of(0, End)] + ([Of(0, Clear)] + []));
  }

  lemma OneMoreStalls(k: nat)
    ensures Play(StalledState(k), STARTED + STALLED) == Some(StalledState(k + 1))
  {
    hide Play;
    var x := StalledState(k).sources[0];
    var y := x.(running := true, inFlight := k + 1, ticks := k + 1, spawned := 1, runs := k + 1);
    assert StalledState(k) == Single(x);
    OneMoreStarts(x);
    SpawnedStalls(y);
    PlayConcat(Single(x), STARTED, STALLED);
    assert Single(y.(spawned := 0, cleared := k + 1, running := false)) == StalledState(k + 1);
  }

  /** The wait group's counter does not bound the overlap: a run clears its flag before
      it is done, so with runs stalling there the counter reaches any height, though no
      two bodies ever overlap. */
  lemma {:induction false} WaitCounterIsUnbounded(k: nat)
    ensures After(1, Stalls(k)) == Some(StalledState(k))
    ensures StalledState(k).sources[0].inFlight == k
  {
    if k == 0 {
      assert Initial(1) == StalledState(0);
    } else {
      WaitCounterIsUnbounded(k - 1);
      PlayConcat(Initial(1), Stalls(k - 1), STARTED + STALLED);
      OneMoreStalls(k - 1);
    }
  }
}
