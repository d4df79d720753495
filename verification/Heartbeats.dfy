/**
 The heartbeat watchdog as a timed transition system: checker loops superseding one another by
 replacing the current loop id, a clock, and the time of the last heartbeat.

 A loop's id is its index, so ids are unique, and the clock does not go backwards. A wait may
 return at any time: early for a notification, late for a busy machine.
 */
module Heartbeats {
  import opened Runs

  datatype Pc =
    | LoopTest                                  // about to see whether it is current
    | Arming                                    // past the test, about to wait
    | Waiting(since: real)
    | Measured(at: real, seen: nat)             // elapsed time taken at `at`, `seen` heartbeats having come
    | Alarming(at: real, seen: nat)             // found itself current and the silence too long, handler not yet called
    | Calling                                   // inside the handler
    | Exited

  /** A call of the handler, and the measurement it rests on. */
  datatype Call = Call(loop: nat, at: real, measuredAt: real, seen: nat)

  /** `beats` records the past: the times at which the last-heartbeat time was set, latest last. */
  datatype Checker = Checker(
    timeout: real, now: real, beats: seq<real>, current: Option<nat>, loops: seq<Pc>, calls: seq<Call>)

  datatype Step =
    | Start
    | Stop
    | Beat
    | Test(i: nat)
    | Park(i: nat)
    | Wake(i: nat)
    | Recheck(i: nat)
    | CallHandler(i: nat)
    | Return(i: nat)
    | Tick(dt: real)

  function Initial(timeout: real, now: real): Checker {
    Checker(timeout, now, [now], None, [], [])
  }

  /** The time of the last heartbeat, or of the last start. */
  function LastBeat(s: Checker): real
    requires s.beats != []
  {
    s.beats[|s.beats| - 1]
  }

  function PcOf(s: Checker, i: nat): Pc {
    if i < |s.loops| then s.loops[i] else Exited
  }

  function Go(s: Checker, i: nat, pc: Pc): Option<Checker>
    requires i < |s.loops|
  {
    Some(s.(loops := s.loops[i := pc]))
  }

  function Next(s: Checker, l: Step): Option<Checker> {
    match l
    case Start =>
      Some(s.(beats := s.beats + [s.now], current := Some(|s.loops|), loops := s.loops + [LoopTest]))
    case Stop => Some(s.(current := None))
    case Beat => Some(s.(beats := s.beats + [s.now]))
    case Tick(dt) => if dt >= 0.0 then Some(s.(now := s.now + dt)) else None
    case _ => if l.i < |s.loops| then LoopNext(s, l) else None
  }

  function LoopNext(s: Checker, l: Step): Option<Checker>
    requires OfLoop(l) && l.i < |s.loops|
  {
    var mine := s.current == Some(l.i);
    match (l, s.loops[l.i])
    case (Test(i), LoopTest) => Go(s, i, if mine then Arming else Exited)
    case (Park(i), Arming) => Go(s, i, Waiting(s.now))
    case (Wake(i), Waiting(_)) => Go(s, i, Measured(s.now, |s.beats|))
    case (Recheck(i), Measured(at, seen)) =>
      if !mine then Go(s, i, Exited)
      else if 0 < seen <= |s.beats| && at - s.beats[seen - 1] > s.timeout then Go(s, i, Alarming(at, seen))
      else Go(s, i, LoopTest)
    case (CallHandler(i), Alarming(at, seen)) =>
      Go(s.(calls := s.calls + [Call(i, s.now, at, seen)]), i, Calling)
    case (Return(i), Calling) => Go(s, i, LoopTest)
    case _ => None
  }

  predicate OfLoop(l: Step) {
    !l.Start? && !l.Stop? && !l.Beat? && !l.Tick?
  }

  predicate Of(l: Step, i: nat) {
    OfLoop(l) && l.i == i
  }

  // ---------------------------------------------------------------- no false alarm

  ghost predicate BeatsInOrder(s: Checker) {
    && s.beats != []
    && (forall j, k :: 0 <= j <= k < |s.beats| ==> s.beats[j] <= s.beats[k])
    && LastBeat(s) <= s.now
  }

  /** By `at` the first `seen` heartbeats had come, and no other one before it. */
  ghost predicate SeenBy(s: Checker, at: real, seen: nat) {
    0 < seen <= |s.beats| && at <= s.now && forall j :: seen <= j < |s.beats| ==> s.beats[j] >= at
  }

  /** A measurement made at `at`, when the latest of `seen` heartbeats was longer ago than the timeout. */
  ghost predicate Silence(s: Checker, at: real, seen: nat) {
    SeenBy(s, at, seen) && s.beats[seen - 1] + s.timeout < at
  }

  ghost predicate LoopSound(s: Checker, pc: Pc) {
    match pc
    case Measured(at, seen) => SeenBy(s, at, seen)
    case Alarming(at, seen) => Silence(s, at, seen)
    case _ => true
  }

  ghost predicate Inv(s: Checker) {
    && BeatsInOrder(s)
    && (s.current.Some? ==> s.current.value < |s.loops| && !s.loops[s.current.value].Exited?)
    && (forall i :: 0 <= i < |s.loops| ==> LoopSound(s, s.loops[i]))
    && (forall k :: 0 <= k < |s.calls| ==>
          Silence(s, s.calls[k].measuredAt, s.calls[k].seen) && s.calls[k].measuredAt <= s.calls[k].at)
  }

  /** Time has passed and heartbeats have come, and nothing else. */
  ghost predicate Later(s: Checker, r: Checker) {
    && r.timeout == s.timeout && s.now <= r.now
    && |s.beats| <= |r.beats| && (forall k :: 0 <= k < |s.beats| ==> r.beats[k] == s.beats[k])
    && (forall k :: |s.beats| <= k < |r.beats| ==> r.beats[k] >= s.now)
  }

  lemma StepIsLater(s: Checker, l: Step)
    requires BeatsInOrder(s) && Next(s, l).Some?
    ensures Later(s, Next(s, l).value) && BeatsInOrder(Next(s, l).value)
  {
  }

  lemma LaterStillSound(s: Checker, r: Checker, pc: Pc)
    requires Later(s, r) && LoopSound(s, pc)
    ensures LoopSound(r, pc)
  {
  }

  lemma LoopsStaySound(s: Checker, l: Step)
    requires Inv(s) && Next(s, l).Some?
    ensures forall i :: 0 <= i < |Next(s, l).value.loops| ==> LoopSound(Next(s, l).value, Next(s, l).value.loops[i])
  {
    var r := Next(s, l).value;
    StepIsLater(s, l);
    forall i | 0 <= i < |r.loops|
      ensures LoopSound(r, r.loops[i])
    {
      if i < |s.loops| {
        LaterStillSound(s, r, s.loops[i]);
      }
    }
  }

  lemma CallsStaySound(s: Checker, l: Step, k: nat)
    requires Inv(s) && Next(s, l).Some? && k < |Next(s, l).value.calls|
    ensures var r := Next(s, l).value;
            Silence(r, r.calls[k].measuredAt, r.calls[k].seen) && r.calls[k].measuredAt <= r.calls[k].at
  {
    StepIsLater(s, l);
    if k < |s.calls| {
      LaterStillSound(s, Next(s, l).value, Alarming(s.calls[k].measuredAt, s.calls[k].seen));
    }
  }

  lemma StepKeepsInv(s: Checker, l: Step)
    requires Inv(s) && Next(s, l).Some?
    ensures Inv(Next(s, l).value) && Next(s, l).value.timeout == s.timeout
  {
    StepIsLater(s, l);
    LoopsStaySound(s, l);
    forall k: nat | k < |Next(s, l).value.calls|
      ensures var r := Next(s, l).value;
              Silence(r, r.calls[k].measuredAt, r.calls[k].seen) && r.calls[k].measuredAt <= r.calls[k].at
    {
      CallsStaySound(s, l, k);
    }
  }

  /**
   In every run, timely or not, the handler is called only after a check such that every
   heartbeat that had come before it, whenever, was longer ago than the timeout.
   */
  lemma NoFalseAlarm(timeout: real, now: real, labels: seq<Step>, s: Checker, k: nat)
    requires Exec(Next, Initial(timeout, now), labels) == Some(s)
    requires k < |s.calls|
    ensures s.calls[k].measuredAt <= s.calls[k].at
    ensures forall j :: 0 <= j < |s.beats| && s.beats[j] < s.calls[k].measuredAt ==>
              s.beats[j] + timeout < s.calls[k].measuredAt
  {
    var inv := (s: Checker) => Inv(s) && s.timeout == timeout;
    forall s: Checker, l: Step | inv(s) && Next(s, l).Some?
      ensures inv(Next(s, l).value)
    {
      StepKeepsInv(s, l);
    }
    Invariant(Next, inv, Initial(timeout, now), labels);
    assert Silence(s, s.calls[k].measuredAt, s.calls[k].seen);
  }

  // ---------------------------------------------------------------- stale loops

  ghost predicate Stale(s: Checker, i: nat) {
    && i < |s.loops| && s.current != Some(i)
    && (s.current.Some? ==> s.current.value < |s.loops|)
  }

  function CallsLeft(pc: Pc): nat {
    if pc.Alarming? then 1 else 0
  }

  function StepsLeft(pc: Pc): nat {
    match pc
    case Exited => 0
    case LoopTest => 1
    case Measured(_, _) => 1
    case Waiting(_) => 2
    case Calling => 2
    case Arming => 3
    case Alarming(_, _) => 3
  }

  lemma StaleStep(s: Checker, i: nat, l: Step)
    requires Stale(s, i) && Next(s, l).Some?
    ensures var r := Next(s, l).value;
            && Stale(r, i)
            && CallsLeft(PcOf(r, i)) + (if Of(l, i) && l.CallHandler? then 1 else 0) <= CallsLeft(PcOf(s, i))
            && StepsLeft(PcOf(r, i)) + (if Of(l, i) then 1 else 0) <= StepsLeft(PcOf(s, i))
  {
  }

  function OwnStep(s: Checker, i: nat): Step {
    match PcOf(s, i)
    case LoopTest => Test(i)
    case Arming => Park(i)
    case Waiting(_) => Wake(i)
    case Measured(_, _) => Recheck(i)
    case Alarming(_, _) => CallHandler(i)
    case Calling => Return(i)
    case Exited => Beat
  }

  function IsOf(i: nat): Step -> bool {
    (l: Step) => Of(l, i)
  }

  function IsCallOf(i: nat): Step -> bool {
    (l: Step) => Of(l, i) && l.CallHandler?
  }

  lemma StaleCalls(s: Checker, i: nat, labels: seq<Step>)
    requires Stale(s, i) && Exec(Next, s, labels).Some?
    ensures Stale(Exec(Next, s, labels).value, i)
    ensures Count(IsCallOf(i), labels) <= CallsLeft(PcOf(s, i))
  {
    var calls := (s: Checker) => CallsLeft(PcOf(s, i));
    forall s: Checker, l: Step | Stale(s, i) && Next(s, l).Some?
      ensures Stale(Next(s, l).value, i) && calls(Next(s, l).value) + (if IsCallOf(i)(l) then 1 else 0) <= calls(s)
    {
      StaleStep(s, i, l);
    }
    Potential(Next, s => Stale(s, i), calls, IsCallOf(i), s, labels);
  }

  lemma StaleSteps(s: Checker, i: nat, labels: seq<Step>)
    requires Stale(s, i) && Exec(Next, s, labels).Some?
    ensures Count(IsOf(i), labels) <= StepsLeft(PcOf(s, i))
  {
    var steps := (s: Checker) => StepsLeft(PcOf(s, i));
    forall s: Checker, l: Step | Stale(s, i) && Next(s, l).Some?
      ensures Stale(Next(s, l).value, i) && steps(Next(s, l).value) + (if IsOf(i)(l) then 1 else 0) <= steps(s)
    {
      StaleStep(s, i, l);
    }
    Potential(Next, s => Stale(s, i), steps, IsOf(i), s, labels);
  }

  /** Superseded by any number of starts, a loop calls the handler at most once more, then exits. */
  lemma StaleLoopDiesOut(s: Checker, i: nat, labels: seq<Step>)
    requires Stale(s, i) && Exec(Next, s, labels).Some?
    ensures Stale(Exec(Next, s, labels).value, i)
    ensures Count(IsCallOf(i), labels) <= CallsLeft(s.loops[i]) <= 1
    ensures Count(IsOf(i), labels) <= StepsLeft(s.loops[i]) <= 3
    ensures var r := Exec(Next, s, labels).value;
            r.loops[i].Exited? || (Of(OwnStep(r, i), i) && Next(r, OwnStep(r, i)).Some?)
  {
    StaleCalls(s, i, labels);
    StaleSteps(s, i, labels);
  }

  // ---------------------------------------------------------------- the detection window

  /** How long after a wait began it has returned: half the timeout, and what the machine is late. */
  function WaitBound(s: Checker, late: real): real {
    s.timeout / 2.0 + late
  }

  /** Time passes only while loops wait, and no wait lasts longer than the bound. */
  predicate MayPass(s: Checker, dt: real, late: real) {
    forall i :: 0 <= i < |s.loops| ==>
      match s.loops[i]
      case Waiting(since) => s.now + dt <= since + WaitBound(s, late)
      case Exited => true
      case _ => dt <= 0.0
  }

  function TimelyNext(late: real): (Checker, Step) -> Option<Checker> {
    (s: Checker, l: Step) => if l.Tick? && !MayPass(s, l.dt, late) then None else Next(s, l)
  }

  ghost predicate LoopTimely(s: Checker, pc: Pc, late: real) {
    match pc
    case Waiting(since) => since <= s.now <= since + WaitBound(s, late)
    case Measured(at, _) => at == s.now
    case Alarming(at, _) => at == s.now
    case _ => true
  }

  /** The latest time by which silence since the last heartbeat has been noticed. */
  function Deadline(s: Checker, late: real): real
    requires s.beats != []
  {
    LastBeat(s) + s.timeout + WaitBound(s, late)
  }

  /** Loop `c` has called the handler, within the window, for the silence since the last heartbeat. */
  ghost predicate Noticed(s: Checker, c: nat, late: real)
    requires s.beats != []
  {
    exists k :: 0 <= k < |s.calls| && s.calls[k].loop == c
      && LastBeat(s) + s.timeout < s.calls[k].at <= Deadline(s, late)
  }

  /** Where the current loop is, and how much time can have passed there. */
  ghost predicate OnTime(s: Checker, c: nat, late: real)
    requires s.beats != [] && c < |s.loops|
  {
    var h := LastBeat(s);
    match s.loops[c]
    case Waiting(since) => since <= h + s.timeout
    case Measured(at, seen) =>
      s.now <= Deadline(s, late) && (seen == |s.beats| || h == s.now)
    case Alarming(at, seen) =>
      s.now <= Deadline(s, late) && (s.now > h + s.timeout || h == s.now)
    case _ => s.now <= h + s.timeout
  }

  ghost predicate Watched(s: Checker, late: real) {
    && Inv(s) && s.timeout > 0.0 && late >= 0.0
    && (forall i :: 0 <= i < |s.loops| ==> LoopTimely(s, s.loops[i], late))
    && (s.current.Some? ==> Noticed(s, s.current.value, late) || OnTime(s, s.current.value, late))
  }

  lemma LoopsStayTimely(s: Checker, l: Step, late: real, i: nat)
    requires Watched(s, late) && TimelyNext(late)(s, l).Some?
    requires i < |Next(s, l).value.loops|
    ensures LoopTimely(Next(s, l).value, Next(s, l).value.loops[i], late)
  {
    if i < |s.loops| {
      assert LoopTimely(s, s.loops[i], late);
      if l.Tick? {
        assert MayPass(s, l.dt, late);
      }
    }
  }

  lemma NoticedStays(s: Checker, r: Checker, c: nat, late: real)
    requires s.beats != [] && Noticed(s, c, late)
    requires r.beats == s.beats && r.timeout == s.timeout && s.calls <= r.calls
    ensures Noticed(r, c, late)
  {
    var k :| 0 <= k < |s.calls| && s.calls[k].loop == c && LastBeat(s) + s.timeout < s.calls[k].at <= Deadline(s, late);
    assert r.calls[k] == s.calls[k];
  }

  /** A heartbeat, or the passing of time. */
  lemma CurrentStaysOnTime(s: Checker, l: Step, late: real, c: nat)
    requires Watched(s, late) && TimelyNext(late)(s, l).Some? && (l.Beat? || l.Tick?)
    requires s.current == Some(c)
    ensures Noticed(Next(s, l).value, c, late) || OnTime(Next(s, l).value, c, late)
  {
    var r := Next(s, l).value;
    assert LoopSound(s, s.loops[c]) && LoopTimely(s, s.loops[c], late);
    if l.Tick? {
      assert MayPass(s, l.dt, late);
      if Noticed(s, c, late) {
        NoticedStays(s, r, c, late);
      }
    }
  }

  /** The call itself is what notices the silence. */
  lemma CallNotices(s: Checker, c: nat, late: real)
    requires Watched(s, late) && s.current == Some(c) && OnTime(s, c, late) && s.loops[c].Alarming?
    ensures var r := Next(s, CallHandler(c)).value; Noticed(r, c, late) || OnTime(r, c, late)
  {
    var r := Next(s, CallHandler(c)).value;
    assert r.calls[|s.calls|].loop == c && r.calls[|s.calls|].at == s.now;
  }

  lemma LoopKeepsOnTime(s: Checker, l: Step, late: real, c: nat)
    requires Watched(s, late) && Next(s, l).Some? && OfLoop(l) && s.current == Some(c)
    ensures Noticed(Next(s, l).value, c, late) || OnTime(Next(s, l).value, c, late)
  {
    var r := Next(s, l).value;
    if Noticed(s, c, late) {
      NoticedStays(s, r, c, late);
    } else if l.i == c {
      assert LoopSound(s, s.loops[c]) && LoopTimely(s, s.loops[c], late);
      if l.CallHandler? {
        CallNotices(s, c, late);
      }
    }
  }

  lemma StepKeepsWatched(s: Checker, l: Step, late: real)
    requires Watched(s, late) && TimelyNext(late)(s, l).Some?
    ensures Watched(TimelyNext(late)(s, l).value, late)
  {
    var r := Next(s, l).value;
    StepKeepsInv(s, l);
    forall i: nat | i < |r.loops|
      ensures LoopTimely(r, r.loops[i], late)
    {
      LoopsStayTimely(s, l, late, i);
    }
    if s.current.Some? && (l.Beat? || l.Tick?) {
      CurrentStaysOnTime(s, l, late, s.current.value);
    } else if s.current.Some? && !l.Start? && !l.Stop? {
      LoopKeepsOnTime(s, l, late, s.current.value);
    }
  }

  /**
   In every timely run, once more than three halves of the timeout, and what the machine is
   late, have passed since the last heartbeat, the current loop has called its handler: later
   than the timeout after that heartbeat, and not later than that bound.
   */
  lemma SilenceIsNoticed(timeout: real, now: real, late: real, labels: seq<Step>, s: Checker, c: nat)
    requires timeout > 0.0 && late >= 0.0
    requires Exec(TimelyNext(late), Initial(timeout, now), labels) == Some(s)
    requires s.current == Some(c) && s.beats != [] && s.now > LastBeat(s) + timeout + timeout / 2.0 + late
    ensures exists k :: 0 <= k < |s.calls| && s.calls[k].loop == c
              && LastBeat(s) + timeout < s.calls[k].at <= LastBeat(s) + timeout + timeout / 2.0 + late
  {
    var inv := (s: Checker) => Watched(s, late) && s.timeout == timeout;
    forall s: Checker, l: Step | inv(s) && TimelyNext(late)(s, l).Some?
      ensures inv(TimelyNext(late)(s, l).value)
    {
      StepKeepsWatched(s, l, late);
      StepKeepsInv(s, l);
    }
    Invariant(TimelyNext(late), inv, Initial(timeout, now), labels);
    assert LoopTimely(s, s.loops[c], late);
    assert Noticed(s, c, late);
  }

  // ---------------------------------------------------------------- interference

  /** Loop `i` takes no step in the run. */
  ghost predicate WithoutLoop(labels: seq<Step>, i: nat) {
    forall k :: 0 <= k < |labels| ==> !Of(labels[k], i)
  }

  /** Ids in use are ids of loops. */
  predicate CurrentExists(s: Checker) {
    s.current.Some? ==> s.current.value < |s.loops|
  }

  /** What heartbeats, the clock and all other threads' steps leave of what loop `i` relies on. */
  ghost predicate KeptFor(s: Checker, r: Checker, i: nat) {
    && CurrentExists(r) && i < |s.loops| <= |r.loops| && r.loops[i] == s.loops[i]
    && (s.current != Some(i) ==> r.current != Some(i))
    && s.beats <= r.beats && s.now <= r.now
  }

  lemma {:induction false} OthersKeep(s: Checker, labels: seq<Step>, i: nat)
    requires i < |s.loops| && CurrentExists(s) && WithoutLoop(labels, i) && Exec(Next, s, labels).Some?
    ensures KeptFor(s, Exec(Next, s, labels).value, i)
    decreases |labels|
  {
    if labels != [] {
      assert !Of(labels[0], i) && WithoutLoop(labels[1..], i);
      OthersKeep(Next(s, labels[0]).value, labels[1..], i);
    }
  }
}
