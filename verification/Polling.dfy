/**
 The operations poller as a transition system: the nested loops of its one thread, and the
 threads that notify or stop it through its condition variable.

 `gated` says whether a backpressure callback was given. What the backend and the callbacks
 answer, and whether a wait times out, are left open: each is part of a label.
 */
module Polling {
  import opened Runs
  import opened Threads

  datatype Pc<+O> =
    | Unborn
    | LoopTest                   // reads the flag, outside the lock
    | Gate                       // asks whether work can be accepted, outer loop
    | Beating                    // about to send a heartbeat
    | WantsWait                  // wants the lock, to wait
    | Settling                   // holds the lock, about to wait
    | Waiting                    // in the timed wait, lock released, not notified
    | Notified                   // in the timed wait, notified, wants the lock back
    | Waking                     // holds the lock again
    | Fetching
    | InnerTest(found: Option<O>)
    | Submitting(op: O)
    | Scheduling(op: O)          // checked, and downloaded if need be
    | Regate                     // asks whether work can be accepted, inner loop
    | Ended
    | Died                       // an exception left the loop

  datatype Holder = Free | Mine | Client(thread: Thread)

  datatype Poller<+O> = Poller(gated: bool, started: bool, running: bool, waiting: bool, lock: Holder, pc: Pc<O>)

  datatype Step<+O> =
    | Start
    | TestRunning
    | Ask(accepts: bool)
    | Beat(raised: bool)
    | LockToWait
    | Park
    | WakeUp(timedOut: bool)
    | Resume
    | Fetch(found: Option<O>, raised: bool)
    | TestInner
    | Reject
    | Crash
    | Prepare(ready: O)
    | Submitted
    | Lock(c: Thread)
    | Notify(c: Thread)
    | Stop(c: Thread)

  function Initial<O>(gated: bool): Poller<O> {
    Poller(gated, false, false, false, Free, Unborn)
  }

  function Go<O>(p: Poller<O>, pc: Pc<O>): Option<Poller<O>> {
    Some(p.(pc := pc))
  }

  /** notify_all */
  function Woken<O>(pc: Pc<O>): Pc<O> {
    if pc.Waiting? then Notified else pc
  }

  function Next<O>(p: Poller<O>, l: Step<O>): Option<Poller<O>> {
    match l
    case Start =>
      if p.started then None else Some(p.(started := true, running := true, pc := LoopTest))
    case TestRunning =>
      if !p.pc.LoopTest? then None
      else Go(p, if !p.running then Ended else if p.gated then Gate else Fetching)
    case Ask(accepts) =>
      if p.pc.Gate? then Go(p, if accepts then Fetching else Beating)
      else if p.pc.Regate? then Go(p, if accepts then Fetching else WantsWait)
      else None
    case Beat(_) =>
      if p.pc.Beating? then Go(p, WantsWait) else None
    case LockToWait =>
      if p.pc.WantsWait? && p.lock.Free? then Go(p.(lock := Mine), Settling) else None
    case Park =>
      if p.pc.Settling? then Go(p.(lock := Free, waiting := true), Waiting) else None
    case WakeUp(timedOut) =>
      if p.lock.Free? && (p.pc.Notified? || (timedOut && p.pc.Waiting?)) then Go(p.(lock := Mine), Waking) else None
    case Resume =>
      if p.pc.Waking? then Go(p.(lock := Free, waiting := false), LoopTest) else None
    case Fetch(found, raised) =>
      if p.pc.Fetching? then Go(p, InnerTest(if raised then None else found)) else None
    case TestInner =>
      if p.pc.InnerTest?
      then Go(p, if p.pc.found.Some? && p.running then Submitting(p.pc.found.value) else WantsWait)
      else None
    case Reject =>
      if p.pc.Submitting? then Go(p, if p.gated then Regate else Fetching) else None
    case Crash =>
      if p.pc.Submitting? then Go(p, Died) else None
    case Prepare(ready) =>
      if p.pc.Submitting? then Go(p, Scheduling(ready)) else None
    case Submitted =>
      if p.pc.Scheduling? then Go(p, if p.gated then Regate else Fetching) else None
    case Lock(c) =>
      if p.lock.Free? then Some(p.(lock := Client(c))) else None
    case Notify(c) =>
      if p.lock == Client(c) then Some(p.(lock := Free, pc := Woken(p.pc))) else None
    case Stop(c) =>
      if p.lock == Client(c) then Some(p.(lock := Free, running := false, pc := Woken(p.pc))) else None
  }

  /** The steps of the poller's own thread. */
  predicate Own<O>(l: Step<O>) {
    !l.Start? && !l.Lock? && !l.Notify? && !l.Stop?
  }

  ghost predicate Inv<O>(p: Poller<O>) {
    && (p.lock.Mine? <==> p.pc.Settling? || p.pc.Waking?)
    && (p.waiting <==> p.pc.Waiting? || p.pc.Notified? || p.pc.Waking?)
    && (p.started <==> !p.pc.Unborn?)
    && (p.running ==> p.started)
  }

  lemma StepKeepsInv<O>(p: Poller<O>, l: Step<O>)
    requires Inv(p) && Next(p, l).Some?
    ensures Inv(Next(p, l).value)
  {
  }

  lemma ReachableInv<O(!new)>(gated: bool, labels: seq<Step<O>>)
    requires Exec(Next, Initial(gated), labels).Some?
    ensures Inv(Exec(Next, Initial(gated), labels).value)
  {
    forall p: Poller<O>, l: Step<O> | Inv(p) && Next(p, l).Some?
      ensures Inv(Next(p, l).value)
    {
      StepKeepsInv(p, l);
    }
    Invariant(Next, p => Inv(p), Initial(gated), labels);
  }

  // ---------------------------------------------------------------- never silent for two waits

  predicate Attempt<O>(l: Step<O>) {
    l.Fetch? || l.Beat?
  }

  /** Where the poller can be after a wait was entered and before the next attempt. */
  predicate SinceWait<O>(pc: Pc<O>) {
    pc.Waiting? || pc.Notified? || pc.Waking? || pc.LoopTest? || pc.Gate? || pc.Beating? || pc.Fetching? || pc.Ended?
  }

  lemma {:induction false} SilentRunDoesNotWait<O>(p: Poller<O>, labels: seq<Step<O>>)
    requires p.started && SinceWait(p.pc)
    requires Exec(Next, p, labels).Some?
    requires forall k :: 0 <= k < |labels| ==> !Attempt(labels[k])
    ensures forall k :: 0 <= k < |labels| ==> !labels[k].Park?
    decreases |labels|
  {
    if labels != [] {
      assert !Attempt(labels[0]);
      forall k | 0 <= k < |labels[1..]| ensures !Attempt(labels[1..][k]) {
        assert labels[1..][k] == labels[k + 1];
      }
      SilentRunDoesNotWait(Next(p, labels[0]).value, labels[1..]);
      forall k | 0 < k < |labels| ensures !labels[k].Park? {
        assert labels[k] == labels[1..][k - 1];
      }
    }
  }

  /** Between any two waits of any run there is a fetch or a heartbeat attempt, failed or not. */
  lemma NeverSilentForTwoWaits<O(!new)>(gated: bool, labels: seq<Step<O>>, i: nat, j: nat)
    requires Exec(Next, Initial(gated), labels).Some?
    requires i < j < |labels| && labels[i].Park? && labels[j].Park?
    ensures exists k :: i < k < j && Attempt(labels[k])
  {
    SplitAt(Next, Initial(gated), labels, i);
    ReachableInv(gated, labels[..i]);
    var p := Next(Exec(Next, Initial(gated), labels[..i]).value, labels[i]).value;
    if forall k :: i < k < j ==> !Attempt(labels[k]) {
      SilentUpTo(p, labels[i + 1..], j - i - 1);
    }
  }

  lemma SilentUpTo<O>(p: Poller<O>, labels: seq<Step<O>>, j: nat)
    requires p.started && SinceWait(p.pc) && j < |labels|
    requires Exec(Next, p, labels).Some?
    requires forall k :: 0 <= k < j ==> !Attempt(labels[k])
    ensures !labels[j].Park?
  {
    if !Attempt(labels[j]) {
      SplitAt(Next, p, labels, j);
      Then(Next, p, labels[..j], Exec(Next, p, labels[..j]).value, labels[j]);
      SilentRunDoesNotWait(p, labels[..j] + [labels[j]]);
      assert !(labels[..j] + [labels[j]])[j].Park?;
    }
  }

  /** The labels of the poller's own thread. */
  function OwnLabels<O>(labels: seq<Step<O>>): seq<Step<O>> {
    Filter(Own, labels)
  }

  lemma {:induction false} ParksNext<O>(p: Poller<O>, labels: seq<Step<O>>)
    requires p.started && p.pc.Settling? && Exec(Next, p, labels).Some?
    ensures var own := OwnLabels(labels); |own| > 0 ==> own[0].Park?
    decreases |labels|
  {
    if labels != [] && !Own(labels[0]) {
      ParksNext(Next(p, labels[0]).value, labels[1..]);
    }
  }

  lemma {:induction false} LocksToWaitNext<O>(p: Poller<O>, labels: seq<Step<O>>)
    requires p.started && p.pc.WantsWait? && Exec(Next, p, labels).Some?
    ensures var own := OwnLabels(labels);
            (|own| > 0 ==> own[0].LockToWait?) && (|own| > 1 ==> own[1].Park?)
    decreases |labels|
  {
    if labels != [] {
      var next := Next(p, labels[0]).value;
      if Own(labels[0]) {
        ParksNext(next, labels[1..]);
      } else {
        LocksToWaitNext(next, labels[1..]);
      }
    }
  }

  lemma {:induction false} BeatsNext<O>(p: Poller<O>, labels: seq<Step<O>>)
    requires p.started && p.pc.Beating? && Exec(Next, p, labels).Some?
    ensures var own := OwnLabels(labels);
            (|own| > 0 ==> own[0].Beat?) && (|own| > 1 ==> own[1].LockToWait?) && (|own| > 2 ==> own[2].Park?)
    decreases |labels|
  {
    if labels != [] {
      var next := Next(p, labels[0]).value;
      if Own(labels[0]) {
        LocksToWaitNext(next, labels[1..]);
      } else {
        BeatsNext(next, labels[1..]);
      }
    }
  }

  /**
   When the outer loop finds no capacity, the poller's next own steps are a heartbeat attempt,
   whether or not it fails, and then entering a wait.
   */
  lemma OuterBackpressureBeatsThenWaits<O>(p: Poller<O>, labels: seq<Step<O>>)
    requires p.started && p.pc.Gate? && labels != [] && labels[0] == Ask(false)
    requires Exec(Next, p, labels).Some?
    ensures var own := OwnLabels(labels);
            && own[0] == Ask(false)
            && (|own| > 1 ==> own[1].Beat?)
            && (|own| > 2 ==> own[2].LockToWait?)
            && (|own| > 3 ==> own[3].Park?)
  {
    BeatsNext(Next(p, labels[0]).value, labels[1..]);
  }

  /** When the inner loop finds no capacity, the poller fetches no more, and its next own steps enter a wait. */
  lemma InnerBackpressureWaits<O>(p: Poller<O>, labels: seq<Step<O>>)
    requires p.started && p.pc.Regate? && labels != [] && labels[0] == Ask(false)
    requires Exec(Next, p, labels).Some?
    ensures var own := OwnLabels(labels);
            && own[0] == Ask(false)
            && (|own| > 1 ==> own[1].LockToWait?)
            && (|own| > 2 ==> own[2].Park?)
  {
    LocksToWaitNext(Next(p, labels[0]).value, labels[1..]);
  }

  // ---------------------------------------------------------------- what is found is submitted

  predicate IsPrepare<O>(l: Step<O>) { l.Prepare? }

  lemma PreparedStep<O>(p: Poller<O>, l: Step<O>)
    requires p.started == !p.pc.Unborn? && Next(p, l).Some?
    ensures var r := Next(p, l).value;
            && r.started == !r.pc.Unborn?
            && (if l.Prepare? then 1 else 0) + (if p.pc.Scheduling? then 1 else 0)
               == (if l.Submitted? then 1 else 0) + (if r.pc.Scheduling? then 1 else 0)
  {
  }

  lemma {:induction false} PreparedFrom<O>(p: Poller<O>, labels: seq<Step<O>>)
    requires p.started == !p.pc.Unborn? && Exec(Next, p, labels).Some?
    ensures var r := Exec(Next, p, labels).value;
            Count(IsPrepare, labels) + (if p.pc.Scheduling? then 1 else 0)
            == Count(IsSubmitted, labels) + (if r.pc.Scheduling? then 1 else 0)
    decreases |labels|
  {
    if labels != [] {
      PreparedStep(p, labels[0]);
      PreparedFrom(Next(p, labels[0]).value, labels[1..]);
    }
  }

  /** Over every run, each operation that was checked and is ready is submitted, once, or is being submitted. */
  lemma PreparedAreSubmitted<O>(gated: bool, labels: seq<Step<O>>)
    requires Exec(Next, Initial(gated), labels).Some?
    ensures Count(IsPrepare, labels) ==
            Count(IsSubmitted, labels) + if Exec(Next, Initial(gated), labels).value.pc.Scheduling? then 1 else 0
  {
    PreparedFrom(Initial<O>(gated), labels);
  }

  // ---------------------------------------------------------------- shutdown

  ghost predicate Stopped<O>(p: Poller<O>) {
    Inv(p) && p.started && !p.running
  }

  /** Submissions the poller can still make once stopped. */
  function SubmitsLeft<O>(pc: Pc<O>): nat {
    if pc.Submitting? || pc.Scheduling? then 1 else 0
  }

  function FetchesLeft<O>(pc: Pc<O>): nat {
    if pc.Gate? || pc.Fetching? || pc.Regate? then 1 else SubmitsLeft(pc)
  }

  function WaitsLeft<O>(pc: Pc<O>): nat {
    if pc.Beating? || pc.WantsWait? || pc.Settling? || pc.InnerTest? then 1 else FetchesLeft(pc)
  }

  function StepsLeft<O>(pc: Pc<O>): nat {
    match pc
    case Ended => 0
    case Died => 0
    case Unborn => 0
    case LoopTest => 1
    case Waking => 2
    case Waiting => 3
    case Notified => 3
    case Settling => 4
    case WantsWait => 5
    case Beating => 6
    case InnerTest(_) => 6
    case Fetching => 7
    case Gate => 8
    case Regate => 8
    case Scheduling(_) => 9
    case Submitting(_) => 10
  }

  /** A step the poller can take next, unless it has ended or must wait for its lock. */
  function OwnStep<O>(p: Poller<O>): Step<O> {
    match p.pc
    case Unborn => Start
    case LoopTest => TestRunning
    case Gate => Ask(false)
    case Beating => Beat(false)
    case WantsWait => LockToWait
    case Settling => Park
    case Waiting => WakeUp(true)
    case Notified => WakeUp(false)
    case Waking => Resume
    case Fetching => Fetch(None, false)
    case InnerTest(_) => TestInner
    case Submitting(op) => Prepare(op)
    case Scheduling(_) => Submitted
    case Regate => Ask(false)
    case Ended => TestRunning
    case Died => TestRunning
  }

  /** A rank over places that no step of the stopped poller raises bounds the labels that lower it. */
  lemma StoppedCount<O(!new)>(rank: Pc<O> -> nat, cost: Step<O> -> bool, p: Poller<O>, labels: seq<Step<O>>)
    requires forall p: Poller<O>, l: Step<O> :: Stopped(p) && Next(p, l).Some? ==>
               Stopped(Next(p, l).value) && rank(Next(p, l).value.pc) + (if cost(l) then 1 else 0) <= rank(p.pc)
    requires Stopped(p) && Exec(Next, p, labels).Some?
    ensures Count(cost, labels) <= rank(p.pc) && Stopped(Exec(Next, p, labels).value)
  {
    var stopped := (p: Poller<O>) => Stopped(p);
    var potential := (p: Poller<O>) => rank(p.pc);
    forall p: Poller<O>, l: Step<O> | stopped(p) && Next(p, l).Some?
      ensures stopped(Next(p, l).value)
      ensures potential(Next(p, l).value) + (if cost(l) then 1 else 0) <= potential(p)
    {
    }
    Potential(Next, stopped, potential, cost, p, labels);
  }

  predicate IsSubmitted<O>(l: Step<O>) { l.Submitted? }

  predicate IsFetch<O>(l: Step<O>) { l.Fetch? }

  predicate IsPark<O>(l: Step<O>) { l.Park? }

  lemma SubmitsAfterStop<O(!new)>(p: Poller<O>, labels: seq<Step<O>>)
    requires Stopped(p) && Exec(Next, p, labels).Some?
    ensures Count(IsSubmitted, labels) <= SubmitsLeft(p.pc) <= 1 && Stopped(Exec(Next, p, labels).value)
  {
    StoppedCount(SubmitsLeft, IsSubmitted, p, labels);
  }

  lemma FetchesAfterStop<O(!new)>(p: Poller<O>, labels: seq<Step<O>>)
    requires Stopped(p) && Exec(Next, p, labels).Some?
    ensures Count(IsFetch, labels) <= FetchesLeft(p.pc) <= 1 && Stopped(Exec(Next, p, labels).value)
  {
    StoppedCount(FetchesLeft, IsFetch, p, labels);
  }

  lemma WaitsAfterStop<O(!new)>(p: Poller<O>, labels: seq<Step<O>>)
    requires Stopped(p) && Exec(Next, p, labels).Some?
    ensures Count(IsPark, labels) <= WaitsLeft(p.pc) <= 1 && Stopped(Exec(Next, p, labels).value)
  {
    StoppedCount(WaitsLeft, IsPark, p, labels);
  }

  lemma StoppedStep<O>(p: Poller<O>, l: Step<O>)
    requires Stopped(p) && Next(p, l).Some?
    ensures Stopped(Next(p, l).value)
    ensures StepsLeft(Next(p, l).value.pc) + (if Own(l) then 1 else 0) <= StepsLeft(p.pc)
  {
    StepKeepsInv(p, l);
    assert !l.Start?;
  }

  lemma StepsAfterStop<O(!new)>(p: Poller<O>, labels: seq<Step<O>>)
    requires Stopped(p) && Exec(Next, p, labels).Some?
    ensures Count(Own, labels) <= StepsLeft(p.pc) <= 10 && Stopped(Exec(Next, p, labels).value)
  {
    forall p: Poller<O>, l: Step<O> | Stopped(p) && Next(p, l).Some?
      ensures Stopped(Next(p, l).value)
      ensures StepsLeft(Next(p, l).value.pc) + (if Own(l) then 1 else 0) <= StepsLeft(p.pc)
    {
      StoppedStep(p, l);
    }
    StoppedCount(StepsLeft, Own, p, labels);
  }

  /**
   After stop(), however the run goes on: at most one submission, one fetch and one newly
   entered wait, at most ten steps in all, and until the thread has ended it can always move,
   or another thread holds its lock and can release it.
   */
  lemma EndsAfterStop<O(!new)>(p: Poller<O>, labels: seq<Step<O>>)
    requires Stopped(p) && Exec(Next, p, labels).Some?
    ensures Count(IsSubmitted, labels) <= SubmitsLeft(p.pc) <= 1
    ensures Count(IsFetch, labels) <= FetchesLeft(p.pc) <= 1
    ensures Count(IsPark, labels) <= WaitsLeft(p.pc) <= 1
    ensures Count(Own, labels) <= StepsLeft(p.pc) <= 10
    ensures var r := Exec(Next, p, labels).value;
            && !r.running
            && (r.pc.Ended? || r.pc.Died? || Next(r, OwnStep(r)).Some?
                || (r.lock.Client? && Next(r, Notify(r.lock.thread)).Some?))
  {
    SubmitsAfterStop(p, labels);
    FetchesAfterStop(p, labels);
    WaitsAfterStop(p, labels);
    StepsAfterStop(p, labels);
  }

  /**
   An operation whose fetch completes after stop() is never submitted, nor is any other: only
   one already being submitted when stop() takes effect can still be.
   */
  lemma FetchedAfterStopIsNotSubmitted<O(!new)>(p: Poller<O>, labels: seq<Step<O>>)
    requires Stopped(p) && !p.pc.Submitting? && !p.pc.Scheduling? && Exec(Next, p, labels).Some?
    ensures forall k :: 0 <= k < |labels| ==> !labels[k].Submitted?
  {
    EndsAfterStop(p, labels);
    CountNone(IsSubmitted, labels);
  }

  // ---------------------------------------------------------------- each of these bounds is reached

  /** A next step of the stopped poller that leaves it the most to do. */
  function LateStep<O>(p: Poller<O>): Step<O> {
    if p.pc.Gate? || p.pc.Regate? then Ask(true) else OwnStep(p)
  }

  /** Or, if another thread holds the lock the poller wants, the step that releases it. */
  function LateMove<O>(p: Poller<O>): Step<O> {
    if p.pc.WantsWait? && p.lock.Client? then Notify(p.lock.thread) else LateStep(p)
  }

  /** How many such moves are left. */
  function MovesLeft<O>(p: Poller<O>): nat {
    StepsLeft(p.pc) + if p.lock.Client? then 1 else 0
  }

  lemma LateMoveLeads<O>(p: Poller<O>)
    requires Stopped(p) && WaitsLeft(p.pc) == 1
    ensures var next := Next(p, LateMove(p));
            && next.Some? && Stopped(next.value) && MovesLeft(next.value) < MovesLeft(p)
            && (SubmitsLeft(p.pc) == 1 ==> LateMove(p).Submitted? || SubmitsLeft(next.value.pc) == 1)
            && (FetchesLeft(p.pc) == 1 ==> LateMove(p).Fetch? || FetchesLeft(next.value.pc) == 1)
            && (LateMove(p).Park? || WaitsLeft(next.value.pc) == 1)
  {
  }

  /** If a bound that is not used up stays so until its step is taken, the step can still be taken. */
  lemma {:induction false} BoundReached<O(!new)>(rank: Pc<O> -> nat, cost: Step<O> -> bool, p: Poller<O>)
    requires forall p: Poller<O> :: Stopped(p) && rank(p.pc) == 1 ==>
               WaitsLeft(p.pc) == 1 && Next(p, LateMove(p)).Some?
               && (cost(LateMove(p)) || rank(Next(p, LateMove(p)).value.pc) == 1)
    requires Stopped(p) && rank(p.pc) == 1
    ensures CanStill(Next, cost, p)
    decreases MovesLeft(p)
  {
    LateMoveLeads(p);
    if !cost(LateMove(p)) {
      BoundReached(rank, cost, Next(p, LateMove(p)).value);
    }
    StillAfter(Next, cost, p, LateMove(p));
  }

  lemma BoundsReached<O(!new)>(p: Poller<O>)
    requires Stopped(p)
    ensures SubmitsLeft(p.pc) == 1 ==> CanStill(Next, IsSubmitted, p)
    ensures FetchesLeft(p.pc) == 1 ==> CanStill(Next, IsFetch, p)
    ensures WaitsLeft(p.pc) == 1 ==> CanStill(Next, IsPark, p)
  {
    forall p: Poller<O> | Stopped(p) && WaitsLeft(p.pc) == 1
      ensures Next(p, LateMove(p)).Some?
      ensures SubmitsLeft(p.pc) == 1 ==> LateMove(p).Submitted? || SubmitsLeft(Next(p, LateMove(p)).value.pc) == 1
      ensures FetchesLeft(p.pc) == 1 ==> LateMove(p).Fetch? || FetchesLeft(Next(p, LateMove(p)).value.pc) == 1
      ensures LateMove(p).Park? || WaitsLeft(Next(p, LateMove(p)).value.pc) == 1
    {
      LateMoveLeads(p);
    }
    if SubmitsLeft(p.pc) == 1 { BoundReached(SubmitsLeft, IsSubmitted, p); }
    if FetchesLeft(p.pc) == 1 { BoundReached(FetchesLeft, IsFetch, p); }
    if WaitsLeft(p.pc) == 1 { BoundReached(WaitsLeft, IsPark, p); }
  }

  /**
   A stopped poller can still submit, fetch or enter a wait, one full timed wait, exactly when
   it is at one of the places from which the bounds above allow it.
   */
  lemma StoppedCanStillExactlyWhen<O(!new)>(p: Poller<O>)
    requires Stopped(p)
    ensures CanStill(Next, IsSubmitted, p) <==> p.pc.Submitting? || p.pc.Scheduling?
    ensures CanStill(Next, IsFetch, p) <==>
              p.pc.Submitting? || p.pc.Scheduling? || p.pc.Gate? || p.pc.Fetching? || p.pc.Regate?
    ensures CanStill(Next, IsPark, p) <==>
              !(p.pc.LoopTest? || p.pc.Waiting? || p.pc.Notified? || p.pc.Waking? || p.pc.Ended? || p.pc.Died?)
  {
    BoundsReached(p);
    forall labels: seq<Step<O>> | Exec(Next, p, labels).Some?
      ensures Count(IsSubmitted, labels) <= SubmitsLeft(p.pc)
      ensures Count(IsFetch, labels) <= FetchesLeft(p.pc)
      ensures Count(IsPark, labels) <= WaitsLeft(p.pc)
    {
      EndsAfterStop(p, labels);
    }
  }

  // ---------------------------------------------------------------- interference

  /** The poller's own thread takes no step in the run. */
  ghost predicate WithoutOwn<O>(labels: seq<Step<O>>) {
    forall k :: 0 <= k < |labels| ==> !Own(labels[k])
  }

  /** What the steps of all other threads, whatever they are, leave of what the poller relies on. */
  ghost predicate Kept<O>(p: Poller<O>, r: Poller<O>) {
    && r.gated == p.gated && r.waiting == p.waiting && (r.lock.Mine? <==> p.lock.Mine?)
    && (p.started ==>
          && r.started && (!p.running ==> !r.running)
          && (r.pc == p.pc || (p.pc.Waiting? && r.pc.Notified?)))
  }

  lemma {:induction false} OthersKeep<O>(p: Poller<O>, labels: seq<Step<O>>)
    requires WithoutOwn(labels) && Exec(Next, p, labels).Some?
    ensures Kept(p, Exec(Next, p, labels).value)
    decreases |labels|
  {
    if labels != [] {
      assert !Own(labels[0]) && WithoutOwn(labels[1..]);
      OthersKeep(Next(p, labels[0]).value, labels[1..]);
    }
  }

  lemma {:induction false} StaysStarted<O>(p: Poller<O>, labels: seq<Step<O>>)
    requires p.started && Exec(Next, p, labels).Some?
    ensures Exec(Next, p, labels).value.started
    decreases |labels|
  {
    if labels != [] {
      StaysStarted(Next(p, labels[0]).value, labels[1..]);
    }
  }
}
