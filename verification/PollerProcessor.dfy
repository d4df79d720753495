/**
 The poller as the object it is, with its nested loops. `trace` and `Valid` are as for the
 queue: the steps taken so far are a run of the machine `Polling` that ends in the fields.
 */
module PollerProcessor {
  import opened Runs
  import opened Threads
  import opened Polling

  /** What submitting an operation comes to. */
  datatype Submission<+O> = Invalid | Raises | Accepted(ready: O)

  /** What the backend and the callbacks answer to one step of the poller's thread, whichever it is. */
  datatype Answer<+O> = Answer(
    accepts: bool, beatRaises: bool, found: Option<O>, fetchRaises: bool, submission: Submission<O>)

  /** The step is the one to take on this answer. */
  ghost predicate Heeds<O>(answer: Answer<O>, l: Step<O>) {
    match l
    case Ask(accepts) => accepts == answer.accepts
    case Beat(raised) => raised == answer.beatRaises
    case Fetch(found, raised) => found == answer.found && raised == answer.fetchRaises
    case Reject => answer.submission.Invalid?
    case Crash => answer.submission.Raises?
    case Prepare(ready) => answer.submission == Accepted(ready)
    case _ => true
  }

  /** From the `base`-th on, the steps of the poller's thread heed the answers. */
  ghost predicate Follows<O>(env: nat -> Answer<O>, own: seq<Step<O>>, base: nat)
    decreases |own|
  {
    |own| > base ==> Heeds(env(|own| - 1), own[|own| - 1]) && Follows(env, own[..|own| - 1], base)
  }

  lemma FollowsOn<O>(env: nat -> Answer<O>, own: seq<Step<O>>, base: nat, l: Step<O>)
    requires Follows(env, own, base) && Heeds(env(|own|), l)
    ensures Follows(env, own + [l], base)
  {
    assert (own + [l])[..|own|] == own;
  }

  /** What that comes to, step by step. */
  lemma {:induction false} FollowsAt<O>(env: nat -> Answer<O>, own: seq<Step<O>>, base: nat, k: nat)
    requires Follows(env, own, base) && base <= k < |own|
    ensures Heeds(env(k), own[k])
    decreases |own|
  {
    if k < |own| - 1 {
      FollowsAt(env, own[..|own| - 1], base, k);
    }
  }

  class OperationsPoller<O(!new)> {
    const gated: bool
    var running: bool
    var waiting: bool
    // the control state of the thread, and who holds the lock
    var started: bool
    var lock: Holder
    var pc: Pc<O>
    // how many steps it has taken; which ones, and how many operations it has submitted by them
    var steps: nat
    ghost var own: seq<Step<O>>
    ghost var submissions: nat
    ghost var trace: seq<Step<O>>

    ghost function State(): Poller<O>
      reads this
    {
      Poller(gated, started, running, waiting, lock, pc)
    }

    ghost predicate Valid()
      reads this
    {
      && Exec(Next, Initial(gated), trace) == Some(State())
      && own == OwnLabels(trace) && steps == |own| && submissions == Count(IsSubmitted, trace)
    }

    constructor (gated: bool)
      ensures Valid() && trace == [] && State() == Initial(gated)
    {
      this.gated := gated;
      running, waiting, started, lock, pc := false, false, false, Free, Unborn;
      steps, own, submissions, trace := 0, [], 0, [];
    }

    /** The fields have just been changed by one step of the machine. */
    ghost method Commit(before: Poller<O>, l: Step<O>)
      requires Exec(Next, Initial(gated), trace) == Some(before) && Next(before, l) == Some(State())
      requires own == OwnLabels(trace) && submissions == Count(IsSubmitted, trace)
      requires steps == |own| + if Own(l) then 1 else 0
      modifies this`trace, this`own, this`submissions
      ensures Valid() && trace == old(trace) + [l] && own == old(own) + if Own(l) then [l] else []
      ensures submissions == old(submissions) + if l.Submitted? then 1 else 0
    {
      CountConcat(IsSubmitted, trace, [l]);
      FilterOne(Own, trace, l);
      Then(Next, Initial(gated), trace, before, l);
      trace := trace + [l];
      if Own(l) { own := own + [l]; }
      if l.Submitted? { submissions := submissions + 1; }
    }

    // ---------------------------------------------------------------- the other threads

    /**
     The other threads take any number of steps, of any kind. This body takes none; callers may
     rely only on the promise that none is a step of the poller's thread.
     */
    method OthersStep()
      requires Valid()
      modifies this
      ensures Valid() && old(trace) <= trace && WithoutOwn(trace[|old(trace)|..])
    {
    }

    /** The same until none of them holds the lock; this body lets the holder finish its region. */
    method OthersReleaseLock()
      requires Valid() && !lock.Mine?
      modifies this
      ensures Valid() && lock.Free? && old(trace) <= trace && WithoutOwn(trace[|old(trace)|..])
    {
      if lock.Client? {
        ghost var before, c := State(), lock.thread;
        lock, pc := Free, Woken(pc);
        Commit(before, Notify(c));
      }
    }

    /** All threads, the poller's among them, take any number of steps until nobody holds the lock. */
    method AnyoneReleasesLock()
      requires Valid()
      modifies this
      ensures Valid() && lock.Free? && old(trace) <= trace
    {
      ReachableInv<O>(gated, trace);
      ghost var before := State();
      match lock
      case Free =>
      case Client(c) =>
        lock, pc := Free, Woken(pc);
        Commit(before, Notify(c));
      case Mine =>
        if pc.Settling? {
          ParkPoller();
        } else {
          ResumePoller();
        }
    }

    /** What `OthersStep` leaves of what the poller relies on. */
    method Others()
      requires Valid() && started && !lock.Mine?
      modifies this
      ensures Valid() && old(trace) <= trace && Kept(old(State()), State())
      ensures submissions == old(submissions) && own == old(own) && steps == old(steps)
    {
      ghost var before, past := State(), trace;
      OthersStep();
      Since(Next, Initial(gated), past, before, trace);
      OthersKeep(before, trace[|past|..]);
      FilterSince(Own, past, trace);
      CountNone(IsSubmitted, trace[|past|..]);
      CountConcat(IsSubmitted, past, trace[|past|..]);
      assert trace == past + trace[|past|..];
    }

    /** The poller waits for its lock, which the others let go of. */
    method OthersLetGo()
      requires Valid() && started && !lock.Mine?
      modifies this
      ensures Valid() && old(trace) <= trace && lock.Free? && Kept(old(State()), State())
      ensures submissions == old(submissions) && own == old(own) && steps == old(steps)
    {
      ghost var before, past := State(), trace;
      OthersReleaseLock();
      Since(Next, Initial(gated), past, before, trace);
      OthersKeep(before, trace[|past|..]);
      FilterSince(Own, past, trace);
      CountNone(IsSubmitted, trace[|past|..]);
      CountConcat(IsSubmitted, past, trace[|past|..]);
      assert trace == past + trace[|past|..];
    }

    // ---------------------------------------------------------------- what callers do

    method Start()
      requires Valid() && !started
      modifies this
      ensures Valid() && trace == old(trace) + [Step.Start] && started && running && pc.LoopTest?
    {
      ghost var before := State();
      started, running, pc := true, true, LoopTest;
      Commit(before, Step.Start);
    }

    method LockAs(c: Thread)
      requires Valid()
      modifies this
      ensures Valid() && old(trace) < trace && lock == Client(c) && (old(started) ==> started)
    {
      ghost var before, past := State(), trace;
      AnyoneReleasesLock();
      Since(Next, Initial(gated), past, before, trace);
      if before.started {
        StaysStarted(before, trace[|past|..]);
      }
      before := State();
      lock := Client(c);
      Commit(before, Lock(c));
    }

    /** stop(): a waiting poller is woken; one that is not waiting finds out where it next looks. */
    method Stop(c: Thread)
      requires Valid()
      modifies this
      ensures Valid() && old(trace) < trace && trace[|trace| - 1] == Step.Stop(c)
      ensures lock.Free? && !running && !pc.Waiting? && (old(started) ==> Stopped(State()))
    {
      LockAs(c);
      ghost var before := State();
      lock, running, pc := Free, false, Woken(pc);
      Commit(before, Step.Stop(c));
      ReachableInv<O>(gated, trace);
    }

    /**
     A notification wakes the poller if it waits at the moment the lock is got, `locked`, and is
     otherwise without effect.
     */
    method NotifyWorkAvailable(c: Thread) returns (pollerWasWaiting: bool, ghost locked: Poller<O>)
      requires Valid()
      modifies this
      ensures Valid() && old(trace) < trace && trace[|trace| - 1] == Notify(c)
      ensures Exec(Next, Initial(gated), trace[..|trace| - 1]) == Some(locked) && locked.lock == Client(c)
      ensures pollerWasWaiting == locked.waiting
      ensures State() == locked.(lock := Free, pc := if locked.pc.Waiting? then Notified else locked.pc)
    {
      LockAs(c);
      pollerWasWaiting, locked := waiting, State();
      ghost var past := trace;
      lock, pc := Free, Woken(pc);
      Commit(locked, Notify(c));
      assert trace[..|trace| - 1] == past;
    }

    // ---------------------------------------------------------------- what the poller's thread does

    method TestRunning(ghost env: nat -> Answer<O>, ghost base: nat)
      requires Valid() && started && !lock.Mine? && pc.LoopTest?
      requires Follows(env, own, base)
      modifies this
      ensures Follows(env, own, base)
      ensures Valid() && old(trace) <= trace && own == old(own) + [Step.TestRunning]
      ensures started && !lock.Mine? && (!old(running) ==> !running) && submissions == old(submissions)
      ensures pc == if !old(running) then Ended else if gated then Gate else Fetching
    {
      ghost var before := State();
      FollowsOn(env, own, base, Step.TestRunning);
      pc, steps := if !running then Ended else if gated then Gate else Fetching, steps + 1;
      Commit(before, Step.TestRunning);
      Others();
    }

    method Ask(accepts: bool, ghost env: nat -> Answer<O>, ghost base: nat)
      requires Valid() && started && !lock.Mine? && (pc.Gate? || pc.Regate?)
      requires Follows(env, own, base) && accepts == env(steps).accepts
      modifies this
      ensures Follows(env, own, base)
      ensures Valid() && old(trace) <= trace && own == old(own) + [Step.Ask(accepts)]
      ensures started && !lock.Mine? && (!old(running) ==> !running) && submissions == old(submissions)
      ensures pc == if accepts then Fetching else if old(pc).Gate? then Beating else WantsWait
    {
      ghost var before := State();
      FollowsOn(env, own, base, Step.Ask(accepts));
      pc, steps := if accepts then Fetching else if pc.Gate? then Beating else WantsWait, steps + 1;
      Commit(before, Step.Ask(accepts));
      Others();
    }

    /** _send_heartbeat: whether it raises or not, the poller goes on to its wait. */
    method SendHeartbeat(raised: bool, ghost env: nat -> Answer<O>, ghost base: nat)
      requires Valid() && started && !lock.Mine? && pc.Beating?
      requires Follows(env, own, base) && raised == env(steps).beatRaises
      modifies this
      ensures Follows(env, own, base)
      ensures Valid() && old(trace) <= trace && own == old(own) + [Beat(raised)]
      ensures started && !lock.Mine? && (!old(running) ==> !running) && submissions == old(submissions)
      ensures pc.WantsWait?
    {
      ghost var before := State();
      FollowsOn(env, own, base, Beat(raised));
      pc, steps := WantsWait, steps + 1;
      Commit(before, Beat(raised));
      Others();
    }

    /** _fetch_operation: a fetch that raises is one that found nothing. */
    method FetchOperation(found: Option<O>, raised: bool, ghost env: nat -> Answer<O>, ghost base: nat)
      returns (operation: Option<O>)
      requires Valid() && started && !lock.Mine? && pc.Fetching?
      requires Follows(env, own, base) && found == env(steps).found && raised == env(steps).fetchRaises
      modifies this
      ensures Follows(env, own, base)
      ensures Valid() && old(trace) <= trace && own == old(own) + [Fetch(found, raised)]
      ensures started && !lock.Mine? && (!old(running) ==> !running) && submissions == old(submissions)
      ensures operation == (if raised then None else found) && pc == InnerTest(operation)
    {
      ghost var before := State();
      FollowsOn(env, own, base, Fetch(found, raised));
      operation := if raised then None else found;
      pc, steps := InnerTest(operation), steps + 1;
      Commit(before, Fetch(found, raised));
      Others();
    }

    method TestInner(ghost env: nat -> Answer<O>, ghost base: nat)
      requires Valid() && started && !lock.Mine? && pc.InnerTest?
      requires Follows(env, own, base)
      modifies this
      ensures Follows(env, own, base)
      ensures Valid() && old(trace) <= trace && own == old(own) + [Step.TestInner]
      ensures started && !lock.Mine? && (!old(running) ==> !running) && submissions == old(submissions)
      ensures pc == if old(pc).found.Some? && old(running) then Submitting(old(pc).found.value) else WantsWait
    {
      ghost var before := State();
      FollowsOn(env, own, base, Step.TestInner);
      pc, steps := if pc.found.Some? && running then Submitting(pc.found.value) else WantsWait, steps + 1;
      Commit(before, Step.TestInner);
      Others();
    }

    /** The operation is invalid, or cannot be downloaded, or is ready to be scheduled. */
    method CheckOperation(submission: Submission<O>, ghost env: nat -> Answer<O>, ghost base: nat)
      requires Valid() && started && !lock.Mine? && pc.Submitting?
      requires Follows(env, own, base) && submission == env(steps).submission
      modifies this
      ensures Follows(env, own, base)
      ensures Valid() && old(trace) <= trace && started && !lock.Mine? && running == old(running)
      ensures own == old(own) + [CheckStep(submission)] && submissions == old(submissions)
      ensures pc == match submission
                    case Invalid => if gated then Regate else Fetching
                    case Raises => Died
                    case Accepted(ready) => Scheduling(ready)
    {
      ghost var before := State();
      FollowsOn(env, own, base, CheckStep(submission));
      steps := steps + 1;
      match submission
      case Invalid =>
        pc := if gated then Regate else Fetching;
        Commit(before, Reject);
      case Raises =>
        pc := Died;
        Commit(before, Crash);
      case Accepted(ready) =>
        pc := Scheduling(ready);
        Commit(before, Prepare(ready));
    }

    method ScheduleOperation(ghost env: nat -> Answer<O>, ghost base: nat)
      requires Valid() && started && !lock.Mine? && pc.Scheduling?
      requires Follows(env, own, base)
      modifies this
      ensures Follows(env, own, base)
      ensures Valid() && trace == old(trace) + [Submitted] && started && !lock.Mine? && running == old(running)
      ensures own == old(own) + [Submitted] && submissions == old(submissions) + 1
      ensures pc == if gated then Regate else Fetching
    {
      ghost var before := State();
      FollowsOn(env, own, base, Submitted);
      pc, steps := if gated then Regate else Fetching, steps + 1;
      Commit(before, Submitted);
    }

    /** _submit_operation: an operation that is accepted is submitted, once and as it was made ready; no other is. */
    method SubmitOperation(submission: Submission<O>, ghost env: nat -> Answer<O>, ghost base: nat)
      requires Valid() && started && !lock.Mine? && pc.Submitting?
      requires Follows(env, own, base) && submission == env(steps).submission
      modifies this
      ensures Follows(env, own, base)
      ensures Valid() && old(trace) <= trace && started && !lock.Mine? && (!old(running) ==> !running)
      ensures pc == if submission.Raises? then Died else if gated then Regate else Fetching
      ensures own == old(own) + [CheckStep(submission)] + if submission.Accepted? then [Submitted] else []
      ensures submissions == old(submissions) + if submission.Accepted? then 1 else 0
    {
      Others();
      CheckOperation(submission, env, base);
      Others();
      if submission.Accepted? {
        ScheduleOperation(env, base);
        Others();
      }
    }

    /** The poller gets its lock, to wait. */
    method LockForWait(ghost env: nat -> Answer<O>, ghost base: nat)
      requires Valid() && started && !lock.Mine? && pc.WantsWait?
      requires Follows(env, own, base)
      modifies this
      ensures Follows(env, own, base)
      ensures Valid() && old(trace) <= trace && own == old(own) + [LockToWait]
      ensures started && (!old(running) ==> !running) && submissions == old(submissions)
      ensures pc.Settling?
    {
      OthersLetGo();
      ghost var before := State();
      FollowsOn(env, own, base, LockToWait);
      lock, pc, steps := Mine, Settling, steps + 1;
      Commit(before, LockToWait);
    }

    /** It marks itself waiting, and lets go of the lock in the wait. */
    method ParkPoller()
      requires Valid() && pc.Settling?
      modifies this
      ensures Valid() && trace == old(trace) + [Park] && own == old(own) + [Park]
      ensures started == old(started) && running == old(running) && submissions == old(submissions)
      ensures pc.Waiting? && lock.Free?
    {
      ghost var before := State();
      lock, waiting, pc, steps := Free, true, Waiting, steps + 1;
      Commit(before, Park);
    }

    /** It comes out of the wait with the lock, notified or else because the interval is over. */
    method WakePoller(ghost env: nat -> Answer<O>, ghost base: nat) returns (ghost timedOut: bool)
      requires Valid() && started && !lock.Mine? && (pc.Waiting? || pc.Notified?)
      requires Follows(env, own, base)
      modifies this
      ensures Follows(env, own, base)
      ensures Valid() && old(trace) <= trace && own == old(own) + [WakeUp(timedOut)]
      ensures started && (!old(running) ==> !running) && submissions == old(submissions)
      ensures pc.Waking?
    {
      OthersLetGo();
      timedOut := pc.Waiting?;
      ghost var before := State();
      FollowsOn(env, own, base, WakeUp(timedOut));
      lock, pc, steps := Mine, Waking, steps + 1;
      Commit(before, WakeUp(timedOut));
    }

    /** It takes the mark away and lets go of the lock. */
    method ResumePoller()
      requires Valid() && pc.Waking?
      modifies this
      ensures Valid() && trace == old(trace) + [Resume] && own == old(own) + [Resume]
      ensures started == old(started) && running == old(running) && submissions == old(submissions)
      ensures pc.LoopTest? && lock.Free? && !waiting
    {
      ghost var before := State();
      lock, waiting, pc, steps := Free, false, LoopTest, steps + 1;
      Commit(before, Resume);
    }

    /** _wait_for_work: until notified, or else until the interval is over. */
    method WaitForWork(ghost env: nat -> Answer<O>, ghost base: nat) returns (ghost timedOut: bool)
      requires Valid() && started && !lock.Mine? && pc.WantsWait?
      requires Follows(env, own, base)
      modifies this
      ensures Follows(env, own, base)
      ensures Valid() && old(trace) <= trace && started && !lock.Mine? && (!old(running) ==> !running)
      ensures own == old(own) + [LockToWait] + [Park] + [WakeUp(timedOut)] + [Resume]
      ensures pc.LoopTest? && submissions == old(submissions)
    {
      LockForWait(env, base);
      FollowsOn(env, own, base, Park);
      ParkPoller();
      Others();
      timedOut := WakePoller(env, base);
      FollowsOn(env, own, base, Resume);
      ResumePoller();
      Others();
    }

    /**
     One round of the inner loop: the operation is submitted, exactly if `env` accepts it, and
     another one is fetched, exactly if checking it did not raise and there is room.
     */
    method SubmitRound(op: O, env: nat -> Answer<O>, ghost base: nat) returns (again: bool, operation: Option<O>)
      requires Valid() && started && !lock.Mine? && pc == InnerTest(Some(op)) && running
      requires Follows(env, own, base)
      modifies this
      ensures Valid() && old(trace) <= trace && started && !lock.Mine? && Follows(env, own, base)
      ensures if again then pc == InnerTest(operation)
              else if env(old(steps) + 1).submission.Raises? then pc.Died?
              else pc.WantsWait? && gated
      ensures env(old(steps) + 1).submission.Raises? ==> !again
      ensures steps > old(steps) && (!gated && !env(old(steps) + 1).submission.Raises? ==> again)
      ensures submissions == old(submissions) + if env(old(steps) + 1).submission.Accepted? then 1 else 0
    {
      TestInner(env, base);
      var submission := env(steps).submission;
      SubmitOperation(submission, env, base);
      if submission.Raises? { return false, None; }
      if gated {
        var accepts := env(steps).accepts;
        Ask(accepts, env, base);
        if !accepts { return false, None; }
      }
      operation := FetchOperation(env(steps).found, env(steps).fetchRaises, env, base);
      again := true;
    }

    /**
     The inner loop: as long as there is room, each operation fetched is submitted and the next
     one fetched. Every step heeds `env`, so an operation that it accepts is submitted, the first
     one among them if the poller runs; and no round is without a step.
     */
    method SubmitAll(first: Option<O>, env: nat -> Answer<O>, watched: nat, ghost base: nat) returns (left: nat)
      requires Valid() && started && !lock.Mine? && pc == InnerTest(first)
      requires Follows(env, own, base)
      modifies this
      ensures Valid() && old(trace) <= trace && started && !lock.Mine? && (!old(running) ==> !running)
      ensures left <= watched && (left > 0 ==> pc.Died? || pc.WantsWait?)
      ensures pc.Died? || pc.WantsWait? || (pc.InnerTest? && running)
      ensures Follows(env, own, base)
      ensures steps >= old(steps) + (watched - left) && submissions >= old(submissions)
      ensures first.Some? && old(running) && watched > 0 && env(old(steps) + 1).submission.Accepted? ==>
                submissions >= old(submissions) + 1
    {
      var operation := first;
      left := watched;
      while operation.Some? && running && left > 0
        invariant Valid() && old(trace) <= trace && started && !lock.Mine? && (!old(running) ==> !running)
        invariant pc == InnerTest(operation) && left <= watched && Follows(env, own, base)
        invariant steps >= old(steps) + (watched - left) && submissions >= old(submissions)
        invariant left == watched ==> operation == first && running == old(running) && steps == old(steps)
        invariant left < watched && env(old(steps) + 1).submission.Accepted? ==> submissions >= old(submissions) + 1
        decreases left
      {
        left := left - 1;
        var again;
        again, operation := SubmitRound(operation.value, env, base);
        if !again { return; }
      }
      if operation.None? || !running {
        TestInner(env, base);
      }
    }

    /** The top of the outer loop: the next operation, unless there is no room and the poller has waited. */
    method FetchIfRoom(env: nat -> Answer<O>, ghost base: nat) returns (fetched: bool, operation: Option<O>)
      requires Valid() && started && !lock.Mine? && pc.LoopTest? && running
      requires Follows(env, own, base)
      modifies this
      ensures Valid() && old(trace) <= trace && started && !lock.Mine? && (!old(running) ==> !running)
      ensures Follows(env, own, base) && steps > old(steps)
      ensures if fetched then pc == InnerTest(operation) else pc.LoopTest?
      ensures !fetched <==> gated && !env(old(steps) + 1).accepts
      ensures !fetched ==> |own| >= |old(own)| + 4
                           && own[|old(own)|..|old(own)| + 4]
                              == [Step.TestRunning, Step.Ask(false), Beat(env(old(steps) + 2).beatRaises), LockToWait]
    {
      TestRunning(env, base);
      if gated {
        var accepts := env(steps).accepts;
        Ask(accepts, env, base);
        if !accepts {
          SendHeartbeat(env(steps).beatRaises, env, base);
          ghost var timedOut := WaitForWork(env, base);
          return false, None;
        }
      }
      operation := FetchOperation(env(steps).found, env(steps).fetchRaises, env, base);
      fetched := true;
    }

    /**
     _run_loop, followed until it ends or for `watched` rounds of its loops. Each step of the
     poller's heeds `env`, and each operation that `env` accepts when it is checked is submitted.
     */
    method RunLoop(env: nat -> Answer<O>, watched: nat) returns (left: nat)
      requires Valid() && started && !lock.Mine? && pc.LoopTest?
      modifies this
      ensures Valid() && old(trace) <= trace
      ensures left > 0 ==> (pc.Ended? && !running) || pc.Died?
      ensures !old(running) ==> pc.Ended?
      ensures Follows(env, own, old(steps)) && left <= watched && steps >= old(steps) + (watched - left)
      ensures submissions == Count(IsPrepare, trace)
    {
      left := watched;
      ghost var base := steps;
      Others();
      while running && left > 0
        invariant Valid() && old(trace) <= trace && started && !lock.Mine? && (!old(running) ==> !running)
        invariant pc.LoopTest? && Follows(env, own, base)
        invariant left <= watched && steps >= old(steps) + (watched - left)
        decreases left
      {
        left := left - 1;
        var fetched, operation := FetchIfRoom(env, base);
        if !fetched { continue; }
        left := SubmitAll(operation, env, left, base);
        if !pc.WantsWait? { break; }
        ghost var timedOut := WaitForWork(env, base);
      }
      if pc.LoopTest? && !running {
        TestRunning(env, base);
      }
      PreparedAreSubmitted<O>(gated, trace);
    }
  }

  /** What checking an operation is, by what it comes to. */
  function CheckStep<O>(submission: Submission<O>): Step<O> {
    match submission
    case Invalid => Reject
    case Raises => Crash
    case Accepted(ready) => Prepare(ready)
  }
}
