/**
 The queue as the object it is: fields updated in place by its workers and its callers.

 `trace` is every step taken since construction, by any thread. `Valid` says that these steps
 are a run of the machine `WorkerQueue` that ends in the fields as they are, so every theorem
 about that machine's runs is one about this object.
 */
module QueueProcessor {
  import opened Runs
  import opened Threads
  import opened WorkerQueue

  class QueueAsyncProcessor<T(!new)> {
    const threadCount: nat
    var items: seq<T>
    var running: bool
    // the control state of the threads, and the past
    var lock: Holder
    var workers: seq<Pc<T>>
    var started: bool
    var pops: seq<Pop<T>>
    var handed: seq<nat>
    var done: seq<nat>
    ghost var trace: seq<Step<T>>

    ghost function State(): Queue<T>
      reads this
    {
      Queue(items, running, started, lock, workers, pops, handed, done)
    }

    ghost predicate Valid()
      reads this
    {
      Exec(Next, Initial(threadCount), trace) == Some(State()) && |workers| == threadCount >= 1
    }

    constructor (threadCount: int)
      ensures Valid() && trace == [] && State() == Initial(threadCount)
      ensures this.threadCount == if threadCount < 1 then 1 else threadCount
    {
      this.threadCount := if threadCount < 1 then 1 else threadCount;
      items, running, lock := [], false, Free;
      workers := seq(if threadCount < 1 then 1 else threadCount, _ => Unborn);
      started, pops, handed, done, trace := false, [], [], [], [];
      new;
      assert Initial<T>(threadCount) == Initial<T>(this.threadCount);
    }

    /** The fields have just been changed by one step of the machine. */
    ghost method Commit(before: Queue<T>, l: Step<T>)
      requires Exec(Next, Initial(threadCount), trace) == Some(before) && |workers| == threadCount >= 1
      requires Next(before, l) == Some(State())
      modifies this`trace
      ensures Valid() && trace == old(trace) + [l]
    {
      Then(Next, Initial(threadCount), trace, before, l);
      trace := trace + [l];
    }

    // ---------------------------------------------------------------- what a worker does

    method TestLoop(i: nat)
      requires Valid() && i < |workers| && workers[i].LoopTest?
      modifies this
      ensures Valid() && trace == old(trace) + [Step.TestLoop(i)]
      ensures Next(old(State()), Step.TestLoop(i)) == Some(State())
      ensures RoundsOf(i, trace) == old(RoundsOf(i, trace)) + 1
    {
      RoundsOn(i, trace, Step.TestLoop(i));
      ghost var before := State();
      workers := workers[i := if running then Entering else Exited];
      Commit(before, Step.TestLoop(i));
    }

    /** Tests for an item and for a stop, and pops, up to the lock's release; the item popped, if any. */
    method TakeUnderLock(i: nat) returns (popped: Option<T>)
      requires Valid() && i < |workers| && workers[i].Testing? && lock == Worker(i)
      modifies this
      ensures Valid() && trace == old(trace) + [Take(i)]
      ensures Next(old(State()), Take(i)) == Some(State())
      ensures RoundsOf(i, trace) == old(RoundsOf(i, trace)) + 1
      ensures popped == if old(running) && old(items) != [] then Some(old(items)[0]) else None
    {
      RoundsOn(i, trace, Take(i));
      ghost var before := State();
      lock := Free;
      if items == [] && running {
        workers := workers[i := Parked];
        popped := None;
      } else if !running {
        workers := workers[i := Exited];
        popped := None;
      } else {
        popped := Some(items[0]);
        workers := workers[i := Popped(|pops|, items[0])];
        pops := pops + [Pop(items[0], i)];
        items := items[1..];
      }
      Commit(before, Take(i));
    }

    method Invoke(i: nat)
      requires Valid() && i < |workers| && workers[i].Popped?
      modifies this
      ensures Valid() && trace == old(trace) + [Step.Invoke(i)]
      ensures Next(old(State()), Step.Invoke(i)) == Some(State())
    {
      ghost var before := State();
      handed := handed + [workers[i].at];
      workers := workers[i := Handling(workers[i].at, workers[i].item)];
      Commit(before, Step.Invoke(i));
    }

    /** The handler returns or raises: either way the worker goes on. */
    method Return(i: nat, raised: bool)
      requires Valid() && i < |workers| && workers[i].Handling?
      modifies this
      ensures Valid() && trace == old(trace) + [Step.Return(i, raised)]
      ensures Next(old(State()), Step.Return(i, raised)) == Some(State())
    {
      ghost var before := State();
      done := done + [workers[i].at];
      workers := workers[i := LoopTest];
      Commit(before, Step.Return(i, raised));
    }

    // ---------------------------------------------------------------- the other threads

    /**
     The other threads take any number of steps, of any kind. This body takes none; callers may
     rely only on the promise that none is a step of worker `i`.
     */
    method OthersStep(i: nat)
      requires Valid()
      modifies this
      ensures Valid() && old(trace) <= trace && WithoutWorker(trace[|old(trace)|..], i)
    {
    }

    /** The same until nobody holds the lock; this body lets the holder finish its region. */
    method OthersReleaseLock(i: nat)
      requires Valid() && lock != Worker(i)
      modifies this
      ensures Valid() && lock.Free? && old(trace) <= trace && WithoutWorker(trace[|old(trace)|..], i)
    {
      FinishRegion();
    }

    /** As for a worker, for a thread `c` that is about to schedule, to stop, or to ask for the depth. */
    method OthersReleaseLockFor(c: Thread)
      requires Valid()
      modifies this
      ensures Valid() && lock.Free? && old(trace) <= trace && WithoutClient(trace[|old(trace)|..], c)
    {
      FinishRegion();
    }

    /** Whoever holds the lock takes the one step that releases it. */
    method FinishRegion()
      requires Valid()
      modifies this
      ensures Valid() && lock.Free?
      ensures match old(lock)
              case Free => trace == old(trace)
              case Worker(j) => trace == old(trace) + [Take(j)]
              case Client(c) => trace == old(trace) + [Depth(c)]
    {
      ReachableInv<T>(threadCount, trace);
      match lock
      case Free =>
      case Worker(j) =>
        var popped := TakeUnderLock(j);
      case Client(c) =>
        ghost var before := State();
        lock := Free;
        Commit(before, Depth(c));
    }

    /** What `OthersStep` leaves of what worker `i` relies on. */
    method Others(i: nat)
      requires Valid() && i < |workers|
      modifies this
      ensures Valid() && old(trace) <= trace && KeptFor(old(State()), State(), i)
      ensures RoundsOf(i, trace) == old(RoundsOf(i, trace))
    {
      ghost var before, past := State(), trace;
      OthersStep(i);
      RoundsSince(i, past, trace);
      Since(Next, Initial(threadCount), past, before, trace);
      OthersKeep(before, trace[|past|..], i);
    }

    /** A worker gets the lock, entering the region or coming out of its wait. */
    method Acquire(i: nat)
      requires Valid() && i < |workers| && WantsLock(workers[i])
      modifies this
      ensures Valid() && old(trace) < trace && lock == Worker(i) && workers[i].Testing?
      ensures old(started) ==> started && (!old(running) ==> !running)
      ensures RoundsOf(i, trace) == old(RoundsOf(i, trace))
    {
      ReachableInv<T>(threadCount, trace);
      ghost var before, past := State(), trace;
      OthersReleaseLock(i);
      RoundsSince(i, past, trace);
      RoundsOn(i, trace, Step.Acquire(i));
      Since(Next, Initial(threadCount), past, before, trace);
      OthersKeep(before, trace[|past|..], i);
      before := State();
      lock, workers := Worker(i), workers[i := Testing];
      Commit(before, Step.Acquire(i));
      Others(i);
    }

    method AcquireAsClient(c: Thread)
      requires Valid()
      modifies this
      ensures Valid() && old(trace) < trace && lock == Client(c)
      ensures ScheduledBy(c, trace) == ScheduledBy(c, old(trace)) && (old(started) ==> started)
    {
      ghost var before, past := State(), trace;
      OthersReleaseLockFor(c);
      Since(Next, Initial(threadCount), past, before, trace);
      StaysStarted(before, trace[|past|..]);
      ScheduledByNone(c, trace[|past|..]);
      ScheduledByConcat(c, past, trace[|past|..]);
      assert trace == past + trace[|past|..];
      ScheduledByConcat(c, trace, [Lock(c)]);
      before := State();
      lock := Client(c);
      Commit(before, Lock(c));
    }

    // ---------------------------------------------------------------- what callers do

    /** start(): sets the flag, without the lock, and creates the threads one by one; those created already run. */
    method Start()
      requires Valid() && !started
      modifies this
      ensures Valid() && old(trace) < trace && trace[|old(trace)|] == Step.Start && started
      ensures forall i :: 0 <= i < threadCount ==> !workers[i].Unborn?
    {
      ReachableInv<T>(threadCount, trace);
      ghost var before := State();
      started, running := true, true;
      Commit(before, Step.Start);
      for i := 0 to threadCount
        invariant Valid() && old(trace) < trace && trace[|old(trace)|] == Step.Start && started
        invariant forall j :: 0 <= j < threadCount ==> (workers[j].Unborn? <==> i <= j)
      {
        before := State();
        workers := workers[i := LoopTest];
        Commit(before, Spawn(i));
        OthersWhileStarting();
      }
    }

    /** The threads there are take any number of steps, while this one starts the queue. */
    method OthersStepWhileStarting()
      requires Valid()
      modifies this
      ensures Valid() && old(trace) <= trace && WithoutStarter(trace[|old(trace)|..])
    {
    }

    method OthersWhileStarting()
      requires Valid()
      modifies this
      ensures Valid() && old(trace) <= trace && started == old(started)
      ensures forall i :: 0 <= i < threadCount ==> (workers[i].Unborn? <==> old(workers)[i].Unborn?)
    {
      ghost var before, past := State(), trace;
      OthersStepWhileStarting();
      Since(Next, Initial(threadCount), past, before, trace);
      OthersCreateNone(before, trace[|past|..]);
    }

    method Schedule(c: Thread, o: T)
      requires Valid()
      modifies this
      ensures Valid() && old(trace) < trace && trace[|trace| - 1] == Step.Schedule(c, o)
      ensures ScheduledBy(c, trace) == ScheduledBy(c, old(trace)) + [o]
      ensures lock.Free? && items != [] && items[|items| - 1] == o
      ensures forall i :: 0 <= i < |workers| ==> !workers[i].Parked?
    {
      AcquireAsClient(c);
      ghost var before := State();
      ScheduledByConcat(c, trace, [Step.Schedule(c, o)]);
      items, workers, lock := items + [o], WakeAll(workers), Free;
      Commit(before, Step.Schedule(c, o));
    }

    method Stop(c: Thread)
      requires Valid()
      modifies this
      ensures Valid() && old(trace) < trace && trace[|trace| - 1] == Step.Stop(c)
      ensures ScheduledBy(c, trace) == ScheduledBy(c, old(trace))
      ensures lock.Free? && !running && (old(started) ==> Stopped(State()))
      ensures forall i :: 0 <= i < |workers| ==> !workers[i].Parked?
    {
      AcquireAsClient(c);
      ghost var before := State();
      ScheduledByConcat(c, trace, [Step.Stop(c)]);
      running, workers, lock := false, WakeAll(workers), Free;
      Commit(before, Step.Stop(c));
      ReachableInv<T>(threadCount, trace);
    }

    method QueueDepth(c: Thread) returns (depth: nat)
      requires Valid()
      modifies this
      ensures Valid() && old(trace) < trace && trace[|trace| - 1] == Depth(c)
      ensures depth == |items| && ScheduledBy(c, trace) == ScheduledBy(c, old(trace))
    {
      AcquireAsClient(c);
      ghost var before := State();
      ScheduledByConcat(c, trace, [Depth(c)]);
      depth, lock := |items|, Free;
      Commit(before, Depth(c));
    }

    // ---------------------------------------------------------------- a worker's loop

    /** From wanting the lock to holding it with nothing left to wait for. */
    method AwaitItem(i: nat, watched: nat) returns (left: nat, asleep: bool)
      requires Valid() && i < |workers| && workers[i].Entering? && started
      modifies this
      ensures Valid() && old(trace) <= trace && started && (!old(running) ==> !running)
      ensures left <= watched
      ensures asleep ==> workers[i].Parked? && items == [] && running
      ensures !asleep ==> workers[i].Testing? && lock == Worker(i)
      ensures !asleep && left > 0 ==> items != [] || !running
      ensures RoundsOf(i, trace) == old(RoundsOf(i, trace)) + (watched - left)
    {
      left, asleep := watched, false;
      Acquire(i);
      while items == [] && running && left > 0
        invariant Valid() && old(trace) <= trace && started && i < |workers| && (!old(running) ==> !running)
        invariant workers[i].Testing? && lock == Worker(i) && left <= watched
        invariant RoundsOf(i, trace) == old(RoundsOf(i, trace)) + (watched - left)
        decreases left
      {
        left := left - 1;
        var nothing := TakeUnderLock(i);
        Others(i);
        if workers[i].Parked? {
          ReachableInv<T>(threadCount, trace);
          asleep := true;
          return;
        }
        Acquire(i);
      }
    }

    /** _invoke_handler: the item popped is handed over once, and a raise is swallowed. */
    method InvokeHandler(i: nat, raised: bool)
      requires Valid() && i < |workers| && workers[i].Popped? && started
      modifies this
      ensures Valid() && old(trace) <= trace && started && (!old(running) ==> !running)
      ensures workers[i].LoopTest?
      ensures multiset(handed)[old(workers[i]).at] == 1 && multiset(done)[old(workers[i]).at] == 1
      ensures RoundsOf(i, trace) == old(RoundsOf(i, trace))
    {
      ghost var k := workers[i].at;
      ReachableInv<T>(threadCount, trace);
      assert k < |pops|;
      HandOver(i, raised);
      HandedExactlyOnce(threadCount, trace, State(), k);
    }

    /** The handler is entered and left, and the worker goes on. */
    method HandOver(i: nat, raised: bool)
      requires Valid() && i < |workers| && workers[i].Popped? && started
      modifies this
      ensures Valid() && old(trace) <= trace && started && (!old(running) ==> !running)
      ensures workers[i].LoopTest? && old(workers[i]).at in done && old(pops) <= pops
      ensures RoundsOf(i, trace) == old(RoundsOf(i, trace))
    {
      Others(i);
      RoundsOn(i, trace, Step.Invoke(i));
      Invoke(i);
      Others(i);
      RoundsOn(i, trace, Step.Return(i, raised));
      Return(i, raised);
      assert done[|done| - 1] == old(workers[i]).at;
      Others(i);
    }

    /** One round of the loop: one item, unless the worker sleeps, exits or is no longer followed. */
    method Round(i: nat, watched: nat, raises: nat -> bool) returns (left: nat, asleep: bool)
      requires Valid() && i < |workers| && workers[i].Entering? && started
      modifies this
      ensures Valid() && old(trace) <= trace && started && (!old(running) ==> !running) && left <= watched
      ensures asleep ==> workers[i].Parked? && items == [] && running
      ensures !asleep ==> workers[i].LoopTest? || (workers[i].Exited? && !running) || (left == 0 && running)
      ensures RoundsOf(i, trace) >= old(RoundsOf(i, trace)) + (watched - left)
    {
      left, asleep := AwaitItem(i, watched);
      if asleep || (items == [] && running) { return; }
      var toExecute := TakeUnderLock(i);
      if toExecute.Some? {
        InvokeHandler(i, raises(left));
      }
    }

    /**
     _run, with the other threads stepping wherever this one can be interrupted. It is followed
     until the worker exits, or sleeps with nobody left to wake it, or for `watched` rounds of
     its loops; `raises` says which handler calls raise.
     */
    method Run(i: nat, watched: nat, raises: nat -> bool) returns (left: nat, asleep: bool)
      requires Valid() && i < |workers| && workers[i].LoopTest? && started
      modifies this
      ensures Valid() && old(trace) <= trace
      ensures asleep ==> workers[i].Parked? && items == [] && running
      ensures !asleep && left > 0 ==> workers[i].Exited? && !running
      ensures !old(running) ==> !asleep && workers[i].Exited?
      ensures left <= watched && RoundsOf(i, trace) >= old(RoundsOf(i, trace)) + (watched - left)
    {
      left, asleep := watched, false;
      Others(i);
      while running && left > 0
        invariant Valid() && old(trace) <= trace && started && i < |workers| && (!old(running) ==> !running)
        invariant workers[i].LoopTest? && !asleep
        invariant left <= watched && RoundsOf(i, trace) >= old(RoundsOf(i, trace)) + (watched - left)
        decreases left
      {
        left := left - 1;
        TestLoop(i);
        Others(i);
        left, asleep := Round(i, left, raises);
        if asleep || !workers[i].LoopTest? { return; }
      }
      if !running {
        TestLoop(i);
      }
    }
  }
}
