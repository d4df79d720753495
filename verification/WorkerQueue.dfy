/**
 The multi-worker queue as a transition system: one list and one flag under a condition
 variable, any number of worker threads, and any threads that schedule, stop or look.

 A critical section is two steps, taking the lock and the region up to its release, so that
 everything other threads can do in between is a run of its own. The test of the outer loop reads
 the flag without the lock and is a step by itself.
 */
module WorkerQueue {
  import opened Runs
  import opened Threads
  import opened Totals

  /** Where a worker stands. */
  datatype Pc<+T> =
    | Unborn                      // start() has not created it yet
    | LoopTest                    // about to read the flag, outside the lock
    | Entering                    // wants the lock
    | Testing                     // holds the lock
    | Parked                      // in wait(), lock released, nobody has notified it
    | Notified                    // in wait(), notified, wants the lock back
    | Popped(at: nat, item: T)    // lock released, the at-th pop in hand
    | Handling(at: nat, item: T)  // inside the handler
    | Exited

  datatype Holder = Free | Worker(i: nat) | Client(thread: Thread)

  datatype Pop<+T> = Pop(item: T, worker: nat)

  /**
   `pops`, `handed` and `done` record the past: what was popped and by whom, and the indices
   into `pops` in the order in which the handler was entered and left.
   */
  datatype Queue<+T> = Queue(
    items: seq<T>, running: bool, started: bool, lock: Holder, workers: seq<Pc<T>>,
    pops: seq<Pop<T>>, handed: seq<nat>, done: seq<nat>)

  datatype Step<+T> =
    | Start
    | Spawn(i: nat)
    | TestLoop(i: nat)
    | Acquire(i: nat)
    | Take(i: nat)
    | Invoke(i: nat)
    | Return(i: nat, raised: bool)
    | Lock(c: Thread)
    | Schedule(c: Thread, item: T)
    | Stop(c: Thread)
    | Depth(c: Thread)

  function Initial<T>(threadCount: int): Queue<T> {
    var n: nat := if threadCount < 1 then 1 else threadCount;
    Queue([], false, false, Free, seq(n, _ => Unborn), [], [], [])
  }

  /** notify_all */
  function WakeAll<T>(workers: seq<Pc<T>>): (woken: seq<Pc<T>>)
    ensures |woken| == |workers|
    ensures forall i :: 0 <= i < |workers| ==> woken[i] == if workers[i].Parked? then Notified else workers[i]
  {
    seq(|workers|, i requires 0 <= i < |workers| => if workers[i].Parked? then Notified else workers[i])
  }

  function Move<T>(q: Queue<T>, i: nat, pc: Pc<T>): Queue<T>
    requires i < |q.workers|
  {
    q.(workers := q.workers[i := pc])
  }

  /** The region between a worker's acquiring the lock and its releasing it. */
  function TakeUnderLock<T>(q: Queue<T>, i: nat): Queue<T>
    requires i < |q.workers|
  {
    if q.items == [] && q.running then Move(q, i, Parked).(lock := Free)
    else if !q.running then Move(q, i, Exited).(lock := Free)
    else Move(q, i, Popped(|q.pops|, q.items[0]))
         .(lock := Free, items := q.items[1..], pops := q.pops + [Pop(q.items[0], i)])
  }

  function Next<T>(q: Queue<T>, l: Step<T>): Option<Queue<T>> {
    match l
    case Start =>
      if q.started then None else Some(q.(started := true, running := true))
    case Spawn(i) =>
      if q.started && i < |q.workers| && q.workers[i].Unborn? && (i == 0 || !q.workers[i - 1].Unborn?)
      then Some(Move(q, i, LoopTest)) else None
    case TestLoop(i) =>
      if i < |q.workers| && q.workers[i].LoopTest?
      then Some(Move(q, i, if q.running then Entering else Exited)) else None
    case Acquire(i) =>
      if q.lock.Free? && i < |q.workers| && (q.workers[i].Entering? || q.workers[i].Notified?)
      then Some(Move(q, i, Testing).(lock := Worker(i))) else None
    case Take(i) =>
      if q.lock == Worker(i) && i < |q.workers| && q.workers[i].Testing?
      then Some(TakeUnderLock(q, i)) else None
    case Invoke(i) =>
      if i < |q.workers| && q.workers[i].Popped?
      then Some(Move(q, i, Handling(q.workers[i].at, q.workers[i].item)).(handed := q.handed + [q.workers[i].at]))
      else None
    case Return(i, _) =>
      if i < |q.workers| && q.workers[i].Handling?
      then Some(Move(q, i, LoopTest).(done := q.done + [q.workers[i].at])) else None
    case Lock(c) =>
      if q.lock.Free? then Some(q.(lock := Client(c))) else None
    case Schedule(c, item) =>
      if q.lock == Client(c)
      then Some(q.(items := q.items + [item], workers := WakeAll(q.workers), lock := Free)) else None
    case Stop(c) =>
      if q.lock == Client(c)
      then Some(q.(running := false, workers := WakeAll(q.workers), lock := Free)) else None
    case Depth(c) =>
      if q.lock == Client(c) then Some(q.(lock := Free)) else None
  }

  /** The steps taken by, or creating, a worker thread. */
  predicate OfWorker<T>(l: Step<T>) {
    l.Spawn? || l.TestLoop? || l.Acquire? || l.Take? || l.Invoke? || l.Return?
  }

  // ---------------------------------------------------------------- invariants

  /** The lock is held by at most one thread, and a worker holds it exactly at `Testing`. */
  ghost predicate LockHeldRight<T>(q: Queue<T>) {
    forall i :: 0 <= i < |q.workers| ==> (q.workers[i].Testing? <==> q.lock == Worker(i))
  }

  /** A lock named as held by a worker is held by a worker that exists. */
  ghost predicate HolderExists<T>(q: Queue<T>) {
    q.lock.Worker? ==> q.lock.i < |q.workers|
  }

  /** A worker parked without a notification has nothing to do. */
  ghost predicate NoLostWakeup<T>(q: Queue<T>) {
    forall i :: 0 <= i < |q.workers| && q.workers[i].Parked? ==> q.items == [] && q.running
  }

  /** Nothing runs before start(). */
  ghost predicate IdleBeforeStart<T>(q: Queue<T>) {
    !q.started ==> !q.running && forall i :: 0 <= i < |q.workers| ==> q.workers[i].Unborn?
  }

  predicate InHand<T>(pc: Pc<T>, k: nat) {
    (pc.Popped? || pc.Handling?) && pc.at == k
  }

  /** A worker with an item in hand has the item it popped. */
  ghost predicate HandsOwnPop<T>(q: Queue<T>) {
    forall i :: 0 <= i < |q.workers| && (q.workers[i].Popped? || q.workers[i].Handling?) ==>
      q.workers[i].at < |q.pops| && q.pops[q.workers[i].at] == Pop(q.workers[i].item, i)
  }

  /** Each pop is, for good, in one stage: in hand, in the handler, or through it. */
  ghost predicate PopStages<T>(q: Queue<T>) {
    forall k: nat :: k < |q.pops| ==> PopStage(q, k)
  }

  ghost predicate PopStage<T>(q: Queue<T>, k: nat)
    requires k < |q.pops|
  {
    var w := q.pops[k].worker;
    && w < |q.workers|
    && (k in q.handed <==> !(q.workers[w].Popped? && q.workers[w].at == k))
    && (k in q.done <==> !InHand(q.workers[w], k))
  }

  ghost predicate Distinct(s: seq<nat>, bound: nat) {
    && (forall j, k :: 0 <= j < k < |s| ==> s[j] != s[k])
    && (forall k :: 0 <= k < |s| ==> s[k] < bound)
  }

  /** 1 for a worker that has an item in hand or is in the handler. */
  function Busy<T>(pc: Pc<T>): nat {
    if pc.Popped? || pc.Handling? then 1 else 0
  }

  ghost predicate Inv<T>(q: Queue<T>) {
    && |q.workers| >= 1
    && LockHeldRight(q) && HolderExists(q) && NoLostWakeup(q) && IdleBeforeStart(q)
    && HandsOwnPop(q) && PopStages(q)
    && Distinct(q.handed, |q.pops|) && Distinct(q.done, |q.pops|)
    && |q.pops| == |q.done| + Sum(Busy, q.workers)
  }

  // ---------------------------------------------------------------- every step keeps the invariant

  lemma InitialInv<T>(threadCount: int)
    ensures Inv(Initial<T>(threadCount))
  {
    SumBounded(Busy, Initial<T>(threadCount).workers, 0);
  }

  lemma StepKeepsLocking<T>(q: Queue<T>, l: Step<T>)
    requires Inv(q) && Next(q, l).Some?
    ensures LockHeldRight(Next(q, l).value) && HolderExists(Next(q, l).value)
    ensures NoLostWakeup(Next(q, l).value) && IdleBeforeStart(Next(q, l).value)
    ensures |Next(q, l).value.workers| == |q.workers|
  {
  }

  lemma StepKeepsHands<T>(q: Queue<T>, l: Step<T>)
    requires Inv(q) && Next(q, l).Some?
    ensures HandsOwnPop(Next(q, l).value)
  {
  }

  lemma StepKeepsStages<T>(q: Queue<T>, l: Step<T>)
    requires Inv(q) && Next(q, l).Some?
    ensures PopStages(Next(q, l).value)
  {
    var r := Next(q, l).value;
    forall k: nat | k < |r.pops|
      ensures PopStage(r, k)
    {
      if k < |q.pops| {
        assert PopStage(q, k);
      }
    }
  }

  lemma StepKeepsDistinct<T>(q: Queue<T>, l: Step<T>)
    requires Inv(q) && Next(q, l).Some?
    ensures Distinct(Next(q, l).value.handed, |Next(q, l).value.pops|)
    ensures Distinct(Next(q, l).value.done, |Next(q, l).value.pops|)
  {
    if l.Invoke? || l.Return? {
      assert PopStage(q, q.workers[l.i].at);
    }
  }

  lemma StepKeepsBusy<T>(q: Queue<T>, l: Step<T>)
    requires Inv(q) && Next(q, l).Some?
    ensures |Next(q, l).value.pops| == |Next(q, l).value.done| + Sum(Busy, Next(q, l).value.workers)
  {
    if l.Schedule? || l.Stop? {
      SumPointwise(Busy, q.workers, WakeAll(q.workers));
    } else if OfWorker(l) {
      SumUpdate(Busy, q.workers, l.i, Next(q, l).value.workers[l.i]);
    }
  }

  lemma StepKeepsInv<T>(q: Queue<T>, l: Step<T>)
    requires Inv(q) && Next(q, l).Some?
    ensures Inv(Next(q, l).value)
    ensures |Next(q, l).value.workers| == |q.workers|
  {
    StepKeepsLocking(q, l);
    StepKeepsHands(q, l);
    StepKeepsStages(q, l);
    StepKeepsDistinct(q, l);
    StepKeepsBusy(q, l);
  }

  lemma ReachableInv<T(!new)>(threadCount: int, labels: seq<Step<T>>)
    requires Exec(Next, Initial(threadCount), labels).Some?
    ensures Inv(Exec(Next, Initial(threadCount), labels).value)
    ensures |Exec(Next, Initial(threadCount), labels).value.workers| == if threadCount < 1 then 1 else threadCount
  {
    var n := |Initial<T>(threadCount).workers|;
    var inv := (q: Queue<T>) => Inv(q) && |q.workers| == n;
    InitialInv<T>(threadCount);
    forall q: Queue<T>, l: Step<T> | inv(q) && Next(q, l).Some?
      ensures inv(Next(q, l).value)
    {
      StepKeepsInv(q, l);
    }
    Invariant(Next, inv, Initial(threadCount), labels);
  }

  // ---------------------------------------------------------------- nothing gets stuck

  /** The step worker `i` takes next. */
  function OwnStep<T>(q: Queue<T>, i: nat): Step<T>
    requires i < |q.workers| && !q.workers[i].Exited?
  {
    match q.workers[i]
    case Unborn => Spawn(i)
    case LoopTest => TestLoop(i)
    case Entering => Acquire(i)
    case Testing => Take(i)
    case Parked => Acquire(i)
    case Notified => Acquire(i)
    case Popped(_, _) => Invoke(i)
    case Handling(_, _) => Return(i, false)
  }

  predicate WantsLock<T>(pc: Pc<T>) {
    pc.Entering? || pc.Notified?
  }

  /** Whoever holds the lock, worker or not, can finish its region and release it. */
  ghost predicate HolderCanRelease<T(!new)>(q: Queue<T>) {
    match q.lock
    case Free => false
    case Worker(i) => Next(q, Take(i)).Some? && Next(q, Take(i)).value.lock.Free?
    case Client(c) => forall l: Step<T> :: (l.Schedule? || l.Stop? || l.Depth?) && l.c == c ==>
                        Next(q, l).Some? && Next(q, l).value.lock.Free?
  }

  /** Worker `i` can take its next step, or wants a lock that its holder can release. */
  ghost predicate CanProceed<T(!new)>(q: Queue<T>, i: nat)
    requires i < |q.workers| && !q.workers[i].Exited?
  {
    Next(q, OwnStep(q, i)).Some? || (WantsLock(q.workers[i]) && HolderCanRelease(q))
  }

  lemma NothingStuckFrom<T(!new)>(q: Queue<T>, i: nat)
    requires Inv(q) && (q.items != [] || (q.started && !q.running))
    requires i < |q.workers| && !q.workers[i].Unborn? && !q.workers[i].Exited?
    ensures CanProceed(q, i)
  {
  }

  /**
   In every reachable state with an item queued, or stopped, no worker sleeps: each one that is
   started and has not exited can proceed.
   */
  lemma NothingStuck<T(!new)>(threadCount: int, labels: seq<Step<T>>, q: Queue<T>, i: nat)
    requires Exec(Next, Initial(threadCount), labels) == Some(q)
    requires q.items != [] || (q.started && !q.running)
    requires i < |q.workers| && !q.workers[i].Unborn? && !q.workers[i].Exited?
    ensures !q.workers[i].Parked? && CanProceed(q, i)
  {
    ReachableInv(threadCount, labels);
    NothingStuckFrom(q, i);
  }

  // ---------------------------------------------------------------- it is a FIFO

  function ItemsOf<T>(pops: seq<Pop<T>>): seq<T> {
    seq(|pops|, k requires 0 <= k < |pops| => pops[k].item)
  }

  /** Everything ever scheduled, as far as the state tells. */
  function Everything<T>(q: Queue<T>): seq<T> {
    ItemsOf(q.pops) + q.items
  }

  /** The items a run schedules, in the order in which they are appended. */
  function Scheduled<T>(labels: seq<Step<T>>): seq<T> {
    if labels == [] then []
    else (if labels[0].Schedule? then [labels[0].item] else []) + Scheduled(labels[1..])
  }

  lemma FifoStep<T>(q: Queue<T>, l: Step<T>)
    requires Next(q, l).Some?
    ensures var r := Next(q, l).value;
            ItemsOf(r.pops) + r.items == ItemsOf(q.pops) + q.items + Scheduled([l])
  {
    var r := Next(q, l).value;
    if l.Take? && r.workers[l.i].Popped? {
      assert ItemsOf(r.pops) == ItemsOf(q.pops) + [q.items[0]];
    } else {
      assert r.pops == q.pops;
    }
  }

  lemma {:induction false} FifoFrom<T>(q: Queue<T>, labels: seq<Step<T>>)
    requires Exec(Next, q, labels).Some?
    ensures var r := Exec(Next, q, labels).value;
            ItemsOf(r.pops) + r.items == ItemsOf(q.pops) + q.items + Scheduled(labels)
    decreases |labels|
  {
    var before := ItemsOf(q.pops) + q.items;
    if labels == [] {
      assert before + [] == before;
    } else {
      FifoStep(q, labels[0]);
      FifoFrom(Next(q, labels[0]).value, labels[1..]);
      var first, rest := Scheduled([labels[0]]), Scheduled(labels[1..]);
      assert [labels[0]][1..] == [];
      assert Scheduled(labels) == first + rest;
      assert (before + first) + rest == before + (first + rest);
    }
  }

  /** The workers together are one FIFO: everything scheduled is what was popped, then the queue. */
  lemma Fifo<T>(threadCount: int, labels: seq<Step<T>>, q: Queue<T>)
    requires Exec(Next, Initial(threadCount), labels) == Some(q)
    ensures Scheduled(labels) == ItemsOf(q.pops) + q.items
  {
    var start := Initial<T>(threadCount);
    FifoFrom(start, labels);
    var before := ItemsOf(start.pops) + start.items;
    assert |before| == 0;
    assert before + Scheduled(labels) == Scheduled(labels);
  }

  /**
   Every pop belongs to one worker, which alone ever has it in hand; the handler has been
   entered for it exactly once, or that worker is about to enter it.
   */
  lemma HandedExactlyOnce<T(!new)>(threadCount: int, labels: seq<Step<T>>, q: Queue<T>, k: nat)
    requires Exec(Next, Initial(threadCount), labels) == Some(q)
    requires k < |q.pops|
    ensures q.pops[k].worker < |q.workers|
    ensures var mine := q.workers[q.pops[k].worker];
            multiset(q.handed)[k] == if mine.Popped? && mine.at == k then 0 else 1
    ensures var mine := q.workers[q.pops[k].worker];
            multiset(q.done)[k] == if InHand(mine, k) then 0 else 1
    ensures forall i :: 0 <= i < |q.workers| && InHand(q.workers[i], k) ==>
              i == q.pops[k].worker && q.workers[i].item == q.pops[k].item
  {
    ReachableInv(threadCount, labels);
    assert PopStage(q, k);
    OccursOnce(q.handed, |q.pops|, k);
    OccursOnce(q.done, |q.pops|, k);
  }

  lemma {:induction false} OccursOnce(s: seq<nat>, bound: nat, k: nat)
    requires Distinct(s, bound)
    ensures multiset(s)[k] == if k in s then 1 else 0
  {
    if s != [] {
      assert s == [s[0]] + s[1..];
      OccursOnce(s[1..], bound, k);
    }
  }

  /** At most one item per worker is popped and not yet through its handler. */
  lemma InFlightBound<T(!new)>(threadCount: int, labels: seq<Step<T>>, q: Queue<T>)
    requires Exec(Next, Initial(threadCount), labels) == Some(q)
    ensures |q.pops| - |q.done| <= if threadCount < 1 then 1 else threadCount
  {
    ReachableInv(threadCount, labels);
    SumBounded(Busy, q.workers, 1);
  }

  // ---------------------------------------------------------------- interference

  /** A step of worker `i`. */
  predicate OwnOf<T>(l: Step<T>, i: nat) {
    OfWorker(l) && l.i == i
  }

  /** Worker `i` takes no step in the run. */
  ghost predicate WithoutWorker<T>(labels: seq<Step<T>>, i: nat) {
    forall k :: 0 <= k < |labels| ==> !OwnOf(labels[k], i)
  }

  /** What the steps of all other threads, whatever they are, leave of what worker `i` relies on. */
  ghost predicate KeptFor<T>(q: Queue<T>, r: Queue<T>, i: nat)
    requires i < |q.workers|
  {
    && |r.workers| == |q.workers| && (q.started ==> r.started && (!q.running ==> !r.running))
    && (r.workers[i] == q.workers[i] || (q.workers[i].Parked? && r.workers[i].Notified?))
    && q.pops <= r.pops && q.done <= r.done
    && (q.lock == Worker(i) ==> r.lock == Worker(i) && r.items == q.items && (q.started ==> r.running == q.running))
  }

  lemma OtherStepKeeps<T>(q: Queue<T>, l: Step<T>, i: nat)
    requires i < |q.workers| && !OwnOf(l, i) && Next(q, l).Some?
    ensures KeptFor(q, Next(q, l).value, i)
  {
  }

  /** While any number of other threads take any steps, worker `i` keeps its place, and the lock if it has it. */
  lemma {:induction false} OthersKeep<T>(q: Queue<T>, labels: seq<Step<T>>, i: nat)
    requires i < |q.workers| && WithoutWorker(labels, i) && Exec(Next, q, labels).Some?
    ensures KeptFor(q, Exec(Next, q, labels).value, i)
    decreases |labels|
  {
    if labels != [] {
      OtherStepKeeps(q, labels[0], i);
      assert WithoutWorker(labels[1..], i);
      OthersKeep(Next(q, labels[0]).value, labels[1..], i);
    }
  }

  /** How often worker `i` tested for something to do, in either loop. */
  function RoundsOf<T>(i: nat, labels: seq<Step<T>>): nat {
    if labels == [] then 0
    else
      var l := labels[|labels| - 1];
      RoundsOf(i, labels[..|labels| - 1]) + if (l.TestLoop? || l.Take?) && l.i == i then 1 else 0
  }

  lemma RoundsOn<T>(i: nat, labels: seq<Step<T>>, l: Step<T>)
    ensures RoundsOf(i, labels + [l]) == RoundsOf(i, labels) + if (l.TestLoop? || l.Take?) && l.i == i then 1 else 0
  {
    assert (labels + [l])[..|labels|] == labels;
  }

  /** Steps of other threads add nothing. */
  lemma {:induction false} RoundsSince<T>(i: nat, past: seq<Step<T>>, labels: seq<Step<T>>)
    requires past <= labels && WithoutWorker(labels[|past|..], i)
    ensures RoundsOf(i, labels) == RoundsOf(i, past)
    decreases |labels|
  {
    if |labels| > |past| {
      var shorter := labels[..|labels| - 1];
      assert labels[|past|..][|labels| - 1 - |past|] == labels[|labels| - 1];
      forall k | 0 <= k < |shorter[|past|..]|
        ensures !OwnOf(shorter[|past|..][k], i)
      {
        assert shorter[|past|..][k] == labels[|past|..][k];
      }
      RoundsSince(i, past, shorter);
    } else {
      assert labels == past;
    }
  }

  /** The items that thread `c` schedules in a run. */
  function ScheduledBy<T>(c: Thread, labels: seq<Step<T>>): seq<T> {
    if labels == [] then []
    else (if labels[0].Schedule? && labels[0].c == c then [labels[0].item] else []) + ScheduledBy(c, labels[1..])
  }

  lemma {:induction false} ScheduledByConcat<T>(c: Thread, a: seq<Step<T>>, b: seq<Step<T>>)
    ensures ScheduledBy(c, a + b) == ScheduledBy(c, a) + ScheduledBy(c, b)
  {
    if a == [] {
      assert a + b == b;
    } else {
      assert (a + b)[1..] == a[1..] + b;
      ScheduledByConcat(c, a[1..], b);
      var first := if a[0].Schedule? && a[0].c == c then [a[0].item] else [];
      var more, last := ScheduledBy(c, a[1..]), ScheduledBy(c, b);
      assert first + (more + last) == (first + more) + last;
    }
  }

  /** Thread `c` schedules nothing in the run. */
  ghost predicate WithoutClient<T>(labels: seq<Step<T>>, c: Thread) {
    forall k :: 0 <= k < |labels| ==> !(labels[k].Schedule? && labels[k].c == c)
  }

  lemma {:induction false} ScheduledByNone<T>(c: Thread, labels: seq<Step<T>>)
    requires WithoutClient(labels, c)
    ensures ScheduledBy(c, labels) == []
  {
    if labels != [] {
      assert WithoutClient(labels[1..], c);
      ScheduledByNone(c, labels[1..]);
    }
  }

  /** Nobody starts the queue or creates a worker in the run. */
  ghost predicate WithoutStarter<T>(labels: seq<Step<T>>) {
    forall k :: 0 <= k < |labels| ==> !labels[k].Start? && !labels[k].Spawn?
  }

  /** Only the starting thread creates workers. */
  lemma {:induction false} OthersCreateNone<T>(q: Queue<T>, labels: seq<Step<T>>)
    requires WithoutStarter(labels) && Exec(Next, q, labels).Some?
    ensures var r := Exec(Next, q, labels).value;
            && |r.workers| == |q.workers| && r.started == q.started
            && (forall i :: 0 <= i < |q.workers| ==> (r.workers[i].Unborn? <==> q.workers[i].Unborn?))
    decreases |labels|
  {
    if labels != [] {
      assert !labels[0].Start? && !labels[0].Spawn?;
      var next := Next(q, labels[0]).value;
      assert WithoutStarter(labels[1..]);
      OthersCreateNone(next, labels[1..]);
    }
  }

  /** Once started a queue stays so, and stopped stays stopped, whoever steps. */
  lemma {:induction false} StaysStarted<T>(q: Queue<T>, labels: seq<Step<T>>)
    requires Exec(Next, q, labels).Some?
    ensures var r := Exec(Next, q, labels).value;
            |r.workers| == |q.workers| && (q.started ==> r.started && (!q.running ==> !r.running))
    decreases |labels|
  {
    if labels != [] {
      StaysStarted(Next(q, labels[0]).value, labels[1..]);
    }
  }

  // ---------------------------------------------------------------- shutdown

  ghost predicate Stopped<T>(q: Queue<T>) {
    Inv(q) && q.started && !q.running
  }

  /** How many more steps a worker can take once the queue is stopped. */
  function StepsLeft<T>(pc: Pc<T>): nat {
    match pc
    case Exited => 0
    case LoopTest => 1
    case Testing => 1
    case Popped(_, _) => 3
    case Parked => 3
    case _ => 2
  }

  function Rank<T>(q: Queue<T>): nat {
    Sum(StepsLeft, q.workers)
  }

  lemma StoppedStepLowersRank<T>(q: Queue<T>, l: Step<T>)
    requires Stopped(q) && Next(q, l).Some?
    ensures var r := Next(q, l).value;
            Stopped(r) && Rank(r) + (if OfWorker(l) then 1 else 0) <= Rank(q)
  {
    StepKeepsInv(q, l);
    if l.Schedule? || l.Stop? {
      SumPointwise(StepsLeft, q.workers, WakeAll(q.workers));
    } else if OfWorker(l) {
      SumUpdate(StepsLeft, q.workers, l.i, Next(q, l).value.workers[l.i]);
    }
  }

  /** 1 for a worker with an item popped but not yet handed to the handler. */
  function AboutToHandle<T>(pc: Pc<T>): nat {
    if pc.Popped? then 1 else 0
  }

  lemma StoppedStepOnlyHandsPopped<T>(q: Queue<T>, l: Step<T>)
    requires Stopped(q) && Next(q, l).Some?
    ensures var r := Next(q, l).value;
            && r.pops == q.pops
            && |r.handed| + Sum(AboutToHandle, r.workers) == |q.handed| + Sum(AboutToHandle, q.workers)
  {
    if l.Schedule? || l.Stop? {
      SumPointwise(AboutToHandle, q.workers, WakeAll(q.workers));
    } else if OfWorker(l) {
      SumUpdate(AboutToHandle, q.workers, l.i, Next(q, l).value.workers[l.i]);
    }
  }

  lemma {:induction false} StoppedRun<T>(q: Queue<T>, labels: seq<Step<T>>)
    requires Stopped(q) && Exec(Next, q, labels).Some?
    ensures var r := Exec(Next, q, labels).value;
            && Stopped(r)
            && r.pops == q.pops
            && |r.handed| + Sum(AboutToHandle, r.workers) == |q.handed| + Sum(AboutToHandle, q.workers)
    decreases |labels|
  {
    if labels != [] {
      StepKeepsInv(q, labels[0]);
      StoppedStepOnlyHandsPopped(q, labels[0]);
      StoppedRun(Next(q, labels[0]).value, labels[1..]);
    }
  }

  /**
   Once stop() has taken effect no worker pops again and the queue only grows at its end; the
   handler is entered only for items already popped, at most one per worker.
   */
  lemma NothingPoppedAfterStop<T>(q: Queue<T>, labels: seq<Step<T>>)
    requires Stopped(q) && Exec(Next, q, labels).Some?
    ensures var r := Exec(Next, q, labels).value;
            && Stopped(r)
            && r.pops == q.pops
            && r.items == q.items + Scheduled(labels)
            && |r.handed| <= |q.handed| + |q.workers|
  {
    var r := Exec(Next, q, labels).value;
    StoppedRun(q, labels);
    SumBounded(AboutToHandle, q.workers, 1);
    FifoFrom(q, labels);
    SameAfter(ItemsOf(q.pops), r.items, q.items, Scheduled(labels));
  }

  lemma SameAfter<T>(popped: seq<T>, later: seq<T>, items: seq<T>, scheduled: seq<T>)
    requires popped + later == popped + items + scheduled
    ensures later == items + scheduled
  {
    assert later == (popped + later)[|popped|..];
    assert items + scheduled == (popped + items + scheduled)[|popped|..];
  }

  /**
   However the run after stop() goes, its workers take at most three steps each, and a worker
   that has started and not exited can always proceed: so all of them exit.
   */
  lemma WorkersExitAfterStop<T(!new)>(q: Queue<T>, labels: seq<Step<T>>)
    requires Stopped(q) && Exec(Next, q, labels).Some?
    ensures Count(OfWorker, labels) <= Rank(q) <= 3 * |q.workers|
    ensures var r := Exec(Next, q, labels).value;
            forall i :: 0 <= i < |r.workers| && !r.workers[i].Unborn? && !r.workers[i].Exited? ==> CanProceed(r, i)
  {
    forall q: Queue<T>, l: Step<T> | Stopped(q) && Next(q, l).Some?
      ensures Stopped(Next(q, l).value) && Rank(Next(q, l).value) + (if OfWorker(l) then 1 else 0) <= Rank(q)
    {
      StoppedStepLowersRank(q, l);
    }
    Potential(Next, q => Stopped(q), Rank, OfWorker, q, labels);
    SumBounded(StepsLeft, q.workers, 3);
    var r := Exec(Next, q, labels).value;
    forall i | 0 <= i < |r.workers| && !r.workers[i].Unborn? && !r.workers[i].Exited?
      ensures CanProceed(r, i)
    {
      NothingStuckFrom(r, i);
    }
  }
}
