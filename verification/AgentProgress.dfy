/**
 Nothing in the agent is ever stuck: in every reachable state each busy worker, each busy
 publisher, the poller and the shutdown can take their next step, or want a lock that its holder
 can release at once.
 */
module AgentProgress {
  import opened Runs
  import opened Threads
  import opened Dispatch
  import opened Pipeline
  import opened AgentInvariant
  import opened AgentTheorems
  import Q = WorkerQueue
  import P = Polling

  /** What the backend and the handlers' work come to, whatever it is. */
  datatype Answers = Answers(work: Work, push: Push, download: Download, found: Json, raised: bool)

  // ---------------------------------------------------------------- what it is to proceed

  /** The step takes the lock of the operations queue. */
  predicate WantsOps(s: Agent, l: Step) {
    InOps(s, l).Some? && (InOps(s, l).value.Acquire? || InOps(s, l).value.Lock?)
  }

  predicate WantsResults(s: Agent, l: Step) {
    InResults(s, l).Some? && (InResults(s, l).value.Acquire? || InResults(s, l).value.Lock?)
  }

  predicate WantsPoller(s: Agent, l: Step) {
    && InPoller(s, l).Some?
    && (InPoller(s, l).value.LockToWait? || InPoller(s, l).value.WakeUp? || InPoller(s, l).value.Lock?)
  }

  predicate OpsLockComes(s: Agent) {
    !s.ops.lock.Free? && Next(s, OpsRelease(s)).Some? && Next(s, OpsRelease(s)).value.ops.lock.Free?
  }

  predicate ResultsLockComes(s: Agent) {
    !s.results.lock.Free? && Next(s, ResultsRelease(s)).Some? && Next(s, ResultsRelease(s)).value.results.lock.Free?
  }

  predicate PollerLockComes(s: Agent) {
    !s.poller.lock.Free? && Next(s, PollerRelease(s)).Some? && Next(s, PollerRelease(s)).value.poller.lock.Free?
  }

  /** The step can be taken, or takes a lock that its holder can release by its own next step. */
  predicate Proceeds(s: Agent, l: Step) {
    || Next(s, l).Some?
    || (WantsOps(s, l) && OpsLockComes(s))
    || (WantsResults(s, l) && ResultsLockComes(s))
    || (WantsPoller(s, l) && PollerLockComes(s))
  }

  /** The step can be taken as far as locks that others hold allow. */
  predicate Offered(s: Agent, l: Step) {
    || Next(s, l).Some?
    || (WantsOps(s, l) && !s.ops.lock.Free?)
    || (WantsResults(s, l) && !s.results.lock.Free?)
    || (WantsPoller(s, l) && !s.poller.lock.Free?)
  }

  lemma OfferedProceeds(s: Agent, opsThreads: int, publishers: int, l: Step)
    requires Reachable(s, opsThreads, publishers) && Offered(s, l)
    ensures Proceeds(s, l)
  {
    HoldersRelease(s, opsThreads, publishers);
  }

  // ---------------------------------------------------------------- workers

  /** The next step of worker `i`, waiting, unborn or exited ones aside. */
  function OpsStep(s: Agent, i: nat, a: Answers): Step
    requires i < |s.ops.workers| == |s.opsHands|
  {
    match s.ops.workers[i]
    case LoopTest => OpsQueue(Q.TestLoop(i))
    case Entering => OpsQueue(Q.Acquire(i))
    case Notified => OpsQueue(Q.Acquire(i))
    case Popped(_, _) => OpsHandler(i, Begin)
    case Handling(_, _) =>
      (match s.opsHands[i]
       case Working(_) => OpsHandler(i, Work(a.work))
       case Reporting(_) =>
         OpsHandler(i, if s.results.lock == Q.Client(OpsThread(i)) then ReportResult else LockResults)
       case _ => OpsHandler(i, Finish(a.raised)))
    case _ => OpsQueue(Q.Take(i))
  }

  predicate Awake<T>(pc: Q.Pc<T>) {
    !pc.Unborn? && !pc.Parked? && !pc.Exited?
  }

  lemma OpsWorkerOffered(s: Agent, i: nat, a: Answers)
    requires OpsHandsAgree(s.ops.workers, s.opsHands) && Q.LockHeldRight(s.ops)
    requires i < |s.ops.workers| && Awake(s.ops.workers[i])
    ensures Offered(s, OpsStep(s, i, a))
  {
    assert OpsHandAgrees(s.ops.workers[i], s.opsHands[i]);
  }

  /**
   In every reachable state each worker of the operations queue, whatever its handler meets, can
   proceed, unless it sleeps on an empty and running queue, has exited, or was never created.
   */
  lemma OpsWorkersProceed(s: Agent, opsThreads: int, publishers: int, i: nat, a: Answers)
    requires Reachable(s, opsThreads, publishers) && i < |s.ops.workers| == |s.opsHands|
    ensures Awake(s.ops.workers[i]) ==> Proceeds(s, OpsStep(s, i, a))
    ensures s.ops.workers[i].Parked? ==> s.ops.items == [] && s.ops.running
  {
    ReachableSatisfiesInv(s, opsThreads, publishers);
    if Awake(s.ops.workers[i]) {
      OpsWorkerOffered(s, i, a);
      OfferedProceeds(s, opsThreads, publishers, OpsStep(s, i, a));
    }
  }

  // ---------------------------------------------------------------- publishers

  function PubStep(s: Agent, i: nat, a: Answers): Step
    requires i < |s.results.workers| == |s.pubHands|
  {
    match s.results.workers[i]
    case LoopTest => ResultsQueue(Q.TestLoop(i))
    case Entering => ResultsQueue(Q.Acquire(i))
    case Notified => ResultsQueue(Q.Acquire(i))
    case Popped(_, _) => PubHandler(i, BeginPush)
    case Handling(_, _) =>
      (match s.pubHands[i]
       case Publishing(_) => PubHandler(i, PushIt(a.push))
       case Offered(_, _) => PubHandler(i, CheckNext(a.download))
       case Ready(_) => PubHandler(i, if s.ops.lock == Q.Client(PublisherThread(i)) then ScheduleNext else LockOps)
       case _ => PubHandler(i, FinishPush(a.raised)))
    case _ => ResultsQueue(Q.Take(i))
  }

  lemma PublisherOffered(s: Agent, i: nat, a: Answers)
    requires PubHandsAgree(s.results.workers, s.pubHands) && Q.LockHeldRight(s.results)
    requires i < |s.results.workers| && Awake(s.results.workers[i])
    ensures Offered(s, PubStep(s, i, a))
  {
    assert PubHandAgrees(s.results.workers[i], s.pubHands[i]);
  }

  lemma PublishersProceed(s: Agent, opsThreads: int, publishers: int, i: nat, a: Answers)
    requires Reachable(s, opsThreads, publishers) && i < |s.results.workers| == |s.pubHands|
    ensures Awake(s.results.workers[i]) ==> Proceeds(s, PubStep(s, i, a))
    ensures s.results.workers[i].Parked? ==> s.results.items == [] && s.results.running
  {
    ReachableSatisfiesInv(s, opsThreads, publishers);
    if Awake(s.results.workers[i]) {
      PublisherOffered(s, i, a);
      OfferedProceeds(s, opsThreads, publishers, PubStep(s, i, a));
    }
  }

  // ---------------------------------------------------------------- the poller

  function PollerStep(s: Agent, a: Answers): Step {
    var mine := s.ops.lock == Q.Client(PollerThread);
    match s.poller.pc
    case Unborn => Polls(Alone(P.Start))
    case Gate => Polls(if mine then AskForRoom else LockForPoll)
    case Regate => Polls(if mine then AskForRoom else LockForPoll)
    case Beating => Polls(Alone(P.Beat(a.raised)))
    case WantsWait => Polls(Alone(P.LockToWait))
    case Settling => Polls(Alone(P.Park))
    case Waiting => Polls(Alone(P.WakeUp(true)))
    case Notified => Polls(Alone(P.WakeUp(false)))
    case Waking => Polls(Alone(P.Resume))
    case Fetching => Polls(FetchOne(a.found, a.raised))
    case InnerTest(_) => Polls(TestFetched)
    case Submitting(_) => Polls(CheckFetched(a.download))
    case Scheduling(_) => Polls(if mine then SubmitFetched else LockForPoll)
    case _ => Polls(Alone(P.TestRunning))
  }

  lemma PollerOffered(s: Agent, a: Answers)
    requires P.Inv(s.poller) && !s.poller.pc.Ended? && !s.poller.pc.Died?
    ensures Offered(s, PollerStep(s, a))
  {
    if PollerStep(s, a).c.Alone? {
      PollerAloneOffered(s, a);
    } else if s.poller.pc.Gate? || s.poller.pc.Regate? || s.poller.pc.Scheduling? {
      PollerAsksOffered(s, a);
    }
  }

  lemma PollerAsksOffered(s: Agent, a: Answers)
    requires s.poller.pc.Gate? || s.poller.pc.Regate? || s.poller.pc.Scheduling?
    ensures Offered(s, PollerStep(s, a))
  {
  }

  lemma PollerAloneOffered(s: Agent, a: Answers)
    requires P.Inv(s.poller) && !s.poller.pc.Ended? && !s.poller.pc.Died? && PollerStep(s, a).c.Alone?
    ensures Offered(s, PollerStep(s, a))
  {
    var step := PollerStep(s, a).c.p;
    assert PlanOf(s, PollerStep(s, a)) == Some(Plan(None, None, Some(step), s));
    assert P.Next(s.poller, step).Some? || ((step.LockToWait? || step.WakeUp?) && !s.poller.lock.Free?);
  }

  /** Whatever the backend answers, the poller can proceed until its thread has ended. */
  lemma PollerProceeds(s: Agent, opsThreads: int, publishers: int, a: Answers)
    requires Reachable(s, opsThreads, publishers) && !s.poller.pc.Ended? && !s.poller.pc.Died?
    ensures Proceeds(s, PollerStep(s, a))
  {
    ReachableSatisfiesInv(s, opsThreads, publishers);
    PollerOffered(s, a);
    OfferedProceeds(s, opsThreads, publishers, PollerStep(s, a));
  }

  // ---------------------------------------------------------------- the shutdown

  /** The next step of trigger `k`; `raised` is whether notifying, or stopping the rest, raises. */
  function StopperStep(s: Agent, k: nat, raised: bool): Step
    requires k < |s.triggers|
  {
    var me := StopperThread(k);
    match s.triggers[k]
    case Notifying => Shutdown(k, NotifyBackend(raised))
    case StoppingOps => Shutdown(k, if s.ops.lock == Q.Client(me) then StopNext else LockNext)
    case StoppingResults => Shutdown(k, if s.results.lock == Q.Client(me) then StopNext else LockNext)
    case StoppingPoller => Shutdown(k, if s.poller.lock == P.Client(me) then StopNext else LockNext)
    case StoppingRest => Shutdown(k, StopRest(raised))
    case Exiting => Shutdown(k, SignalExit)
    case _ => Shutdown(k, TryLock)
  }

  lemma StopperOffered(s: Agent, k: nat, raised: bool)
    requires k < |s.triggers| && GotLock(s.triggers[k]) && !s.triggers[k].Over? && !s.triggers[k].Cut?
    ensures Offered(s, StopperStep(s, k, raised))
  {
  }

  /** How many steps trigger `k` has left at most. */
  function StopperLeft(s: Agent, k: nat): nat {
    if k >= |s.triggers| then 0
    else
      match s.triggers[k]
      case Untriggered => 10
      case Notifying => 9
      case StoppingOps => if s.ops.lock == Q.Client(StopperThread(k)) then 7 else 8
      case StoppingResults => if s.results.lock == Q.Client(StopperThread(k)) then 5 else 6
      case StoppingPoller => if s.poller.lock == P.Client(StopperThread(k)) then 3 else 4
      case StoppingRest => 2
      case Exiting => 1
      case _ => 0
  }

  /** The step is not one of client `c`. */
  predicate NotBy<T>(m: Option<Q.Step<T>>, c: Thread) {
    m.Some? && (m.value.Lock? || m.value.Schedule? || m.value.Stop? || m.value.Depth?) ==> m.value.c != c
  }

  predicate PollerNotBy(m: Option<P.Step<Op>>, c: Thread) {
    m.Some? && (m.value.Lock? || m.value.Notify? || m.value.Stop?) ==> m.value.c != c
  }

  lemma ClientKeepsLock<T>(q: Q.Queue<T>, m: Option<Q.Step<T>>, c: Thread)
    requires NotBy(m, c) && Maybe(Q.Next, q, m).Some?
    ensures Maybe(Q.Next, q, m).value.lock == Q.Client(c) <==> q.lock == Q.Client(c)
  {
  }

  lemma ClientKeepsPollerLock(p: P.Poller<Op>, m: Option<P.Step<Op>>, c: Thread)
    requires P.Inv(p) && PollerNotBy(m, c) && Maybe(P.Next, p, m).Some?
    ensures Maybe(P.Next, p, m).value.lock == P.Client(c) <==> p.lock == P.Client(c)
  {
  }

  lemma OtherPlansAreNotBy(s: Agent, l: Step, p: Plan, k: nat)
    requires PlanOf(s, l) == Some(p) && !(l.Shutdown? && l.k == k)
    ensures NotBy(p.ops, StopperThread(k)) && NotBy(p.results, StopperThread(k))
    ensures PollerNotBy(p.poller, StopperThread(k))
    ensures |p.rest.triggers| == |s.triggers|
    ensures k < |s.triggers| ==> p.rest.triggers[k] == s.triggers[k] || p.rest.triggers[k].Cut?
  {
  }

  lemma OwnStopperStep(s: Agent, k: nat, e: StopAct, p: Plan, r: Agent)
    requires PlanShutdown(s, k, e) == Some(p) && Perform(s, p) == Some(r)
    ensures StopperLeft(r, k) < StopperLeft(s, k)
  {
  }

  lemma StopperStepsDown(s: Agent, l: Step, k: nat)
    requires P.Inv(s.poller) && Next(s, l).Some?
    ensures StopperLeft(Next(s, l).value, k) + (if l.Shutdown? && l.k == k then 1 else 0) <= StopperLeft(s, k)
  {
    var p, r := PlanOf(s, l).value, Next(s, l).value;
    if l.Shutdown? && l.k == k {
      OwnStopperStep(s, k, l.e, p, r);
    } else {
      OtherPlansAreNotBy(s, l, p, k);
      ClientKeepsLock(s.ops, p.ops, StopperThread(k));
      ClientKeepsLock(s.results, p.results, StopperThread(k));
      ClientKeepsPollerLock(s.poller, p.poller, StopperThread(k));
    }
  }

  function OfTrigger(k: nat): Step -> bool {
    (l: Step) => l.Shutdown? && l.k == k
  }

  /** Over every run a trigger takes at most ten steps, however many the others take. */
  lemma ShutdownIsBounded(
    cfg: Config, opsThreads: int, publishers: int, triggers: seq<bool>, labels: seq<Step>, s: Agent, k: nat)
    requires Exec(Next, Initial(cfg, opsThreads, publishers, triggers), labels) == Some(s)
    ensures Count(OfTrigger(k), labels) + StopperLeft(s, k) <= 10
  {
    var left := (s: Agent) => StopperLeft(s, k);
    forall s: Agent, l: Step | PartsInv(s) && Next(s, l).Some?
      ensures PartsInv(Next(s, l).value)
      ensures left(Next(s, l).value) + (if OfTrigger(k)(l) then 1 else 0) <= left(s)
    {
      KeepsParts(s, PlanOf(s, l).value, Next(s, l).value);
      StopperStepsDown(s, l, k);
    }
    InitialInv(cfg, opsThreads, publishers, triggers);
    Potential(Next, s => PartsInv(s), left, OfTrigger(k), Initial(cfg, opsThreads, publishers, triggers), labels);
  }

  /**
   Unless a second signal cuts it short, the trigger that got the lock comes to its end: in every
   reachable state it can proceed until it is over, whether or not notifying raises.
   */
  lemma ShutdownProceeds(s: Agent, opsThreads: int, publishers: int, k: nat, raised: bool)
    requires Reachable(s, opsThreads, publishers)
    requires k < |s.triggers| && GotLock(s.triggers[k]) && !s.triggers[k].Over? && !s.triggers[k].Cut?
    ensures Proceeds(s, StopperStep(s, k, raised)) && StopperStep(s, k, raised).k == k
  {
    StopperOffered(s, k, raised);
    OfferedProceeds(s, opsThreads, publishers, StopperStep(s, k, raised));
  }
}
