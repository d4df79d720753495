/** What holds in every run of the whole agent, whatever its thread counts and interleaving. */
module AgentTheorems {
  import opened Runs
  import opened Threads
  import opened Totals
  import opened Dispatch
  import opened Pipeline
  import opened AgentInvariant
  import Q = WorkerQueue
  import P = Polling

  ghost predicate Reachable(s: Agent, opsThreads: int, publishers: int) {
    exists cfg: Config, triggers: seq<bool>, labels: seq<Step> ::
      Exec(Next, Initial(cfg, opsThreads, publishers, triggers), labels) == Some(s)
  }

  lemma ReachableSatisfiesInv(s: Agent, opsThreads: int, publishers: int)
    requires Reachable(s, opsThreads, publishers)
    ensures Inv(s) && |s.ops.workers| == AtLeastOne(opsThreads) && |s.results.workers| == AtLeastOne(publishers)
  {
    var cfg: Config, triggers: seq<bool>, labels: seq<Step> :|
      Exec(Next, Initial(cfg, opsThreads, publishers, triggers), labels) == Some(s);
    ReachableInv(cfg, opsThreads, publishers, triggers, labels);
  }

  // ---------------------------------------------------------------- nothing vanishes, nothing is duplicated

  /**
   Every operation the backend handed over and every timer tick is in exactly one place: the
   operations queue, one of its workers, the results queue, one publisher, the poller, or
   settled for a stated reason. No token is anywhere before it was issued.
   */
  lemma EveryTokenInOnePlace(s: Agent, opsThreads: int, publishers: int, t: nat)
    requires Reachable(s, opsThreads, publishers)
    ensures Sum(OfOp(Is(t)), s.ops.items) + Sum(OfOpsHand(Is(t)), s.opsHands)
            + Sum(OfRes(Is(t)), s.results.items) + Sum(OfPubHand(Is(t)), s.pubHands)
            + OfPoller(Is(t), s.poller.pc) + Sum(OfSettled(Is(t)), s.settled)
            == if t < s.issued then 1 else 0
  {
    ReachableSatisfiesInv(s, opsThreads, publishers);
    assert Places(s, Is(t)) == if t < s.issued then 1 else 0;
  }

  /** Adding work to the agent: the poller submits an operation, or a timer ticks. */
  predicate AddsWork(l: Step) {
    l == Polls(SubmitFetched) || l.TimerSchedules?
  }

  lemma Balance(s: Agent)
    requires Conserved(s)
    ensures InProgress(s, EACH) == Unsettled(s)
  {
    SettledCount(s.settled);
  }

  lemma {:induction false} SettledCount(settled: seq<Settled>)
    ensures Sum(OfSettled(EACH), settled) == |settled|
  {
    if settled != [] {
      SettledCount(settled[1..]);
    }
  }

  /** Tokens handed out and neither with the poller nor settled. */
  function Unsettled(s: Agent): int {
    s.issued - OfPoller(EACH, s.poller.pc) - |s.settled|
  }

  lemma PollsAddWork(s: Agent, c: PollAct, p: Plan, r: Agent)
    requires P.Inv(s.poller) && PlanPolls(s, c) == Some(p) && Perform(s, p) == Some(r)
    ensures Unsettled(r) <= Unsettled(s) + if c.SubmitFetched? then 1 else 0
  {
  }

  lemma OtherPlansAddWork(s: Agent, l: Step, p: Plan)
    requires !l.Polls? && PlanOf(s, l) == Some(p)
    ensures p.rest.issued - |p.rest.settled| <= s.issued - |s.settled| + if AddsWork(l) then 1 else 0
  {
  }

  lemma OthersLeavePollerToken(s: Agent, p: Plan, r: Agent)
    requires (p.poller.None? || p.poller.value.Lock? || p.poller.value.Stop?) && Perform(s, p) == Some(r)
    ensures OfPoller(EACH, r.poller.pc) == OfPoller(EACH, s.poller.pc)
  {
  }

  lemma StepAddsWork(s: Agent, l: Step, p: Plan, r: Agent)
    requires P.Inv(s.poller) && Backpressured(s) && PlanOf(s, l) == Some(p) && Perform(s, p) == Some(r)
    ensures Unsettled(r) <= Unsettled(s) + if AddsWork(l) then 1 else 0
  {
    if l.Polls? {
      PollsAddWork(s, l.c, p, r);
    } else {
      OtherPlansAddWork(s, l, p);
      OtherPlansPollNothing(s, l, p);
      OthersLeavePollerToken(s, p, r);
    }
  }

  /**
   Outstanding work, queued or in the hands of a worker or publisher, grows only when the
   poller submits or a timer ticks, and then by one: publishing a result and running the
   operation its reply brings never adds any.
   */
  lemma OnlyPollerAndTimersAddWork(s: Agent, opsThreads: int, publishers: int, l: Step)
    requires Reachable(s, opsThreads, publishers) && Next(s, l).Some?
    ensures InProgress(Next(s, l).value, EACH) <= InProgress(s, EACH) + if AddsWork(l) then 1 else 0
  {
    ReachableSatisfiesInv(s, opsThreads, publishers);
    KeepsInv(s, l);
    Balance(s);
    Balance(Next(s, l).value);
    StepAddsWork(s, l, PlanOf(s, l).value, Next(s, l).value);
  }

  // ---------------------------------------------------------------- piggybacking

  predicate SchedulesPiggyback(l: Step) {
    l.PubHandler? && l.b.ScheduleNext?
  }

  function IsPushed(e: Settled): nat {
    if e.how.Pushed? then 1 else 0
  }

  /** 1 for a publisher holding an operation it got in a reply and has not scheduled. */
  function HoldsOffer(h: PubHand): nat {
    if h.Offered? || h.Ready? then 1 else 0
  }

  lemma HandOffers(s: Agent, r: Agent, i: nat, settles: bool)
    requires i < |s.pubHands| == |r.pubHands| && r.pubHands == s.pubHands[i := r.pubHands[i]]
    requires if settles then |r.settled| == |s.settled| + 1 && r.settled[..|s.settled|] == s.settled
             else r.settled == s.settled
    requires settles && !r.settled[|s.settled|].how.Pushed? ==> HoldsOffer(r.pubHands[i]) <= HoldsOffer(s.pubHands[i])
    requires !settles ==> HoldsOffer(r.pubHands[i]) <= HoldsOffer(s.pubHands[i])
    ensures Sum(HoldsOffer, r.pubHands) + Sum(IsPushed, s.settled)
            <= Sum(HoldsOffer, s.pubHands) + Sum(IsPushed, r.settled)
    ensures !settles ==>
              Sum(HoldsOffer, r.pubHands) + HoldsOffer(s.pubHands[i])
              == Sum(HoldsOffer, s.pubHands) + HoldsOffer(r.pubHands[i])
  {
    SumUpdate(HoldsOffer, s.pubHands, i, r.pubHands[i]);
    if settles {
      assert r.settled == s.settled + [r.settled[|s.settled|]];
      SumAppend(IsPushed, s.settled, r.settled[|s.settled|]);
    }
  }

  lemma PushOffers(s: Agent, i: nat, push: Push, p: Plan)
    requires i < |s.pubHands| && s.pubHands[i].Publishing?
    requires PlanPush(s, i, s.pubHands[i].res, push) == Some(p)
    ensures Sum(HoldsOffer, p.rest.pubHands) + Sum(IsPushed, s.settled)
            <= Sum(HoldsOffer, s.pubHands) + Sum(IsPushed, p.rest.settled)
  {
    HandOffers(s, p.rest, i, true);
  }

  lemma CheckNextOffers(s: Agent, i: nat, d: Download, p: Plan)
    requires i < |s.pubHands| && s.pubHands[i].Offered?
    requires PlanCheckNext(s, i, s.pubHands[i].token, s.pubHands[i].next, d) == Some(p)
    ensures Sum(HoldsOffer, p.rest.pubHands) + Sum(IsPushed, s.settled)
            <= Sum(HoldsOffer, s.pubHands) + Sum(IsPushed, p.rest.settled)
  {
    HandOffers(s, p.rest, i, p.rest.settled != s.settled);
  }

  lemma PubHandlerOffers(s: Agent, i: nat, b: PubAct, p: Plan)
    requires PlanPubHandler(s, i, b) == Some(p)
    ensures Sum(HoldsOffer, p.rest.pubHands) + (if b.ScheduleNext? then 1 else 0) + Sum(IsPushed, s.settled)
            <= Sum(HoldsOffer, s.pubHands) + Sum(IsPushed, p.rest.settled)
  {
    match b
    case PushIt(push) => PushOffers(s, i, push, p);
    case CheckNext(d) => CheckNextOffers(s, i, d, p);
    case _ => HandOffers(s, p.rest, i, false);
  }

  /** Other steps settle at most one token, and leave publishers without an offer if they had none. */
  lemma OtherPlansOffer(s: Agent, l: Step, p: Plan)
    requires !l.PubHandler? && PlanOf(s, l) == Some(p)
    ensures s.settled <= p.rest.settled && |p.rest.settled| <= |s.settled| + 1
    ensures p.rest.pubHands == s.pubHands
            || (l.ResultsQueue? && l.r.Take? && l.r.i < |s.pubHands|
                && exists res :: p.rest.pubHands == s.pubHands[l.r.i := PubTaken(res)])
  {
  }

  lemma OtherOffers(s: Agent, l: Step, p: Plan)
    requires !l.PubHandler? && PlanOf(s, l) == Some(p)
    ensures Sum(HoldsOffer, p.rest.pubHands) + Sum(IsPushed, s.settled)
            <= Sum(HoldsOffer, s.pubHands) + Sum(IsPushed, p.rest.settled)
  {
    OtherPlansOffer(s, l, p);
    SumConcat(IsPushed, s.settled, p.rest.settled[|s.settled|..]);
    assert p.rest.settled == s.settled + p.rest.settled[|s.settled|..];
    if p.rest.pubHands != s.pubHands {
      SumUpdate(HoldsOffer, s.pubHands, l.r.i, p.rest.pubHands[l.r.i]);
    }
  }

  lemma {:induction false} OffersRun(s: Agent, labels: seq<Step>)
    requires Exec(Next, s, labels).Some?
    ensures var r := Exec(Next, s, labels).value;
            Sum(HoldsOffer, r.pubHands) + Count(SchedulesPiggyback, labels) + Sum(IsPushed, s.settled)
            <= Sum(HoldsOffer, s.pubHands) + Sum(IsPushed, r.settled)
    decreases |labels|
  {
    if labels != [] {
      var l, p := labels[0], PlanOf(s, labels[0]).value;
      if l.PubHandler? {
        PubHandlerOffers(s, l.i, l.b, p);
      } else {
        OtherOffers(s, l, p);
      }
      OffersRun(Next(s, l).value, labels[1..]);
    }
  }

  /** Over every run, no more piggybacked operations are scheduled than results were pushed. */
  lemma PiggybackedAtMostPushed(
    cfg: Config, opsThreads: int, publishers: int, triggers: seq<bool>, labels: seq<Step>, s: Agent)
    requires Exec(Next, Initial(cfg, opsThreads, publishers, triggers), labels) == Some(s)
    ensures Count(SchedulesPiggyback, labels) <= Sum(IsPushed, s.settled)
  {
    var start := Initial(cfg, opsThreads, publishers, triggers);
    OffersRun(start, labels);
    SumBounded(HoldsOffer, start.pubHands, 0);
  }

  // ---------------------------------------------------------------- backpressure

  function NotPolled(op: Op): nat {
    1 - Polled(op)
  }

  lemma {:induction false} PolledAndNot(items: seq<Op>)
    ensures |items| == Sum(Polled, items) + Sum(NotPolled, items)
  {
    if items != [] {
      PolledAndNot(items[1..]);
    }
  }

  /**
   Although checking for room, fetching and submitting are separate steps and others schedule
   in between, no more polled operations are ever queued than there are worker threads; only
   piggybacked and timer operations can make the queue longer.
   */
  lemma BackpressureHolds(s: Agent, opsThreads: int, publishers: int)
    requires Reachable(s, opsThreads, publishers)
    ensures Sum(Polled, s.ops.items) <= AtLeastOne(opsThreads)
    ensures |s.ops.items| <= AtLeastOne(opsThreads) + Sum(NotPolled, s.ops.items)
  {
    ReachableSatisfiesInv(s, opsThreads, publishers);
    PolledAndNot(s.ops.items);
  }

  // ---------------------------------------------------------------- locks

  predicate HoldsOps(s: Agent, th: Thread) {
    s.ops.lock == Q.Client(th) || (th.OpsThread? && s.ops.lock == Q.Worker(th.i))
  }

  predicate HoldsResults(s: Agent, th: Thread) {
    s.results.lock == Q.Client(th) || (th.PublisherThread? && s.results.lock == Q.Worker(th.i))
  }

  predicate HoldsPoller(s: Agent, th: Thread) {
    s.poller.lock == P.Client(th) || (th.PollerThread? && s.poller.lock.Mine?)
  }

  /** No thread ever holds two of the three locks. */
  lemma OneLockPerThread(s: Agent, opsThreads: int, publishers: int, th: Thread)
    requires Reachable(s, opsThreads, publishers)
    ensures !(HoldsOps(s, th) && HoldsResults(s, th))
    ensures !(HoldsOps(s, th) && HoldsPoller(s, th))
    ensures !(HoldsResults(s, th) && HoldsPoller(s, th))
  {
    ReachableSatisfiesInv(s, opsThreads, publishers);
    if th.OpsThread? && th.i < |s.opsHands| {
      assert OpsHandAgrees(s.ops.workers[th.i], s.opsHands[th.i]);
    }
    if th.PublisherThread? && th.i < |s.pubHands| {
      assert PubHandAgrees(s.results.workers[th.i], s.pubHands[th.i]);
    }
  }

  /** The next step of the thread that holds the lock of the operations queue. */
  function OpsRelease(s: Agent): Step
    requires !s.ops.lock.Free?
  {
    match s.ops.lock
    case Worker(i) => OpsQueue(Q.Take(i))
    case Client(th) =>
      match th
      case PollerThread => if s.poller.pc.Scheduling? then Polls(SubmitFetched) else Polls(AskForRoom)
      case PublisherThread(i) => PubHandler(i, ScheduleNext)
      case StopperThread(k) => Shutdown(k, StopNext)
      case _ => TimerSchedules(th.i, PUSH_LOGS_PATH)
  }

  function ResultsRelease(s: Agent): Step
    requires !s.results.lock.Free?
  {
    match s.results.lock
    case Worker(i) => ResultsQueue(Q.Take(i))
    case Client(th) =>
      match th
      case StopperThread(k) => Shutdown(k, StopNext)
      case PollerThread => Polls(AskForRoom)
      case _ => OpsHandler(th.i, ReportResult)
  }

  function PollerRelease(s: Agent): Step
    requires !s.poller.lock.Free?
  {
    match s.poller.lock
    case Mine => Polls(Alone(if s.poller.pc.Settling? then P.Park else P.Resume))
    case Client(th) =>
      match th
      case StopperThread(k) => Shutdown(k, StopNext)
      case _ => Polls(Alone(P.Notify(th)))
  }

  lemma OpsReleaseEnabled(s: Agent, p: Plan)
    requires Q.LockHeldRight(s.ops) && Q.HolderExists(s.ops) && OpsLockRight(s) && !s.ops.lock.Free?
    requires PlanOf(s, OpsRelease(s)) == Some(p)
    ensures Perform(s, p).Some? && Perform(s, p).value.ops.lock.Free?
  {
    OpsReleasePlan(s, p);
    assert Q.Next(s.ops, p.ops.value).Some? && Q.Next(s.ops, p.ops.value).value.lock.Free?;
  }

  /** It is the holder's own step in the queue, and at most a step of the poller along with it. */
  lemma OpsReleasePlan(s: Agent, p: Plan)
    requires OpsLockRight(s) && !s.ops.lock.Free? && PlanOf(s, OpsRelease(s)) == Some(p)
    ensures p.ops.Some? && p.results.None?
    ensures match s.ops.lock
            case Worker(i) => p.ops.value == Q.Take(i)
            case Client(th) => (p.ops.value.Schedule? || p.ops.value.Stop? || p.ops.value.Depth?) && p.ops.value.c == th
    ensures Maybe(P.Next, s.poller, p.poller).Some?
  {
  }

  lemma OpsReleasePlanned(s: Agent)
    requires OpsLockRight(s) && !s.ops.lock.Free?
    ensures PlanOf(s, OpsRelease(s)).Some?
  {
  }

  lemma ResultsReleaseEnabled(s: Agent, p: Plan)
    requires Q.LockHeldRight(s.results) && Q.HolderExists(s.results) && ResultsLockRight(s) && !s.results.lock.Free?
    requires PlanOf(s, ResultsRelease(s)) == Some(p)
    ensures Perform(s, p).Some? && Perform(s, p).value.results.lock.Free?
  {
  }

  lemma ResultsReleasePlanned(s: Agent)
    requires ResultsLockRight(s) && !s.results.lock.Free?
    ensures PlanOf(s, ResultsRelease(s)).Some?
  {
  }

  lemma PollerReleaseEnabled(s: Agent, p: Plan)
    requires P.Inv(s.poller) && PollerLockRight(s) && !s.poller.lock.Free?
    requires PlanOf(s, PollerRelease(s)) == Some(p)
    ensures Perform(s, p).Some? && Perform(s, p).value.poller.lock.Free?
  {
  }

  lemma PollerReleasePlanned(s: Agent)
    requires PollerLockRight(s) && !s.poller.lock.Free?
    ensures PlanOf(s, PollerRelease(s)).Some?
  {
  }

  /**
   In every reachable state the holder of each lock can take its next step at once, needing no
   other lock, and releases it by that step: there is no circular wait.
   */
  lemma HoldersRelease(s: Agent, opsThreads: int, publishers: int)
    requires Reachable(s, opsThreads, publishers)
    ensures !s.ops.lock.Free? ==>
              Next(s, OpsRelease(s)).Some? && Next(s, OpsRelease(s)).value.ops.lock.Free?
    ensures !s.results.lock.Free? ==>
              Next(s, ResultsRelease(s)).Some? && Next(s, ResultsRelease(s)).value.results.lock.Free?
    ensures !s.poller.lock.Free? ==>
              Next(s, PollerRelease(s)).Some? && Next(s, PollerRelease(s)).value.poller.lock.Free?
  {
    ReachableSatisfiesInv(s, opsThreads, publishers);
    if !s.ops.lock.Free? {
      OpsReleasePlanned(s);
      OpsReleaseEnabled(s, PlanOf(s, OpsRelease(s)).value);
    }
    if !s.results.lock.Free? {
      ResultsReleasePlanned(s);
      ResultsReleaseEnabled(s, PlanOf(s, ResultsRelease(s)).value);
    }
    if !s.poller.lock.Free? {
      PollerReleasePlanned(s);
      PollerReleaseEnabled(s, PlanOf(s, PollerRelease(s)).value);
    }
  }

  // ---------------------------------------------------------------- the parts inside the whole

  /** In every run of the agent both queues are FIFO over whatever their many users schedule. */
  lemma QueuesAreFifo(cfg: Config, opsThreads: int, publishers: int, triggers: seq<bool>, labels: seq<Step>, s: Agent)
    requires Exec(Next, Initial(cfg, opsThreads, publishers, triggers), labels) == Some(s)
    ensures var start := Initial(cfg, opsThreads, publishers, triggers);
            && Q.Scheduled(Project(Next, InOps, start, labels)) == Q.ItemsOf(s.ops.pops) + s.ops.items
            && Q.Scheduled(Project(Next, InResults, start, labels)) == Q.ItemsOf(s.results.pops) + s.results.items
  {
    var start := Initial(cfg, opsThreads, publishers, triggers);
    PartsRun(start, labels);
    Q.Fifo(opsThreads, Project(Next, InOps, start, labels), s.ops);
    Q.Fifo(publishers, Project(Next, InResults, start, labels), s.results);
  }

  // ---------------------------------------------------------------- shutdown

  predicate GotLock(t: Trigger) {
    !t.Untriggered? && !t.TurnedAway?
  }

  /**
   Whatever triggers the shutdown, and however often, also from within itself: the backend is
   notified, the stop sequence is begun and the exit is signalled at most once each, in that
   order, and all by the one call that got the lock.
   */
  lemma ShutdownHappensOnce(s: Agent, opsThreads: int, publishers: int)
    requires Reachable(s, opsThreads, publishers)
    ensures s.exits <= s.stops <= s.notified <= 1
    ensures s.exits == 1 ==> !s.ops.running && !s.results.running && !s.poller.running
    ensures forall j: nat, k: nat ::
              j < |s.triggers| && k < |s.triggers| && GotLock(s.triggers[j]) && GotLock(s.triggers[k]) ==> j == k
  {
    ReachableSatisfiesInv(s, opsThreads, publishers);
    OnceMeans(s);
  }

  lemma OnceMeans(s: Agent)
    requires ShutdownOnce(s)
    ensures s.exits <= s.stops <= s.notified <= 1
    ensures s.exits == 1 ==> !s.ops.running && !s.results.running && !s.poller.running
    ensures forall j: nat, k: nat ::
              j < |s.triggers| && k < |s.triggers| && GotLock(s.triggers[j]) && GotLock(s.triggers[k]) ==> j == k
  {
  }

  /**
   Once the shutdown has stopped both queues, in every continuation: no operation and no result
   is popped again, each worker and publisher takes at most three more steps, and once it has
   stopped the poller too, the poller submits, fetches and waits at most once more.
   */
  lemma NoNewWorkAfterStop(s: Agent, opsThreads: int, publishers: int, w: nat, labels: seq<Step>)
    requires Reachable(s, opsThreads, publishers)
    requires s.shutdownLock == Some(w) && w < |s.triggers| && Progress(s.triggers[w]) >= 3
    requires Exec(Next, s, labels).Some?
    ensures var r := Exec(Next, s, labels).value;
            && r.ops.pops == s.ops.pops && r.results.pops == s.results.pops
            && s.ops.items <= r.ops.items && s.results.items <= r.results.items
    ensures Count(Q.OfWorker, Project(Next, InOps, s, labels)) <= 3 * AtLeastOne(opsThreads)
    ensures Count(Q.OfWorker, Project(Next, InResults, s, labels)) <= 3 * AtLeastOne(publishers)
    ensures Progress(s.triggers[w]) >= 4 ==>
              && Count(P.IsSubmitted, Project(Next, InPoller, s, labels)) <= 1
              && Count(P.IsFetch, Project(Next, InPoller, s, labels)) <= 1
              && Count(P.IsPark, Project(Next, InPoller, s, labels)) <= 1
  {
    ReachableSatisfiesInv(s, opsThreads, publishers);
    PartsRun(s, labels);
    var ops, results := Project(Next, InOps, s, labels), Project(Next, InResults, s, labels);
    Q.NothingPoppedAfterStop(s.ops, ops);
    Q.NothingPoppedAfterStop(s.results, results);
    Q.WorkersExitAfterStop(s.ops, ops);
    Q.WorkersExitAfterStop(s.results, results);
    if Progress(s.triggers[w]) >= 4 {
      P.EndsAfterStop(s.poller, Project(Next, InPoller, s, labels));
    }
  }
}
