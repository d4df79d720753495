/**
 The whole agent: poller, operations queue and its workers, results queue and its publishers,
 timers, event listeners and the shutdown sequence, stepping in any order.

 The system is a product: the two queues and the poller are the machines of `WorkerQueue` and
 `Polling`, and a label of the system moves each of them by at most one of its own steps. What
 is added here is what the handlers do between those steps.

 Every operation the backend hands over, and every timer tick, gets a token of its own. An
 operation carries its token into its result.
 */
module Pipeline {
  import opened Runs
  import opened Threads
  import opened Dispatch
  import Q = WorkerQueue
  import P = Polling

  datatype Origin = FromPoll | FromPiggyback | FromTimer

  datatype Op = Op(token: nat, origin: Origin, id: Json, event: Event)

  datatype Res = Res(token: nat, id: Json, content: Content)

  /** Where a worker of the operations queue is with the operation it popped. */
  datatype OpsHand =
    | OpsIdle
    | OpsTaken(op: Op)
    | Working(op: Op)
    | Reporting(res: Res)   // wants the lock of the results queue, or holds it
    | OpsFinished

  /** Where a publisher is with the result it popped, and then with the operation it got in return. */
  datatype PubHand =
    | PubIdle
    | PubTaken(res: Res)
    | Publishing(res: Res)
    | Offered(token: nat, next: Json)
    | Ready(op: Op)         // wants the lock of the operations queue, or holds it
    | PubFinished

  datatype Ending =
    | Pushed(res: Res)      // handed to push_results, which returned, also if it could not deliver it
    | PublishRaised(res: Res)
    | NoResultToPush(res: Res)
    | NotAnswered(op: Op)   // its handler reported no result
    | Rejected              // named no path or id, or was no object
    | DroppedAtStop         // fetched, but the poller was stopped
    | DownloadFailed(origin: Origin)

  datatype Settled = Settled(token: nat, how: Ending)

  /** One call of the graceful shutdown: by an event, or by a signal, which the main thread handles. */
  datatype Trigger =
    | Untriggered
    | TurnedAway
    | Notifying
    | StoppingOps
    | StoppingResults
    | StoppingPoller
    | StoppingRest
    | Exiting
    | Over
    | Cut(progress: nat)    // ended by the exit of a second signal, having come this far

  datatype Agent = Agent(
    cfg: Config,
    ops: Q.Queue<Op>, results: Q.Queue<Res>, poller: P.Poller<Op>,
    opsHands: seq<OpsHand>, pubHands: seq<PubHand>,
    issued: nat, settled: seq<Settled>,
    triggers: seq<Trigger>, onMain: seq<bool>, shutdownLock: Option<nat>, notified: nat, stops: nat, exits: nat)

  /** How push_results, and what surrounds it, comes out. */
  datatype Push = PushRaises | Replies(reply: Json)

  /** What the handler of an operations worker does. */
  datatype OpsAct =
    | Begin
    | Work(work: Work)
    | LockResults
    | ReportResult
    | Finish(raised: bool)

  /** What the handler of a publisher does. */
  datatype PubAct =
    | BeginPush
    | PushIt(push: Push)
    | CheckNext(download: Download)
    | LockOps
    | ScheduleNext
    | FinishPush(raised: bool)

  /** What the poller's thread does; `Alone` is what involves neither queue nor operation. */
  datatype PollAct =
    | Alone(p: P.Step<Op>)
    | FetchOne(found: Json, raised: bool)
    | TestFetched
    | CheckFetched(download: Download)
    | LockForPoll
    | AskForRoom
    | SubmitFetched

  /** What one call of the graceful shutdown does. */
  datatype StopAct =
    | TryLock
    | NotifyBackend(raised: bool)
    | LockNext
    | StopNext
    | StopRest(raised: bool)
    | SignalExit

  datatype Step =
    | OpsQueue(q: Q.Step<Op>)        // a worker moving outside its handler
    | OpsHandler(i: nat, a: OpsAct)
    | ResultsQueue(r: Q.Step<Res>)
    | PubHandler(i: nat, b: PubAct)
    | Polls(c: PollAct)
    | TimerLocks(k: nat)
    | TimerSchedules(k: nat, path: string)
    | Shutdown(k: nat, e: StopAct)

  function Initial(cfg: Config, opsThreads: int, publishers: int, triggers: seq<bool>): Agent {
    var ops, results := Q.Initial<Op>(opsThreads), Q.Initial<Res>(publishers);
    Agent(cfg, ops, results, P.Initial(true),
          seq(|ops.workers|, _ => OpsIdle), seq(|results.workers|, _ => PubIdle),
          0, [], seq(|triggers|, _ => Untriggered), triggers, None, 0, 0, 0)
  }

  // ---------------------------------------------------------------- the steps

  /** What a label amounts to: at most one step of each part, and the rest of the agent after it. */
  datatype Plan = Plan(ops: Option<Q.Step<Op>>, results: Option<Q.Step<Res>>, poller: Option<P.Step<Op>>, rest: Agent)

  function Only(s: Agent): Option<Plan> {
    Some(Plan(None, None, None, s))
  }

  function WithOps(q: Q.Step<Op>, s: Agent): Option<Plan> {
    Some(Plan(Some(q), None, None, s))
  }

  function WithResults(r: Q.Step<Res>, s: Agent): Option<Plan> {
    Some(Plan(None, Some(r), None, s))
  }

  function WithPoller(p: P.Step<Op>, s: Agent): Option<Plan> {
    Some(Plan(None, None, Some(p), s))
  }

  function Settle(s: Agent, token: nat, how: Ending): Agent {
    s.(settled := s.settled + [Settled(token, how)])
  }

  predicate Bare<T>(l: Q.Step<T>) {
    l.Start? || l.Spawn? || l.TestLoop? || l.Acquire? || l.Take?
  }

  function PlanOpsQueue(s: Agent, q: Q.Step<Op>): Option<Plan> {
    if !Bare(q) then None
    else if q.Take? && q.i < |s.opsHands| && s.ops.items != [] && s.ops.running
    then WithOps(q, s.(opsHands := s.opsHands[q.i := OpsTaken(s.ops.items[0])]))
    else WithOps(q, s)
  }

  function PlanOpsHandler(s: Agent, i: nat, a: OpsAct): Option<Plan> {
    if i >= |s.opsHands| then None
    else match (a, s.opsHands[i])
      case (Begin, OpsTaken(op)) =>
        WithOps(Q.Invoke(i), s.(opsHands := s.opsHands[i := Working(op)]))
      case (Work(work), Working(op)) =>
        (match Respond(s.cfg, op.id, op.event, work)
         case Report(content) => Only(s.(opsHands := s.opsHands[i := Reporting(Res(op.token, op.id, content))]))
         case _ => Only(Settle(s, op.token, NotAnswered(op)).(opsHands := s.opsHands[i := OpsFinished])))
      case (LockResults, Reporting(_)) =>
        WithResults(Q.Lock(OpsThread(i)), s)
      case (ReportResult, Reporting(res)) =>
        WithResults(Q.Schedule(OpsThread(i), res), s.(opsHands := s.opsHands[i := OpsFinished]))
      case (Finish(raised), OpsFinished) =>
        WithOps(Q.Return(i, raised), s.(opsHands := s.opsHands[i := OpsIdle]))
      case _ => None
  }

  function PlanResultsQueue(s: Agent, r: Q.Step<Res>): Option<Plan> {
    if !Bare(r) then None
    else if r.Take? && r.i < |s.pubHands| && s.results.items != [] && s.results.running
    then WithResults(r, s.(pubHands := s.pubHands[r.i := PubTaken(s.results.items[0])]))
    else WithResults(r, s)
  }

  /** Checking and downloading an operation that was fetched or offered. */
  datatype Prepared = Refused | Failed | Accepted(event: Event)

  function Prepare(event: Event, d: Download): Prepared {
    if !Submittable(event) then Refused
    else match Admit(event, d)
      case None => Failed
      case Some(admitted) => Accepted(admitted)
  }

  const NEXT_OPERATION := "next_operation"

  /** What push_results' reply offers: an operation, or None. */
  function NextOperation(reply: Json): Option<Json> {
    if reply.Object? && Truthy(Get(reply.fields, NEXT_OPERATION, Null))
    then Some(Get(reply.fields, NEXT_OPERATION, Null)) else None
  }

  /** The entry of the reply by that name, if it is one that counts. */
  lemma NextOperationIs(reply: Json)
    ensures reply.Object? && NEXT_OPERATION in reply.fields && Truthy(reply.fields[NEXT_OPERATION]) ==>
              NextOperation(reply) == Some(reply.fields[NEXT_OPERATION])
    ensures !(reply.Object? && NEXT_OPERATION in reply.fields && Truthy(reply.fields[NEXT_OPERATION])) ==>
              NextOperation(reply) == None
  {
  }

  /** _push_results and what it does with the reply. */
  function PlanPush(s: Agent, i: nat, res: Res, push: Push): Option<Plan>
    requires i < |s.pubHands|
  {
    var finished := s.(pubHands := s.pubHands[i := PubFinished]);
    if res.content == Value(Null) then Only(Settle(finished, res.token, NoResultToPush(res)))
    else match push
      case PushRaises => Only(Settle(finished, res.token, PublishRaised(res)))
      case Replies(reply) =>
        match NextOperation(reply)
        case None => Only(Settle(finished, res.token, Pushed(res)))
        case Some(next) =>
          Only(Settle(s, res.token, Pushed(res))
               .(pubHands := s.pubHands[i := Offered(s.issued, next)], issued := s.issued + 1))
  }

  /** _handle_piggybacked_operation up to the scheduling. */
  function PlanCheckNext(s: Agent, i: nat, token: nat, next: Json, d: Download): Option<Plan>
    requires i < |s.pubHands|
  {
    var finished := s.(pubHands := s.pubHands[i := PubFinished]);
    if !next.Object? then Only(Settle(finished, token, Rejected))
    else match Prepare(next.fields, d)
      case Refused => Only(Settle(finished, token, Rejected))
      case Failed => Only(Settle(finished, token, DownloadFailed(FromPiggyback)))
      case Accepted(event) =>
        var op := Op(token, FromPiggyback, Get(next.fields, OPERATION_ID, Null), event);
        Only(s.(pubHands := s.pubHands[i := Ready(op)]))
  }

  function PlanPubHandler(s: Agent, i: nat, b: PubAct): Option<Plan> {
    if i >= |s.pubHands| then None
    else match (b, s.pubHands[i])
      case (BeginPush, PubTaken(res)) =>
        WithResults(Q.Invoke(i), s.(pubHands := s.pubHands[i := Publishing(res)]))
      case (PushIt(push), Publishing(res)) =>
        PlanPush(s, i, res, push)
      case (CheckNext(d), Offered(token, next)) =>
        PlanCheckNext(s, i, token, next, d)
      case (LockOps, Ready(_)) =>
        WithOps(Q.Lock(PublisherThread(i)), s)
      case (ScheduleNext, Ready(op)) =>
        WithOps(Q.Schedule(PublisherThread(i), op), s.(pubHands := s.pubHands[i := PubFinished]))
      case (FinishPush(raised), PubFinished) =>
        WithResults(Q.Return(i, raised), s.(pubHands := s.pubHands[i := PubIdle]))
      case _ => None
  }

  /** _can_accept_work */
  predicate CanAccept(s: Agent) {
    |s.ops.items| < |s.ops.workers|
  }

  /** get_next_operation: only a non-empty object comes through as an operation. */
  predicate IsOperation(found: Json, raised: bool) {
    !raised && found.Object? && found.fields != map[]
  }

  predicate IsAlone(p: P.Step<Op>) {
    || p.Start? || p.TestRunning? || p.Beat? || p.LockToWait? || p.Park? || p.WakeUp? || p.Resume?
    || ((p.Lock? || p.Notify?) && p.c.ListenerThread?)
  }

  function PlanPolls(s: Agent, c: PollAct): Option<Plan> {
    match (c, s.poller.pc)
    case (Alone(p), _) =>
      if IsAlone(p) then WithPoller(p, s) else None
    case (FetchOne(found, raised), Fetching) =>
      if IsOperation(found, raised)
      then WithPoller(P.Fetch(Some(Op(s.issued, FromPoll, Get(found.fields, OPERATION_ID, Null), found.fields)), false),
                      s.(issued := s.issued + 1))
      else WithPoller(P.Fetch(None, raised), s)
    case (TestFetched, InnerTest(found)) =>
      WithPoller(P.TestInner,
                 if found.Some? && !s.poller.running then Settle(s, found.value.token, DroppedAtStop) else s)
    case (CheckFetched(d), Submitting(op)) =>
      (match Prepare(op.event, d)
       case Refused => WithPoller(P.Reject, Settle(s, op.token, Rejected))
       case Failed => WithPoller(P.Crash, Settle(s, op.token, DownloadFailed(FromPoll)))
       case Accepted(event) => WithPoller(P.Prepare(op.(event := event)), s))
    case (LockForPoll, _) =>
      if s.poller.pc.Gate? || s.poller.pc.Regate? || s.poller.pc.Scheduling?
      then WithOps(Q.Lock(PollerThread), s) else None
    case (AskForRoom, _) =>
      if s.poller.pc.Gate? || s.poller.pc.Regate?
      then Some(Plan(Some(Q.Depth(PollerThread)), None, Some(P.Ask(CanAccept(s))), s)) else None
    case (SubmitFetched, Scheduling(op)) =>
      Some(Plan(Some(Q.Schedule(PollerThread, op)), None, Some(P.Submitted), s))
    case _ => None
  }

  function TimerOp(token: nat, path: string): Op {
    Op(token, FromTimer, Text(path), map[PATH := Text(path)])
  }

  function PlanTimerSchedules(s: Agent, k: nat, path: string): Option<Plan> {
    if path == PUSH_METRICS_PATH || path == PUSH_LOGS_PATH
    then WithOps(Q.Schedule(TimerThread(k), TimerOp(s.issued, path)), s.(issued := s.issued + 1))
    else None
  }

  /** How far the trigger that runs the shutdown has come. */
  function Progress(t: Trigger): nat {
    match t
    case StoppingOps => 1
    case StoppingResults => 2
    case StoppingPoller => 3
    case StoppingRest => 4
    case Exiting => 5
    case Over => 6
    case Cut(progress) => progress
    case _ => 0
  }

  predicate OnMain(s: Agent, k: nat) {
    k < |s.onMain| && s.onMain[k]
  }

  /** Trigger `w` has the shutdown's lock and has not come to its end. */
  predicate ShuttingDown(s: Agent, w: nat) {
    s.shutdownLock == Some(w) && w < |s.triggers| && !s.triggers[w].Over? && !s.triggers[w].Cut?
  }

  predicate InRegion(s: Agent, w: nat) {
    || s.ops.lock == Q.Client(StopperThread(w))
    || s.results.lock == Q.Client(StopperThread(w))
    || s.poller.lock == P.Client(StopperThread(w))
  }

  /**
   The handler of signal `k` runs on the main thread, inside the call of signal `w` that shuts
   down. It is turned away and exits, which ends that call too: the exit is no `Exception`. A
   region under a lock is taken as interrupted before or after it.
   */
  function PlanSecondSignal(s: Agent, k: nat, w: nat): Option<Plan>
    requires k < |s.triggers| && w < |s.triggers|
  {
    if InRegion(s, w) then None
    else Only(s.(triggers := s.triggers[k := TurnedAway][w := Cut(Progress(s.triggers[w]))]))
  }

  function PlanTryLock(s: Agent, k: nat): Option<Plan>
    requires k < |s.triggers|
  {
    if !(s.ops.started && s.results.started && s.poller.started) then None
    else
      match s.shutdownLock
      case None => Only(s.(triggers := s.triggers[k := Notifying], shutdownLock := Some(k)))
      case Some(w) =>
        if w != k && ShuttingDown(s, w) && OnMain(s, k) && OnMain(s, w) then PlanSecondSignal(s, k, w)
        else Only(s.(triggers := s.triggers[k := TurnedAway]))
  }

  function PlanShutdown(s: Agent, k: nat, e: StopAct): Option<Plan> {
    if k >= |s.triggers| then None
    else match (e, s.triggers[k])
      case (TryLock, Untriggered) => PlanTryLock(s, k)
      case (NotifyBackend(_), Notifying) =>
        Only(s.(triggers := s.triggers[k := StoppingOps], notified := s.notified + 1))
      case (LockNext, StoppingOps) => WithOps(Q.Lock(StopperThread(k)), s)
      case (LockNext, StoppingResults) => WithResults(Q.Lock(StopperThread(k)), s)
      case (LockNext, StoppingPoller) => WithPoller(P.Lock(StopperThread(k)), s)
      case (StopNext, StoppingOps) =>
        WithOps(Q.Stop(StopperThread(k)), s.(triggers := s.triggers[k := StoppingResults], stops := s.stops + 1))
      case (StopNext, StoppingResults) =>
        WithResults(Q.Stop(StopperThread(k)), s.(triggers := s.triggers[k := StoppingPoller]))
      case (StopNext, StoppingPoller) =>
        WithPoller(P.Stop(StopperThread(k)), s.(triggers := s.triggers[k := StoppingRest]))
      case (StopRest(raised), StoppingRest) =>
        Only(s.(triggers := s.triggers[k := if raised then Over else Exiting]))
      case (SignalExit, Exiting) =>
        Only(s.(triggers := s.triggers[k := Over], exits := s.exits + 1))
      case _ => None
  }

  function PlanOf(s: Agent, l: Step): Option<Plan> {
    match l
    case OpsQueue(q) => PlanOpsQueue(s, q)
    case OpsHandler(i, a) => PlanOpsHandler(s, i, a)
    case ResultsQueue(r) => PlanResultsQueue(s, r)
    case PubHandler(i, b) => PlanPubHandler(s, i, b)
    case Polls(c) => PlanPolls(s, c)
    case TimerLocks(k) => WithOps(Q.Lock(TimerThread(k)), s)
    case TimerSchedules(k, path) => PlanTimerSchedules(s, k, path)
    case Shutdown(k, e) => PlanShutdown(s, k, e)
  }

  /** Carries out a plan, if each of its steps is enabled in its part. */
  function Perform(s: Agent, p: Plan): Option<Agent> {
    var ops := Maybe(Q.Next, s.ops, p.ops);
    var results := Maybe(Q.Next, s.results, p.results);
    var poller := Maybe(P.Next, s.poller, p.poller);
    if ops.None? || results.None? || poller.None? then None
    else Some(p.rest.(ops := ops.value, results := results.value, poller := poller.value))
  }

  function Next(s: Agent, l: Step): Option<Agent> {
    match PlanOf(s, l)
    case None => None
    case Some(p) => Perform(s, p)
  }

  // ---------------------------------------------------------------- its parts run as the machines they are

  /** The step, if any, that the label is in the operations queue. */
  function InOps(s: Agent, l: Step): Option<Q.Step<Op>> {
    match PlanOf(s, l) { case None => None case Some(p) => p.ops }
  }

  function InResults(s: Agent, l: Step): Option<Q.Step<Res>> {
    match PlanOf(s, l) { case None => None case Some(p) => p.results }
  }

  function InPoller(s: Agent, l: Step): Option<P.Step<Op>> {
    match PlanOf(s, l) { case None => None case Some(p) => p.poller }
  }

  /**
   In every run of the agent its queues and its poller run as the machines they are: every
   theorem about runs of a queue or of the poller holds of them here.
   */
  lemma PartsRun(s: Agent, labels: seq<Step>)
    requires Exec(Next, s, labels).Some?
    ensures var r := Exec(Next, s, labels).value;
            && Exec(Q.Next, s.ops, Project(Next, InOps, s, labels)) == Some(r.ops)
            && Exec(Q.Next, s.results, Project(Next, InResults, s, labels)) == Some(r.results)
            && Exec(P.Next, s.poller, Project(Next, InPoller, s, labels)) == Some(r.poller)
  {
    Projection(Next, (s: Agent) => s.ops, Q.Next, InOps, s, labels);
    Projection(Next, (s: Agent) => s.results, Q.Next, InResults, s, labels);
    Projection(Next, (s: Agent) => s.poller, P.Next, InPoller, s, labels);
  }
}
