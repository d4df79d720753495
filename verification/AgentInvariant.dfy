/** What every step of the agent keeps, and hence what every reachable state satisfies. */
module AgentInvariant {
  import opened Runs
  import opened Threads
  import opened Totals
  import opened Dispatch
  import opened Pipeline
  import Q = WorkerQueue
  import P = Polling

  // ---------------------------------------------------------------- hands follow the workers

  predicate OpsHandAgrees(pc: Q.Pc<Op>, h: OpsHand) {
    match pc
    case Popped(_, op) => h == OpsTaken(op)
    case Handling(_, _) => h.Working? || h.Reporting? || h.OpsFinished?
    case _ => h.OpsIdle?
  }

  predicate PubHandAgrees(pc: Q.Pc<Res>, h: PubHand) {
    match pc
    case Popped(_, res) => h == PubTaken(res)
    case Handling(_, _) => h.Publishing? || h.Offered? || h.Ready? || h.PubFinished?
    case _ => h.PubIdle?
  }

  ghost predicate OpsHandsAgree(workers: seq<Q.Pc<Op>>, hands: seq<OpsHand>) {
    |hands| == |workers| && forall i :: 0 <= i < |hands| ==> OpsHandAgrees(workers[i], hands[i])
  }

  ghost predicate PubHandsAgree(workers: seq<Q.Pc<Res>>, hands: seq<PubHand>) {
    |hands| == |workers| && forall i :: 0 <= i < |hands| ==> PubHandAgrees(workers[i], hands[i])
  }

  ghost predicate HandsAgree(s: Agent) {
    OpsHandsAgree(s.ops.workers, s.opsHands) && PubHandsAgree(s.results.workers, s.pubHands)
  }

  ghost predicate PartsInv(s: Agent) {
    Q.Inv(s.ops) && Q.Inv(s.results) && P.Inv(s.poller) && s.poller.gated
  }

  // ---------------------------------------------------------------- who holds which lock

  predicate At(s: Agent, k: nat, t: Trigger) {
    k < |s.triggers| && s.triggers[k] == t
  }

  ghost predicate OpsLockRight(s: Agent) {
    s.ops.lock.Client? ==>
      match s.ops.lock.thread
      case PollerThread => s.poller.pc.Gate? || s.poller.pc.Regate? || s.poller.pc.Scheduling?
      case PublisherThread(i) => i < |s.pubHands| && s.pubHands[i].Ready?
      case TimerThread(_) => true
      case StopperThread(k) => At(s, k, StoppingOps)
      case _ => false
  }

  ghost predicate ResultsLockRight(s: Agent) {
    s.results.lock.Client? ==>
      match s.results.lock.thread
      case OpsThread(i) => i < |s.opsHands| && s.opsHands[i].Reporting?
      case StopperThread(k) => At(s, k, StoppingResults)
      case _ => false
  }

  ghost predicate PollerLockRight(s: Agent) {
    s.poller.lock.Client? ==>
      match s.poller.lock.thread
      case ListenerThread(_) => true
      case StopperThread(k) => At(s, k, StoppingPoller)
      case _ => false
  }

  // ---------------------------------------------------------------- tokens

  // A weight gives each token a number. `Is(t)` finds one token; `EACH` counts them all.

  function Is(t: nat): nat -> nat {
    (token: nat) => if token == t then 1 else 0
  }

  const EACH: nat -> nat := (token: nat) => 1

  function WeightOf(w: nat -> nat, token: Option<nat>): nat {
    match token
    case None => 0
    case Some(t) => w(t)
  }

  function OfOp(w: nat -> nat): Op -> nat {
    (op: Op) => w(op.token)
  }

  function OfRes(w: nat -> nat): Res -> nat {
    (res: Res) => w(res.token)
  }

  function OfSettled(w: nat -> nat): Settled -> nat {
    (e: Settled) => w(e.token)
  }

  function OpsHandToken(h: OpsHand): Option<nat> {
    match h
    case OpsTaken(op) => Some(op.token)
    case Working(op) => Some(op.token)
    case Reporting(res) => Some(res.token)
    case _ => None
  }

  function OfOpsHand(w: nat -> nat): OpsHand -> nat {
    (h: OpsHand) => WeightOf(w, OpsHandToken(h))
  }

  function PubHandToken(h: PubHand): Option<nat> {
    match h
    case PubTaken(res) => Some(res.token)
    case Publishing(res) => Some(res.token)
    case Offered(token, _) => Some(token)
    case Ready(op) => Some(op.token)
    case _ => None
  }

  function OfPubHand(w: nat -> nat): PubHand -> nat {
    (h: PubHand) => WeightOf(w, PubHandToken(h))
  }

  function OfPoller(w: nat -> nat, pc: P.Pc<Op>): nat {
    match pc
    case InnerTest(found) => if found.Some? then w(found.value.token) else 0
    case Submitting(op) => w(op.token)
    case Scheduling(op) => w(op.token)
    case _ => 0
  }

  /** The weight of what is queued or in the hands of a worker or publisher. */
  function InProgress(s: Agent, w: nat -> nat): nat {
    Sum(OfOp(w), s.ops.items) + Sum(OfOpsHand(w), s.opsHands)
    + Sum(OfRes(w), s.results.items) + Sum(OfPubHand(w), s.pubHands)
  }

  /** The weight of every place a token can be in, each as often as it is there. */
  function Places(s: Agent, w: nat -> nat): nat {
    InProgress(s, w) + OfPoller(w, s.poller.pc) + Sum(OfSettled(w), s.settled)
  }

  ghost predicate Conserved(s: Agent) {
    && (forall t: nat :: Places(s, Is(t)) == if t < s.issued then 1 else 0)
    && Places(s, EACH) == s.issued
  }

  // ---------------------------------------------------------------- backpressure

  function Polled(op: Op): nat {
    if op.origin.FromPoll? then 1 else 0
  }

  /** 1 while the poller has been told there is room and has not yet used it. */
  function RoomGranted(pc: P.Pc<Op>): nat {
    if pc.Fetching? || (pc.InnerTest? && pc.found.Some?) || pc.Submitting? || pc.Scheduling? then 1 else 0
  }

  ghost predicate Backpressured(s: Agent) {
    && Sum(Polled, s.ops.items) + RoomGranted(s.poller.pc) <= |s.ops.workers|
    && (forall i :: 0 <= i < |s.pubHands| && s.pubHands[i].Ready? ==> s.pubHands[i].op.origin.FromPiggyback?)
  }

  // ---------------------------------------------------------------- shutdown

  ghost predicate ShutdownOnce(s: Agent) {
    match s.shutdownLock
    case None =>
      && s.notified == s.stops == s.exits == 0
      && (forall k :: 0 <= k < |s.triggers| ==> s.triggers[k].Untriggered?)
    case Some(w) =>
      && w < |s.triggers| && !s.triggers[w].Untriggered? && !s.triggers[w].TurnedAway?
      && (s.triggers[w].Cut? ==> s.triggers[w].progress <= 5)
      && (forall k :: 0 <= k < |s.triggers| && k != w ==> s.triggers[k].Untriggered? || s.triggers[k].TurnedAway?)
      && s.notified == (if Progress(s.triggers[w]) >= 1 then 1 else 0)
      && s.stops == (if Progress(s.triggers[w]) >= 2 then 1 else 0)
      && s.exits <= 1 && (s.exits == 1 ==> s.triggers[w].Over?)
      && s.ops.started && s.results.started && s.poller.started
      && (Progress(s.triggers[w]) >= 2 ==> !s.ops.running)
      && (Progress(s.triggers[w]) >= 3 ==> !s.results.running)
      && (Progress(s.triggers[w]) >= 4 ==> !s.poller.running)
  }

  ghost predicate LocksRight(s: Agent) {
    OpsLockRight(s) && ResultsLockRight(s) && PollerLockRight(s)
  }

  ghost predicate Inv(s: Agent) {
    PartsInv(s) && HandsAgree(s) && LocksRight(s) && Conserved(s) && Backpressured(s) && ShutdownOnce(s)
  }

  // ---------------------------------------------------------------- every step keeps it

  lemma QueueMoveKeepsInv<T>(q: Q.Queue<T>, m: Option<Q.Step<T>>)
    requires Q.Inv(q) && Maybe(Q.Next, q, m).Some?
    ensures Q.Inv(Maybe(Q.Next, q, m).value) && |Maybe(Q.Next, q, m).value.workers| == |q.workers|
  {
    if m.Some? {
      Q.StepKeepsInv(q, m.value);
    }
  }

  lemma PollerMoveKeepsInv(p: P.Poller<Op>, m: Option<P.Step<Op>>)
    requires P.Inv(p) && Maybe(P.Next, p, m).Some?
    ensures P.Inv(Maybe(P.Next, p, m).value) && Maybe(P.Next, p, m).value.gated == p.gated
  {
    if m.Some? {
      P.StepKeepsInv(p, m.value);
    }
  }

  lemma KeepsParts(s: Agent, p: Plan, r: Agent)
    requires PartsInv(s) && Perform(s, p) == Some(r)
    ensures PartsInv(r) && |r.ops.workers| == |s.ops.workers| && |r.results.workers| == |s.results.workers|
  {
    QueueMoveKeepsInv(s.ops, p.ops);
    QueueMoveKeepsInv(s.results, p.results);
    PollerMoveKeepsInv(s.poller, p.poller);
  }

  // ---- hands and locks, thread by thread

  /** A step by a thread that is not a worker of the queue, or none. */
  predicate ByOther<T>(m: Option<Q.Step<T>>) {
    m.None? || m.value.Lock? || m.value.Schedule? || m.value.Stop? || m.value.Depth?
  }

  lemma OthersKeepOpsHands(q: Q.Queue<Op>, m: Option<Q.Step<Op>>, hands: seq<OpsHand>)
    requires OpsHandsAgree(q.workers, hands) && ByOther(m) && Maybe(Q.Next, q, m).Some?
    ensures OpsHandsAgree(Maybe(Q.Next, q, m).value.workers, hands)
  {
  }

  lemma OthersKeepPubHands(q: Q.Queue<Res>, m: Option<Q.Step<Res>>, hands: seq<PubHand>)
    requires PubHandsAgree(q.workers, hands) && ByOther(m) && Maybe(Q.Next, q, m).Some?
    ensures PubHandsAgree(Maybe(Q.Next, q, m).value.workers, hands)
  {
  }

  lemma OpsQueueKeeps(s: Agent, q: Q.Step<Op>, p: Plan, r: Agent)
    requires HandsAgree(s) && PlanOpsQueue(s, q) == Some(p) && Perform(s, p) == Some(r)
    ensures HandsAgree(r) && (LocksRight(s) ==> LocksRight(r))
  {
  }

  lemma OpsHandlerKeeps(s: Agent, i: nat, a: OpsAct, p: Plan, r: Agent)
    requires HandsAgree(s) && PlanOpsHandler(s, i, a) == Some(p) && Perform(s, p) == Some(r)
    ensures HandsAgree(r) && (LocksRight(s) ==> LocksRight(r))
  {
  }

  lemma ResultsQueueKeeps(s: Agent, q: Q.Step<Res>, p: Plan, r: Agent)
    requires HandsAgree(s) && PlanResultsQueue(s, q) == Some(p) && Perform(s, p) == Some(r)
    ensures HandsAgree(r) && (LocksRight(s) ==> LocksRight(r))
  {
  }

  lemma PubHandlerKeepsHands(s: Agent, i: nat, b: PubAct, p: Plan, r: Agent)
    requires HandsAgree(s) && PlanPubHandler(s, i, b) == Some(p) && Perform(s, p) == Some(r)
    ensures HandsAgree(r)
  {
    if ByOther(p.ops) {
      OthersKeepOpsHands(s.ops, p.ops, s.opsHands);
    }
  }

  lemma PubHandlerKeepsLocks(s: Agent, i: nat, b: PubAct, p: Plan, r: Agent)
    requires HandsAgree(s) && PlanPubHandler(s, i, b) == Some(p) && Perform(s, p) == Some(r)
    requires LocksRight(s)
    ensures LocksRight(r)
  {
    if b.PushIt? || b.CheckNext? {
      PubWorkKeepsLocks(s, i, b, p, r);
    }
  }

  /** Pushing and checking involve no lock, and no publisher about to schedule loses its operation by them. */
  lemma PubWorkKeepsLocks(s: Agent, i: nat, b: PubAct, p: Plan, r: Agent)
    requires (b.PushIt? || b.CheckNext?) && PlanPubHandler(s, i, b) == Some(p) && Perform(s, p) == Some(r)
    requires LocksRight(s)
    ensures LocksRight(r)
  {
    assert r.ops == s.ops && r.results == s.results && r.poller == s.poller;
    assert r.triggers == s.triggers && r.opsHands == s.opsHands && !s.pubHands[i].Ready?;
  }

  lemma PollsPlan(s: Agent, c: PollAct, p: Plan)
    requires PlanPolls(s, c) == Some(p)
    ensures ByOther(p.ops) && p.results.None?
    ensures p.rest == s.(issued := p.rest.issued, settled := p.rest.settled)
  {
  }

  lemma PollsAloneKeepsLocks(s: Agent, c: PollAct, p: Plan, r: Agent)
    requires c.Alone? && P.Inv(s.poller) && LocksRight(s) && PlanPolls(s, c) == Some(p) && Perform(s, p) == Some(r)
    ensures LocksRight(r)
  {
  }

  lemma PollsAlongKeepsLocks(s: Agent, c: PollAct, p: Plan, r: Agent)
    requires (c.FetchOne? || c.TestFetched? || c.CheckFetched?) && LocksRight(s)
    requires PlanPolls(s, c) == Some(p) && Perform(s, p) == Some(r)
    ensures LocksRight(r)
  {
    assert r.ops == s.ops && r.results == s.results && r.triggers == s.triggers;
    assert !s.poller.pc.Gate? && !s.poller.pc.Regate? && !s.poller.pc.Scheduling?;
  }

  lemma PollsKeepsLocks(s: Agent, c: PollAct, p: Plan, r: Agent)
    requires (c.LockForPoll? || c.AskForRoom? || c.SubmitFetched?) && P.Inv(s.poller) && LocksRight(s)
    requires PlanPolls(s, c) == Some(p) && Perform(s, p) == Some(r)
    ensures LocksRight(r)
  {
  }

  lemma ShutdownPlan(s: Agent, k: nat, e: StopAct, p: Plan)
    requires PlanShutdown(s, k, e) == Some(p)
    ensures ByOther(p.ops) && ByOther(p.results)
    ensures p.rest.opsHands == s.opsHands && p.rest.pubHands == s.pubHands
  {
  }

  lemma ShutdownKeepsLocks(s: Agent, k: nat, e: StopAct, p: Plan, r: Agent)
    requires PlanShutdown(s, k, e) == Some(p) && Perform(s, p) == Some(r)
    requires LocksRight(s)
    ensures LocksRight(r)
  {
    if e.LockNext? {
      LockNextKeepsLocks(s, k, p, r);
    } else if e.StopNext? {
      StopNextKeepsLocks(s, k, p, r);
    } else {
      assert r.ops == s.ops && r.results == s.results && r.poller == s.poller;
    }
  }

  lemma LockNextKeepsLocks(s: Agent, k: nat, p: Plan, r: Agent)
    requires PlanShutdown(s, k, LockNext) == Some(p) && Perform(s, p) == Some(r)
    requires LocksRight(s)
    ensures LocksRight(r)
  {
    assert r.triggers == s.triggers && r.opsHands == s.opsHands && r.pubHands == s.pubHands;
  }

  lemma StopNextKeepsLocks(s: Agent, k: nat, p: Plan, r: Agent)
    requires PlanShutdown(s, k, StopNext) == Some(p) && Perform(s, p) == Some(r)
    requires LocksRight(s)
    ensures LocksRight(r)
  {
    assert r.opsHands == s.opsHands && r.pubHands == s.pubHands;
  }

  lemma ShutdownKeepsOnce(s: Agent, k: nat, e: StopAct, p: Plan, r: Agent)
    requires ShutdownOnce(s) && PlanShutdown(s, k, e) == Some(p) && Perform(s, p) == Some(r)
    ensures ShutdownOnce(r)
  {
    if e.LockNext? {
      LockNextKeepsOnce(s, k, p, r);
    } else if e.StopNext? {
      StopNextKeepsOnce(s, k, p, r);
    } else {
      assert r.ops == s.ops && r.results == s.results && r.poller == s.poller;
    }
  }

  lemma LockNextKeepsOnce(s: Agent, k: nat, p: Plan, r: Agent)
    requires ShutdownOnce(s) && PlanShutdown(s, k, LockNext) == Some(p) && Perform(s, p) == Some(r)
    ensures ShutdownOnce(r)
  {
    assert SameShutdown(s, r);
    StoppedStaysStopped(s, p, r);
  }

  lemma StopNextKeepsOnce(s: Agent, k: nat, p: Plan, r: Agent)
    requires ShutdownOnce(s) && PlanShutdown(s, k, StopNext) == Some(p) && Perform(s, p) == Some(r)
    ensures ShutdownOnce(r)
  {
    assert s.shutdownLock == Some(k);
    StoppedStaysStopped(s, p, r);
  }

  lemma TimerKeeps(s: Agent, l: Step, p: Plan, r: Agent)
    requires (l.TimerLocks? || l.TimerSchedules?) && PlanOf(s, l) == Some(p) && Perform(s, p) == Some(r)
    ensures ByOther(p.ops) && p.results.None? && p.poller.None?
    ensures p.rest == s.(issued := p.rest.issued)
    ensures LocksRight(s) ==> LocksRight(r)
  {
  }

  lemma FrameKeepsHands(s: Agent, p: Plan, r: Agent)
    requires HandsAgree(s) && Perform(s, p) == Some(r)
    requires ByOther(p.ops) && ByOther(p.results) && p.rest.opsHands == s.opsHands && p.rest.pubHands == s.pubHands
    ensures HandsAgree(r)
  {
    OthersKeepOpsHands(s.ops, p.ops, s.opsHands);
    OthersKeepPubHands(s.results, p.results, s.pubHands);
  }

  lemma KeepsHandsAndLocks(s: Agent, l: Step, p: Plan, r: Agent)
    requires PartsInv(s) && HandsAgree(s) && LocksRight(s) && PlanOf(s, l) == Some(p) && Perform(s, p) == Some(r)
    ensures HandsAgree(r) && LocksRight(r)
  {
    match l
    case OpsQueue(q) => OpsQueueKeeps(s, q, p, r);
    case OpsHandler(i, a) => OpsHandlerKeeps(s, i, a, p, r);
    case ResultsQueue(q) => ResultsQueueKeeps(s, q, p, r);
    case PubHandler(i, b) =>
      PubHandlerKeepsHands(s, i, b, p, r);
      PubHandlerKeepsLocks(s, i, b, p, r);
    case Polls(c) =>
      PollsPlan(s, c, p);
      FrameKeepsHands(s, p, r);
      if c.Alone? {
        PollsAloneKeepsLocks(s, c, p, r);
      } else if c.FetchOne? || c.TestFetched? || c.CheckFetched? {
        PollsAlongKeepsLocks(s, c, p, r);
      } else {
        PollsKeepsLocks(s, c, p, r);
      }
    case Shutdown(k, e) =>
      ShutdownPlan(s, k, e, p);
      FrameKeepsHands(s, p, r);
      ShutdownKeepsLocks(s, k, e, p, r);
    case _ =>
      TimerKeeps(s, l, p, r);
      FrameKeepsHands(s, p, r);
  }

  // ---- shutdown

  predicate SameShutdown(s: Agent, r: Agent) {
    && r.triggers == s.triggers && r.onMain == s.onMain && r.shutdownLock == s.shutdownLock
    && r.notified == s.notified && r.stops == s.stops && r.exits == s.exits
  }

  lemma OnlyShutdownTriggers(s: Agent, l: Step, p: Plan)
    requires PlanOf(s, l) == Some(p) && !l.Shutdown?
    ensures SameShutdown(s, p.rest)
  {
  }

  /** What was started stays started, and what was stopped after that stays stopped. */
  lemma StoppedStaysStopped(s: Agent, p: Plan, r: Agent)
    requires Perform(s, p) == Some(r)
    ensures s.ops.started ==> r.ops.started && (!s.ops.running ==> !r.ops.running)
    ensures s.results.started ==> r.results.started && (!s.results.running ==> !r.results.running)
    ensures s.poller.started ==> r.poller.started && (!s.poller.running ==> !r.poller.running)
  {
    if s.ops.started { QueueStaysStopped(s.ops, p.ops); }
    if s.results.started { QueueStaysStopped(s.results, p.results); }
    if s.poller.started { PollerStaysStopped(s.poller, p.poller); }
  }

  lemma QueueStaysStopped<T>(q: Q.Queue<T>, m: Option<Q.Step<T>>)
    requires Maybe(Q.Next, q, m).Some? && q.started
    ensures var r := Maybe(Q.Next, q, m).value; r.started && (!q.running ==> !r.running)
  {
  }

  lemma PollerStaysStopped(p: P.Poller<Op>, m: Option<P.Step<Op>>)
    requires Maybe(P.Next, p, m).Some? && p.started
    ensures var r := Maybe(P.Next, p, m).value; r.started && (!p.running ==> !r.running)
  {
  }

  lemma KeepsShutdown(s: Agent, l: Step, p: Plan, r: Agent)
    requires ShutdownOnce(s) && PlanOf(s, l) == Some(p) && Perform(s, p) == Some(r)
    ensures ShutdownOnce(r)
  {
    if l.Shutdown? {
      ShutdownKeepsOnce(s, l.k, l.e, p, r);
    } else {
      OnlyShutdownTriggers(s, l, p);
      StoppedStaysStopped(s, p, r);
      assert SameShutdown(s, r);
    }
  }

  // ---- backpressure

  /** What a step of a queue does to a total over its items. */
  lemma ItemsTotal<T>(q: Q.Queue<T>, m: Option<Q.Step<T>>, weight: T -> nat)
    requires Maybe(Q.Next, q, m).Some?
    ensures var r := Maybe(Q.Next, q, m).value;
            if m.Some? && m.value.Schedule? then Sum(weight, r.items) == Sum(weight, q.items) + weight(m.value.item)
            else if m.Some? && m.value.Take? && q.items != [] && q.running
            then Sum(weight, q.items) == weight(q.items[0]) + Sum(weight, r.items)
            else r.items == q.items
  {
    if m.Some? && m.value.Schedule? {
      SumAppend(weight, q.items, m.value.item);
    }
  }

  lemma PolledAtMostAll(items: seq<Op>)
    ensures Sum(Polled, items) <= |items|
  {
    SumBounded(Polled, items, 1);
  }

  lemma PollsAloneKeepsBackpressure(s: Agent, c: PollAct, p: Plan, r: Agent)
    requires c.Alone? && s.poller.gated && PlanPolls(s, c) == Some(p) && Perform(s, p) == Some(r)
    ensures RoomGranted(r.poller.pc) <= RoomGranted(s.poller.pc) && r.ops == s.ops && r.pubHands == s.pubHands
  {
  }

  /** Steps that leave the queue's items alone grant room only where there is some. */
  lemma AskKeepsBackpressure(s: Agent, c: PollAct, p: Plan, r: Agent)
    requires !c.Alone? && !c.SubmitFetched?
    requires s.poller.gated && PlanPolls(s, c) == Some(p) && Perform(s, p) == Some(r)
    requires Sum(Polled, s.ops.items) + RoomGranted(s.poller.pc) <= |s.ops.workers| == |r.ops.workers|
    ensures Sum(Polled, r.ops.items) + RoomGranted(r.poller.pc) <= |r.ops.workers|
    ensures r.pubHands == s.pubHands
  {
    assert r.ops.items == s.ops.items;
    PolledAtMostAll(s.ops.items);
  }

  lemma SubmitKeepsBackpressure(s: Agent, c: PollAct, p: Plan, r: Agent)
    requires c.SubmitFetched? && s.poller.gated && PlanPolls(s, c) == Some(p) && Perform(s, p) == Some(r)
    requires Sum(Polled, s.ops.items) + RoomGranted(s.poller.pc) <= |s.ops.workers| == |r.ops.workers|
    ensures Sum(Polled, r.ops.items) + RoomGranted(r.poller.pc) <= |r.ops.workers|
    ensures r.pubHands == s.pubHands
  {
    ItemsTotal(s.ops, p.ops, Polled);
  }

  lemma OtherPlansPollNothing(s: Agent, l: Step, p: Plan)
    requires !l.Polls? && Backpressured(s) && PlanOf(s, l) == Some(p)
    ensures p.ops.Some? && p.ops.value.Schedule? ==> Polled(p.ops.value.item) == 0
    ensures p.poller.None? || p.poller.value.Lock? || p.poller.value.Stop?
    ensures forall i :: 0 <= i < |p.rest.pubHands| && p.rest.pubHands[i].Ready? ==>
              p.rest.pubHands[i].op.origin.FromPiggyback?
  {
  }

  lemma KeepsBackpressure(s: Agent, l: Step, p: Plan, r: Agent)
    requires s.poller.gated && Backpressured(s) && PlanOf(s, l) == Some(p) && Perform(s, p) == Some(r)
    requires |r.ops.workers| == |s.ops.workers|
    ensures Backpressured(r)
  {
    if l.Polls? {
      if l.c.Alone? {
        PollsAloneKeepsBackpressure(s, l.c, p, r);
      } else {
        if l.c.SubmitFetched? {
          SubmitKeepsBackpressure(s, l.c, p, r);
        } else {
          AskKeepsBackpressure(s, l.c, p, r);
        }
      }
    } else {
      OtherPlansPollNothing(s, l, p);
      ItemsTotal(s.ops, p.ops, Polled);
    }
  }

  // ---- conservation

  /** The weight of the token the step handed out, if it did. */
  function NewToken(s: Agent, r: Agent, w: nat -> nat): nat {
    if s.issued < r.issued then w(s.issued) else 0
  }

  lemma OpsQueueConserves(s: Agent, q: Q.Step<Op>, p: Plan, r: Agent, w: nat -> nat)
    requires HandsAgree(s) && PlanOpsQueue(s, q) == Some(p) && Perform(s, p) == Some(r)
    ensures Places(r, w) == Places(s, w) + NewToken(s, r, w)
  {
    ItemsTotal(s.ops, p.ops, OfOp(w));
    if r.opsHands != s.opsHands {
      SumUpdate(OfOpsHand(w), s.opsHands, q.i, r.opsHands[q.i]);
    }
  }

  lemma WorkConserves(s: Agent, i: nat, a: OpsAct, p: Plan, r: Agent, w: nat -> nat)
    requires a.Work? && PlanOpsHandler(s, i, a) == Some(p) && Perform(s, p) == Some(r)
    ensures Places(r, w) == Places(s, w) + NewToken(s, r, w)
  {
    SumUpdate(OfOpsHand(w), s.opsHands, i, r.opsHands[i]);
    if r.settled != s.settled {
      SumAppend(OfSettled(w), s.settled, r.settled[|s.settled|]);
    }
  }

  lemma OpsHandlerConserves(s: Agent, i: nat, a: OpsAct, p: Plan, r: Agent, w: nat -> nat)
    requires !a.Work? && PlanOpsHandler(s, i, a) == Some(p) && Perform(s, p) == Some(r)
    ensures Places(r, w) == Places(s, w) + NewToken(s, r, w)
  {
    ItemsTotal(s.ops, p.ops, OfOp(w));
    ItemsTotal(s.results, p.results, OfRes(w));
    SumUpdate(OfOpsHand(w), s.opsHands, i, r.opsHands[i]);
  }

  lemma ResultsQueueConserves(s: Agent, q: Q.Step<Res>, p: Plan, r: Agent, w: nat -> nat)
    requires HandsAgree(s) && PlanResultsQueue(s, q) == Some(p) && Perform(s, p) == Some(r)
    ensures Places(r, w) == Places(s, w) + NewToken(s, r, w)
  {
    ItemsTotal(s.results, p.results, OfRes(w));
    if r.pubHands != s.pubHands {
      SumUpdate(OfPubHand(w), s.pubHands, q.i, r.pubHands[q.i]);
    }
  }

  /** A token leaves the publisher's hand for good; a new one may come into it. */
  lemma HandSettles(s: Agent, r: Agent, i: nat, h: PubHand, e: Settled, w: nat -> nat)
    requires i < |s.pubHands| && PubHandToken(s.pubHands[i]) == Some(e.token)
    requires r == s.(pubHands := s.pubHands[i := h], settled := s.settled + [e], issued := r.issued)
    requires if h.Offered? then h.token == s.issued && r.issued == s.issued + 1
             else h == PubFinished && r.issued == s.issued
    ensures Places(r, w) == Places(s, w) + NewToken(s, r, w)
  {
    SumUpdate(OfPubHand(w), s.pubHands, i, h);
    SumAppend(OfSettled(w), s.settled, e);
  }

  lemma PushConserves(s: Agent, i: nat, push: Push, p: Plan, r: Agent, w: nat -> nat)
    requires i < |s.pubHands| && s.pubHands[i].Publishing?
    requires PlanPush(s, i, s.pubHands[i].res, push) == Some(p) && Perform(s, p) == Some(r)
    ensures Places(r, w) == Places(s, w) + NewToken(s, r, w)
  {
    HandSettles(s, r, i, r.pubHands[i], r.settled[|s.settled|], w);
  }

  lemma CheckNextConserves(s: Agent, i: nat, d: Download, p: Plan, r: Agent, w: nat -> nat)
    requires i < |s.pubHands| && s.pubHands[i].Offered?
    requires PlanCheckNext(s, i, s.pubHands[i].token, s.pubHands[i].next, d) == Some(p) && Perform(s, p) == Some(r)
    ensures Places(r, w) == Places(s, w) + NewToken(s, r, w)
  {
    if r.settled != s.settled {
      HandSettles(s, r, i, r.pubHands[i], r.settled[|s.settled|], w);
    } else {
      SumUpdate(OfPubHand(w), s.pubHands, i, r.pubHands[i]);
    }
  }

  lemma PubHandlerConserves(s: Agent, i: nat, b: PubAct, p: Plan, r: Agent, w: nat -> nat)
    requires !b.PushIt? && !b.CheckNext? && PlanPubHandler(s, i, b) == Some(p) && Perform(s, p) == Some(r)
    ensures Places(r, w) == Places(s, w) + NewToken(s, r, w)
  {
    ItemsTotal(s.ops, p.ops, OfOp(w));
    ItemsTotal(s.results, p.results, OfRes(w));
    SumUpdate(OfPubHand(w), s.pubHands, i, r.pubHands[i]);
  }

  lemma PollsAloneConserves(s: Agent, c: PollAct, p: Plan, r: Agent, w: nat -> nat)
    requires c.Alone? && P.Inv(s.poller) && PlanPolls(s, c) == Some(p) && Perform(s, p) == Some(r)
    ensures Places(r, w) == Places(s, w) + NewToken(s, r, w)
  {
    assert OfPoller(w, r.poller.pc) == OfPoller(w, s.poller.pc);
  }

  lemma PollerSettles(s: Agent, r: Agent, e: Settled, w: nat -> nat)
    requires r == s.(poller := r.poller, settled := s.settled + [e])
    requires OfPoller(w, s.poller.pc) == OfSettled(w)(e) + OfPoller(w, r.poller.pc)
    ensures Places(r, w) == Places(s, w)
  {
    SumAppend(OfSettled(w), s.settled, e);
  }

  lemma CheckFetchedConserves(s: Agent, d: Download, p: Plan, r: Agent, w: nat -> nat)
    requires PlanPolls(s, CheckFetched(d)) == Some(p) && Perform(s, p) == Some(r)
    ensures Places(r, w) == Places(s, w) + NewToken(s, r, w)
  {
    if r.settled != s.settled {
      PollerSettles(s, r, r.settled[|s.settled|], w);
    } else {
      assert OfPoller(w, r.poller.pc) == OfPoller(w, s.poller.pc);
    }
  }

  lemma FetchConserves(s: Agent, c: PollAct, p: Plan, r: Agent, w: nat -> nat)
    requires (c.FetchOne? || c.TestFetched?) && PlanPolls(s, c) == Some(p) && Perform(s, p) == Some(r)
    ensures Places(r, w) == Places(s, w) + NewToken(s, r, w)
  {
    if r.settled != s.settled {
      PollerSettles(s, r, r.settled[|s.settled|], w);
    } else {
      assert OfPoller(w, r.poller.pc) == OfPoller(w, s.poller.pc) + NewToken(s, r, w);
    }
  }

  lemma SubmitConserves(s: Agent, c: PollAct, p: Plan, r: Agent, w: nat -> nat)
    requires c.LockForPoll? || c.AskForRoom? || c.SubmitFetched?
    requires PlanPolls(s, c) == Some(p) && Perform(s, p) == Some(r)
    ensures Places(r, w) == Places(s, w) + NewToken(s, r, w)
  {
    ItemsTotal(s.ops, p.ops, OfOp(w));
  }

  lemma PollsConserves(s: Agent, c: PollAct, p: Plan, r: Agent, w: nat -> nat)
    requires P.Inv(s.poller) && PlanPolls(s, c) == Some(p) && Perform(s, p) == Some(r)
    ensures Places(r, w) == Places(s, w) + NewToken(s, r, w)
  {
    match c
    case Alone(_) => PollsAloneConserves(s, c, p, r, w);
    case CheckFetched(d) => CheckFetchedConserves(s, d, p, r, w);
    case FetchOne(_, _) => FetchConserves(s, c, p, r, w);
    case TestFetched => FetchConserves(s, c, p, r, w);
    case _ => SubmitConserves(s, c, p, r, w);
  }

  lemma TimerConserves(s: Agent, l: Step, p: Plan, r: Agent, w: nat -> nat)
    requires (l.TimerLocks? || l.TimerSchedules?) && PlanOf(s, l) == Some(p) && Perform(s, p) == Some(r)
    ensures Places(r, w) == Places(s, w) + NewToken(s, r, w)
  {
    ItemsTotal(s.ops, p.ops, OfOp(w));
  }

  lemma ShutdownConserves(s: Agent, k: nat, e: StopAct, p: Plan, r: Agent, w: nat -> nat)
    requires PlanShutdown(s, k, e) == Some(p) && Perform(s, p) == Some(r)
    ensures Places(r, w) == Places(s, w) + NewToken(s, r, w)
  {
    assert r.ops.items == s.ops.items && r.results.items == s.results.items;
    assert OfPoller(w, r.poller.pc) == OfPoller(w, s.poller.pc);
  }

  lemma StepConserves(s: Agent, l: Step, p: Plan, r: Agent, w: nat -> nat)
    requires P.Inv(s.poller) && HandsAgree(s) && PlanOf(s, l) == Some(p) && Perform(s, p) == Some(r)
    ensures Places(r, w) == Places(s, w) + NewToken(s, r, w)
  {
    match l
    case OpsQueue(q) => OpsQueueConserves(s, q, p, r, w);
    case OpsHandler(i, a) =>
      if a.Work? {
        WorkConserves(s, i, a, p, r, w);
      } else {
        OpsHandlerConserves(s, i, a, p, r, w);
      }
    case ResultsQueue(q) => ResultsQueueConserves(s, q, p, r, w);
    case PubHandler(i, b) =>
      if b.PushIt? {
        PushConserves(s, i, b.push, p, r, w);
      } else if b.CheckNext? {
        CheckNextConserves(s, i, b.download, p, r, w);
      } else {
        PubHandlerConserves(s, i, b, p, r, w);
      }
    case Polls(c) => PollsConserves(s, c, p, r, w);
    case Shutdown(k, e) => ShutdownConserves(s, k, e, p, r, w);
    case _ => TimerConserves(s, l, p, r, w);
  }

  lemma KeepsConserved(s: Agent, l: Step, p: Plan, r: Agent)
    requires P.Inv(s.poller) && HandsAgree(s) && Conserved(s) && PlanOf(s, l) == Some(p) && Perform(s, p) == Some(r)
    requires s.issued <= r.issued <= s.issued + 1
    ensures Conserved(r)
  {
    forall t: nat
      ensures Places(r, Is(t)) == if t < r.issued then 1 else 0
    {
      StepConserves(s, l, p, r, Is(t));
      assert Places(s, Is(t)) == if t < s.issued then 1 else 0;
    }
    StepConserves(s, l, p, r, EACH);
  }

  lemma IssuedGrows(s: Agent, l: Step, p: Plan)
    requires PlanOf(s, l) == Some(p)
    ensures s.issued <= p.rest.issued <= s.issued + 1
  {
  }

  // ---------------------------------------------------------------- the invariant of all runs

  lemma KeepsInv(s: Agent, l: Step)
    requires Inv(s) && Next(s, l).Some?
    ensures var r := Next(s, l).value;
            Inv(r) && |r.ops.workers| == |s.ops.workers| && |r.results.workers| == |s.results.workers|
  {
    var p, r := PlanOf(s, l).value, Next(s, l).value;
    KeepsInvAt(s, l, p, r);
  }

  lemma KeepsInvAt(s: Agent, l: Step, p: Plan, r: Agent)
    requires Inv(s) && PlanOf(s, l) == Some(p) && Perform(s, p) == Some(r)
    ensures Inv(r) && |r.ops.workers| == |s.ops.workers| && |r.results.workers| == |s.results.workers|
  {
    KeepsParts(s, p, r);
    KeepsHandsAndLocks(s, l, p, r);
    KeepsShutdown(s, l, p, r);
    KeepsBackpressure(s, l, p, r);
    IssuedGrows(s, l, p);
    KeepsConserved(s, l, p, r);
  }

  lemma InitialInv(cfg: Config, opsThreads: int, publishers: int, triggers: seq<bool>)
    ensures Inv(Initial(cfg, opsThreads, publishers, triggers))
  {
    var s := Initial(cfg, opsThreads, publishers, triggers);
    Q.InitialInv<Op>(opsThreads);
    Q.InitialInv<Res>(publishers);
    forall w: nat -> nat
      ensures Places(s, w) == 0
    {
      SumBounded(OfOpsHand(w), s.opsHands, 0);
      SumBounded(OfPubHand(w), s.pubHands, 0);
    }
  }

  function AtLeastOne(n: int): nat {
    if n < 1 then 1 else n
  }

  lemma ReachableInv(cfg: Config, opsThreads: int, publishers: int, triggers: seq<bool>, labels: seq<Step>)
    requires Exec(Next, Initial(cfg, opsThreads, publishers, triggers), labels).Some?
    ensures var s := Exec(Next, Initial(cfg, opsThreads, publishers, triggers), labels).value;
            && Inv(s)
            && |s.ops.workers| == AtLeastOne(opsThreads)
            && |s.results.workers| == AtLeastOne(publishers)
  {
    var start := Initial(cfg, opsThreads, publishers, triggers);
    var inv := (s: Agent) =>
      Inv(s) && |s.ops.workers| == |start.ops.workers| && |s.results.workers| == |start.results.workers|;
    InitialInv(cfg, opsThreads, publishers, triggers);
    forall s: Agent, l: Step | inv(s) && Next(s, l).Some?
      ensures inv(Next(s, l).value)
    {
      KeepsInv(s, l);
    }
    Invariant(Next, inv, start, labels);
  }
}
