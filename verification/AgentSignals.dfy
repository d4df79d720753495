/**
 Two signals: the handler of the second one runs inside the shutdown that the first one runs, and
 its exit ends that shutdown. Here is exactly when, and what is left undone.
 */
module AgentSignals {
  import opened Runs
  import opened Threads
  import opened Dispatch
  import opened Pipeline
  import opened AgentInvariant
  import opened AgentTheorems
  import Q = WorkerQueue
  import P = Polling

  /** The shutdown that got the lock was cut short. */
  predicate CutShort(s: Agent) {
    s.shutdownLock.Some? && s.shutdownLock.value < |s.triggers| && s.triggers[s.shutdownLock.value].Cut?
  }

  /** The step is a signal reaching the main thread while a signal before it shuts down there. */
  function SecondSignal(s: Agent, l: Step): Option<nat> {
    if l.Shutdown? && l.e.TryLock? && s.shutdownLock.Some? && l.k != s.shutdownLock.value
       && ShuttingDown(s, s.shutdownLock.value) && OnMain(s, l.k) && OnMain(s, s.shutdownLock.value)
    then Some(l.k) else None
  }

  // ---------------------------------------------------------------- it is cut short by that, and by nothing else

  lemma StepCutsExactlyWhen(s: Agent, l: Step)
    requires ShutdownOnce(s) && Next(s, l).Some?
    ensures CutShort(Next(s, l).value) <==> CutShort(s) || SecondSignal(s, l).Some?
  {
    var p := PlanOf(s, l).value;
    if !l.Shutdown? {
      OnlyShutdownTriggers(s, l, p);
    }
  }

  lemma {:induction false} CutFrom(s: Agent, labels: seq<Step>)
    requires Inv(s) && Exec(Next, s, labels).Some?
    ensures CutShort(Exec(Next, s, labels).value) <==> CutShort(s) || Project(Next, SecondSignal, s, labels) != []
    decreases |labels|
  {
    if labels != [] {
      KeepsInv(s, labels[0]);
      StepCutsExactlyWhen(s, labels[0]);
      CutFrom(Next(s, labels[0]).value, labels[1..]);
    }
  }

  /**
   Over every run the shutdown is cut short if and only if, while a signal shuts down, another
   signal reaches the main thread. A shutdown run by an event is never cut short.
   */
  lemma CutShortExactlyWhen(
    cfg: Config, opsThreads: int, publishers: int, triggers: seq<bool>, labels: seq<Step>, s: Agent)
    requires Exec(Next, Initial(cfg, opsThreads, publishers, triggers), labels) == Some(s)
    ensures CutShort(s) <==> Project(Next, SecondSignal, Initial(cfg, opsThreads, publishers, triggers), labels) != []
  {
    InitialInv(cfg, opsThreads, publishers, triggers);
    CutFrom(Initial(cfg, opsThreads, publishers, triggers), labels);
  }

  // ---------------------------------------------------------------- whether it still can be

  /** Another signal can still come, on the thread that shuts down. */
  ghost predicate SignalPending(s: Agent, w: nat) {
    OnMain(s, w) && exists k: nat :: k < |s.triggers| && k != w && s.triggers[k].Untriggered? && OnMain(s, k)
  }

  ghost predicate CanBeCut(s: Agent) {
    exists labels: seq<Step> :: Exec(Next, s, labels).Some? && CutShort(Exec(Next, s, labels).value)
  }

  lemma NoneComes(s: Agent, l: Step, w: nat)
    requires s.shutdownLock == Some(w) && !SignalPending(s, w) && Next(s, l).Some?
    ensures var r := Next(s, l).value;
            r.shutdownLock == Some(w) && !SignalPending(r, w) && SecondSignal(s, l).None?
  {
    var p := PlanOf(s, l).value;
    if !l.Shutdown? {
      OnlyShutdownTriggers(s, l, p);
      assert SameShutdown(s, Next(s, l).value);
    } else {
      UntriggeredBefore(s, l.k, l.e, p);
    }
  }

  lemma UntriggeredBefore(s: Agent, k: nat, e: StopAct, p: Plan)
    requires s.shutdownLock.Some? && PlanShutdown(s, k, e) == Some(p)
    ensures p.rest.shutdownLock == s.shutdownLock && p.rest.onMain == s.onMain && |p.rest.triggers| == |s.triggers|
    ensures forall j :: 0 <= j < |s.triggers| && p.rest.triggers[j].Untriggered? ==> s.triggers[j].Untriggered?
    ensures e.TryLock? ==> k < |s.triggers| && s.triggers[k].Untriggered?
  {
  }

  lemma {:induction false} NoneCuts(s: Agent, w: nat, labels: seq<Step>)
    requires Inv(s) && s.shutdownLock == Some(w) && !CutShort(s) && !SignalPending(s, w)
    requires Exec(Next, s, labels).Some?
    ensures !CutShort(Exec(Next, s, labels).value)
    decreases |labels|
  {
    if labels != [] {
      KeepsInv(s, labels[0]);
      NoneComes(s, labels[0], w);
      StepCutsExactlyWhen(s, labels[0]);
      NoneCuts(Next(s, labels[0]).value, w, labels[1..]);
    }
  }

  lemma SignalCuts(s: Agent, w: nat, k: nat)
    requires Inv(s) && ShuttingDown(s, w) && !InRegion(s, w) && OnMain(s, w)
    requires k < |s.triggers| && k != w && s.triggers[k].Untriggered? && OnMain(s, k)
    ensures Next(s, Shutdown(k, TryLock)).Some? && CutShort(Next(s, Shutdown(k, TryLock)).value)
  {
    assert PlanOf(s, Shutdown(k, TryLock)) == PlanSecondSignal(s, k, w);
  }

  /** The shutdown finishes its region under a lock. */
  lemma FinishesRegion(s: Agent, w: nat)
    requires LocksRight(s) && ShuttingDown(s, w) && InRegion(s, w)
    ensures var l := Shutdown(w, StopNext);
            && Next(s, l).Some? && ShuttingDown(Next(s, l).value, w) && !InRegion(Next(s, l).value, w)
            && Next(s, l).value.onMain == s.onMain && |Next(s, l).value.triggers| == |s.triggers|
            && forall k :: 0 <= k < |s.triggers| && k != w ==> Next(s, l).value.triggers[k] == s.triggers[k]
  {
    RegionOfOne(s, w);
    var p := PlanShutdown(s, w, StopNext).value;
    StopPlan(s, w, p);
    assert PlanOf(s, Shutdown(w, StopNext)) == Some(p);
  }

  lemma StopPlan(s: Agent, w: nat, p: Plan)
    requires LocksRight(s) && ShuttingDown(s, w) && InRegion(s, w) && PlanShutdown(s, w, StopNext) == Some(p)
    ensures Perform(s, p).Some?
    ensures var r := Perform(s, p).value;
            && ShuttingDown(r, w) && !InRegion(r, w) && r.onMain == s.onMain && |r.triggers| == |s.triggers|
            && forall k :: 0 <= k < |s.triggers| && k != w ==> r.triggers[k] == s.triggers[k]
  {
    RegionOfOne(s, w);
  }

  /** It is in one region at a time, and that is the one it is about to finish. */
  lemma RegionOfOne(s: Agent, w: nat)
    requires LocksRight(s) && w < |s.triggers|
    ensures s.ops.lock == Q.Client(StopperThread(w)) ==> s.triggers[w].StoppingOps?
    ensures s.results.lock == Q.Client(StopperThread(w)) ==> s.triggers[w].StoppingResults?
    ensures s.poller.lock == P.Client(StopperThread(w)) ==> s.triggers[w].StoppingPoller?
  {
  }

  /**
   In every reachable state a shutdown in progress can still be cut short if and only if it is
   run by a signal and there is another signal that has not come yet.
   */
  lemma CanBeCutExactlyWhen(s: Agent, opsThreads: int, publishers: int, w: nat)
    requires Reachable(s, opsThreads, publishers) && ShuttingDown(s, w)
    ensures CanBeCut(s) <==> SignalPending(s, w)
  {
    ReachableSatisfiesInv(s, opsThreads, publishers);
    if SignalPending(s, w) {
      var k: nat :| k < |s.triggers| && k != w && s.triggers[k].Untriggered? && OnMain(s, k);
      if InRegion(s, w) {
        var out := Shutdown(w, StopNext);
        FinishesRegion(s, w);
        KeepsInv(s, out);
        SignalCuts(Next(s, out).value, w, k);
        TwoSteps(s, out, Shutdown(k, TryLock));
      } else {
        SignalCuts(s, w, k);
        OneStep(s, Shutdown(k, TryLock));
      }
    } else {
      forall labels: seq<Step> | Exec(Next, s, labels).Some?
        ensures !CutShort(Exec(Next, s, labels).value)
      {
        NoneCuts(s, w, labels);
      }
    }
  }

  lemma OneStep(s: Agent, l: Step)
    requires Next(s, l).Some? && CutShort(Next(s, l).value)
    ensures CanBeCut(s)
  {
    Then(Next, s, [], s, l);
    assert [] + [l] == [l];
    assert Exec(Next, s, [l]).Some?;
  }

  lemma TwoSteps(s: Agent, l: Step, m: Step)
    requires Next(s, l).Some? && Next(Next(s, l).value, m).Some? && CutShort(Next(Next(s, l).value, m).value)
    ensures CanBeCut(s)
  {
    Then(Next, s, [], s, l);
    assert [] + [l] == [l];
    Then(Next, s, [l], Next(s, l).value, m);
    assert Exec(Next, s, [l] + [m]).Some?;
  }

  // ---------------------------------------------------------------- nothing takes it up again

  /** What the shutdown has done, and which components run. */
  ghost predicate NoFurther(s: Agent, r: Agent)
    requires CutShort(s)
  {
    && r.shutdownLock == s.shutdownLock && CutShort(r)
    && r.triggers[s.shutdownLock.value] == s.triggers[s.shutdownLock.value]
    && r.notified == s.notified && r.stops == s.stops && r.exits == s.exits
    && r.ops.running == s.ops.running && r.results.running == s.results.running && r.poller.running == s.poller.running
  }

  /** The step stops neither queue nor the poller. */
  predicate StopsNothing(p: Plan) {
    && (p.ops.Some? ==> !p.ops.value.Stop?) && (p.results.Some? ==> !p.results.value.Stop?)
    && (p.poller.Some? ==> !p.poller.value.Stop?)
  }

  lemma CutPlan(s: Agent, l: Step, p: Plan)
    requires ShutdownOnce(s) && CutShort(s) && PlanOf(s, l) == Some(p)
    ensures StopsNothing(p)
    ensures p.rest.shutdownLock == s.shutdownLock && CutShort(p.rest)
    ensures p.rest.triggers[s.shutdownLock.value] == s.triggers[s.shutdownLock.value]
    ensures p.rest.notified == s.notified && p.rest.stops == s.stops && p.rest.exits == s.exits
  {
    if !l.Shutdown? {
      OnlyShutdownTriggers(s, l, p);
    }
  }

  lemma QueueRunsOn<T>(q: Q.Queue<T>, m: Option<Q.Step<T>>)
    requires q.started && (m.Some? ==> !m.value.Stop?) && Maybe(Q.Next, q, m).Some?
    ensures Maybe(Q.Next, q, m).value.running == q.running
  {
  }

  lemma PollerRunsOn(p: P.Poller<Op>, m: Option<P.Step<Op>>)
    requires p.started && (m.Some? ==> !m.value.Stop?) && Maybe(P.Next, p, m).Some?
    ensures Maybe(P.Next, p, m).value.running == p.running
  {
  }

  lemma CutStep(s: Agent, l: Step)
    requires ShutdownOnce(s) && CutShort(s) && Next(s, l).Some?
    ensures NoFurther(s, Next(s, l).value)
  {
    var p := PlanOf(s, l).value;
    CutPlan(s, l, p);
    QueueRunsOn(s.ops, p.ops);
    QueueRunsOn(s.results, p.results);
    PollerRunsOn(s.poller, p.poller);
  }

  lemma {:induction false} CutRun(s: Agent, labels: seq<Step>)
    requires Inv(s) && CutShort(s) && Exec(Next, s, labels).Some?
    ensures NoFurther(s, Exec(Next, s, labels).value)
    decreases |labels|
  {
    if labels != [] {
      KeepsInv(s, labels[0]);
      CutStep(s, labels[0]);
      CutRun(Next(s, labels[0]).value, labels[1..]);
    }
  }

  /**
   Once cut short, the shutdown is never taken up again, whoever triggers it: its lock is not
   released, and what it had not stopped runs on in every continuation.
   */
  lemma CutShortForGood(s: Agent, opsThreads: int, publishers: int, labels: seq<Step>)
    requires Reachable(s, opsThreads, publishers) && CutShort(s) && Exec(Next, s, labels).Some?
    ensures NoFurther(s, Exec(Next, s, labels).value)
  {
    ReachableSatisfiesInv(s, opsThreads, publishers);
    CutRun(s, labels);
  }

  // ---------------------------------------------------------------- a run in which it happens

  /** An agent with one worker, one publisher and two signals to come. */
  function TwoSignals(cfg: Config): Agent {
    Initial(cfg, 1, 1, [true, true])
  }

  /** The queues and the poller are started. */
  lemma Starts(cfg: Config) returns (labels: seq<Step>, s: Agent)
    ensures Exec(Next, TwoSignals(cfg), labels) == Some(s)
    ensures s.ops.running && s.results.running && s.poller.running
    ensures s.ops.started && s.results.started && s.poller.started
    ensures s.triggers == [Untriggered, Untriggered] && s.onMain == [true, true] && s.shutdownLock.None?
    ensures s.stops == s.exits == 0 && s.ops.lock.Free? && s.results.lock.Free? && s.poller.lock.Free?
  {
    labels, s := Take(Next, TwoSignals(cfg), [], TwoSignals(cfg), OpsQueue(Q.Start));
    labels, s := Take(Next, TwoSignals(cfg), labels, s, ResultsQueue(Q.Start));
    labels, s := Take(Next, TwoSignals(cfg), labels, s, Polls(Alone(P.Start)));
  }

  /**
   The first signal has the shutdown's lock and is notifying the backend when the second one
   comes: nothing has been stopped, nothing will be, and the exit is never signalled.
   */
  lemma SecondSignalCutsShutdown(cfg: Config) returns (labels: seq<Step>, s: Agent)
    ensures Exec(Next, TwoSignals(cfg), labels) == Some(s)
    ensures CutShort(s) && s.stops == s.exits == 0
    ensures s.ops.running && s.results.running && s.poller.running
  {
    labels, s := Starts(cfg);
    labels, s := Take(Next, TwoSignals(cfg), labels, s, Shutdown(0, TryLock));
    labels, s := Take(Next, TwoSignals(cfg), labels, s, Shutdown(1, TryLock));
  }
}
