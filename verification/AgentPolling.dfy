/**
 How polling ends for good: one operation that cannot be scheduled raises out of the poller's
 loop, and nothing starts its thread again.
 */
module AgentPolling {
  import opened Runs
  import opened Threads
  import opened Dispatch
  import opened Pipeline
  import opened AgentInvariant
  import opened AgentTheorems
  import Q = WorkerQueue
  import P = Polling

  /** A polled operation could not be scheduled. */
  ghost predicate PolledOneFailed(s: Agent) {
    exists k :: 0 <= k < |s.settled| && s.settled[k].how == DownloadFailed(FromPoll)
  }

  // ---------------------------------------------------------------- what ends it

  /** At most one more is settled, and by a failed polled operation exactly if the poller's check raised. */
  ghost predicate Fails(s: Agent, p: Plan) {
    && s.settled <= p.rest.settled
    && (Crashes(p) ==> p.rest.settled != s.settled)
    && (p.rest.settled[|s.settled|..] == []
        || (exists e: Settled :: p.rest.settled[|s.settled|..] == [e]
              && (e.how == DownloadFailed(FromPoll) <==> Crashes(p))))
  }

  lemma PollFails(s: Agent, c: PollAct, p: Plan)
    requires PlanPolls(s, c) == Some(p)
    ensures Fails(s, p)
  {
  }

  lemma PublisherFails(s: Agent, i: nat, b: PubAct, p: Plan)
    requires PlanPubHandler(s, i, b) == Some(p)
    ensures Fails(s, p)
  {
  }

  lemma PlanFails(s: Agent, l: Step, p: Plan)
    requires PlanOf(s, l) == Some(p)
    ensures Fails(s, p)
  {
    match l
    case Polls(c) => PollFails(s, c, p);
    case PubHandler(i, b) => PublisherFails(s, i, b, p);
    case _ =>
  }

  predicate Crashes(p: Plan) {
    p.poller.Some? && p.poller.value.Crash?
  }

  lemma PollerDies(p: P.Poller<Op>, m: Option<P.Step<Op>>)
    requires P.Inv(p) && Maybe(P.Next, p, m).Some?
    ensures Maybe(P.Next, p, m).value.pc.Died? <==> p.pc.Died? || (m.Some? && m.value.Crash?)
  {
  }

  lemma StepFails(s: Agent, l: Step)
    requires P.Inv(s.poller) && Next(s, l).Some?
    requires s.poller.pc.Died? <==> PolledOneFailed(s)
    ensures Next(s, l).value.poller.pc.Died? <==> PolledOneFailed(Next(s, l).value)
  {
    var p, r := PlanOf(s, l).value, Next(s, l).value;
    PlanFails(s, l, p);
    PollerDies(s.poller, p.poller);
    var added := r.settled[|s.settled|..];
    assert r.settled == s.settled + added;
    if PolledOneFailed(s) {
      var k :| 0 <= k < |s.settled| && s.settled[k].how == DownloadFailed(FromPoll);
      assert r.settled[k] == s.settled[k];
    } else if Crashes(p) {
      assert r.settled[|s.settled|] == added[0];
    } else {
      forall k | 0 <= k < |r.settled|
        ensures r.settled[k].how != DownloadFailed(FromPoll)
      {
        assert if k < |s.settled| then r.settled[k] == s.settled[k] else r.settled[k] == added[k - |s.settled|];
      }
    }
  }

  /**
   In every reachable state the poller's thread has ended by an exception if and only if a polled
   operation could not be scheduled, be it one of many.
   */
  lemma DiedExactlyWhen(
    cfg: Config, opsThreads: int, publishers: int, triggers: seq<bool>, labels: seq<Step>, s: Agent)
    requires Exec(Next, Initial(cfg, opsThreads, publishers, triggers), labels) == Some(s)
    ensures s.poller.pc.Died? <==> PolledOneFailed(s)
  {
    var inv := (s: Agent) => PartsInv(s) && (s.poller.pc.Died? <==> PolledOneFailed(s));
    forall s: Agent, l: Step | inv(s) && Next(s, l).Some?
      ensures inv(Next(s, l).value)
    {
      KeepsParts(s, PlanOf(s, l).value, Next(s, l).value);
      StepFails(s, l);
    }
    InitialInv(cfg, opsThreads, publishers, triggers);
    Invariant(Next, inv, Initial(cfg, opsThreads, publishers, triggers), labels);
  }

  /**
   Checking a fetched operation ends the poller if and only if it names a path and an id, and its
   operation entry is no object or is to be downloaded and cannot be.
   */
  lemma CheckEndsPollingExactlyWhen(s: Agent, download: Download)
    requires s.poller.pc.Submitting?
    ensures var event := s.poller.pc.op.event;
            var operation := Get(event, OPERATION, EMPTY_OBJECT);
            && Next(s, Polls(CheckFetched(download))).Some?
            && (Next(s, Polls(CheckFetched(download))).value.poller.pc.Died? <==>
                  && Truthy(Get(event, PATH, Text(""))) && Truthy(Get(event, OPERATION_ID, Null))
                  && (operation.Object? ==>
                        Truthy(Get(operation.fields, SIZE_EXCEEDED, Flag(false))) && Downloaded(download).None?))
  {
    var l := Polls(CheckFetched(download));
    var p := PlanPolls(s, CheckFetched(download)).value;
    assert PlanOf(s, l) == Some(p);
    assert p.poller.Some? && P.Next(s.poller, p.poller.value).Some?;
  }

  // ---------------------------------------------------------------- and that is the end of it

  lemma {:induction false} DeadFrom(p: P.Poller<Op>, labels: seq<P.Step<Op>>)
    requires P.Inv(p) && p.pc.Died? && Exec(P.Next, p, labels).Some?
    ensures Exec(P.Next, p, labels).value.pc.Died? && Count(P.Own, labels) == 0
    decreases |labels|
  {
    if labels != [] {
      P.StepKeepsInv(p, labels[0]);
      DeadFrom(P.Next(p, labels[0]).value, labels[1..]);
    }
  }

  /** From then on, in every continuation, the poller takes no step at all: it fetches nothing ever again. */
  lemma PollingIsOver(s: Agent, opsThreads: int, publishers: int, labels: seq<Step>)
    requires Reachable(s, opsThreads, publishers) && s.poller.pc.Died? && Exec(Next, s, labels).Some?
    ensures Exec(Next, s, labels).value.poller.pc.Died?
    ensures Count(P.Own, Project(Next, InPoller, s, labels)) == 0
  {
    ReachableSatisfiesInv(s, opsThreads, publishers);
    PartsRun(s, labels);
    DeadFrom(s.poller, Project(Next, InPoller, s, labels));
  }

  // ---------------------------------------------------------------- a run in which it happens

  /** An operation with a path and an id whose operation entry is null. */
  const NULL_OPERATION: Event :=
    map[PATH := Text(HEALTH_PATH), OPERATION_ID := Text("1"), OPERATION := Null]

  function OneWorker(cfg: Config): Agent {
    Initial(cfg, 1, 1, [])
  }

  /** The poller is started and about to ask for room. */
  lemma AtGate(cfg: Config) returns (labels: seq<Step>, s: Agent)
    ensures Exec(Next, OneWorker(cfg), labels) == Some(s)
    ensures s == OneWorker(cfg).(poller := P.Poller(true, true, true, false, P.Free, P.Gate))
  {
    var start := OneWorker(cfg);
    labels, s := Take(Next, start, [], start, Polls(Alone(P.Start)));
    labels, s := Take(Next, start, labels, s, Polls(Alone(P.TestRunning)));
  }

  /** The poller has found room and is about to fetch. */
  lemma AboutToFetch(cfg: Config) returns (labels: seq<Step>, s: Agent)
    ensures Exec(Next, OneWorker(cfg), labels) == Some(s)
    ensures s.poller == P.Poller(true, true, true, false, P.Free, P.Fetching)
  {
    labels, s := AtGate(cfg);
    var locked;
    labels, locked := Take(Next, OneWorker(cfg), labels, s, Polls(LockForPoll));
    assert CanAccept(locked) && locked.poller == s.poller && locked.ops.lock == Q.Client(PollerThread);
    labels, s := Take(Next, OneWorker(cfg), labels, locked, Polls(AskForRoom));
  }

  /** It fetches an operation and is about to check it. */
  lemma Fetches(start: Agent, labels: seq<Step>, s: Agent, event: Event) returns (longer: seq<Step>, r: Agent)
    requires Exec(Next, start, labels) == Some(s) && event != map[]
    requires s.poller == P.Poller(true, true, true, false, P.Free, P.Fetching)
    ensures Exec(Next, start, longer) == Some(r)
    ensures r.poller.running && r.poller.pc.Submitting? && r.poller.pc.op.event == event
  {
    var op := Op(s.issued, FromPoll, Get(event, OPERATION_ID, Null), event);
    longer, r := Take(Next, start, labels, s, Polls(FetchOne(Object(event), false)));
    assert r.poller == s.poller.(pc := P.InnerTest(Some(op)));
    longer, r := Take(Next, start, longer, r, Polls(TestFetched));
  }

  lemma NullOperationIsSubmittable()
    ensures Get(NULL_OPERATION, PATH, Text("")) == Text(HEALTH_PATH) && NULL_OPERATION != map[]
    ensures Get(NULL_OPERATION, OPERATION_ID, Null) == Text("1")
    ensures Get(NULL_OPERATION, OPERATION, EMPTY_OBJECT) == Null
  {
    assert PATH[0] == 'p' && OPERATION[0] == 'o' && |OPERATION_ID| == 12 && |OPERATION| == 9;
    assert PATH in NULL_OPERATION;
  }

  /** The backend hands over that operation, and polling is over. */
  lemma NullOperationEndsPolling(cfg: Config) returns (labels: seq<Step>, s: Agent)
    ensures Exec(Next, OneWorker(cfg), labels) == Some(s) && s.poller.pc.Died?
  {
    NullOperationIsSubmittable();
    labels, s := AboutToFetch(cfg);
    labels, s := Fetches(OneWorker(cfg), labels, s, NULL_OPERATION);
    CheckEndsPollingExactlyWhen(s, Unreachable);
    labels, s := Take(Next, OneWorker(cfg), labels, s, Polls(CheckFetched(Unreachable)));
  }
}
