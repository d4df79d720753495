/** Which operations the agent executes and leaves unanswered, over every run. */
module AgentAnswers {
  import opened Runs
  import opened Dispatch
  import opened Pipeline
  import Q = WorkerQueue
  import P = Polling

  /** Its operation entry is missing or an object: what checking it before scheduling ensures. */
  predicate Readable(op: Op) {
    Get(op.event, OPERATION, EMPTY_OBJECT).Object?
  }

  predicate HasAnswer(cfg: Config, op: Op) {
    Get(op.event, PATH, Text("")).Text? && AnsweredPath(cfg, Get(op.event, PATH, Text("")).s)
  }

  predicate OpsHandReadable(h: OpsHand) {
    h.OpsTaken? || h.Working? ==> Readable(h.op)
  }

  ghost predicate AllReadable(s: Agent) {
    && (forall k :: 0 <= k < |s.ops.items| ==> Readable(s.ops.items[k]))
    && (forall i :: 0 <= i < |s.opsHands| ==> OpsHandReadable(s.opsHands[i]))
    && (forall i :: 0 <= i < |s.pubHands| && s.pubHands[i].Ready? ==> Readable(s.pubHands[i].op))
    && (s.poller.pc.Scheduling? ==> Readable(s.poller.pc.op))
  }

  ghost predicate UnansweredHaveNoAnswer(s: Agent) {
    forall k :: 0 <= k < |s.settled| && s.settled[k].how.NotAnswered? ==> !HasAnswer(s.cfg, s.settled[k].how.op)
  }

  lemma TimerOpReadable(token: nat, path: string)
    ensures Readable(TimerOp(token, path))
  {
    assert PATH[0] == 'p' && OPERATION[0] == 'o';
  }

  /** What a plan schedules is readable. */
  lemma PlansSchedule(s: Agent, l: Step, p: Plan)
    requires AllReadable(s) && PlanOf(s, l) == Some(p)
    ensures p.ops.Some? && p.ops.value.Schedule? ==> Readable(p.ops.value.item)
    ensures p.poller.Some? && p.poller.value.Prepare? ==> Readable(p.poller.value.ready)
    ensures p.rest.ops == s.ops && p.rest.poller == s.poller && p.rest.cfg == s.cfg
  {
    if l.TimerSchedules? {
      TimerOpReadable(s.issued, l.path);
    }
  }

  lemma PlansReadable(s: Agent, l: Step, p: Plan)
    requires AllReadable(s) && PlanOf(s, l) == Some(p)
    requires p.rest.ops == s.ops && p.rest.poller == s.poller
    ensures AllReadable(p.rest)
  {
    OpsHandsReadable(s, l, p);
    PubHandsReadable(s, l, p);
  }

  lemma OpsHandsReadable(s: Agent, l: Step, p: Plan)
    requires AllReadable(s) && PlanOf(s, l) == Some(p)
    ensures forall i :: 0 <= i < |p.rest.opsHands| ==> OpsHandReadable(p.rest.opsHands[i])
  {
  }

  lemma PubHandsReadable(s: Agent, l: Step, p: Plan)
    requires AllReadable(s) && PlanOf(s, l) == Some(p)
    ensures forall i :: 0 <= i < |p.rest.pubHands| && p.rest.pubHands[i].Ready? ==> Readable(p.rest.pubHands[i].op)
  {
  }

  lemma PlansSettle(s: Agent, l: Step, p: Plan)
    requires AllReadable(s) && UnansweredHaveNoAnswer(s) && PlanOf(s, l) == Some(p)
    ensures UnansweredHaveNoAnswer(p.rest)
  {
    if l.OpsHandler? && l.a.Work? && l.i < |s.opsHands| && s.opsHands[l.i].Working? {
      var op := s.opsHands[l.i].op;
      AnsweredExactlyWhen(s.cfg, op.id, op.event, l.a.work);
    }
  }

  lemma QueueReadable(q: Q.Queue<Op>, m: Option<Q.Step<Op>>)
    requires forall k :: 0 <= k < |q.items| ==> Readable(q.items[k])
    requires m.Some? && m.value.Schedule? ==> Readable(m.value.item)
    requires Maybe(Q.Next, q, m).Some?
    ensures var r := Maybe(Q.Next, q, m).value; forall k :: 0 <= k < |r.items| ==> Readable(r.items[k])
  {
  }

  lemma PollerReadable(p: P.Poller<Op>, m: Option<P.Step<Op>>)
    requires p.pc.Scheduling? ==> Readable(p.pc.op)
    requires m.Some? && m.value.Prepare? ==> Readable(m.value.ready)
    requires Maybe(P.Next, p, m).Some?
    ensures var r := Maybe(P.Next, p, m).value; r.pc.Scheduling? ==> Readable(r.pc.op)
  {
  }

  lemma PerformReadable(s: Agent, p: Plan, r: Agent)
    requires AllReadable(p.rest) && p.rest.ops == s.ops && p.rest.poller == s.poller && Perform(s, p) == Some(r)
    requires p.ops.Some? && p.ops.value.Schedule? ==> Readable(p.ops.value.item)
    requires p.poller.Some? && p.poller.value.Prepare? ==> Readable(p.poller.value.ready)
    ensures AllReadable(r)
  {
    QueueReadable(s.ops, p.ops);
    PollerReadable(s.poller, p.poller);
  }

  lemma KeepsReadable(s: Agent, l: Step)
    requires AllReadable(s) && UnansweredHaveNoAnswer(s) && Next(s, l).Some?
    ensures AllReadable(Next(s, l).value) && UnansweredHaveNoAnswer(Next(s, l).value)
    ensures Next(s, l).value.cfg == s.cfg
  {
    var p := PlanOf(s, l).value;
    PlansSchedule(s, l, p);
    PlansReadable(s, l, p);
    PlansSettle(s, l, p);
    PerformReadable(s, p, Next(s, l).value);
  }

  /**
   In every run an operation that a worker executed is left without any result only if its path
   is no text or has no answer: that its work raised is never the reason.
   */
  lemma OnlyUnanswerableGoUnanswered(
    cfg: Config, opsThreads: int, publishers: int, triggers: seq<bool>, labels: seq<Step>, s: Agent, k: nat)
    requires Exec(Next, Initial(cfg, opsThreads, publishers, triggers), labels) == Some(s)
    requires k < |s.settled| && s.settled[k].how.NotAnswered?
    ensures !HasAnswer(cfg, s.settled[k].how.op)
  {
    var inv := (s: Agent) => AllReadable(s) && UnansweredHaveNoAnswer(s) && s.cfg == cfg;
    forall s: Agent, l: Step | inv(s) && Next(s, l).Some?
      ensures inv(Next(s, l).value)
    {
      KeepsReadable(s, l);
    }
    Invariant(Next, inv, Initial(cfg, opsThreads, publishers, triggers), labels);
  }
}
