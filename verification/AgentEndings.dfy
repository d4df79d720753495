/**
 What becomes of an operation once it is scheduled, over every run: if its path has an answer, it
 can only end with its result at push_results, or with a result that is nothing.
 */
module AgentEndings {
  import opened Runs
  import opened Totals
  import opened Dispatch
  import opened Pipeline
  import opened AgentInvariant
  import AgentAnswers
  import opened AgentIdentity
  import Q = WorkerQueue
  import P = Polling

  // ---------------------------------------------------------------- scheduled once, or ended before

  /** The token of an operation that a publisher has and has not scheduled yet. */
  function EarlyToken(h: PubHand): Option<nat> {
    match h
    case Offered(token, _) => Some(token)
    case Ready(op) => Some(op.token)
    case _ => None
  }

  function EarlyHand(t: nat): PubHand -> nat {
    (h: PubHand) => WeightOf(Is(t), EarlyToken(h))
  }

  /** It ended before it was scheduled. */
  predicate Early(how: Ending) {
    how.Rejected? || how.DroppedAtStop? || how.DownloadFailed?
  }

  function EarlyEndToken(e: Settled): Option<nat> {
    if Early(e.how) then Some(e.token) else None
  }

  function EarlyEnd(t: nat): Settled -> nat {
    (e: Settled) => WeightOf(Is(t), EarlyEndToken(e))
  }

  /** How often an operation with token `t` was scheduled. */
  function TimesScheduled(s: Agent, t: nat): nat {
    Sum(OfOp(Is(t)), Q.Everything(s.ops))
  }

  function Ahead(s: Agent, t: nat): nat {
    OfPoller(Is(t), s.poller.pc) + Sum(EarlyHand(t), s.pubHands) + Sum(EarlyEnd(t), s.settled)
  }

  lemma EverythingGrows(q: Q.Queue<Op>, m: Option<Q.Step<Op>>, w: Op -> nat)
    requires Maybe(Q.Next, q, m).Some?
    ensures Sum(w, Q.Everything(Maybe(Q.Next, q, m).value)) ==
            Sum(w, Q.Everything(q)) + if m.Some? && m.value.Schedule? then w(m.value.item) else 0
  {
    if m.Some? {
      Q.FifoStep(q, m.value);
      assert [m.value][1..] == [];
      if m.value.Schedule? {
        assert Q.Scheduled([m.value]) == [m.value.item];
        SumAppend(w, Q.Everything(q), m.value.item);
      } else {
        assert Q.Scheduled([m.value]) == [];
        assert Q.Everything(q) + [] == Q.Everything(q);
      }
    }
  }

  /** The step hands out at most one token, and moves at most one from before scheduling to after it. */
  predicate Keeps(s: Agent, r: Agent, t: nat) {
    Ahead(r, t) + TimesScheduled(r, t) == Ahead(s, t) + TimesScheduled(s, t) + NewToken(s, r, Is(t))
  }

  lemma WorkersKeep(s: Agent, l: Step, p: Plan, r: Agent, t: nat)
    requires l.OpsQueue? || l.OpsHandler? || l.Shutdown?
    requires P.Inv(s.poller) && PlanOf(s, l) == Some(p) && Perform(s, p) == Some(r)
    ensures Keeps(s, r, t)
  {
    EverythingGrows(s.ops, p.ops, OfOp(Is(t)));
    WorkersPlan(s, l, p);
    PollerHoldsOn(s.poller, p.poller, t);
    if r.settled != s.settled {
      SumAppend(EarlyEnd(t), s.settled, r.settled[|s.settled|]);
    }
  }

  lemma WorkersPlan(s: Agent, l: Step, p: Plan)
    requires l.OpsQueue? || l.OpsHandler? || l.Shutdown?
    requires PlanOf(s, l) == Some(p)
    ensures p.ops.Some? ==> !p.ops.value.Schedule?
    ensures p.poller.None? || p.poller.value.Lock? || p.poller.value.Stop?
    ensures p.rest.pubHands == s.pubHands && p.rest.issued == s.issued
    ensures p.rest.settled == s.settled
            || (exists e: Settled :: p.rest.settled == s.settled + [e] && e.how.NotAnswered?)
  {
  }

  lemma PollerHoldsOn(p: P.Poller<Op>, m: Option<P.Step<Op>>, t: nat)
    requires m.None? || m.value.Lock? || m.value.Stop?
    requires Maybe(P.Next, p, m).Some?
    ensures OfPoller(Is(t), Maybe(P.Next, p, m).value.pc) == OfPoller(Is(t), p.pc)
  {
  }

  lemma ResultsQueueKeeps(s: Agent, q: Q.Step<Res>, p: Plan, r: Agent, t: nat)
    requires HandsAgree(s) && PlanResultsQueue(s, q) == Some(p) && Perform(s, p) == Some(r)
    ensures Keeps(s, r, t)
  {
    if r.pubHands != s.pubHands {
      SumUpdate(EarlyHand(t), s.pubHands, q.i, r.pubHands[q.i]);
    }
  }

  lemma PubHandlerKeeps(s: Agent, i: nat, b: PubAct, p: Plan, r: Agent, t: nat)
    requires !b.PushIt? && !b.CheckNext? && PlanPubHandler(s, i, b) == Some(p) && Perform(s, p) == Some(r)
    ensures Keeps(s, r, t)
  {
    EverythingGrows(s.ops, p.ops, OfOp(Is(t)));
    SumUpdate(EarlyHand(t), s.pubHands, i, r.pubHands[i]);
  }

  lemma PushKeeps(s: Agent, i: nat, push: Push, p: Plan, r: Agent, t: nat)
    requires i < |s.pubHands| && s.pubHands[i].Publishing?
    requires PlanPush(s, i, s.pubHands[i].res, push) == Some(p) && Perform(s, p) == Some(r)
    ensures Keeps(s, r, t)
  {
    SumUpdate(EarlyHand(t), s.pubHands, i, r.pubHands[i]);
    SumAppend(EarlyEnd(t), s.settled, r.settled[|s.settled|]);
    assert r.ops == s.ops && r.poller == s.poller;
  }

  lemma CheckNextKeeps(s: Agent, i: nat, d: Download, p: Plan, r: Agent, t: nat)
    requires i < |s.pubHands| && s.pubHands[i].Offered?
    requires PlanCheckNext(s, i, s.pubHands[i].token, s.pubHands[i].next, d) == Some(p) && Perform(s, p) == Some(r)
    ensures Keeps(s, r, t)
  {
    assert r.ops == s.ops && r.poller == s.poller && r.issued == s.issued;
    SumUpdate(EarlyHand(t), s.pubHands, i, r.pubHands[i]);
    if r.settled != s.settled {
      SumAppend(EarlyEnd(t), s.settled, r.settled[|s.settled|]);
    }
  }

  lemma PollsAloneKeeps(s: Agent, c: PollAct, p: Plan, r: Agent, t: nat)
    requires c.Alone? && P.Inv(s.poller) && PlanPolls(s, c) == Some(p) && Perform(s, p) == Some(r)
    ensures Keeps(s, r, t)
  {
    assert OfPoller(Is(t), r.poller.pc) == OfPoller(Is(t), s.poller.pc);
  }

  lemma PollsKeep(s: Agent, c: PollAct, p: Plan, r: Agent, t: nat)
    requires c.FetchOne? || c.TestFetched? || c.CheckFetched?
    requires PlanPolls(s, c) == Some(p) && Perform(s, p) == Some(r)
    ensures Keeps(s, r, t)
  {
    assert r.ops == s.ops && r.pubHands == s.pubHands;
    if r.settled != s.settled {
      PollerEnds(s, r, r.settled[|s.settled|], t);
    } else {
      assert OfPoller(Is(t), r.poller.pc) == OfPoller(Is(t), s.poller.pc) + NewToken(s, r, Is(t));
    }
  }

  lemma PollerEnds(s: Agent, r: Agent, e: Settled, t: nat)
    requires r == s.(poller := r.poller, settled := s.settled + [e])
    requires OfPoller(Is(t), s.poller.pc) == EarlyEnd(t)(e) + OfPoller(Is(t), r.poller.pc)
    ensures Keeps(s, r, t)
  {
    SumAppend(EarlyEnd(t), s.settled, e);
  }

  lemma AskKeeps(s: Agent, c: PollAct, p: Plan, r: Agent, t: nat)
    requires c.LockForPoll? || c.AskForRoom?
    requires PlanPolls(s, c) == Some(p) && Perform(s, p) == Some(r)
    ensures Keeps(s, r, t)
  {
    EverythingGrows(s.ops, p.ops, OfOp(Is(t)));
    assert r.settled == s.settled && r.pubHands == s.pubHands && r.issued == s.issued;
    assert OfPoller(Is(t), r.poller.pc) == OfPoller(Is(t), s.poller.pc);
  }

  lemma SubmitKeeps(s: Agent, p: Plan, r: Agent, t: nat)
    requires PlanPolls(s, SubmitFetched) == Some(p) && Perform(s, p) == Some(r)
    ensures Keeps(s, r, t)
  {
    EverythingGrows(s.ops, p.ops, OfOp(Is(t)));
    assert r.settled == s.settled && r.pubHands == s.pubHands && r.issued == s.issued;
  }

  lemma TimerKeepsToken(s: Agent, l: Step, p: Plan, r: Agent, t: nat)
    requires (l.TimerLocks? || l.TimerSchedules?) && PlanOf(s, l) == Some(p) && Perform(s, p) == Some(r)
    ensures Keeps(s, r, t)
  {
    EverythingGrows(s.ops, p.ops, OfOp(Is(t)));
  }

  lemma StepKeepsToken(s: Agent, l: Step, p: Plan, r: Agent, t: nat)
    requires P.Inv(s.poller) && HandsAgree(s) && PlanOf(s, l) == Some(p) && Perform(s, p) == Some(r)
    ensures Keeps(s, r, t)
  {
    match l
    case ResultsQueue(q) => ResultsQueueKeeps(s, q, p, r, t);
    case PubHandler(i, b) =>
      if b.PushIt? {
        PushKeeps(s, i, b.push, p, r, t);
      } else if b.CheckNext? {
        CheckNextKeeps(s, i, b.download, p, r, t);
      } else {
        PubHandlerKeeps(s, i, b, p, r, t);
      }
    case Polls(c) =>
      if c.Alone? {
        PollsAloneKeeps(s, c, p, r, t);
      } else if c.FetchOne? || c.TestFetched? || c.CheckFetched? {
        PollsKeep(s, c, p, r, t);
      } else if c.SubmitFetched? {
        SubmitKeeps(s, p, r, t);
      } else {
        AskKeeps(s, c, p, r, t);
      }
    case TimerLocks(_) => TimerKeepsToken(s, l, p, r, t);
    case TimerSchedules(_, _) => TimerKeepsToken(s, l, p, r, t);
    case _ => WorkersKeep(s, l, p, r, t);
  }

  lemma {:induction false} OnceFrom(s: Agent, labels: seq<Step>, t: nat)
    requires Inv(s) && Exec(Next, s, labels).Some?
    requires Ahead(s, t) + TimesScheduled(s, t) == if t < s.issued then 1 else 0
    ensures var r := Exec(Next, s, labels).value;
            Ahead(r, t) + TimesScheduled(r, t) == if t < r.issued then 1 else 0
    decreases |labels|
  {
    if labels != [] {
      var l, next := labels[0], Next(s, labels[0]).value;
      KeepsInv(s, l);
      StepKeepsToken(s, l, PlanOf(s, l).value, next, t);
      IssuedGrows(s, l, PlanOf(s, l).value);
      OnceFrom(next, labels[1..], t);
    }
  }

  /**
   Over every run each thing handed over is either still on its way to the operations queue, or
   ended before it got there, or was scheduled, and that exactly once.
   */
  lemma ScheduledOnceOrNever(
    cfg: Config, opsThreads: int, publishers: int, triggers: seq<bool>, labels: seq<Step>, s: Agent, t: nat)
    requires Exec(Next, Initial(cfg, opsThreads, publishers, triggers), labels) == Some(s)
    ensures Ahead(s, t) + TimesScheduled(s, t) == if t < s.issued then 1 else 0
  {
    var start := Initial(cfg, opsThreads, publishers, triggers);
    InitialInv(cfg, opsThreads, publishers, triggers);
    SumBounded(EarlyHand(t), start.pubHands, 0);
    assert |Q.Everything(start.ops)| == 0;
    OnceFrom(start, labels, t);
  }

  // ---------------------------------------------------------------- so what it can end with

  lemma {:induction false} AtLeast<A>(weight: A -> nat, pool: seq<A>, x: A)
    requires x in pool
    ensures Sum(weight, pool) >= weight(x)
  {
    if pool[0] != x {
      AtLeast(weight, pool[1..], x);
    }
  }

  /** The result is the response to this operation, for some outcome of its work. */
  ghost predicate IsAnswerTo(cfg: Config, res: Res, op: Op) {
    && res.token == op.token && res.id == op.id
    && exists event: Event, work: Work ::
         SameButOperation(event, op.event) && Respond(cfg, op.id, event, work) == Report(res.content)
  }

  lemma AnswersIt(cfg: Config, res: Res, op: Op, all: Past)
    requires ResIs(cfg, res, all) && OpIs(op, all) && res.token == op.token
    ensures IsAnswerTo(cfg, res, op)
  {
    var event: Event, work: Work :|
      Executable(res.token, event, all) && Respond(cfg, res.id, event, work) == Report(res.content);
    assert SameButOperation(event, op.event);
  }

  /** Whether there is an answer depends on the path alone, which no download changes. */
  lemma AnswerByPath(cfg: Config, a: Op, b: Op)
    requires SameButOperation(a.event, b.event)
    ensures AgentAnswers.HasAnswer(cfg, a) <==> AgentAnswers.HasAnswer(cfg, b)
  {
    assert PATH[0] == 'p' && OPERATION[0] == 'o';
  }

  /** The labels by which operations get into the operations queue, taken together. */
  function ScheduledOps(start: Agent, labels: seq<Step>): seq<Op> {
    Q.Scheduled(Project(Next, InOps, start, labels))
  }

  /**
   Over every run, an operation that was scheduled and whose path has an answer ends, if it has
   ended, with the response to it handed to push_results, which returned or raised, or with a
   response that is nothing to push; it is never dropped without one.
   */
  lemma ScheduledIsAnswered(
    cfg: Config, opsThreads: int, publishers: int, triggers: seq<bool>, labels: seq<Step>, s: Agent, op: Op, e: Settled)
    requires Exec(Next, Initial(cfg, opsThreads, publishers, triggers), labels) == Some(s)
    requires op in ScheduledOps(Initial(cfg, opsThreads, publishers, triggers), labels)
    requires AgentAnswers.HasAnswer(cfg, op) && e in s.settled && e.token == op.token
    ensures match e.how
            case Pushed(res) => IsAnswerTo(cfg, res, op)
            case PublishRaised(res) => IsAnswerTo(cfg, res, op)
            case NoResultToPush(res) => IsAnswerTo(cfg, res, op) && res.content == Value(Null)
            case _ => false
  {
    var start := Initial(cfg, opsThreads, publishers, triggers);
    PartsRun(start, labels);
    Q.Fifo(opsThreads, Project(Next, InOps, start, labels), s.ops);
    ScheduledOnceOrNever(cfg, opsThreads, publishers, triggers, labels, s, op.token);
    NotEarly(s, op, e);
    ResultsGoToTheirOperations(cfg, opsThreads, publishers, triggers, labels, s);
    var all := PastOfRun(cfg, opsThreads, publishers, triggers, labels);
    IsItself(s, op, all);
    assert SettledIs(cfg, e, all);
    match e.how
    case Pushed(res) => AnswersIt(cfg, res, op, all);
    case PublishRaised(res) => AnswersIt(cfg, res, op, all);
    case NoResultToPush(res) => AnswersIt(cfg, res, op, all);
    case NotAnswered(other) =>
      var k :| 0 <= k < |s.settled| && s.settled[k] == e;
      AgentAnswers.OnlyUnanswerableGoUnanswered(cfg, opsThreads, publishers, triggers, labels, s, k);
      AnswerByPath(cfg, op, other);
      assert false;
    case _ => assert false;
  }

  lemma NotEarly(s: Agent, op: Op, e: Settled)
    requires op in Q.Everything(s.ops) && e in s.settled && e.token == op.token
    requires Ahead(s, op.token) + TimesScheduled(s, op.token) <= 1
    ensures !Early(e.how)
  {
    AtLeast(OfOp(Is(op.token)), Q.Everything(s.ops), op);
    AtLeast(EarlyEnd(op.token), s.settled, e);
  }

  lemma IsItself(s: Agent, op: Op, all: Past)
    requires op in Q.Everything(s.ops) && AllAre(s, all)
    ensures OpIs(op, all)
  {
    if op !in s.ops.items {
      var k :| 0 <= k < |s.ops.pops| && Q.ItemsOf(s.ops.pops)[k] == op;
      assert s.ops.pops[k].item == op;
    }
  }
}
