/**
 What each token stands for, over every run: an operation is executed as it was handed over, and
 its result is the response to it and goes out under the id it came with.
 */
module AgentIdentity {
  import opened Runs
  import opened Dispatch
  import opened Pipeline
  import Q = WorkerQueue
  import P = Polling

  /** What was handed over with a token: by the backend, or by a timer. */
  datatype Handed = Handed(id: Json, event: Event)

  /** What a label hands over, if anything. */
  function HandedBy(s: Agent, l: Step): Option<Handed> {
    match l
    case Polls(FetchOne(found, raised)) =>
      if s.poller.pc.Fetching? && !raised && found.Object? && found.fields != map[]
      then Some(Handed(Get(found.fields, OPERATION_ID, Null), found.fields)) else None
    case PubHandler(i, PushIt(Replies(reply))) =>
      if i < |s.pubHands| && s.pubHands[i].Publishing?
         && s.pubHands[i].res.content != Value(Null)
         && reply.Object? && NEXT_OPERATION in reply.fields && Truthy(reply.fields[NEXT_OPERATION])
      then
        var next := reply.fields[NEXT_OPERATION];
        if next.Object? then Some(Handed(Get(next.fields, OPERATION_ID, Null), next.fields))
        else Some(Handed(Null, map[]))
      else None
    case TimerSchedules(_, path) => Some(Handed(Text(path), map[PATH := Text(path)]))
    case _ => None
  }

  /** Equal but for the operation entry, which a download replaces. */
  ghost predicate SameButOperation(a: Event, b: Event) {
    forall k :: k != OPERATION ==> (k in a <==> k in b) && (k in a ==> a[k] == b[k])
  }

  /** What a download answered, for the operation with this token. */
  datatype Body = Body(token: nat, body: Json)

  function BodyBy(s: Agent, l: Step): Option<Body> {
    match l
    case Polls(CheckFetched(Answered(body))) =>
      if s.poller.pc.Submitting? then Some(Body(s.poller.pc.op.token, body)) else None
    case PubHandler(i, CheckNext(Answered(body))) =>
      if i < |s.pubHands| && s.pubHands[i].Offered? then Some(Body(s.pubHands[i].token, body)) else None
    case _ => None
  }

  /** Everything handed over so far, and everything downloaded. */
  datatype Past = Past(handed: seq<Handed>, bodies: seq<Body>)

  /**
   The event to execute for a token: the one handed over, or, if that one was oversized, the same
   with a body that was downloaded for it in the place of its operation entry.
   */
  ghost predicate Executable(token: nat, event: Event, all: Past)
    requires token < |all.handed|
  {
    var h := all.handed[token];
    if Oversized(h.event)
    then exists body ::
           Body(token, body) in all.bodies && Brings(Answered(body), body) && event == h.event[OPERATION := body]
    else event == h.event
  }

  /** Fetched, and not checked yet. */
  ghost predicate RawIs(op: Op, all: Past) {
    op.token < |all.handed| && op.id == all.handed[op.token].id && op.event == all.handed[op.token].event
  }

  ghost predicate OpIs(op: Op, all: Past) {
    op.token < |all.handed| && op.id == all.handed[op.token].id && Executable(op.token, op.event, all)
  }

  /** The result bears the id handed over, and is the response to that operation for some outcome of its work. */
  ghost predicate Responds(cfg: Config, res: Res, all: Past)
    requires res.token < |all.handed|
  {
    res.id == all.handed[res.token].id
    && exists event: Event, work: Work ::
         Executable(res.token, event, all) && Respond(cfg, res.id, event, work) == Report(res.content)
  }

  ghost predicate ResIs(cfg: Config, res: Res, all: Past) {
    res.token < |all.handed| && Responds(cfg, res, all)
  }

  ghost predicate OpsHandIs(cfg: Config, h: OpsHand, all: Past) {
    match h
    case OpsTaken(op) => OpIs(op, all)
    case Working(op) => OpIs(op, all)
    case Reporting(res) => ResIs(cfg, res, all)
    case _ => true
  }

  ghost predicate PubHandIs(cfg: Config, h: PubHand, all: Past) {
    match h
    case PubTaken(res) => ResIs(cfg, res, all)
    case Publishing(res) => ResIs(cfg, res, all)
    case Offered(token, next) =>
      && token < |all.handed|
      && all.handed[token] == if next.Object? then Handed(Get(next.fields, OPERATION_ID, Null), next.fields)
                              else Handed(Null, map[])
    case Ready(op) => OpIs(op, all)
    case _ => true
  }

  ghost predicate PollerIs(pc: P.Pc<Op>, all: Past) {
    match pc
    case InnerTest(found) => found.Some? ==> RawIs(found.value, all)
    case Submitting(op) => RawIs(op, all)
    case Scheduling(op) => OpIs(op, all)
    case _ => true
  }

  /** It names a path and an id. */
  predicate Named(event: Event) {
    PATH in event && Truthy(event[PATH]) && OPERATION_ID in event && Truthy(event[OPERATION_ID])
  }

  /** A settled operation ended for the reason stated, and for no other. */
  ghost predicate SettledIs(cfg: Config, e: Settled, all: Past) {
    match e.how
    case Pushed(res) => res.token == e.token && ResIs(cfg, res, all) && res.content != Value(Null)
    case PublishRaised(res) => res.token == e.token && ResIs(cfg, res, all) && res.content != Value(Null)
    case NoResultToPush(res) => res.token == e.token && ResIs(cfg, res, all) && res.content == Value(Null)
    case NotAnswered(op) => op.token == e.token && OpIs(op, all)
    case Rejected => e.token < |all.handed| && !Named(all.handed[e.token].event)
    case DownloadFailed(_) =>
      && e.token < |all.handed| && Named(all.handed[e.token].event)
      && (HasOperation(all.handed[e.token].event) ==> Oversized(all.handed[e.token].event))
    case DroppedAtStop => e.token < |all.handed|
  }

  /** Every operation and every result, wherever it is or was, is what its token stands for. */
  ghost predicate AllAre(s: Agent, all: Past) {
    && (forall k :: 0 <= k < |s.ops.items| ==> OpIs(s.ops.items[k], all))
    && (forall k :: 0 <= k < |s.ops.pops| ==> OpIs(s.ops.pops[k].item, all))
    && (forall k :: 0 <= k < |s.results.items| ==> ResIs(s.cfg, s.results.items[k], all))
    && (forall i :: 0 <= i < |s.opsHands| ==> OpsHandIs(s.cfg, s.opsHands[i], all))
    && (forall i :: 0 <= i < |s.pubHands| ==> PubHandIs(s.cfg, s.pubHands[i], all))
    && PollerIs(s.poller.pc, all)
    && (forall k :: 0 <= k < |s.settled| ==> SettledIs(s.cfg, s.settled[k], all))
  }

  /** Handing over and downloading more changes nothing about what was before. */
  lemma MoreHanded(s: Agent, all: Past, more: Past)
    requires AllAre(s, all) && all.handed <= more.handed && all.bodies <= more.bodies
    ensures AllAre(s, more)
  {
    MoreExecutable(all, more);
    assert forall res: Res :: ResIs(s.cfg, res, all) ==> ResIs(s.cfg, res, more);
  }

  lemma MoreExecutable(all: Past, more: Past)
    requires all.handed <= more.handed && all.bodies <= more.bodies
    ensures forall token: nat, event: Event ::
              token < |all.handed| && Executable(token, event, all) ==> Executable(token, event, more)
  {
  }

  function After(s: Agent, l: Step, all: Past): Past {
    Past(all.handed + Listed(HandedBy(s, l)), all.bodies + Listed(BodyBy(s, l)))
  }

  // ---------------------------------------------------------------- step by step

  lemma PlanIssues(s: Agent, l: Step, p: Plan)
    requires PlanOf(s, l) == Some(p)
    ensures p.rest.issued == s.issued + if HandedBy(s, l).Some? then 1 else 0
    ensures p.rest.ops == s.ops && p.rest.results == s.results && p.rest.poller == s.poller && p.rest.cfg == s.cfg
  {
  }

  /** What a plan puts into a queue or gives to the poller is what its token stands for. */
  lemma PlanSchedules(s: Agent, l: Step, p: Plan, all: Past)
    requires AllAre(s, all) && |all.handed| == s.issued && PlanOf(s, l) == Some(p)
    ensures p.ops.Some? && p.ops.value.Schedule? ==> OpIs(p.ops.value.item, After(s, l, all))
    ensures p.results.Some? && p.results.value.Schedule? ==> ResIs(s.cfg, p.results.value.item, After(s, l, all))
  {
  }

  lemma PlanForPoller(s: Agent, l: Step, p: Plan, all: Past)
    requires AllAre(s, all) && |all.handed| == s.issued && PlanOf(s, l) == Some(p)
    ensures p.poller.Some? && p.poller.value.Prepare? ==> OpIs(p.poller.value.ready, After(s, l, all))
    ensures p.poller.Some? && p.poller.value.Fetch? && p.poller.value.found.Some? && !p.poller.value.raised ==>
              PollerIs(P.InnerTest(p.poller.value.found), After(s, l, all))
  {
  }

  lemma PlanOpsHands(s: Agent, l: Step, p: Plan, all: Past)
    requires AllAre(s, all) && |all.handed| == s.issued && PlanOf(s, l) == Some(p)
    ensures forall i :: 0 <= i < |p.rest.opsHands| ==> OpsHandIs(s.cfg, p.rest.opsHands[i], After(s, l, all))
  {
    MoreHanded(s, all, After(s, l, all));
    if l.OpsHandler? {
      PlanOpsHandlerHands(s, l.i, l.a, p, After(s, l, all));
    } else {
      OpsHandsKept(s, l, p);
    }
  }

  lemma PlanOpsHandlerHands(s: Agent, i: nat, a: OpsAct, p: Plan, all: Past)
    requires AllAre(s, all) && PlanOpsHandler(s, i, a) == Some(p)
    ensures forall k :: 0 <= k < |p.rest.opsHands| ==> OpsHandIs(s.cfg, p.rest.opsHands[k], all)
  {
    if a.Work? && s.opsHands[i].Working? {
      assert OpIs(s.opsHands[i].op, all);
    }
  }

  /** Other steps give a worker at most the item it pops. */
  lemma OpsHandsKept(s: Agent, l: Step, p: Plan)
    requires !l.OpsHandler? && PlanOf(s, l) == Some(p)
    ensures p.rest.opsHands == s.opsHands
            || (l.OpsQueue? && l.q.Take? && l.q.i < |s.opsHands| && s.ops.items != []
                && p.rest.opsHands == s.opsHands[l.q.i := OpsTaken(s.ops.items[0])])
  {
  }

  lemma PlanPubHands(s: Agent, l: Step, p: Plan, all: Past)
    requires AllAre(s, all) && |all.handed| == s.issued && PlanOf(s, l) == Some(p)
    ensures forall i :: 0 <= i < |p.rest.pubHands| ==> PubHandIs(s.cfg, p.rest.pubHands[i], After(s, l, all))
  {
    MoreHanded(s, all, After(s, l, all));
    if l.PubHandler? {
      PlanPubHandlerHands(s, l.i, l.b, p, all, After(s, l, all));
    } else {
      PubHandsKept(s, l, p);
    }
  }

  lemma PlanPubHandlerHands(s: Agent, i: nat, b: PubAct, p: Plan, all: Past, after: Past)
    requires |all.handed| == s.issued && PlanPubHandler(s, i, b) == Some(p)
    requires AllAre(s, after) && after == After(s, PubHandler(i, b), all)
    ensures forall k :: 0 <= k < |p.rest.pubHands| ==> PubHandIs(s.cfg, p.rest.pubHands[k], after)
  {
  }

  lemma PubHandsKept(s: Agent, l: Step, p: Plan)
    requires !l.PubHandler? && PlanOf(s, l) == Some(p)
    ensures p.rest.pubHands == s.pubHands
            || (l.ResultsQueue? && l.r.Take? && l.r.i < |s.pubHands| && s.results.items != []
                && p.rest.pubHands == s.pubHands[l.r.i := PubTaken(s.results.items[0])])
  {
  }

  /** What a step settles comes from the hand that had it. */
  ghost predicate NewlySettled(s: Agent, e: Settled) {
    match e.how
    case NotAnswered(op) => e.token == op.token && exists i :: 0 <= i < |s.opsHands| && s.opsHands[i] == Working(op)
    case Pushed(res) => e.token == res.token && HasInHand(s, res) && res.content != Value(Null)
    case PublishRaised(res) => e.token == res.token && HasInHand(s, res) && res.content != Value(Null)
    case NoResultToPush(res) => e.token == res.token && HasInHand(s, res) && res.content == Value(Null)
    case Rejected =>
      || (exists op: Op :: HasFetched(s, op) && e.token == op.token && !Named(op.event))
      || (exists next: Json :: HasOffer(s, e.token, next) && (next.Object? ==> !Named(next.fields)))
    case DownloadFailed(_) =>
      || (exists op: Op :: HasFetched(s, op) && e.token == op.token && Fails(op.event))
      || (exists next: Json :: HasOffer(s, e.token, next) && next.Object? && Fails(next.fields))
    case DroppedAtStop => exists op: Op :: HasFetched(s, op) && e.token == op.token
  }

  /** It is named, but its operation entry is no object or is to be downloaded. */
  predicate Fails(event: Event) {
    Named(event) && (HasOperation(event) ==> Oversized(event))
  }

  /** The poller has it and has not found it ready. */
  ghost predicate HasFetched(s: Agent, op: Op) {
    s.poller.pc == P.InnerTest(Some(op)) || s.poller.pc == P.Submitting(op)
  }

  ghost predicate HasOffer(s: Agent, token: nat, next: Json) {
    exists i :: 0 <= i < |s.pubHands| && s.pubHands[i] == Offered(token, next)
  }

  ghost predicate HasInHand(s: Agent, res: Res) {
    exists i :: 0 <= i < |s.pubHands| && s.pubHands[i] == Publishing(res)
  }

  lemma SettledFrom(s: Agent, l: Step, p: Plan)
    requires PlanOf(s, l) == Some(p)
    ensures forall k :: 0 <= k < |p.rest.settled| ==>
              (k < |s.settled| && p.rest.settled[k] == s.settled[k]) || NewlySettled(s, p.rest.settled[k])
  {
  }

  lemma NewlyIs(s: Agent, e: Settled, all: Past)
    requires AllAre(s, all) && NewlySettled(s, e)
    ensures SettledIs(s.cfg, e, all)
  {
  }

  lemma PlanSettles(s: Agent, l: Step, p: Plan, all: Past)
    requires AllAre(s, all) && PlanOf(s, l) == Some(p)
    ensures forall k :: 0 <= k < |p.rest.settled| ==> SettledIs(s.cfg, p.rest.settled[k], After(s, l, all))
  {
    MoreHanded(s, all, After(s, l, all));
    SettledFrom(s, l, p);
    forall k | 0 <= k < |p.rest.settled|
      ensures SettledIs(s.cfg, p.rest.settled[k], After(s, l, all))
    {
      if NewlySettled(s, p.rest.settled[k]) {
        NewlyIs(s, p.rest.settled[k], After(s, l, all));
      }
    }
  }

  lemma OpsItems(q: Q.Queue<Op>, m: Option<Q.Step<Op>>, all: Past)
    requires forall k :: 0 <= k < |q.items| ==> OpIs(q.items[k], all)
    requires forall k :: 0 <= k < |q.pops| ==> OpIs(q.pops[k].item, all)
    requires m.Some? && m.value.Schedule? ==> OpIs(m.value.item, all)
    requires Maybe(Q.Next, q, m).Some?
    ensures var r := Maybe(Q.Next, q, m).value;
            && (forall k :: 0 <= k < |r.items| ==> OpIs(r.items[k], all))
            && (forall k :: 0 <= k < |r.pops| ==> OpIs(r.pops[k].item, all))
  {
  }

  lemma ResultItems(cfg: Config, q: Q.Queue<Res>, m: Option<Q.Step<Res>>, all: Past)
    requires forall k :: 0 <= k < |q.items| ==> ResIs(cfg, q.items[k], all)
    requires m.Some? && m.value.Schedule? ==> ResIs(cfg, m.value.item, all)
    requires Maybe(Q.Next, q, m).Some?
    ensures var r := Maybe(Q.Next, q, m).value; forall k :: 0 <= k < |r.items| ==> ResIs(cfg, r.items[k], all)
  {
  }

  lemma PollerMoves(p: P.Poller<Op>, m: Option<P.Step<Op>>, all: Past)
    requires PollerIs(p.pc, all)
    requires m.Some? && m.value.Prepare? ==> OpIs(m.value.ready, all)
    requires m.Some? && m.value.Fetch? && m.value.found.Some? && !m.value.raised ==>
               PollerIs(P.InnerTest(m.value.found), all)
    requires Maybe(P.Next, p, m).Some?
    ensures PollerIs(Maybe(P.Next, p, m).value.pc, all)
  {
    if m.Some? {
      PollerStep(p, m.value, P.Next(p, m.value).value, all);
    }
  }

  lemma PollerStep(p: P.Poller<Op>, l: P.Step<Op>, r: P.Poller<Op>, all: Past)
    requires PollerIs(p.pc, all) && P.Next(p, l) == Some(r)
    requires l.Prepare? ==> OpIs(l.ready, all)
    requires l.Fetch? && l.found.Some? && !l.raised ==> PollerIs(P.InnerTest(l.found), all)
    ensures PollerIs(r.pc, all)
  {
    if !l.Fetch? && !l.TestInner? && !l.Prepare? {
      assert r.pc == p.pc || !(r.pc.InnerTest? || r.pc.Submitting? || r.pc.Scheduling?);
    }
  }

  lemma StepKeeps(s: Agent, l: Step, all: Past)
    requires AllAre(s, all) && |all.handed| == s.issued && Next(s, l).Some?
    ensures AllAre(Next(s, l).value, After(s, l, all)) && |After(s, l, all).handed| == Next(s, l).value.issued
    ensures Next(s, l).value.cfg == s.cfg
  {
    var p := PlanOf(s, l).value;
    PlanIssues(s, l, p);
    PlanSchedules(s, l, p, all);
    PlanForPoller(s, l, p, all);
    PlanOpsHands(s, l, p, all);
    PlanPubHands(s, l, p, all);
    PlanSettles(s, l, p, all);
    MoreHanded(s, all, After(s, l, all));
    OpsItems(s.ops, p.ops, After(s, l, all));
    ResultItems(s.cfg, s.results, p.results, After(s, l, all));
    PollerMoves(s.poller, p.poller, After(s, l, all));
  }

  // ---------------------------------------------------------------- over every run

  /** What a run adds to the past. */
  function PastOf(s: Agent, labels: seq<Step>, all: Past): Past {
    Past(all.handed + Project(Next, HandedBy, s, labels), all.bodies + Project(Next, BodyBy, s, labels))
  }

  lemma {:induction false} RunKeeps(s: Agent, labels: seq<Step>, all: Past)
    requires AllAre(s, all) && |all.handed| == s.issued && Exec(Next, s, labels).Some?
    ensures var r, past := Exec(Next, s, labels).value, PastOf(s, labels, all);
            AllAre(r, past) && |past.handed| == r.issued && r.cfg == s.cfg
    decreases |labels|
  {
    if labels == [] {
      assert all.handed + [] == all.handed && all.bodies + [] == all.bodies;
    } else {
      StepKeeps(s, labels[0], all);
      var next := Next(s, labels[0]).value;
      RunKeeps(next, labels[1..], After(s, labels[0], all));
      ProjectFirst(Next, HandedBy, s, labels, all.handed);
      ProjectFirst(Next, BodyBy, s, labels, all.bodies);
    }
  }

  /** What was handed over and downloaded in a run from the start. */
  function PastOfRun(cfg: Config, opsThreads: int, publishers: int, triggers: seq<bool>, labels: seq<Step>): Past {
    var start := Initial(cfg, opsThreads, publishers, triggers);
    Past(Project(Next, HandedBy, start, labels), Project(Next, BodyBy, start, labels))
  }

  /**
   Token `t` is the t-th thing handed over, and in every reachable state each operation with it
   has the id and the event that were handed over, but with the body downloaded for it in the
   place of an oversized operation entry; and each result with it, pushed or not, has that id and
   is the response to that operation: no answer ever goes out for another one.
   */
  lemma ResultsGoToTheirOperations(
    cfg: Config, opsThreads: int, publishers: int, triggers: seq<bool>, labels: seq<Step>, s: Agent)
    requires Exec(Next, Initial(cfg, opsThreads, publishers, triggers), labels) == Some(s)
    ensures var past := PastOfRun(cfg, opsThreads, publishers, triggers, labels);
            AllAre(s, past) && |past.handed| == s.issued && s.cfg == cfg
  {
    var past := PastOfRun(cfg, opsThreads, publishers, triggers, labels);
    RunKeeps(Initial(cfg, opsThreads, publishers, triggers), labels, Past([], []));
    assert [] + past.handed == past.handed && [] + past.bodies == past.bodies;
  }
}
