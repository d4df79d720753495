/**
 The event receiver as a transition system: receiver loops superseding one another by
 replacing the current loop id, each finding out only where it looks.

 A loop's id is its index, so ids are unique. What connecting and the stream do is open. Every
 read of the current id is a step by itself.
 */
module Receiving {
  import opened Runs

  datatype Pc =
    | LoopTest                                  // about to see whether it is current
    | Committed                                 // past the test, attempt not begun
    | Connecting
    | Connected                                 // about to call the connected handler
    | Streaming
    | GotEvent                                  // an event has come, about to see whether it is current
    | Accepted                                  // past the check, event not yet delivered
    | Raised(announced: bool)                   // in the except clause
    | Finally(announced: bool, retry: bool)     // in the finally clause; retry: a connection failure is on its way
    | Firing(retry: bool)                       // past the check, disconnected handler not yet called
    | RetrySleep
    | Exited

  datatype Receiver = Receiver(current: Option<nat>, loops: seq<Pc>)

  datatype Step =
    | Launch                      // start(), or the second half of restart()
    | Clear                       // stop(), or the first half of restart()
    | Test(i: nat)
    | Begin(i: nat)
    | Connect(i: nat, ok: bool)
    | Announce(i: nat, ok: bool)
    | Event(i: nat)
    | EndStream(i: nat, raised: bool)
    | Check(i: nat)
    | Deliver(i: nat)             // the handler is called; an exception of its own is swallowed
    | Unparsable(i: nat)
    | Except(i: nat)
    | CheckFinally(i: nat)
    | Fire(i: nat)

  function Initial(): Receiver {
    Receiver(None, [])
  }

  function PcOf(s: Receiver, i: nat): Pc {
    if i < |s.loops| then s.loops[i] else Exited
  }

  function Go(s: Receiver, i: nat, pc: Pc): Option<Receiver>
    requires i < |s.loops|
  {
    Some(s.(loops := s.loops[i := pc]))
  }

  function AfterFinally(retry: bool): Pc {
    if retry then RetrySleep else LoopTest
  }

  function Next(s: Receiver, l: Step): Option<Receiver> {
    match l
    case Launch => Some(Receiver(Some(|s.loops|), s.loops + [LoopTest]))
    case Clear => Some(s.(current := None))
    case _ => if l.i < |s.loops| then LoopNext(s, l) else None
  }

  function LoopNext(s: Receiver, l: Step): Option<Receiver>
    requires !l.Launch? && !l.Clear? && l.i < |s.loops|
  {
    var mine := s.current == Some(l.i);
    match (l, s.loops[l.i])
    case (Test(i), LoopTest) => Go(s, i, if mine then Committed else Exited)
    case (Begin(i), Committed) => Go(s, i, Connecting)
    case (Begin(i), RetrySleep) => Go(s, i, Connecting)
    case (Connect(i, ok), Connecting) => Go(s, i, if ok then Connected else Raised(false))
    case (Announce(i, ok), Connected) => Go(s, i, if ok then Streaming else Raised(false))
    case (Event(i), Streaming) => Go(s, i, GotEvent)
    case (EndStream(i, raised), Streaming) => Go(s, i, if raised then Raised(true) else Finally(true, false))
    case (Check(i), GotEvent) => Go(s, i, if mine then Accepted else Finally(true, false))
    case (Deliver(i), Accepted) => Go(s, i, Streaming)
    case (Unparsable(i), Accepted) => Go(s, i, Streaming)
    case (Except(i), Raised(announced)) => Go(s, i, Finally(announced, mine))
    case (CheckFinally(i), Finally(_, retry)) =>
      Go(s, i, if mine || s.current.None? then Firing(retry) else AfterFinally(retry))
    case (Fire(i), Firing(retry)) => Go(s, i, AfterFinally(retry))
    case _ => None
  }

  predicate Of(l: Step, i: nat) {
    !l.Launch? && !l.Clear? && l.i == i
  }

  // ---------------------------------------------------------------- stale loops die out

  ghost predicate Stale(s: Receiver, i: nat) {
    && i < |s.loops| && s.current != Some(i)
    && (s.current.Some? ==> s.current.value < |s.loops|)
  }

  /** Events a stale loop can still deliver: the one it has checked already. */
  function DeliveriesLeft(pc: Pc): nat {
    if pc.Accepted? then 1 else 0
  }

  /** Attempts a stale loop can still begin: the one it is committed to already. */
  function AttemptsLeft(pc: Pc): nat {
    match pc
    case Committed => 1
    case RetrySleep => 1
    case Finally(_, retry) => if retry then 1 else 0
    case Firing(retry) => if retry then 1 else 0
    case _ => 0
  }

  function StepsLeft(pc: Pc): nat {
    match pc
    case Exited => 0
    case LoopTest => 1
    case Firing(retry) => if retry then 9 else 2
    case Finally(_, retry) => if retry then 10 else 3
    case Raised(_) => 4
    case GotEvent => 4
    case Streaming => 5
    case Accepted => 6
    case Connected => 6
    case Connecting => 7
    case Committed => 8
    case RetrySleep => 8
  }

  lemma StaleStep(s: Receiver, i: nat, l: Step)
    requires Stale(s, i) && Next(s, l).Some?
    ensures var r := Next(s, l).value;
            && Stale(r, i)
            && DeliveriesLeft(PcOf(r, i)) + (if Of(l, i) && l.Deliver? then 1 else 0) <= DeliveriesLeft(PcOf(s, i))
            && AttemptsLeft(PcOf(r, i)) + (if Of(l, i) && l.Begin? then 1 else 0) <= AttemptsLeft(PcOf(s, i))
            && StepsLeft(PcOf(r, i)) + (if Of(l, i) then 1 else 0) <= StepsLeft(PcOf(s, i))
  {
  }

  /** A step loop `i` can take next. */
  function OwnStep(s: Receiver, i: nat): Step {
    match PcOf(s, i)
    case LoopTest => Test(i)
    case Committed => Begin(i)
    case Connecting => Connect(i, false)
    case Connected => Announce(i, true)
    case Streaming => EndStream(i, false)
    case GotEvent => Check(i)
    case Accepted => Deliver(i)
    case Raised(_) => Except(i)
    case Finally(_, _) => CheckFinally(i)
    case Firing(_) => Fire(i)
    case RetrySleep => Begin(i)
    case Exited => Clear
  }

  predicate IsDelivery(l: Step) { l.Deliver? }

  predicate IsBegin(l: Step) { l.Begin? }

  predicate IsAny(l: Step) { true }

  /** How many steps of loop `i` in the run satisfy `p`. */
  function CountOf(p: Step -> bool, i: nat, labels: seq<Step>): nat {
    Count((l: Step) => Of(l, i) && p(l), labels)
  }

  /** A rank over places that no step raises bounds the steps of a stale loop that lower it. */
  lemma StaleCount(rank: Pc -> nat, cost: Step -> bool, s: Receiver, i: nat, labels: seq<Step>)
    requires forall s: Receiver, l: Step :: Stale(s, i) && Next(s, l).Some? ==>
               rank(PcOf(Next(s, l).value, i)) + (if Of(l, i) && cost(l) then 1 else 0) <= rank(PcOf(s, i))
    requires Stale(s, i) && Exec(Next, s, labels).Some?
    ensures CountOf(cost, i, labels) <= rank(s.loops[i]) && Stale(Exec(Next, s, labels).value, i)
  {
    var stale := (s: Receiver) => Stale(s, i);
    var potential := (s: Receiver) => rank(PcOf(s, i));
    forall s: Receiver, l: Step | stale(s) && Next(s, l).Some?
      ensures stale(Next(s, l).value)
      ensures potential(Next(s, l).value) + (if Of(l, i) && cost(l) then 1 else 0) <= potential(s)
    {
      StaleStep(s, i, l);
    }
    Potential(Next, stale, potential, (l: Step) => Of(l, i) && cost(l), s, labels);
  }

  /**
   Once superseded, a loop stays so. However its run goes on it delivers at most one event, and
   that only if it had checked it before; begins at most one attempt, and that only if it was
   committed to it; takes at most ten steps in all; and can always take one until it has exited.
   */
  lemma StaleLoopDiesOut(s: Receiver, i: nat, labels: seq<Step>)
    requires Stale(s, i) && Exec(Next, s, labels).Some?
    ensures Stale(Exec(Next, s, labels).value, i)
    ensures CountOf(IsDelivery, i, labels) <= DeliveriesLeft(s.loops[i]) <= 1
    ensures CountOf(IsBegin, i, labels) <= AttemptsLeft(s.loops[i]) <= 1
    ensures CountOf(IsAny, i, labels) <= StepsLeft(s.loops[i]) <= 10
    ensures var r := Exec(Next, s, labels).value;
            r.loops[i].Exited? || (Of(OwnStep(r, i), i) && Next(r, OwnStep(r, i)).Some?)
  {
    forall s: Receiver, l: Step | Stale(s, i) && Next(s, l).Some?
      ensures var p, r := PcOf(s, i), PcOf(Next(s, l).value, i);
              && DeliveriesLeft(r) + (if Of(l, i) && IsDelivery(l) then 1 else 0) <= DeliveriesLeft(p)
              && AttemptsLeft(r) + (if Of(l, i) && IsBegin(l) then 1 else 0) <= AttemptsLeft(p)
              && StepsLeft(r) + (if Of(l, i) && IsAny(l) then 1 else 0) <= StepsLeft(p)
    {
      StaleStep(s, i, l);
    }
    StaleCount(DeliveriesLeft, IsDelivery, s, i, labels);
    StaleCount(AttemptsLeft, IsBegin, s, i, labels);
    StaleCount(StepsLeft, IsAny, s, i, labels);
    var r := Exec(Next, s, labels).value;
    if !r.loops[i].Exited? {
      StaleCanStep(r, i);
    }
  }

  lemma StaleCanStep(s: Receiver, i: nat)
    requires Stale(s, i) && !s.loops[i].Exited?
    ensures Of(OwnStep(s, i), i) && Next(s, OwnStep(s, i)).Some?
  {
  }

  /** Replacing or clearing the current id makes the loop that had it stale. */
  lemma RestartMakesStale(s: Receiver, i: nat)
    requires i < |s.loops|
    ensures Stale(Next(s, Launch).value, i) && Stale(Next(s, Clear).value, i)
  {
  }

  // ---------------------------------------------------------------- interference

  /** Loop `i` takes no step in the run. */
  ghost predicate WithoutLoop(labels: seq<Step>, i: nat) {
    forall k :: 0 <= k < |labels| ==> !Of(labels[k], i)
  }

  /** Ids in use are ids of loops. */
  predicate CurrentExists(s: Receiver) {
    s.current.Some? ==> s.current.value < |s.loops|
  }

  /** What the steps of all other threads, whatever they are, leave of what loop `i` relies on. */
  ghost predicate KeptFor(s: Receiver, r: Receiver, i: nat) {
    && CurrentExists(r) && i < |s.loops| <= |r.loops| && r.loops[i] == s.loops[i]
    && (s.current != Some(i) ==> r.current != Some(i))
  }

  /** Whoever steps, no loop is forgotten, nor an id used that is no loop's. */
  lemma {:induction false} LoopsGrow(s: Receiver, labels: seq<Step>)
    requires CurrentExists(s) && Exec(Next, s, labels).Some?
    ensures CurrentExists(Exec(Next, s, labels).value) && |s.loops| <= |Exec(Next, s, labels).value.loops|
    decreases |labels|
  {
    if labels != [] {
      LoopsGrow(Next(s, labels[0]).value, labels[1..]);
    }
  }

  lemma {:induction false} OthersKeep(s: Receiver, labels: seq<Step>, i: nat)
    requires i < |s.loops| && CurrentExists(s) && WithoutLoop(labels, i) && Exec(Next, s, labels).Some?
    ensures KeptFor(s, Exec(Next, s, labels).value, i)
    decreases |labels|
  {
    if labels != [] {
      assert !Of(labels[0], i) && WithoutLoop(labels[1..], i);
      OthersKeep(Next(s, labels[0]).value, labels[1..], i);
    }
  }
}
