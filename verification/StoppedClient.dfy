/**
 When a stopped events client stays stopped.

 stop() clears the receiver's current id and leaves the watchdog alone, and an alarm does not ask
 whether the client was stopped. So it can come back without a new start(): here is exactly when.
 */
module StoppedClient {
  import opened Runs
  import opened Events
  import R = Receiving
  import H = Heartbeats

  predicate Relaunches(l: Step) {
    l.RestartLaunches?
  }

  /** A receiver loop that may still call the connected handler, though its id is cleared. */
  predicate MayAnnounce(pc: R.Pc) {
    || pc.Committed? || pc.Connecting? || pc.Connected? || pc.RetrySleep?
    || ((pc.Finally? || pc.Firing?) && pc.retry)
  }

  /** Nothing is left of the client that could restart its receiver. */
  ghost predicate Quiet(s: Client) {
    && s.rx.current.None? && s.hb.current.None? && s.restarting == {}
    && (forall i :: 0 <= i < |s.rx.loops| ==> !MayAnnounce(s.rx.loops[i]))
    && (forall c :: 0 <= c < |s.hb.loops| ==> !s.hb.loops[c].Alarming? && !s.hb.loops[c].Calling?)
  }

  // ---------------------------------------------------------------- once quiet, it stays so

  lemma QuietStep(s: Client, l: Step)
    requires Quiet(s) && UnstartedNext(s, l).Some?
    ensures Quiet(Next(s, l).value) && !Relaunches(l) && |Next(s, l).value.rx.loops| == |s.rx.loops|
  {
  }

  /** From a quiet state, in every run without a new start, the receiver is never restarted. */
  lemma {:induction false} QuietStaysStopped(s: Client, labels: seq<Step>)
    requires Quiet(s) && Exec(UnstartedNext, s, labels).Some?
    ensures var r := Exec(UnstartedNext, s, labels).value; Quiet(r) && |r.rx.loops| == |s.rx.loops|
    ensures Count(Relaunches, labels) == 0
    decreases |labels|
  {
    if labels != [] {
      QuietStep(s, labels[0]);
      QuietStaysStopped(Next(s, labels[0]).value, labels[1..]);
    }
  }

  // ---------------------------------------------------------------- otherwise it can come back

  /** Some continuation without a new start restarts the receiver. */
  ghost predicate CanComeBack(s: Client) {
    CanStill(UnstartedNext, Relaunches, s)
  }

  ghost predicate Sound(s: Client) {
    H.Inv(s.hb) && (forall c :: c in s.restarting ==> H.PcOf(s.hb, c).Calling?)
  }

  lemma StepKeepsSound(s: Client, l: Step)
    requires Sound(s) && Next(s, l).Some?
    ensures Sound(Next(s, l).value)
  {
    if InWatchdog(l).Some? {
      H.StepKeepsInv(s.hb, InWatchdog(l).value);
    }
  }

  lemma ReachableSound(timeout: real, now: real, labels: seq<Step>)
    requires Exec(Next, Initial(timeout, now), labels).Some?
    ensures Sound(Exec(Next, Initial(timeout, now), labels).value)
  {
    forall s: Client, l: Step | Sound(s) && Next(s, l).Some?
      ensures Sound(Next(s, l).value)
    {
      StepKeepsSound(s, l);
    }
    Invariant(Next, s => Sound(s), Initial(timeout, now), labels);
  }

  /** If the client can come back after the step, it can before it. */
  lemma BeforeThat(s: Client, l: Step)
    requires UnstartedNext(s, l).Some? && (Relaunches(l) || CanComeBack(Next(s, l).value))
    ensures CanComeBack(s)
  {
    StillAfter(UnstartedNext, Relaunches, s, l);
  }

  /** From inside the alarm's handler. */
  lemma CallingComesBack(s: Client, c: nat)
    requires H.PcOf(s.hb, c).Calling?
    ensures CanComeBack(s)
  {
    if c in s.restarting {
      BeforeThat(s, RestartLaunches(c));
    } else {
      var cleared := Next(s, RestartClears(c)).value;
      BeforeThat(cleared, RestartLaunches(c));
      BeforeThat(s, RestartClears(c));
    }
  }

  /** From a loop that has decided to call it, current or not. */
  lemma AlarmingComesBack(s: Client, c: nat)
    requires H.PcOf(s.hb, c).Alarming?
    ensures CanComeBack(s)
  {
    CallingComesBack(Next(s, Checks(H.CallHandler(c))).value, c);
    BeforeThat(s, Checks(H.CallHandler(c)));
  }

  /** From a current loop that measures more than the timeout since the last heartbeat. */
  lemma OverdueComesBack(s: Client, c: nat)
    requires s.hb.current == Some(c) && H.PcOf(s.hb, c).Waiting?
    requires s.hb.beats != [] && s.hb.now - H.LastBeat(s.hb) > s.hb.timeout
    ensures CanComeBack(s)
  {
    var measured := Next(s, Checks(H.Wake(c))).value;
    AlarmingComesBack(Next(measured, Checks(H.Recheck(c))).value, c);
    BeforeThat(measured, Checks(H.Recheck(c)));
    BeforeThat(s, Checks(H.Wake(c)));
  }

  lemma WaitingComesBack(s: Client, c: nat)
    requires s.hb.current == Some(c) && H.PcOf(s.hb, c).Waiting? && H.BeatsInOrder(s.hb)
    ensures CanComeBack(s)
  {
    var long := if s.hb.timeout > 0.0 then s.hb.timeout + 1.0 else 1.0;
    OverdueComesBack(Next(s, Checks(H.Tick(long))).value, c);
    BeforeThat(s, Checks(H.Tick(long)));
  }

  lemma ArmingComesBack(s: Client, c: nat)
    requires s.hb.current == Some(c) && H.PcOf(s.hb, c).Arming? && H.BeatsInOrder(s.hb)
    ensures CanComeBack(s)
  {
    WaitingComesBack(Next(s, Checks(H.Park(c))).value, c);
    BeforeThat(s, Checks(H.Park(c)));
  }

  lemma LoopTestComesBack(s: Client, c: nat)
    requires s.hb.current == Some(c) && H.PcOf(s.hb, c).LoopTest? && H.BeatsInOrder(s.hb)
    ensures CanComeBack(s)
  {
    ArmingComesBack(Next(s, Checks(H.Test(c))).value, c);
    BeforeThat(s, Checks(H.Test(c)));
  }

  /** From wherever the watchdog has a current loop: all it takes is silence. */
  lemma WatchedComesBack(s: Client, c: nat)
    requires Sound(s) && s.hb.current == Some(c)
    ensures CanComeBack(s)
  {
    match s.hb.loops[c]
    case LoopTest => LoopTestComesBack(s, c);
    case Arming => ArmingComesBack(s, c);
    case Waiting(_) => WaitingComesBack(s, c);
    case Alarming(_, _) => AlarmingComesBack(s, c);
    case Calling => CallingComesBack(s, c);
    case Measured(_, _) =>
      var next := Next(s, Checks(H.Recheck(c))).value;
      if next.hb.loops[c].Alarming? {
        AlarmingComesBack(next, c);
      } else {
        LoopTestComesBack(next, c);
      }
      BeforeThat(s, Checks(H.Recheck(c)));
  }

  /** From a loop about to announce: it starts the watchdog. */
  lemma ConnectedComesBack(s: Client, i: nat)
    requires Sound(s) && R.PcOf(s.rx, i).Connected?
    ensures CanComeBack(s)
  {
    var next := Next(s, Announces(i)).value;
    StepKeepsSound(s, Announces(i));
    WatchedComesBack(next, next.hb.current.value);
    BeforeThat(s, Announces(i));
  }

  lemma ConnectingComesBack(s: Client, i: nat)
    requires Sound(s) && R.PcOf(s.rx, i).Connecting?
    ensures CanComeBack(s)
  {
    ConnectedComesBack(Next(s, Receives(R.Connect(i, true))).value, i);
    BeforeThat(s, Receives(R.Connect(i, true)));
  }

  lemma CommittedComesBack(s: Client, i: nat)
    requires Sound(s) && (R.PcOf(s.rx, i).Committed? || R.PcOf(s.rx, i).RetrySleep?)
    ensures CanComeBack(s)
  {
    ConnectingComesBack(Next(s, Receives(R.Begin(i))).value, i);
    BeforeThat(s, Receives(R.Begin(i)));
  }

  lemma FiringComesBack(s: Client, i: nat)
    requires Sound(s) && R.PcOf(s.rx, i) == R.Firing(true)
    ensures CanComeBack(s)
  {
    StepKeepsSound(s, Disconnects(i));
    CommittedComesBack(Next(s, Disconnects(i)).value, i);
    BeforeThat(s, Disconnects(i));
  }

  /** From any loop that may still announce. */
  lemma AnnouncerComesBack(s: Client, i: nat)
    requires Sound(s) && s.rx.current.None? && i < |s.rx.loops| && MayAnnounce(s.rx.loops[i])
    ensures CanComeBack(s)
  {
    match s.rx.loops[i]
    case Connecting => ConnectingComesBack(s, i);
    case Connected => ConnectedComesBack(s, i);
    case Finally(_, _) =>
      FiringComesBack(Next(s, Receives(R.CheckFinally(i))).value, i);
      BeforeThat(s, Receives(R.CheckFinally(i)));
    case Firing(_) => FiringComesBack(s, i);
    case _ => CommittedComesBack(s, i);
  }

  /**
   A client that is stopped, in whatever reachable state it then is, can have its receiver
   restarted without a new start exactly if it is not quiet: if the watchdog has a current loop, a
   checker loop is about to call its handler or inside it, or a receiver loop may still connect.
   */
  lemma ComesBackExactlyWhen(timeout: real, now: real, labels: seq<Step>, s: Client)
    requires Exec(Next, Initial(timeout, now), labels) == Some(s) && s.rx.current.None?
    ensures CanComeBack(s) <==> !Quiet(s)
  {
    ReachableSound(timeout, now, labels);
    if Quiet(s) {
      forall later: seq<Step> | Exec(UnstartedNext, s, later).Some?
        ensures Count(Relaunches, later) == 0
      {
        QuietStaysStopped(s, later);
      }
    } else if s.hb.current.Some? {
      WatchedComesBack(s, s.hb.current.value);
    } else if i: nat :| i < |s.rx.loops| && MayAnnounce(s.rx.loops[i]) {
      AnnouncerComesBack(s, i);
    } else if c: nat :| c < |s.hb.loops| && (s.hb.loops[c].Alarming? || s.hb.loops[c].Calling?) {
      if s.hb.loops[c].Alarming? {
        AlarmingComesBack(s, c);
      } else {
        CallingComesBack(s, c);
      }
    } else {
      var c :| c in s.restarting;
      CallingComesBack(s, c);
    }
  }
}
