/**
 The events client: a receiver and a watchdog, glued by their callbacks. Connecting starts the
 watchdog, disconnecting stops it, a heartbeat event feeds it, and its alarm restarts the
 receiver.
 */
module Events {
  import opened Runs
  import R = Receiving
  import H = Heartbeats

  /** `restarting` holds the checker loops that are halfway through restart(). */
  datatype Client = Client(rx: R.Receiver, hb: H.Checker, restarting: set<nat>)

  datatype Step =
    | ClientStart
    | ClientStop
    | Receives(r: R.Step)                   // a receiver step that calls nothing outside
    | Announces(i: nat)                     // connected handler: starts the watchdog
    | Delivers(i: nat, heartbeat: bool)     // event handler
    | Disconnects(i: nat)                   // disconnected handler: stops the watchdog
    | Checks(h: H.Step)                     // a watchdog step that calls nothing outside
    | RestartClears(c: nat)                 // the alarm's restart(): first the current id,
    | RestartLaunches(c: nat)               // then the new loop

  function Initial(timeout: real, now: real): Client {
    Client(R.Initial(), H.Initial(timeout, now), {})
  }

  predicate Quiet(r: R.Step) {
    || r.Test? || r.Begin? || r.Connect? || (r.Announce? && !r.ok) || r.Event? || r.EndStream?
    || r.Check? || r.Unparsable? || r.Except? || r.CheckFinally?
  }

  predicate Private(h: H.Step) {
    h.Beat? || h.Test? || h.Park? || h.Wake? || h.Recheck? || h.CallHandler? || h.Tick?
  }

  /** The step, if any, that a label is for the receiver. */
  function InReceiver(l: Step): Option<R.Step> {
    match l
    case ClientStart => Some(R.Launch)
    case ClientStop => Some(R.Clear)
    case Receives(r) => Some(r)
    case Announces(i) => Some(R.Announce(i, true))
    case Delivers(i, _) => Some(R.Deliver(i))
    case Disconnects(i) => Some(R.Fire(i))
    case Checks(_) => None
    case RestartClears(_) => Some(R.Clear)
    case RestartLaunches(_) => Some(R.Launch)
  }

  /** The step, if any, that a label is for the watchdog. */
  function InWatchdog(l: Step): Option<H.Step> {
    match l
    case Announces(_) => Some(H.Start)
    case Delivers(_, heartbeat) => if heartbeat then Some(H.Beat) else None
    case Disconnects(_) => Some(H.Stop)
    case Checks(h) => Some(h)
    case RestartLaunches(c) => Some(H.Return(c))
    case _ => None
  }

  predicate Guard(s: Client, l: Step) {
    match l
    case Receives(r) => Quiet(r)
    case Checks(h) => Private(h)
    case RestartClears(c) => H.PcOf(s.hb, c).Calling? && c !in s.restarting
    case RestartLaunches(c) => c in s.restarting
    case _ => true
  }

  function Next(s: Client, l: Step): Option<Client> {
    var rx, hb := Maybe(R.Next, s.rx, InReceiver(l)), Maybe(H.Next, s.hb, InWatchdog(l));
    if !Guard(s, l) || rx.None? || hb.None? then None
    else
      var restarting :=
        if l.RestartClears? then s.restarting + {l.c}
        else if l.RestartLaunches? then s.restarting - {l.c}
        else s.restarting;
      Some(Client(rx.value, hb.value, restarting))
  }

  /**
   In every run of the client its receiver and its watchdog run as the machines they are, so
   what is proved of stale loops and of alarms holds of them here.
   */
  lemma PartsRun(s: Client, labels: seq<Step>)
    requires Exec(Next, s, labels).Some?
    ensures var r := Exec(Next, s, labels).value;
            && Exec(R.Next, s.rx, Project(Next, (s: Client, l: Step) => InReceiver(l), s, labels)) == Some(r.rx)
            && Exec(H.Next, s.hb, Project(Next, (s: Client, l: Step) => InWatchdog(l), s, labels)) == Some(r.hb)
  {
    Projection(Next, (s: Client) => s.rx, R.Next, (s: Client, l: Step) => InReceiver(l), s, labels);
    Projection(Next, (s: Client) => s.hb, H.Next, (s: Client, l: Step) => InWatchdog(l), s, labels);
  }

  // ---------------------------------------------------------------- interference

  /** A step of checker loop `c`, or of its handler. */
  predicate OfChecker(l: Step, c: nat) {
    (l.Checks? && H.Of(l.h, c)) || ((l.RestartClears? || l.RestartLaunches?) && l.c == c)
  }

  ghost predicate WithoutChecker(labels: seq<Step>, c: nat) {
    forall k :: 0 <= k < |labels| ==> !OfChecker(labels[k], c)
  }

  /** What the steps of all other threads, whatever they are, leave of what checker loop `c` relies on. */
  ghost predicate KeptFor(s: Client, r: Client, c: nat) {
    && (c < |s.hb.loops| ==> c < |r.hb.loops| && r.hb.loops[c] == s.hb.loops[c])
    && (c in r.restarting <==> c in s.restarting)
  }

  lemma {:induction false} OthersKeep(s: Client, labels: seq<Step>, c: nat)
    requires WithoutChecker(labels, c) && Exec(Next, s, labels).Some?
    ensures KeptFor(s, Exec(Next, s, labels).value, c)
    decreases |labels|
  {
    if labels != [] {
      assert !OfChecker(labels[0], c) && WithoutChecker(labels[1..], c);
      OthersKeep(Next(s, labels[0]).value, labels[1..], c);
    }
  }

  // ---------------------------------------------------------------- connected implies monitored

  /** Between its connected call and its finally. */
  predicate Live(pc: R.Pc) {
    pc.Streaming? || pc.GotEvent? || pc.Accepted? || (pc.Raised? && pc.announced)
  }

  /** The current receiver loop is connected. */
  predicate CurrentLive(s: Client) {
    s.rx.current.Some? && Live(R.PcOf(s.rx, s.rx.current.value))
  }

  predicate Monitored(s: Client) {
    CurrentLive(s) ==> s.hb.current.Some?
  }

  /**
   A step breaks the monitoring of a connected current loop exactly when it is a disconnected
   call by another loop: one whose check of the current id is out of date by then.
   */
  lemma OnlyLateDisconnectUnmonitors(s: Client, l: Step)
    requires Monitored(s) && Next(s, l).Some?
    ensures !Monitored(Next(s, l).value) <==>
              l.Disconnects? && CurrentLive(s) && s.rx.current != Some(l.i)
  {
  }

  /** A loop has checked that it may call the disconnected handler, and has not called it yet. */
  ghost predicate SomeoneFiring(s: Client) {
    exists i :: 0 <= i < |s.rx.loops| && s.rx.loops[i].Firing?
  }

  /** The same steps, with a loop's last check of the current id and its disconnected call taken together. */
  ghost function PromptNext(s: Client, l: Step): Option<Client> {
    if SomeoneFiring(s) && !l.Disconnects? then None else Next(s, l)
  }

  /** At most one loop is about to disconnect, and only if it is current or none is. */
  ghost predicate FiringIsCurrent(s: Client) {
    forall i :: 0 <= i < |s.rx.loops| && s.rx.loops[i].Firing? ==> s.rx.current == Some(i) || s.rx.current.None?
  }

  lemma PromptStep(s: Client, l: Step)
    requires Monitored(s) && FiringIsCurrent(s) && PromptNext(s, l).Some?
    ensures Monitored(PromptNext(s, l).value) && FiringIsCurrent(PromptNext(s, l).value)
  {
    OnlyLateDisconnectUnmonitors(s, l);
  }

  /**
   If each loop's last check and its disconnected call are one step, a connected current loop is
   monitored in every reachable state, whatever starts, stops, restarts and stale loops there
   are. restart() itself need not be one step.
   */
  lemma ConnectedImpliesMonitored(timeout: real, now: real, labels: seq<Step>, s: Client)
    requires Exec((s: Client, l: Step) => PromptNext(s, l), Initial(timeout, now), labels) == Some(s)
    ensures CurrentLive(s) ==> s.hb.current.Some?
  {
    var step := (s: Client, l: Step) => PromptNext(s, l);
    var inv := (s: Client) => Monitored(s) && FiringIsCurrent(s);
    forall s: Client, l: Step | inv(s) && step(s, l).Some?
      ensures inv(step(s, l).value)
    {
      PromptStep(s, l);
    }
    Invariant(step, inv, Initial(timeout, now), labels);
  }

  // ---------------------------------------------------------------- runs of a client started once

  /** The steps of a client that nobody starts again. */
  function UnstartedNext(s: Client, l: Step): Option<Client> {
    if l.ClientStart? then None else Next(s, l)
  }

  /** A client started once that took these steps and is now in this state. */
  ghost predicate Run(start: Client, labels: seq<Step>, s: Client) {
    Exec(UnstartedNext, start, labels) == Some(s)
  }

  /** Such a run is a run. */
  lemma {:induction false} UnstartedIsRun(start: Client, labels: seq<Step>)
    requires Exec(UnstartedNext, start, labels).Some?
    ensures Exec(Next, start, labels) == Exec(UnstartedNext, start, labels)
    decreases |labels|
  {
    if labels != [] {
      UnstartedIsRun(Next(start, labels[0]).value, labels[1..]);
    }
  }

  /** The client as it is once started: its first receiver loop about to look. */
  function Started(): Client {
    Next(Initial(120.0, 0.0), ClientStart).value
  }

  /** Receiver loop `i` gets from one place to the next by itself. */
  lemma Advance(start: Client, labels: seq<Step>, s: Client, i: nat, to: R.Pc, l: R.Step)
    returns (longer: seq<Step>, r: Client)
    requires Run(start, labels, s) && i < |s.rx.loops| && Quiet(l)
    requires R.Next(s.rx, l) == Some(s.rx.(loops := s.rx.loops[i := to]))
    ensures Run(start, longer, r) && r == s.(rx := s.rx.(loops := s.rx.loops[i := to]))
  {
    longer, r := Take(UnstartedNext, start, labels, s, Receives(l));
  }

  /** Receiver loop `i`, current and new, connects. */
  lemma Connect(start: Client, labels: seq<Step>, s: Client, i: nat) returns (longer: seq<Step>, r: Client)
    requires Run(start, labels, s) && i < |s.rx.loops| && s.rx.current == Some(i) && s.rx.loops[i].LoopTest?
    ensures Run(start, longer, r)
    ensures r == s.(rx := s.rx.(loops := s.rx.loops[i := R.Streaming]),
                    hb := s.hb.(beats := s.hb.beats + [s.hb.now], current := Some(|s.hb.loops|),
                                  loops := s.hb.loops + [H.LoopTest]))
  {
    longer, r := Advance(start, labels, s, i, R.Committed, R.Test(i));
    longer, r := Advance(start, longer, r, i, R.Connecting, R.Begin(i));
    longer, r := Advance(start, longer, r, i, R.Connected, R.Connect(i, true));
    longer, r := Take(UnstartedNext, start, longer, r, Announces(i));
  }

  /** Connected loop `i`, current, loses its stream and passes its last check. */
  lemma PassLastCheck(start: Client, labels: seq<Step>, s: Client, i: nat) returns (longer: seq<Step>, r: Client)
    requires Run(start, labels, s) && i < |s.rx.loops| && s.rx.current == Some(i) && s.rx.loops[i].Streaming?
    ensures Run(start, longer, r) && r == s.(rx := s.rx.(loops := s.rx.loops[i := R.Firing(false)]))
  {
    longer, r := Take(UnstartedNext, start, labels, s, Receives(R.EndStream(i, false)));
    longer, r := Take(UnstartedNext, start, longer, r, Receives(R.CheckFinally(i)));
  }

  /** Checker loop `c` gets from one place to the next by itself. */
  lemma AdvanceChecker(start: Client, labels: seq<Step>, s: Client, c: nat, to: H.Pc, l: H.Step)
    returns (longer: seq<Step>, r: Client)
    requires Run(start, labels, s) && c < |s.hb.loops| && Private(l)
    requires H.Next(s.hb, l) == Some(s.hb.(loops := s.hb.loops[c := to]))
    ensures Run(start, longer, r) && r == s.(hb := s.hb.(loops := s.hb.loops[c := to]))
  {
    longer, r := Take(UnstartedNext, start, labels, s, Checks(l));
  }

  /** Checker loop `c`, current and new, waits for longer than the timeout. */
  lemma WaitLong(start: Client, labels: seq<Step>, s: Client, c: nat) returns (longer: seq<Step>, r: Client)
    requires Run(start, labels, s) && c < |s.hb.loops| && s.hb.current == Some(c) && s.hb.loops[c].LoopTest?
    ensures Run(start, longer, r)
    ensures r == s.(hb := s.hb.(now := s.hb.now + 121.0, loops := s.hb.loops[c := H.Waiting(s.hb.now)]))
  {
    longer, r := AdvanceChecker(start, labels, s, c, H.Arming, H.Test(c));
    longer, r := AdvanceChecker(start, longer, r, c, H.Waiting(s.hb.now), H.Park(c));
    longer, r := Take(UnstartedNext, start, longer, r, Checks(H.Tick(121.0)));
  }

  /** It finds that no heartbeat has come and enters its handler. */
  lemma Alarm(start: Client, labels: seq<Step>, s: Client, c: nat) returns (longer: seq<Step>, r: Client)
    requires Run(start, labels, s) && c < |s.hb.loops| && s.hb.current == Some(c) && s.hb.loops[c].Waiting?
    requires s.hb.beats != [] && s.hb.now - H.LastBeat(s.hb) > s.hb.timeout
    ensures Run(start, longer, r) && r.rx == s.rx && r.restarting == s.restarting
    ensures r.hb.current == s.hb.current && r.hb.loops == s.hb.loops[c := H.Calling]
  {
    var at, seen := s.hb.now, |s.hb.beats|;
    longer, r := AdvanceChecker(start, labels, s, c, H.Measured(at, seen), H.Wake(c));
    longer, r := AdvanceChecker(start, longer, r, c, H.Alarming(at, seen), H.Recheck(c));
    longer, r := Take(UnstartedNext, start, longer, r, Checks(H.CallHandler(c)));
  }

  /** The alarm's handler restarts the receiver. */
  lemma Restart(start: Client, labels: seq<Step>, s: Client, c: nat) returns (longer: seq<Step>, r: Client)
    requires Run(start, labels, s) && c < |s.hb.loops| && s.hb.loops[c].Calling? && s.restarting == {}
    ensures Run(start, longer, r) && r.restarting == {}
    ensures r.rx == R.Receiver(Some(|s.rx.loops|), s.rx.loops + [R.LoopTest])
  {
    longer, r := Take(UnstartedNext, start, labels, s, RestartClears(c));
    longer, r := Take(UnstartedNext, start, longer, r, RestartLaunches(c));
  }

  // ---------------------------------------------------------------- without that atomicity

  /** Loop 0 is about to disconnect while the alarm's handler runs. */
  lemma DisconnectMeetsAlarm() returns (labels: seq<Step>, s: Client)
    ensures Run(Started(), labels, s)
    ensures s.rx == R.Receiver(Some(0), [R.Firing(false)])
    ensures s.hb.current == Some(0) && s.hb.loops == [H.Calling] && s.restarting == {}
  {
    labels, s := [], Started();
    labels, s := Connect(Started(), labels, s, 0);
    labels, s := WaitLong(Started(), labels, s, 0);
    labels, s := Alarm(Started(), labels, s, 0);
    labels, s := PassLastCheck(Started(), labels, s, 0);
  }

  /** The alarm restarts the receiver and loop 1 connects, all before loop 0 makes its disconnected call. */
  lemma ReconnectsBeforeDisconnect() returns (labels: seq<Step>, s: Client)
    ensures Run(Started(), labels, s)
    ensures s.rx == R.Receiver(Some(1), [R.Firing(false), R.Streaming]) && s.hb.current.Some?
  {
    labels, s := DisconnectMeetsAlarm();
    labels, s := Restart(Started(), labels, s, 0);
    labels, s := Connect(Started(), labels, s, 1);
  }

  /**
   Without that atomicity it fails: loop 0's stream ends after the alarm has gone off and it
   passes its last check; the alarm restarts the receiver, loop 1 connects and is monitored,
   and then loop 0 makes its disconnected call.
   */
  lemma DelayedDisconnectLeavesUnmonitored() returns (labels: seq<Step>, s: Client)
    ensures Exec(Next, Initial(120.0, 0.0), [ClientStart] + labels) == Some(s)
    ensures CurrentLive(s) && s.hb.current.None?
  {
    labels, s := ReconnectsBeforeDisconnect();
    labels, s := Take(UnstartedNext, Started(), labels, s, Disconnects(0));
    UnstartedIsRun(Started(), labels);
    assert ([ClientStart] + labels)[1..] == labels;
  }

  // ---------------------------------------------------------------- a stopped client that comes back

  /** The client is started and connects, and its checker has waited long. */
  lemma ConnectsAndHearsNothing() returns (labels: seq<Step>, s: Client)
    ensures Run(Started(), labels, s) && CurrentLive(s) && s.restarting == {}
    ensures s.rx == R.Receiver(Some(0), [R.Streaming])
    ensures s.hb.current == Some(0) && |s.hb.loops| == 1 && s.hb.loops[0].Waiting?
    ensures s.hb.beats != [] && s.hb.now - H.LastBeat(s.hb) > s.hb.timeout
  {
    labels, s := [], Started();
    labels, s := Connect(Started(), labels, s, 0);
    labels, s := WaitLong(Started(), labels, s, 0);
  }

  /**
   The client is started, connects and is stopped; then its alarm goes off and, with nobody
   starting the client again, makes receiver loop 1 the current one.
   */
  lemma StoppedClientComesBack() returns (before: seq<Step>, running: Client, after: seq<Step>, s: Client)
    ensures Exec(Next, Initial(120.0, 0.0), [ClientStart] + before) == Some(running) && CurrentLive(running)
    ensures Exec(UnstartedNext, Next(running, ClientStop).value, after) == Some(s)
    ensures s.rx.current == Some(1)
  {
    before, running := ConnectsAndHearsNothing();
    UnstartedIsRun(Started(), before);
    assert ([ClientStart] + before)[1..] == before;
    var stopped := Next(running, ClientStop).value;
    after, s := Alarm(stopped, [], stopped, 0);
    after, s := Restart(stopped, after, s, 0);
  }
}
