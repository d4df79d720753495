/**
 The event receiver, the heartbeat checker and the client that connects them, as the objects
 they are. As for the queues, `trace` is every step taken so far, by any thread, and `Valid`
 says that these steps are a run of the machine that ends in the fields as they are.
 */
module EventClasses {
  import opened Runs
  import R = Receiving
  import H = Heartbeats
  import E = Events

  // ---------------------------------------------------------------- the receiver

  datatype Incoming = Parsable | Garbled

  /** What one connection attempt meets: whether it connects, what the connected handler does, and the stream. */
  datatype Attempt = Attempt(connects: bool, announces: bool, events: seq<Incoming>, streamRaises: bool)

  /** The step is the one to take in this attempt, when so many events have come. */
  predicate Heeds(attempt: Attempt, came: nat, l: R.Step) {
    match l
    case Connect(_, ok) => ok == attempt.connects
    case Announce(_, ok) => ok == attempt.announces
    case Event(_) => came < |attempt.events|
    case Deliver(_) => 0 < came <= |attempt.events| && attempt.events[came - 1].Parsable?
    case Unparsable(_) => 0 < came <= |attempt.events| && attempt.events[came - 1].Garbled?
    case EndStream(_, raised) => came == |attempt.events| && raised == attempt.streamRaises
    case _ => true
  }

  /**
   What a loop has done: how many attempts it began, how many events came in the last of them, how
   many it handed on in all, and whether each step in its n-th attempt was the one to take in
   `attempts(n)`.
   */
  datatype Tally = Tally(begun: nat, came: nat, handedOn: nat, heeded: bool)

  function Add(attempts: nat -> Attempt, t: Tally, l: R.Step): Tally {
    var heeds := t.begun > 0 ==> Heeds(attempts(t.begun - 1), t.came, l);
    match l
    case Begin(_) => Tally(t.begun + 1, 0, t.handedOn, t.heeded && heeds)
    case Event(_) => t.(came := t.came + 1, heeded := t.heeded && heeds)
    case Deliver(_) => t.(handedOn := t.handedOn + 1, heeded := t.heeded && heeds)
    case _ => t.(heeded := t.heeded && heeds)
  }

  /** What loop `i` has done by these steps of all threads. */
  function TallyOf(attempts: nat -> Attempt, i: nat, labels: seq<R.Step>): Tally {
    if labels == [] then Tally(0, 0, 0, true)
    else
      var t, l := TallyOf(attempts, i, labels[..|labels| - 1]), labels[|labels| - 1];
      if R.Of(l, i) then Add(attempts, t, l) else t
  }

  lemma TallyOn(attempts: nat -> Attempt, i: nat, labels: seq<R.Step>, l: R.Step)
    requires R.Of(l, i)
    ensures TallyOf(attempts, i, labels + [l]) == Add(attempts, TallyOf(attempts, i, labels), l)
  {
    assert (labels + [l])[..|labels|] == labels;
  }

  /** Steps of other threads add nothing. */
  lemma {:induction false} TallySince(attempts: nat -> Attempt, i: nat, past: seq<R.Step>, labels: seq<R.Step>)
    requires past <= labels && R.WithoutLoop(labels[|past|..], i)
    ensures TallyOf(attempts, i, labels) == TallyOf(attempts, i, past)
    decreases |labels|
  {
    if |labels| > |past| {
      var shorter := labels[..|labels| - 1];
      assert labels[|past|..][|labels| - 1 - |past|] == labels[|labels| - 1];
      forall k | 0 <= k < |shorter[|past|..]|
        ensures !R.Of(shorter[|past|..][k], i)
      {
        assert shorter[|past|..][k] == labels[|past|..][k];
      }
      TallySince(attempts, i, past, shorter);
    } else {
      assert labels == past;
    }
  }

  /** How many of the events can be parsed. */
  function Parsables(events: seq<Incoming>): nat {
    if events == [] then 0
    else Parsables(events[..|events| - 1]) + if events[|events| - 1].Parsable? then 1 else 0
  }

  lemma ParsablesOn(events: seq<Incoming>, k: nat)
    requires k < |events|
    ensures Parsables(events[..k + 1]) == Parsables(events[..k]) + if events[k].Parsable? then 1 else 0
  {
    assert events[..k + 1][..k] == events[..k];
  }

  class SSEClientReceiver {
    var currentLoopId: Option<nat>
    // where each receiver thread is
    var loops: seq<R.Pc>
    ghost var trace: seq<R.Step>

    ghost function State(): R.Receiver
      reads this
    {
      R.Receiver(currentLoopId, loops)
    }

    ghost predicate Valid()
      reads this
    {
      && Exec(R.Next, R.Initial(), trace) == Some(State())
      && (currentLoopId.Some? ==> currentLoopId.value < |loops|)
    }

    constructor ()
      ensures Valid() && trace == [] && State() == R.Initial()
    {
      currentLoopId, loops, trace := None, [], [];
    }

    ghost method Commit(before: R.Receiver, l: R.Step)
      requires Exec(R.Next, R.Initial(), trace) == Some(before) && R.Next(before, l) == Some(State())
      requires currentLoopId.Some? ==> currentLoopId.value < |loops|
      modifies this`trace
      ensures Valid() && trace == old(trace) + [l]
    {
      Then(R.Next, R.Initial(), trace, before, l);
      trace := trace + [l];
    }

    method StartReceiverThread() returns (loopId: nat)
      requires Valid()
      modifies this
      ensures Valid() && trace == old(trace) + [R.Launch]
      ensures loopId == |old(loops)| && currentLoopId == Some(loopId) && loops == old(loops) + [R.LoopTest]
    {
      ghost var before := State();
      loopId := |loops|;
      currentLoopId, loops := Some(loopId), loops + [R.LoopTest];
      Commit(before, R.Launch);
    }

    method Stop()
      requires Valid()
      modifies this
      ensures Valid() && trace == old(trace) + [R.Clear] && currentLoopId.None? && loops == old(loops)
    {
      ghost var before := State();
      currentLoopId := None;
      Commit(before, R.Clear);
    }

    /** Any threads take any number of steps, between two of a caller's. */
    method AnyoneSteps()
      requires Valid()
      modifies this
      ensures Valid() && old(trace) <= trace
    {
    }

    /** restart(): the loop that was current, and every other one so far, is stale from here on. */
    method Restart() returns (loopId: nat)
      requires Valid()
      modifies this
      ensures Valid() && old(trace) < trace && trace[|old(trace)|] == R.Clear && trace[|trace| - 1] == R.Launch
      ensures |old(loops)| <= loopId && currentLoopId == Some(loopId) && |loops| == loopId + 1
      ensures forall i :: 0 <= i < |old(loops)| ==> R.Stale(State(), i)
    {
      Stop();
      ghost var before, past := State(), trace;
      AnyoneSteps();
      Since(R.Next, R.Initial(), past, before, trace);
      R.LoopsGrow(before, trace[|past|..]);
      loopId := StartReceiverThread();
    }

    /** Thread `i` gets from one place to the next. */
    method Move(i: nat, to: R.Pc, ghost l: R.Step)
      requires Valid() && i < |loops| && R.Next(State(), l) == Some(R.Receiver(currentLoopId, loops[i := to]))
      modifies this`loops, this`trace
      ensures Valid() && trace == old(trace) + [l] && loops == old(loops)[i := to]
    {
      ghost var before := State();
      loops := loops[i := to];
      Commit(before, l);
    }

    /**
     The other threads take any number of steps, of any kind. This body takes none; callers may
     rely only on the promise that none is a step of loop `i`.
     */
    method OthersStep(i: nat)
      requires Valid()
      modifies this
      ensures Valid() && old(trace) <= trace && R.WithoutLoop(trace[|old(trace)|..], i)
    {
    }

    /** What `OthersStep` leaves of what loop `i` relies on: ids are never used again. */
    method Others(i: nat, ghost attempts: nat -> Attempt)
      requires Valid() && i < |loops|
      modifies this
      ensures Valid() && old(trace) <= trace && R.KeptFor(old(State()), State(), i)
      ensures TallyOf(attempts, i, trace) == old(TallyOf(attempts, i, trace))
    {
      ghost var before, past := State(), trace;
      OthersStep(i);
      TallySince(attempts, i, past, trace);
      Since(R.Next, R.Initial(), past, before, trace);
      R.OthersKeep(before, trace[|past|..], i);
    }

    /** The same as `Move`, and what it adds to the tally of the loop. */
    method MoveOn(i: nat, to: R.Pc, ghost l: R.Step, ghost attempts: nat -> Attempt, ghost t: Tally)
      requires Valid() && i < |loops| && R.Of(l, i)
      requires R.Next(State(), l) == Some(R.Receiver(currentLoopId, loops[i := to]))
      requires TallyOf(attempts, i, trace) == t
      modifies this`loops, this`trace
      ensures Valid() && trace == old(trace) + [l] && loops == old(loops)[i := to]
      ensures TallyOf(attempts, i, trace) == Add(attempts, t, l)
    {
      TallyOn(attempts, i, trace, l);
      Move(i, to, l);
    }

    /** An event comes, and the loop sees whether it is still current; if not, it leaves the stream. */
    method SeeEvent(i: nat, ghost attempts: nat -> Attempt, ghost t: Tally) returns (current: bool)
      requires Valid() && i < |loops| && loops[i].Streaming? && TallyOf(attempts, i, trace) == t
      requires t.heeded && t.begun > 0 && t.came < |attempts(t.begun - 1).events|
      modifies this
      ensures Valid() && old(trace) <= trace && i < |loops|
      ensures TallyOf(attempts, i, trace) == t.(came := t.came + 1)
      ensures if current then loops[i].Accepted? else loops[i] == R.Finally(true, false) && currentLoopId != Some(i)
      ensures old(currentLoopId) != Some(i) ==> currentLoopId != Some(i) && !current
    {
      MoveOn(i, R.GotEvent, R.Event(i), attempts, t);
      Others(i, attempts);
      current := currentLoopId == Some(i);
      if current {
        MoveOn(i, R.Accepted, R.Check(i), attempts, t.(came := t.came + 1));
      } else {
        MoveOn(i, R.Finally(true, false), R.Check(i), attempts, t.(came := t.came + 1));
      }
    }

    /**
     The next event of the stream. If the loop is found superseded, the stream is left; otherwise
     the event is handed on exactly if it can be parsed.
     */
    method TakeEvent(i: nat, event: Incoming, ghost attempts: nat -> Attempt, ghost t: Tally) returns (delivered: bool)
      requires Valid() && i < |loops| && loops[i].Streaming?
      requires TallyOf(attempts, i, trace) == t && t.heeded && t.begun > 0
      requires t.came < |attempts(t.begun - 1).events| && attempts(t.begun - 1).events[t.came] == event
      modifies this
      ensures Valid() && old(trace) <= trace && i < |loops|
      ensures TallyOf(attempts, i, trace)
              == t.(came := t.came + 1, handedOn := t.handedOn + if delivered then 1 else 0)
      ensures if loops[i].Streaming? then delivered == event.Parsable?
              else loops[i] == R.Finally(true, false) && !delivered && currentLoopId != Some(i)
      ensures old(currentLoopId) != Some(i) ==> currentLoopId != Some(i) && !loops[i].Streaming?
    {
      delivered := false;
      Others(i, attempts);
      var current := SeeEvent(i, attempts, t);
      if !current { return; }
      Others(i, attempts);
      delivered := event.Parsable?;
      MoveOn(i, R.Streaming, if delivered then R.Deliver(i) else R.Unparsable(i), attempts, t.(came := t.came + 1));
    }

    /**
     The stream, up to its end or the loop's being superseded. At its end, every event that can be
     parsed has been handed on, once.
     */
    method ConsumeEvents(i: nat, attempt: Attempt, ghost attempts: nat -> Attempt, ghost t: Tally)
      returns (delivered: nat, atEnd: bool, ghost u: Tally)
      requires Valid() && i < |loops| && loops[i].Streaming? && TallyOf(attempts, i, trace) == t && t.heeded
      requires t.begun > 0 && attempt == attempts(t.begun - 1) && t.came == 0
      modifies this
      ensures Valid() && old(trace) <= trace && i < |loops| && TallyOf(attempts, i, trace) == u
      ensures u == Tally(t.begun, u.came, t.handedOn + delivered, true)
      ensures if atEnd
              then loops[i] == (if attempt.streamRaises then R.Raised(true) else R.Finally(true, false))
                   && delivered == Parsables(attempt.events)
              else loops[i] == R.Finally(true, false) && currentLoopId != Some(i)
      ensures old(currentLoopId) != Some(i) ==> currentLoopId != Some(i) && delivered == 0
    {
      delivered, atEnd, u := HandOnEvents(i, attempt, attempts, t);
      if atEnd {
        EndOfStream(i, attempt, attempts, u);
      }
    }

    /** The loop over the stream. */
    method HandOnEvents(i: nat, attempt: Attempt, ghost attempts: nat -> Attempt, ghost t: Tally)
      returns (delivered: nat, atEnd: bool, ghost u: Tally)
      requires Valid() && i < |loops| && loops[i].Streaming? && TallyOf(attempts, i, trace) == t && t.heeded
      requires t.begun > 0 && attempt == attempts(t.begun - 1) && t.came == 0
      modifies this
      ensures Valid() && old(trace) <= trace && i < |loops| && TallyOf(attempts, i, trace) == u
      ensures u == Tally(t.begun, u.came, t.handedOn + delivered, true)
      ensures if atEnd
              then loops[i].Streaming? && u.came == |attempt.events| && delivered == Parsables(attempt.events)
              else loops[i] == R.Finally(true, false) && currentLoopId != Some(i)
      ensures old(currentLoopId) != Some(i) ==> currentLoopId != Some(i) && delivered == 0
    {
      delivered, u := 0, t;
      for k := 0 to |attempt.events|
        invariant Valid() && old(trace) <= trace && i < |loops| && loops[i].Streaming?
        invariant TallyOf(attempts, i, trace) == u && u == Tally(t.begun, k, t.handedOn + delivered, true)
        invariant delivered == Parsables(attempt.events[..k])
        invariant old(currentLoopId) != Some(i) ==> currentLoopId != Some(i) && delivered == 0
      {
        ParsablesOn(attempt.events, k);
        var one := TakeEvent(i, attempt.events[k], attempts, u);
        delivered := delivered + if one then 1 else 0;
        u := Tally(t.begun, k + 1, t.handedOn + delivered, true);
        if !loops[i].Streaming? { return delivered, false, u; }
      }
      assert attempt.events[..|attempt.events|] == attempt.events;
      atEnd := true;
    }

    method EndOfStream(i: nat, attempt: Attempt, ghost attempts: nat -> Attempt, ghost t: Tally)
      requires Valid() && i < |loops| && loops[i].Streaming? && TallyOf(attempts, i, trace) == t && t.heeded
      requires t.begun > 0 && attempt == attempts(t.begun - 1) && t.came == |attempt.events|
      modifies this
      ensures Valid() && old(trace) <= trace && i < |loops| && TallyOf(attempts, i, trace) == t
      ensures loops[i] == if attempt.streamRaises then R.Raised(true) else R.Finally(true, false)
      ensures old(currentLoopId) != Some(i) ==> currentLoopId != Some(i)
    {
      Others(i, attempts);
      if attempt.streamRaises {
        MoveOn(i, R.Raised(true), R.EndStream(i, true), attempts, t);
      } else {
        MoveOn(i, R.Finally(true, false), R.EndStream(i, false), attempts, t);
      }
    }

    /** Calls the connected handler, and unless it raises consumes the stream. */
    method AnnounceAndConsume(i: nat, attempt: Attempt, ghost attempts: nat -> Attempt, ghost t: Tally)
      returns (delivered: nat, ghost u: Tally)
      requires Valid() && i < |loops| && loops[i].Connected? && TallyOf(attempts, i, trace) == t && t.heeded
      requires t.begun > 0 && attempt == attempts(t.begun - 1) && t.came == 0
      modifies this
      ensures Valid() && old(trace) <= trace && i < |loops| && TallyOf(attempts, i, trace) == u
      ensures u == Tally(t.begun, u.came, t.handedOn + delivered, true)
      ensures loops[i] == R.Finally(true, false) || loops[i].Raised?
      ensures old(currentLoopId) != Some(i) ==> currentLoopId != Some(i) && delivered == 0
    {
      delivered, u := 0, t;
      Others(i, attempts);
      if attempt.announces {
        MoveOn(i, R.Streaming, R.Announce(i, true), attempts, t);
        var atEnd;
        delivered, atEnd, u := ConsumeEvents(i, attempt, attempts, t);
      } else {
        MoveOn(i, R.Raised(false), R.Announce(i, false), attempts, t);
      }
    }

    /** An attempt begins, and the connection is made or not. */
    method BeginAttempt(i: nat, attempt: Attempt, ghost attempts: nat -> Attempt, ghost t: Tally)
      requires Valid() && i < |loops| && (loops[i].Committed? || loops[i].RetrySleep?)
      requires TallyOf(attempts, i, trace) == t && t.heeded && attempt == attempts(t.begun)
      modifies this
      ensures Valid() && old(trace) <= trace && i < |loops|
      ensures TallyOf(attempts, i, trace) == Tally(t.begun + 1, 0, t.handedOn, true)
      ensures loops[i] == if attempt.connects then R.Connected else R.Raised(false)
      ensures old(currentLoopId) != Some(i) ==> currentLoopId != Some(i)
    {
      Others(i, attempts);
      MoveOn(i, R.Connecting, R.Begin(i), attempts, t);
      Others(i, attempts);
      MoveOn(i, if attempt.connects then R.Connected else R.Raised(false), R.Connect(i, attempt.connects), attempts,
             Tally(t.begun + 1, 0, t.handedOn, true));
    }

    /** The try block: one attempt, which connects, announces and consumes. */
    method Connect(i: nat, attempt: Attempt, ghost attempts: nat -> Attempt, ghost t: Tally)
      returns (delivered: nat, ghost u: Tally)
      requires Valid() && i < |loops| && (loops[i].Committed? || loops[i].RetrySleep?)
      requires TallyOf(attempts, i, trace) == t && t.heeded && attempt == attempts(t.begun)
      modifies this
      ensures Valid() && old(trace) <= trace && i < |loops| && TallyOf(attempts, i, trace) == u
      ensures u == Tally(t.begun + 1, u.came, t.handedOn + delivered, true)
      ensures loops[i] == R.Finally(true, false) || loops[i].Raised?
      ensures old(currentLoopId) != Some(i) ==> currentLoopId != Some(i) && delivered == 0
    {
      BeginAttempt(i, attempt, attempts, t);
      delivered, u := 0, Tally(t.begun + 1, 0, t.handedOn, true);
      if attempt.connects {
        delivered, u := AnnounceAndConsume(i, attempt, attempts, u);
      }
    }

    /** The except clause: only the current loop fails, and so is tried again. */
    method Except(i: nat, ghost attempts: nat -> Attempt, ghost t: Tally) returns (failed: bool)
      requires Valid() && i < |loops| && loops[i].Raised? && TallyOf(attempts, i, trace) == t
      modifies this`loops, this`trace
      ensures Valid() && old(trace) <= trace && i < |loops| && TallyOf(attempts, i, trace) == t
      ensures failed == (currentLoopId == Some(i))
      ensures loops == old(loops)[i := R.Finally(old(loops)[i].announced, failed)]
    {
      failed := currentLoopId == Some(i);
      MoveOn(i, R.Finally(loops[i].announced, failed), R.Except(i), attempts, t);
    }

    /** The check in the finally clause: whether the loop is current, or none is. */
    method CheckLast(i: nat, ghost attempts: nat -> Attempt, ghost t: Tally) returns (fires: bool)
      requires Valid() && i < |loops| && loops[i].Finally? && TallyOf(attempts, i, trace) == t
      modifies this`loops, this`trace
      ensures Valid() && old(trace) <= trace && i < |loops| && TallyOf(attempts, i, trace) == t
      ensures fires == (currentLoopId == Some(i) || currentLoopId.None?)
      ensures var retry := old(loops)[i].retry;
              loops == old(loops)[i := if fires then R.Firing(retry) else R.AfterFinally(retry)]
    {
      fires := currentLoopId == Some(i) || currentLoopId.None?;
      var retry := loops[i].retry;
      MoveOn(i, if fires then R.Firing(retry) else R.AfterFinally(retry), R.CheckFinally(i), attempts, t);
    }

    /** The finally clause: the disconnected handler is called by the current loop, or if there is none. */
    method RunFinally(i: nat, ghost attempts: nat -> Attempt, ghost t: Tally) returns (called: bool)
      requires Valid() && i < |loops| && loops[i].Finally? && TallyOf(attempts, i, trace) == t
      modifies this
      ensures Valid() && old(trace) <= trace && i < |loops| && TallyOf(attempts, i, trace) == t
      ensures called == (old(currentLoopId) == Some(i) || old(currentLoopId).None?)
      ensures loops[i] == R.AfterFinally(old(loops)[i].retry)
      ensures old(currentLoopId) != Some(i) ==> currentLoopId != Some(i)
    {
      called := CheckLast(i, attempts, t);
      if called {
        Others(i, attempts);
        MoveOn(i, R.AfterFinally(loops[i].retry), R.Fire(i), attempts, t);
      }
    }

    /** What follows the try block: a failure, to be tried again, is one of the current loop. */
    method Finish(i: nat, ghost attempts: nat -> Attempt, ghost t: Tally) returns (failed: bool)
      requires Valid() && i < |loops| && (loops[i] == R.Finally(true, false) || loops[i].Raised?)
      requires TallyOf(attempts, i, trace) == t
      modifies this
      ensures Valid() && old(trace) <= trace && i < |loops| && TallyOf(attempts, i, trace) == t
      ensures loops[i] == if failed then R.RetrySleep else R.LoopTest
      ensures old(currentLoopId) != Some(i) ==> currentLoopId != Some(i) && !failed
    {
      failed := false;
      Others(i, attempts);
      if loops[i].Raised? {
        failed := Except(i, attempts, t);
      }
      Others(i, attempts);
      var called := RunFinally(i, attempts, t);
    }

    /** _connect_and_consume_events, with its repetitions after a failure, `watched` attempts at most. */
    method ConnectAndConsume(i: nat, attempts: nat -> Attempt, made: nat, watched: nat, ghost t: Tally)
      returns (left: nat, delivered: nat, failed: bool, ghost u: Tally)
      requires Valid() && i < |loops| && loops[i].Committed? && TallyOf(attempts, i, trace) == t && t.heeded
      requires t.begun == made && watched > 0
      modifies this
      ensures Valid() && old(trace) <= trace && i < |loops| && TallyOf(attempts, i, trace) == u
      ensures left < watched && u == Tally(made + (watched - left), u.came, t.handedOn + delivered, true)
      ensures if failed then loops[i].RetrySleep? && left == 0 else loops[i].LoopTest?
      ensures old(currentLoopId) != Some(i) ==> currentLoopId != Some(i) && delivered == 0
    {
      left, delivered, failed, u := watched, 0, true, t;
      while failed && left > 0
        invariant Valid() && old(trace) <= trace && i < |loops| && TallyOf(attempts, i, trace) == u && left <= watched
        invariant u == Tally(made + (watched - left), u.came, t.handedOn + delivered, true)
        invariant if !failed then left < watched && loops[i].LoopTest?
                  else if left == watched then loops[i].Committed? else loops[i].RetrySleep?
        invariant old(currentLoopId) != Some(i) ==> currentLoopId != Some(i) && delivered == 0
        decreases left
      {
        var more;
        more, u := Connect(i, attempts(made + (watched - left)), attempts, u);
        left := left - 1;
        delivered := delivered + more;
        failed := Finish(i, attempts, u);
      }
    }

    /** One round of the loop, begun as the current one. */
    method Round(i: nat, attempts: nat -> Attempt, made: nat, watched: nat, ghost t: Tally)
      returns (left: nat, delivered: nat, failed: bool, ghost u: Tally)
      requires Valid() && i < |loops| && loops[i].LoopTest? && currentLoopId == Some(i)
      requires TallyOf(attempts, i, trace) == t && t.heeded && t.begun == made && watched > 0
      modifies this
      ensures Valid() && old(trace) <= trace && i < |loops| && TallyOf(attempts, i, trace) == u
      ensures left < watched && u == Tally(made + (watched - left), u.came, t.handedOn + delivered, true)
      ensures if failed then loops[i].RetrySleep? && left == 0 else loops[i].LoopTest?
    {
      TestLoop(i, attempts, t);
      left, delivered, failed, u := ConnectAndConsume(i, attempts, made, watched, t);
      Others(i, attempts);
    }

    /**
     _run_receiver, as the thread just created runs it, followed until it exits or for `watched`
     attempts, the repeated ones after a failure included. Every step heeds `attempts`, and what
     it says it delivered it handed on. Superseded before it looks, it exits having delivered
     nothing.
     */
    method RunReceiver(i: nat, attempts: nat -> Attempt, watched: nat) returns (left: nat, delivered: nat)
      requires Valid() && i < |loops| && loops[i].LoopTest? && R.WithoutLoop(trace, i)
      modifies this
      ensures Valid() && old(trace) <= trace && i < |loops| && left <= watched
      ensures var t := TallyOf(attempts, i, trace); t == Tally(watched - left, t.came, delivered, true)
      ensures left > 0 ==> loops[i].Exited?
      ensures old(currentLoopId) != Some(i) ==> loops[i].Exited? && delivered == 0
    {
      left, delivered := watched, 0;
      ghost var u := Tally(0, 0, 0, true);
      TallySince(attempts, i, [], trace);
      Others(i, attempts);
      while currentLoopId == Some(i) && left > 0
        invariant Valid() && old(trace) <= trace && i < |loops| && loops[i].LoopTest? && left <= watched
        invariant TallyOf(attempts, i, trace) == u && u == Tally(watched - left, u.came, delivered, true)
        invariant old(currentLoopId) != Some(i) ==> currentLoopId != Some(i) && delivered == 0
        decreases left
      {
        var more, failed;
        left, more, failed, u := Round(i, attempts, watched - left, left, u);
        delivered := delivered + more;
        if failed { return; }
      }
      if currentLoopId != Some(i) {
        TestLoop(i, attempts, u);
      }
    }

    /** The loop sees whether it is current, and goes on or exits. */
    method TestLoop(i: nat, ghost attempts: nat -> Attempt, ghost t: Tally)
      requires Valid() && i < |loops| && loops[i].LoopTest? && TallyOf(attempts, i, trace) == t
      modifies this
      ensures Valid() && old(trace) <= trace && i < |loops| && TallyOf(attempts, i, trace) == t
      ensures loops[i] == if old(currentLoopId) == Some(i) then R.Committed else R.Exited
      ensures old(currentLoopId) != Some(i) ==> currentLoopId != Some(i)
    {
      MoveOn(i, if currentLoopId == Some(i) then R.Committed else R.Exited, R.Test(i), attempts, t);
      Others(i, attempts);
    }
  }

  // ---------------------------------------------------------------- the watchdog

  /** What a checker loop has done: how often it looked whether it is current, and how often it called the handler. */
  datatype Watch = Watch(rounds: nat, alarms: nat)

  function WatchOf(i: nat, labels: seq<H.Step>): Watch {
    if labels == [] then Watch(0, 0)
    else
      var w, l := WatchOf(i, labels[..|labels| - 1]), labels[|labels| - 1];
      if l == H.Test(i) then w.(rounds := w.rounds + 1)
      else if l == H.CallHandler(i) then w.(alarms := w.alarms + 1)
      else w
  }

  lemma WatchOn(i: nat, labels: seq<H.Step>, l: H.Step)
    ensures var w := WatchOf(i, labels);
            WatchOf(i, labels + [l]) ==
            Watch(w.rounds + if l == H.Test(i) then 1 else 0, w.alarms + if l == H.CallHandler(i) then 1 else 0)
  {
    assert (labels + [l])[..|labels|] == labels;
  }

  /** Steps of other threads, and time, add nothing. */
  lemma {:induction false} WatchSince(i: nat, past: seq<H.Step>, labels: seq<H.Step>)
    requires past <= labels && H.WithoutLoop(labels[|past|..], i)
    ensures WatchOf(i, labels) == WatchOf(i, past)
    decreases |labels|
  {
    if |labels| > |past| {
      var shorter := labels[..|labels| - 1];
      assert labels[|past|..][|labels| - 1 - |past|] == labels[|labels| - 1];
      forall k | 0 <= k < |shorter[|past|..]|
        ensures !H.Of(shorter[|past|..][k], i)
      {
        assert shorter[|past|..][k] == labels[|past|..][k];
      }
      WatchSince(i, past, shorter);
    } else {
      assert labels == past;
    }
  }

  class HeartbeatChecker {
    const timeout: real
    const created: real
    var lastHeartbeat: real
    var currentLoopId: Option<nat>
    // the clock, where each checker thread is, and the past
    var now: real
    var loops: seq<H.Pc>
    var beats: seq<real>
    var calls: seq<H.Call>
    ghost var trace: seq<H.Step>

    ghost function State(): H.Checker
      reads this
    {
      H.Checker(timeout, now, beats, currentLoopId, loops, calls)
    }

    ghost predicate Valid()
      reads this
    {
      && Exec(H.Next, H.Initial(timeout, created), trace) == Some(State())
      && beats != [] && lastHeartbeat == H.LastBeat(State())
      && (currentLoopId.Some? ==> currentLoopId.value < |loops|)
    }

    constructor (timeout: real, now: real)
      ensures Valid() && trace == [] && State() == H.Initial(timeout, now)
      ensures this.timeout == timeout && created == now
    {
      this.timeout, created, this.now, lastHeartbeat := timeout, now, now, now;
      currentLoopId, loops, beats, calls, trace := None, [], [now], [], [];
    }

    ghost method Commit(before: H.Checker, l: H.Step)
      requires Exec(H.Next, H.Initial(timeout, created), trace) == Some(before) && H.Next(before, l) == Some(State())
      requires beats != [] && lastHeartbeat == H.LastBeat(State())
      requires currentLoopId.Some? ==> currentLoopId.value < |loops|
      modifies this`trace
      ensures Valid() && trace == old(trace) + [l]
    {
      Then(H.Next, H.Initial(timeout, created), trace, before, l);
      trace := trace + [l];
    }

    method Start() returns (loopId: nat)
      requires Valid()
      modifies this
      ensures Valid() && trace == old(trace) + [H.Start]
      ensures H.Next(old(State()), H.Start) == Some(State())
      ensures currentLoopId == Some(loopId) && lastHeartbeat == now
    {
      ghost var before := State();
      lastHeartbeat, beats := now, beats + [now];
      loopId := |loops|;
      currentLoopId, loops := Some(loopId), loops + [H.LoopTest];
      Commit(before, H.Start);
    }

    /** heartbeat_received(), which also wakes the waiting loops. */
    method HeartbeatReceived()
      requires Valid()
      modifies this
      ensures Valid() && trace == old(trace) + [H.Beat]
      ensures H.Next(old(State()), H.Beat) == Some(State()) && lastHeartbeat == now
    {
      ghost var before := State();
      lastHeartbeat, beats := now, beats + [now];
      Commit(before, H.Beat);
    }

    /** The first half of stop(); the second is heartbeat_received(). */
    method ClearLoopId()
      requires Valid()
      modifies this
      ensures Valid() && trace == old(trace) + [H.Stop]
      ensures H.Next(old(State()), H.Stop) == Some(State())
    {
      ghost var before := State();
      currentLoopId := None;
      Commit(before, H.Stop);
    }

    /** Thread `i` gets from one place to the next. */
    method Move(i: nat, to: H.Pc, ghost l: H.Step)
      requires Valid() && i < |loops| && H.Next(State(), l) == Some(State().(loops := loops[i := to]))
      modifies this`loops, this`trace
      ensures Valid() && trace == old(trace) + [l] && loops == old(loops)[i := to]
      ensures WatchOf(i, trace) ==
              if l == H.Test(i) then old(WatchOf(i, trace)).(rounds := old(WatchOf(i, trace)).rounds + 1)
              else old(WatchOf(i, trace))
    {
      WatchOn(i, trace, l);
      ghost var before := State();
      loops := loops[i := to];
      Commit(before, l);
    }

    method CallHandler(i: nat)
      requires Valid() && i < |loops| && loops[i].Alarming?
      modifies this
      ensures Valid() && trace == old(trace) + [H.CallHandler(i)]
      ensures H.Next(old(State()), H.CallHandler(i)) == Some(State())
      ensures loops == old(loops)[i := H.Calling] && currentLoopId == old(currentLoopId)
      ensures WatchOf(i, trace) == old(WatchOf(i, trace)).(alarms := old(WatchOf(i, trace)).alarms + 1)
    {
      WatchOn(i, trace, H.CallHandler(i));
      ghost var before := State();
      calls := calls + [H.Call(i, now, loops[i].at, loops[i].seen)];
      loops := loops[i := H.Calling];
      Commit(before, H.CallHandler(i));
    }

    /**
     Time passes, heartbeats come and the other threads take any number of steps, of any kind.
     This body does nothing; callers may rely only on the promise that none is a step of loop `i`.
     */
    method OthersStep(i: nat)
      requires Valid()
      modifies this
      ensures Valid() && old(trace) <= trace && H.WithoutLoop(trace[|old(trace)|..], i)
    {
    }

    /** What `OthersStep` leaves of what loop `i` relies on. */
    method Others(i: nat)
      requires Valid() && i < |loops|
      modifies this
      ensures Valid() && old(trace) <= trace && H.KeptFor(old(State()), State(), i)
      ensures WatchOf(i, trace) == old(WatchOf(i, trace))
    {
      ghost var before, past := State(), trace;
      OthersStep(i);
      WatchSince(i, past, trace);
      Since(H.Next, H.Initial(timeout, created), past, before, trace);
      H.OthersKeep(before, trace[|past|..], i);
    }

    /** Waits, and measures how long ago the last heartbeat came. */
    method WaitAndMeasure(i: nat) returns (elapsed: real)
      requires Valid() && i < |loops| && loops[i].Arming?
      modifies this
      ensures Valid() && old(trace) <= trace && i < |loops|
      ensures loops[i].Measured? && 0 < loops[i].seen <= |beats|
      ensures elapsed == loops[i].at - beats[loops[i].seen - 1] && WatchOf(i, trace) == old(WatchOf(i, trace))
      ensures old(currentLoopId) != Some(i) ==> currentLoopId != Some(i)
    {
      Move(i, H.Waiting(now), H.Park(i));
      Others(i);
      elapsed := now - lastHeartbeat;
      Move(i, H.Measured(now, |beats|), H.Wake(i));
    }

    /** Calls the handler, once, and comes back from it. */
    method Alarm(i: nat)
      requires Valid() && i < |loops| && loops[i].Alarming?
      modifies this
      ensures Valid() && old(trace) <= trace && i < |loops| && loops[i].LoopTest?
      ensures WatchOf(i, trace) == old(WatchOf(i, trace)).(alarms := old(WatchOf(i, trace)).alarms + 1)
      ensures old(currentLoopId) != Some(i) ==> currentLoopId != Some(i)
    {
      Others(i);
      CallHandler(i);
      Others(i);
      Move(i, H.LoopTest, H.Return(i));
    }

    /** One round of the loop; whether it has ended, and whether it called the handler. */
    method Round(i: nat) returns (ended: bool, called: bool)
      requires Valid() && i < |loops| && loops[i].Arming?
      modifies this
      ensures Valid() && old(trace) <= trace && i < |loops|
      ensures if ended then loops[i].Exited? else loops[i].LoopTest?
      ensures WatchOf(i, trace) ==
              old(WatchOf(i, trace)).(alarms := old(WatchOf(i, trace)).alarms + if called then 1 else 0)
      ensures old(currentLoopId) != Some(i) ==> ended && !called
    {
      var elapsed := WaitAndMeasure(i);
      Others(i);
      if currentLoopId != Some(i) {
        Move(i, H.Exited, H.Recheck(i));
        return true, false;
      }
      ended, called := false, elapsed > timeout;
      if called {
        Move(i, H.Alarming(loops[i].at, loops[i].seen), H.Recheck(i));
        Alarm(i);
      } else {
        Move(i, H.LoopTest, H.Recheck(i));
      }
    }

    /**
     _run_heartbeat_checker, followed until it exits or for `watched` rounds. Superseded before
     it looks, it exits without calling the handler.
     */
    method RunHeartbeatChecker(i: nat, watched: nat) returns (left: nat, alarms: nat)
      requires Valid() && i < |loops| && loops[i].LoopTest?
      modifies this
      ensures Valid() && old(trace) <= trace && i < |loops|
      ensures left > 0 ==> loops[i].Exited?
      ensures old(currentLoopId) != Some(i) ==> loops[i].Exited? && alarms == 0
      ensures left <= watched && WatchOf(i, trace).rounds >= old(WatchOf(i, trace)).rounds + (watched - left)
      ensures WatchOf(i, trace).alarms == old(WatchOf(i, trace)).alarms + alarms
    {
      left, alarms := watched, 0;
      Others(i);
      while currentLoopId == Some(i) && left > 0
        invariant Valid() && old(trace) <= trace && i < |loops| && loops[i].LoopTest?
        invariant old(currentLoopId) != Some(i) ==> currentLoopId != Some(i) && alarms == 0
        invariant left <= watched && WatchOf(i, trace).rounds == old(WatchOf(i, trace)).rounds + (watched - left)
        invariant WatchOf(i, trace).alarms == old(WatchOf(i, trace)).alarms + alarms
        decreases left
      {
        Move(i, H.Arming, H.Test(i));
        Others(i);
        var ended, called := Round(i);
        alarms := alarms + if called then 1 else 0;
        if ended { return; }
        left := left - 1;
        Others(i);
      }
      if currentLoopId != Some(i) {
        Move(i, H.Exited, H.Test(i));
      }
    }
  }

  // ---------------------------------------------------------------- the client

  datatype EventType = Heartbeat | Welcome | WorkAvailable | Goodbye | Unexpected

  /** What a delivered event makes the client call. */
  datatype Called = Nothing | TheChecker | TheWorkHandler | TheGoodbyeHandler

  class EventsClient {
    const receiver: SSEClientReceiver
    const checker: HeartbeatChecker
    var stopped: bool
    var hasWorkHandler: bool
    var hasGoodbyeHandler: bool
    ghost var restarting: set<nat>
    ghost var trace: seq<E.Step>

    ghost function State(): E.Client
      reads this, receiver, checker
    {
      E.Client(receiver.State(), checker.State(), restarting)
    }

    ghost predicate Valid()
      reads this, receiver, checker
    {
      && receiver.Valid() && checker.Valid()
      && Exec(E.Next, E.Initial(checker.timeout, checker.created), trace) == Some(State())
    }

    constructor (timeout: real, now: real)
      ensures Valid() && trace == [] && State() == E.Initial(timeout, now) && stopped
      ensures fresh(receiver) && fresh(checker)
    {
      receiver := new SSEClientReceiver();
      checker := new HeartbeatChecker(timeout, now);
      stopped, hasWorkHandler, hasGoodbyeHandler := true, false, false;
      restarting, trace := {}, [];
    }

    ghost method Commit(before: E.Client, l: E.Step)
      requires receiver.Valid() && checker.Valid()
      requires Exec(E.Next, E.Initial(checker.timeout, checker.created), trace) == Some(before)
      requires E.Next(before, l) == Some(State())
      modifies this`trace
      ensures Valid() && trace == old(trace) + [l]
    {
      Then(E.Next, E.Initial(checker.timeout, checker.created), trace, before, l);
      trace := trace + [l];
    }

    method Start(withGoodbye: bool)
      requires Valid()
      modifies this, receiver
      ensures Valid() && trace == old(trace) + [E.ClientStart] && !stopped
      ensures receiver.currentLoopId == Some(|old(receiver.loops)|)
    {
      ghost var before := State();
      hasWorkHandler, hasGoodbyeHandler, stopped := true, withGoodbye, false;
      var loopId := receiver.StartReceiverThread();
      Commit(before, E.ClientStart);
    }

    /** stop(): the receiver's loops die out; the checker is not stopped here. */
    method Stop()
      requires Valid()
      modifies this, receiver
      ensures Valid() && trace == old(trace) + [E.ClientStop] && stopped && !hasWorkHandler && !hasGoodbyeHandler
      ensures receiver.currentLoopId.None? && checker.State() == old(checker.State())
    {
      ghost var before := State();
      stopped, hasWorkHandler, hasGoodbyeHandler := true, false, false;
      receiver.Stop();
      Commit(before, E.ClientStop);
    }

    /** The first half of restart(), called by checker loop `c`. */
    method RestartClears(c: nat)
      requires Valid() && c < |checker.loops| && checker.loops[c].Calling? && c !in restarting
      modifies this`restarting, this`trace, receiver
      ensures Valid() && trace == old(trace) + [E.RestartClears(c)] && restarting == old(restarting) + {c}
      ensures receiver.loops == old(receiver.loops) && receiver.currentLoopId.None?
      ensures checker.State() == old(checker.State())
    {
      ghost var before := State();
      receiver.Stop();
      restarting := restarting + {c};
      Commit(before, E.RestartClears(c));
    }

    /** The second half, and the return to the checker's loop. */
    method RestartLaunches(c: nat)
      requires Valid() && c < |checker.loops| && checker.loops[c].Calling? && c in restarting
      modifies this, receiver, checker
      ensures Valid() && trace == old(trace) + [E.RestartLaunches(c)] && restarting == old(restarting) - {c}
      ensures receiver.currentLoopId == Some(|old(receiver.loops)|) && |receiver.loops| == |old(receiver.loops)| + 1
      ensures checker.State() == old(checker.State()).(loops := old(checker.loops)[c := H.LoopTest])
    {
      ghost var before := State();
      var loopId := receiver.StartReceiverThread();
      checker.Move(c, H.LoopTest, H.Return(c));
      restarting := restarting - {c};
      Commit(before, E.RestartLaunches(c));
    }

    /**
     The other threads take any number of steps, of any kind. This body takes none; callers may
     rely only on the promise that none is a step of checker loop `c` or of its handler.
     */
    method OthersStep(c: nat)
      requires Valid()
      modifies this, receiver, checker
      ensures Valid() && old(trace) <= trace && E.WithoutChecker(trace[|old(trace)|..], c)
    {
    }

    method Others(c: nat)
      requires Valid()
      modifies this, receiver, checker
      ensures Valid() && old(trace) <= trace && E.KeptFor(old(State()), State(), c)
    {
      ghost var before, past := State(), trace;
      OthersStep(c);
      Since(E.Next, E.Initial(checker.timeout, checker.created), past, before, trace);
      E.OthersKeep(before, trace[|past|..], c);
    }

    /** Any threads take any number of steps, between two of a receiver loop's. */
    method AnyoneSteps()
      requires Valid()
      modifies this, receiver, checker
      ensures Valid() && old(trace) <= trace
    {
    }

    /** The alarm of checker loop `c` restarts the receiver. It does not look at `stopped`. */
    method Reconnect(c: nat)
      requires Valid() && c < |checker.loops| && checker.loops[c].Calling? && c !in restarting
      modifies this, receiver, checker
      ensures Valid() && old(trace) < trace && trace[|old(trace)|] == E.RestartClears(c)
      ensures trace[|trace| - 1] == E.RestartLaunches(c) && c !in restarting
      ensures receiver.currentLoopId.Some? && receiver.currentLoopId.value == |receiver.loops| - 1
      ensures c < |checker.loops| && checker.loops[c].LoopTest?
    {
      RestartClears(c);
      Others(c);
      RestartLaunches(c);
    }

    /** Receiver loop `i` hands on an event it has checked. */
    method EventReceived(i: nat, kind: EventType) returns (called: Called)
      requires Valid() && i < |receiver.loops| && receiver.loops[i].Accepted?
      modifies this, receiver, checker
      ensures Valid() && trace == old(trace) + [E.Delivers(i, kind.Heartbeat?)]
      ensures kind.Heartbeat? ==> called == TheChecker && checker.lastHeartbeat == checker.now
      ensures !kind.Heartbeat? ==> checker.State() == old(checker.State())
      ensures called == TheWorkHandler <==> kind.WorkAvailable? && hasWorkHandler
      ensures called == TheGoodbyeHandler <==> kind.Goodbye? && hasGoodbyeHandler
      ensures stopped == old(stopped) && receiver.currentLoopId == old(receiver.currentLoopId)
    {
      ghost var before := State();
      called := Nothing;
      match kind {
        case Heartbeat =>
          checker.HeartbeatReceived();
          called := TheChecker;
        case WorkAvailable =>
          if hasWorkHandler { called := TheWorkHandler; }
        case Goodbye =>
          if hasGoodbyeHandler { called := TheGoodbyeHandler; }
        case _ =>
      }
      receiver.Move(i, R.Streaming, R.Deliver(i));
      Commit(before, E.Delivers(i, kind.Heartbeat?));
    }

    /** Receiver loop `i` has connected: from here on it is monitored. */
    method ReceiverConnected(i: nat)
      requires Valid() && i < |receiver.loops| && receiver.loops[i].Connected?
      modifies this, receiver, checker
      ensures Valid() && trace == old(trace) + [E.Announces(i)]
      ensures checker.currentLoopId.Some? && checker.lastHeartbeat == checker.now
      ensures receiver.loops == old(receiver.loops)[i := R.Streaming]
    {
      ghost var before := State();
      var loopId := checker.Start();
      receiver.Move(i, R.Streaming, R.Announce(i, true));
      Commit(before, E.Announces(i));
    }

    /** The first half of stopping the checker. */
    method DisconnectClears(i: nat)
      requires Valid() && i < |receiver.loops| && receiver.loops[i].Firing?
      modifies this`trace, receiver, checker
      ensures Valid() && trace == old(trace) + [E.Disconnects(i)]
      ensures checker.currentLoopId.None? && receiver.currentLoopId == old(receiver.currentLoopId)
    {
      ghost var before := State();
      checker.ClearLoopId();
      receiver.Move(i, R.AfterFinally(receiver.loops[i].retry), R.Fire(i));
      Commit(before, E.Disconnects(i));
    }

    /** Receiver loop `i`, which found itself current or stopped, has disconnected. */
    method ReceiverDisconnected(i: nat)
      requires Valid() && i < |receiver.loops| && receiver.loops[i].Firing?
      modifies this, receiver, checker
      ensures Valid() && old(trace) < trace && trace[|old(trace)|] == E.Disconnects(i)
      ensures trace[|trace| - 1] == E.Checks(H.Beat) && checker.lastHeartbeat == checker.now
    {
      DisconnectClears(i);
      AnyoneSteps();
      ghost var before := State();
      checker.HeartbeatReceived();
      Commit(before, E.Checks(H.Beat));
    }
  }
}
