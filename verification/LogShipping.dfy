/**
 From a logged record to a shipped one: the shape of what emit() buffers, and the emitting
 threads around the buffer.

 `str` is Python's str() and `redact` the standard redaction, both arbitrary here; which
 attributes every record carries depends on the Python version, so they are a parameter too.
 */
module LogShipping {
  import opened Runs
  import opened Jsonable
  import opened LogBuffer
  import opened Totals

  type Fields = map<string, Value>

  datatype LogRecord = LogRecord(created: string, attributes: Fields)

  datatype Setup = Setup(str: Value -> string, redact: Fields -> Fields, standard: set<string>, includeExtra: bool)

  const TIMESTAMP := "timestamp"
  const MESSAGE := "message"

  const RESERVED: set<string> := {
    "timestamp", "message", "agent_id", "instance_id", "log_type",
    "host", "status", "service", "source", "ddsource", "ddtags" }

  /** get_log_record_extra */
  function Extra(setup: Setup, record: LogRecord): Fields {
    var extra := map k | k in record.attributes && k !in setup.standard :: ToJsonable(setup.str, record.attributes[k]);
    if extra == map[] then map[] else setup.redact(extra)
  }

  /** What emit() buffers for a record, given its formatted message. */
  function Shape(setup: Setup, record: LogRecord, message: string): Fields {
    var shipped := map[TIMESTAMP := Str(record.created), MESSAGE := Str(message)];
    if !setup.includeExtra then shipped
    else
      var extra := Extra(setup, record);
      shipped + map k | k in extra && k !in RESERVED :: extra[k]
  }

  ghost predicate AllNative(fields: Fields) {
    forall k :: k in fields ==> Native(fields[k])
  }

  ghost predicate KeepsNative(redact: Fields -> Fields) {
    forall fields: Fields :: AllNative(fields) ==> AllNative(redact(fields))
  }

  /** Has the handler's own timestamp and message, no other reserved key, and native values only. */
  ghost predicate WellFormed(shipped: Fields, record: LogRecord, message: string) {
    && TIMESTAMP in shipped && shipped[TIMESTAMP] == Str(record.created)
    && MESSAGE in shipped && shipped[MESSAGE] == Str(message)
    && (forall k :: k in shipped && k in RESERVED ==> k == TIMESTAMP || k == MESSAGE)
    && AllNative(shipped)
  }

  /** However the caller named its extras, and whatever they hold, the shipped record is well formed. */
  lemma ShapeIsWellFormed(setup: Setup, record: LogRecord, message: string)
    requires KeepsNative(setup.redact)
    ensures WellFormed(Shape(setup, record, message), record, message)
    ensures !setup.includeExtra || Attached(setup, record) == map[] ==>
              Shape(setup, record, message).Keys == {TIMESTAMP, MESSAGE}
  {
    var coerced: Fields :=
      map k | k in record.attributes && k !in setup.standard :: ToJsonable(setup.str, record.attributes[k]);
    forall k | k in coerced
      ensures Native(coerced[k])
    {
      ToJsonableIsNative(setup.str, record.attributes[k]);
    }
    assert AllNative(coerced);
    assert AllNative(Extra(setup, record));
  }

  /** The attributes a caller attached, each coerced. */
  function Attached(setup: Setup, record: LogRecord): Fields {
    map k | k in record.attributes && k !in setup.standard :: ToJsonable(setup.str, record.attributes[k])
  }

  /**
   What of the caller's extras is shipped: exactly the keys of the redacted ones that are not
   reserved, each with its redacted value; redaction is never left out.
   */
  lemma ShapeShipsExtras(setup: Setup, record: LogRecord, message: string)
    requires setup.includeExtra && Attached(setup, record) != map[]
    ensures var redacted, shipped := setup.redact(Attached(setup, record)), Shape(setup, record, message);
            && (forall k :: k in shipped <==> k == TIMESTAMP || k == MESSAGE || (k in redacted && k !in RESERVED))
            && (forall k :: k in redacted && k !in RESERVED ==> k in shipped && shipped[k] == redacted[k])
  {
    assert Extra(setup, record) == setup.redact(Attached(setup, record));
  }

  // ---------------------------------------------------------------- the emitting threads

  /**
   `emitting` is the record each thread has inside emit(); `sources` records the past: what
   each appended record was made from.
   */
  datatype Shipper = Shipper(emitting: map<nat, LogRecord>, log: Log<Fields>, sources: seq<(LogRecord, string)>)

  datatype Act =
    | Emit(thread: nat, record: LogRecord)     // emit() is called
    | Ship(thread: nat, message: string)       // formatted: append under the lock, and return
    | Fail(thread: nat)                        // formatting or coercing raised: handleError, and return
    | DrainLog
    | PeekLog(limit: int)

  /** An emit() inside an emit() of the same thread returns at once. */
  function Does(setup: Setup, s: Shipper, a: Act): Option<Shipper> {
    match a
    case Emit(t, record) =>
      if t in s.emitting then Some(s) else Some(s.(emitting := s.emitting[t := record]))
    case Ship(t, message) =>
      if t !in s.emitting then None
      else
        var log := Next(s.log, Append(Shape(setup, s.emitting[t], message))).value;
        Some(Shipper(s.emitting - {t}, log, s.sources + [(s.emitting[t], message)]))
    case Fail(t) =>
      if t !in s.emitting then None else Some(s.(emitting := s.emitting - {t}))
    case DrainLog => Some(s.(log := Next(s.log, Drain).value))
    case PeekLog(limit) => Some(s.(log := Next(s.log, Peek(limit)).value))
  }

  function Opened(capacity: nat): Shipper {
    Shipper(map[], Empty(capacity), [])
  }

  ghost predicate Sound(setup: Setup, s: Shipper) {
    && LogBuffer.Inv(s.log)
    && |s.sources| == |s.log.appended|
    && (forall k :: 0 <= k < |s.sources| ==>
          s.log.appended[k] == Shape(setup, s.sources[k].0, s.sources[k].1))
  }

  lemma ActKeepsSound(setup: Setup, s: Shipper, a: Act)
    requires Sound(setup, s) && Does(setup, s, a).Some?
    ensures Sound(setup, Does(setup, s, a).value)
  {
    match a
    case Ship(t, message) => LogBuffer.StepKeepsInv(s.log, Append(Shape(setup, s.emitting[t], message)));
    case DrainLog => LogBuffer.StepKeepsInv(s.log, Drain);
    case _ =>
  }

  function Doing(setup: Setup): (Shipper, Act) -> Option<Shipper> {
    (s: Shipper, a: Act) => Does(setup, s, a)
  }

  lemma ReachableSound(setup: Setup, capacity: nat, acts: seq<Act>)
    requires Exec(Doing(setup), Opened(capacity), acts).Some?
    ensures Sound(setup, Exec(Doing(setup), Opened(capacity), acts).value)
  {
    forall s: Shipper, a: Act | Sound(setup, s) && Doing(setup)(s, a).Some?
      ensures Sound(setup, Doing(setup)(s, a).value)
    {
      ActKeepsSound(setup, s, a);
    }
    Invariant(Doing(setup), s => Sound(setup, s), Opened(capacity), acts);
  }

  /**
   In every reachable state each record still buffered, and each ever drained, is the
   well-formed shape of the record it was made from.
   */
  lemma EveryShippedRecordIsWellFormed(setup: Setup, capacity: nat, acts: seq<Act>, s: Shipper, k: nat)
    requires KeepsNative(setup.redact)
    requires Exec(Doing(setup), Opened(capacity), acts) == Some(s)
    requires k < |Delivered(s.log.batches, s.log.buffer)|
    ensures exists i :: 0 <= i < |s.sources| &&
              WellFormed(Delivered(s.log.batches, s.log.buffer)[k], s.sources[i].0, s.sources[i].1)
  {
    ReachableSound(setup, capacity, acts);
    var log := s.log;
    PositionsCount(0, log.batches, log.dropped, log.buffer);
    assert log.appended[0..] == log.appended;
    DeliveredAt(log.appended, 0, log.batches, log.dropped, log.buffer, k);
    var i := Positions(0, log.batches, log.dropped, log.buffer)[k];
    ShapeIsWellFormed(setup, s.sources[i].0, s.sources[i].1);
  }

  /** The step, if any, that an act is in the buffer. */
  function InLog(setup: Setup): (Shipper, Act) -> Option<LogBuffer.Step<Fields>> {
    (s: Shipper, a: Act) =>
      match a
      case Ship(t, message) => if t in s.emitting then Some(Append(Shape(setup, s.emitting[t], message))) else None
      case DrainLog => Some(Drain)
      case PeekLog(limit) => Some(Peek(limit))
      case _ => None
  }

  /**
   However the threads interleave, the buffer runs as the machine it is, so its losses are
   accounted for: nothing is lost, repeated or reordered but by its overflow, and by that
   exactly as often as the drained warnings, and the next one, say.
   */
  lemma EmittersLoseOnlyWhatIsCounted(setup: Setup, capacity: nat, acts: seq<Act>, s: Shipper)
    requires Exec(Doing(setup), Opened(capacity), acts) == Some(s)
    ensures var labels := Project(Doing(setup), InLog(setup), Opened(capacity), acts);
            && Exec(LogBuffer.Next, Empty(capacity), labels) == Some(s.log)
            && s.log.appended == Appended(labels)
            && Accounts(Appended(labels), s.log.batches, s.log.dropped, s.log.buffer)
            && |s.sources| == Sum(Returned, s.log.batches) + Sum(Warned, s.log.batches) + |s.log.buffer| + s.log.dropped
  {
    var labels := Project(Doing(setup), InLog(setup), Opened(capacity), acts);
    Projection(Doing(setup), (s: Shipper) => s.log, LogBuffer.Next, InLog(setup), Opened(capacity), acts);
    LossIsAccounted(capacity, labels, s.log);
    AppendedBy(Empty<Fields>(capacity), labels);
    assert [] + Appended(labels) == Appended(labels);
    ReachableSound(setup, capacity, acts);
  }

  // ---------------------------------------------------------------- interference

  /** An act by which thread `t` leaves the emit() it is in. */
  predicate LeavesEmit(a: Act, t: nat) {
    (a.Ship? || a.Fail?) && a.thread == t
  }

  function IsLeaving(t: nat): Act -> bool {
    (a: Act) => LeavesEmit(a, t)
  }

  /** An act by which thread `t` appends a record. */
  function IsShip(t: nat): Act -> bool {
    (a: Act) => a.Ship? && a.thread == t
  }

  /** Thread `t` does not leave the emit() it is in. */
  ghost predicate WithoutThread(acts: seq<Act>, t: nat) {
    forall k :: 0 <= k < |acts| ==> !LeavesEmit(acts[k], t)
  }

  /** What all other acts, also its own of logging from within, leave of what thread `t` relies on. */
  ghost predicate KeptFor(s: Shipper, r: Shipper, t: nat) {
    && (t in s.emitting ==> t in r.emitting && r.emitting[t] == s.emitting[t])
    && s.sources <= r.sources && s.log.appended <= r.log.appended && s.log.batches <= r.log.batches
  }

  lemma {:induction false} OthersKeep(setup: Setup, s: Shipper, acts: seq<Act>, t: nat)
    requires t in s.emitting && WithoutThread(acts, t) && Exec(Doing(setup), s, acts).Some?
    ensures KeptFor(s, Exec(Doing(setup), s, acts).value, t)
    decreases |acts|
  {
    if acts != [] {
      assert !LeavesEmit(acts[0], t) && WithoutThread(acts[1..], t);
      OthersKeep(setup, Does(setup, s, acts[0]).value, acts[1..], t);
    }
  }

  /** Whoever acts, the past stays as it is. */
  lemma {:induction false} PastStays(setup: Setup, s: Shipper, acts: seq<Act>)
    requires Exec(Doing(setup), s, acts).Some?
    ensures var r := Exec(Doing(setup), s, acts).value;
            s.sources <= r.sources && s.log.appended <= r.log.appended && s.log.batches <= r.log.batches
    decreases |acts|
  {
    if acts != [] {
      PastStays(setup, Does(setup, s, acts[0]).value, acts[1..]);
    }
  }
}
