/**
 The log handler as the object it is: its buffer updated in place under its lock by any thread,
 and each thread's own mark that it is inside emit().

 `trace` is every act so far, by any thread; `Valid` says that these acts are a run of the
 machine `LogShipping` that ends in the fields as they are.
 */
module LogHandlers {
  import opened Runs
  import opened Jsonable
  import opened LogBuffer
  import opened LogShipping
  import opened BoundedDeques

  // ---------------------------------------------------------------- the overflow warning

  /** A number in decimal notation. */
  function Decimal(n: nat): string {
    (if n < 10 then "" else Decimal(n / 10)) + ["0123456789"[n % 10]]
  }

  const BEFORE_COUNT := "In-process log buffer overflow: "
  const AFTER_COUNT := " oldest records dropped"

  function Warning(now: string, dropped: nat): Fields {
    map[TIMESTAMP := Str(now), MESSAGE := Str(BEFORE_COUNT + Decimal(dropped) + AFTER_COUNT)]
  }

  function DigitOf(c: char): nat {
    if '0' <= c <= '9' then (c - '0') as nat else 0
  }

  /** The number a decimal notation stands for. */
  function Reading(digits: string): nat {
    if digits == "" then 0 else 10 * Reading(digits[..|digits| - 1]) + DigitOf(digits[|digits| - 1])
  }

  lemma {:induction false} DecimalReadsBack(n: nat)
    ensures Reading(Decimal(n)) == n
  {
    if n >= 10 {
      DecimalReadsBack(n / 10);
      assert Decimal(n)[..|Decimal(n)| - 1] == Decimal(n / 10);
    }
  }

  /** A record with a timestamp and a message, off whose text the count can be read. */
  ghost predicate TellsCount(record: Fields, now: string, dropped: nat) {
    && record.Keys == {TIMESTAMP, MESSAGE} && record[TIMESTAMP] == Str(now) && record[MESSAGE].Str?
    && var text := record[MESSAGE].s;
       |text| >= |BEFORE_COUNT| + |AFTER_COUNT|
       && text[..|BEFORE_COUNT|] == BEFORE_COUNT && text[|text| - |AFTER_COUNT|..] == AFTER_COUNT
       && Reading(text[|BEFORE_COUNT|..|text| - |AFTER_COUNT|]) == dropped
  }

  /** The count can be read off the warning's text: different losses make different warnings. */
  lemma WarningTellsCount(now: string, dropped: nat)
    ensures TellsCount(Warning(now, dropped), now, dropped)
  {
    var text := Warning(now, dropped)[MESSAGE].s;
    assert text[|BEFORE_COUNT|..|text| - |AFTER_COUNT|] == Decimal(dropped);
    DecimalReadsBack(dropped);
  }

  // ---------------------------------------------------------------- the handler

  class InProcessLogShippingHandler {
    const setup: Setup
    const buffer: BoundedDeque<Fields>
    var droppedCount: nat
    var inEmit: map<nat, LogRecord>
    ghost var appended: seq<Fields>
    ghost var batches: seq<Batch<Fields>>
    ghost var sources: seq<(LogRecord, string)>
    ghost var trace: seq<Act>

    ghost function State(): Shipper
      requires buffer.Valid()
      reads this, buffer, buffer.slots
    {
      Shipper(inEmit, Log(buffer.slots.Length, buffer.Contents(), droppedCount, appended, batches), sources)
    }

    ghost predicate Valid()
      reads this, buffer, buffer.slots
    {
      buffer.Valid() && Exec(Doing(setup), Opened(buffer.slots.Length), trace) == Some(State())
    }

    constructor (setup: Setup, bufferSize: nat)
      ensures Valid() && fresh(buffer) && fresh(buffer.slots)
      ensures trace == [] && this.setup == setup && buffer.slots.Length == bufferSize
    {
      this.setup := setup;
      buffer := new BoundedDeque(bufferSize);
      droppedCount, inEmit := 0, map[];
      appended, batches, sources, trace := [], [], [], [];
    }

    /** The fields have just been changed by one act of the machine. */
    ghost method Commit(before: Shipper, a: Act)
      requires buffer.Valid()
      requires Exec(Doing(setup), Opened(buffer.slots.Length), trace) == Some(before)
      requires Does(setup, before, a) == Some(State())
      modifies this`trace
      ensures Valid() && trace == old(trace) + [a]
    {
      Then(Doing(setup), Opened(buffer.slots.Length), trace, before, a);
      trace := trace + [a];
    }

    /** How often the thread has appended a record, and how often it has left emit() at all. */
    ghost function Ships(thread: nat): nat
      reads this
    {
      Count(IsShip(thread), trace)
    }

    ghost function Leavings(thread: nat): nat
      reads this
    {
      Count(IsLeaving(thread), trace)
    }

    // ---------------------------------------------------------------- emitting

    /** Marks the thread as inside emit(), unless it already is. */
    method Enter(thread: nat, record: LogRecord) returns (entered: bool)
      requires Valid()
      modifies this
      ensures Valid() && trace == old(trace) + [Act.Emit(thread, record)]
      ensures entered == (thread !in old(inEmit))
      ensures State() == if entered then old(State()).(emitting := old(inEmit)[thread := record]) else old(State())
    {
      ghost var before := State();
      entered := thread !in inEmit;
      if entered {
        inEmit := inEmit[thread := record];
      }
      Commit(before, Act.Emit(thread, record));
    }

    /** The region under the lock, and leaving emit(). */
    method Append(thread: nat, message: string)
      requires Valid() && thread in inEmit
      modifies this, buffer, buffer.slots
      ensures Valid() && trace == old(trace) + [Ship(thread, message)]
      ensures Does(setup, old(State()), Ship(thread, message)) == Some(State())
      ensures appended == old(appended) + [Shape(setup, old(inEmit)[thread], message)]
      ensures sources == old(sources) + [(old(inEmit)[thread], message)]
    {
      ghost var before := State();
      var shipped := Shape(setup, inEmit[thread], message);
      if buffer.len == buffer.slots.Length {
        droppedCount := droppedCount + 1;
      }
      buffer.Append(shipped);
      appended, sources := appended + [shipped], sources + [(inEmit[thread], message)];
      inEmit := inEmit - {thread};
      Commit(before, Ship(thread, message));
    }

    /** handleError(), and leaving emit(). */
    method GiveUp(thread: nat)
      requires Valid() && thread in inEmit
      modifies this
      ensures Valid() && trace == old(trace) + [Fail(thread)]
      ensures State() == old(State()).(emitting := old(inEmit) - {thread})
    {
      ghost var before := State();
      inEmit := inEmit - {thread};
      Commit(before, Fail(thread));
    }

    /**
     The other threads take any number of acts, and this one may log and be turned away. This
     body takes none; callers may rely only on the promise that none is this thread's leaving
     its emit().
     */
    method OthersAct(thread: nat)
      requires Valid()
      modifies this, buffer, buffer.slots
      ensures Valid() && old(trace) <= trace && WithoutThread(trace[|old(trace)|..], thread)
    {
    }

    /** What `OthersAct` leaves of what an emitting thread relies on. */
    method Others(thread: nat)
      requires Valid() && thread in inEmit
      modifies this, buffer, buffer.slots
      ensures Valid() && old(trace) <= trace && KeptFor(old(State()), State(), thread)
      ensures Leavings(thread) == old(Leavings(thread)) && Ships(thread) == old(Ships(thread))
    {
      ghost var before, past := State(), trace;
      OthersAct(thread);
      Since(Doing(setup), Opened(buffer.slots.Length), past, before, trace);
      OthersKeep(setup, before, trace[|past|..], thread);
      CountNone(IsLeaving(thread), trace[|past|..]);
      CountNone(IsShip(thread), trace[|past|..]);
      assert trace == past + trace[|past|..];
      CountConcat(IsLeaving(thread), past, trace[|past|..]);
      CountConcat(IsShip(thread), past, trace[|past|..]);
    }

    /** Any threads take any number of acts, while this one waits for the lock. */
    method AnyoneActs()
      requires Valid()
      modifies this, buffer, buffer.slots
      ensures Valid() && old(trace) <= trace
    {
    }

    /** emit(): appended once, if the record could be formatted and coerced; a record logged from within is not. */
    method Emit(thread: nat, record: LogRecord, formatted: Option<string>)
      requires Valid()
      modifies this, buffer, buffer.slots
      ensures Valid() && old(trace) < trace && trace[|old(trace)|] == Act.Emit(thread, record)
      ensures thread in old(inEmit) ==> State() == old(State())
      ensures thread !in old(inEmit) ==> thread !in inEmit
      ensures thread !in old(inEmit) && formatted.Some? ==>
                && trace[|trace| - 1] == Ship(thread, formatted.value)
                && old(sources) < sources && old(appended) < appended
                && sources[|sources| - 1] == (record, formatted.value)
                && appended[|appended| - 1] == Shape(setup, record, formatted.value)
      ensures thread !in old(inEmit) && formatted.None? ==> trace[|trace| - 1] == Fail(thread)
      ensures old(sources) <= sources && old(appended) <= appended
      ensures thread !in old(inEmit) ==> Leavings(thread) == old(Leavings(thread)) + 1
      ensures Ships(thread) == old(Ships(thread)) + if thread !in old(inEmit) && formatted.Some? then 1 else 0
    {
      CountConcat(IsLeaving(thread), trace, [Act.Emit(thread, record)]);
      CountConcat(IsShip(thread), trace, [Act.Emit(thread, record)]);
      var entered := Enter(thread, record);
      if !entered { return; }
      Others(thread);
      ghost var last := if formatted.Some? then Ship(thread, formatted.value) else Fail(thread);
      CountConcat(IsLeaving(thread), trace, [last]);
      CountConcat(IsShip(thread), trace, [last]);
      match formatted
      case Some(message) => Append(thread, message);
      case None => GiveUp(thread);
    }

    // ---------------------------------------------------------------- taking records out

    /**
     drain(): everything buffered when the lock is got, behind a warning if anything was lost.
     Both start over, and this is the batch that the account of losses has for it.
     */
    method Drain(now: string) returns (records: seq<Fields>)
      requires Valid()
      modifies this, buffer, buffer.slots
      ensures Valid() && old(trace) < trace && trace[|trace| - 1] == DrainLog
      ensures old(batches) < batches
      ensures var batch := batches[|batches| - 1];
              var warnings := if batch.warned > 0 then 1 else 0;
              && |records| == warnings + |batch.records| && records[warnings..] == batch.records
              && (warnings == 1 ==> TellsCount(records[0], now, batch.warned))
      ensures records == Returning(now, batches[|batches| - 1])
      ensures buffer.Contents() == [] && droppedCount == 0
    {
      ghost var before, past := State(), trace;
      AnyoneActs();
      Since(Doing(setup), Opened(buffer.slots.Length), past, before, trace);
      PastStays(setup, before, trace[|past|..]);
      records := DrainUnderLock(now);
    }

    /** One warning if anything was lost, and none otherwise. */
    method WarnOfLoss(now: string) returns (warnings: seq<Fields>)
      ensures |warnings| == if droppedCount > 0 then 1 else 0
      ensures droppedCount > 0 ==> TellsCount(warnings[0], now, droppedCount)
      ensures warnings == if droppedCount > 0 then [Warning(now, droppedCount)] else []
    {
      warnings := [];
      if droppedCount > 0 {
        warnings := [Warning(now, droppedCount)];
        WarningTellsCount(now, droppedCount);
      }
    }

    /** The region under the lock. */
    method DrainUnderLock(now: string) returns (records: seq<Fields>)
      requires Valid()
      modifies this, buffer
      ensures Valid() && trace == old(trace) + [DrainLog]
      ensures Does(setup, old(State()), DrainLog) == Some(State())
      ensures batches == old(batches) + [Batch(old(droppedCount), old(buffer.Contents()))]
      ensures var warnings := if old(droppedCount) > 0 then 1 else 0;
              && |records| == warnings + |old(buffer.Contents())| && records[warnings..] == old(buffer.Contents())
              && (warnings == 1 ==> TellsCount(records[0], now, old(droppedCount)))
      ensures records == Returning(now, Batch(old(droppedCount), old(buffer.Contents())))
      ensures buffer.Contents() == [] && droppedCount == 0
    {
      ghost var before := State();
      records := WarnOfLoss(now);
      ghost var batch := Batch(droppedCount, buffer.Contents());
      droppedCount := 0;
      var all := buffer.Copy(buffer.len);
      records := records + all;
      buffer.Clear();
      batches := batches + [batch];
      Commit(before, DrainLog);
    }

    /** peek(): the oldest records when the lock is got, which stay where they are. */
    method Peek(limit: int) returns (records: seq<Fields>)
      requires Valid()
      modifies this, buffer, buffer.slots
      ensures Valid() && old(trace) < trace && trace[|trace| - 1] == PeekLog(limit)
      ensures records <= buffer.Contents()
      ensures |records| == if limit < 0 then 0 else if limit < buffer.len then limit else buffer.len
    {
      AnyoneActs();
      records := buffer.Copy(limit);
      Commit(State(), PeekLog(limit));
    }
  }

  /** What drain() returns for a batch. */
  function Returning(now: string, batch: Batch<Fields>): seq<Fields> {
    (if batch.warned > 0 then [Warning(now, batch.warned)] else []) + batch.records
  }

  /** The logs were posted once, unless there were none. */
  predicate Posted(before: seq<seq<Fields>>, after: seq<seq<Fields>>, logs: seq<Fields>) {
    after == before + if logs == [] then [] else [logs]
  }

  /**
   What that comes to: all records of the batch, in order, and before them one warning, with the
   number lost, exactly if some were lost; posted once, and not at all exactly if there is nothing.
   */
  lemma PostedIs(before: seq<seq<Fields>>, after: seq<seq<Fields>>, now: string, batch: Batch<Fields>)
    requires Posted(before, after, Returning(now, batch))
    ensures batch.warned == 0 && batch.records == [] ==> after == before
    ensures batch.warned > 0 || batch.records != [] ==>
              |after| == |before| + 1 && before < after && IsDrained(after[|before|], now, batch)
    ensures IsDrained(Returning(now, batch), now, batch)
  {
    if batch.warned > 0 {
      WarningTellsCount(now, batch.warned);
    }
  }

  /** All records of the batch, behind one warning if some were lost. */
  ghost predicate IsDrained(logs: seq<Fields>, now: string, batch: Batch<Fields>) {
    var warnings := if batch.warned > 0 then 1 else 0;
    && |logs| == warnings + |batch.records| && logs[warnings..] == batch.records
    && (warnings == 1 ==> TellsCount(logs[0], now, batch.warned))
  }
}
