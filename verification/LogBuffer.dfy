/**
 The bounded log buffer and its exact account of what it lost.

 Appends and drains happen under one lock, so any interleaving of emitting threads, periodic
 flushes and the shutdown drain is a sequence of them.
 */
module LogBuffer {
  import opened Runs
  import opened Totals

  /** One drain: how many records its overflow warning reports lost, and the records it returned. */
  datatype Batch<+R> = Batch(warned: nat, records: seq<R>)

  /** `appended` and `batches` record the past: every record appended, every drain. */
  datatype Log<+R> = Log(capacity: nat, buffer: seq<R>, dropped: nat, appended: seq<R>, batches: seq<Batch<R>>)

  datatype Step<+R> = Append(r: R) | Drain | Peek(limit: int)

  function Empty<R>(capacity: nat): Log<R> {
    Log(capacity, [], 0, [], [])
  }

  /** deque(maxlen=capacity).append: what does not fit falls off the old end. */
  function Push<R>(capacity: nat, buffer: seq<R>, r: R): seq<R> {
    var all := buffer + [r];
    if |all| > capacity then all[1..] else all
  }

  function Next<R>(log: Log<R>, l: Step<R>): Option<Log<R>> {
    match l
    case Append(r) =>
      Some(log.(dropped := if |log.buffer| == log.capacity then log.dropped + 1 else log.dropped,
                buffer := Push(log.capacity, log.buffer, r),
                appended := log.appended + [r]))
    case Drain =>
      Some(log.(buffer := [], dropped := 0, batches := log.batches + [Batch(log.dropped, log.buffer)]))
    case Peek(_) => Some(log)
  }

  // ---------------------------------------------------------------- the account

  /**
   The appended records are, in this order and with nothing left over: for each drain, as many
   lost records as its warning says and then the records it returned; then as many lost records
   as the next warning will say, and then the buffer.
   */
  ghost predicate Accounts<R>(appended: seq<R>, batches: seq<Batch<R>>, dropped: nat, buffer: seq<R>) {
    if batches == [] then
      |appended| == dropped + |buffer| && appended[dropped..] == buffer
    else
      var b := batches[0];
      var n := b.warned + |b.records|;
      && n <= |appended|
      && appended[b.warned..n] == b.records
      && Accounts(appended[n..], batches[1..], dropped, buffer)
  }

  ghost predicate Inv<R>(log: Log<R>) {
    && |log.buffer| <= log.capacity
    && (log.dropped > 0 ==> |log.buffer| == log.capacity)
    && Accounts(log.appended, log.batches, log.dropped, log.buffer)
  }

  lemma {:induction false} AccountsAppend<R>(
    appended: seq<R>, batches: seq<Batch<R>>, dropped: nat, buffer: seq<R>, r: R)
    requires Accounts(appended, batches, dropped, buffer)
    ensures Accounts(appended + [r], batches, dropped, buffer + [r])
    ensures Accounts(appended + [r], batches, dropped + 1, (buffer + [r])[1..])
  {
    if batches == [] {
      assert (appended + [r])[dropped..] == appended[dropped..] + [r];
      assert (appended + [r])[dropped + 1..] == (buffer + [r])[1..];
    } else {
      var n := batches[0].warned + |batches[0].records|;
      AccountsAppend(appended[n..], batches[1..], dropped, buffer, r);
      assert (appended + [r])[n..] == appended[n..] + [r];
      assert (appended + [r])[batches[0].warned..n] == appended[batches[0].warned..n];
    }
  }

  lemma {:induction false} AccountsDrain<R>(appended: seq<R>, batches: seq<Batch<R>>, dropped: nat, buffer: seq<R>)
    requires Accounts(appended, batches, dropped, buffer)
    ensures Accounts(appended, batches + [Batch(dropped, buffer)], 0, [])
  {
    var last := [Batch(dropped, buffer)];
    if batches == [] {
      assert batches + last == last;
      assert appended[dropped..dropped + |buffer|] == buffer;
      assert Accounts(appended[dropped + |buffer|..], [], 0, []);
      assert last[1..] == [];
    } else {
      var n := batches[0].warned + |batches[0].records|;
      AccountsDrain(appended[n..], batches[1..], dropped, buffer);
      assert (batches + last)[0] == batches[0];
      assert (batches + last)[1..] == batches[1..] + last;
    }
  }

  lemma StepKeepsInv<R>(log: Log<R>, l: Step<R>)
    requires Inv(log) && Next(log, l).Some?
    ensures Inv(Next(log, l).value)
  {
    match l
    case Append(r) => AccountsAppend(log.appended, log.batches, log.dropped, log.buffer, r);
    case Drain => AccountsDrain(log.appended, log.batches, log.dropped, log.buffer);
    case Peek(_) =>
  }

  // ---------------------------------------------------------------- what the account means

  /** Where in the appended records the drained ones, and then the buffered ones, stand. */
  function Positions<R>(from: nat, batches: seq<Batch<R>>, dropped: nat, buffer: seq<R>): seq<nat>
    decreases |batches|
  {
    if batches == [] then seq(|buffer|, k requires 0 <= k => from + dropped + k)
    else
      var b := batches[0];
      seq(|b.records|, k requires 0 <= k => from + b.warned + k)
      + Positions(from + b.warned + |b.records|, batches[1..], dropped, buffer)
  }

  /** Everything drained, warnings aside, in drain order, and then the buffer. */
  function Delivered<R>(batches: seq<Batch<R>>, buffer: seq<R>): seq<R>
    decreases |batches|
  {
    if batches == [] then buffer else batches[0].records + Delivered(batches[1..], buffer)
  }

  lemma {:induction false} PositionsCount<R>(from: nat, batches: seq<Batch<R>>, dropped: nat, buffer: seq<R>)
    ensures |Positions(from, batches, dropped, buffer)| == |Delivered(batches, buffer)|
    decreases |batches|
  {
    if batches != [] {
      PositionsCount(from + batches[0].warned + |batches[0].records|, batches[1..], dropped, buffer);
    }
  }

  /** The first batch's records stand after its losses, and all others after those. */
  lemma PositionAt<R>(from: nat, batches: seq<Batch<R>>, dropped: nat, buffer: seq<R>, k: nat)
    requires k < |Positions(from, batches, dropped, buffer)|
    ensures var at := Positions(from, batches, dropped, buffer)[k];
            if batches == [] then at == from + dropped + k
            else if k < |batches[0].records| then at == from + batches[0].warned + k
            else
              var n, m := batches[0].warned + |batches[0].records|, |batches[0].records|;
              at == Positions(from + n, batches[1..], dropped, buffer)[k - m]
  {
  }

  lemma {:induction false} PositionsGrow<R>(
    from: nat, batches: seq<Batch<R>>, dropped: nat, buffer: seq<R>, j: nat, k: nat)
    requires j <= k < |Positions(from, batches, dropped, buffer)|
    ensures var at := Positions(from, batches, dropped, buffer);
            from <= at[j] && (j < k ==> at[j] < at[k])
    decreases |batches|
  {
    PositionAt(from, batches, dropped, buffer, j);
    PositionAt(from, batches, dropped, buffer, k);
    if batches != [] && k >= |batches[0].records| {
      var m := |batches[0].records|;
      PositionsGrow(from + batches[0].warned + m, batches[1..], dropped, buffer, if j < m then k - m else j - m, k - m);
    }
  }

  /** The k-th delivered record is the one appended at the k-th position. */
  lemma {:induction false} DeliveredAt<R>(
    all: seq<R>, from: nat, batches: seq<Batch<R>>, dropped: nat, buffer: seq<R>, k: nat)
    requires from <= |all| && Accounts(all[from..], batches, dropped, buffer)
    requires k < |Positions(from, batches, dropped, buffer)| == |Delivered(batches, buffer)|
    ensures var at := Positions(from, batches, dropped, buffer)[k];
            at < |all| && all[at] == Delivered(batches, buffer)[k]
    decreases |batches|
  {
    PositionAt(from, batches, dropped, buffer, k);
    if batches == [] {
      assert all[from..][dropped..][k] == all[from + dropped + k];
    } else {
      var b := batches[0];
      var n, m := b.warned + |b.records|, |b.records|;
      if k < m {
        assert b.records[k] == all[from..][b.warned..n][k];
      } else {
        assert all[from..][n..] == all[from + n..];
        PositionsCount(from + n, batches[1..], dropped, buffer);
        DeliveredAt(all, from + n, batches[1..], dropped, buffer, k - m);
      }
    }
  }

  function Warned<R>(b: Batch<R>): nat { b.warned }

  function Returned<R>(b: Batch<R>): nat { |b.records| }

  lemma {:induction false} AccountsTotal<R>(appended: seq<R>, batches: seq<Batch<R>>, dropped: nat, buffer: seq<R>)
    requires Accounts(appended, batches, dropped, buffer)
    ensures |appended| == Sum(Returned, batches) + Sum(Warned, batches) + |buffer| + dropped
  {
    if batches != [] {
      AccountsTotal(appended[batches[0].warned + |batches[0].records|..], batches[1..], dropped, buffer);
    }
  }

  /** The records a run appends, in order. */
  function Appended<R>(labels: seq<Step<R>>): seq<R> {
    if labels == [] then []
    else (if labels[0].Append? then [labels[0].r] else []) + Appended(labels[1..])
  }

  lemma {:induction false} AppendedBy<R>(log: Log<R>, labels: seq<Step<R>>)
    requires Exec(Next, log, labels).Some?
    ensures Exec(Next, log, labels).value.appended == log.appended + Appended(labels)
    decreases |labels|
  {
    if labels != [] {
      AppendedBy(Next(log, labels[0]).value, labels[1..]);
    }
  }

  lemma ReachableInv<R(!new)>(capacity: nat, labels: seq<Step<R>>)
    requires Exec(Next, Empty(capacity), labels).Some?
    ensures Inv(Exec(Next, Empty(capacity), labels).value)
  {
    forall log: Log<R>, l: Step<R> | Inv(log) && Next(log, l).Some?
      ensures Inv(Next(log, l).value)
    {
      StepKeepsInv(log, l);
    }
    Invariant(Next, log => Inv(log), Empty(capacity), labels);
  }

  /**
   Loss is accounted exactly, for every capacity, zero included, and every interleaving: the
   drained batches and the buffer take up the appended records in order and without repeating
   any, each preceded by exactly as many lost records as its warning says, and the numbers add up.
   */
  lemma LossIsAccounted<R(!new)>(capacity: nat, labels: seq<Step<R>>, log: Log<R>)
    requires Exec(Next, Empty(capacity), labels) == Some(log)
    ensures Accounts(Appended(labels), log.batches, log.dropped, log.buffer)
    ensures var at := Positions(0, log.batches, log.dropped, log.buffer);
            var delivered := Delivered(log.batches, log.buffer);
            && |at| == |delivered|
            && (forall k :: 0 <= k < |at| ==> at[k] < |Appended(labels)| && Appended(labels)[at[k]] == delivered[k])
            && (forall j, k :: 0 <= j < k < |at| ==> at[j] < at[k])
    ensures |Appended(labels)| == Sum(Returned, log.batches) + Sum(Warned, log.batches) + |log.buffer| + log.dropped
    ensures |log.buffer| <= capacity && (log.dropped > 0 ==> |log.buffer| == capacity)
  {
    ReachableInv(capacity, labels);
    AppendedBy(Empty<R>(capacity), labels);
    assert [] + Appended(labels) == Appended(labels);
    CapacityKept(Empty<R>(capacity), labels);
    PositionsCount(0, log.batches, log.dropped, log.buffer);
    assert Appended(labels)[0..] == Appended(labels);
    var at := Positions(0, log.batches, log.dropped, log.buffer);
    forall k: nat | k < |at|
      ensures at[k] < |Appended(labels)| && Appended(labels)[at[k]] == Delivered(log.batches, log.buffer)[k]
    {
      DeliveredAt(Appended(labels), 0, log.batches, log.dropped, log.buffer, k);
    }
    forall j: nat, k: nat | j < k < |at|
      ensures at[j] < at[k]
    {
      PositionsGrow(0, log.batches, log.dropped, log.buffer, j, k);
    }
    AccountsTotal(Appended(labels), log.batches, log.dropped, log.buffer);
  }

  lemma {:induction false} CapacityKept<R>(log: Log<R>, labels: seq<Step<R>>)
    requires Exec(Next, log, labels).Some?
    ensures Exec(Next, log, labels).value.capacity == log.capacity
    decreases |labels|
  {
    if labels != [] {
      CapacityKept(Next(log, labels[0]).value, labels[1..]);
    }
  }
}
