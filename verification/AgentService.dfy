/**
 The service as the object it is: its handlers schedule on the two queues, its flushes empty the
 log buffer, and its shutdown stops its components in sequence.

 What the backend answers, and what the body of an operation's handler does, are parameters.
 The steps a call takes in a queue are in that queue's `trace`, and `ScheduledBy(c, trace)`
 is everything thread `c` ever scheduled there. A contract speaks of what the calling thread does,
 whatever the others do while it waits for a lock.
 */
module AgentService {
  import opened Runs
  import opened Threads
  import opened Dispatch
  import opened Pipeline
  import opened QueueProcessor
  import opened PollerProcessor
  import opened LogHandlers
  import opened EventClasses
  import LogShipping
  import LogBuffer
  import Q = WorkerQueue
  import P = Polling

  class BaseEgressAgentService {
    const cfg: Config
    const operationsMapping: seq<Mapping>
    const opsRunner: QueueAsyncProcessor<Op>
    const resultsPublisher: QueueAsyncProcessor<Res>
    const operationsPoller: OperationsPoller<Op>
    const logsService: InProcessLogShippingHandler
    const supportsDrain: bool
    const eventsClient: EventsClient
    const sseEnabled: bool
    const metricsEnabled: bool
    var metricsTimerRunning: bool
    var logsSenderRunning: bool
    var shutdownLock: bool
    // the past: notifications tried, exits signalled, results handed to push_results, payloads of every POST of logs
    var notified: nat
    var exits: nat
    var pushed: seq<Res>
    var posts: seq<seq<LogShipping.Fields>>

    constructor (
      cfg: Config, opsThreads: int, publishers: int, logsService: InProcessLogShippingHandler, supportsDrain: bool,
      sseEnabled: bool, metricsEnabled: bool, timeout: real, now: real)
      ensures eventsClient.Valid() && eventsClient.stopped
      ensures this.sseEnabled == sseEnabled && this.metricsEnabled == metricsEnabled
      ensures opsRunner.Valid() && resultsPublisher.Valid() && operationsPoller.Valid()
      ensures opsRunner.State() == Q.Initial(opsThreads) && resultsPublisher.State() == Q.Initial(publishers)
      ensures operationsPoller.State() == P.Initial(true)
      ensures this.cfg == cfg && operationsMapping == Mappings(cfg.skipLogs)
      ensures !shutdownLock && notified == exits == 0 && posts == [] && pushed == []
    {
      this.cfg := cfg;
      opsRunner := new QueueAsyncProcessor(opsThreads);
      resultsPublisher := new QueueAsyncProcessor(publishers);
      operationsPoller := new OperationsPoller(true);
      operationsMapping := [
        Mapping(EXECUTE_PREFIX, StartsWith, ExecuteAgent),
        Mapping(HEALTH_PATH, Equals, Health),
        Mapping(METRICS_PATH, Equals, GetMetrics),
        Mapping(PUSH_METRICS_PATH, Equals, PushMetrics)
      ] + if cfg.skipLogs then [] else [Mapping(LOGS_PATH, Equals, GetLogs), Mapping(PUSH_LOGS_PATH, Equals, PushLogs)];
      this.logsService, this.supportsDrain := logsService, supportsDrain;
      eventsClient := new EventsClient(timeout, now);
      this.sseEnabled, this.metricsEnabled := sseEnabled, metricsEnabled;
      metricsTimerRunning, logsSenderRunning := false, false;
      shutdownLock, notified, exits, posts, pushed := false, 0, 0, [], [];
    }

    // ---------------------------------------------------------------- operations coming in

    /** _can_accept_work: whether fewer operations are queued than there are threads. */
    method CanAcceptWork(c: Thread) returns (canAccept: bool)
      requires opsRunner.Valid()
      modifies opsRunner
      ensures opsRunner.Valid() && old(opsRunner.trace) < opsRunner.trace
      ensures canAccept <==> |opsRunner.items| < |opsRunner.workers|
      ensures Q.ScheduledBy(c, opsRunner.trace) == Q.ScheduledBy(c, old(opsRunner.trace))
    {
      var queueDepth := opsRunner.QueueDepth(c);
      canAccept := queueDepth < opsRunner.threadCount;
    }

    /**
     _execute_operation: schedules the event as it is, or, if it is oversized, with the body
     downloaded in the place of its operation entry; if there is no such body it raises.
     */
    method ExecuteOperation(c: Thread, token: nat, origin: Origin, id: Json, event: Event, download: Download)
      returns (raised: bool)
      requires opsRunner.Valid()
      modifies opsRunner
      ensures opsRunner.Valid() && old(opsRunner.trace) <= opsRunner.trace
      ensures raised <==> !HasOperation(event) || (Oversized(event) && !BringsBody(download))
      ensures raised ==> opsRunner.State() == old(opsRunner.State()) && opsRunner.trace == old(opsRunner.trace)
      ensures !raised ==>
                Q.ScheduledBy(c, opsRunner.trace) == Q.ScheduledBy(c, old(opsRunner.trace))
                + [Op(token, origin, id, if Oversized(event) then event[OPERATION := download.body] else event)]
    {
      var operation := Get(event, OPERATION, EMPTY_OBJECT);
      if !operation.Object? { return true; }
      var admitted := event;
      if Truthy(Get(operation.fields, SIZE_EXCEEDED, Flag(false))) {
        var downloaded := Downloaded(download);
        if downloaded.None? { return true; }
        admitted := admitted[OPERATION := downloaded.value];
      }
      opsRunner.Schedule(c, Op(token, origin, id, admitted));
      raised := false;
    }

    /** _submit_operation and _handle_piggybacked_operation: only what names a path and an id goes on. */
    method SubmitOperation(c: Thread, token: nat, origin: Origin, operation: Json, download: Download)
      returns (raised: bool)
      requires opsRunner.Valid()
      modifies opsRunner
      ensures opsRunner.Valid() && old(opsRunner.trace) <= opsRunner.trace
      ensures Names(operation) && HasOperation(operation.fields) && !Oversized(operation.fields) ==>
                Q.ScheduledBy(c, opsRunner.trace) == Q.ScheduledBy(c, old(opsRunner.trace))
                + [Op(token, origin, operation.fields[OPERATION_ID], operation.fields)]
      ensures Names(operation) && Oversized(operation.fields) && BringsBody(download) ==>
                Q.ScheduledBy(c, opsRunner.trace) == Q.ScheduledBy(c, old(opsRunner.trace))
                + [Op(token, origin, operation.fields[OPERATION_ID], operation.fields[OPERATION := download.body])]
      ensures !Names(operation) || Unusable(operation.fields, download) ==>
                Q.ScheduledBy(c, opsRunner.trace) == Q.ScheduledBy(c, old(opsRunner.trace))
      ensures raised <==> !operation.Object? || (Names(operation) && Unusable(operation.fields, download))
    {
      if !operation.Object? { return true; }
      var path := Get(operation.fields, PATH, Text(""));
      var id := Get(operation.fields, OPERATION_ID, Null);
      if !Truthy(path) || !Truthy(id) { return false; }
      raised := ExecuteOperation(c, token, origin, id, operation.fields, download);
    }

    /** _push_metrics and _push_logs: what a timer's tick schedules. */
    method PushFromTimer(k: nat, token: nat, path: string)
      requires opsRunner.Valid() && (path == PUSH_METRICS_PATH || path == PUSH_LOGS_PATH)
      modifies opsRunner
      ensures opsRunner.Valid()
      ensures Q.ScheduledBy(TimerThread(k), opsRunner.trace)
              == Q.ScheduledBy(TimerThread(k), old(opsRunner.trace)) + [TimerOp(token, path)]
    {
      opsRunner.Schedule(TimerThread(k), Op(token, FromTimer, Text(path), map[PATH := Text(path)]));
    }

    // ---------------------------------------------------------------- executing one

    /** _resolve_operation_method, on a path that is a string. */
    method ResolveOperationMethod(path: string) returns (handler: Option<Handler>)
      ensures handler == FirstMatch(operationsMapping, path)
    {
      for k := 0 to |operationsMapping|
        invariant forall j :: 0 <= j < k ==> !Matches(operationsMapping[j], path)
      {
        var m := operationsMapping[k];
        var found := match m.matching
          case Equals => path == m.path
          case StartsWith => |m.path| <= |path| && path[..|m.path|] == m.path;
        if found {
          FirstMatchAt(operationsMapping, path, k);
          return Some(m.handler);
        }
      }
      FirstMatchAt(operationsMapping, path, |operationsMapping|);
      return None;
    }

    method SchedulePushResults(i: nat, op: Op, content: Content)
      requires resultsPublisher.Valid()
      modifies resultsPublisher
      ensures resultsPublisher.Valid()
      ensures Q.ScheduledBy(OpsThread(i), resultsPublisher.trace)
              == Q.ScheduledBy(OpsThread(i), old(resultsPublisher.trace)) + [Res(op.token, op.id, content)]
    {
      resultsPublisher.Schedule(OpsThread(i), Res(op.token, op.id, content));
    }

    /** _execute_get_metrics and _execute_get_logs: the look into the operation is outside the try. */
    method ExecuteWrapped(i: nat, op: Op, work: Work) returns (raised: bool)
      requires resultsPublisher.Valid()
      modifies resultsPublisher
      ensures resultsPublisher.Valid() && raised == !Get(op.event, OPERATION, EMPTY_OBJECT).Object?
      ensures Q.ScheduledBy(OpsThread(i), resultsPublisher.trace)
              == Q.ScheduledBy(OpsThread(i), old(resultsPublisher.trace))
              + if raised then [] else [Res(op.token, op.id,
                  if work.Raises? then Failure(ErrorText(work.message, work.kind))
                  else Wrapped(work.value, Get(Get(op.event, OPERATION, EMPTY_OBJECT).fields, TRACE_ID, op.id)))]
    {
      var operation := Get(op.event, OPERATION, EMPTY_OBJECT);
      if !operation.Object? { return true; }
      raised := false;
      var traceId := Get(operation.fields, TRACE_ID, op.id);
      match work
      case Returns(value) => SchedulePushResults(i, op, Wrapped(value, traceId));
      case Raises(message, kind) => SchedulePushResults(i, op, Failure(ErrorText(message, kind)));
    }

    /** _execute_agent_operation and _execute_health: everything is inside the try. */
    method ExecuteGuarded(i: nat, op: Op, work: Work)
      requires resultsPublisher.Valid()
      modifies resultsPublisher
      ensures resultsPublisher.Valid()
      ensures Q.ScheduledBy(OpsThread(i), resultsPublisher.trace)
              == Q.ScheduledBy(OpsThread(i), old(resultsPublisher.trace))
              + [Res(op.token, op.id,
                  if work.Raises? then Failure(ErrorText(work.message, work.kind)) else Value(work.value))]
    {
      match work
      case Returns(value) => SchedulePushResults(i, op, Value(value));
      case Raises(message, kind) => SchedulePushResults(i, op, Failure(ErrorText(message, kind)));
    }

    /**
     _execute_scheduled_operation: what it reports, as one result, is what `Respond` says, and
     where that is nothing it schedules nothing.
     */
    method ExecuteScheduledOperation(i: nat, op: Op, work: Work) returns (raised: bool)
      requires resultsPublisher.Valid() && operationsMapping == Mappings(cfg.skipLogs)
      modifies resultsPublisher
      ensures resultsPublisher.Valid()
      ensures raised == Respond(cfg, op.id, op.event, work).Raise?
      ensures Q.ScheduledBy(OpsThread(i), resultsPublisher.trace)
              == Q.ScheduledBy(OpsThread(i), old(resultsPublisher.trace))
              + match Respond(cfg, op.id, op.event, work)
                case Report(content) => [Res(op.token, op.id, content)]
                case _ => []
    {
      var path := Get(op.event, PATH, Text(""));
      if !path.Text? { return true; }
      raised := false;
      var handler := ResolveOperationMethod(path.s);
      match handler
      case None => SchedulePushResults(i, op, Failure("Unsupported operation path: " + path.s));
      case Some(ExecuteAgent) => ExecuteGuarded(i, op, work);
      case Some(Health) =>
        if Get(op.event, OPERATION, EMPTY_OBJECT).Object? {
          ExecuteGuarded(i, op, work);
        } else {
          SchedulePushResults(i, op, Failure("no attribute 'get'"));
        }
      case Some(GetMetrics) => raised := ExecuteWrapped(i, op, work);
      case Some(GetLogs) =>
        if cfg.hasLogs {
          raised := ExecuteWrapped(i, op, work);
        }
      case Some(PushMetrics) => raised := work.Raises?;
      case Some(PushLogs) => raised := cfg.hasLogs && work.Raises?;
    }

    // ---------------------------------------------------------------- publishing one result

    /**
     _push_results: a result that is not None is handed to push_results, once. If the reply is an
     object whose entry for the next operation names a path and an id, that operation is scheduled,
     once and with its body downloaded if it is oversized; and nothing else is.
     */
    method PushResults(i: nat, res: Res, push: Push, token: nat, download: Download)
      requires opsRunner.Valid()
      modifies opsRunner, this`pushed
      ensures opsRunner.Valid() && old(opsRunner.trace) <= opsRunner.trace
      ensures pushed == old(pushed) + if res.content == Value(Null) then [] else [res]
      ensures Replied(res, push) && Names(push.reply.fields[NEXT_OPERATION]) ==>
                var n := push.reply.fields[NEXT_OPERATION].fields;
                && (HasOperation(n) && !Oversized(n) ==>
                      Q.ScheduledBy(PublisherThread(i), opsRunner.trace)
                      == Q.ScheduledBy(PublisherThread(i), old(opsRunner.trace))
                      + [Op(token, FromPiggyback, n[OPERATION_ID], n)])
                && (Oversized(n) && BringsBody(download) ==>
                      Q.ScheduledBy(PublisherThread(i), opsRunner.trace)
                      == Q.ScheduledBy(PublisherThread(i), old(opsRunner.trace))
                      + [Op(token, FromPiggyback, n[OPERATION_ID], n[OPERATION := download.body])])
      ensures !Replied(res, push) || !Names(push.reply.fields[NEXT_OPERATION])
              || Unusable(push.reply.fields[NEXT_OPERATION].fields, download) ==>
                Q.ScheduledBy(PublisherThread(i), opsRunner.trace)
                == Q.ScheduledBy(PublisherThread(i), old(opsRunner.trace))
    {
      if res.content == Value(Null) { return; }
      pushed := pushed + [res];
      if push.PushRaises? { return; }
      var next := NextOperation(push.reply);
      if next.Some? {
        var swallowed := SubmitOperation(PublisherThread(i), token, FromPiggyback, next.value, download);
      }
    }

    // ---------------------------------------------------------------- logs

    /**
     _flush_logs: the batch drained, exactly as the account of losses has it, or a sample of what
     cannot be drained, in one POST unless it is empty.
     */
    method FlushLogs(now: string, limit: int)
      requires cfg.hasLogs ==> logsService.Valid()
      modifies this`posts, logsService, logsService.buffer, logsService.buffer.slots
      ensures !cfg.hasLogs ==> posts == old(posts)
      ensures cfg.hasLogs ==> logsService.Valid()
      ensures cfg.hasLogs && supportsDrain ==>
                && logsService.buffer.Contents() == [] && logsService.droppedCount == 0
                && old(logsService.batches) < logsService.batches
                && Posted(old(posts), posts, Returning(now, logsService.batches[|logsService.batches| - 1]))
      ensures cfg.hasLogs && !supportsDrain ==>
                if limit <= 0 || logsService.buffer.Contents() == [] then posts == old(posts)
                else |posts| == |old(posts)| + 1 && old(posts) < posts
                     && posts[|old(posts)|] <= logsService.buffer.Contents()
                     && |posts[|old(posts)|]|
                        == if limit < logsService.buffer.len then limit else logsService.buffer.len
    {
      if !cfg.hasLogs { return; }
      var logs;
      if supportsDrain {
        logs := logsService.Drain(now);
      } else {
        logs := logsService.Peek(limit);
      }
      if logs == [] { return; }
      posts := posts + [logs];
    }

    /**
     _stop_logs_service: each of its three steps is guarded by itself, so the final POST carries
     everything drained even if closing fails, and is only missing if there is nothing to send.
     */
    method StopLogsService(now: string, drainRaises: bool, closeRaises: bool) returns (closed: bool)
      requires cfg.hasLogs ==> logsService.Valid()
      modifies this`posts, logsService, logsService.buffer, logsService.buffer.slots
      ensures cfg.hasLogs ==> logsService.Valid()
      ensures closed == (cfg.hasLogs && !closeRaises)
      ensures cfg.hasLogs && supportsDrain && !drainRaises ==>
                && old(logsService.batches) < logsService.batches
                && Posted(old(posts), posts, Returning(now, logsService.batches[|logsService.batches| - 1]))
      ensures !(cfg.hasLogs && supportsDrain && !drainRaises) ==> posts == old(posts)
    {
      closed := false;
      if !cfg.hasLogs { return; }
      var pendingLogs := [];
      if supportsDrain && !drainRaises {
        pendingLogs := logsService.Drain(now);
      }
      closed := !closeRaises;
      if pendingLogs != [] {
        posts := posts + [pendingLogs];
      }
    }

    // ---------------------------------------------------------------- start and stop

    /** start(): the queues before what feeds them. */
    method Start()
      requires opsRunner.Valid() && resultsPublisher.Valid() && operationsPoller.Valid() && eventsClient.Valid()
      requires !opsRunner.started && !resultsPublisher.started && !operationsPoller.started
      modifies opsRunner, resultsPublisher, operationsPoller, eventsClient, eventsClient.receiver
      modifies this`metricsTimerRunning, this`logsSenderRunning
      ensures opsRunner.Valid() && resultsPublisher.Valid() && operationsPoller.Valid() && eventsClient.Valid()
      ensures opsRunner.started && resultsPublisher.started && operationsPoller.started
      ensures metricsTimerRunning == metricsEnabled && logsSenderRunning == !cfg.skipLogs
      ensures sseEnabled ==> !eventsClient.stopped && eventsClient.receiver.currentLoopId.Some?
    {
      opsRunner.Start();
      resultsPublisher.Start();
      operationsPoller.Start();
      metricsTimerRunning := metricsEnabled;
      if sseEnabled {
        eventsClient.Start(true);
      }
      logsSenderRunning := !cfg.skipLogs;
    }

    /** Nothing takes new work any more. */
    predicate Halted()
      reads this, opsRunner, resultsPublisher, operationsPoller
    {
      && !opsRunner.running && !resultsPublisher.running && !operationsPoller.running
      && !metricsTimerRunning && !logsSenderRunning
    }

    /** The first three components of stop(), or as many of them as are asked for. */
    method StopWork(k: nat, upTo: nat)
      requires opsRunner.Valid() && resultsPublisher.Valid() && operationsPoller.Valid()
      modifies opsRunner, resultsPublisher, operationsPoller
      ensures if upTo >= 1 then !opsRunner.running && (old(opsRunner.started) ==> Q.Stopped(opsRunner.State()))
              else unchanged(opsRunner)
      ensures if upTo >= 2
              then !resultsPublisher.running && (old(resultsPublisher.started) ==> Q.Stopped(resultsPublisher.State()))
              else unchanged(resultsPublisher)
      ensures if upTo >= 3
              then !operationsPoller.running && (old(operationsPoller.started) ==> P.Stopped(operationsPoller.State()))
              else unchanged(operationsPoller)
    {
      if upTo >= 1 {
        opsRunner.Stop(StopperThread(k));
      }
      if upTo >= 2 {
        resultsPublisher.Stop(StopperThread(k));
      }
      if upTo >= 3 {
        operationsPoller.Stop(StopperThread(k));
      }
    }

    /** The next three: the metrics timer, the events client and the logs sender. */
    method StopFeeds(upTo: nat)
      requires eventsClient.Valid()
      modifies this`metricsTimerRunning, this`logsSenderRunning, eventsClient, eventsClient.receiver
      ensures metricsTimerRunning == (old(metricsTimerRunning) && upTo < 4)
      ensures if upTo >= 5 && sseEnabled then eventsClient.stopped && eventsClient.receiver.currentLoopId.None?
              else unchanged(eventsClient, eventsClient.receiver)
      ensures logsSenderRunning == (old(logsSenderRunning) && upTo < 6)
    {
      if upTo >= 4 {
        metricsTimerRunning := false;
      }
      if upTo >= 5 && sseEnabled {
        eventsClient.Stop();
      }
      if upTo >= 6 {
        logsSenderRunning := false;
      }
    }

    /** The first six components together. */
    method StopComponents(k: nat, upTo: nat)
      requires opsRunner.Valid() && resultsPublisher.Valid() && operationsPoller.Valid() && eventsClient.Valid()
      modifies opsRunner, resultsPublisher, operationsPoller, eventsClient, eventsClient.receiver
      modifies this`metricsTimerRunning, this`logsSenderRunning
      ensures upTo >= 6 ==> Halted()
      ensures upTo >= 6 && sseEnabled ==> eventsClient.stopped && eventsClient.receiver.currentLoopId.None?
      ensures upTo >= 1 && old(opsRunner.started) ==> Q.Stopped(opsRunner.State())
      ensures upTo >= 2 && old(resultsPublisher.started) ==> Q.Stopped(resultsPublisher.State())
      ensures upTo >= 3 && old(operationsPoller.started) ==> P.Stopped(operationsPoller.State())
      ensures upTo < 1 ==> unchanged(opsRunner)
      ensures upTo < 2 ==> unchanged(resultsPublisher)
      ensures upTo < 3 ==> unchanged(operationsPoller)
      ensures upTo < 5 ==> unchanged(eventsClient, eventsClient.receiver)
    {
      StopWork(k, upTo);
      StopFeeds(upTo);
    }

    method StopLogsLast(now: string, drainRaises: bool, closeRaises: bool, upTo: nat)
      requires cfg.hasLogs ==> logsService.Valid()
      modifies this`posts, logsService, logsService.buffer, logsService.buffer.slots
      ensures upTo >= 7 && cfg.hasLogs && supportsDrain && !drainRaises ==>
                && old(logsService.batches) < logsService.batches
                && Posted(old(posts), posts, Returning(now, logsService.batches[|logsService.batches| - 1]))
      ensures upTo < 7 ==> posts == old(posts) && unchanged(logsService, logsService.buffer, logsService.buffer.slots)
    {
      if upTo >= 7 {
        var closed := StopLogsService(now, drainRaises, closeRaises);
      }
    }

    /**
     stop(): the queues, the poller, what else feeds them, and the logs service last; all seven,
     or only the first `upTo` of them if the exit of a signal's handler then ends it.
     */
    method Stop(k: nat, now: string, drainRaises: bool, closeRaises: bool, upTo: nat)
      requires opsRunner.Valid() && resultsPublisher.Valid() && operationsPoller.Valid() && eventsClient.Valid()
      requires cfg.hasLogs ==> logsService.Valid()
      modifies opsRunner, resultsPublisher, operationsPoller, eventsClient, eventsClient.receiver
      modifies this`posts, this`metricsTimerRunning, this`logsSenderRunning
      modifies logsService, logsService.buffer, logsService.buffer.slots
      ensures upTo >= 6 ==> Halted()
      ensures upTo >= 6 && sseEnabled ==> eventsClient.stopped && eventsClient.receiver.currentLoopId.None?
      ensures upTo >= 1 && old(opsRunner.started) ==> Q.Stopped(opsRunner.State())
      ensures upTo >= 2 && old(resultsPublisher.started) ==> Q.Stopped(resultsPublisher.State())
      ensures upTo >= 3 && old(operationsPoller.started) ==> P.Stopped(operationsPoller.State())
      ensures upTo >= 7 && cfg.hasLogs && supportsDrain && !drainRaises ==>
                && old(logsService.batches) < logsService.batches
                && Posted(old(posts), posts, Returning(now, logsService.batches[|logsService.batches| - 1]))
      ensures upTo < 1 ==> unchanged(opsRunner)
      ensures upTo < 2 ==> unchanged(resultsPublisher)
      ensures upTo < 3 ==> unchanged(operationsPoller)
      ensures upTo < 5 ==> unchanged(eventsClient, eventsClient.receiver)
      ensures upTo < 7 ==> posts == old(posts) && unchanged(logsService, logsService.buffer, logsService.buffer.slots)
    {
      StopComponents(k, upTo);
      StopLogsLast(now, drainRaises, closeRaises, upTo);
    }

    /**
     _trigger_graceful_shutdown. A call while another one has the lock changes nothing. The call
     that gets it notifies, stops and signals the exit, whether or not notifying raises, unless
     it runs in a signal's handler and a second signal reaches that thread, when `second` of its
     components are stopped: then it ends right there, by the exit of the second handler.
     */
    method TriggerGracefulShutdown(k: nat, now: string, drainRaises: bool, closeRaises: bool, second: Option<nat>)
      returns (exitRaised: bool)
      requires !shutdownLock ==>
                 opsRunner.Valid() && resultsPublisher.Valid() && operationsPoller.Valid() && eventsClient.Valid()
      requires !shutdownLock && cfg.hasLogs ==> logsService.Valid()
      modifies this, opsRunner, resultsPublisher, operationsPoller, eventsClient, eventsClient.receiver
      modifies logsService, logsService.buffer, logsService.buffer.slots
      ensures shutdownLock && exitRaised == (!old(shutdownLock) && second.Some?)
      ensures old(shutdownLock) ==>
                && unchanged(this, opsRunner, resultsPublisher, operationsPoller, eventsClient, eventsClient.receiver)
                && unchanged(logsService, logsService.buffer, logsService.buffer.slots)
      ensures !old(shutdownLock) ==>
                && notified == old(notified) + 1
                && exits == old(exits) + (if second.None? then 1 else 0)
                && (second.None? || second.value >= 6 ==> Halted())
                && (second.None? && sseEnabled ==> eventsClient.stopped && eventsClient.receiver.currentLoopId.None?)
                && (second.None? && cfg.hasLogs && supportsDrain && !drainRaises ==>
                      && old(logsService.batches) < logsService.batches
                      && Posted(old(posts), posts, Returning(now, logsService.batches[|logsService.batches| - 1])))
                && (second.Some? && second.value < 1 ==> unchanged(opsRunner))
                && (second.Some? && second.value < 2 ==> unchanged(resultsPublisher))
                && (second.Some? && second.value < 3 ==> unchanged(operationsPoller))
                && (second.Some? && second.value < 7 ==> posts == old(posts))
      decreases if second.Some? then 2 else 0, 1
    {
      if shutdownLock { return false; }
      if second.Some? {
        exitRaised := ShutDownCut(k, now, drainRaises, closeRaises, second.value);
      } else {
        ShutDown(k, now, drainRaises, closeRaises);
        exitRaised := false;
      }
    }

    /** What the call that gets the lock does. */
    method ShutDown(k: nat, now: string, drainRaises: bool, closeRaises: bool)
      requires !shutdownLock
      requires opsRunner.Valid() && resultsPublisher.Valid() && operationsPoller.Valid() && eventsClient.Valid()
      requires cfg.hasLogs ==> logsService.Valid()
      modifies this, opsRunner, resultsPublisher, operationsPoller, eventsClient, eventsClient.receiver
      modifies logsService, logsService.buffer, logsService.buffer.slots
      ensures shutdownLock && notified == old(notified) + 1 && exits == old(exits) + 1 && Halted()
      ensures sseEnabled ==> eventsClient.stopped && eventsClient.receiver.currentLoopId.None?
      ensures cfg.hasLogs && supportsDrain && !drainRaises ==>
                && old(logsService.batches) < logsService.batches
                && Posted(old(posts), posts, Returning(now, logsService.batches[|logsService.batches| - 1]))
    {
      shutdownLock := true;
      notified := notified + 1;
      StopAndExit(k, now, drainRaises, closeRaises);
    }

    method StopAndExit(k: nat, now: string, drainRaises: bool, closeRaises: bool)
      requires opsRunner.Valid() && resultsPublisher.Valid() && operationsPoller.Valid() && eventsClient.Valid()
      requires cfg.hasLogs ==> logsService.Valid()
      modifies opsRunner, resultsPublisher, operationsPoller, eventsClient, eventsClient.receiver
      modifies this`posts, this`exits, this`metricsTimerRunning, this`logsSenderRunning
      modifies logsService, logsService.buffer, logsService.buffer.slots
      ensures exits == old(exits) + 1
      ensures Halted() && (sseEnabled ==> eventsClient.stopped && eventsClient.receiver.currentLoopId.None?)
      ensures cfg.hasLogs && supportsDrain && !drainRaises ==>
                && old(logsService.batches) < logsService.batches
                && Posted(old(posts), posts, Returning(now, logsService.batches[|logsService.batches| - 1]))
    {
      StopFully(k, now, drainRaises, closeRaises);
      exits := exits + 1;
    }

    method StopFully(k: nat, now: string, drainRaises: bool, closeRaises: bool)
      requires opsRunner.Valid() && resultsPublisher.Valid() && operationsPoller.Valid() && eventsClient.Valid()
      requires cfg.hasLogs ==> logsService.Valid()
      modifies opsRunner, resultsPublisher, operationsPoller, eventsClient, eventsClient.receiver
      modifies this`posts, this`metricsTimerRunning, this`logsSenderRunning
      modifies logsService, logsService.buffer, logsService.buffer.slots
      ensures Halted() && (sseEnabled ==> eventsClient.stopped && eventsClient.receiver.currentLoopId.None?)
      ensures cfg.hasLogs && supportsDrain && !drainRaises ==>
                && old(logsService.batches) < logsService.batches
                && Posted(old(posts), posts, Returning(now, logsService.batches[|logsService.batches| - 1]))
    {
      Stop(k, now, drainRaises, closeRaises, 7);
    }

    /** The same, with a second signal's handler running when `done` components are stopped. */
    method ShutDownCut(k: nat, now: string, drainRaises: bool, closeRaises: bool, done: nat)
      returns (exitRaised: bool)
      requires !shutdownLock
      requires opsRunner.Valid() && resultsPublisher.Valid() && operationsPoller.Valid() && eventsClient.Valid()
      requires cfg.hasLogs ==> logsService.Valid()
      modifies this, opsRunner, resultsPublisher, operationsPoller, eventsClient, eventsClient.receiver
      modifies logsService, logsService.buffer, logsService.buffer.slots
      ensures shutdownLock && exitRaised && notified == old(notified) + 1 && exits == old(exits)
      ensures done >= 6 ==> Halted()
      ensures done < 1 ==> unchanged(opsRunner)
      ensures done < 2 ==> unchanged(resultsPublisher)
      ensures done < 3 ==> unchanged(operationsPoller)
      ensures done < 7 ==> posts == old(posts)
      decreases 2, 0
    {
      shutdownLock := true;
      notified := notified + 1;
      Stop(k, now, drainRaises, closeRaises, done);
      exitRaised := SignalHandler(k + 1, now, drainRaises, closeRaises);
    }

    /** The handler of a signal that comes while a shutdown has the lock: it changes nothing, and exits. */
    method SignalHandler(k: nat, now: string, drainRaises: bool, closeRaises: bool) returns (exitRaised: bool)
      requires shutdownLock
      modifies this, opsRunner, resultsPublisher, operationsPoller, eventsClient, eventsClient.receiver
      modifies logsService, logsService.buffer, logsService.buffer.slots
      ensures exitRaised
      ensures unchanged(this, opsRunner, resultsPublisher, operationsPoller, eventsClient, eventsClient.receiver)
      ensures unchanged(logsService, logsService.buffer, logsService.buffer.slots)
      decreases 1
    {
      var raisedInside := TriggerGracefulShutdown(k, now, drainRaises, closeRaises, None);
      exitRaised := true;
    }
  }

  /** The download answered with an object that reports no error. */
  predicate BringsBody(d: Download) {
    d.Answered? && Brings(d, d.body)
  }

  /** It names a path and an id. */
  predicate Names(operation: Json) {
    && operation.Object?
    && PATH in operation.fields && Truthy(operation.fields[PATH])
    && OPERATION_ID in operation.fields && Truthy(operation.fields[OPERATION_ID])
  }

  /** Its operation entry is no object, or is to be downloaded and cannot be. */
  predicate Unusable(event: Event, d: Download) {
    !HasOperation(event) || (Oversized(event) && !BringsBody(d))
  }

  /** The result was pushed and the reply has an entry for the next operation. */
  predicate Replied(res: Res, push: Push) {
    && res.content != Value(Null) && push.Replies?
    && push.reply.Object? && NEXT_OPERATION in push.reply.fields
  }
}
