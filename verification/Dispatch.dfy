/**
 What one operation makes the agent do: the check and download before it is scheduled, the
 choice of a handler by its path, and the result its handler reports, if any.

 Operations are JSON objects from the backend, so any entry may be missing or of any type; an
 attribute access on a value of the wrong type is an exception, as it is in the original.
 */
module Dispatch {
  import opened Runs

  datatype Json =
    | Null
    | Flag(b: bool)
    | Number(n: real)
    | Text(s: string)
    | List(elements: seq<Json>)
    | Object(fields: map<string, Json>)

  type Event = map<string, Json>

  predicate Truthy(v: Json) {
    match v
    case Null => false
    case Flag(b) => b
    case Number(n) => n != 0.0
    case Text(s) => s != ""
    case List(elements) => elements != []
    case Object(fields) => fields != map[]
  }

  /** event.get(key, default) */
  function Get(event: Event, key: string, default: Json): Json {
    if key in event then event[key] else default
  }

  const PATH := "path"
  const OPERATION := "operation"
  const OPERATION_ID := "operation_id"
  const TRACE_ID := "trace_id"
  const LIMIT := "limit"
  const ERROR := "error"
  const SIZE_EXCEEDED := "__mcd_size_exceeded__"
  const EMPTY_OBJECT := Object(map[])

  const EXECUTE_PREFIX := "/api/v1/agent/execute/"
  const HEALTH_PATH := "/api/v1/test/health"
  const METRICS_PATH := "/api/v1/agent/metrics"
  const LOGS_PATH := "/api/v1/agent/logs"
  const PUSH_METRICS_PATH := "push_metrics"
  const PUSH_LOGS_PATH := "push_logs"

  // ---------------------------------------------------------------- before scheduling

  /** An operation is submitted only if it names a path and an id. */
  predicate Submittable(event: Event) {
    Truthy(Get(event, PATH, Text(""))) && Truthy(Get(event, OPERATION_ID, Null))
  }

  /** What download_operation comes back with, if the request does not raise. */
  datatype Download = Unreachable | Answered(body: Json)

  /** download_operation: the body, unless it is not an object or reports an error. */
  function Downloaded(d: Download): Option<Json> {
    if d.Unreachable? || !d.body.Object? || Truthy(Get(d.body.fields, ERROR, Null)) then None else Some(d.body)
  }

  /** _execute_operation: the event to schedule, or None where it raises and nothing is scheduled. */
  function Admit(event: Event, d: Download): Option<Event> {
    var operation := Get(event, OPERATION, EMPTY_OBJECT);
    if !operation.Object? then None
    else if !Truthy(Get(operation.fields, SIZE_EXCEEDED, Flag(false))) then Some(event)
    else match Downloaded(d)
      case None => None
      case Some(body) => Some(event[OPERATION := body])
  }

  /** The falsy values, one by one. */
  lemma FalsyExactlyWhen(v: Json)
    ensures !Truthy(v) <==>
              v == Null || v == Flag(false) || v == Number(0.0) || v == Text("") || v == List([]) || v == Object(map[])
  {
  }

  /** The operation entry says that the operation itself is to be downloaded. */
  predicate Oversized(event: Event) {
    OPERATION in event && event[OPERATION].Object? && SIZE_EXCEEDED in event[OPERATION].fields
    && Truthy(event[OPERATION].fields[SIZE_EXCEEDED])
  }

  /** The operation entry is missing, or an object. */
  predicate HasOperation(event: Event) {
    OPERATION in event ==> event[OPERATION].Object?
  }

  /** The download brought an object that reports no error. */
  predicate Brings(d: Download, body: Json) {
    d == Answered(body) && body.Object? && (ERROR in body.fields ==> !Truthy(body.fields[ERROR]))
  }

  /**
   What is scheduled for an event: itself, if it is not oversized; and if it is, the event with
   the body downloaded in the place of its operation entry, and every other entry as before.
   */
  lemma AdmittedIs(event: Event, d: Download)
    ensures HasOperation(event) && !Oversized(event) ==> Admit(event, d) == Some(event)
    ensures Oversized(event) && d.Answered? && Brings(d, d.body) ==>
              && Admit(event, d).Some?
              && var e := Admit(event, d).value;
                 && OPERATION in e && e[OPERATION] == d.body
                 && forall k :: k != OPERATION ==> (k in e <==> k in event) && (k in e ==> e[k] == event[k])
    ensures !HasOperation(event) || (Oversized(event) && (d.Unreachable? || !Brings(d, d.body))) ==>
              Admit(event, d).None?
  {
  }

  // ---------------------------------------------------------------- choosing the handler

  datatype Handler = ExecuteAgent | Health | GetMetrics | PushMetrics | GetLogs | PushLogs

  datatype Matching = Equals | StartsWith

  datatype Mapping = Mapping(path: string, matching: Matching, handler: Handler)

  /** `hasLogs` is whether there is a logs service; skipping logs leaves none. */
  datatype Config = Config(skipLogs: bool, hasLogs: bool)

  function Mappings(skipLogs: bool): seq<Mapping> {
    [ Mapping(EXECUTE_PREFIX, StartsWith, ExecuteAgent),
      Mapping(HEALTH_PATH, Equals, Health),
      Mapping(METRICS_PATH, Equals, GetMetrics),
      Mapping(PUSH_METRICS_PATH, Equals, PushMetrics) ]
    + (if skipLogs then []
       else [ Mapping(LOGS_PATH, Equals, GetLogs),
              Mapping(PUSH_LOGS_PATH, Equals, PushLogs) ])
  }

  predicate Matches(m: Mapping, path: string) {
    match m.matching
    case Equals => path == m.path
    case StartsWith => m.path <= path
  }

  /** The handler of the first mapping that matches. */
  function FirstMatch(mappings: seq<Mapping>, path: string): Option<Handler> {
    if mappings == [] then None
    else if Matches(mappings[0], path) then Some(mappings[0].handler)
    else FirstMatch(mappings[1..], path)
  }

  lemma {:induction false} FirstMatchAt(mappings: seq<Mapping>, path: string, k: nat)
    requires k <= |mappings| && forall j :: 0 <= j < k ==> !Matches(mappings[j], path)
    ensures FirstMatch(mappings, path) ==
            if k == |mappings| then None
            else if Matches(mappings[k], path) then Some(mappings[k].handler)
            else FirstMatch(mappings[k + 1..], path)
  {
    if k > 0 {
      assert !Matches(mappings[0], path);
      FirstMatchAt(mappings[1..], path, k - 1);
      if k < |mappings| {
        assert mappings[1..][k - 1 + 1..] == mappings[k + 1..];
      }
    }
  }

  /** No path matches two mappings: the order of the mappings does not matter. */
  lemma MappingsAreDisjoint(skipLogs: bool, path: string, i: nat, j: nat)
    requires i < j < |Mappings(skipLogs)|
    ensures !(Matches(Mappings(skipLogs)[i], path) && Matches(Mappings(skipLogs)[j], path))
  {
    var other := Mappings(skipLogs)[j].path;
    assert other in {HEALTH_PATH, METRICS_PATH, PUSH_METRICS_PATH, LOGS_PATH, PUSH_LOGS_PATH};
    assert EXECUTE_PREFIX[8] == METRICS_PATH[8] == LOGS_PATH[8] == 'a' && HEALTH_PATH[8] == 't';
    assert EXECUTE_PREFIX[14] == 'e' && METRICS_PATH[14] == 'm' && LOGS_PATH[14] == 'l';
    assert PUSH_METRICS_PATH[0] == 'p' && PUSH_LOGS_PATH[0] == 'p' && EXECUTE_PREFIX[0] == '/';
    assert PUSH_METRICS_PATH[5] == 'm' && PUSH_LOGS_PATH[5] == 'l';
    assert HEALTH_PATH[0] == METRICS_PATH[0] == LOGS_PATH[0] == '/';
  }

  /** What is first matched is whatever matches. */
  lemma OnlyMatch(skipLogs: bool, path: string, k: nat)
    requires k < |Mappings(skipLogs)| && Matches(Mappings(skipLogs)[k], path)
    ensures FirstMatch(Mappings(skipLogs), path) == Some(Mappings(skipLogs)[k].handler)
  {
    forall j: nat | j < k
      ensures !Matches(Mappings(skipLogs)[j], path)
    {
      MappingsAreDisjoint(skipLogs, path, j, k);
    }
    FirstMatchAt(Mappings(skipLogs), path, k);
  }

  /** Which handler a path gets, whatever order the mappings are tried in. */
  lemma ResolvedHandler(skipLogs: bool, path: string)
    ensures var h := FirstMatch(Mappings(skipLogs), path);
            && (h == Some(ExecuteAgent) <==> EXECUTE_PREFIX <= path)
            && (h == Some(Health) <==> path == HEALTH_PATH)
            && (h == Some(GetMetrics) <==> path == METRICS_PATH)
            && (h == Some(PushMetrics) <==> path == PUSH_METRICS_PATH)
            && (h == Some(GetLogs) <==> path == LOGS_PATH && !skipLogs)
            && (h == Some(PushLogs) <==> path == PUSH_LOGS_PATH && !skipLogs)
  {
    var ms := Mappings(skipLogs);
    if Matches(ms[0], path) {
      OnlyMatch(skipLogs, path, 0);
    } else if Matches(ms[1], path) {
      OnlyMatch(skipLogs, path, 1);
    } else if Matches(ms[2], path) {
      OnlyMatch(skipLogs, path, 2);
    } else if Matches(ms[3], path) {
      OnlyMatch(skipLogs, path, 3);
    } else if !skipLogs && Matches(ms[4], path) {
      OnlyMatch(skipLogs, path, 4);
    } else if !skipLogs && Matches(ms[5], path) {
      OnlyMatch(skipLogs, path, 5);
    } else {
      FirstMatchAt(ms, path, |ms|);
    }
  }

  // ---------------------------------------------------------------- executing

  /** What the body of a handler does: return a value, None included, or raise. */
  datatype Work = Returns(value: Json) | Raises(message: string, kind: string)

  datatype Content =
    | Value(value: Json)
    | Wrapped(result: Json, traceId: Json)
    | Failure(message: string)

  /** The text of an error result: the exception's own, or one naming its type. */
  function ErrorText(message: string, kind: string): string {
    if message != "" then message else "Unknown error: " + kind
  }

  /** What executing a scheduled operation does to the results queue: one result, none, or none and a raise. */
  datatype Response = Report(content: Content) | Quiet | Raise

  function RunHandler(cfg: Config, handler: Handler, id: Json, event: Event, work: Work): Response {
    var operation := Get(event, OPERATION, EMPTY_OBJECT);
    match handler
    case ExecuteAgent =>
      Report(if work.Raises? then Failure(ErrorText(work.message, work.kind)) else Value(work.value))
    case Health =>
      if !operation.Object? then Report(Failure("no attribute 'get'"))
      else Report(if work.Raises? then Failure(ErrorText(work.message, work.kind)) else Value(work.value))
    case GetMetrics =>
      if !operation.Object? then Raise
      else if work.Raises? then Report(Failure(ErrorText(work.message, work.kind)))
      else Report(Wrapped(work.value, Get(operation.fields, TRACE_ID, id)))
    case GetLogs =>
      if !cfg.hasLogs then Quiet
      else if !operation.Object? then Raise
      else if work.Raises? then Report(Failure(ErrorText(work.message, work.kind)))
      else Report(Wrapped(work.value, Get(operation.fields, TRACE_ID, id)))
    case PushMetrics => if work.Raises? then Raise else Quiet
    case PushLogs => if cfg.hasLogs && work.Raises? then Raise else Quiet
  }

  /** _execute_scheduled_operation */
  function Respond(cfg: Config, id: Json, event: Event, work: Work): Response {
    var path := Get(event, PATH, Text(""));
    if !path.Text? then Raise
    else match FirstMatch(Mappings(cfg.skipLogs), path.s)
      case None => Report(Failure("Unsupported operation path: " + path.s))
      case Some(handler) => RunHandler(cfg, handler, id, event, work)
  }

  /** The paths whose operations are not answered with a result. */
  predicate AnsweredPath(cfg: Config, path: string) {
    && path != PUSH_METRICS_PATH
    && (cfg.skipLogs || path != PUSH_LOGS_PATH)
    && (cfg.skipLogs || cfg.hasLogs || path != LOGS_PATH)
  }

  /** Metrics and logs look into the operation before guarding against exceptions. */
  predicate LooksUnguarded(cfg: Config, path: string) {
    path == METRICS_PATH || (path == LOGS_PATH && !cfg.skipLogs)
  }

  /**
   An operation is answered with exactly one result, whether its work returns or raises, if and
   only if its path is a text with an answer and, for metrics and logs, its operation entry is
   missing or an object.
   */
  lemma AnsweredExactlyWhen(cfg: Config, id: Json, event: Event, work: Work)
    ensures Respond(cfg, id, event, work).Report? <==>
              && Get(event, PATH, Text("")).Text?
              && AnsweredPath(cfg, Get(event, PATH, Text("")).s)
              && (LooksUnguarded(cfg, Get(event, PATH, Text("")).s) ==> Get(event, OPERATION, EMPTY_OBJECT).Object?)
  {
    var path := Get(event, PATH, Text(""));
    if path.Text? {
      ResolvedHandler(cfg.skipLogs, path.s);
    }
  }

  /** The path has a handler that gets as far as doing its work. */
  predicate Served(cfg: Config, event: Event, path: string) {
    || EXECUTE_PREFIX <= path
    || (path == HEALTH_PATH && Get(event, OPERATION, EMPTY_OBJECT).Object?)
    || path == METRICS_PATH
    || (path == LOGS_PATH && !cfg.skipLogs && cfg.hasLogs)
  }

  /** What a handler that reports puts into its result. */
  lemma HandlerSays(cfg: Config, handler: Handler, id: Json, event: Event, work: Work)
    requires RunHandler(cfg, handler, id, event, work).Report?
    ensures var content := RunHandler(cfg, handler, id, event, work).content;
            && (content.Failure? <==> work.Raises? || (handler.Health? && !Get(event, OPERATION, EMPTY_OBJECT).Object?))
            && (content.Failure? ==> content.message != "")
            && (content.Value? ==> content.value == work.value && !handler.GetMetrics? && !handler.GetLogs?)
            && (content.Wrapped? ==>
                  && content.result == work.value && (handler.GetMetrics? || (handler.GetLogs? && cfg.hasLogs))
                  && content.traceId == Get(Get(event, OPERATION, EMPTY_OBJECT).fields, TRACE_ID, id))
            && (work.Raises? && work.message != ""
                && (!handler.Health? || Get(event, OPERATION, EMPTY_OBJECT).Object?) ==>
                  content == Failure(work.message))
            && (work.Raises? && work.message == ""
                && (!handler.Health? || Get(event, OPERATION, EMPTY_OBJECT).Object?) ==>
                  content == Failure("Unknown error: " + work.kind))
  {
  }

  /**
   What the one result says. If the work was done: what it returned, for metrics and logs
   under the operation's own trace id or else its operation id; or, if it raised, an error text
   that is never empty and is the exception's own unless that is. If it was not: an error.
   */
  lemma AnswerSays(cfg: Config, id: Json, event: Event, work: Work)
    requires Respond(cfg, id, event, work).Report?
    ensures var content, path := Respond(cfg, id, event, work).content, Get(event, PATH, Text("")).s;
            && (content.Failure? <==> work.Raises? || !Served(cfg, event, path))
            && (content.Value? ==> content.value == work.value && !LooksUnguarded(cfg, path))
            && (content.Wrapped? ==>
                  && content.result == work.value && LooksUnguarded(cfg, path)
                  && content.traceId == Get(Get(event, OPERATION, EMPTY_OBJECT).fields, TRACE_ID, id))
            && (content.Failure? ==> content.message != "")
            && (work.Raises? && Served(cfg, event, path) ==>
                  content == Failure(if work.message != "" then work.message else "Unknown error: " + work.kind))
            && (FirstMatch(Mappings(cfg.skipLogs), path).None? ==>
                  content == Failure("Unsupported operation path: " + path))
  {
    var path := Get(event, PATH, Text("")).s;
    ResolvedHandler(cfg.skipLogs, path);
    PathsApart(path);
    match FirstMatch(Mappings(cfg.skipLogs), path)
    case None =>
    case Some(handler) => HandlerSays(cfg, handler, id, event, work);
  }

  /** The paths that are not served alike are different. */
  lemma PathsApart(path: string)
    ensures EXECUTE_PREFIX <= path ==> path != HEALTH_PATH && path != METRICS_PATH && path != LOGS_PATH
    ensures HEALTH_PATH != METRICS_PATH && HEALTH_PATH != LOGS_PATH && METRICS_PATH != LOGS_PATH
  {
    assert EXECUTE_PREFIX[8] == METRICS_PATH[8] == LOGS_PATH[8] == 'a' && HEALTH_PATH[8] == 't';
    assert EXECUTE_PREFIX[14] == 'e' && METRICS_PATH[14] == 'm' && LOGS_PATH[14] == 'l';
  }

  /** A metrics request whose operation entry is null is never answered. */
  lemma NullOperationIsNotAnswered(cfg: Config, id: Json, work: Work)
    ensures var event := map[PATH := Text(METRICS_PATH), OPERATION := Null];
            !Respond(cfg, id, event, work).Report?
  {
    var event := map[PATH := Text(METRICS_PATH), OPERATION := Null];
    assert PATH[0] == 'p' && OPERATION[0] == 'o';
    AnsweredExactlyWhen(cfg, id, event, work);
  }

  /**
   _execute_operation lets no such operation through: what it schedules, downloaded or not, is
   answered exactly once if its path is a text that has an answer, and never otherwise.
   */
  lemma AdmittedIsAnswered(cfg: Config, id: Json, event: Event, d: Download, work: Work)
    requires Admit(event, d).Some?
    ensures var scheduled := Admit(event, d).value;
            && Get(scheduled, PATH, Text("")) == Get(event, PATH, Text(""))
            && (Respond(cfg, id, scheduled, work).Report? <==>
                  Get(event, PATH, Text("")).Text? && AnsweredPath(cfg, Get(event, PATH, Text("")).s))
  {
    assert PATH[0] == 'p' && OPERATION[0] == 'o';
    AnsweredExactlyWhen(cfg, id, Admit(event, d).value, work);
  }
}
