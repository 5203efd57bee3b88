/**
 * The request checks of src/server.cpp: the control handlers validate a JSON
 * body and either reject it, queue a task, or run an operation on the
 * controller directly; the device-state handler projects the state onto the
 * requested fields. `authenticate_request` (the IP whitelist and, when
 * enabled, HTTP Basic credentials) is modelled as written, but the routes
 * `init_routes` registers go straight to the handlers and never call it:
 * `Dispatch` is the routing as written, `GuardedDispatch` the routing with
 * the check in front that `handle_request` evidently intends. The HTTP
 * framework, JSON parsing and base64 decoding are the environment: a body is
 * a map from field names to values, and decoding is a function parameter.
 */
module Server {
  import opened Text
  import TaskManager
  import PlcManager
  import ConfigManager

  /** A field of a request body: a number, a string, or anything else (which neither conversion accepts). */
  datatype Json = JNumber(n: int) | JString(s: string) | JOther

  type Body = map<string, Json>

  /** Why a request is answered with BadRequest. */
  datatype Rejection =
    | Incomplete     // a required field is missing
    | NotConvertible // `as_integer` or `as_string` threw
    | BadPlatform    // `platformNum` is neither 1 nor 2
    | BadState       // `state` or `mode` is not one of the handler's two words

  /** What a control handler does with a request. */
  datatype Outcome =
    | Rejected(reason: Rejection)
    | Enqueued(task: TaskManager.AsyncTask)
    | Executed(operation: string)

  // ---------------------------------------------------------------------------
  // Control handlers
  // ---------------------------------------------------------------------------

  /** `handle_support_control`: the fields, then their types, then `state` ∈ {rigid, flexible}. */
  function SupportControl(body: Body): (r: Outcome)
    ensures !("taskId" in body && "defectId" in body && "state" in body) ==> r == Rejected(Incomplete)
    ensures r.Enqueued? <==>
      "taskId" in body && "defectId" in body && "state" in body
      && body["taskId"].JNumber? && body["defectId"].JNumber? && body["state"].JString?
      && (body["state"].s == "rigid" || body["state"].s == "flexible")
    ensures r.Enqueued? ==> r.task == TaskManager.AsyncTask(body["taskId"].n, body["defectId"].n, body["state"].s, "")
    ensures !r.Executed?
  {
    if !("taskId" in body && "defectId" in body && "state" in body) then Rejected(Incomplete)
    else if !(body["taskId"].JNumber? && body["defectId"].JNumber? && body["state"].JString?) then Rejected(NotConvertible)
    else if body["state"].s != "rigid" && body["state"].s != "flexible" then Rejected(BadState)
    else Enqueued(TaskManager.AsyncTask(body["taskId"].n, body["defectId"].n, body["state"].s, ""))
  }

  /**
   * `handle_platform_height_control` (states "up"/"down") and
   * `handle_platform_horizontal_control` (states "level"/"level_reset"):
   * the fields, their types, the platform number, and only then the state.
   */
  function PlatformControl(body: Body, first: string, second: string): (r: Outcome)
    ensures !("taskId" in body && "defectId" in body && "platformNum" in body && "state" in body) ==> r == Rejected(Incomplete)
    ensures r.Enqueued? <==>
      "taskId" in body && "defectId" in body && "platformNum" in body && "state" in body
      && body["taskId"].JNumber? && body["defectId"].JNumber? && body["platformNum"].JNumber? && body["state"].JString?
      && (body["platformNum"].n == 1 || body["platformNum"].n == 2)
      && (body["state"].s == first || body["state"].s == second)
    ensures r.Enqueued? ==> r.task == TaskManager.AsyncTask(body["taskId"].n, body["defectId"].n, body["state"].s,
      NatToString(body["platformNum"].n))
    ensures r == Rejected(BadState) ==>
      "platformNum" in body && (body["platformNum"] == JNumber(1) || body["platformNum"] == JNumber(2))
    ensures !r.Executed?
  {
    if !("taskId" in body && "defectId" in body && "platformNum" in body && "state" in body) then Rejected(Incomplete)
    else if !(body["taskId"].JNumber? && body["defectId"].JNumber? && body["platformNum"].JNumber? && body["state"].JString?)
    then Rejected(NotConvertible)
    else if body["platformNum"].n != 1 && body["platformNum"].n != 2 then Rejected(BadPlatform)
    else if body["state"].s != first && body["state"].s != second then Rejected(BadState)
    else Enqueued(TaskManager.AsyncTask(body["taskId"].n, body["defectId"].n, body["state"].s, NatToString(body["platformNum"].n)))
  }

  function HeightControl(body: Body): Outcome
  {
    PlatformControl(body, "up", "down")
  }

  function HorizontalControl(body: Body): Outcome
  {
    PlatformControl(body, "level", "level_reset")
  }

  /**
   * The handlers that run an operation directly (`handle_power_control`,
   * `handle_motor_control`): `field` must be a string and one of `yes` or
   * `no`; `yes` runs `onYes`, `no` runs `onNo`.
   */
  function Switch(body: Body, field: string, yes: string, no: string, onYes: string, onNo: string): (r: Outcome)
    ensures field !in body ==> r == Rejected(Incomplete)
    ensures r.Executed? <==> field in body && body[field].JString? && (body[field].s == yes || body[field].s == no)
    ensures r.Executed? ==> r.operation == if body[field].s == yes then onYes else onNo
    ensures !r.Enqueued?
  {
    if field !in body then Rejected(Incomplete)
    else if !body[field].JString? then Rejected(NotConvertible)
    else if body[field].s != yes && body[field].s != no then Rejected(BadState)
    else Executed(if body[field].s == yes then onYes else onNo)
  }

  function PowerControl(body: Body): Outcome
  {
    Switch(body, "state", "on", "off", "power_on", "power_off")
  }

  function MotorControl(body: Body): Outcome
  {
    Switch(body, "state", "start", "stop", "motor_start", "motor_stop")
  }

  /** `handle_operation_mode`: the mode word itself is the operation. */
  function OperationMode(body: Body): Outcome
  {
    Switch(body, "mode", "auto", "manual", "auto", "manual")
  }

  // ---------------------------------------------------------------------------
  // From request to coil
  // ---------------------------------------------------------------------------

  /** A well-formed support request queues exactly its values, with no target. */
  lemma SupportRequestQueued(taskId: int, defectId: int, state: string)
    requires state == "rigid" || state == "flexible"
    ensures SupportControl(map["taskId" := JNumber(taskId), "defectId" := JNumber(defectId), "state" := JString(state)])
      == Enqueued(TaskManager.AsyncTask(taskId, defectId, state, ""))
  {
  }

  /** Support requests reach the first two coils: rigid support 177 and flexible reset 178. */
  lemma SupportRequestReachesCoil(body: Body)
    requires SupportControl(body).Enqueued?
    ensures var t := SupportControl(body).task;
      PlcManager.CoilFor(TaskManager.PlcCommand(t.operation, t.target))
        == Some(if t.operation == "rigid" then 177 else 178)
  {
  }

  /**
   * Height requests reach the coil of their platform and direction: up 179
   * and down 180 on platform 1, up 181 and down 182 on platform 2.
   */
  lemma HeightRequestReachesCoil(body: Body)
    requires HeightControl(body).Enqueued?
    ensures var t := HeightControl(body).task;
      var p := body["platformNum"].n;
      PlcManager.CoilFor(TaskManager.PlcCommand(t.operation, t.target))
        == Some(179 + 2 * (p - 1) + (if t.operation == "down" then 1 else 0))
  {
    var t := HeightControl(body).task;
    if body["platformNum"].n == 1 {
      assert t.target == NatToString(1) == "1";
      if t.operation == "up" {
        assert TaskManager.PlcCommand(t.operation, t.target) == "平台1上升";
      } else {
        assert TaskManager.PlcCommand(t.operation, t.target) == "平台1下降";
      }
    } else {
      assert t.target == NatToString(2) == "2";
      if t.operation == "up" {
        assert TaskManager.PlcCommand(t.operation, t.target) == "平台2上升";
      } else {
        assert TaskManager.PlcCommand(t.operation, t.target) == "平台2下降";
      }
    }
  }

  /**
   * Leveling requests are accepted and queued, but the worker turns them into
   * "调平启动"/"调平停止", which the controller's command table does not
   * know; the worker still reports "success", because it ignores the result.
   */
  lemma LevelingRequestsReachNoCoil(body: Body)
    requires HorizontalControl(body).Enqueued?
    ensures var t := HorizontalControl(body).task;
      PlcManager.CoilFor(TaskManager.PlcCommand(t.operation, t.target)).None?
      && TaskManager.TaskCallback(t, TaskManager.Returned(false))
        == Some(TaskManager.HorizontalCallback(t.taskId, t.defectId, body["platformNum"].n, "success"))
  {
    StoiOfNatToString(body["platformNum"].n);
  }

  /** The power, motor and mode handlers run operation names the controller's command table does not know. */
  lemma DirectOperationsReachNoCoil(body: Body)
    ensures PowerControl(body).Executed? ==> PlcManager.CoilFor(PowerControl(body).operation).None?
    ensures MotorControl(body).Executed? ==> PlcManager.CoilFor(MotorControl(body).operation).None?
    ensures OperationMode(body).Executed? ==> PlcManager.CoilFor(OperationMode(body).operation).None?
  {
  }

  // ---------------------------------------------------------------------------
  // Field filtering
  // ---------------------------------------------------------------------------

  /** The state fields kept for a request naming `fields`: "msg", "timestamp" and the named ones present. */
  function Project(full: map<string, Json>, fields: seq<string>): (r: map<string, Json>)
    ensures forall k :: k in r <==> k in full && (k == "msg" || k == "timestamp" || k in fields)
    ensures forall k :: k in r ==> r[k] == full[k]
  {
    map k | k in full && (k == "msg" || k == "timestamp" || k in fields) :: full[k]
  }

  /** Filtering an already filtered state with the same fields changes nothing. */
  lemma ProjectIdempotent(full: map<string, Json>, fields: seq<string>)
    ensures Project(Project(full, fields), fields) == Project(full, fields)
  {
  }

  /** Naming every field of the state gives back the whole state. */
  lemma ProjectAllFields(full: map<string, Json>, fields: seq<string>)
    requires forall k :: k in full ==> k in fields
    ensures Project(full, fields) == full
  {
  }

  /** The `fields` query items, when there are any: the filter applies only then. */
  function RequestedFields(query: map<string, string>): Option<seq<string>>
  {
    if "fields" in query && GetlineItems(query["fields"], ',') != [] then Some(GetlineItems(query["fields"], ','))
    else None
  }

  /** The body `handle_device_state` replies with, given the full state and the query parameters. */
  method FilterFields(full: map<string, Json>, query: map<string, string>) returns (out: map<string, Json>)
    ensures out == match RequestedFields(query) case Some(fields) => Project(full, fields) case None => full
  {
    if query == map[] || "fields" !in query {
      return full;
    }
    var fields := GetlineItems(query["fields"], ',');
    if fields == [] {
      return full;
    }
    out := map[];
    if "msg" in full {
      out := out["msg" := full["msg"]];
    }
    if "timestamp" in full {
      out := out["timestamp" := full["timestamp"]];
    }
    var i := 0;
    while i < |fields|
      invariant 0 <= i <= |fields|
      invariant out == Project(full, fields[..i])
    {
      var field := fields[i];
      assert forall k :: k in fields[..i + 1] <==> k in fields[..i] || k == field;
      if field in full {
        out := out[field := full[field]];
      }
      i := i + 1;
    }
    assert fields[..i] == fields;
  }

  // ---------------------------------------------------------------------------
  // Authentication
  // ---------------------------------------------------------------------------

  /** The decoded Basic credentials split at the first ':' into user name and password, or None without a ':'. */
  function Credentials(decoded: string): (r: Option<(string, string)>)
    ensures r.Some? <==> ':' in decoded
    ensures r.Some? ==> ':' !in r.value.0 && decoded == r.value.0 + ":" + r.value.1
  {
    match IndexOf(decoded, ':')
    case None => None
    case Some(i) => Some((decoded[..i], decoded[i + 1..]))
  }

  /** A user name without ':' and any password, joined by ':', split back into the two. */
  lemma CredentialsOfJoined(user: string, password: string)
    requires ':' !in user
    ensures Credentials(user + ":" + password) == Some((user, password))
  {
    var d := user + ":" + password;
    assert d[|user|] == ':' && d[..|user|] == user;
    assert IndexOf(d, ':') == Some(|user|);
    assert d[|user| + 1..] == password;
  }

  /**
   * `authenticate_request`: the client address must pass the whitelist; with
   * Basic authentication on, the header must be present, start with "Basic ",
   * and its decoded text must split into the configured user name and password.
   */
  function Authenticate(config: ConfigManager.Settings, clientIp: string, header: Option<string>,
                        decode: string -> string): bool
  {
    if !ConfigManager.Whitelisted(config, clientIp) then false
    else if !config.basicAuth then true
    else match header
      case None => false
      case Some(auth) =>
        if !StartsWith(auth, "Basic ") then false
        else match Credentials(decode(auth[6..]))
          case None => false
          case Some(pair) => pair.0 == config.username && pair.1 == config.password
  }

  /**
   * A request is let in exactly when its address passes the whitelist and,
   * with Basic authentication on, its header is "Basic " followed by text
   * that decodes to the user name, ':' and the password. The password may
   * itself contain ':'; a configured user name containing ':' never matches.
   */
  lemma AuthenticateExactly(config: ConfigManager.Settings, clientIp: string, header: Option<string>,
                            decode: string -> string)
    ensures Authenticate(config, clientIp, header, decode) <==>
      ConfigManager.Whitelisted(config, clientIp)
      && (config.basicAuth ==>
        header.Some? && StartsWith(header.value, "Basic ") && ':' !in config.username
        && decode(header.value[6..]) == config.username + ":" + config.password)
  {
    if ConfigManager.Whitelisted(config, clientIp) && config.basicAuth && header.Some? && StartsWith(header.value, "Basic ") {
      var decoded := decode(header.value[6..]);
      if ':' !in config.username && decoded == config.username + ":" + config.password {
        CredentialsOfJoined(config.username, config.password);
      }
    }
  }

  // ---------------------------------------------------------------------------
  // Routing
  // ---------------------------------------------------------------------------

  datatype HttpMethod = Get | Post | OtherMethod

  /** The handler a request reaches, or the status it is answered with instead of one. */
  datatype Route =
    | Health | DeviceState | SystemInfo
    | SupportRoute | HeightRoute | HorizontalRoute | PowerRoute | MotorRoute | ModeRoute | ErrorReport
    | NotFound | MethodNotAllowed | Unauthorized

  const GET_PATHS: set<string> := {"/stability/health", "/stability/device/state", "/stability/system/info"}

  const POST_PATHS: set<string> := {
    "/stability/support/control", "/stability/platformHeight/control", "/stability/platformHorizontal/control",
    "/stability/power/control", "/stability/motor/control", "/stability/operation/mode", "/stability/error/report"}

  /**
   * `init_routes`: a GET or POST path selects its handler, any other path of
   * those methods is NotFound, and any other method is MethodNotAllowed.
   * Nothing here answers Unauthorized.
   */
  function RouteOf(verb: HttpMethod, path: string): (r: Route)
    ensures r == MethodNotAllowed <==> verb == OtherMethod
    ensures r == NotFound <==> (verb == Get && path !in GET_PATHS) || (verb == Post && path !in POST_PATHS)
    ensures r in {Health, DeviceState, SystemInfo} <==> verb == Get && path in GET_PATHS
    ensures r != Unauthorized
  {
    match verb
    case Get =>
      if path == "/stability/health" then Health
      else if path == "/stability/device/state" then DeviceState
      else if path == "/stability/system/info" then SystemInfo
      else NotFound
    case Post =>
      if path == "/stability/support/control" then SupportRoute
      else if path == "/stability/platformHeight/control" then HeightRoute
      else if path == "/stability/platformHorizontal/control" then HorizontalRoute
      else if path == "/stability/power/control" then PowerRoute
      else if path == "/stability/motor/control" then MotorRoute
      else if path == "/stability/operation/mode" then ModeRoute
      else if path == "/stability/error/report" then ErrorReport
      else NotFound
    case OtherMethod => MethodNotAllowed
  }

  /**
   * What the listener does with a request as the routes are registered: the
   * client address and the Authorization header play no part, because
   * `handle_request`, the only caller of `authenticate_request`, is never
   * registered.
   */
  function Dispatch(config: ConfigManager.Settings, verb: HttpMethod, path: string,
                    clientIp: string, header: Option<string>, decode: string -> string): Route
  {
    RouteOf(verb, path)
  }

  /** As registered, a request the checks would refuse still reaches its handler. */
  lemma UnauthenticatedRequestsServed(config: ConfigManager.Settings, verb: HttpMethod, path: string,
                                      clientIp: string, header: Option<string>, decode: string -> string)
    requires !Authenticate(config, clientIp, header, decode)
    requires verb == Post && path in POST_PATHS
    ensures Dispatch(config, verb, path, clientIp, header, decode) !in {NotFound, MethodNotAllowed, Unauthorized}
  {
  }

  /**
   * A concrete instance: Basic authentication on, no Authorization header,
   * and the support-control request is queued all the same.
   */
  lemma MissingCredentialsStillControlSupports(decode: string -> string)
    ensures var config := ConfigManager.DEFAULTS.(basicAuth := true, username := "admin", password := "secret");
      && !Authenticate(config, "10.0.0.1", None, decode)
      && Dispatch(config, Post, "/stability/support/control", "10.0.0.1", None, decode) == SupportRoute
  {
  }

  /**
   * The routing `handle_request` evidently intends: a request that fails
   * `authenticate_request` is answered Unauthorized, and any other request is
   * routed as registered.
   */
  function GuardedDispatch(config: ConfigManager.Settings, verb: HttpMethod, path: string,
                           clientIp: string, header: Option<string>, decode: string -> string): (r: Route)
    ensures r == Unauthorized <==> !Authenticate(config, clientIp, header, decode)
    ensures r != Unauthorized ==> r == Dispatch(config, verb, path, clientIp, header, decode)
  {
    if !Authenticate(config, clientIp, header, decode) then Unauthorized else RouteOf(verb, path)
  }

  /** With the guard, a refused request reaches no handler, whatever its verb and path. */
  lemma GuardedDispatchRefuses(config: ConfigManager.Settings, verb: HttpMethod, path: string,
                               clientIp: string, header: Option<string>, decode: string -> string)
    requires config.ipWhitelist && forall i :: 0 <= i < |config.allowedIps| ==> config.allowedIps[i] != clientIp
    ensures GuardedDispatch(config, verb, path, clientIp, header, decode) == Unauthorized
  {
  }
}
