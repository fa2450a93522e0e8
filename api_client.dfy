/** The dashboard's backend client: request construction, uniform error
    wrapping, the list accessors that default to an empty list, and the
    resilient aggregation that falls back to three narrower calls when the
    all-in-one dashboard endpoint fails.

    HTTP is an oracle: a `Backend` maps each request the client sends to the
    reply it gets. Every operation returns its result together with the
    requests it sent, in order, so that call order can be stated. */
module ApiClient {
  import opened Wrappers
  import opened Json

  // ---------------------------------------------------------------------
  // Configuration

  const DefaultBackendUrl: string := "http://localhost:8000"
  const RequestTimeout: int := 10

  /** Immutable configuration set once at construction. */
  datatype Client = Client(baseUrl: string, timeout: int)

  /** `backendUrl` is the BACKEND_URL environment variable, when set. */
  function NewClient(backendUrl: Option<string>): (c: Client)
    ensures backendUrl.Some? ==> c.baseUrl == backendUrl.value
    ensures backendUrl.None? ==> c.baseUrl == "http://localhost:8000"
    ensures c.timeout == 10
  {
    Client(if backendUrl.Some? then backendUrl.value else DefaultBackendUrl, RequestTimeout)
  }

  // ---------------------------------------------------------------------
  // Requests, replies and errors

  datatype Method = GET | POST | DELETE

  /** Query parameters in the order the client lists them. */
  type Params = seq<(string, Json)>

  datatype Request = Request(verb: Method, url: string, params: Option<Params>, body: Option<Json>, timeout: int)

  datatype Body = Parsed(json: Json) | Unparseable(cause: string)

  /** What the transport produces for one request: a transport failure
      (connection refused, timeout, ...) or a response with a status, the
      text of the HTTP error the transport reports for an error status, and
      the body as JSON decoding sees it. */
  datatype Reply =
    | Unreachable(cause: string)
    | Answered(status: int, errorText: string, body: Body)

  type Backend = Request -> Reply

  /** The statuses the transport's status check rejects. */
  predicate IsErrorStatus(status: int) {
    400 <= status < 600
  }

  /** The exceptions the client can raise. */
  datatype Err =
    | ApiError(cause: string)               // any transport, status or decoding failure
    | NoGetMethod(typeName: string)         // `.get` on a body that is not an object
    | NotSubscriptable(typeName: string)    // indexing a truthy scalar
    | MissingIndexKey                       // indexing a non-empty object with 0
    | AggregationFailed(inner: Err)         // a fallback sub-call failed

  /** The text the exception carries. */
  function Message(e: Err): (text: string)
    ensures e.ApiError? ==> StartsWith(text, "API Error: ") && text[|"API Error: "|..] == e.cause
    ensures e.AggregationFailed? ==>
      && StartsWith(text, "Failed to aggregate data: ")
      && text[|"Failed to aggregate data: "|..] == Message(e.inner)
  {
    match e
    case ApiError(cause) => "API Error: " + cause
    case NoGetMethod(t) => "'" + t + "' object has no attribute 'get'"
    case NotSubscriptable(t) => "'" + t + "' object is not subscriptable"
    case MissingIndexKey => "0"
    case AggregationFailed(inner) => "Failed to aggregate data: " + Message(inner)
  }

  /** The error normalisation shared by GET, POST and DELETE: a transport
      failure, an error status or an undecodable body all become one
      "API Error: " exception carrying the cause; otherwise the decoded body
      is returned as it is. */
  function Normalise(reply: Reply): (r: Result<Json, Err>)
    ensures r.Ok? <==> reply.Answered? && !IsErrorStatus(reply.status) && reply.body.Parsed?
    ensures r.Ok? ==> r.value == reply.body.json
    ensures r.Err? ==> r.error.ApiError? && StartsWith(Message(r.error), "API Error: ")
    ensures reply.Unreachable? ==> r == Err(ApiError(reply.cause))
    ensures reply.Answered? && IsErrorStatus(reply.status) ==> r == Err(ApiError(reply.errorText))
    ensures reply.Answered? && !IsErrorStatus(reply.status) && reply.body.Unparseable? ==> r == Err(ApiError(reply.body.cause))
  {
    match reply
    case Unreachable(cause) => Err(ApiError(cause))
    case Answered(status, errorText, body) =>
      if IsErrorStatus(status) then Err(ApiError(errorText))
      else match body
        case Parsed(j) => Ok(j)
        case Unparseable(cause) => Err(ApiError(cause))
  }

  /** One operation's result and the requests it sent, in order. */
  datatype Call = Call(result: Result<Json, Err>, trace: seq<Request>)

  function Send(backend: Backend, req: Request): Call {
    Call(Normalise(backend(req)), [req])
  }

  /** The request URL is the base URL followed by the endpoint; both can be
      read back from it. */
  function Url(client: Client, endpoint: string): (url: string)
    ensures |url| == |client.baseUrl| + |endpoint|
    ensures url[..|client.baseUrl|] == client.baseUrl
    ensures url[|client.baseUrl|..] == endpoint
  {
    client.baseUrl + endpoint
  }

  function GetRequest(client: Client, endpoint: string, params: Option<Params>): Request {
    Request(GET, Url(client, endpoint), params, None, client.timeout)
  }

  function PostRequest(client: Client, endpoint: string, data: Option<Json>, params: Option<Params>): Request {
    Request(POST, Url(client, endpoint), params, data, client.timeout)
  }

  function DeleteRequest(client: Client, endpoint: string): Request {
    Request(DELETE, Url(client, endpoint), None, None, client.timeout)
  }

  // ---------------------------------------------------------------------
  // Endpoints

  const HealthPath: string := "/health"
  const DashboardDataPrefix: string := "/api/v1/dashboard/data/"
  const DevicesPath: string := "/api/v1/dashboard/devices"
  const BlockchainLogsPath: string := "/api/v1/dashboard/blockchain/logs"
  const AnalyticsPrefix: string := "/api/v1/dashboard/analytics/"
  const SensorStatusPrefix: string := "/api/v1/sensor/status/"
  const SensorHistoryPrefix: string := "/api/v1/sensor/history/"
  const ControlStatusPrefix: string := "/api/v1/control/status/"
  const OverridePath: string := "/api/v1/control/override"
  const OverridePrefix: string := "/api/v1/control/override/"

  // Default arguments of the list and analytics calls.
  const DefaultLogsLimit: int := 20
  const DefaultAnalyticsHours: int := 24
  const DefaultHistoryLimit: int := 50

  function HealthRequest(client: Client): Request {
    GetRequest(client, HealthPath, None)
  }

  function DashboardDataRequest(client: Client, deviceId: string): Request {
    GetRequest(client, DashboardDataPrefix + deviceId, None)
  }

  function DevicesRequest(client: Client): Request {
    GetRequest(client, DevicesPath, None)
  }

  function BlockchainLogsRequest(client: Client, limit: int): Request {
    GetRequest(client, BlockchainLogsPath, Some([("limit", JInt(limit))]))
  }

  function AnalyticsRequest(client: Client, deviceId: string, hours: int): Request {
    GetRequest(client, AnalyticsPrefix + deviceId, Some([("hours", JInt(hours))]))
  }

  function SensorStatusRequest(client: Client, deviceId: string): Request {
    GetRequest(client, SensorStatusPrefix + deviceId, None)
  }

  function SensorHistoryRequest(client: Client, deviceId: string, limit: int): Request {
    GetRequest(client, SensorHistoryPrefix + deviceId, Some([("limit", JInt(limit))]))
  }

  function ControlStatusRequest(client: Client, deviceId: string): Request {
    GetRequest(client, ControlStatusPrefix + deviceId, None)
  }

  function SetOverrideRequest(client: Client, deviceId: string, fanOn: bool, fanIntensity: int): Request {
    PostRequest(client, OverridePath, None,
      Some([("device_id", JStr(deviceId)), ("fan_on", JBool(fanOn)), ("fan_intensity", JInt(fanIntensity))]))
  }

  function ClearOverrideRequest(client: Client, deviceId: string): Request {
    DeleteRequest(client, OverridePrefix + deviceId)
  }

  /** A device-scoped URL is the base URL, the fixed prefix and the device id,
      in that order, so the id can be read back and distinct devices never
      share a URL. */
  lemma DeviceScopedUrl(client: Client, prefix: string, a: string, b: string)
    ensures Url(client, prefix + a)[|client.baseUrl| + |prefix|..] == a
    ensures Url(client, prefix + a) == Url(client, prefix + b) ==> a == b
  {
  }

  /** Clearing an override deletes the device's override resource: its URL
      determines the device. */
  lemma ClearOverrideUrl(client: Client, a: string, b: string)
    ensures ClearOverrideRequest(client, a).verb == DELETE
    ensures ClearOverrideRequest(client, a).url[|client.baseUrl| + |OverridePrefix|..] == a
    ensures ClearOverrideRequest(client, a) == ClearOverrideRequest(client, b) ==> a == b
  {
    DeviceScopedUrl(client, OverridePrefix, a, b);
  }

  // ---------------------------------------------------------------------
  // Operations

  /** A single-request operation: it sends `req` and nothing else, and
      returns the normalised reply. */
  predicate SendsOnly(backend: Backend, req: Request, c: Call) {
    c.trace == [req] && c.result == Normalise(backend(req))
  }

  lemma ConcatAssociative(a: string, b: string, c: string)
    ensures a + b + c == a + (b + c)
  {
  }

  function HealthCheck(client: Client, backend: Backend): (c: Call)
    ensures SendsOnly(backend, Request(GET, client.baseUrl + "/health", None, None, client.timeout), c)
  {
    Send(backend, HealthRequest(client))
  }

  function GetDashboardData(client: Client, backend: Backend, deviceId: string): (c: Call)
    ensures SendsOnly(backend, Request(GET, client.baseUrl + "/api/v1/dashboard/data/" + deviceId, None, None, client.timeout), c)
  {
    ConcatAssociative(client.baseUrl, DashboardDataPrefix, deviceId);
    Send(backend, DashboardDataRequest(client, deviceId))
  }

  function GetAnalytics(client: Client, backend: Backend, deviceId: string, hours: int := DefaultAnalyticsHours): (c: Call)
    ensures SendsOnly(backend, Request(GET, client.baseUrl + "/api/v1/dashboard/analytics/" + deviceId,
      Some([("hours", JInt(hours))]), None, client.timeout), c)
  {
    ConcatAssociative(client.baseUrl, AnalyticsPrefix, deviceId);
    Send(backend, AnalyticsRequest(client, deviceId, hours))
  }

  function GetSensorStatus(client: Client, backend: Backend, deviceId: string): (c: Call)
    ensures SendsOnly(backend, Request(GET, client.baseUrl + "/api/v1/sensor/status/" + deviceId, None, None, client.timeout), c)
  {
    ConcatAssociative(client.baseUrl, SensorStatusPrefix, deviceId);
    Send(backend, SensorStatusRequest(client, deviceId))
  }

  function GetControlStatus(client: Client, backend: Backend, deviceId: string): (c: Call)
    ensures SendsOnly(backend, Request(GET, client.baseUrl + "/api/v1/control/status/" + deviceId, None, None, client.timeout), c)
  {
    ConcatAssociative(client.baseUrl, ControlStatusPrefix, deviceId);
    Send(backend, ControlStatusRequest(client, deviceId))
  }

  function SetControlOverride(client: Client, backend: Backend, deviceId: string, fanOn: bool, fanIntensity: int): (c: Call)
    ensures SendsOnly(backend, Request(POST, client.baseUrl + "/api/v1/control/override",
      Some([("device_id", JStr(deviceId)), ("fan_on", JBool(fanOn)), ("fan_intensity", JInt(fanIntensity))]),
      None, client.timeout), c)
  {
    Send(backend, SetOverrideRequest(client, deviceId, fanOn, fanIntensity))
  }

  function ClearControlOverride(client: Client, backend: Backend, deviceId: string): (c: Call)
    ensures SendsOnly(backend, Request(DELETE, client.baseUrl + "/api/v1/control/override/" + deviceId, None, None, client.timeout), c)
  {
    ConcatAssociative(client.baseUrl, OverridePrefix, deviceId);
    Send(backend, ClearOverrideRequest(client, deviceId))
  }

  /** `body.get(key, [])`: the value under `key`, the empty list when the
      key is absent, and an AttributeError when the body is not an object. */
  function ListField(body: Json, key: string): (r: Result<Json, Err>)
    ensures r.Ok? <==> body.JObj?
    ensures r.Ok? && key in body.fields ==> r.value == body.fields[key]
    ensures r.Ok? && key !in body.fields ==> r.value == JArr([])
    ensures r.Err? ==> r.error == NoGetMethod(TypeName(body))
  {
    match body
    case JObj(fields) => Ok(if key in fields then fields[key] else JArr([]))
    case _ => Err(NoGetMethod(TypeName(body)))
  }

  /** A single request whose decoded body is then read under `key`. */
  function ListCall(backend: Backend, req: Request, key: string): Call {
    var c := Send(backend, req);
    match c.result
    case Err(e) => c
    case Ok(body) => Call(ListField(body, key), c.trace)
  }

  /** A list accessor: it sends `req` and nothing else, fails exactly when
      that request fails or its body is not an object, and otherwise returns
      the value under `key`, or the empty list when the key is absent. */
  predicate ListAccessor(backend: Backend, req: Request, key: string, c: Call) {
    var n := Normalise(backend(req));
    && c.trace == [req]
    && (c.result.Ok? <==> n.Ok? && n.value.JObj?)
    && (n.Err? ==> c.result == n)
    && (n.Ok? && !n.value.JObj? ==> c.result == Err(NoGetMethod(TypeName(n.value))))
    && (c.result.Ok? ==> c.result.value == if key in n.value.fields then n.value.fields[key] else JArr([]))
  }

  function GetDevices(client: Client, backend: Backend): (c: Call)
    ensures ListAccessor(backend, Request(GET, client.baseUrl + "/api/v1/dashboard/devices", None, None, client.timeout), "devices", c)
  {
    ListCall(backend, DevicesRequest(client), "devices")
  }

  function GetBlockchainLogs(client: Client, backend: Backend, limit: int := DefaultLogsLimit): (c: Call)
    ensures ListAccessor(backend, Request(GET, client.baseUrl + "/api/v1/dashboard/blockchain/logs",
      Some([("limit", JInt(limit))]), None, client.timeout), "logs", c)
  {
    ListCall(backend, BlockchainLogsRequest(client, limit), "logs")
  }

  function GetSensorHistory(client: Client, backend: Backend, deviceId: string, limit: int := DefaultHistoryLimit): (c: Call)
    ensures ListAccessor(backend, Request(GET, client.baseUrl + "/api/v1/sensor/history/" + deviceId,
      Some([("limit", JInt(limit))]), None, client.timeout), "readings", c)
  {
    ConcatAssociative(client.baseUrl, SensorHistoryPrefix, deviceId);
    ListCall(backend, SensorHistoryRequest(client, deviceId, limit), "readings")
  }

  /** Without an explicit argument the logs call asks for 20 entries, the
      history call for 50 readings and the analytics call for 24 hours. */
  lemma DefaultArguments(client: Client, backend: Backend, deviceId: string)
    ensures GetBlockchainLogs(client, backend).trace[0].params == Some([("limit", JInt(20))])
    ensures GetSensorHistory(client, backend, deviceId).trace[0].params == Some([("limit", JInt(50))])
    ensures GetAnalytics(client, backend, deviceId).trace[0].params == Some([("hours", JInt(24))])
  {
  }

  /** The list accessors' shared reading of the body under a key. */
  lemma ListCallSpec(backend: Backend, req: Request, key: string)
    ensures ListAccessor(backend, req, key, ListCall(backend, req, key))
  {
  }

  /** An empty device list, or a reply without a device list, is an empty
      result and not an error. */
  lemma NoDevicesIsNotAnError(client: Client, backend: Backend, status: int, errorText: string)
    requires !IsErrorStatus(status)
    requires backend(DevicesRequest(client)) == Answered(status, errorText, Parsed(JObj(map["devices" := JArr([])])))
      || backend(DevicesRequest(client)) == Answered(status, errorText, Parsed(JObj(map[])))
    ensures GetDevices(client, backend).result == Ok(JArr([]))
  {
  }

  /** The override parameters carry the caller's values as given, in the
      order device id, fan state, intensity; nothing is clamped to 0..100. */
  lemma OverrideNotClamped(client: Client, backend: Backend, deviceId: string, fanOn: bool, fanIntensity: int)
    ensures var t := SetControlOverride(client, backend, deviceId, fanOn, fanIntensity).trace;
      && |t| == 1 && t[0].verb == POST && t[0].url == client.baseUrl + OverridePath
      && t[0].body == None && t[0].params.Some? && |t[0].params.value| == 3
      && t[0].params.value[0] == ("device_id", JStr(deviceId))
      && t[0].params.value[1] == ("fan_on", JBool(fanOn))
      && t[0].params.value[2] == ("fan_intensity", JInt(fanIntensity))
  {
  }

  // ---------------------------------------------------------------------
  // Aggregation

  const FallbackHistoryLimit: int := 1
  const FallbackLogsLimit: int := 10

  /** `history[0] if history else None`: a falsy history gives no reading; a
      non-empty list its first element; a non-empty string its first
      character; indexing a non-empty object or a truthy scalar raises. */
  function FirstOrNone(history: Json): (r: Result<Json, Err>)
    ensures !Truthy(history) ==> r == Ok(JNull)
    ensures history.JArr? && history.items != [] ==> r == Ok(history.items[0])
    ensures history.JArr? ==> r.Ok?
  {
    if !Truthy(history) then Ok(JNull)
    else match history
      case JArr(items) => Ok(items[0])
      case JStr(s) => Ok(JStr([s[0]]))
      case JObj(_) => Err(MissingIndexKey)
      case _ => Err(NotSubscriptable(TypeName(history)))
  }

  const PartialDataStatus: Json := JObj(map["status" := JStr("partial_data")])

  /** The fixed-shape degraded view. */
  function PartialView(currentReading: Json, controlStatus: Json, logs: Json): Json {
    JObj(map[
      "current_reading" := currentReading,
      "control_status" := controlStatus,
      "recent_logs" := logs,
      "system_health" := PartialDataStatus,
      "prediction" := JNull,
      "classification" := JNull,
      "recent_faults" := JArr([])
    ])
  }

  /** The three narrower calls, in order, stopping at the first failure,
      which is wrapped as an aggregation failure. */
  function Fallback(client: Client, backend: Backend, deviceId: string): (c: Call)
    ensures 1 <= |c.trace| <= 3
    ensures c.trace[0] == SensorHistoryRequest(client, deviceId, 1)
    ensures c.result.Err? ==> c.result.error.AggregationFailed?
    ensures c.result.Ok? ==> |c.trace| == 3
  {
    var h := GetSensorHistory(client, backend, deviceId, FallbackHistoryLimit);
    match h.result
    case Err(e) => Call(Err(AggregationFailed(e)), h.trace)
    case Ok(history) =>
      match FirstOrNone(history)
      case Err(e) => Call(Err(AggregationFailed(e)), h.trace)
      case Ok(current) =>
        var cs := GetControlStatus(client, backend, deviceId);
        match cs.result
        case Err(e) => Call(Err(AggregationFailed(e)), h.trace + cs.trace)
        case Ok(control) =>
          var lg := GetBlockchainLogs(client, backend, FallbackLogsLimit);
          match lg.result
          case Err(e) => Call(Err(AggregationFailed(e)), h.trace + cs.trace + lg.trace)
          case Ok(logs) => Call(Ok(PartialView(current, control, logs)), h.trace + cs.trace + lg.trace)
  }

  /** The composite endpoint first; on any failure, the fallback. */
  function GetAggregatedDashboardData(client: Client, backend: Backend, deviceId: string): (c: Call)
    ensures |c.trace| >= 1 && c.trace[0] == DashboardDataRequest(client, deviceId)
    ensures GetDashboardData(client, backend, deviceId).result.Ok? ==> c.trace == [DashboardDataRequest(client, deviceId)]
  {
    var primary := GetDashboardData(client, backend, deviceId);
    if primary.result.Ok? then primary
    else
      var fb := Fallback(client, backend, deviceId);
      Call(fb.result, primary.trace + fb.trace)
  }

  /** Every request the aggregation may send, in the order it sends them. */
  function AggregationPlan(client: Client, deviceId: string): seq<Request> {
    [ DashboardDataRequest(client, deviceId),
      SensorHistoryRequest(client, deviceId, FallbackHistoryLimit),
      ControlStatusRequest(client, deviceId),
      BlockchainLogsRequest(client, FallbackLogsLimit) ]
  }

  /** A working composite endpoint: its payload is returned unchanged and no
      other request is sent. */
  lemma AggregatePrimarySucceeds(client: Client, backend: Backend, deviceId: string, payload: Json)
    requires Normalise(backend(DashboardDataRequest(client, deviceId))) == Ok(payload)
    ensures GetAggregatedDashboardData(client, backend, deviceId) == Call(Ok(payload), [DashboardDataRequest(client, deviceId)])
  {
  }

  /** A failing composite endpoint, for whatever reason, is followed by the
      fallback calls in plan order (history with limit 1, control status,
      logs with limit 10), stopping early only on a failure; all four are
      sent when the aggregation succeeds. */
  lemma AggregateFallbackOrder(client: Client, backend: Backend, deviceId: string)
    requires Normalise(backend(DashboardDataRequest(client, deviceId))).Err?
    ensures var c := GetAggregatedDashboardData(client, backend, deviceId);
      && 2 <= |c.trace| <= 4
      && c.trace == AggregationPlan(client, deviceId)[..|c.trace|]
      && (c.result.Ok? ==> |c.trace| == 4)
      && (|c.trace| < 4 ==> c.result.Err?)
  {
  }

  /** The fallback result depends only on the three narrower calls: what
      went wrong with the composite call is discarded. */
  lemma FallbackIgnoresPrimaryFailure(client: Client, b1: Backend, b2: Backend, deviceId: string)
    requires Normalise(b1(DashboardDataRequest(client, deviceId))).Err?
    requires Normalise(b2(DashboardDataRequest(client, deviceId))).Err?
    requires forall i :: 1 <= i < 4 ==> b1(AggregationPlan(client, deviceId)[i]) == b2(AggregationPlan(client, deviceId)[i])
    ensures GetAggregatedDashboardData(client, b1, deviceId) == GetAggregatedDashboardData(client, b2, deviceId)
  {
    var plan := AggregationPlan(client, deviceId);
    assert b1(plan[1]) == b2(plan[1]);
    assert b1(plan[2]) == b2(plan[2]);
    assert b1(plan[3]) == b2(plan[3]);
  }

  /** When the composite call fails and the three narrower calls succeed
      (and the first history entry can be taken), the result is the degraded
      view, whatever shape the history has: the current reading as taken from
      it, the control status and logs exactly as returned, and fixed
      null / empty / "partial_data" fields. */
  lemma AggregateFallbackView(client: Client, backend: Backend, deviceId: string, history: Json, current: Json, control: Json, logs: Json)
    requires Normalise(backend(DashboardDataRequest(client, deviceId))).Err?
    requires GetSensorHistory(client, backend, deviceId, FallbackHistoryLimit).result == Ok(history)
    requires FirstOrNone(history) == Ok(current)
    requires GetControlStatus(client, backend, deviceId).result == Ok(control)
    requires GetBlockchainLogs(client, backend, FallbackLogsLimit).result == Ok(logs)
    ensures var r := GetAggregatedDashboardData(client, backend, deviceId).result;
      && r == Ok(PartialView(current, control, logs))
      && r.value.JObj?
      && var f := r.value.fields;
      && f.Keys == {"current_reading", "control_status", "recent_logs", "system_health", "prediction", "classification", "recent_faults"}
      && f["current_reading"] == current
      && (!Truthy(history) ==> f["current_reading"] == JNull)
      && f["control_status"] == control
      && f["recent_logs"] == logs
      && f["system_health"] == JObj(map["status" := JStr("partial_data")])
      && f["prediction"] == JNull
      && f["classification"] == JNull
      && f["recent_faults"] == JArr([])
  {
  }

  /** For a list history the current reading is its first entry, or null
      when the list is empty. */
  lemma AggregateFallbackViewOfList(client: Client, backend: Backend, deviceId: string, readings: seq<Json>, control: Json, logs: Json)
    requires Normalise(backend(DashboardDataRequest(client, deviceId))).Err?
    requires GetSensorHistory(client, backend, deviceId, FallbackHistoryLimit).result == Ok(JArr(readings))
    requires GetControlStatus(client, backend, deviceId).result == Ok(control)
    requires GetBlockchainLogs(client, backend, FallbackLogsLimit).result == Ok(logs)
    ensures GetAggregatedDashboardData(client, backend, deviceId).result
      == Ok(PartialView(if readings == [] then JNull else readings[0], control, logs))
  {
    AggregateFallbackView(client, backend, deviceId, JArr(readings), if readings == [] then JNull else readings[0], control, logs);
  }

  /** A failing narrower call fails the whole aggregation with the
      "Failed to aggregate data: " wrapper around that call's exception; no
      partial view is returned and the later calls are not sent. */
  lemma AggregateFallbackFailure(client: Client, backend: Backend, deviceId: string)
    requires Normalise(backend(DashboardDataRequest(client, deviceId))).Err?
    ensures var c := GetAggregatedDashboardData(client, backend, deviceId);
      var h := GetSensorHistory(client, backend, deviceId, FallbackHistoryLimit).result;
      var cs := Normalise(backend(ControlStatusRequest(client, deviceId)));
      var lg := GetBlockchainLogs(client, backend, FallbackLogsLimit).result;
      && (c.result.Err? ==>
            && c.result.error.AggregationFailed?
            && StartsWith(Message(c.result.error), "Failed to aggregate data: ")
            && Message(c.result.error) == "Failed to aggregate data: " + Message(c.result.error.inner))
      && (h.Err? ==> c.result == Err(AggregationFailed(h.error)) && |c.trace| == 2)
      && (h.Ok? && FirstOrNone(h.value).Err? ==> c.result == Err(AggregationFailed(FirstOrNone(h.value).error)) && |c.trace| == 2)
      && (h.Ok? && FirstOrNone(h.value).Ok? && cs.Err? ==> c.result == Err(AggregationFailed(cs.error)) && |c.trace| == 3)
      && (h.Ok? && FirstOrNone(h.value).Ok? && cs.Ok? && lg.Err? ==> c.result == Err(AggregationFailed(lg.error)) && |c.trace| == 4)
  {
  }

  /** The aggregation succeeds exactly when the composite call does, or all
      three narrower calls do. */
  lemma AggregateSucceedsIff(client: Client, backend: Backend, deviceId: string)
    ensures var h := GetSensorHistory(client, backend, deviceId, FallbackHistoryLimit).result;
      GetAggregatedDashboardData(client, backend, deviceId).result.Ok? <==>
        (|| Normalise(backend(DashboardDataRequest(client, deviceId))).Ok?
         || (h.Ok? && FirstOrNone(h.value).Ok?
             && Normalise(backend(ControlStatusRequest(client, deviceId))).Ok?
             && GetBlockchainLogs(client, backend, FallbackLogsLimit).result.Ok?))
  {
  }
}
