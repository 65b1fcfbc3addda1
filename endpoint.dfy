/**
 * The detection endpoint `post_device` (`POST /api/devices` in app.py).
 *
 * The database, the mail sender and the serial display are collaborators
 * the endpoint only calls: each call becomes an `Event` appended to the
 * trace the method returns, and the values the collaborators hand back
 * (the new device's row id, the new alert's id, whether the mail went out)
 * come in as `Collaborators`. The request body is the JSON the client sent,
 * or nothing when it does not parse.
 *
 * `PostDeviceResult` is the specification: the response and the calls, in
 * order. `PostDevice` is the handler, proved to produce exactly that, and
 * the lemmas below state what the specification promises.
 */
module DeviceEndpoint {
  import opened Common
  import AttackDetection

  /**
   * The request: the user id the token check put in `g` (`Null` when
   * absent) and the decoded body, `None` when the body is not JSON.
   */
  datatype Request = Request(tokenUser: Value, payload: Option<Value>)

  /** What the collaborators return: `create_device`'s row id, `create_alert`'s id, `send_attack_alert`'s flag. */
  datatype Collaborators = Collaborators(deviceDbId: int, alertId: int, emailSent: bool)

  /** One collaborator call, with the arguments it receives. */
  datatype Event =
    | CreateDevice(userId: Value, deviceId: Value, deviceName: Value, ipAddress: Value, params: map<string, Value>)
    | CreateDetection(deviceDbId: int, attackType: string, confidence: real, severity: string,
                      indicators: seq<string>, riskScore: int)
    | UpdateDeviceStatus(deviceDbId: int, status: string, isActive: bool)
    | CreateAlert(userId: Value, deviceDbId: int, attackType: string, severity: string)
    | SendAttackEmail(deviceName: Value, attackType: string, severity: string,
                      indicators: seq<string>, recommendations: seq<string>)
    | MarkAlertSent(alertId: int)
    | ArduinoAlert(attackType: string, severity: string)
    | ArduinoDisplay(deviceName: Value, ipAddress: Value)
  {
    /** The calls that only an attack verdict makes. */
    predicate IsAlertCall() {
      CreateAlert? || SendAttackEmail? || MarkAlertSent? || ArduinoAlert?
    }
  }

  /** The HTTP outcome: 201 with the new row id and the verdict, 400 with a message, or 500. */
  datatype Response =
    | Created(deviceDbId: int, verdict: AttackDetection.Verdict)
    | BadRequest(error: string)
    | ServerError

  const MISSING_FIELDS := "Missing required fields"
  const DEFAULT_DEVICE_NAME := "IoT Device"
  const DEFAULT_IP_ADDRESS := "0.0.0.0"

  /** The nine feature keys, in the order the endpoint copies them. */
  const FEATURE_KEYS: seq<string> := ["sbytes", "dbytes", "rate", "dinpkt", "tcprtt", "synack", "ackdat", "smean", "dmean"]

  /**
   * `data = request.get_json(force=True) or {}`, as far as `data.get` can
   * read it: the fields of an object, nothing of a falsy body (read as
   * `{}`), and `None` when the body does not parse or is a truthy value
   * that is not an object, on which `get_json` or `data.get` raises.
   */
  function Data(req: Request): (d: Option<map<string, Value>>)
    ensures d.None? <==> req.payload.None? || (Truthy(req.payload.value) && !req.payload.value.Object?)
    ensures req.payload.Some? && !Truthy(req.payload.value) ==> d == Some(map[])
    ensures req.payload.Some? && req.payload.value.Object? ==> d == Some(req.payload.value.fields)
  {
    match req.payload
    case None => None
    case Some(json) =>
      var data := Or(json, Object(map[]));
      if data.Object? then Some(data.fields) else None
  }

  /** `g.get('user_id') or data.get('user_id')`: the token's user when it has one, else the body's. */
  function UserIdOf(tokenUser: Value, data: map<string, Value>): (r: Value)
    ensures Truthy(tokenUser) ==> r == tokenUser
    ensures !Truthy(tokenUser) ==> r == Get(data, "user_id")
    ensures Truthy(r) <==> Truthy(tokenUser) || Truthy(Get(data, "user_id"))
  {
    Or(tokenUser, Get(data, "user_id"))
  }

  /** `data.get('device_id') or data.get('id')`: `device_id` when truthy, else `id`. */
  function DeviceIdOf(data: map<string, Value>): (r: Value)
    ensures Truthy(Get(data, "device_id")) ==> r == data["device_id"]
    ensures !Truthy(Get(data, "device_id")) ==> r == Get(data, "id")
    ensures Truthy(r) <==> Truthy(Get(data, "device_id")) || Truthy(Get(data, "id"))
  {
    Or(Get(data, "device_id"), Get(data, "id"))
  }

  /** `all([user_id, device_id])`. */
  predicate IdsPresent(tokenUser: Value, data: map<string, Value>) {
    Truthy(UserIdOf(tokenUser, data)) && Truthy(DeviceIdOf(data))
  }

  /** The device name, or "IoT Device" when the body's is absent or falsy. */
  function DeviceNameOf(data: map<string, Value>): (r: Value)
    ensures !Truthy(Get(data, "device_name")) ==> r == Str(DEFAULT_DEVICE_NAME)
    ensures Truthy(Get(data, "device_name")) ==> r == data["device_name"]
  {
    Or(Get(data, "device_name"), Str(DEFAULT_DEVICE_NAME))
  }

  /** The address, or "0.0.0.0" when the body's is absent or falsy. */
  function IpAddressOf(data: map<string, Value>): (r: Value)
    ensures !Truthy(Get(data, "ip_address")) ==> r == Str(DEFAULT_IP_ADDRESS)
    ensures Truthy(Get(data, "ip_address")) ==> r == data["ip_address"]
  {
    Or(Get(data, "ip_address"), Str(DEFAULT_IP_ADDRESS))
  }

  /** The `params` dictionary: each feature key's value in the body, or 0 when absent. */
  function FeatureParams(body: map<string, Value>): (params: map<string, Value>)
    ensures params.Keys == set k | k in FEATURE_KEYS
    ensures forall k :: k in FEATURE_KEYS ==> params[k] == if k in body then body[k] else Int(0)
  {
    map k | k in FEATURE_KEYS :: GetOr(body, k, Int(0))
  }

  /**
   * The number a JSON value stands for in a Python comparison with a
   * number: integers, floats and booleans compare; anything else raises
   * `TypeError`.
   */
  function Numeric(v: Value): Option<real> {
    match v
    case Int(i) => Some(i as real)
    case Num(r) => Some(r)
    case Bool(b) => Some(if b then 1.0 else 0.0)
    case _ => None
  }

  /** Every feature compares as a number. */
  predicate AllNumeric(params: map<string, Value>) {
    forall k :: k in FEATURE_KEYS ==> k in params && Numeric(params[k]).Some?
  }

  /** The feature values as the classifier compares them. */
  function NumericParams(params: map<string, Value>): (r: map<string, real>)
    requires AllNumeric(params)
    ensures r.Keys == set k | k in FEATURE_KEYS
    ensures forall k :: k in FEATURE_KEYS ==> Some(r[k]) == Numeric(params[k])
  {
    map k | k in FEATURE_KEYS :: Numeric(params[k]).value
  }

  /**
   * What `post_device` answers and which collaborator calls it makes, in
   * order. A body that does not parse, or is not an object, is a 500
   * before any call. Both ids must be truthy, otherwise 400 and no call. The device
   * row is created first; a feature value that is not a number then makes
   * the classifier raise, which is a 500. Otherwise the detection is
   * recorded and the device status set to the verdict; an attack then
   * raises an alert, mails it with the recommendations for its type, marks
   * it sent and shows it on the display, while Normal traffic only shows
   * the device on the display. The 201 body is the new row id and the verdict.
   */
  function PostDeviceResult(req: Request, env: Collaborators): (Response, seq<Event>) {
    if Data(req).None? then (ServerError, [])
    else
      var data := Data(req).value;
      var userId := UserIdOf(req.tokenUser, data);
      var deviceId := DeviceIdOf(data);
      if !(Truthy(userId) && Truthy(deviceId)) then (BadRequest(MISSING_FIELDS), [])
      else
        var deviceName := DeviceNameOf(data);
        var ipAddress := IpAddressOf(data);
        var params := FeatureParams(data);
        var created := [CreateDevice(userId, deviceId, deviceName, ipAddress, params)];
        if !AllNumeric(params) then (ServerError, created)
        else
          var v := AttackDetection.Classify(AttackDetection.FeaturesOf(NumericParams(params)));
          var deviceDbId := env.deviceDbId;
          (Created(deviceDbId, v),
           created + Recorded(deviceDbId, v) + Dispatched(userId, deviceName, ipAddress, deviceDbId, env.alertId, v))
  }

  /** The detection row and the device status, which every verdict records. */
  function Recorded(deviceDbId: int, v: AttackDetection.Verdict): seq<Event> {
    [CreateDetection(deviceDbId, v.attackType, v.confidence, v.severity, v.indicators, v.riskScore),
     UpdateDeviceStatus(deviceDbId, v.attackType, true)]
  }

  /** The calls that follow the record: the alert path for an attack, the display for Normal. */
  function Dispatched(userId: Value, deviceName: Value, ipAddress: Value, deviceDbId: int, alertId: int,
                      v: AttackDetection.Verdict): seq<Event> {
    if v.attackType != AttackDetection.NORMAL then [
      CreateAlert(userId, deviceDbId, v.attackType, v.severity),
      SendAttackEmail(deviceName, v.attackType, v.severity, v.indicators, AttackDetection.Recommendations(v.attackType)),
      MarkAlertSent(alertId),
      ArduinoAlert(v.attackType, v.severity)]
    else [ArduinoDisplay(deviceName, ipAddress)]
  }

  /**
   * `post_device`: reads the fields, validates the ids, then makes the
   * collaborator calls one step after another, appending each step's calls
   * to the trace, and runs the classifier on the feature values.
   */
  method PostDevice(req: Request, env: Collaborators) returns (resp: Response, trace: seq<Event>)
    ensures (resp, trace) == PostDeviceResult(req, env)
  {
    if req.payload.None? {
      // `get_json` raised; the handler answers 500
      return ServerError, [];
    }
    var json := Or(req.payload.value, Object(map[]));
    if !json.Object? {
      // `data.get` raised on a body that is not an object; the handler answers 500
      return ServerError, [];
    }
    var data := json.fields;
    var userId := UserIdOf(req.tokenUser, data);
    var deviceId := DeviceIdOf(data);
    var deviceName := DeviceNameOf(data);
    var ipAddress := IpAddressOf(data);

    if !(Truthy(userId) && Truthy(deviceId)) {
      return BadRequest(MISSING_FIELDS), [];
    }

    var params := FeatureParams(data);
    var deviceDbId := env.deviceDbId;
    trace := [CreateDevice(userId, deviceId, deviceName, ipAddress, params)];

    if !AllNumeric(params) {
      // a comparison in `detect_attack` raises `TypeError`; the handler answers 500
      return ServerError, trace;
    }
    var v := AttackDetection.DetectAttack(NumericParams(params));
    trace := trace + [
      CreateDetection(deviceDbId, v.attackType, v.confidence, v.severity, v.indicators, v.riskScore),
      UpdateDeviceStatus(deviceDbId, v.attackType, true)];

    if v.attackType != AttackDetection.NORMAL {
      var alertId := env.alertId;
      var recommendations := AttackDetection.Recommendations(v.attackType);
      // the mail result is not consulted: the alert is marked sent either way
      trace := trace + [
        CreateAlert(userId, deviceDbId, v.attackType, v.severity),
        SendAttackEmail(deviceName, v.attackType, v.severity, v.indicators, recommendations),
        MarkAlertSent(alertId),
        ArduinoAlert(v.attackType, v.severity)];
    } else {
      trace := trace + [ArduinoDisplay(deviceName, ipAddress)];
    }

    return Created(deviceDbId, v), trace;
  }

  // ---------------------------------------------------------------------
  // What the handler promises
  // ---------------------------------------------------------------------

  /** A body that does not parse, or is not an object, is a 500 before any collaborator is called. */
  lemma MalformedBodyFails(req: Request, env: Collaborators)
    ensures Data(req).None? <==> PostDeviceResult(req, env) == (ServerError, [])
  {
  }

  /** A request is rejected with 400 exactly when an id is missing or falsy, and then nothing is called. */
  lemma MissingIdsRejected(req: Request, env: Collaborators)
    ensures PostDeviceResult(req, env).0.BadRequest? <==> Data(req).Some? && !IdsPresent(req.tokenUser, Data(req).value)
    ensures PostDeviceResult(req, env).0.BadRequest? ==>
      PostDeviceResult(req, env) == (BadRequest(MISSING_FIELDS), [])
  {
  }

  /** Once both ids are present the first call creates the device, with the defaults filled in. */
  lemma DeviceCreatedFirst(req: Request, data: map<string, Value>, env: Collaborators)
    requires Data(req) == Some(data) && IdsPresent(req.tokenUser, data)
    ensures var trace := PostDeviceResult(req, env).1;
      && |trace| >= 1
      && trace[0] == CreateDevice(UserIdOf(req.tokenUser, data), DeviceIdOf(data), DeviceNameOf(data), IpAddressOf(data), FeatureParams(data))
  {
  }

  /**
   * A 500 comes from a body that cannot be read, before any call, or from a
   * feature that is not a number, after the device row was created and
   * before anything else.
   */
  lemma NonNumericFeatureFails(req: Request, env: Collaborators)
    ensures PostDeviceResult(req, env).0 == ServerError <==>
      Data(req).None? || (IdsPresent(req.tokenUser, Data(req).value) && !AllNumeric(FeatureParams(Data(req).value)))
    ensures PostDeviceResult(req, env).0 == ServerError && Data(req).Some? ==> |PostDeviceResult(req, env).1| == 1
  {
  }

  /** A 201 carries the new row id and the classifier's verdict on the (defaulted) features. */
  lemma CreatedEchoesVerdict(req: Request, data: map<string, Value>, env: Collaborators)
    requires Data(req) == Some(data) && IdsPresent(req.tokenUser, data) && AllNumeric(FeatureParams(data))
    ensures PostDeviceResult(req, env).0 ==
      Created(env.deviceDbId, AttackDetection.Classify(AttackDetection.FeaturesOf(NumericParams(FeatureParams(data)))))
  {
  }

  /**
   * A 201's trace: the device row, then the record of the verdict, then its
   * dispatch; nothing else is called.
   */
  lemma CreatedLayout(req: Request, data: map<string, Value>, env: Collaborators)
    requires Data(req) == Some(data) && IdsPresent(req.tokenUser, data) && AllNumeric(FeatureParams(data))
    ensures var (resp, trace) := PostDeviceResult(req, env);
      resp.Created? && trace == [CreateDevice(UserIdOf(req.tokenUser, data), DeviceIdOf(data), DeviceNameOf(data), IpAddressOf(data), FeatureParams(data))]
               + Recorded(resp.deviceDbId, resp.verdict)
               + Dispatched(UserIdOf(req.tokenUser, data), DeviceNameOf(data), IpAddressOf(data), resp.deviceDbId, env.alertId, resp.verdict)
  {
  }

  /** Recording a verdict stores the whole verdict and sets the device status to its type; it alerts and displays nothing. */
  lemma RecordedKeepsVerdict(deviceDbId: int, v: AttackDetection.Verdict)
    ensures |Recorded(deviceDbId, v)| == 2
    ensures Recorded(deviceDbId, v)[0].CreateDetection? && Recorded(deviceDbId, v)[0].deviceDbId == deviceDbId
    ensures var d := Recorded(deviceDbId, v)[0];
      AttackDetection.Verdict(d.attackType, d.confidence, d.severity, d.riskScore, d.indicators) == v
    ensures Recorded(deviceDbId, v)[1] == UpdateDeviceStatus(deviceDbId, v.attackType, true)
    ensures forall e :: e in Recorded(deviceDbId, v) ==> !e.IsAlertCall() && !e.ArduinoDisplay?
  {
  }

  /**
   * An attack verdict is dispatched as the alert row, the mail with the
   * type's recommendations, the mark-sent of that alert and the display
   * alert, in that order; the device is not shown as normal.
   */
  lemma AttackRaisesAlert(userId: Value, deviceName: Value, ipAddress: Value, deviceDbId: int, alertId: int,
                          v: AttackDetection.Verdict)
    requires v.attackType != AttackDetection.NORMAL
    ensures var calls := Dispatched(userId, deviceName, ipAddress, deviceDbId, alertId, v);
      && |calls| == 4
      && calls[0] == CreateAlert(userId, deviceDbId, v.attackType, v.severity)
      && calls[1] == SendAttackEmail(deviceName, v.attackType, v.severity, v.indicators, AttackDetection.Recommendations(v.attackType))
      && calls[2] == MarkAlertSent(alertId)
      && calls[3] == ArduinoAlert(v.attackType, v.severity)
      && forall e :: e in calls ==> e.IsAlertCall()
  {
  }

  /** A Normal verdict makes no alert, mail or mark-sent call; its only call shows the device on the display. */
  lemma NormalOnlyDisplays(userId: Value, deviceName: Value, ipAddress: Value, deviceDbId: int, alertId: int,
                           v: AttackDetection.Verdict)
    requires v.attackType == AttackDetection.NORMAL
    ensures Dispatched(userId, deviceName, ipAddress, deviceDbId, alertId, v) == [ArduinoDisplay(deviceName, ipAddress)]
    ensures forall e :: e in Dispatched(userId, deviceName, ipAddress, deviceDbId, alertId, v) ==> !e.IsAlertCall()
  {
  }

  /** An alert is raised, and the display shows the device, exactly as the verdict is an attack or Normal. */
  lemma {:induction false} AlertIffAttack(userId: Value, deviceName: Value, ipAddress: Value, deviceDbId: int, alertId: int,
                                          v: AttackDetection.Verdict)
    ensures (exists e :: e in Dispatched(userId, deviceName, ipAddress, deviceDbId, alertId, v) && e.CreateAlert?) <==>
      v.attackType != AttackDetection.NORMAL
    ensures (exists e :: e in Dispatched(userId, deviceName, ipAddress, deviceDbId, alertId, v) && e.ArduinoDisplay?) <==>
      v.attackType == AttackDetection.NORMAL
  {
    var calls := Dispatched(userId, deviceName, ipAddress, deviceDbId, alertId, v);
    if v.attackType != AttackDetection.NORMAL {
      AttackRaisesAlert(userId, deviceName, ipAddress, deviceDbId, alertId, v);
      assert calls[0] in calls;
    } else {
      NormalOnlyDisplays(userId, deviceName, ipAddress, deviceDbId, alertId, v);
      assert calls[0] in calls;
    }
  }

  /** The mail's outcome changes nothing: the alert is marked sent whether or not it went out. */
  lemma MailResultIgnored(req: Request, env: Collaborators, sent: bool)
    ensures PostDeviceResult(req, env.(emailSent := sent)) == PostDeviceResult(req, env)
  {
  }

  /** A body without feature fields is scored as the all-zero vector. */
  lemma MissingFeaturesDefaultToZero(body: map<string, Value>)
    requires forall k :: k in FEATURE_KEYS ==> k !in body
    ensures AllNumeric(FeatureParams(body))
    ensures AttackDetection.FeaturesOf(NumericParams(FeatureParams(body))) == AttackDetection.FeaturesOf(map[])
  {
    var r := NumericParams(FeatureParams(body));
    assert forall k :: k in FEATURE_KEYS ==> r[k] == 0.0;
    assert "sbytes" in FEATURE_KEYS && "dbytes" in FEATURE_KEYS && "rate" in FEATURE_KEYS;
    assert "dinpkt" in FEATURE_KEYS && "tcprtt" in FEATURE_KEYS && "synack" in FEATURE_KEYS;
    assert "ackdat" in FEATURE_KEYS && "smean" in FEATURE_KEYS && "dmean" in FEATURE_KEYS;
  }

  /** A report with both ids and no feature fields is Normal traffic: 201 with the canned verdict, then only the display call. */
  lemma {:induction false} FeaturelessReportIsNormal(req: Request, data: map<string, Value>, env: Collaborators)
    requires Data(req) == Some(data) && IdsPresent(req.tokenUser, data)
    requires forall k :: k in FEATURE_KEYS ==> k !in data
    ensures PostDeviceResult(req, env).0 == Created(env.deviceDbId,
      AttackDetection.Verdict(AttackDetection.NORMAL, AttackDetection.NORMAL_CONFIDENCE, "Low", 0, AttackDetection.CANNED_INDICATORS))
  {
    MissingFeaturesDefaultToZero(data);
    AttackDetection.EmptyParamsAreNormal();
    CreatedEchoesVerdict(req, data, env);
  }
}
