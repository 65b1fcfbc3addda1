# IoT attack detection: classifier, display link and detection endpoint

This project models three parts of an IoT network-monitoring backend and proves properties of them in Dafny.

- **The rule-based attack classifier** (`AttackDetector` in attack_detection.py). It takes a nine-field traffic feature vector. Nine independent threshold checks each add a fixed increment to a risk score and append an indicator. The score is clamped to [0, 100]. Then the first of eleven ordered rules that matches picks the attack type, confidence and severity. When no rule matches, the verdict is Normal. A lookup table with a default gives the recommended actions for each attack type.
  - In `AttackDetection`, `CHECKS` and `RULES` are the two ordered tables, and `Classify` reads the verdict off them.
  - `DetectAttack` is the detector's procedure. It accumulates the score and indicators check by check, then returns from the first matching rule. It is proved equal to `Classify`.
- **The serial display link** (`ArduinoManager` in arduino_manager.py), modelled as a class whose methods update its fields.
  - The transport is abstract. The port is an optional value that is open or closed. Every JSON envelope written is appended to `written`. Every call of the message callback is appended to `delivered`.
  - Outside conditions are method parameters: the attached ports, whether opening and registering succeed, whether a write goes through, what arrives on the line, and the clock.
- **The detection endpoint** `post_device` (app.py). It is a method that returns the HTTP response and the ordered trace of collaborator calls: database, mail and display.
  - `PostDeviceResult` is the specification, and `PostDevice` is proved to produce exactly it.
  - The lemmas state which calls happen, in what order, and with which arguments.

Shared pieces live in `Common`: a JSON-like `Value`, Python truthiness, `or` and `dict.get`.

Behaviour of the code that the model keeps and that is easy to miss:
- Port discovery is a case-sensitive substring test of the port description.
- `is_connected` becomes true as soon as the port opens. The peripheral's "ready" message only triggers a display update.
- A message counts as "ready" when its `status` field equals `"arduino_ready"` exactly.
- The read loop ends on the first exception, including a decoded message that is not a JSON object.
- The rule chain has eleven rules, tried in source order; the first that matches decides.
- `mark_alert_sent` is called whatever the mail sender returns.
- The device row is created before classification. The detection row and the device status are recorded for every verdict, Normal included.
- A request body that is not JSON, or is a truthy JSON value other than an object, raises inside the handler and is answered with a 500 before any collaborator is called. A falsy body is read as an empty object.
- Every operation of the manager keeps the invariant `Linked()`: a connected manager holds an open port. Under it, a pass of the read loop never takes the reconnect branch and leaves the connection fields alone. Only a port closed by another thread between two checks of the loop reaches that branch.

One consequence of the rule order is proved rather than assumed. The Zero-Day rule's condition implies the DDoS rule's condition, and the DDoS rule is tried first. So "Zero-Day Exploit" is never reported (`ZeroDayNeverReturned`).

## Model

| member | source | states |
|---|---|---|
| Common.Truthy | app.py:257-262 | only null, false, zero, the empty string and the empty list or object are falsy |
| Common.Or | app.py:257-260 | `a or b` yields `a` when `a` is truthy and `b` otherwise |
| Common.GetOr | app.py:265-275 | `d.get(k, default)` yields the stored value when `k` is present and the default otherwise |
| AttackDetection.Field | attack_detection.py:51-59 | `params.get(k, 0)` (no contract of its own; `FeaturesOfKeys` states what it reads) |
| AttackDetection.FeaturesOf | attack_detection.py:51-59 | the feature vector read from `params` (no contract of its own; `FeaturesOfKeys` states it) |
| AttackDetection.FeaturesOfKeys | attack_detection.py:51-59 | each of the nine fields is read from the key of its own name, and is 0 when that key is missing |
| AttackDetection.Check.Fires | attack_detection.py:62-96 | the comparison each check makes against its threshold (no contract; the lemmas below state its properties) |
| AttackDetection.Clamp | attack_detection.py:98 | the result lies in [0, 100], equals the input inside that range, and is 0 below it and 100 above it |
| AttackDetection.Rule.Matches | attack_detection.py:101-132 | the condition of each rule (no contract; the lemmas below state its properties) |
| AttackDetection.FirstMatch | attack_detection.py:101-132 | the index of the chosen rule is at most the number of rules |
| AttackDetection.FirstMatchSpec | attack_detection.py:101-132 | every earlier rule fails, the chosen rule holds, and "past the end" is chosen exactly when no rule holds |
| AttackDetection.FirstMatchIs | attack_detection.py:101-132 | a rule that holds, with every earlier rule failing, is the one chosen |
| AttackDetection.SeverityOf | attack_detection.py:34-39 | the severity level a type is listed under (no contract of its own; `SeverityOfSpec` states it) |
| AttackDetection.SeverityOfSpec | attack_detection.py:34-39 | the level found is the first that lists the type, and none is found exactly when no level lists it |
| AttackDetection.Classify | attack_detection.py:62-137 | the reference verdict read off the two tables: its score lies in [0, 100] and its indicator list is never empty |
| AttackDetection.Score | attack_detection.py:48-96 | the risk score after the first `k` checks: the sum of the increments of those that fire (no contract; `ScoreSum`, `ScoreBound` and `DetectAttack` state it) |
| AttackDetection.Fired | attack_detection.py:48-96 | the indicators after the first `k` checks, in check order (no contract; `ScoreSum`, `FiredMembers` and `DetectAttack` state it) |
| AttackDetection.DetectAttack | attack_detection.py:42-137 | the checks loop and the rule loop return exactly the verdict `Classify` gives for the features read with default 0 |
| AttackDetection.Recommendations | attack_detection.py:140-211 | a type in the table gets its entry; any other string gets the default pair |
| AttackDetection.RecommendationKeys | attack_detection.py:142-210 | the table covers exactly the twelve attack types |
| AttackDetection.NormalRecommendationCount | attack_detection.py:143 | Normal gets two actions |
| AttackDetection.AttackRecommendationCount | attack_detection.py:144-209 | each of the eleven attack types gets four actions |
| AttackDetection.UnknownTypeGetsDefault | attack_detection.py:211 | a string that is not an attack type gets the default pair |
| AttackDetection.MaxScoreIs140 | attack_detection.py:62-96 | the nine increments sum to 140 |
| AttackDetection.ScoreSum | attack_detection.py:62-96 | the score and the indicator list are the sums over the nine checks, in source order |
| AttackDetection.ScoreBound | attack_detection.py:62-96 | the raw score never exceeds the sum of the increments seen so far |
| AttackDetection.AllChecksFire | attack_detection.py:62-98 | when every check fires, the raw score is the full 140, and the reported score is 100 |
| AttackDetection.RiskScoreOfVerdict | attack_detection.py:62-98 | whatever rule is chosen, the reported score is min(100, raw score), and the raw score is between 0 and 140 |
| AttackDetection.ScoreZeroIffNoIndicators | attack_detection.py:62-96 | the score is 0 exactly when no indicator was appended |
| AttackDetection.FiredMembers | attack_detection.py:62-96 | a string is a check indicator exactly when some check that fired contributes it |
| AttackDetection.ScoreMonotone | attack_detection.py:62-96 | raising rate, synack, tcprtt, dinpkt, sbytes, dmean or ackdat, with dbytes and smean fixed, never lowers the raw or the clamped score |
| AttackDetection.NotMonotoneInDbytes | attack_detection.py:82-84 | a concrete vector whose score drops when dbytes rises |
| AttackDetection.NotMonotoneInSmean | attack_detection.py:90-92 | a concrete vector whose score drops when smean rises |
| AttackDetection.ThresholdsAreStrict | attack_detection.py:62-102 | every one of the nine checks stays off when its field sits exactly on its threshold, whatever the other fields hold; a rate or SYN-ACK count on its threshold does not satisfy the DDoS rule |
| AttackDetection.RuleTypeKnown | attack_detection.py:101-132 | every rule reports a type from `ATTACK_TYPES` other than Normal, with a confidence in (0, 1] |
| AttackDetection.RuleSeverityAgrees | attack_detection.py:34-39 | every rule's hard-coded severity is the level `SEVERITY_LEVELS` lists its type under |
| AttackDetection.RuleTypesDistinct | attack_detection.py:101-132 | two rules that report the same type are the same rule |
| AttackDetection.FirstRuleWins | attack_detection.py:101-132 | the verdict's type, confidence and severity are those of the first rule, in source order, that matches |
| AttackDetection.DDoSTakesPrecedence | attack_detection.py:101-105 | a vector that satisfies the DDoS condition is labelled DDoS, 0.95, Critical, even if it also satisfies DoS |
| AttackDetection.ZeroDayImpliesDDoS | attack_detection.py:125 | the Zero-Day condition implies the DDoS condition |
| AttackDetection.ZeroDayNeverReturned | attack_detection.py:101-126 | no feature vector is labelled "Zero-Day Exploit" |
| AttackDetection.VerdictConsistent | attack_detection.py:101-137 | for every verdict: the type is in `ATTACK_TYPES`; the severity agrees with `SEVERITY_LEVELS`; Normal is reported exactly when no rule matches, with confidence 0.98; otherwise the confidence is the matching rule's constant |
| AttackDetection.IndicatorShape | attack_detection.py:62-137 | an attack's indicators are the fired-check indicators in check order plus exactly one rule indicator; Normal keeps the fired-check indicators, or gets the canned pair exactly when the score is 0 |
| AttackDetection.QuietTrafficIsNormal | attack_detection.py:134-137 | traffic that trips no check and no rule gets Normal, 0.98, Low, score 0, canned indicators |
| AttackDetection.EmptyParamsAreNormal | attack_detection.py:51-59 | a vector with every key absent is read as all zeros and gets Normal, 0.98, Low, 0, canned indicators |
| ArduinoLink.Contains | arduino_manager.py:27 | Python's case-sensitive `in` on strings; a pattern longer than the text is never found |
| ArduinoLink.ContainsAt | arduino_manager.py:27 | the substring test holds exactly when the pattern occurs at some index |
| ArduinoLink.IsArduinoPort | arduino_manager.py:27 | a port passes exactly when "Arduino", "USB" or "CH340" occurs somewhere in its description |
| ArduinoLink.ArduinoPorts | arduino_manager.py:25-33 | the filtered list is no longer than the attached list, and every port on it passes the test |
| ArduinoLink.ArduinoPortsMembers | arduino_manager.py:26-33 | a port is kept exactly when it is attached and its description passes the test |
| ArduinoLink.ArduinoPortsAppend | arduino_manager.py:26-33 | filtering distributes over concatenation, so the attached order is kept |
| ArduinoLink.FirstArduinoPort | arduino_manager.py:38-43 | the port `connect` picks is the first attached port that passes the test |
| ArduinoLink.Truncate | arduino_manager.py:87-110 | `s[:n]` is a prefix of `s` of length min(len(s), n), and `s` itself when it is short enough |
| ArduinoLink.PayloadWidths | arduino_manager.py:87-110 | DISPLAY, STATUS and ALERT payloads have exactly their two keys; each field is at most 16 characters, severity at most 8; an input within its width passes unchanged, for every field |
| ArduinoLink.DisplayData | arduino_manager.py:89-92 | the DISPLAY payload, both lines cut to 16 (no contract; `PayloadWidths` states it) |
| ArduinoLink.AlertData | arduino_manager.py:100-103 | the ALERT payload, type cut to 16 and severity to 8 (no contract; `PayloadWidths` states it) |
| ArduinoLink.StatusData | arduino_manager.py:107-110 | the STATUS payload, name and address cut to 16 (no contract; `PayloadWidths` states it) |
| ArduinoLink.ConnectedData | arduino_manager.py:53 | the CONNECTED payload with the status and the device id, or null (no contract; `Connect` states where it is written) |
| ArduinoLink.IsReady | arduino_manager.py:149 | the "ready" test of the read loop: an object whose `status` is exactly "arduino_ready" (no contract; `ReadStep` states its effect) |
| ArduinoLink.ArduinoManager.constructor | arduino_manager.py:13-21 | a new manager is disconnected, with no port, device or callback, the given baud rate, and the heartbeat set to now |
| ArduinoLink.ArduinoManager.FindArduinoPorts | arduino_manager.py:23-33 | the loop returns the attached ports that pass the description test, in order, and exactly those |
| ArduinoLink.ArduinoManager.CanSend | arduino_manager.py:114 | the send gate: connected, with a port present and open (no contract; `SendCommand` states its role) |
| ArduinoLink.ArduinoManager.SendCommand | arduino_manager.py:112-130 | succeeds exactly when connected, with the port present and open, and the write goes through; success appends exactly one envelope, failure writes nothing; no field changes |
| ArduinoLink.ArduinoManager.SendDisplayCommand | arduino_manager.py:87-92 | under the send gate, writes DISPLAY with both lines cut to 16 |
| ArduinoLink.ArduinoManager.SendClearDisplay | arduino_manager.py:94-96 | under the send gate, writes CLEAR with an empty payload |
| ArduinoLink.ArduinoManager.SendAttackAlert | arduino_manager.py:98-103 | under the send gate, writes ALERT with the type cut to 16 and the severity to 8 |
| ArduinoLink.ArduinoManager.SendNormalStatus | arduino_manager.py:105-110 | under the send gate, writes STATUS with the name and address cut to 16 |
| ArduinoLink.ArduinoManager.SendHandshake | arduino_manager.py:70-75 | HELLO and then the fixed STATUS, each written exactly when the gate is open and its own write goes through; no field changes |
| ArduinoLink.ArduinoManager.Connect | arduino_manager.py:35-68 | no discovered port: nothing changes. Open fails: only `is_connected` is cleared. Open succeeds: port, name and device id are set; the result and `is_connected` equal the registration's success; on success CONNECTED, HELLO and STATUS are written in that order. The send gate is open after success, and the link invariant is kept |
| ArduinoLink.ArduinoManager.Disconnect | arduino_manager.py:77-85 | an open port is closed and `is_connected` cleared; otherwise nothing changes; afterwards nothing can be sent |
| ArduinoLink.ArduinoManager.ReadStep | arduino_manager.py:132-163 | one loop pass. Not connected: the loop stops. No data, blank or undecodable line: no state changes. Read error: the loop stops. A message refreshes the heartbeat, reaches the current callback, writes DISPLAY "Connected"/"IoT Backend OK" exactly when its status is "arduino_ready" and that write goes through, and stops the loop when it is not an object. None of these changes the port, its name, `is_connected` or the device id. A missing or closed port, while connected, reconnects to the remembered port (or the first discovered one), with the device id cleared. Under `Linked()` the connection fields never change |
| ArduinoLink.ArduinoManager.SetMessageCallback | arduino_manager.py:165-167 | the new callback replaces the old one, and nothing else changes |
| ArduinoLink.ArduinoManager.GetStatus | arduino_manager.py:169-177 | the status reports the current connected flag, port, device id, baud rate and heartbeat |
| ArduinoLink.ConnectThenStatus | arduino_manager.py:35-68 | after a connect that opens and registers, the status reports connected on the requested port and device |
| DeviceEndpoint.Data | app.py:255-258 | the body's fields when it is an object, no fields when it is falsy, and nothing readable when it is not JSON or is a truthy non-object |
| DeviceEndpoint.UserIdOf | app.py:257 | the token's user when truthy, else the body's `user_id`; truthy exactly when one of them is |
| DeviceEndpoint.DeviceIdOf | app.py:258 | the body's `device_id` when truthy, else its `id`; truthy exactly when one of them is |
| DeviceEndpoint.IdsPresent | app.py:262 | `all([user_id, device_id])` (no contract; `MissingIdsRejected` states its role) |
| DeviceEndpoint.DeviceNameOf | app.py:259 | the body's device name when truthy, otherwise "IoT Device" |
| DeviceEndpoint.IpAddressOf | app.py:260 | the body's address when truthy, otherwise "0.0.0.0" |
| DeviceEndpoint.FeatureParams | app.py:265-275 | `params` has exactly the nine feature keys, each holding the body's value or 0 |
| DeviceEndpoint.Numeric | attack_detection.py:62-132 | the number a JSON value compares as in the classifier's comparisons: integers, floats and booleans; any other value raises `TypeError` (no contract; `NumericParams` and `NonNumericFeatureFails` state its role) |
| DeviceEndpoint.AllNumeric | app.py:278 | every feature handed to `detect_attack` compares as a number (no contract; `NonNumericFeatureFails` and `CreatedLayout` state its role) |
| DeviceEndpoint.NumericParams | app.py:278 | the classifier sees exactly the nine keys, each the number its JSON value compares as |
| DeviceEndpoint.PostDeviceResult | app.py:253-302 | the specification of the handler: the response and the ordered collaborator calls (no contract; the lemmas below state its properties) |
| DeviceEndpoint.Recorded | app.py:279-280 | the detection row and the status update every verdict records (no contract; `RecordedKeepsVerdict` states it) |
| DeviceEndpoint.Dispatched | app.py:282-289 | the alert path for an attack, the display call for Normal (no contract; `AttackRaisesAlert`, `NormalOnlyDisplays` and `AlertIffAttack` state it) |
| DeviceEndpoint.PostDevice | app.py:253-302 | the handler's response and call trace are exactly `PostDeviceResult` |
| DeviceEndpoint.MalformedBodyFails | app.py:255-258 | a body that is not JSON, or is a truthy non-object, gets a 500 with no collaborator call, and only such a body does |
| DeviceEndpoint.MissingIdsRejected | app.py:262-263 | a 400 "Missing required fields" is returned exactly when the body is readable and the user id or the device id is missing or falsy, and then no collaborator is called |
| DeviceEndpoint.DeviceCreatedFirst | app.py:277 | with both ids present, the first call creates the device with the ids, the defaulted name and address, and `params` |
| DeviceEndpoint.NonNumericFeatureFails | app.py:277-278 | the handler answers 500 exactly when the body is unreadable, or the ids are present and some feature is not a number; in the second case only the device row was created |
| DeviceEndpoint.CreatedEchoesVerdict | app.py:291-298 | a 201 carries the new row id and the classifier's verdict on the defaulted features |
| DeviceEndpoint.CreatedLayout | app.py:277-298 | with a readable body, both ids present and every feature numeric, the answer is a 201, and its trace is the device row, then the recorded verdict, then its dispatch, and nothing else |
| DeviceEndpoint.RecordedKeepsVerdict | app.py:279-280 | the detection row stores the whole verdict; then the status is set to the attack type with active true; neither call alerts or displays |
| DeviceEndpoint.AttackRaisesAlert | app.py:282-287 | an attack is dispatched as create_alert, the mail with the type's recommendations, mark_alert_sent of that alert, and the display alert, in that order |
| DeviceEndpoint.NormalOnlyDisplays | app.py:288-289 | a Normal verdict is dispatched only as the device shown on the display, with no alert, mail or mark-sent call |
| DeviceEndpoint.AlertIffAttack | app.py:282-289 | an alert row is created exactly when the verdict is an attack, and the device is shown exactly when it is Normal |
| DeviceEndpoint.MailResultIgnored | app.py:285-286 | what the mail sender returns changes neither the response nor the trace |
| DeviceEndpoint.MissingFeaturesDefaultToZero | app.py:265-275 | a body with no feature fields is classified as the all-zero vector |
| DeviceEndpoint.FeaturelessReportIsNormal | app.py:265-298 | a report with a readable body, both ids and no features gets a 201 with Normal, 0.98, Low, score 0 and the canned indicators |

## Left out

- Serial I/O is abstract: pyserial enumeration, open, write and readline, and the byte encoding of JSON lines are not modelled. An envelope is a value, and a decoded line is a `Value` or one of the failure cases.
- The background read thread, its scheduling and the concurrency between the loop and the senders are not modelled. `ReadStep` is one sequential pass of the loop, and starting the thread inside `connect` is not represented.
- `time.sleep` delays are left out. `time.time()` is a `now` parameter, taken once per call. `round(time.time(), 2)` in the envelope is not modelled.
- `register_arduino_connection` and `update_arduino_heartbeat` are opaque: the first succeeds or raises, as the world says; the second is not represented.
- ArduinoLink.ArduinoManager.Connect: the CONNECTED write and the two handshake writes inside `connect` are taken to go through; a write failure there is not modelled (`SendHandshake` on its own does model it).
- ArduinoLink.ArduinoManager.ReadStep: the reconnect branch is specified only for the case where the reopen and the registration succeed, and its writes are taken to go through.
- ArduinoLink.ArduinoManager.constructor: the default baud rate of 9600 in `__init__`, which the module-level `arduino_manager = ArduinoManager()` relies on, is not a default here; the caller passes the baud rate.
- ArduinoLink.ArduinoManager.Disconnect: an exception from `close()` is not modelled.
- The message callback is an opaque handle. What it does when called is not modelled, and neither is an exception it raises.
- The module-level wrappers delegate unchanged and are not modelled separately: `detect_attack`, `get_attack_recommendations`, `initialize_arduino`, `get_arduino_status`, `send_to_arduino_display`, `send_attack_to_arduino` and `clear_arduino_display`. In the endpoint, the display calls appear as trace events.
- Database, mail and display collaborators of `post_device` are trace events. Their return values are `Collaborators` fields. An exception from any of them, which the handler turns into a 500, is not modelled. The exceptions modelled are the body that `get_json` or `data.get` cannot read and the `TypeError` a non-numeric feature raises in the classifier.
- DeviceEndpoint.PostDevice: a number or boolean `device_name` or `ip_address` makes the slice in `send_normal_status` raise on the Normal path. The source then answers 500 after `create_device`, `create_detection` and `update_device_status`; the model answers 201 and records `ArduinoDisplay` with the value. A list or object value is rejected earlier by an exception from `create_device`, which the line above leaves out.
- Authentication, Flask routing, the other endpoints, the database schema, the mail formatting and the separate serial path in app.py are not part of this model. database.py, email_alerts.py and test_serial.py are not part of this model.
- Numbers are exact reals, not IEEE floats. JSON integers, floats and booleans all compare as numbers, as in Python.
- The classifier's nine checks and eleven rules are written out one after another in the source. The model keeps them as two ordered tables, and `DetectAttack` walks them with one loop each, in source order.
