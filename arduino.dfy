/**
 * The serial display link (`ArduinoManager` in arduino_manager.py).
 *
 * The transport is abstract: the port is an optional `SerialPort` value
 * that is open or closed, every JSON envelope the manager writes is
 * appended to `written`, and every call of the message callback is
 * appended to `delivered`. What the outside world decides (which ports
 * are attached, whether opening the port and registering the connection
 * succeed, whether a write goes through, what arrives on the line) is
 * passed in as parameters, and the wall clock is a `now` parameter.
 */
module ArduinoLink {
  import opened Common

  /** LCD line width: `line1`, `line2`, `device`, `ip` and `attack` are cut to it. */
  const DISPLAY_WIDTH := 16
  /** `severity` is cut to this many characters. */
  const SEVERITY_WIDTH := 8

  /** One entry of the operating system's port list. */
  datatype PortInfo = PortInfo(device: string, description: string, manufacturer: string)

  /** The serial handle the manager holds: the device it was opened on and whether it is still open. */
  datatype SerialPort = SerialPort(device: string, isOpen: bool)

  /** The JSON object `{cmd, data, timestamp}` written as one line. */
  datatype Envelope = Envelope(cmd: string, data: map<string, Value>, timestamp: real)

  /** An opaque handle for the function registered with `set_message_callback`. */
  datatype Callback = Callback(id: nat)

  /** One invocation of the callback with a decoded message. */
  datatype Delivery = Delivery(callback: Callback, message: Value)

  /**
   * The outside world at the time of a call: the attached ports, whether
   * `serial.Serial(...)` succeeds and whether `register_arduino_connection`
   * succeeds.
   */
  datatype World = World(comports: seq<PortInfo>, openSucceeds: bool, registerSucceeds: bool)

  /** The dictionary `get_status` returns. */
  datatype Status = Status(
    connected: bool, port: Option<string>, deviceId: Option<int>,
    baudrate: int, lastHeartbeat: real)

  /**
   * What one pass of the read loop finds on the line: nothing waiting, a
   * `readline` that raises, a line that is blank after stripping, a line
   * that is not JSON, or a decoded JSON value.
   */
  datatype Inbound = NoData | ReadFailure | BlankLine | Garbled | Message(msg: Value)

  // ---------------------------------------------------------------------
  // Port discovery
  // ---------------------------------------------------------------------

  predicate IsPrefix(p: string, s: string) {
    |p| <= |s| && s[..|p|] == p
  }

  /** Python's case-sensitive `sub in s`; a pattern longer than the text is never found. */
  predicate Contains(s: string, sub: string)
    ensures Contains(s, sub) ==> |sub| <= |s|
    decreases |s|
  {
    IsPrefix(sub, s) || (|s| > 0 && Contains(s[1..], sub))
  }

  /** `sub` occurs in `s` starting at index `i`. */
  ghost predicate OccursAt(s: string, sub: string, i: int) {
    0 <= i && i + |sub| <= |s| && s[i..i + |sub|] == sub
  }

  /** `Contains` is substring search: it holds exactly when `sub` occurs at some index of `s`. */
  lemma {:induction false} ContainsAt(s: string, sub: string)
    ensures Contains(s, sub) <==> exists i :: OccursAt(s, sub, i)
    decreases |s|
  {
    if IsPrefix(sub, s) {
      assert OccursAt(s, sub, 0);
    } else if |s| > 0 {
      ContainsAt(s[1..], sub);
      if exists i :: OccursAt(s[1..], sub, i) {
        var i :| OccursAt(s[1..], sub, i);
        assert s[i + 1..i + 1 + |sub|] == s[1..][i..i + |sub|];
        assert OccursAt(s, sub, i + 1);
      }
      if exists i :: OccursAt(s, sub, i) {
        var i :| OccursAt(s, sub, i);
        assert i > 0;
        assert s[1..][i - 1..i - 1 + |sub|] == s[i..i + |sub|];
        assert OccursAt(s[1..], sub, i - 1);
      }
    }
  }

  /** The description test of `find_arduino_ports`: "Arduino", "USB" or "CH340" occurs somewhere in the description. */
  predicate IsArduinoPort(p: PortInfo)
    ensures IsArduinoPort(p) <==>
      (exists i :: OccursAt(p.description, "Arduino", i)) || (exists i :: OccursAt(p.description, "USB", i))
      || (exists i :: OccursAt(p.description, "CH340", i))
  {
    ContainsAt(p.description, "Arduino");
    ContainsAt(p.description, "USB");
    ContainsAt(p.description, "CH340");
    Contains(p.description, "Arduino") || Contains(p.description, "USB") || Contains(p.description, "CH340")
  }

  /** The ports that pass the description test, in their original order. */
  function ArduinoPorts(ports: seq<PortInfo>): (r: seq<PortInfo>)
    ensures |r| <= |ports|
    ensures forall p :: p in r ==> IsArduinoPort(p)
  {
    if ports == [] then []
    else
      var rest := ArduinoPorts(ports[..|ports| - 1]);
      if IsArduinoPort(ports[|ports| - 1]) then rest + [ports[|ports| - 1]] else rest
  }

  /** Exactly the ports that pass the test are kept. */
  lemma {:induction false} ArduinoPortsMembers(ports: seq<PortInfo>, p: PortInfo)
    ensures p in ArduinoPorts(ports) <==> p in ports && IsArduinoPort(p)
  {
    if ports != [] {
      ArduinoPortsMembers(ports[..|ports| - 1], p);
      assert ports == ports[..|ports| - 1] + [ports[|ports| - 1]];
    }
  }

  /** Filtering distributes over concatenation, so the original order is kept. */
  lemma {:induction false} ArduinoPortsAppend(xs: seq<PortInfo>, ys: seq<PortInfo>)
    ensures ArduinoPorts(xs + ys) == ArduinoPorts(xs) + ArduinoPorts(ys)
    decreases |ys|
  {
    if ys == [] {
      assert xs + ys == xs;
    } else {
      var zs := ys[..|ys| - 1];
      assert (xs + ys)[..|xs + ys| - 1] == xs + zs;
      ArduinoPortsAppend(xs, zs);
    }
  }

  /** The port `connect` picks, the head of the filtered list, is the first attached port that passes the test. */
  lemma {:induction false} FirstArduinoPort(ports: seq<PortInfo>)
    requires ArduinoPorts(ports) != []
    ensures exists i :: (0 <= i < |ports| && ArduinoPorts(ports)[0] == ports[i]
      && IsArduinoPort(ports[i]) && forall j :: 0 <= j < i ==> !IsArduinoPort(ports[j]))
    decreases |ports|
  {
    if IsArduinoPort(ports[0]) {
      ArduinoPortsAppend([ports[0]], ports[1..]);
      assert [ports[0]] + ports[1..] == ports;
      assert ArduinoPorts([ports[0]]) == [ports[0]];
    } else {
      ArduinoPortsAppend([ports[0]], ports[1..]);
      assert [ports[0]] + ports[1..] == ports;
      assert ArduinoPorts([ports[0]]) == [];
      FirstArduinoPort(ports[1..]);
      var i :| 0 <= i < |ports[1..]| && ArduinoPorts(ports[1..])[0] == ports[1..][i]
        && IsArduinoPort(ports[1..][i]) && forall j :: 0 <= j < i ==> !IsArduinoPort(ports[1..][j]);
      assert forall j :: 0 <= j < i + 1 ==> !IsArduinoPort(ports[j]) by {
        forall j | 0 <= j < i + 1
          ensures !IsArduinoPort(ports[j])
        {
          if j > 0 {
            assert ports[j] == ports[1..][j - 1];
          }
        }
      }
      assert ports[i + 1] == ports[1..][i];
    }
  }

  // ---------------------------------------------------------------------
  // Command payloads
  // ---------------------------------------------------------------------

  /** Python's `s[:n]` for a non-negative `n`. */
  function Truncate(s: string, n: nat): (r: string)
    ensures |r| == Min(|s|, n)
    ensures IsPrefix(r, s)
    ensures |s| <= n ==> r == s
  {
    if |s| <= n then s else s[..n]
  }

  function DisplayData(line1: string, line2: string): map<string, Value> {
    map["line1" := Str(Truncate(line1, DISPLAY_WIDTH)), "line2" := Str(Truncate(line2, DISPLAY_WIDTH))]
  }

  function AlertData(attackType: string, severity: string): map<string, Value> {
    map["attack" := Str(Truncate(attackType, DISPLAY_WIDTH)), "severity" := Str(Truncate(severity, SEVERITY_WIDTH))]
  }

  function StatusData(deviceName: string, ipAddress: string): map<string, Value> {
    map["device" := Str(Truncate(deviceName, DISPLAY_WIDTH)), "ip" := Str(Truncate(ipAddress, DISPLAY_WIDTH))]
  }

  /** `{"status": "connected", "device_id": device_id}`, with `None` written as JSON null. */
  function ConnectedData(deviceId: Option<int>): map<string, Value> {
    map["status" := Str("connected"), "device_id" := if deviceId.Some? then Int(deviceId.value) else Null]
  }

  const HELLO_DATA: map<string, Value> := map["msg" := Str("Python connected")]
  const HANDSHAKE_STATUS_DATA: map<string, Value> := map["device" := Str("IoT Backend"), "ip" := Str("Connected")]

  /** Every string a payload builder puts in an envelope is at most its field's width, and a short input is sent whole. */
  lemma PayloadWidths(a: string, b: string)
    ensures DisplayData(a, b).Keys == {"line1", "line2"}
    ensures |DisplayData(a, b)["line1"].s| <= DISPLAY_WIDTH && |DisplayData(a, b)["line2"].s| <= DISPLAY_WIDTH
    ensures StatusData(a, b).Keys == {"device", "ip"}
    ensures |StatusData(a, b)["device"].s| <= DISPLAY_WIDTH && |StatusData(a, b)["ip"].s| <= DISPLAY_WIDTH
    ensures AlertData(a, b).Keys == {"attack", "severity"}
    ensures |AlertData(a, b)["attack"].s| <= DISPLAY_WIDTH && |AlertData(a, b)["severity"].s| <= SEVERITY_WIDTH
    ensures |a| <= DISPLAY_WIDTH ==>
      DisplayData(a, b)["line1"] == Str(a) && StatusData(a, b)["device"] == Str(a) && AlertData(a, b)["attack"] == Str(a)
    ensures |b| <= DISPLAY_WIDTH ==> DisplayData(a, b)["line2"] == Str(b) && StatusData(a, b)["ip"] == Str(b)
    ensures |b| <= SEVERITY_WIDTH ==> AlertData(a, b)["severity"] == Str(b)
    ensures IsPrefix(AlertData(a, b)["severity"].s, b)
  {
  }

  /** The message the read loop treats as "peripheral ready": a JSON object whose `status` is exactly `"arduino_ready"`. */
  predicate IsReady(msg: Value) {
    msg.Object? && "status" in msg.fields && msg.fields["status"] == Str("arduino_ready")
  }

  // ---------------------------------------------------------------------
  // The manager
  // ---------------------------------------------------------------------

  class ArduinoManager {
    const baudrate: int
    var serialPort: Option<SerialPort>
    var portName: Option<string>
    var isConnected: bool
    var deviceId: Option<int>
    var onMessageCallback: Option<Callback>
    var lastHeartbeat: real
    /** Every envelope written to the port, oldest first. */
    var written: seq<Envelope>
    /** Every call of the message callback, oldest first. */
    var delivered: seq<Delivery>

    /** A connected manager holds an open port. Every operation keeps this. */
    predicate Linked()
      reads this
    {
      isConnected ==> serialPort.Some? && serialPort.value.isOpen
    }

    /** The send gate of `_send_command`: connected, and the port present and open. */
    predicate CanSend()
      reads this
    {
      isConnected && serialPort.Some? && serialPort.value.isOpen
    }

    constructor(baudrate: int, now: real)
      ensures this.baudrate == baudrate
      ensures serialPort == None && portName == None && deviceId == None
      ensures !isConnected && onMessageCallback == None && lastHeartbeat == now
      ensures written == [] && delivered == []
      ensures Linked()
    {
      this.baudrate := baudrate;
      serialPort := None;
      portName := None;
      isConnected := false;
      deviceId := None;
      onMessageCallback := None;
      lastHeartbeat := now;
      written := [];
      delivered := [];
    }

    /** `find_arduino_ports`: one pass over the attached ports, keeping those whose description matches. */
    method FindArduinoPorts(world: World) returns (ports: seq<PortInfo>)
      ensures ports == ArduinoPorts(world.comports)
      ensures forall p :: p in ports <==> p in world.comports && IsArduinoPort(p)
    {
      ports := [];
      for i := 0 to |world.comports|
        invariant ports == ArduinoPorts(world.comports[..i])
      {
        var port := world.comports[i];
        assert world.comports[..i + 1][..i] == world.comports[..i];
        if IsArduinoPort(port) {
          ports := ports + [PortInfo(port.device, port.description, port.manufacturer)];
        }
      }
      assert world.comports[..|world.comports|] == world.comports;
      forall p | true
        ensures p in ports <==> p in world.comports && IsArduinoPort(p)
      {
        ArduinoPortsMembers(world.comports, p);
      }
    }

    /**
     * `_send_command`: when the gate is open and the write goes through,
     * append exactly one envelope and report success; otherwise write
     * nothing and report failure. No field changes.
     */
    method SendCommand(cmd: string, data: map<string, Value>, now: real, writeOk: bool) returns (ok: bool)
      modifies this
      ensures ok <==> old(CanSend()) && writeOk
      ensures ok ==> written == old(written) + [Envelope(cmd, data, now)]
      ensures !ok ==> written == old(written)
      ensures serialPort == old(serialPort) && portName == old(portName) && isConnected == old(isConnected)
      ensures deviceId == old(deviceId) && onMessageCallback == old(onMessageCallback)
      ensures lastHeartbeat == old(lastHeartbeat) && delivered == old(delivered)
    {
      if !isConnected || serialPort.None? || !serialPort.value.isOpen {
        return false;
      }
      if !writeOk {
        // the write raised; `_send_command` catches it and reports failure
        return false;
      }
      written := written + [Envelope(cmd, data, now)];
      return true;
    }

    /** `send_display_command`: both lines cut to 16 characters. */
    method SendDisplayCommand(line1: string, line2: string, now: real, writeOk: bool) returns (ok: bool)
      modifies this
      ensures ok <==> old(CanSend()) && writeOk
      ensures ok ==> written == old(written) + [Envelope("DISPLAY", DisplayData(line1, line2), now)]
      ensures !ok ==> written == old(written)
      ensures serialPort == old(serialPort) && portName == old(portName) && isConnected == old(isConnected)
      ensures deviceId == old(deviceId) && onMessageCallback == old(onMessageCallback)
      ensures lastHeartbeat == old(lastHeartbeat) && delivered == old(delivered)
    {
      ok := SendCommand("DISPLAY", DisplayData(line1, line2), now, writeOk);
    }

    /** `send_clear_display`: an empty payload. */
    method SendClearDisplay(now: real, writeOk: bool) returns (ok: bool)
      modifies this
      ensures ok <==> old(CanSend()) && writeOk
      ensures ok ==> written == old(written) + [Envelope("CLEAR", map[], now)]
      ensures !ok ==> written == old(written)
      ensures serialPort == old(serialPort) && portName == old(portName) && isConnected == old(isConnected)
      ensures deviceId == old(deviceId) && onMessageCallback == old(onMessageCallback)
      ensures lastHeartbeat == old(lastHeartbeat) && delivered == old(delivered)
    {
      ok := SendCommand("CLEAR", map[], now, writeOk);
    }

    /** `send_attack_alert`: the type cut to 16 characters, the severity to 8. */
    method SendAttackAlert(attackType: string, severity: string, now: real, writeOk: bool) returns (ok: bool)
      modifies this
      ensures ok <==> old(CanSend()) && writeOk
      ensures ok ==> written == old(written) + [Envelope("ALERT", AlertData(attackType, severity), now)]
      ensures !ok ==> written == old(written)
      ensures serialPort == old(serialPort) && portName == old(portName) && isConnected == old(isConnected)
      ensures deviceId == old(deviceId) && onMessageCallback == old(onMessageCallback)
      ensures lastHeartbeat == old(lastHeartbeat) && delivered == old(delivered)
    {
      ok := SendCommand("ALERT", AlertData(attackType, severity), now, writeOk);
    }

    /** `send_normal_status`: device name and address cut to 16 characters. */
    method SendNormalStatus(deviceName: string, ipAddress: string, now: real, writeOk: bool) returns (ok: bool)
      modifies this
      ensures ok <==> old(CanSend()) && writeOk
      ensures ok ==> written == old(written) + [Envelope("STATUS", StatusData(deviceName, ipAddress), now)]
      ensures !ok ==> written == old(written)
      ensures serialPort == old(serialPort) && portName == old(portName) && isConnected == old(isConnected)
      ensures deviceId == old(deviceId) && onMessageCallback == old(onMessageCallback)
      ensures lastHeartbeat == old(lastHeartbeat) && delivered == old(delivered)
    {
      ok := SendCommand("STATUS", StatusData(deviceName, ipAddress), now, writeOk);
    }

    /**
     * `send_handshake`: HELLO, then the fixed STATUS line. Each is a separate
     * `_send_command`, so each goes out or fails on its own; `helloOk` and
     * `statusOk` say whether the respective write goes through.
     */
    method SendHandshake(now: real, helloOk: bool, statusOk: bool)
      modifies this
      ensures written == old(written)
        + (if old(CanSend()) && helloOk then [Envelope("HELLO", HELLO_DATA, now)] else [])
        + (if old(CanSend()) && statusOk then [Envelope("STATUS", HANDSHAKE_STATUS_DATA, now)] else [])
      ensures serialPort == old(serialPort) && portName == old(portName) && isConnected == old(isConnected)
      ensures deviceId == old(deviceId) && onMessageCallback == old(onMessageCallback)
      ensures lastHeartbeat == old(lastHeartbeat) && delivered == old(delivered)
    {
      var _ := SendCommand("HELLO", HELLO_DATA, now, helloOk);
      var _ := SendCommand("STATUS", HANDSHAKE_STATUS_DATA, now, statusOk);
    }

    /**
     * `connect`. Without an explicit port the first discovered one is
     * used, and with none discovered nothing changes. A failed open only
     * clears `isConnected`. Once the port is open the fields are set and
     * `isConnected` is true; a failed registration then clears
     * `isConnected` again. Otherwise CONNECTED, HELLO and STATUS are
     * written, in that order.
     */
    method Connect(port: Option<string>, deviceId: Option<int>, world: World, now: real) returns (ok: bool)
      modifies this
      ensures var target := if port.Some? then port.value else
                (if ArduinoPorts(world.comports) == [] then "" else ArduinoPorts(world.comports)[0].device);
        && (port.None? && ArduinoPorts(world.comports) == [] ==>
              !ok && serialPort == old(serialPort) && portName == old(portName)
              && this.deviceId == old(this.deviceId) && isConnected == old(isConnected) && written == old(written))
        && ((port.Some? || ArduinoPorts(world.comports) != []) && !world.openSucceeds ==>
              !ok && !isConnected && serialPort == old(serialPort) && portName == old(portName)
              && this.deviceId == old(this.deviceId) && written == old(written))
        && ((port.Some? || ArduinoPorts(world.comports) != []) && world.openSucceeds ==>
              serialPort == Some(SerialPort(target, true)) && portName == Some(target)
              && this.deviceId == deviceId
              && (ok <==> world.registerSucceeds) && isConnected == ok
              && (ok ==> written == old(written) + [
                    Envelope("CONNECTED", ConnectedData(deviceId), now),
                    Envelope("HELLO", HELLO_DATA, now),
                    Envelope("STATUS", HANDSHAKE_STATUS_DATA, now)])
              && (!ok ==> written == old(written)))
      ensures ok ==> CanSend()
      ensures old(Linked()) ==> Linked()
      ensures onMessageCallback == old(onMessageCallback) && lastHeartbeat == old(lastHeartbeat)
      ensures delivered == old(delivered)
    {
      var target: string;
      if port.None? {
        var ports := FindArduinoPorts(world);
        if ports == [] {
          return false;
        }
        target := ports[0].device;
      } else {
        target := port.value;
      }

      if !world.openSucceeds {
        // `serial.Serial(...)` raised
        isConnected := false;
        return false;
      }
      serialPort := Some(SerialPort(target, true));
      portName := Some(target);
      this.deviceId := deviceId;
      isConnected := true;

      if !world.registerSucceeds {
        // `register_arduino_connection` raised
        isConnected := false;
        return false;
      }

      var _ := SendCommand("CONNECTED", ConnectedData(deviceId), now, true);
      SendHandshake(now, true, true);
      return true;
    }

    /** `disconnect`: closes an open port and clears `isConnected`; otherwise does nothing. */
    method Disconnect()
      modifies this
      ensures old(serialPort.Some? && serialPort.value.isOpen) ==>
        serialPort == Some(old(serialPort.value).(isOpen := false)) && !isConnected
      ensures !old(serialPort.Some? && serialPort.value.isOpen) ==>
        serialPort == old(serialPort) && isConnected == old(isConnected)
      ensures !CanSend()
      ensures old(Linked()) ==> Linked()
      ensures portName == old(portName) && deviceId == old(deviceId) && onMessageCallback == old(onMessageCallback)
      ensures lastHeartbeat == old(lastHeartbeat) && written == old(written) && delivered == old(delivered)
    {
      if serialPort.Some? && serialPort.value.isOpen {
        serialPort := Some(serialPort.value.(isOpen := false));
        isConnected := false;
      }
    }

    /**
     * One pass of `_read_loop`. `running` is false when the loop ends: it
     * was not connected, `readline` raised, or the decoded message was
     * not an object (`message.get` raises). A decoded message refreshes
     * the heartbeat and reaches the callback; a ready message also puts
     * "Connected" / "IoT Backend OK" on the display, when that write goes
     * through (`displayOk`). A blank or garbled line changes nothing. With
     * no port, or a closed one, the pass reconnects to the remembered port;
     * a manager that keeps `Linked()` never gets there, so for it a pass
     * leaves the connection fields alone.
     */
    method ReadStep(inbound: Inbound, now: real, world: World, displayOk: bool) returns (running: bool)
      modifies this
      ensures !old(isConnected) ==>
        !running && serialPort == old(serialPort) && isConnected == old(isConnected)
        && portName == old(portName) && deviceId == old(deviceId)
        && lastHeartbeat == old(lastHeartbeat) && written == old(written) && delivered == old(delivered)
      ensures old(CanSend()) && !inbound.Message? ==>
        running == !inbound.ReadFailure?
        && serialPort == old(serialPort) && isConnected == old(isConnected) && portName == old(portName)
        && deviceId == old(deviceId)
        && lastHeartbeat == old(lastHeartbeat) && written == old(written) && delivered == old(delivered)
      ensures old(CanSend()) && inbound.Message? ==>
        running == inbound.msg.Object?
        && serialPort == old(serialPort) && isConnected == old(isConnected) && portName == old(portName)
        && deviceId == old(deviceId)
        && lastHeartbeat == now
        && delivered == old(delivered) + (if old(onMessageCallback).Some? then [Delivery(old(onMessageCallback).value, inbound.msg)] else [])
        && written == old(written)
             + (if IsReady(inbound.msg) && displayOk then [Envelope("DISPLAY", DisplayData("Connected", "IoT Backend OK"), now)] else [])
      ensures old(isConnected) && !old(CanSend()) ==>
        var target := if old(portName).Some? then old(portName).value
                      else if ArduinoPorts(world.comports) == [] then "" else ArduinoPorts(world.comports)[0].device;
        running && lastHeartbeat == old(lastHeartbeat) && delivered == old(delivered)
        && (world.openSucceeds && world.registerSucceeds && (old(portName).Some? || ArduinoPorts(world.comports) != []) ==>
              isConnected && deviceId == None
              && serialPort == Some(SerialPort(target, true)) && portName == Some(target)
              && written == old(written) + [
                   Envelope("CONNECTED", ConnectedData(None), now),
                   Envelope("HELLO", HELLO_DATA, now),
                   Envelope("STATUS", HANDSHAKE_STATUS_DATA, now)])
      ensures old(Linked()) ==>
        Linked() && serialPort == old(serialPort) && portName == old(portName)
        && isConnected == old(isConnected) && deviceId == old(deviceId)
      ensures onMessageCallback == old(onMessageCallback)
    {
      if !isConnected {
        return false;
      }
      if serialPort.Some? && serialPort.value.isOpen {
        match inbound
        case NoData =>
          return true;
        case ReadFailure =>
          // `readline` raised: the loop's handler breaks out
          return false;
        case BlankLine =>
          return true;
        case Garbled =>
          // `json.loads` raised `JSONDecodeError`, which is reported and skipped
          return true;
        case Message(message) =>
          lastHeartbeat := now;
          if onMessageCallback.Some? {
            delivered := delivered + [Delivery(onMessageCallback.value, message)];
          }
          if !message.Object? {
            // `message.get` raised on a non-object: the loop's handler breaks out
            return false;
          }
          if "status" in message.fields && message.fields["status"] == Str("arduino_ready") {
            var _ := SendDisplayCommand("Connected", "IoT Backend OK", now, displayOk);
          }
          return true;
      } else {
        var _ := Connect(portName, None, world, now);
        return true;
      }
    }

    /** `set_message_callback`: the new callback replaces any previous one. */
    method SetMessageCallback(callback: Option<Callback>)
      modifies this
      ensures onMessageCallback == callback
      ensures serialPort == old(serialPort) && portName == old(portName) && isConnected == old(isConnected)
      ensures deviceId == old(deviceId) && lastHeartbeat == old(lastHeartbeat)
      ensures written == old(written) && delivered == old(delivered)
    {
      onMessageCallback := callback;
    }

    /** `get_status`: the current connection fields. */
    function GetStatus(): (s: Status)
      reads this
      ensures s.connected <==> isConnected
      ensures s.port == portName && s.deviceId == deviceId
      ensures s.baudrate == baudrate && s.lastHeartbeat == lastHeartbeat
    {
      Status(isConnected, portName, deviceId, baudrate, lastHeartbeat)
    }
  }

  /** After a successful connect on a given port, the status reports it connected on that port. */
  method ConnectThenStatus(m: ArduinoManager, port: string, deviceId: Option<int>, world: World, now: real)
      returns (ok: bool, s: Status)
    modifies m
    requires world.openSucceeds && world.registerSucceeds
    ensures ok && s == Status(true, Some(port), deviceId, m.baudrate, old(m.lastHeartbeat))
  {
    ok := m.Connect(Some(port), deviceId, world, now);
    s := m.GetStatus();
  }
}
