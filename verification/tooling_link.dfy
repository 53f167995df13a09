/**
 * `ArduinoCom` of the setup tools: the ready handshake, the single-servo
 * packet `[0xFF, 0x01, index, angle]`, the six-servo packet
 * `[0xFF, 0x03, a0..a5]`, their reply checks, `close`, and the status the
 * web app's `api_move` reports. The serial port is reduced to whether `ser`
 * is set, whether `is_ready` holds, and the reply line each call reads.
 */
module ToolingLink {
  import opened Num
  import opened Wrappers
  import SC = ServoConstraints

  const START_BYTE: Byte := 0xFF
  const CMD_SET_ANGLE: Byte := 0x01
  const CMD_SET_ALL_ANGLES: Byte := 0x03

  const READY_MARK: string := "Ready."
  const SINGLE_ACK: string := "Executing: Servo "
  const MULTI_ACK: string := "All servos set:"

  /** `ser` is set (a closed port object still counts) and `is_ready`. */
  datatype Link = Link(hasPort: bool, isReady: bool)

  /** The link state the class keeps: ready only with a port. */
  predicate Coherent(l: Link) {
    l.isReady ==> l.hasPort
  }

  /** What a send call did: the bytes handed to `ser.write` (empty when nothing was written) and the return value. */
  datatype Sent = Sent(packet: seq<Byte>, ok: bool)

  /** `__init__`: no port, not ready. */
  function Initial(): (l: Link)
    ensures Coherent(l) && !l.isReady
  {
    Link(false, false)
  }

  /** Some line read during the wait contains `"Ready."`. */
  predicate SawReady(lines: seq<string>) {
    exists k | 0 <= k < |lines| :: Contains(lines[k], READY_MARK)
  }

  /**
   * `open_and_wait_for_ready`. `resetOk` is false when the reset open raised;
   * `lines` is `None` when the second open raised and otherwise the stripped
   * lines read before the 15 s timeout. A wait without `"Ready."` closes the
   * port and drops it.
   */
  function Open(l: Link, resetOk: bool, lines: Option<seq<string>>): (r: (Link, bool))
    ensures l.isReady ==> r == (l, true)
    ensures !l.isReady ==> (r.1 <==> resetOk && lines.Some? && SawReady(lines.value))
    ensures r.1 ==> r.0.isReady
    ensures !l.isReady && r.1 ==> r.0.hasPort
    ensures !r.1 ==> !r.0.isReady
    ensures !l.isReady && resetOk && lines.Some? && !SawReady(lines.value) ==> r.0 == Link(false, false)
    ensures Coherent(l) ==> Coherent(r.0)
  {
    if l.isReady then (l, true)
    else if !resetOk then (l, false)
    else
      match lines
      case None => (l, false)
      case Some(ls) => if SawReady(ls) then (Link(true, true), true) else (Link(false, false), false)
  }

  /**
   * `send_servo_command(servo_index, angle)`. The angle is clamped; an index
   * outside 0..255 makes `struct.pack` raise before the `try`, so the error
   * escapes. `reply` is `None` when the write or the read raised.
   */
  function SendServoCommand(l: Link, index: int, angle: int, reply: Option<string>): (r: Call<Sent>)
    ensures !(l.hasPort && l.isReady) ==> r == Returned(Sent([], false))
    ensures l.hasPort && l.isReady ==> (r.Raised? <==> !(0 <= index < 256))
    ensures r.Returned? && r.value.packet != [] ==>
      r.value.packet == [START_BYTE, CMD_SET_ANGLE, index, Clamp(angle, 0, 180)]
    ensures r.Returned? ==>
      (r.value.ok <==> r.value.packet != [] && 0 <= index && reply.Some? && StartsWith(reply.value, SINGLE_ACK + Decimal(index)))
  {
    if !(l.hasPort && l.isReady) then Returned(Sent([], false))
    else
      var a := Clamp(angle, 0, 180);
      if !(0 <= index < 256) then Raised("struct.error")
      else
        var packet := [START_BYTE, CMD_SET_ANGLE, index, a];
        match reply
        case None => Returned(Sent(packet, false))
        case Some(line) => Returned(Sent(packet, StartsWith(line, SINGLE_ACK + Decimal(index))))
  }

  /**
   * `send_multi_servo_command(angles)`: six angles, each clamped, in one
   * eight-byte packet; success is the `"All servos set:"` reply.
   */
  function SendMultiServoCommand(l: Link, angles: seq<int>, reply: Option<string>): (r: Sent)
    ensures !(l.hasPort && l.isReady) || |angles| != 6 ==> r == Sent([], false)
    ensures r.packet != [] ==> |angles| == 6 && |r.packet| == 8 && r.packet[..2] == [START_BYTE, CMD_SET_ALL_ANGLES]
    ensures r.packet != [] ==> forall i :: 0 <= i < 6 ==> r.packet[2 + i] == Clamp(angles[i], 0, 180)
    ensures r.ok <==> r.packet != [] && reply.Some? && StartsWith(reply.value, MULTI_ACK)
    ensures l.hasPort && l.isReady && |angles| == 6 ==> r.packet != []
  {
    if !(l.hasPort && l.isReady) then Sent([], false)
    else if |angles| != 6 then Sent([], false)
    else
      var clipped := seq(6, i requires 0 <= i < 6 => Clamp(angles[i], 0, 180) as Byte);
      var packet := [START_BYTE, CMD_SET_ALL_ANGLES] + clipped;
      assert forall i :: 0 <= i < 6 ==> packet[2 + i] == clipped[i];
      Sent(packet, reply.Some? && StartsWith(reply.value, MULTI_ACK))
  }

  /** `close`: with a port object, the port is closed and the link is no longer ready; `ser` itself is kept. */
  function Close(l: Link): (r: Link)
    ensures l.hasPort ==> !r.isReady
    ensures r.hasPort == l.hasPort
    ensures !l.hasPort ==> r == l
    ensures Coherent(l) ==> Coherent(r)
  {
    if l.hasPort then Link(true, false) else l
  }

  /** The status strings `api_move` logs. */
  const NOT_READY: string := "NOT_READY"
  const SUCCESS: string := "SUCCESS"
  const COMM_FAIL: string := "COMM_FAIL"

  /** `data.get('servo_angles', [90] * 6)` */
  function RequestedAngles(requested: Option<seq<int>>): seq<int>
  {
    match requested
    case None => [90, 90, 90, 90, 90, 90]
    case Some(a) => a
  }

  /** `api_move`: constrain the request with the web app's tables, send it, and report the status. */
  function ApiMove(l: Link, requested: Option<seq<int>>, reply: Option<string>): (r: (string, Sent))
    ensures r.0 == NOT_READY <==> !l.isReady
    ensures r.0 == SUCCESS <==> l.isReady && r.1.ok
    ensures r.0 in {NOT_READY, SUCCESS, COMM_FAIL}
    ensures r.1.packet != [] ==> |r.1.packet| == 8 && r.1.packet[2..] == SC.Apply(SC.App, RequestedAngles(requested))
    ensures l.isReady ==> r.1 == SendMultiServoCommand(l, SC.Apply(SC.App, RequestedAngles(requested)), reply)
    ensures !l.isReady ==> r.1 == Sent([], false)
  {
    var arduinoAngles := SC.Apply(SC.App, RequestedAngles(requested));
    if l.isReady then
      var s := SendMultiServoCommand(l, arduinoAngles, reply);
      assert s.packet != [] ==> s.packet[2..] == arduinoAngles;
      (if s.ok then SUCCESS else COMM_FAIL, s)
    else (NOT_READY, Sent([], false))
  }

  /** A ready link that receives six angles and the six-servo acknowledgement reports SUCCESS. */
  lemma ApiMoveSucceeds(l: Link, angles: seq<int>, line: string)
    requires Coherent(l) && l.isReady && |angles| == 6 && StartsWith(line, MULTI_ACK)
    ensures ApiMove(l, Some(angles), Some(line)).0 == SUCCESS
  {
  }

  /** A request without exactly six angles writes nothing and, on a ready link, reports COMM_FAIL. */
  lemma ApiMoveRejectsWrongCount(l: Link, angles: seq<int>, reply: Option<string>)
    requires Coherent(l) && l.isReady && |angles| != 6
    ensures ApiMove(l, Some(angles), reply) == (COMM_FAIL, Sent([], false))
  {
  }

  /** The constrained angles are already servo angles, so the six-servo clamp leaves them alone. */
  lemma ConstrainedAnglesPassClamp(angles: seq<int>)
    requires |angles| == 6
    ensures var c := SC.Apply(SC.App, angles);
      forall i :: 0 <= i < 6 ==> Clamp(c[i], 0, 180) == c[i]
  {
  }

  /** A move request without angles sends the mid pose: every joint mirrors 90 onto itself. */
  lemma DefaultMoveIsMidPose(l: Link, reply: Option<string>)
    requires l.hasPort && l.isReady
    ensures ApiMove(l, None, reply).1.packet == [START_BYTE, CMD_SET_ALL_ANGLES, 90, 90, 90, 90, 90, 90]
  {
    var c := SC.Apply(SC.App, [90, 90, 90, 90, 90, 90]);
    assert forall i :: 0 <= i < 6 ==> c[i] == SC.ConstrainOne(SC.App, i, 90) == 90;
    assert c == [90, 90, 90, 90, 90, 90];
    var s := SendMultiServoCommand(l, c, reply);
    assert s.packet[..2] == [START_BYTE, CMD_SET_ALL_ANGLES];
    assert s.packet == s.packet[..2] + s.packet[2..];
  }

  /** A short or long angle list is refused without touching the port. */
  lemma MultiNeedsSixAngles(l: Link, angles: seq<int>, reply: Option<string>)
    requires |angles| != 6
    ensures SendMultiServoCommand(l, angles, reply) == Sent([], false)
  {
  }

  /** Nothing is written and False returned until the handshake has seen `"Ready."`. */
  lemma SingleSendNeedsReady(l: Link, index: int, angle: int, reply: Option<string>)
    requires !l.isReady
    ensures SendServoCommand(l, index, angle, reply) == Returned(Sent([], false))
  {
  }

  /** After `close` every send is refused until the handshake runs again. */
  lemma ClosedLinkRefuses(l: Link, index: int, angle: int, reply: Option<string>)
    ensures SendServoCommand(Close(l), index, angle, reply) == Returned(Sent([], false))
  {
  }

  /** On a ready link the packet carries the clamped angle: out-of-range requests are pinned to 0 or 180. */
  lemma SingleSendPacket(index: int, angle: int, reply: Option<string>)
    requires 0 <= index < 256
    ensures var r := SendServoCommand(Link(true, true), index, angle, reply);
      && r.Returned?
      && r.value.packet == [START_BYTE, CMD_SET_ANGLE, index, if angle < 0 then 0 else if angle > 180 then 180 else angle]
  {
  }

  /**
   * The reply check is a prefix test, so the acknowledgement of servo 10 also
   * passes as an acknowledgement of servo 1.
   */
  lemma ReplyPrefixAcceptsOtherServo()
    ensures SendServoCommand(Link(true, true), 1, 90, Some("Executing: Servo 10 -> 90")).value.ok
  {
    assert Decimal(1) == "1";
    assert StartsWith("Executing: Servo 10 -> 90", SINGLE_ACK + "1");
  }

  /** A handshake that never sees `"Ready."` leaves no port behind, so the next `open` starts from scratch. */
  lemma FailedOpenDropsPort(l: Link, lines: seq<string>)
    requires !l.isReady && !SawReady(lines)
    ensures Open(l, true, Some(lines)) == (Link(false, false), false)
  {
  }

  /** Opening an already ready link is a no-op that reports success. */
  lemma OpenWhenReady(l: Link, resetOk: bool, lines: Option<seq<string>>)
    requires l.isReady
    ensures Open(l, resetOk, lines) == (l, true)
  {
  }
}
