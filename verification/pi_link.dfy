/**
 * The Raspberry Pi side of the 4-byte servo protocol (`ArduinoCommunicator`):
 * input validation, the checksum and the packet layout of the
 * fire-and-forget `send_command`. The serial port is reduced to whether it
 * is open and whether the write raised.
 */
module PiLink {
  import opened Num

  const PACKET_HEADER: Byte := 0xFF
  const SERVO_COUNT: int := 6

  /** `_calculate_checksum(header, index, angle)`: `(header + index + angle) & 0xFF`. */
  function Checksum(header: int, index: int, angle: int): (c: Byte)
    ensures 0 <= header + index + angle < 256 ==> c == header + index + angle
    ensures (c - (header + index + angle)) % 256 == 0
  {
    (header + index + angle) % 256
  }

  /** What one call did: the packet handed to `ser.write` (empty when nothing was written) and the return value. */
  datatype SendResult = SendResult(packet: seq<Byte>, ok: bool)

  /** A Python number that survives `int(x) & 0xFF` unchanged: an integer in 0..255. */
  predicate ByteValued(x: real) {
    x == x.Floor as real && 0.0 <= x < 256.0
  }

  /** `int(x) & 0xFF`; Python's `&` with 0xFF is the non-negative remainder modulo 256. */
  function LowByte(x: real): Byte {
    Trunc(x) % 256
  }

  /**
   * `send_command(servo_index, angle)`. `portOpen` is `ser and ser.is_open`;
   * `writeOk` is false when `ser.write` raised `SerialException`. No reply is read.
   */
  function SendCommand(portOpen: bool, index: real, angle: real, writeOk: bool): (r: SendResult)
    ensures !portOpen ==> r == SendResult([], false)
    ensures r.ok ==> |r.packet| == 4
    ensures r.packet != [] ==> |r.packet| == 4
    ensures |r.packet| == 4 ==> r.packet == [PACKET_HEADER, r.packet[1], r.packet[2], Checksum(PACKET_HEADER, r.packet[1], r.packet[2])]
    ensures |r.packet| == 4 ==> r.packet[1] as real == index && r.packet[2] as real == angle
    ensures r.ok <==> r.packet != [] && writeOk
  {
    if !portOpen then SendResult([], false)
    else
      var indexByte := LowByte(index);
      var angleByte := LowByte(angle);
      if indexByte as real != index || index >= SERVO_COUNT as real then SendResult([], false)
      else if angleByte as real != angle || angle > 180.0 then SendResult([], false)
      else
        var packet := [PACKET_HEADER, indexByte, angleByte, Checksum(PACKET_HEADER, indexByte, angleByte)];
        SendResult(packet, writeOk)
  }

  /** The byte-value test in `send_command` accepts exactly the integers 0..255. */
  lemma LowByteUnchangedIff(x: real)
    ensures LowByte(x) as real == x <==> ByteValued(x)
  {
    if ByteValued(x) {
      assert Trunc(x) == x.Floor;
      assert x.Floor % 256 == x.Floor;
    }
  }

  /**
   * A packet is written exactly when the port is open, the index is an integer
   * in 0..5 and the angle an integer in 0..180; negative or fractional values
   * are rejected.
   */
  lemma SendValidation(portOpen: bool, index: real, angle: real, writeOk: bool)
    ensures SendCommand(portOpen, index, angle, writeOk).packet != [] <==>
      portOpen && ByteValued(index) && index < SERVO_COUNT as real && ByteValued(angle) && angle <= 180.0
    ensures SendCommand(portOpen, index, angle, writeOk).ok ==> writeOk
  {
    LowByteUnchangedIff(index);
    LowByteUnchangedIff(angle);
  }

  /** On valid integer input the packet is `[0xFF, index, angle, (0xFF + index + angle) & 0xFF]` and a clean write returns True. */
  lemma SendValidPacket(index: int, angle: int)
    requires 0 <= index < SERVO_COUNT && 0 <= angle <= 180
    ensures SendCommand(true, index as real, angle as real, true) ==
      SendResult([PACKET_HEADER, index, angle, (PACKET_HEADER + index + angle) % 256], true)
  {
    LowByteUnchangedIff(index as real);
    LowByteUnchangedIff(angle as real);
  }
}
