/**
 * The two ends of the 4-byte servo protocol put together: what the Pi's
 * `send_command` writes is exactly what the firmware's decoder accepts, and
 * a corrupted byte is caught by the checksum.
 */
module Wire {
  import opened Num
  import PiLink
  import RobotArm
  import Streams = RobotArmStreams
  import SC = ServoController

  /**
   * Round trip: from a decoder waiting for a header, the bytes written for a
   * valid `(index, angle)` make the firmware reply "OK" once, store `angle` for
   * `index`, and drive that servo with the trimmed and clamped pulse.
   */
  lemma RoundTrip(f: RobotArm.Firmware, index: int, angle: int)
    requires Streams.Waiting(f)
    requires 0 <= index < PiLink.SERVO_COUNT && 0 <= angle <= 180
    ensures var sent := PiLink.SendCommand(true, index as real, angle as real, true);
      var (f', e) := RobotArm.Feed(f, sent.packet);
      && sent.ok
      && Streams.Waiting(f')
      && e.replies == [RobotArm.REPLY_OK]
      && f'.servos == SC.SetAngle(f.servos, index, angle).0
      && SC.GetAngle(f'.servos, index) == angle
      && e.writes == [SC.PwmWrite(index, 0, SC.AngleToPulse(SC.SafeAngle(index, angle)))]
  {
    PiLink.SendValidPacket(index, angle);
    var c := (RobotArm.PACKET_HEADER + index + angle) % 256;
    assert RobotArm.PacketChecksum(RobotArm.PACKET_HEADER, index, angle) == c;
    Streams.OnePacketOneReply(f, index, angle, c);
  }

  /**
   * Corrupting the index, the angle or the checksum byte of a valid packet in
   * transit is always detected: the firmware replies "ERR: Checksum mismatch"
   * and no servo changes.
   */
  lemma CorruptionDetected(f: RobotArm.Firmware, index: int, angle: int, pos: int, bad: Byte)
    requires Streams.Waiting(f)
    requires 0 <= index < PiLink.SERVO_COUNT && 0 <= angle <= 180
    requires 1 <= pos <= 3
    requires bad != PiLink.SendCommand(true, index as real, angle as real, true).packet[pos]
    ensures var packet := PiLink.SendCommand(true, index as real, angle as real, true).packet[pos := bad];
      var (f', e) := RobotArm.Feed(f, packet);
      && e.replies == [RobotArm.REPLY_CHECKSUM]
      && f'.servos == f.servos
      && e.writes == []
  {
    PiLink.SendValidPacket(index, angle);
    var good := PiLink.SendCommand(true, index as real, angle as real, true).packet;
    var packet := good[pos := bad];
    var h := RobotArm.PACKET_HEADER;
    var c := (h + index + angle) % 256;
    if pos == 1 {
      assert packet == [h, bad, angle, c];
      ChecksumSeparates(h + angle, bad, index);
      assert RobotArm.PacketChecksum(h, bad, angle) != c;
      MismatchRejected(f, bad, angle, c);
    } else if pos == 2 {
      assert packet == [h, index, bad, c];
      ChecksumSeparates(h + index, bad, angle);
      assert RobotArm.PacketChecksum(h, index, bad) != c;
      MismatchRejected(f, index, bad, c);
    } else {
      assert packet == [h, index, angle, bad];
      MismatchRejected(f, index, angle, bad);
    }
  }

  /** A packet whose last byte is not the checksum of the first three is refused without effect. */
  lemma MismatchRejected(f: RobotArm.Firmware, b1: Byte, b2: Byte, b3: Byte)
    requires Streams.Waiting(f)
    requires RobotArm.PacketChecksum(RobotArm.PACKET_HEADER, b1, b2) != b3
    ensures var (f', e) := RobotArm.Feed(f, [RobotArm.PACKET_HEADER, b1, b2, b3]);
      e.replies == [RobotArm.REPLY_CHECKSUM] && f'.servos == f.servos && e.writes == []
  {
    Streams.OnePacketOneReply(f, b1, b2, b3);
  }

  /** Two different byte values never share a checksum with the same remaining bytes. */
  lemma ChecksumSeparates(rest: int, x: Byte, y: Byte)
    requires x != y
    ensures (rest + x) % 256 != (rest + y) % 256
  {
  }
}
