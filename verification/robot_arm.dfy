/**
 * The firmware's packet decoder: a byte-at-a-time state machine over the
 * 4-byte packet `[0xFF, index, angle, checksum]`. A completed packet whose
 * checksum and ranges are valid drives one servo; every completed packet
 * produces exactly one reply line.
 */
module RobotArm {
  import opened Num
  import opened Wrappers
  import SC = ServoController

  const PACKET_HEADER: Byte := 0xFF
  /** Target angles written by `robotArmInit`. */
  const INIT_ANGLES: seq<Byte> := [90, 90, 90, 90, 90, 90]

  const REPLY_OK: string := "OK"
  const REPLY_RANGE: string := "ERR: Invalid data range"
  const REPLY_CHECKSUM: string := "ERR: Checksum mismatch"

  datatype Phase = WaitingForHeader | ReadingIndex | ReadingAngle | ReadingChecksum

  /** The decoder's `currentState` and the first three cells of `packet_buffer`. */
  datatype Decoder = Decoder(phase: Phase, header: Byte, index: Byte, angle: Byte)

  /** What a byte completes: nothing yet, or one of the three verdicts on a full packet. */
  datatype Verdict = Pending | Accepted(index: Byte, angle: Byte) | InvalidRange | ChecksumMismatch

  /** A servo table with one entry per servo. */
  type Servos = c: SC.Controller | SC.Valid(c) witness SC.Controller([90, 90, 90, 90, 90, 90])

  /** The whole firmware: decoder plus servo controller. */
  datatype Firmware = Firmware(decoder: Decoder, servos: Servos)

  /** Everything the firmware emits: serial reply lines and PWM driver writes. */
  datatype Effects = Effects(replies: seq<string>, writes: seq<SC.PwmWrite>) {
    /** These effects followed by `next`. */
    function Then(next: Effects): Effects {
      Effects(replies + next.replies, writes + next.writes)
    }
  }

  /** `(b0 + b1 + b2) & 0xFF`, the checksum both ends compute. */
  function PacketChecksum(b0: int, b1: int, b2: int): Byte {
    (b0 + b1 + b2) % 256
  }

  /** The decision on a completed packet, stated from the four bytes alone. */
  function Judge(b0: Byte, b1: Byte, b2: Byte, b3: Byte): (v: Verdict)
    ensures v != Pending
    ensures v.Accepted? <==> PacketChecksum(b0, b1, b2) == b3 && b1 < SC.SERVO_COUNT && b2 <= 180
    ensures v.Accepted? ==> v.index == b1 && v.angle == b2
    ensures v == ChecksumMismatch <==> PacketChecksum(b0, b1, b2) != b3
  {
    if PacketChecksum(b0, b1, b2) == b3 then
      if b1 < SC.SERVO_COUNT && b2 <= 180 then Accepted(b1, b2) else InvalidRange
    else ChecksumMismatch
  }

  /** `processRobotArmByte` on the decoder alone. */
  function Step(d: Decoder, b: Byte): (r: (Decoder, Verdict))
    ensures d.phase == WaitingForHeader && b != PACKET_HEADER ==> r == (d, Pending)
    ensures d.phase == WaitingForHeader && b == PACKET_HEADER ==> r == (d.(phase := ReadingIndex, header := b), Pending)
    ensures d.phase == ReadingIndex ==> r == (d.(phase := ReadingAngle, index := b), Pending)
    ensures d.phase == ReadingAngle ==> r == (d.(phase := ReadingChecksum, angle := b), Pending)
    ensures d.phase == ReadingChecksum ==> r.0.phase == WaitingForHeader && r.1 == Judge(d.header, d.index, d.angle, b)
    ensures r.1 != Pending <==> d.phase == ReadingChecksum
  {
    match d.phase
    case WaitingForHeader =>
      if b == PACKET_HEADER then (d.(phase := ReadingIndex, header := b), Pending) else (d, Pending)
    case ReadingIndex => (d.(phase := ReadingAngle, index := b), Pending)
    case ReadingAngle => (d.(phase := ReadingChecksum, angle := b), Pending)
    case ReadingChecksum => (d.(phase := WaitingForHeader), Judge(d.header, d.index, d.angle, b))
  }

  /** The reply line printed for a verdict; a pending byte prints nothing. */
  function Reply(v: Verdict): (lines: seq<string>)
    ensures v == Pending <==> lines == []
    ensures v.Accepted? <==> lines == [REPLY_OK]
    ensures v == InvalidRange <==> lines == [REPLY_RANGE]
    ensures v == ChecksumMismatch <==> lines == [REPLY_CHECKSUM]
  {
    match v
    case Pending => []
    case Accepted(_, _) => [REPLY_OK]
    case InvalidRange => [REPLY_RANGE]
    case ChecksumMismatch => [REPLY_CHECKSUM]
  }

  /** `processRobotArmByte` on the whole firmware: decode, then drive a servo on an accepted packet. */
  function ProcessByte(f: Firmware, b: Byte): (r: (Firmware, Effects))
    ensures r.0.decoder == Step(f.decoder, b).0
    ensures r.1.replies == Reply(Step(f.decoder, b).1)
    ensures !Step(f.decoder, b).1.Accepted? ==> r.0.servos == f.servos && r.1.writes == []
  {
    var (d', v) := Step(f.decoder, b);
    match v
    case Accepted(i, a) =>
      var (s', w) := SC.SetAngle(f.servos, i, a);
      (Firmware(d', s'), Effects(Reply(v), if w.Some? then [w.value] else []))
    case _ => (Firmware(d', f.servos), Effects(Reply(v), []))
  }

  /** Runs a byte-at-a-time `step` over a stream, concatenating what each byte emits. */
  function Fold<S>(step: (S, Byte) -> (S, Effects), s: S, bytes: seq<Byte>): (S, Effects)
    decreases |bytes|
  {
    if |bytes| == 0 then (s, Effects([], []))
    else
      var first := step(s, bytes[0]);
      var rest := Fold(step, first.0, bytes[1..]);
      (rest.0, first.1.Then(rest.1))
  }

  /** The firmware's main loop over a stream of received bytes. */
  function Feed(f: Firmware, bytes: seq<Byte>): (Firmware, Effects) {
    Fold(ProcessByte, f, bytes)
  }

  /** `robotArmInit`: controller `init`, then `setAngle(i, INIT_ANGLES[i])` for every servo, then a fresh decoder. */
  function ArmInit(d: Decoder): (r: (Firmware, Effects))
    ensures r.0.decoder.phase == WaitingForHeader
    ensures forall i :: 0 <= i < SC.SERVO_COUNT ==> r.0.servos.current[i] == INIT_ANGLES[i]
    ensures |r.1.writes| == SC.SERVO_COUNT && r.1.replies == []
    ensures forall i :: 0 <= i < SC.SERVO_COUNT ==>
      r.1.writes[i] == SC.PwmWrite(i, 0, SC.AngleToPulse(SC.SafeAngle(i, INIT_ANGLES[i])))
  {
    var (s, w) := InitFrom(SC.Init(), 0);
    (Firmware(d.(phase := WaitingForHeader), s), Effects([], w))
  }

  /** The loop of `robotArmInit` from servo `i` on. */
  function InitFrom(c: SC.Controller, i: nat): (r: (SC.Controller, seq<SC.PwmWrite>))
    requires SC.Valid(c) && i <= SC.SERVO_COUNT
    ensures SC.Valid(r.0)
    ensures forall k :: 0 <= k < i ==> r.0.current[k] == c.current[k]
    ensures forall k :: i <= k < SC.SERVO_COUNT ==> r.0.current[k] == INIT_ANGLES[k]
    ensures |r.1| == SC.SERVO_COUNT - i
    ensures forall k :: 0 <= k < |r.1| ==>
      r.1[k] == SC.PwmWrite(i + k, 0, SC.AngleToPulse(SC.SafeAngle(i + k, INIT_ANGLES[i + k])))
    decreases SC.SERVO_COUNT - i
  {
    if i == SC.SERVO_COUNT then (c, [])
    else
      var (c1, w) := SC.SetAngle(c, i, INIT_ANGLES[i]);
      var (c2, ws) := InitFrom(c1, i + 1);
      assert forall k :: 1 <= k < |ws| + 1 ==> ([w.value] + ws)[k] == ws[k - 1];
      (c2, [w.value] + ws)
  }
}

/** Stream-level facts about the firmware decoder. */
module RobotArmStreams {
  import opened Num
  import opened RobotArm
  import SC = ServoController

  predicate Waiting(f: Firmware) {
    f.decoder.phase == WaitingForHeader
  }

  /** Folding over a concatenation is folding over the parts in turn. */
  lemma {:induction false} FoldAppend<S>(step: (S, Byte) -> (S, Effects), s: S, a: seq<Byte>, b: seq<Byte>)
    ensures Fold(step, s, a + b).0 == Fold(step, Fold(step, s, a).0, b).0
    ensures Fold(step, s, a + b).1 == Fold(step, s, a).1.Then(Fold(step, Fold(step, s, a).0, b).1)
    decreases |a|
  {
    if |a| == 0 {
      assert a + b == b;
      assert Fold(step, s, a).1.Then(Fold(step, s, b).1) == Fold(step, s, b).1;
    } else {
      var first := step(s, a[0]);
      assert (a + b)[0] == a[0];
      assert (a + b)[1..] == a[1..] + b;
      FoldAppend(step, first.0, a[1..], b);
      var mid := Fold(step, first.0, a[1..]);
      var last := Fold(step, mid.0, b);
      assert first.1.Then(mid.1.Then(last.1)) == first.1.Then(mid.1).Then(last.1);
    }
  }

  /** While waiting for a header, bytes other than 0xFF are ignored: nothing changes and nothing is emitted. */
  lemma {:induction false} NoiseIsIgnored(f: Firmware, noise: seq<Byte>)
    requires Waiting(f)
    requires forall i :: 0 <= i < |noise| ==> noise[i] != PACKET_HEADER
    ensures Feed(f, noise) == (f, Effects([], []))
    decreases |noise|
  {
    if |noise| > 0 {
      assert ProcessByte(f, noise[0]) == (f, Effects([], []));
      NoiseIsIgnored(f, noise[1..]);
      assert Effects([], []).Then(Effects([], [])) == Effects([], []);
    }
  }

  /** Resynchronisation: leading noise before a packet does not change what the packet does. */
  lemma ResyncAfterNoise(f: Firmware, noise: seq<Byte>, packet: seq<Byte>)
    requires Waiting(f)
    requires forall i :: 0 <= i < |noise| ==> noise[i] != PACKET_HEADER
    ensures Feed(f, noise + packet) == Feed(f, packet)
  {
    FoldAppend(ProcessByte, f, noise, packet);
    NoiseIsIgnored(f, noise);
    assert Effects([], []).Then(Feed(f, packet).1) == Feed(f, packet).1;
  }

  /** Feeding four bytes is four steps of `ProcessByte`. */
  lemma FeedFour(f: Firmware, b0: Byte, b1: Byte, b2: Byte, b3: Byte)
    ensures var r0 := ProcessByte(f, b0);
      var r1 := ProcessByte(r0.0, b1);
      var r2 := ProcessByte(r1.0, b2);
      var r3 := ProcessByte(r2.0, b3);
      Feed(f, [b0, b1, b2, b3]) == (r3.0, r0.1.Then(r1.1.Then(r2.1.Then(r3.1))))
  {
    var p := [b0, b1, b2, b3];
    var r0 := ProcessByte(f, b0);
    var r1 := ProcessByte(r0.0, b1);
    var r2 := ProcessByte(r1.0, b2);
    var r3 := ProcessByte(r2.0, b3);
    assert p[1..] == [b1, b2, b3];
    assert [b1, b2, b3][1..] == [b2, b3];
    assert [b2, b3][1..] == [b3];
    assert [b3][1..] == [];
    assert r3.1.Then(Effects([], [])) == r3.1;
    assert Fold(ProcessByte, r3.0, []) == (r3.0, Effects([], []));
    assert Fold(ProcessByte, r2.0, [b3]) == (r3.0, r3.1.Then(Effects([], [])));
    assert Feed(r1.0, [b2, b3]) == (r3.0, r2.1.Then(r3.1));
    assert Feed(r0.0, [b1, b2, b3]) == (r3.0, r1.1.Then(r2.1.Then(r3.1)));
  }

  /**
   * A packet that starts with the header is always consumed whole: after its
   * fourth byte the decoder waits for a header again, exactly one reply line
   * is printed, and a servo moves only when that reply is "OK".
   */
  lemma OnePacketOneReply(f: Firmware, b1: Byte, b2: Byte, b3: Byte)
    requires Waiting(f)
    ensures var (f', e) := Feed(f, [PACKET_HEADER, b1, b2, b3]);
      && Waiting(f')
      && e.replies == Reply(Judge(PACKET_HEADER, b1, b2, b3))
      && |e.replies| == 1
      && (e.replies[0] == REPLY_OK <==> PacketChecksum(PACKET_HEADER, b1, b2) == b3 && b1 < SC.SERVO_COUNT && b2 <= 180)
      && (e.replies[0] == REPLY_CHECKSUM <==> PacketChecksum(PACKET_HEADER, b1, b2) != b3)
      && (e.replies[0] != REPLY_OK ==> f'.servos == f.servos && e.writes == [])
      && (e.replies[0] == REPLY_OK ==>
            f'.servos == SC.SetAngle(f.servos, b1, b2).0 && e.writes == [SC.SetAngle(f.servos, b1, b2).1.value])
  {
    FeedFour(f, PACKET_HEADER, b1, b2, b3);
    var r0 := ProcessByte(f, PACKET_HEADER);
    var r1 := ProcessByte(r0.0, b1);
    var r2 := ProcessByte(r1.0, b2);
    assert r2.0.decoder == Decoder(ReadingChecksum, PACKET_HEADER, b1, b2);
    assert r2.0.servos == f.servos;
    assert r0.1 == Effects([], []) && r1.1 == Effects([], []) && r2.1 == Effects([], []);
  }

  /** There is no resynchronisation mid-packet: a 0xFF after the header is taken as the index. */
  lemma HeaderByteInsidePacketIsData(f: Firmware)
    requires f.decoder.phase == ReadingIndex
    ensures ProcessByte(f, PACKET_HEADER).0.decoder.phase == ReadingAngle
    ensures ProcessByte(f, PACKET_HEADER).0.decoder.index == PACKET_HEADER
    ensures ProcessByte(f, PACKET_HEADER).1 == Effects([], [])
  {
  }
}
