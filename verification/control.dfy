/**
 * `RealTimeControlProcess`: the per-iteration task state machine of the
 * real-time loop. Each tick polls at most one queued task, then runs the
 * routine of the current command and emits the servo sends it makes, in
 * order. Camera, detector and IR readings arrive as a `Percept` per tick;
 * the numeric library and the grab threshold are part of the `Env`.
 */
module Control {
  import opened Num
  import opened Wrappers
  import opened ArmConfig
  import K = Kinematics
  import P = Perception
  import T = Transform
  import PiLink

  const PICKUP: string := "PICKUP"
  const SEARCH: string := "SEARCH"
  const GRAB: string := "GRAB"
  const LIFT: string := "LIFT"
  const IDLE_HOLDING: string := "IDLE_HOLDING"
  const PLACE: string := "PLACE"
  const STOP: string := "STOP"
  const IDLE: string := "IDLE"

  /** A task dictionary: its `"command"` and its optional `"target"` string. */
  datatype Task = Task(command: string, target: Option<string>)

  /** `current_task`, `search_angle` and `search_direction`. */
  datatype Ctl = Ctl(task: Task, searchAngle: real, searchDir: real)

  /** One `arduino.send_command(joint, angle)`. */
  datatype Send = Send(joint: int, angle: int)

  /** What the sensors report in one iteration: `ret`, the detector output and the IR range in cm. */
  datatype Percept = Percept(frameOk: bool, detections: P.Detections, irCm: real)

  /**
   * The parts of the process fixed at start-up: the numeric library of the
   * solver, `GRAB_DISTANCE_THRESHOLD_CM` and the pixel-to-arm transform.
   */
  datatype Env = Env(math: K.MathLib, grabThresholdCm: real, toArm: (int, int, real) -> Call<T.Point3>)

  /** The result of one routine: new state, the sends in order, and whether an exception escaped. */
  datatype Outcome = Outcome(ctl: Ctl, sends: seq<Send>, crashed: bool)

  datatype TickResult = TickResult(ctl: Ctl, queue: seq<Task>, sends: seq<Send>, crashed: bool)

  /** The environment whose transform is the intended pinhole back-projection. */
  function Corrected(math: K.MathLib, grabThresholdCm: real): (e: Env)
    ensures forall px, py, d :: e.toArm(px, py, d) == Returned(T.PixelToArm(px, py, d))
  {
    Env(math, grabThresholdCm, (px, py, d) => Returned(T.PixelToArm(px, py, d)))
  }

  /** A send the Pi encoder accepts and the firmware applies: a channel in 0..5 and an angle in 0..180. */
  predicate ValidSend(s: Send) {
    0 <= s.joint < SERVO_COUNT && 0 <= s.angle <= 180
  }

  predicate ValidSends(ss: seq<Send>) {
    forall i :: 0 <= i < |ss| ==> ValidSend(ss[i])
  }

  /** The sweep invariant: the angle inside the search range and the direction one step either way. */
  predicate SweepOk(c: Ctl) {
    && SEARCH_RANGE_MIN <= c.searchAngle <= SEARCH_RANGE_MAX
    && (c.searchDir == SEARCH_STEP_PER_LOOP || c.searchDir == -SEARCH_STEP_PER_LOOP)
  }

  /** `if not target_name`: `None` and the empty string are falsy. */
  predicate HasTarget(t: Task) {
    t.target.Some? && t.target.value != ""
  }

  /** The state after `__init__`. */
  function Initial(): (c: Ctl)
    ensures c.task.command == STOP && c.task.target.None?
    ensures SweepOk(c) && c.searchDir > 0.0
    ensures c.searchAngle == HOME_POSITION_ANGLES[SERVO_ID_BASE] as real
  {
    Ctl(Task(STOP, None), HOME_POSITION_ANGLES[SERVO_ID_BASE] as real, SEARCH_STEP_PER_LOOP)
  }

  /**
   * `check_for_new_task` with `get_nowait`: at most one message is consumed.
   * While holding an object only PLACE is adopted, and the sweep angle is
   * kept; otherwise the message becomes the current task and the sweep angle returns
   * to the home base angle. The sweep direction is never reset.
   */
  function Poll(c: Ctl, queue: seq<Task>): (r: (Ctl, seq<Task>))
    ensures queue == [] ==> r.0 == c && r.1 == []
    ensures queue != [] ==> r.1 == queue[1..]
    ensures r.0.searchDir == c.searchDir
    ensures r.0.task == c.task || (queue != [] && r.0.task == queue[0])
    ensures SweepOk(c) ==> SweepOk(r.0)
  {
    if queue == [] then (c, queue)
    else if c.task.command == IDLE_HOLDING then
      if queue[0].command == PLACE then (c.(task := queue[0]), queue[1..]) else (c, queue[1..])
    else
      (Ctl(queue[0], HOME_POSITION_ANGLES[SERVO_ID_BASE] as real, c.searchDir), queue[1..])
  }

  /** Step 1 of `_execute_search_routine`: advance the base angle and bounce off the range ends. */
  function Sweep(c: Ctl): (r: Ctl)
    ensures SEARCH_RANGE_MIN <= r.searchAngle <= SEARCH_RANGE_MAX
    ensures r.task == c.task
    ensures c.searchAngle + c.searchDir >= SEARCH_RANGE_MAX ==> r.searchDir < 0.0
    ensures c.searchAngle + c.searchDir <= SEARCH_RANGE_MIN ==> r.searchDir > 0.0
    ensures SEARCH_RANGE_MIN < c.searchAngle + c.searchDir < SEARCH_RANGE_MAX ==>
      r.searchAngle == c.searchAngle + c.searchDir && r.searchDir == c.searchDir
    ensures SweepOk(c) ==> SweepOk(r)
  {
    var a := c.searchAngle + c.searchDir;
    if a >= SEARCH_RANGE_MAX then c.(searchAngle := SEARCH_RANGE_MAX, searchDir := -SEARCH_STEP_PER_LOOP)
    else if a <= SEARCH_RANGE_MIN then c.(searchAngle := SEARCH_RANGE_MIN, searchDir := SEARCH_STEP_PER_LOOP)
    else c.(searchAngle := a)
  }

  /** Step 2 of `_execute_search_routine`: the search pose on joints 0-4, then `int(search_angle)` on the base. */
  function SearchSends(c: Ctl): (ss: seq<Send>)
    requires SEARCH_RANGE_MIN <= c.searchAngle <= SEARCH_RANGE_MAX
    ensures |ss| == 6 && ValidSends(ss)
    ensures forall i :: 0 <= i < 5 ==> ss[i].joint != SERVO_ID_BASE && ss[i].angle == SEARCH_POSE_ANGLES[ss[i].joint]
    ensures [ss[0].joint, ss[1].joint, ss[2].joint, ss[3].joint, ss[4].joint] ==
      [SERVO_ID_GRIPPER, SERVO_ID_SHOULDER, SERVO_ID_ELBOW, SERVO_ID_WRIST, SERVO_ID_WRIST_ROTATE]
    ensures forall i, j :: 0 <= i < j < |ss| ==> ss[i].joint != ss[j].joint
    ensures ss[5].joint == SERVO_ID_BASE && ss[5].angle as real <= c.searchAngle < ss[5].angle as real + 1.0
  {
    [ Send(SERVO_ID_GRIPPER, SEARCH_POSE_ANGLES[SERVO_ID_GRIPPER]),
      Send(SERVO_ID_SHOULDER, SEARCH_POSE_ANGLES[SERVO_ID_SHOULDER]),
      Send(SERVO_ID_ELBOW, SEARCH_POSE_ANGLES[SERVO_ID_ELBOW]),
      Send(SERVO_ID_WRIST, SEARCH_POSE_ANGLES[SERVO_ID_WRIST]),
      Send(SERVO_ID_WRIST_ROTATE, SEARCH_POSE_ANGLES[SERVO_ID_WRIST_ROTATE]),
      Send(SERVO_ID_BASE, Trunc(c.searchAngle)) ]
  }

  /** `_execute_stop_routine`'s loop: `HOME_POSITION_ANGLES[i]` to channel `i`, for i = 0..5. */
  function HomeSends(): (ss: seq<Send>)
    ensures |ss| == SERVO_COUNT && ValidSends(ss)
    ensures forall i :: 0 <= i < |ss| ==> ss[i] == Send(i, HOME_POSITION_ANGLES[i])
  {
    HomeSendsFrom(0)
  }

  function HomeSendsFrom(i: nat): (ss: seq<Send>)
    requires i <= SERVO_COUNT
    ensures |ss| == SERVO_COUNT - i
    ensures forall k :: 0 <= k < |ss| ==> ss[k] == Send(i + k, HOME_POSITION_ANGLES[i + k])
    decreases SERVO_COUNT - i
  {
    if i == SERVO_COUNT then [] else [Send(i, HOME_POSITION_ANGLES[i])] + HomeSendsFrom(i + 1)
  }

  /** The PICKUP sends after a solved target: the three solved joints, then wrist level, wrist rotation home, gripper open. */
  function ApproachSends(a: K.JointAngles): (ss: seq<Send>)
    requires 0 <= a.base <= 180 && 0 <= a.shoulder <= 180 && 0 <= a.elbow <= 180
    ensures |ss| == 6 && ValidSends(ss)
    ensures ss[..3] == [Send(SERVO_ID_BASE, a.base), Send(SERVO_ID_SHOULDER, a.shoulder), Send(SERVO_ID_ELBOW, a.elbow)]
    ensures ss[3..] == [Send(SERVO_ID_WRIST, 90), Send(SERVO_ID_WRIST_ROTATE, 90), Send(SERVO_ID_GRIPPER, GRIPPER_OPEN_ANGLE)]
    ensures forall i, j :: 0 <= i < j < |ss| ==> ss[i].joint != ss[j].joint
  {
    [ Send(SERVO_ID_BASE, a.base),
      Send(SERVO_ID_SHOULDER, a.shoulder),
      Send(SERVO_ID_ELBOW, a.elbow),
      Send(SERVO_ID_WRIST, SEARCH_POSE_ANGLES[SERVO_ID_WRIST]),
      Send(SERVO_ID_WRIST_ROTATE, HOME_POSITION_ANGLES[SERVO_ID_WRIST_ROTATE]),
      Send(SERVO_ID_GRIPPER, GRIPPER_OPEN_ANGLE) ]
  }

  /**
   * The PICKUP branch of `run`. A frame or range fault skips the iteration;
   * a lost target switches to SEARCH; a solved target drives the arm and,
   * once the range is within the grab threshold, switches to GRAB. An
   * exception from the transform escapes the loop.
   */
  function Pickup(env: Env, c: Ctl, p: Percept): (o: Outcome)
    requires c.task.command == PICKUP
    ensures ValidSends(o.sends)
    ensures o.ctl.searchAngle == c.searchAngle && o.ctl.searchDir == c.searchDir
    ensures !HasTarget(c.task) ==> o == Outcome(c.(task := Task(STOP, None)), [], false)
    ensures HasTarget(c.task) && (!p.frameOk || p.irCm < 0.0) ==> o == Outcome(c, [], false)
    ensures o.ctl.task != c.task ==> o.ctl.task.command in {STOP, SEARCH, GRAB}
    ensures o.ctl.task.command in {SEARCH, GRAB} ==> o.ctl.task.target == c.task.target
    ensures o.ctl.task.command == GRAB ==> p.irCm <= env.grabThresholdCm && |o.sends| == 6
    ensures o.crashed ==> o == Outcome(c, [], true)
    ensures o.sends != [] ==> |o.sends| == 6 && o.sends[5] == Send(SERVO_ID_GRIPPER, GRIPPER_OPEN_ANGLE)
  {
    if !HasTarget(c.task) then Outcome(c.(task := Task(STOP, None)), [], false)
    else if !p.frameOk || p.irCm < 0.0 then Outcome(c, [], false)
    else
      match P.FindTarget(p.detections, c.task.target)
      case Raised(_) => Outcome(c, [], true)
      case Returned(None) => Outcome(c.(task := Task(SEARCH, c.task.target)), [], false)
      case Returned(Some(px)) =>
        match env.toArm(px.x, px.y, p.irCm)
        case Raised(_) => Outcome(c, [], true)
        case Returned(pt) =>
          match K.CalculateIk(SOLVER, env.math, pt.x, pt.y, pt.z)
          case None => Outcome(c, [], false)
          case Some(a) =>
            var next := if p.irCm <= env.grabThresholdCm then c.(task := Task(GRAB, c.task.target)) else c;
            Outcome(next, ApproachSends(a), false)
  }

  /**
   * The SEARCH branch: one sweep step and the search pose every iteration,
   * then a fresh look for the target, switching to PICKUP when it is seen.
   */
  function Search(c: Ctl, p: Percept): (o: Outcome)
    requires c.task.command == SEARCH
    ensures ValidSends(o.sends) && |o.sends| == 6
    ensures o.sends == SearchSends(Sweep(c))
    ensures o.ctl == Sweep(c) || o.ctl == Sweep(c).(task := Task(PICKUP, c.task.target))
    ensures o.ctl.task.command == PICKUP ==> p.frameOk && c.task.target.Some?
    ensures var f := P.FindTarget(p.detections, c.task.target);
      o.ctl.task.command == PICKUP <==> p.frameOk && f.Returned? && f.value.Some?
    ensures o.crashed <==> p.frameOk && c.task.target.None? && p.detections.names != []
  {
    var c1 := Sweep(c);
    var sends := SearchSends(c1);
    if !p.frameOk then Outcome(c1, sends, false)
    else
      match P.FindTarget(p.detections, c.task.target)
      case Raised(_) => Outcome(c1, sends, true)
      case Returned(None) => Outcome(c1, sends, false)
      case Returned(Some(_)) => Outcome(c1.(task := Task(PICKUP, c.task.target)), sends, false)
  }

  /** The GRAB branch: close the gripper, then LIFT. */
  function Grab(c: Ctl): (o: Outcome)
    ensures o.ctl.task == Task(LIFT, None) && !o.crashed
    ensures o.sends == [Send(SERVO_ID_GRIPPER, GRIPPER_CLOSED_ANGLE)] && ValidSends(o.sends)
  {
    Outcome(c.(task := Task(LIFT, None)), [Send(SERVO_ID_GRIPPER, GRIPPER_CLOSED_ANGLE)], false)
  }

  /** The LIFT branch: shoulder, elbow and wrist to their home angles, base and gripper untouched; then hold. */
  function Lift(c: Ctl): (o: Outcome)
    ensures o.ctl.task == Task(IDLE_HOLDING, None) && !o.crashed
    ensures |o.sends| == 3 && ValidSends(o.sends)
    ensures [o.sends[0].joint, o.sends[1].joint, o.sends[2].joint] == [SERVO_ID_SHOULDER, SERVO_ID_ELBOW, SERVO_ID_WRIST]
    ensures forall i :: 0 <= i < 3 ==>
      o.sends[i].joint !in {SERVO_ID_BASE, SERVO_ID_GRIPPER} && o.sends[i].angle == HOME_POSITION_ANGLES[o.sends[i].joint]
  {
    Outcome(c.(task := Task(IDLE_HOLDING, None)), [
      Send(SERVO_ID_SHOULDER, HOME_POSITION_ANGLES[SERVO_ID_SHOULDER]),
      Send(SERVO_ID_ELBOW, HOME_POSITION_ANGLES[SERVO_ID_ELBOW]),
      Send(SERVO_ID_WRIST, HOME_POSITION_ANGLES[SERVO_ID_WRIST])], false)
  }

  /** `_execute_place_routine`: move to the place target holding the object, open the gripper; STOP either way. */
  function Place(env: Env, c: Ctl): (o: Outcome)
    ensures o.ctl == c.(task := Task(STOP, None)) && !o.crashed
    ensures ValidSends(o.sends)
    ensures o.sends == [] || (|o.sends| == 6 && o.sends[5] == Send(SERVO_ID_GRIPPER, GRIPPER_OPEN_ANGLE))
    ensures o.sends == [] <==> K.CalculateIk(SOLVER, env.math, PLACE_X, PLACE_Y, PLACE_Z).None?
    ensures o.sends != [] ==>
      var a := K.CalculateIk(SOLVER, env.math, PLACE_X, PLACE_Y, PLACE_Z).value;
      && o.sends[..3] == [Send(SERVO_ID_BASE, a.base), Send(SERVO_ID_SHOULDER, a.shoulder), Send(SERVO_ID_ELBOW, a.elbow)]
      && o.sends[3] == Send(SERVO_ID_WRIST, HOME_POSITION_ANGLES[SERVO_ID_WRIST])
      && o.sends[4] == Send(SERVO_ID_GRIPPER, GRIPPER_CLOSED_ANGLE)
  {
    match K.CalculateIk(SOLVER, env.math, PLACE_X, PLACE_Y, PLACE_Z)
    case None => Outcome(c.(task := Task(STOP, None)), [], false)
    case Some(a) =>
      Outcome(c.(task := Task(STOP, None)), [
        Send(SERVO_ID_BASE, a.base),
        Send(SERVO_ID_SHOULDER, a.shoulder),
        Send(SERVO_ID_ELBOW, a.elbow),
        Send(SERVO_ID_WRIST, HOME_POSITION_ANGLES[SERVO_ID_WRIST]),
        Send(SERVO_ID_GRIPPER, GRIPPER_CLOSED_ANGLE),
        Send(SERVO_ID_GRIPPER, GRIPPER_OPEN_ANGLE)], false)
  }

  /** `_execute_stop_routine`: the home pose, then IDLE. */
  function Stop(c: Ctl): (o: Outcome)
    ensures o.ctl == c.(task := Task(IDLE, None)) && !o.crashed
    ensures o.sends == HomeSends()
  {
    Outcome(c.(task := Task(IDLE, None)), HomeSends(), false)
  }

  /** The command dispatch of `run`; IDLE, IDLE_HOLDING and unknown commands do nothing. */
  function Execute(env: Env, c: Ctl, p: Percept): (o: Outcome)
    ensures ValidSends(o.sends)
    ensures SweepOk(c) ==> SweepOk(o.ctl)
    ensures o.crashed ==> c.task.command in {PICKUP, SEARCH}
    ensures c.task.command !in {PICKUP, SEARCH, GRAB, LIFT, PLACE, STOP} ==> o == Outcome(c, [], false)
  {
    var cmd := c.task.command;
    if cmd == PICKUP then Pickup(env, c, p)
    else if cmd == SEARCH then Search(c, p)
    else if cmd == GRAB then Grab(c)
    else if cmd == LIFT then Lift(c)
    else if cmd == PLACE then Place(env, c)
    else if cmd == STOP then Stop(c)
    else Outcome(c, [], false)
  }

  /** One loop iteration: poll, then execute the (possibly new) task. */
  function Tick(env: Env, c: Ctl, queue: seq<Task>, p: Percept): (r: TickResult)
    ensures ValidSends(r.sends)
    ensures SweepOk(c) ==> SweepOk(r.ctl)
    ensures queue != [] ==> r.queue == queue[1..]
    ensures queue == [] ==> r.queue == []
  {
    var (c1, q1) := Poll(c, queue);
    var o := Execute(env, c1, p);
    TickResult(o.ctl, q1, o.sends, o.crashed)
  }

  datatype RunResult = RunResult(ctl: Ctl, queue: seq<Task>, sends: seq<Send>, crashed: bool)

  /**
   * The loop over a finite prefix of iterations, one percept each. An
   * exception ends the loop; the `finally` block then runs the stop routine,
   * whose home sends close the log.
   */
  function Run(env: Env, c: Ctl, queue: seq<Task>, ps: seq<Percept>): (r: RunResult)
    ensures ValidSends(r.sends)
    decreases |ps|
  {
    if ps == [] then RunResult(c, queue, [], false)
    else
      var t := Tick(env, c, queue, ps[0]);
      if t.crashed then
        var s := Stop(t.ctl);
        ValidSendsAppend(t.sends, s.sends);
        RunResult(s.ctl, t.queue, t.sends + s.sends, true)
      else
        var rest := Run(env, t.ctl, t.queue, ps[1..]);
        ValidSendsAppend(t.sends, rest.sends);
        RunResult(rest.ctl, rest.queue, t.sends + rest.sends, rest.crashed)
  }

  /** An exception always ends the run through the stop routine: the current task is IDLE and the last six sends are the home pose. */
  lemma {:induction false} CrashEndsAtHome(env: Env, c: Ctl, queue: seq<Task>, ps: seq<Percept>)
    ensures var r := Run(env, c, queue, ps);
      r.crashed ==>
        r.ctl.task == Task(IDLE, None) && |r.sends| >= SERVO_COUNT && r.sends[|r.sends| - SERVO_COUNT..] == HomeSends()
    decreases |ps|
  {
    if ps != [] {
      var t := Tick(env, c, queue, ps[0]);
      var r := Run(env, c, queue, ps);
      if t.crashed {
        var s := Stop(t.ctl);
        assert r.sends == t.sends + s.sends;
        assert r.sends[|r.sends| - SERVO_COUNT..] == s.sends;
      } else {
        var rest := Run(env, t.ctl, t.queue, ps[1..]);
        CrashEndsAtHome(env, t.ctl, t.queue, ps[1..]);
        assert r.sends == t.sends + rest.sends;
        if rest.crashed {
          assert r.sends[|r.sends| - SERVO_COUNT..] == rest.sends[|rest.sends| - SERVO_COUNT..];
        }
      }
    }
  }

  /** The sweep invariant holds at the end of every run that starts inside it. */
  lemma {:induction false} RunKeepsSweep(env: Env, c: Ctl, queue: seq<Task>, ps: seq<Percept>)
    requires SweepOk(c)
    ensures SweepOk(Run(env, c, queue, ps).ctl)
    decreases |ps|
  {
    if ps != [] {
      var t := Tick(env, c, queue, ps[0]);
      if !t.crashed {
        RunKeepsSweep(env, t.ctl, t.queue, ps[1..]);
      }
    }
  }

  /** Messages are consumed in order from the front, one per iteration, never reordered or invented. */
  lemma {:induction false} RunConsumesQueue(env: Env, c: Ctl, queue: seq<Task>, ps: seq<Percept>)
    ensures var r := Run(env, c, queue, ps);
      |r.queue| <= |queue| && r.queue == queue[|queue| - |r.queue|..]
    decreases |ps|
  {
    if ps != [] {
      var t := Tick(env, c, queue, ps[0]);
      if !t.crashed {
        RunConsumesQueue(env, t.ctl, t.queue, ps[1..]);
        if queue != [] {
          assert queue[1..][|queue[1..]| - |Run(env, t.ctl, t.queue, ps[1..]).queue|..] ==
            queue[|queue| - |Run(env, t.ctl, t.queue, ps[1..]).queue|..];
        }
      }
    }
  }

  lemma ValidSendsAppend(a: seq<Send>, b: seq<Send>)
    requires ValidSends(a) && ValidSends(b)
    ensures ValidSends(a + b)
  {
    assert forall i :: 0 <= i < |a + b| ==> (a + b)[i] == if i < |a| then a[i] else b[i - |a|];
  }

  // ---------------------------------------------------------------------
  // Properties of the controller
  // ---------------------------------------------------------------------

  /** Every send the controller makes passes `send_command`'s validation and goes out as a checksummed packet. */
  lemma SendAccepted(s: Send)
    requires ValidSend(s)
    ensures PiLink.SendCommand(true, s.joint as real, s.angle as real, true) ==
      PiLink.SendResult([0xFF, s.joint, s.angle, (0xFF + s.joint + s.angle) % 256], true)
  {
    PiLink.SendValidPacket(s.joint, s.angle);
  }

  /** A STOP message preempts any task except a held object: one tick drives home and goes IDLE. */
  lemma StopPreempts(env: Env, c: Ctl, m: Task, rest: seq<Task>, p: Percept)
    requires c.task.command != IDLE_HOLDING && m.command == STOP
    ensures Tick(env, c, [m] + rest, p) ==
      TickResult(Ctl(Task(IDLE, None), HOME_POSITION_ANGLES[SERVO_ID_BASE] as real, c.searchDir), rest, HomeSends(), false)
  {
    assert ([m] + rest)[1..] == rest;
  }

  /** While holding, a message other than PLACE is consumed and nothing else happens. */
  lemma HoldingIgnores(env: Env, c: Ctl, m: Task, rest: seq<Task>, p: Percept)
    requires c.task.command == IDLE_HOLDING && m.command != PLACE
    ensures Tick(env, c, [m] + rest, p) == TickResult(c, rest, [], false)
  {
    assert ([m] + rest)[1..] == rest;
  }

  /** While holding, PLACE is adopted without resetting the sweep, and with a lawful library the object is set down. */
  lemma HoldingAcceptsPlace(env: Env, c: Ctl, m: Task, rest: seq<Task>, p: Percept)
    requires c.task.command == IDLE_HOLDING && m.command == PLACE && K.Lawful(env.math)
    ensures var r := Tick(env, c, [m] + rest, p);
      && r.ctl == c.(task := Task(STOP, None))
      && r.queue == rest
      && |r.sends| == 6 && r.sends[5] == Send(SERVO_ID_GRIPPER, GRIPPER_OPEN_ANGLE)
      && match K.CalculateIk(SOLVER, env.math, PLACE_X, PLACE_Y, PLACE_Z)
         case None => false
         case Some(a) =>
           && r.sends[..3] == [Send(SERVO_ID_BASE, a.base), Send(SERVO_ID_SHOULDER, a.shoulder), Send(SERVO_ID_ELBOW, a.elbow)]
           && r.sends[3] == Send(SERVO_ID_WRIST, HOME_POSITION_ANGLES[SERVO_ID_WRIST])
           && r.sends[4] == Send(SERVO_ID_GRIPPER, GRIPPER_CLOSED_ANGLE)
  {
    assert ([m] + rest)[1..] == rest;
    PlaceReachable(env.math);
  }

  /** The place target lies inside the reachable shell, so a lawful solver always finds it. */
  lemma PlaceReachable(m: K.MathLib)
    requires K.Lawful(m)
    ensures K.CalculateIk(SOLVER, m, PLACE_X, PLACE_Y, PLACE_Z).Some?
  {
    K.IkSucceedsIffReachable(SOLVER, m, PLACE_X, PLACE_Y, PLACE_Z);
    assert K.DistanceSq(SOLVER, PLACE_X, PLACE_Y, PLACE_Z) == 250.0;
  }

  /** GRAB then LIFT with an empty queue: gripper closed, arm raised, object held. */
  lemma GrabLiftHold(env: Env, c: Ctl, p1: Percept, p2: Percept)
    requires c.task.command == GRAB
    ensures var t1 := Tick(env, c, [], p1);
      var t2 := Tick(env, t1.ctl, [], p2);
      && t2.ctl == c.(task := Task(IDLE_HOLDING, None))
      && t1.sends + t2.sends == [Send(SERVO_ID_GRIPPER, GRIPPER_CLOSED_ANGLE),
                                 Send(SERVO_ID_SHOULDER, HOME_POSITION_ANGLES[SERVO_ID_SHOULDER]),
                                 Send(SERVO_ID_ELBOW, HOME_POSITION_ANGLES[SERVO_ID_ELBOW]),
                                 Send(SERVO_ID_WRIST, HOME_POSITION_ANGLES[SERVO_ID_WRIST])]
      && !t1.crashed && !t2.crashed
  {
    var t1 := Tick(env, c, [], p1);
    assert t1 == TickResult(c.(task := Task(LIFT, None)), [], [Send(SERVO_ID_GRIPPER, GRIPPER_CLOSED_ANGLE)], false);
    var t2 := Tick(env, t1.ctl, [], p2);
    assert t2 == TickResult(c.(task := Task(IDLE_HOLDING, None)), [], Lift(t1.ctl).sends, false);
  }

  /** A PICKUP iteration with a bad frame or a negative range changes nothing and sends nothing. */
  lemma PickupWaitsOnFault(env: Env, c: Ctl, p: Percept)
    requires c.task.command == PICKUP && HasTarget(c.task)
    requires !p.frameOk || p.irCm < 0.0
    ensures Tick(env, c, [], p) == TickResult(c, [], [], false)
  {
  }

  /** PICKUP without a usable target name gives up and returns home through STOP on the next iteration. */
  lemma PickupWithoutTargetStops(env: Env, c: Ctl, p1: Percept, p2: Percept)
    requires c.task.command == PICKUP && !HasTarget(c.task)
    ensures var t1 := Tick(env, c, [], p1);
      var t2 := Tick(env, t1.ctl, [], p2);
      && t1 == TickResult(c.(task := Task(STOP, None)), [], [], false)
      && t2 == TickResult(c.(task := Task(IDLE, None)), [], HomeSends(), false)
  {
    var stopped := c.(task := Task(STOP, None));
    assert Execute(env, c, p1) == Outcome(stopped, [], false);
    assert Execute(env, stopped, p2) == Stop(stopped);
  }

  /** A frame in which the target is not seen turns PICKUP into SEARCH for the same target. */
  lemma PickupLosesTarget(env: Env, c: Ctl, p: Percept)
    requires c.task.command == PICKUP && HasTarget(c.task) && p.frameOk && p.irCm >= 0.0
    requires P.FindTarget(p.detections, c.task.target) == Returned(None)
    ensures Tick(env, c, [], p) == TickResult(c.(task := Task(SEARCH, c.task.target)), [], [], false)
  {
  }

  /** A seen, solvable target within the grab threshold turns PICKUP into GRAB for the same target. */
  lemma PickupGrabs(env: Env, c: Ctl, p: Percept, px: P.Pixel, pt: T.Point3, a: K.JointAngles)
    requires c.task.command == PICKUP && HasTarget(c.task) && p.frameOk && 0.0 <= p.irCm <= env.grabThresholdCm
    requires P.FindTarget(p.detections, c.task.target) == Returned(Some(px))
    requires env.toArm(px.x, px.y, p.irCm) == Returned(pt)
    requires K.CalculateIk(SOLVER, env.math, pt.x, pt.y, pt.z) == Some(a)
    ensures Tick(env, c, [], p) == TickResult(c.(task := Task(GRAB, c.task.target)), [], ApproachSends(a), false)
  {
  }

  /** A seen target whose back-projection raises ends the iteration with the exception and no sends. */
  lemma PickupTransformRaises(env: Env, c: Ctl, p: Percept, px: P.Pixel)
    requires c.task.command == PICKUP && HasTarget(c.task) && p.frameOk && p.irCm >= 0.0
    requires P.FindTarget(p.detections, c.task.target) == Returned(Some(px))
    requires env.toArm(px.x, px.y, p.irCm).Raised?
    ensures Tick(env, c, [], p) == TickResult(c, [], [], true)
  {
  }

  /** A seen target outside the reachable shell leaves the task as it is and sends nothing. */
  lemma PickupOutOfReachWaits(env: Env, c: Ctl, p: Percept, px: P.Pixel, pt: T.Point3)
    requires c.task.command == PICKUP && HasTarget(c.task) && p.frameOk && p.irCm >= 0.0
    requires P.FindTarget(p.detections, c.task.target) == Returned(Some(px))
    requires env.toArm(px.x, px.y, p.irCm) == Returned(pt)
    requires K.CalculateIk(SOLVER, env.math, pt.x, pt.y, pt.z).None?
    ensures Tick(env, c, [], p) == TickResult(c, [], [], false)
  {
  }

  /** A seen, solvable target beyond the grab threshold drives the approach pose and keeps PICKUP. */
  lemma PickupApproaches(env: Env, c: Ctl, p: Percept, px: P.Pixel, pt: T.Point3, a: K.JointAngles)
    requires c.task.command == PICKUP && HasTarget(c.task) && p.frameOk && p.irCm > env.grabThresholdCm && p.irCm >= 0.0
    requires P.FindTarget(p.detections, c.task.target) == Returned(Some(px))
    requires env.toArm(px.x, px.y, p.irCm) == Returned(pt)
    requires K.CalculateIk(SOLVER, env.math, pt.x, pt.y, pt.z) == Some(a)
    ensures Tick(env, c, [], p) == TickResult(c, [], ApproachSends(a), false)
  {
  }

  /** A SEARCH iteration with a bad frame, or one in which the target is not seen, only sweeps. */
  lemma SearchSweeps(env: Env, c: Ctl, p: Percept)
    requires c.task.command == SEARCH
    requires !p.frameOk || P.FindTarget(p.detections, c.task.target) == Returned(None)
    ensures Tick(env, c, [], p) == TickResult(Sweep(c), [], SearchSends(Sweep(c)), false)
  {
  }

  /** A SEARCH iteration that sees the target switches to PICKUP for the same target. */
  lemma SearchFinds(env: Env, c: Ctl, p: Percept, px: P.Pixel)
    requires c.task.command == SEARCH && p.frameOk
    requires P.FindTarget(p.detections, c.task.target) == Returned(Some(px))
    ensures var r := Tick(env, c, [], p);
      r.ctl == Sweep(c).(task := Task(PICKUP, c.task.target)) && r.sends == SearchSends(Sweep(c)) && !r.crashed
  {
  }

  /** `n` sweep steps with no bounce. */
  function SweepN(c: Ctl, n: nat): Ctl
    decreases n
  {
    if n == 0 then c else SweepN(Sweep(c), n - 1)
  }

  /** Away from the range ends the base angle moves one step per iteration in the current direction. */
  lemma {:induction false} SweepClimbs(c: Ctl, n: nat)
    requires c.searchDir == SEARCH_STEP_PER_LOOP
    requires SEARCH_RANGE_MIN < c.searchAngle && c.searchAngle + n as real * SEARCH_STEP_PER_LOOP < SEARCH_RANGE_MAX
    ensures SweepN(c, n) == c.(searchAngle := c.searchAngle + n as real * SEARCH_STEP_PER_LOOP)
    decreases n
  {
    if n > 0 {
      var c1 := Sweep(c);
      assert c1 == c.(searchAngle := c.searchAngle + SEARCH_STEP_PER_LOOP);
      SweepClimbs(c1, n - 1);
    }
  }

  /** At the top of the range one step turns the sweep around and the next step moves down. */
  lemma SweepBounces(c: Ctl)
    requires c.searchAngle == SEARCH_RANGE_MAX - SEARCH_STEP_PER_LOOP && c.searchDir == SEARCH_STEP_PER_LOOP
    ensures Sweep(c) == c.(searchAngle := SEARCH_RANGE_MAX, searchDir := -SEARCH_STEP_PER_LOOP)
    ensures Sweep(Sweep(c)).searchAngle == SEARCH_RANGE_MAX - SEARCH_STEP_PER_LOOP
  {
  }

  /**
   * With the transform as written, the first PICKUP iteration that sees its
   * target raises `NameError`; the loop ends and the stop routine drives home.
   * With the intended transform the same iteration goes on to the solver.
   */
  lemma PickupCrashesAsWritten(math: K.MathLib)
    ensures var p := Percept(true, P.Detections(["cup"], [P.Box(0, 0.9, 300.0, 200.0, 340.0, 280.0)]), 20.0);
      var c := Ctl(Task(PICKUP, Some("cup")), 90.0, SEARCH_STEP_PER_LOOP);
      && Run(Env(math, 5.0, T.PixelToArmAsWritten), c, [], [p]) ==
           RunResult(Ctl(Task(IDLE, None), 90.0, SEARCH_STEP_PER_LOOP), [], HomeSends(), true)
      && !Tick(Corrected(math, 5.0), c, [], p).crashed
  {
    var p := Percept(true, P.Detections(["cup"], [P.Box(0, 0.9, 300.0, 200.0, 340.0, 280.0)]), 20.0);
    var c := Ctl(Task(PICKUP, Some("cup")), 90.0, SEARCH_STEP_PER_LOOP);
    CupIsSeen();
    var t := Tick(Env(math, 5.0, T.PixelToArmAsWritten), c, [], p);
    assert Execute(Env(math, 5.0, T.PixelToArmAsWritten), c, p) == Outcome(c, [], true);
    assert t == TickResult(c, [], [], true);
    assert Stop(c).ctl == Ctl(Task(IDLE, None), 90.0, SEARCH_STEP_PER_LOOP);
    assert !Execute(Corrected(math, 5.0), c, p).crashed;
  }

  /** The detection used by `PickupCrashesAsWritten`: one "cup" box centred on the image centre. */
  lemma CupIsSeen()
    ensures P.FindTarget(P.Detections(["cup"], [P.Box(0, 0.9, 300.0, 200.0, 340.0, 280.0)]), Some("cup"))
      == Returned(Some(P.Pixel(320, 240)))
  {
    var d := P.Detections(["cup"], [P.Box(0, 0.9, 300.0, 200.0, 340.0, 280.0)]);
    assert P.Lower("cup") == "cup";
    assert P.FirstMatch(d.names, "cup") == Some(0);
    assert d.boxes[..0] == [];
    assert P.BestSoFar(d.boxes, 0) == Some(0);
    assert P.Center(d.boxes[0]) == P.Pixel(320, 240);
  }
}
