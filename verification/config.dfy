/**
 * The arm constants of `raspberrypi/config.py` that the real-time controller
 * reads: joint numbering, the home and search poses, the gripper angles, the
 * place target, the sweep range and the link geometry handed to the solver.
 */
module ArmConfig {
  import K = Kinematics

  const SERVO_COUNT: int := 6

  /** PCA9685 channel of each joint. */
  const SERVO_ID_GRIPPER: int := 0
  const SERVO_ID_WRIST_ROTATE: int := 1
  const SERVO_ID_WRIST: int := 2
  const SERVO_ID_ELBOW: int := 3
  const SERVO_ID_SHOULDER: int := 4
  const SERVO_ID_BASE: int := 5

  /** Rest pose, indexed by channel. */
  const HOME_POSITION_ANGLES: seq<int> := [90, 90, 90, 30, 150, 90]

  /**
   * Search pose, indexed by channel. Two of its entries are written as copies
   * of home entries and the base entry is overwritten by the sweep.
   */
  const SEARCH_POSE_ANGLES: seq<int> := [
    HOME_POSITION_ANGLES[SERVO_ID_GRIPPER],
    HOME_POSITION_ANGLES[SERVO_ID_WRIST_ROTATE],
    90,
    90,
    90,
    HOME_POSITION_ANGLES[SERVO_ID_BASE]
  ]

  const GRIPPER_OPEN_ANGLE: int := 90
  const GRIPPER_CLOSED_ANGLE: int := 30

  /** `PLACE_TARGET_COORDS_ARM`, in cm in the arm frame. */
  const PLACE_X: real := 15.0
  const PLACE_Y: real := 0.0
  const PLACE_Z: real := 5.0

  /** Base sweep while searching, in degrees. */
  const SEARCH_RANGE_MIN: real := 45.0
  const SEARCH_RANGE_MAX: real := 135.0
  const SEARCH_STEP_PER_LOOP: real := 0.5

  /** `KinematicsSolver(ARM_L1_CM, ARM_L2_CM, ARM_BASE_HEIGHT_CM)`. */
  const SOLVER: K.Solver := K.Solver(15.0, 10.0, 10.0)

  /** Every pose entry is a legal servo angle and every joint id a legal channel. */
  lemma PosesAreServoAngles()
    ensures |HOME_POSITION_ANGLES| == SERVO_COUNT && |SEARCH_POSE_ANGLES| == SERVO_COUNT
    ensures forall i :: 0 <= i < SERVO_COUNT ==> 0 <= HOME_POSITION_ANGLES[i] <= 180
    ensures forall i :: 0 <= i < SERVO_COUNT ==> 0 <= SEARCH_POSE_ANGLES[i] <= 180
    ensures multiset{SERVO_ID_GRIPPER, SERVO_ID_WRIST_ROTATE, SERVO_ID_WRIST, SERVO_ID_ELBOW, SERVO_ID_SHOULDER, SERVO_ID_BASE}
      == multiset{0, 1, 2, 3, 4, 5}
  {
  }
}
