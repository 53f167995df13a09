/**
 * `KinematicsSolver.calculate_ik`: base, shoulder and elbow angles for a
 * target point in the arm frame, or no solution. Floating-point square root
 * and trigonometry are parameters (`MathLib`); `Lawful` states the only facts
 * about them the proofs use.
 */
module Kinematics {
  import opened Num
  import opened Wrappers

  /** `np.pi` as a real. */
  const PI: real := 3.141592653589793

  /** The numeric library the solver calls: `np.sqrt`, `np.arctan2(y, x)` and `np.arccos`. */
  datatype MathLib = MathLib(sqrt: real -> real, atan2: (real, real) -> real, acos: real -> real)

  /** Square root is exact on non-negative inputs; `atan2` lies in [-pi, pi]; `acos` maps [-1, 1] into [0, pi]. */
  ghost predicate Lawful(m: MathLib) {
    && (forall v :: 0.0 <= v ==> 0.0 <= m.sqrt(v) && m.sqrt(v) * m.sqrt(v) == v)
    && (forall y, x :: -PI <= m.atan2(y, x) <= PI)
    && (forall c :: -1.0 <= c <= 1.0 ==> 0.0 <= m.acos(c) <= PI)
  }

  /** The solver's constructor arguments: link lengths and the shoulder axis height, in cm. */
  datatype Solver = Solver(l1: real, l2: real, baseHeight: real) {
    /** `l1_plus_l2`: the outer radius of the reachable shell. */
    function Reach(): real { l1 + l2 }
    /** `l1_minus_l2_abs`: the inner radius of the reachable shell. */
    function Inner(): real { Abs(l1 - l2) }
    /** `l1_sq_plus_l2_sq` */
    function SqSum(): real { l1 * l1 + l2 * l2 }
  }

  datatype JointAngles = JointAngles(base: int, shoulder: int, elbow: int)

  function Abs(v: real): (a: real)
    ensures a >= 0.0 && (a == v || a == -v)
  {
    if v < 0.0 then -v else v
  }

  /** `np.degrees` */
  function Degrees(rad: real): real {
    rad * 180.0 / PI
  }

  /** `int(np.clip(deg, 0, 180))` */
  function ServoAngle(deg: real): (a: int)
    ensures 0 <= a <= 180
  {
    Trunc(ClampReal(deg, 0.0, 180.0))
  }

  /** Squared distance from the shoulder axis `(0, 0, baseHeight)` to the target. */
  function DistanceSq(s: Solver, x: real, y: real, z: real): real {
    x * x + y * y + (z - s.baseHeight) * (z - s.baseHeight)
  }

  /**
   * The target is inside the reachable shell `Inner() <= d <= Reach()`, stated
   * on squared distances, and no cosine-law quotient is 0/0. A zero link
   * length or a target on the shoulder axis make a quotient 0/0, whose NaN
   * makes `int()` raise, which the solver turns into `None`.
   */
  ghost predicate Reachable(s: Solver, x: real, y: real, z: real) {
    ReachableAt(s, DistanceSq(s, x, y, z))
  }

  /** Reachability stated on the squared shoulder-to-target distance alone. */
  predicate ReachableAt(s: Solver, dsq: real) {
    && 0.0 <= s.Reach()
    && dsq <= s.Reach() * s.Reach()
    && s.Inner() * s.Inner() <= dsq
    && s.l1 * s.l2 != 0.0
    && dsq != 0.0
  }

  /** Horizontal reach `r`, height above the shoulder `z'`, `d^2` and `d`, as the solver computes them. */
  datatype Geometry = Geometry(horiz: real, zPrime: real, dsq: real, d: real)

  function Measure(s: Solver, m: MathLib, x: real, y: real, z: real): Geometry {
    var horiz := m.sqrt(x * x + y * y);
    var zPrime := z - s.baseHeight;
    var dsq := horiz * horiz + zPrime * zPrime;
    Geometry(horiz, zPrime, dsq, m.sqrt(dsq))
  }

  /** The two reach tests and the 0/0 cases that end in `None`. */
  predicate Rejects(s: Solver, g: Geometry) {
    || g.d > s.Reach()
    || g.d < s.Inner()
    || 2.0 * s.l1 * s.l2 == 0.0
    || 2.0 * s.l1 * g.d == 0.0
  }

  /** The cosine-law angles for a target that passed the reach tests, clipped and truncated. */
  function Solve(s: Solver, m: MathLib, x: real, y: real, g: Geometry): (a: JointAngles)
    requires !Rejects(s, g)
    ensures 0 <= a.base <= 180 && 0 <= a.shoulder <= 180 && 0 <= a.elbow <= 180
  {
    var theta0 := Degrees(m.atan2(y, x));
    var cosPhi := ClampReal((s.SqSum() - g.dsq) / (2.0 * s.l1 * s.l2), -1.0, 1.0);
    var theta2 := Degrees(PI - m.acos(cosPhi));
    var alpha := m.atan2(g.zPrime, g.horiz);
    var cosBeta := ClampReal((s.l1 * s.l1 + g.dsq - s.l2 * s.l2) / (2.0 * s.l1 * g.d), -1.0, 1.0);
    var theta1 := Degrees(alpha + m.acos(cosBeta));
    JointAngles(ServoAngle(theta0), ServoAngle(theta1), ServoAngle(theta2))
  }

  /** `calculate_ik(x, y, z)`; `None` covers both the reach test and the caught exception. */
  function CalculateIk(s: Solver, m: MathLib, x: real, y: real, z: real): (r: Option<JointAngles>)
    ensures r.Some? ==> 0 <= r.value.base <= 180 && 0 <= r.value.shoulder <= 180 && 0 <= r.value.elbow <= 180
  {
    var g := Measure(s, m, x, y, z);
    if Rejects(s, g) then None else Some(Solve(s, m, x, y, g))
  }

  lemma MulPos(u: real, v: real)
    requires 0.0 < u && 0.0 < v
    ensures 0.0 < u * v
  {
  }

  lemma MulMono(u: real, v: real, w: real)
    requires 0.0 <= w && u <= v
    ensures u * w <= v * w
  {
  }

  lemma SquaresOrdered(a: real, b: real)
    requires 0.0 <= a && 0.0 <= b
    ensures a <= b <==> a * a <= b * b
  {
    if a <= b {
      MulMono(a, b, a);
      MulMono(a, b, b);
    } else {
      calc {
        b * b;
      <= { MulMono(b, a, b); }
        a * b;
      <  { MulPos(a - b, a); assert (a - b) * a == a * a - b * a; }
        a * a;
      }
    }
  }

  /** Under a lawful library `d^2` is the squared distance and `d` its non-negative root. */
  lemma MeasureLawful(s: Solver, m: MathLib, x: real, y: real, z: real)
    requires Lawful(m)
    ensures var g := Measure(s, m, x, y, z);
      g.dsq == DistanceSq(s, x, y, z) && 0.0 <= g.d && g.d * g.d == g.dsq
  {
    var q := x * x + y * y;
    assert m.sqrt(q) * m.sqrt(q) == q;
    var g := Measure(s, m, x, y, z);
    assert g.dsq >= 0.0;
    assert m.sqrt(g.dsq) * m.sqrt(g.dsq) == g.dsq;
  }

  /**
   * With a lawful numeric library the solver succeeds exactly on reachable
   * targets: the reach test on `d` agrees with the test on squared distances,
   * and both boundary distances are accepted.
   */
  lemma IkSucceedsIffReachable(s: Solver, m: MathLib, x: real, y: real, z: real)
    requires Lawful(m)
    ensures CalculateIk(s, m, x, y, z).Some? <==> Reachable(s, x, y, z)
  {
    var g := Measure(s, m, x, y, z);
    MeasureLawful(s, m, x, y, z);
    RejectsIffUnreachable(s, g);
  }

  /** The tests on `d` reject exactly the squared distances that are not reachable. */
  lemma RejectsIffUnreachable(s: Solver, g: Geometry)
    requires 0.0 <= g.d && g.d * g.d == g.dsq
    ensures Rejects(s, g) <==> !ReachableAt(s, g.dsq)
  {
    var d := g.d;
    if 0.0 <= s.Reach() {
      SquaresOrdered(d, s.Reach());
    }
    SquaresOrdered(s.Inner(), d);
    if d != 0.0 {
      MulPos(d, d);
    }
    assert 2.0 * s.l1 * s.l2 == 0.0 <==> s.l1 * s.l2 == 0.0;
    assert (2.0 * s.l1 * d == 0.0) <==> (s.l1 == 0.0 || d == 0.0);
  }

  /**
   * The NaN path is genuine: whenever the reach test passes but a cosine-law
   * denominator is zero, its numerator is zero as well, so the quotient is
   * 0/0 rather than an infinity that `np.clip` would have tamed.
   */
  lemma ZeroDenominatorIsNaN(s: Solver, m: MathLib, x: real, y: real, z: real)
    requires Lawful(m)
    requires var g := Measure(s, m, x, y, z); s.Inner() <= g.d <= s.Reach()
    ensures var g := Measure(s, m, x, y, z);
      && (2.0 * s.l1 * s.l2 == 0.0 ==> s.SqSum() - g.dsq == 0.0)
      && (2.0 * s.l1 * g.d == 0.0 ==> s.l1 * s.l1 + g.dsq - s.l2 * s.l2 == 0.0 || s.l1 * s.l2 == 0.0)
  {
    var g := Measure(s, m, x, y, z);
    MeasureLawful(s, m, x, y, z);
    if s.l1 == 0.0 {
      assert g.d == s.l2;
    }
    if s.l2 == 0.0 {
      assert g.d == s.l1;
    }
    if g.d == 0.0 {
      assert s.l1 == s.l2;
    }
  }

  /** The elbow is `180 - degrees(acos(c))`, already inside [0, 180] before the final clip. */
  lemma ElbowInRangeBeforeClip(m: MathLib, c: real)
    requires Lawful(m) && -1.0 <= c <= 1.0
    ensures 0.0 <= Degrees(PI - m.acos(c)) <= 180.0
    ensures ServoAngle(Degrees(PI - m.acos(c))) == Trunc(Degrees(PI - m.acos(c)))
  {
    var a := m.acos(c);
    assert 0.0 <= PI - a <= PI;
    assert (PI - a) * 180.0 <= PI * 180.0;
  }

  /** The base angle is `degrees(atan2(y, x))` in [-180, 180]; the clip folds the negative half onto 0. */
  lemma BaseAngleRange(m: MathLib, x: real, y: real)
    requires Lawful(m)
    ensures -180.0 <= Degrees(m.atan2(y, x)) <= 180.0
    ensures Degrees(m.atan2(y, x)) < 0.0 ==> ServoAngle(Degrees(m.atan2(y, x))) == 0
  {
    var a := m.atan2(y, x);
    assert -PI * 180.0 <= a * 180.0 <= PI * 180.0;
  }
}
