/**
 * `apply_servo_constraints` of the setup web tools: each requested angle is
 * clamped to its joint's movable range and, for joints mounted in reverse,
 * mirrored to `180 - angle` before it goes to the servo. The orchestrator
 * tool and the web app carry the same range table but different reverse
 * tables.
 */
module ServoConstraints {
  import opened Num

  /** Which copy of the tables: `orchestrator_process.py` or `app.py`. */
  datatype Variant = Orchestrator | App

  /** `ANGLE_LIMITS.get(i, [0, 180])`; both copies carry the same table. */
  function Limits(i: nat): (r: (int, int))
    ensures 0 <= r.0 <= r.1 <= 180
  {
    if i == 0 then (90, 180)
    else if i == 1 then (0, 180)
    else if i == 2 then (30, 180)
    else if i == 3 then (90, 180)
    else if i == 4 then (90, 180)
    else (0, 180)
  }

  /** `INVERSE_ROTATION.get(i, False)` */
  predicate Inverted(v: Variant, i: nat) {
    match v
    case Orchestrator => i == 2
    case App => i in {0, 2, 3, 4}
  }

  /** One joint: clamp into the range, then mirror if the joint is reversed. */
  function ConstrainOne(v: Variant, i: nat, angle: int): (r: int)
    ensures 0 <= r <= 180
    ensures !Inverted(v, i) ==> Limits(i).0 <= r <= Limits(i).1
    ensures Inverted(v, i) ==> 180 - Limits(i).1 <= r <= 180 - Limits(i).0
  {
    var safe := Clamp(angle, Limits(i).0, Limits(i).1);
    if Inverted(v, i) then 180 - safe else safe
  }

  /** The `enumerate` loop from position `start` on. */
  function ApplyFrom(v: Variant, angles: seq<int>, start: nat): (r: seq<int>)
    ensures |r| == |angles|
    ensures forall k :: 0 <= k < |r| ==> r[k] == ConstrainOne(v, start + k, angles[k])
    decreases |angles|
  {
    if angles == [] then [] else [ConstrainOne(v, start, angles[0])] + ApplyFrom(v, angles[1..], start + 1)
  }

  /** `apply_servo_constraints(angle_list)`: one output per input, every output a servo angle. */
  function Apply(v: Variant, angles: seq<int>): (r: seq<int>)
    ensures |r| == |angles|
    ensures forall i :: 0 <= i < |r| ==> 0 <= r[i] <= 180
    ensures forall i :: 0 <= i < |r| ==> r[i] == ConstrainOne(v, i, angles[i])
  {
    ApplyFrom(v, angles, 0)
  }

  /** The slider value a servo angle stands for: the mirror is its own inverse. */
  function Unconstrain(v: Variant, i: nat, out: int): int {
    if Inverted(v, i) then 180 - out else out
  }

  /** Undoing the mirror recovers exactly the clamped request. */
  lemma UnconstrainRecoversClamp(v: Variant, i: nat, angle: int)
    ensures Unconstrain(v, i, ConstrainOne(v, i, angle)) == Clamp(angle, Limits(i).0, Limits(i).1)
  {
  }

  /** A request inside the joint's range survives the round trip unchanged. */
  lemma InRangeRoundTrip(v: Variant, angles: seq<int>)
    requires forall i :: 0 <= i < |angles| ==> Limits(i).0 <= angles[i] <= Limits(i).1
    ensures var r := Apply(v, angles);
      forall i :: 0 <= i < |angles| ==> Unconstrain(v, i, r[i]) == angles[i]
  {
  }

  /** Constraining an already constrained request changes nothing: the clamp is idempotent. */
  lemma {:induction false} ClampIdempotent(v: Variant, angles: seq<int>)
    ensures var once := seq(|angles|, i requires 0 <= i < |angles| => Clamp(angles[i], Limits(i).0, Limits(i).1));
      Apply(v, once) == Apply(v, angles)
  {
    var once := seq(|angles|, i requires 0 <= i < |angles| => Clamp(angles[i], Limits(i).0, Limits(i).1));
    var a := Apply(v, once);
    var b := Apply(v, angles);
    assert forall i :: 0 <= i < |angles| ==> a[i] == b[i];
  }

  /** In the orchestrator tool only joint 2 is mirrored. */
  lemma OrchestratorMirrorsOnlyJointTwo(angles: seq<int>)
    ensures var r := Apply(Orchestrator, angles);
      forall i :: 0 <= i < |angles| ==>
        r[i] == (if i == 2 then 180 - Clamp(angles[i], 30, 180) else Clamp(angles[i], Limits(i).0, Limits(i).1))
  {
  }

  /** In the web app joints 0, 2, 3 and 4 are mirrored; 1 and 5 pass through. */
  lemma AppMirrors(angles: seq<int>)
    ensures var r := Apply(App, angles);
      forall i :: 0 <= i < |angles| ==>
        (i in {0, 2, 3, 4} ==> r[i] == 180 - Clamp(angles[i], Limits(i).0, Limits(i).1)) &&
        (i !in {0, 2, 3, 4} ==> r[i] == Clamp(angles[i], Limits(i).0, Limits(i).1))
  {
  }

  /** The web app's joint 0 is limited to [90, 180] and mirrored, so its servo angle lies in [0, 90]. */
  lemma AppJointZeroRange(angles: seq<int>)
    requires |angles| > 0
    ensures 0 <= Apply(App, angles)[0] <= 90
  {
  }

  /** The two copies differ exactly on joints 0, 3 and 4, where one output is the mirror of the other. */
  lemma VariantsDiffer(angles: seq<int>)
    ensures var a := Apply(Orchestrator, angles);
      var b := Apply(App, angles);
      forall i :: 0 <= i < |angles| ==>
        (i in {0, 3, 4} ==> b[i] == 180 - a[i]) && (i !in {0, 3, 4} ==> b[i] == a[i])
  {
  }
}
