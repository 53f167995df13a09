/**
 * The GP2Y0A21YK0F range rule of the setup camera tools: a raw analog
 * reading becomes a distance in cm through an inverse model, clipped to the
 * sensor's 10-80 cm band; and the sensor thread keeps the last reading that
 * was not a timeout.
 */
module IrSensing {
  import opened Num
  import opened Wrappers

  const NEAR_CM: real := 10.0
  const FAR_CM: real := 80.0

  /** The raw reading below which the target counts as far, and above which as near. */
  const RAW_FAR: real := 80.0
  const RAW_NEAR: real := 550.0

  /** The inverse model `6762 / (raw - 9) - 4`, before clipping. */
  function InverseModel(raw: real): real
    requires raw != 9.0
  {
    6762.0 / (raw - 9.0) - 4.0
  }

  /**
   * The distance rule in `generate_frames`: out-of-band readings map to the
   * band's ends, in-band readings go through the inverse model and are
   * clipped; a zero divisor falls back to the far end.
   */
  function RawToDistance(raw: real): (d: real)
    ensures NEAR_CM <= d <= FAR_CM
    ensures raw < RAW_FAR ==> d == FAR_CM
    ensures raw > RAW_NEAR ==> d == NEAR_CM
    ensures RAW_FAR <= raw <= RAW_NEAR && NEAR_CM <= InverseModel(raw) <= FAR_CM ==> d == InverseModel(raw)
  {
    if raw < RAW_FAR then FAR_CM
    else if raw > RAW_NEAR then NEAR_CM
    else if raw - 9.0 == 0.0 then FAR_CM
    else ClampReal(InverseModel(raw), NEAR_CM, FAR_CM)
  }

  /** In the model branch the divisor is at least 71, so the `ZeroDivisionError` fallback never runs. */
  lemma DivisorAtLeast71(raw: real)
    requires RAW_FAR <= raw <= RAW_NEAR
    ensures raw - 9.0 >= 71.0
    ensures RawToDistance(raw) == ClampReal(InverseModel(raw), NEAR_CM, FAR_CM)
  {
  }

  lemma QuotientAntitone(c: real, a: real, b: real)
    requires 0.0 <= c && 0.0 < a <= b
    ensures c / b <= c / a
  {
  }

  /** A stronger reading never means a farther object: the rule is non-increasing in the raw value. */
  lemma RawToDistanceAntitone(r1: real, r2: real)
    requires r1 <= r2
    ensures RawToDistance(r2) <= RawToDistance(r1)
  {
    if RAW_FAR <= r1 && r2 <= RAW_NEAR {
      QuotientAntitone(6762.0, r1 - 9.0, r2 - 9.0);
    }
  }

  /** The two band ends are met by the model itself: the rule has no jump at either threshold. */
  lemma BandEndsClip()
    ensures InverseModel(RAW_FAR) > FAR_CM
    ensures InverseModel(RAW_NEAR) < NEAR_CM
    ensures RawToDistance(RAW_FAR) == FAR_CM && RawToDistance(RAW_NEAR) == NEAR_CM
  {
  }

  /** The sensor thread's guarded update: a reading of 0.0 (timeout) or below keeps the previous value. */
  function UpdateLastIr(last: real, raw: real): (r: real)
    ensures raw > 0.0 ==> r == raw
    ensures raw <= 0.0 ==> r == last
  {
    if raw > 0.0 then raw else last
  }

  /** The shared value after a run of sensor-thread iterations. */
  function LastIrAfter(last: real, readings: seq<real>): real
    decreases |readings|
  {
    if readings == [] then last else LastIrAfter(UpdateLastIr(last, readings[0]), readings[1..])
  }

  /** The last positive reading of a sequence, if any: an independent description of what the thread keeps. */
  function LastPositive(readings: seq<real>): (r: Option<real>)
    ensures r.Some? ==> r.value > 0.0 && r.value in readings
    ensures r.None? <==> forall i :: 0 <= i < |readings| ==> readings[i] <= 0.0
    decreases |readings|
  {
    if readings == [] then None
    else
      var n := |readings| - 1;
      if readings[n] > 0.0 then Some(readings[n]) else LastPositive(readings[..n])
  }

  /** The shared value is the last positive reading, or the initial value when every reading timed out. */
  lemma {:induction false} LastIrIsLastPositive(last: real, readings: seq<real>)
    ensures LastIrAfter(last, readings) == match LastPositive(readings) case Some(v) => v case None => last
    decreases |readings|
  {
    if readings != [] {
      var n := |readings| - 1;
      LastIrSnoc(last, readings[..n], readings[n]);
      assert readings[..n] + [readings[n]] == readings;
      LastIrIsLastPositive(last, readings[..n]);
    }
  }

  lemma {:induction false} LastIrSnoc(last: real, readings: seq<real>, x: real)
    ensures LastIrAfter(last, readings + [x]) == UpdateLastIr(LastIrAfter(last, readings), x)
    decreases |readings|
  {
    if readings == [] {
      assert [x][1..] == [];
    } else {
      assert (readings + [x])[1..] == readings[1..] + [x];
      LastIrSnoc(UpdateLastIr(last, readings[0]), readings[1..], x);
    }
  }

  /** Every value the thread publishes is positive once any reading was, so `RawToDistance` never sees a timeout value again. */
  lemma PositiveStaysPositive(last: real, readings: seq<real>)
    requires last > 0.0
    ensures LastIrAfter(last, readings) > 0.0
  {
    LastIrIsLastPositive(last, readings);
  }
}
