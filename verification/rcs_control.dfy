/** RCS actuation (`RCSCtrlHelper`): a body-frame acceleration command becomes three
    translation-control settings by dividing each axis by the acceleration the thrusters can
    produce in the commanded direction. */
module RcsControl {
  import opened RealMath
  import opened LinearAlgebra

  /** Per-axis accelerations: `positive` towards right, forward, bottom and `negative` towards
      left, backward, up, in the order the vessel reports its RCS forces. */
  datatype Accelerations = Accelerations(positive: Vector, negative: Vector)

  /** `compute_available_acceleration`: both force triples divided by the vessel mass. */
  function AvailableAcceleration(positiveForce: Vector, negativeForce: Vector, mass: real): (a: Accelerations)
    requires mass != 0.0
    ensures |a.positive| == |positiveForce| && |a.negative| == |negativeForce|
    ensures forall i :: 0 <= i < |positiveForce| ==> a.positive[i] * mass == positiveForce[i]
    ensures forall i :: 0 <= i < |negativeForce| ==> a.negative[i] * mass == negativeForce[i]
  {
    Accelerations(Scale(1.0 / mass, positiveForce), Scale(1.0 / mass, negativeForce))
  }

  /** The per-axis inputs: right and forward as commanded, the third axis negated because the
      control's "up" points opposite the body frame's third axis. */
  function AxisInputs(uBody: Vector): (u: Vector)
    requires |uBody| == 3
    ensures |u| == 3
    ensures u[0] == uBody[0] && u[1] == uBody[1] && u[2] == -uBody[2]
  {
    [uBody[0], uBody[1], -uBody[2]]
  }

  /** The acceleration available in the direction an input asks for. */
  function Selected(acc: Accelerations, u: real, i: nat): real
    requires i < |acc.positive| && i < |acc.negative|
  {
    if u >= 0.0 then Abs(acc.positive[i]) else Abs(acc.negative[i])
  }

  /** The thrusters in every commanded direction can push at all, so no division is by zero. */
  predicate Actuable(acc: Accelerations, uBody: Vector)
    requires |uBody| == 3
  {
    && |acc.positive| >= 3 && |acc.negative| >= 3
    && forall i :: 0 <= i < 3 ==> Selected(acc, AxisInputs(uBody)[i], i) > 0.0
  }

  /** One axis of `rcs_actuation`: the input divided by the selected available acceleration
      a > 0. The setting keeps the sign of its input, is zero exactly for a zero input, lies in
      [−1, 1] exactly when the input is within what the thrusters can give, and times a gives
      back the input. */
  function AxisSetting(u: real, a: real): (c: real)
    requires a > 0.0
    ensures c * a == u
    ensures c >= 0.0 <==> u >= 0.0
    ensures c == 0.0 <==> u == 0.0
    ensures -1.0 <= c <= 1.0 <==> Abs(u) <= a
  {
    DivisionByMagnitude(u, a);
    u / a
  }

  lemma DivisionByMagnitude(u: real, a: real)
    requires a > 0.0
    ensures (u / a) * a == u
    ensures u / a >= 0.0 <==> u >= 0.0
    ensures u / a == 0.0 <==> u == 0.0
    ensures -1.0 <= u / a <= 1.0 <==> Abs(u) <= a
  {
    var c := u / a;
    assert c * a == u;
    if u >= 0.0 {
      DivMonotone(0.0, u, a);
    } else {
      DivMonotone(u, 0.0, a);
    }
    if Abs(u) <= a {
      DivMonotone(u, a, a);
      DivMonotone(-a, u, a);
    }
    if -1.0 <= c <= 1.0 {
      ScaleBounds(c, a);
    }
  }

  /** `rcs_actuation`: the three settings (right, forward, up), each from its own axis input
      and the acceleration available in that input's direction. */
  function RcsActuation(uBody: Vector, acc: Accelerations): (controls: Vector)
    requires |uBody| == 3 && Actuable(acc, uBody)
    ensures |controls| == 3
    ensures forall i :: 0 <= i < 3 ==>
      controls[i] == AxisSetting(AxisInputs(uBody)[i], Selected(acc, AxisInputs(uBody)[i], i))
  {
    var u := AxisInputs(uBody);
    [ AxisSetting(u[0], Selected(acc, u[0], 0)),
      AxisSetting(u[1], Selected(acc, u[1], 1)),
      AxisSetting(u[2], Selected(acc, u[2], 2)) ]
  }

  lemma ScaleBounds(c: real, a: real)
    requires a > 0.0 && -1.0 <= c <= 1.0
    ensures -a <= c * a <= a
  {
    assert (1.0 - c) * a >= 0.0;
    assert (c + 1.0) * a >= 0.0;
  }

  /** Each setting depends only on its own axis: changing one input leaves the other settings. */
  lemma AxesIndependent(uBody: Vector, uBody': Vector, acc: Accelerations, i: nat)
    requires |uBody| == 3 && |uBody'| == 3 && Actuable(acc, uBody) && Actuable(acc, uBody')
    requires i < 3 && uBody[i] == uBody'[i]
    ensures RcsActuation(uBody, acc)[i] == RcsActuation(uBody', acc)[i]
  {
    assert AxisInputs(uBody)[i] == AxisInputs(uBody')[i];
  }
}
