/** Clohessy–Wiltshire relative dynamics (Clohessy & Wiltshire, 1960) as the constant
    state-space pairs (A, B) handed to the LQR synthesis: a 4-state, 2-input in-plane
    model (radial, along-track, and their rates) and a 2-state, 1-input out-of-plane
    model (cross-track position and rate). Both depend only on the orbital rate n. */
module CwDynamics {
  import opened LinearAlgebra

  datatype Plane = InPlane | OutOfPlane

  /** `InPlaneDynamics(n)` or `OutOfPlaneDynamics(n)`: the stored rate is the only state. */
  datatype Dynamics = Dynamics(plane: Plane, n: real)

  function StateCount(p: Plane): nat
  {
    if p == InPlane then 4 else 2
  }

  function InputCount(p: Plane): nat
  {
    if p == InPlane then 2 else 1
  }

  /** The free-dynamics matrix A. */
  function FreeDynamics(d: Dynamics): (a: Matrix)
    ensures IsMatrix(a, StateCount(d.plane), StateCount(d.plane))
  {
    var n := d.n;
    match d.plane
    case InPlane =>
      [ [0.0, 0.0, 1.0, 0.0],
        [0.0, 0.0, 0.0, 1.0],
        [3.0 * n * n, 0.0, 0.0, -2.0 * n],
        [0.0, 0.0, 2.0 * n, 0.0] ]
    case OutOfPlane =>
      [ [0.0, 1.0],
        [-(n * n), 0.0] ]
  }

  /** The control-input matrix B. */
  function ControlledDynamics(d: Dynamics): (b: Matrix)
    ensures IsMatrix(b, StateCount(d.plane), InputCount(d.plane))
  {
    match d.plane
    case InPlane => [[0.0, 0.0], [0.0, 0.0], [1.0, 0.0], [0.0, 1.0]]
    case OutOfPlane => [[0.0], [1.0]]
  }

  /** The linearised equations of motion written out one component at a time:
      positions change at the velocities, the radial acceleration is 3n²x − 2nẏ,
      the along-track acceleration is 2nẋ, the cross-track motion is a harmonic
      oscillator at rate n, and every input acts directly on one acceleration. */
  function CwRates(d: Dynamics, x: Vector, u: Vector): (r: Vector)
    requires |x| == StateCount(d.plane) && |u| == InputCount(d.plane)
  {
    var n := d.n;
    match d.plane
    case InPlane =>
      [x[2], x[3], 3.0 * n * n * x[0] - 2.0 * n * x[3] + u[0], 2.0 * n * x[2] + u[1]]
    case OutOfPlane =>
      [x[1], -(n * n) * x[0] + u[0]]
  }

  /** The matrices encode exactly the Clohessy–Wiltshire equations: A·x + B·u is the
      component-wise rate vector for every state and input. */
  lemma StateSpaceIsCw(d: Dynamics, x: Vector, u: Vector)
    requires |x| == StateCount(d.plane) && |u| == InputCount(d.plane)
    ensures Add(MatVec(FreeDynamics(d), x), MatVec(ControlledDynamics(d), u)) == CwRates(d, x, u)
  {
    if d.plane == InPlane {
      InPlaneStateSpace(d.n, x, u);
    } else {
      OutOfPlaneStateSpace(d.n, x, u);
    }
  }

  lemma InPlaneStateSpace(n: real, x: Vector, u: Vector)
    requires |x| == 4 && |u| == 2
    ensures Add(MatVec(FreeDynamics(Dynamics(InPlane, n)), x), MatVec(ControlledDynamics(Dynamics(InPlane, n)), u))
      == CwRates(Dynamics(InPlane, n), x, u)
  {
    var a := FreeDynamics(Dynamics(InPlane, n));
    var b := ControlledDynamics(Dynamics(InPlane, n));
    var ax := MatVec(a, x);
    var bu := MatVec(b, u);
    Dot4(a[0], x); Dot4(a[1], x); Dot4(a[2], x); Dot4(a[3], x);
    Dot2(b[0], u); Dot2(b[1], u); Dot2(b[2], u); Dot2(b[3], u);
    var r := Add(ax, bu);
    var w := CwRates(Dynamics(InPlane, n), x, u);
    assert r[0] == w[0] && r[1] == w[1];
    assert r[2] == w[2];
    assert r[3] == w[3];
    Equal4(r, w);
  }

  lemma OutOfPlaneStateSpace(n: real, x: Vector, u: Vector)
    requires |x| == 2 && |u| == 1
    ensures Add(MatVec(FreeDynamics(Dynamics(OutOfPlane, n)), x), MatVec(ControlledDynamics(Dynamics(OutOfPlane, n)), u))
      == CwRates(Dynamics(OutOfPlane, n), x, u)
  {
    var a := FreeDynamics(Dynamics(OutOfPlane, n));
    var b := ControlledDynamics(Dynamics(OutOfPlane, n));
    var ax := MatVec(a, x);
    var bu := MatVec(b, u);
    Dot2(a[0], x); Dot2(a[1], x);
    Dot1(b[0], u); Dot1(b[1], u);
    var r := Add(ax, bu);
    var w := CwRates(Dynamics(OutOfPlane, n), x, u);
    assert r[0] == w[0];
    assert r[1] == w[1];
    Equal2(r, w);
  }

  /** The controllability matrix [B | A·B]; it is square for both planes. */
  function ControllabilityMatrix(d: Dynamics): (c: Matrix)
    ensures IsMatrix(c, StateCount(d.plane), StateCount(d.plane))
  {
    var a := FreeDynamics(d);
    var b := ControlledDynamics(d);
    HConcat(b, MatMul(a, b, InputCount(d.plane)))
  }

  /** A row times the last two unit columns picks its last two entries. */
  lemma VelocityColumns(row: Vector, c0: Vector, c1: Vector)
    requires |row| == 4 && c0 == [0.0, 0.0, 1.0, 0.0] && c1 == [0.0, 0.0, 0.0, 1.0]
    ensures Dot(row, c0) == row[2] && Dot(row, c1) == row[3]
  {
    Dot4(row, c0);
    Dot4(row, c1);
  }

  lemma InPlaneProductValue(n: real)
    ensures MatMul(FreeDynamics(Dynamics(InPlane, n)), ControlledDynamics(Dynamics(InPlane, n)), 2)
      == [[1.0, 0.0], [0.0, 1.0], [0.0, -2.0 * n], [2.0 * n, 0.0]]
  {
    var a := FreeDynamics(Dynamics(InPlane, n));
    var b := ControlledDynamics(Dynamics(InPlane, n));
    var ab := MatMul(a, b, 2);
    var c0 := Column(b, 0);
    var c1 := Column(b, 1);
    assert c0 == [0.0, 0.0, 1.0, 0.0];
    assert c1 == [0.0, 0.0, 0.0, 1.0];
    VelocityColumns(a[0], c0, c1);
    VelocityColumns(a[1], c0, c1);
    VelocityColumns(a[2], c0, c1);
    VelocityColumns(a[3], c0, c1);
    Equal2(ab[0], [1.0, 0.0]);
    Equal2(ab[1], [0.0, 1.0]);
    Equal2(ab[2], [0.0, -2.0 * n]);
    Equal2(ab[3], [2.0 * n, 0.0]);
  }

  lemma OutOfPlaneProductValue(n: real)
    ensures MatMul(FreeDynamics(Dynamics(OutOfPlane, n)), ControlledDynamics(Dynamics(OutOfPlane, n)), 1)
      == [[1.0], [0.0]]
  {
    var a := FreeDynamics(Dynamics(OutOfPlane, n));
    var b := ControlledDynamics(Dynamics(OutOfPlane, n));
    var ab := MatMul(a, b, 1);
    var c0 := Column(b, 0);
    assert c0 == [0.0, 1.0];
    Dot2(a[0], c0);
    Dot2(a[1], c0);
    assert ab[0] == [1.0];
    assert ab[1] == [0.0];
  }

  lemma ControllabilityMatrixValue(d: Dynamics)
    ensures d.plane == InPlane ==>
      ControllabilityMatrix(d) ==
        [ [0.0, 0.0, 1.0, 0.0],
          [0.0, 0.0, 0.0, 1.0],
          [1.0, 0.0, 0.0, -2.0 * d.n],
          [0.0, 1.0, 2.0 * d.n, 0.0] ]
    ensures d.plane == OutOfPlane ==>
      ControllabilityMatrix(d) == [ [0.0, 1.0], [1.0, 0.0] ]
  {
    if d.plane == InPlane {
      InPlaneControllabilityValue(d.n);
    } else {
      OutOfPlaneControllabilityValue(d.n);
    }
  }

  lemma InPlaneControllabilityValue(n: real)
    ensures ControllabilityMatrix(Dynamics(InPlane, n)) ==
        [ [0.0, 0.0, 1.0, 0.0],
          [0.0, 0.0, 0.0, 1.0],
          [1.0, 0.0, 0.0, -2.0 * n],
          [0.0, 1.0, 2.0 * n, 0.0] ]
  {
    var c := ControllabilityMatrix(Dynamics(InPlane, n));
    InPlaneProductValue(n);
    assert c[0] == [0.0, 0.0] + [1.0, 0.0] == [0.0, 0.0, 1.0, 0.0];
    assert c[1] == [0.0, 0.0] + [0.0, 1.0] == [0.0, 0.0, 0.0, 1.0];
    assert c[2] == [1.0, 0.0] + [0.0, -2.0 * n] == [1.0, 0.0, 0.0, -2.0 * n];
    assert c[3] == [0.0, 1.0] + [2.0 * n, 0.0] == [0.0, 1.0, 2.0 * n, 0.0];
    assert c == [c[0], c[1], c[2], c[3]];
  }

  lemma OutOfPlaneControllabilityValue(n: real)
    ensures ControllabilityMatrix(Dynamics(OutOfPlane, n)) == [ [0.0, 1.0], [1.0, 0.0] ]
  {
    var c := ControllabilityMatrix(Dynamics(OutOfPlane, n));
    OutOfPlaneProductValue(n);
    assert c[0] == [0.0] + [1.0] == [0.0, 1.0];
    assert c[1] == [1.0] + [0.0] == [1.0, 0.0];
    assert c == [c[0], c[1]];
  }

  /** For every orbital rate n, [B | A·B] has full rank (4 in plane, 2 out of plane),
      so the pair (A, B) given to the LQR synthesis is controllable. */
  lemma Controllable(d: Dynamics)
    ensures TrivialKernel(ControllabilityMatrix(d))
  {
    var c := ControllabilityMatrix(d);
    ControllabilityMatrixValue(d);
    forall v | |v| == |c| && MatVec(c, v) == Zeros(|c|)
      ensures v == Zeros(|c|)
    {
      if d.plane == InPlane {
        InPlaneKernel(d.n, c, v);
      } else {
        OutOfPlaneKernel(c, v);
      }
    }
  }

  /** Only the zero vector is sent to zero by the in-plane [B | A·B]. */
  lemma InPlaneKernel(n: real, c: Matrix, v: Vector)
    requires c == [ [0.0, 0.0, 1.0, 0.0],
                    [0.0, 0.0, 0.0, 1.0],
                    [1.0, 0.0, 0.0, -2.0 * n],
                    [0.0, 1.0, 2.0 * n, 0.0] ]
    requires |v| == 4 && MatVec(c, v) == Zeros(4)
    ensures v == Zeros(4)
  {
    var w := MatVec(c, v);
    Dot4(c[0], v); Dot4(c[1], v); Dot4(c[2], v); Dot4(c[3], v);
    assert w[0] == 0.0 && w[1] == 0.0 && w[2] == 0.0 && w[3] == 0.0;
    assert v[2] == 0.0 && v[3] == 0.0;
    Equal4(v, Zeros(4));
  }

  /** Only the zero vector is sent to zero by the out-of-plane [B | A·B]. */
  lemma OutOfPlaneKernel(c: Matrix, v: Vector)
    requires c == [ [0.0, 1.0], [1.0, 0.0] ]
    requires |v| == 2 && MatVec(c, v) == Zeros(2)
    ensures v == Zeros(2)
  {
    var w := MatVec(c, v);
    Dot2(c[0], v); Dot2(c[1], v);
    assert w[0] == 0.0 && w[1] == 0.0;
    Equal2(v, Zeros(2));
  }
}
