/** The continuous LQR controller: the weighting matrices handed to the Riccati solver,
    and the feedback law u = −K·(x − r). The solver itself is foreign numerical code, so
    it enters as a parameter and the gain K it returns is opaque. */
module Lqr {
  import opened LinearAlgebra
  import opened CwDynamics
  import opened RelativeStates

  /** `LQRCost`: scalar state and control weights. */
  datatype LqrCost = LqrCost(q: real, r: real)

  /** The four arguments of the Riccati solve: A, B, Q and R. */
  datatype LqrProblem = LqrProblem(a: Matrix, b: Matrix, q: Matrix, r: Matrix)

  /** A Riccati solver returning a feedback gain for a problem. */
  type LqrSolver = LqrProblem -> Matrix

  /** A synthesised controller: the costs and dynamics it was built from, and its gain. */
  datatype LqrControl = LqrControl(costs: LqrCost, dynamics: Dynamics, gain: Matrix)

  /** The problem `LQRControl.__init__` poses: Q = costs.Q·I sized by the rows of A,
      R = costs.R·I sized by the columns of B. */
  function ProblemOf(costs: LqrCost, d: Dynamics): (p: LqrProblem)
    ensures p.a == FreeDynamics(d) && p.b == ControlledDynamics(d)
    ensures IsMatrix(p.q, StateCount(d.plane), StateCount(d.plane))
    ensures IsMatrix(p.r, InputCount(d.plane), InputCount(d.plane))
  {
    var a := FreeDynamics(d);
    var b := ControlledDynamics(d);
    LqrProblem(a, b, ScaledIdentity(costs.q, |a|), ScaledIdentity(costs.r, |b[0]|))
  }

  /** Q weighs every state component by costs.Q alone and R every input by costs.R alone,
      and the pair (A, B) the solver receives is controllable. */
  lemma ProblemWeights(costs: LqrCost, d: Dynamics, x: Vector, u: Vector)
    requires |x| == StateCount(d.plane) && |u| == InputCount(d.plane)
    ensures MatVec(ProblemOf(costs, d).q, x) == Scale(costs.q, x)
    ensures MatVec(ProblemOf(costs, d).r, u) == Scale(costs.r, u)
    ensures TrivialKernel(ControllabilityMatrix(d))
  {
    ScaledIdentityActs(costs.q, x);
    ScaledIdentityActs(costs.r, u);
    Controllable(d);
  }

  /** `LQRControl(costs, dynamics)`: the gain is whatever the solver returns for the posed problem,
      whose A and B are the plane's dynamics and whose Q and R are square of the matching sizes. */
  function Synthesize(costs: LqrCost, d: Dynamics, solve: LqrSolver): (c: LqrControl)
    ensures c.costs == costs && c.dynamics == d
    ensures exists p: LqrProblem ::
      c.gain == solve(p) && p.a == FreeDynamics(d) && p.b == ControlledDynamics(d)
      && IsMatrix(p.q, StateCount(d.plane), StateCount(d.plane))
      && IsMatrix(p.r, InputCount(d.plane), InputCount(d.plane))
  {
    LqrControl(costs, d, solve(ProblemOf(costs, d)))
  }

  /** `LQRControl.control`: the command −K·(state − ref); it has one entry per gain row. */
  function Control(c: LqrControl, state: Vector, ref: Vector): (u: Vector)
    requires |state| == |ref| && HasCols(c.gain, |state|)
    ensures |u| == |c.gain|
  {
    Neg(MatVec(c.gain, Sub(state, ref)))
  }

  /** At the reference the command is zero. */
  lemma ControlAtReference(c: LqrControl, state: Vector)
    requires HasCols(c.gain, |state|)
    ensures Control(c, state, state) == Zeros(|c.gain|)
  {
    assert Sub(state, state) == Zeros(|state|);
    MatVecZeros(c.gain, |state|);
  }

  /** Homogeneity: scaling the tracking error by k scales the command by k. */
  lemma ControlScales(c: LqrControl, state: Vector, ref: Vector, state': Vector, ref': Vector, k: real)
    requires |state| == |ref| == |state'| == |ref'| && HasCols(c.gain, |state|)
    requires Sub(state', ref') == Scale(k, Sub(state, ref))
    ensures Control(c, state', ref') == Scale(k, Control(c, state, ref))
  {
    var e := Sub(state, ref);
    MatVecScale(c.gain, e, k);
    var y := MatVec(c.gain, e);
    var lhs := Neg(Scale(k, y));
    var rhs := Scale(k, Neg(y));
    forall i | 0 <= i < |y|
      ensures lhs[i] == rhs[i]
    {
      assert lhs[i] == -(k * y[i]);
      assert rhs[i] == k * (-y[i]);
    }
    assert lhs == rhs;
  }

  /** Additivity: the command for a sum of errors is the sum of the commands. */
  lemma ControlAdds(c: LqrControl, e1: Vector, e2: Vector, ref: Vector)
    requires |e1| == |e2| == |ref| && HasCols(c.gain, |ref|)
    ensures Control(c, Add(ref, Add(e1, e2)), ref)
         == Add(Control(c, Add(ref, e1), ref), Control(c, Add(ref, e2), ref))
  {
    assert Sub(Add(ref, Add(e1, e2)), ref) == Add(e1, e2);
    assert Sub(Add(ref, e1), ref) == e1;
    assert Sub(Add(ref, e2), ref) == e2;
    MatVecAdd(c.gain, e1, e2);
  }

  /** Shifting state and reference by the same vector leaves the command unchanged. */
  lemma ControlTranslationInvariant(c: LqrControl, state: Vector, ref: Vector, shift: Vector)
    requires |state| == |ref| == |shift| && HasCols(c.gain, |state|)
    ensures Control(c, Add(state, shift), Add(ref, shift)) == Control(c, state, ref)
  {
    assert Sub(Add(state, shift), Add(ref, shift)) == Sub(state, ref);
  }

  /** The gains have the shapes the mission phases index into when they assemble the command
      (u_in[0], u_in[1], u_out) from a 4-state in-plane and a 2-state out-of-plane controller. */
  predicate CommandGains(inPlane: LqrControl, outOfPlane: LqrControl)
  {
    HasCols(inPlane.gain, 4) && |inPlane.gain| >= 2 && HasCols(outOfPlane.gain, 2) && |outOfPlane.gain| == 1
  }

  /** The three-axis LVLH command both closed-loop phases send: the two in-plane inputs and
      the single out-of-plane input, for a navigation state tracking a reference. */
  function Command(inPlane: LqrControl, outOfPlane: LqrControl, x: PlaneStates, ref: PlaneStates): (u: Vector)
    requires CommandGains(inPlane, outOfPlane) && Valid(x) && Valid(ref)
    ensures |u| == 3
    ensures u[0] == Control(inPlane, x.inPlane, ref.inPlane)[0]
    ensures u[1] == Control(inPlane, x.inPlane, ref.inPlane)[1]
    ensures u[2] == Control(outOfPlane, x.outOfPlane, ref.outOfPlane)[0]
  {
    var uIn := Control(inPlane, x.inPlane, ref.inPlane);
    var uOut := Control(outOfPlane, x.outOfPlane, ref.outOfPlane);
    [uIn[0], uIn[1], uOut[0]]
  }

  /** On the reference, the assembled command is zero on all three axes. */
  lemma CommandAtReference(inPlane: LqrControl, outOfPlane: LqrControl, x: PlaneStates)
    requires CommandGains(inPlane, outOfPlane) && Valid(x)
    ensures Command(inPlane, outOfPlane, x, x) == [0.0, 0.0, 0.0]
  {
    ControlAtReference(inPlane, x.inPlane);
    ControlAtReference(outOfPlane, x.outOfPlane);
    Equal3(Command(inPlane, outOfPlane, x, x), [0.0, 0.0, 0.0]);
  }
}
