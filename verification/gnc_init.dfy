/** The GNC wiring (`GNCInit.init_gnc_classes`): one orbital rate, computed from the target's
    semi-major axis, shared by both dynamics models and the CW guidance; one LQR cost shared
    by both controllers; three smooth profiles on one set of guidance parameters. */
module GncInit {
  import opened RealMath
  import opened LinearAlgebra
  import opened CwDynamics
  import opened Lqr
  import opened GuidanceProfiles
  import opened Guidance
  import opened OrbitalDynamics

  /** The state and control weights of both controllers. */
  const StateCost: real := 1000.0
  const ControlCost: real := 100000.0

  /** `GNCHelper`: the five components, stored as given (navigation carries no state here). */
  datatype GncHelper = GncHelper(
    inPlaneController: LqrControl,
    outOfPlaneController: LqrControl,
    smoothGuidance: SmoothGuidance,
    cwGuidance: CwGuidance)

  /** `init_gnc_classes`. */
  function InitGnc(m: Transcendentals, body: CelestialBody, targetSemiMajorAxis: real, solve: LqrSolver): (h: GncHelper)
    requires targetSemiMajorAxis != 0.0
    ensures var n := OrbitalRate(m, body, targetSemiMajorAxis);
            && h.inPlaneController.dynamics == Dynamics(InPlane, n)
            && h.outOfPlaneController.dynamics == Dynamics(OutOfPlane, n)
            && h.cwGuidance.n == n
    ensures h.inPlaneController.costs == h.outOfPlaneController.costs == LqrCost(StateCost, ControlCost)
    ensures h.inPlaneController.gain == solve(ProblemOf(LqrCost(StateCost, ControlCost), h.inPlaneController.dynamics))
    ensures h.outOfPlaneController.gain == solve(ProblemOf(LqrCost(StateCost, ControlCost), h.outOfPlaneController.dynamics))
    ensures |h.smoothGuidance.profiles| == 3
    ensures forall i :: 0 <= i < 3 ==>
      h.smoothGuidance.profiles[i] == NewSmoothProfile(StandardParameters())
  {
    var n := OrbitalRate(m, body, targetSemiMajorAxis);
    var inPlane := Dynamics(InPlane, n);
    var outOfPlane := Dynamics(OutOfPlane, n);
    var cost := LqrCost(StateCost, ControlCost);
    var profile := NewSmoothProfile(StandardParameters());
    GncHelper(
      Synthesize(cost, inPlane, solve),
      Synthesize(cost, outOfPlane, solve),
      SmoothGuidance([profile, profile, profile]),
      CwGuidance(n))
  }

  /** What the wiring guarantees downstream: one orbital rate throughout, and three profiles
      carrying the standard quintic, whose velocity polynomial is the derivative of its
      position polynomial. (Both Riccati problems are controllable for any rate, by
      `CwDynamics.Controllable`.) */
  lemma InitGncConsistent(m: Transcendentals, body: CelestialBody, targetSemiMajorAxis: real, solve: LqrSolver)
    requires targetSemiMajorAxis != 0.0
    ensures var h := InitGnc(m, body, targetSemiMajorAxis, solve);
            && h.inPlaneController.dynamics.n == h.outOfPlaneController.dynamics.n == h.cwGuidance.n
            && forall i :: 0 <= i < 3 ==>
                 FormalDerivative(h.smoothGuidance.profiles[i].normalizedPos)
                   == h.smoothGuidance.profiles[i].normalizedVel
  {
    StandardCoefficientsChain();
  }
}
