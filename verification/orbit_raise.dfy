/** The orbit-raise phase (`OrbitRaise`): a prograde burn where the chaser's orbit crosses the
    direction of the target's periapsis, raising the chaser's far apsis to the desired one. */
module OrbitRaise {
  import opened RealMath
  import opened Outcomes
  import opened OrbitalDynamics
  import opened NodeHelper

  /** The orientation elements both orbits report: argument of periapsis ω and longitude of
      the ascending node Ω, in radians. */
  datatype Orientation = Orientation(argOfPeriapsis: real, longitudeOfAscendingNode: real)

  /** The raw anomaly offset (ω_t + Ω_t) − (ω_c + Ω_c): the target's periapsis direction as a
      true anomaly on the chaser's orbit, for coplanar orbits. */
  function RaiseOffset(target: Orientation, chaser: Orientation): (offset: real)
    ensures offset + (chaser.argOfPeriapsis + chaser.longitudeOfAscendingNode)
         == target.argOfPeriapsis + target.longitudeOfAscendingNode
  {
    target.argOfPeriapsis + target.longitudeOfAscendingNode
      - chaser.argOfPeriapsis - chaser.longitudeOfAscendingNode
  }

  /** The wrap at line 23 of the phase as written: a negative offset gains a turn, and any
      other offset is added to itself. */
  function RaiseAnomalyAsWritten(m: Transcendentals, offset: real): (ta: real)
    ensures offset < 0.0 ==> ta == offset + 2.0 * m.pi
    ensures offset >= 0.0 ==> ta == 2.0 * offset
  {
    offset + (if offset < 0.0 then 2.0 * m.pi else offset)
  }

  /** The evidently intended wrap: a negative offset gains a turn, any other is kept. The
      result names the same direction as the offset, and for an offset above −2π it is
      non-negative; an offset in [−2π, 2π) lands in [0, 2π). */
  function RaiseAnomaly(m: Transcendentals, offset: real): (ta: real)
    ensures ta == offset || ta == offset + 2.0 * m.pi
    ensures offset >= 0.0 ==> ta == offset
    ensures m.pi > 0.0 && -2.0 * m.pi <= offset ==> 0.0 <= ta
    ensures m.pi > 0.0 && -2.0 * m.pi <= offset < 2.0 * m.pi ==> ta < 2.0 * m.pi
  {
    if offset < 0.0 then offset + 2.0 * m.pi else offset
  }

  /** The two wraps agree exactly on negative offsets and at zero; any positive offset is
      doubled as written, so an offset of 1 rad becomes 2 rad instead of staying 1 rad. */
  lemma AsWrittenDoublesOffset(m: Transcendentals, offset: real)
    ensures RaiseAnomalyAsWritten(m, offset) == RaiseAnomaly(m, offset) <==> offset <= 0.0
    ensures offset > 0.0 ==> RaiseAnomalyAsWritten(m, offset) == 2.0 * RaiseAnomaly(m, offset)
    ensures RaiseAnomalyAsWritten(m, 1.0) == 2.0 && RaiseAnomaly(m, 1.0) == 1.0
  {
  }

  /** The burn the phase plans: the true anomaly, the radius there (the new periapsis), the
      absolute time the chaser gets there, and the semi-major axis of the raised orbit. */
  datatype RaisePlan = RaisePlan(trueAnomaly: real, periapsis: real, time: real, semiMajorAxis: real)

  /** The plan for a burn at true anomaly `ta`. The chaser orbit's radius and time at a true
      anomaly come from the game as functions. The raised orbit has the radius at `ta` as its
      periapsis and the desired apoapsis as its apoapsis. */
  function PlanAt(ta: real, radiusAt: real -> real, utAt: real -> real, desiredApoapsis: real): (p: RaisePlan)
    ensures p.trueAnomaly == ta && p.periapsis == radiusAt(ta) && p.time == utAt(ta)
    ensures p.semiMajorAxis - p.periapsis == desiredApoapsis - p.semiMajorAxis
  {
    var r := radiusAt(ta);
    RaisePlan(ta, r, utAt(ta), SemiMajAxisFromApsises(r, desiredApoapsis))
  }

  /** `execute_phase` as written: the plan at the doubled anomaly of line 23. */
  function RaisePlanAsWritten(m: Transcendentals, target: Orientation, chaser: Orientation,
                              radiusAt: real -> real, utAt: real -> real, desiredApoapsis: real): (p: RaisePlan)
    ensures p == PlanAt(RaiseAnomalyAsWritten(m, RaiseOffset(target, chaser)), radiusAt, utAt, desiredApoapsis)
    ensures RaiseOffset(target, chaser) > 0.0 ==> p.trueAnomaly == 2.0 * RaiseOffset(target, chaser)
  {
    PlanAt(RaiseAnomalyAsWritten(m, RaiseOffset(target, chaser)), radiusAt, utAt, desiredApoapsis)
  }

  /** `execute_phase` with the intended wrap: the burn is at the target's periapsis direction. */
  function RaisePlanIntended(m: Transcendentals, target: Orientation, chaser: Orientation,
                             radiusAt: real -> real, utAt: real -> real, desiredApoapsis: real): (p: RaisePlan)
    ensures p == PlanAt(RaiseAnomaly(m, RaiseOffset(target, chaser)), radiusAt, utAt, desiredApoapsis)
    ensures RaiseOffset(target, chaser) >= 0.0 ==> p.trueAnomaly == RaiseOffset(target, chaser)
  {
    PlanAt(RaiseAnomaly(m, RaiseOffset(target, chaser)), radiusAt, utAt, desiredApoapsis)
  }

  /** The node `plan_and_execute_node` adds for a plan: prograde at the plan's absolute time,
      with the Δv that turns the chaser's current semi-major axis into the raised one at the
      burn radius. */
  function RaiseNode(m: Transcendentals, body: CelestialBody, p: RaisePlan, chaserSemiMajorAxis: real, ut: real)
    : (node: ManeuverNode)
    requires p.periapsis != 0.0 && p.semiMajorAxis != 0.0 && chaserSemiMajorAxis != 0.0
    ensures node.ut == p.time
    ensures node.prograde + OrbitalVelocity(m, body, p.periapsis, chaserSemiMajorAxis)
         == OrbitalVelocity(m, body, p.periapsis, p.semiMajorAxis)
    ensures node.normal == 0.0 && node.radial == 0.0
  {
    PlanNode(m, body, p.periapsis, chaserSemiMajorAxis, p.semiMajorAxis, p.time, true, "prograde", ut).value
  }

  /** Raising to the radius the chaser already has at the burn point costs nothing when the
      chaser's orbit is already circular at that radius. */
  lemma NoRaiseNoBurn(m: Transcendentals, body: CelestialBody, p: RaisePlan, ut: real)
    requires p.periapsis != 0.0 && p.semiMajorAxis == p.periapsis
    ensures RaiseNode(m, body, p, p.periapsis, ut).prograde == 0.0
  {
  }
}
