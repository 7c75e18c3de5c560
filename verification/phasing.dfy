/** The phasing phase (`OrbitPhasing`): from the phase offset between target and chaser, the
    period of a phasing orbit that, flown k times, makes up the time difference, the search
    for a k whose phasing orbit stays in a safe band, and the two prograde burns that enter
    the phasing orbit and later leave it. */
module Phasing {
  import opened RealMath
  import opened Outcomes
  import opened OrbitalDynamics
  import opened NodeHelper

  /** The number of phasing orbits `execute_phase` always uses. */
  const DefaultPhasingOrbits: int := 3

  /** The band's upper bound, as a multiple of the target's apoapsis. */
  const ApoapsisMargin: real := 1.3

  /** `behind`: the chaser is behind the target exactly when the phase offset is not negative. */
  predicate Behind(phi: real)
  {
    phi >= 0.0
  }

  /** The target's true anomaly when the chaser reaches apoapsis, less the desired final phase
      (given in degrees), with one turn added if that is negative. */
  function WrapTargetAnomaly(m: Transcendentals, targetTa: real, desiredFinalPhase: real): (ta: real)
    ensures var raw := targetTa - desiredFinalPhase * m.pi / 180.0;
            && (raw < 0.0 ==> ta == raw + 2.0 * m.pi)
            && (raw >= 0.0 ==> ta == raw)
            && (m.pi > 0.0 && raw >= -2.0 * m.pi ==> ta >= 0.0)
  {
    var raw := targetTa - desiredFinalPhase * m.pi / 180.0;
    if raw < 0.0 then raw + 2.0 * m.pi else raw
  }

  /** `phase_difference`: the phase offset for the wrapped target anomaly. */
  function PhaseDifference(m: Transcendentals, targetTa: real, desiredFinalPhase: real,
                           targetArgOfPeriapsis: real, chaserArgOfPeriapsis: real): (phi: real)
    ensures phi + (m.pi + chaserArgOfPeriapsis)
         == WrapTargetAnomaly(m, targetTa, desiredFinalPhase) + targetArgOfPeriapsis
  {
    PhaseOffset(m, WrapTargetAnomaly(m, targetTa, desiredFinalPhase), targetArgOfPeriapsis, chaserArgOfPeriapsis)
  }

  /** `time_difference` of the phase: Kepler's equation for the magnitude |φ| of the offset. */
  function PhasingTimeDifference(m: Transcendentals, phi: real, targetEccentricity: real, targetPeriod: real): (dt: real)
    requires m.pi != 0.0 && targetEccentricity != -1.0
    ensures dt == TimeDifference(m, EccentricAnomalyDifference(m, targetEccentricity, Abs(phi)),
                                 targetEccentricity, targetPeriod)
  {
    var dE := EccentricAnomalyDifference(m, targetEccentricity, Abs(phi));
    TimeDifference(m, dE, targetEccentricity, targetPeriod)
  }

  /** The time difference does not depend on whether the chaser leads or lags. */
  lemma TimeDifferenceIsSignFree(m: Transcendentals, phi: real, e: real, targetPeriod: real)
    requires m.pi != 0.0 && e != -1.0
    ensures PhasingTimeDifference(m, phi, e, targetPeriod) == PhasingTimeDifference(m, -phi, e, targetPeriod)
  {
    assert Abs(phi) == Abs(-phi);
  }

  /** `compute_phasing_period`: a chaser behind flies k shorter orbits, one ahead k longer
      ones, the difference per orbit being Δt/k. */
  function ComputePhasingPeriod(targetPeriod: real, deltaT: real, behind: bool, k: int): (period: real)
    requires k != 0
    ensures behind ==> (targetPeriod - period) * k as real == deltaT
    ensures !behind ==> (period - targetPeriod) * k as real == deltaT
  {
    var d := deltaT / k as real;
    assert d * k as real == deltaT;
    if behind then targetPeriod - d else targetPeriod + d
  }

  /** Flying k phasing orbits while the target flies k of its own makes up exactly the time
      difference: k·T_phasing = k·T_target ∓ Δt. More orbits bring the phasing period closer
      to the target's. */
  lemma PhasingMakesUpDifference(targetPeriod: real, deltaT: real, behind: bool, k: int, k': int)
    requires 0 < k <= k' && deltaT >= 0.0
    ensures var p := ComputePhasingPeriod(targetPeriod, deltaT, behind, k);
            k as real * p == k as real * targetPeriod + (if behind then -deltaT else deltaT)
    ensures Abs(ComputePhasingPeriod(targetPeriod, deltaT, behind, k') - targetPeriod)
         <= Abs(ComputePhasingPeriod(targetPeriod, deltaT, behind, k) - targetPeriod)
  {
    var d := deltaT / k as real;
    var d' := deltaT / k' as real;
    assert d * k as real == deltaT;
    assert d' * k' as real == deltaT;
    assert d >= 0.0 && d' >= 0.0 by {
      DivMonotone(0.0, deltaT, k as real);
      DivMonotone(0.0, deltaT, k' as real);
    }
    assert d' <= d by {
      assert d' * k' as real == d * k as real;
      assert (d - d') * k as real == d' * (k' - k) as real;
      assert d' * (k' - k) as real >= 0.0;
      NonnegativeFactor(d - d', k as real);
    }
  }

  lemma NonnegativeFactor(x: real, k: real)
    requires k > 0.0 && x * k >= 0.0
    ensures x >= 0.0
  {
    DivMonotone(0.0, x * k, k);
    assert (x * k) / k == x;
  }

  /** The apsis opposite the chaser's apoapsis on an orbit of the given period lies in the band
      `update_phasing_period` accepts: at least 100 km above the equatorial radius and at most
      1.3 times the target's apoapsis. */
  predicate InBand(m: Transcendentals, body: CelestialBody, period: real, chaserApoapsis: real, targetApoapsis: real)
    requires m.pi != 0.0
  {
    var apsis := ApsisFromPeriodAnd2ndApsis(m, body, period, chaserApoapsis);
    !(apsis < body.equatorialRadius + SafetyAltitude || apsis > targetApoapsis * ApoapsisMargin)
  }

  /** Inside the band, the phasing orbit passes the validity check except exactly on the lower
      edge, which the band admits and the check does not. */
  lemma InBandIsValid(m: Transcendentals, body: CelestialBody, period: real, chaserApoapsis: real, targetApoapsis: real)
    requires m.pi != 0.0
    requires InBand(m, body, period, chaserApoapsis, targetApoapsis)
    ensures PhasingPeriodValidity(m, body, period, chaserApoapsis)
        <==> ApsisFromPeriodAnd2ndApsis(m, body, period, chaserApoapsis) != body.equatorialRadius + SafetyAltitude
  {
  }

  /** The period `update_phasing_period` tries for orbit count j: the one already computed
      for j = 1, and the freshly computed one afterwards. */
  function Candidate(targetPeriod: real, deltaT: real, behind: bool, initialPeriod: real, j: int): real
    requires j >= 1
  {
    if j == 1 then initialPeriod else ComputePhasingPeriod(targetPeriod, deltaT, behind, j)
  }

  /** `update_phasing_period`: starting from k = 1 and the current phasing period, adds one
      phasing orbit at a time until the phasing orbit lies in the band. Every count tried
      before the returned one was rejected, so the returned count is the first that fits.
      The source loops without bound; here the search gives up after `fuel` extra orbits. */
  method UpdatePhasingPeriod(m: Transcendentals, body: CelestialBody, targetPeriod: real, deltaT: real, behind: bool,
                             initialPeriod: real, chaserApoapsis: real, targetApoapsis: real, fuel: nat)
    returns (k: int, period: real, settled: bool)
    requires m.pi != 0.0
    ensures 1 <= k <= fuel + 1
    ensures period == Candidate(targetPeriod, deltaT, behind, initialPeriod, k)
    ensures settled <==> InBand(m, body, period, chaserApoapsis, targetApoapsis)
    ensures !settled ==> k == fuel + 1
    ensures forall j :: 1 <= j < k ==>
      !InBand(m, body, Candidate(targetPeriod, deltaT, behind, initialPeriod, j), chaserApoapsis, targetApoapsis)
  {
    k := 1;
    period := initialPeriod;
    var apsis := ApsisFromPeriodAnd2ndApsis(m, body, period, chaserApoapsis);
    while apsis < body.equatorialRadius + SafetyAltitude || apsis > targetApoapsis * ApoapsisMargin
      invariant 1 <= k <= fuel + 1
      invariant period == Candidate(targetPeriod, deltaT, behind, initialPeriod, k)
      invariant apsis == ApsisFromPeriodAnd2ndApsis(m, body, period, chaserApoapsis)
      invariant forall j :: 1 <= j < k ==>
        !InBand(m, body, Candidate(targetPeriod, deltaT, behind, initialPeriod, j), chaserApoapsis, targetApoapsis)
      decreases fuel + 1 - k
    {
      if k == fuel + 1 {
        settled := false;
        return;
      }
      k := k + 1;
      period := ComputePhasingPeriod(targetPeriod, deltaT, behind, k);
      apsis := ApsisFromPeriodAnd2ndApsis(m, body, period, chaserApoapsis);
    }
    settled := true;
  }

  /** The time, from when it is planned, of the burn that leaves the phasing orbit: at the next
      apoapsis for a chaser behind, at the next periapsis for one ahead, after n − 1 further
      phasing orbits. */
  function CircManeuverTime(behind: bool, timeToApoapsis: real, timeToPeriapsis: real,
                            phasingPeriod: real, phasingOrbits: int): (t: real)
    ensures behind ==> t - timeToApoapsis == phasingPeriod * (phasingOrbits - 1) as real
    ensures !behind ==> t - timeToPeriapsis == phasingPeriod * (phasingOrbits - 1) as real
  {
    (if behind then timeToApoapsis else timeToPeriapsis) + phasingPeriod * (phasingOrbits - 1) as real
  }

  /** The semi-major axis the second burn aims for: the target's, less twice the height by
      which the target's apoapsis exceeds the desired one. With no such height it is the
      target's own semi-major axis. */
  function CircSemiMajorAxis(targetSemiMajorAxis: real, targetApoapsis: real, desiredApoapsis: real): (a: real)
    ensures targetSemiMajorAxis - a == 2.0 * (targetApoapsis - desiredApoapsis)
    ensures desiredApoapsis == targetApoapsis ==> a == targetSemiMajorAxis
    ensures desiredApoapsis < targetApoapsis ==> a < targetSemiMajorAxis
  {
    targetSemiMajorAxis - 2.0 * (targetApoapsis - desiredApoapsis)
  }

  /** What `execute_phase` reads before the first burn. */
  datatype PhasingObservation = PhasingObservation(
    ut: real,
    timeToApoapsis: real,
    targetTaAtChaserApoapsis: real,
    targetArgOfPeriapsis: real,
    chaserArgOfPeriapsis: real,
    targetEccentricity: real,
    targetPeriod: real)

  /** The numbers `execute_phase` derives: phase offset, lead or lag, time difference,
      phasing period over three orbits and the phasing orbit's semi-major axis. */
  datatype PhasingPlan = PhasingPlan(phi: real, behind: bool, deltaT: real, period: real, semiMajorAxis: real)

  /** `execute_phase` up to the burns, on the default path with three phasing orbits. */
  function PlanPhasing(m: Transcendentals, body: CelestialBody, obs: PhasingObservation, desiredFinalPhase: real)
    : (p: PhasingPlan)
    requires m.pi != 0.0 && obs.targetEccentricity != -1.0
    ensures p.phi == PhaseDifference(m, obs.targetTaAtChaserApoapsis, desiredFinalPhase,
                                     obs.targetArgOfPeriapsis, obs.chaserArgOfPeriapsis)
    ensures p.behind <==> Behind(p.phi)
    ensures p.deltaT == PhasingTimeDifference(m, p.phi, obs.targetEccentricity, obs.targetPeriod)
    ensures p.period == ComputePhasingPeriod(obs.targetPeriod, p.deltaT, p.behind, DefaultPhasingOrbits)
    ensures p.semiMajorAxis == SemiMajAxisFromPeriod(m, body, p.period)
  {
    var phi := PhaseDifference(m, obs.targetTaAtChaserApoapsis, desiredFinalPhase,
                               obs.targetArgOfPeriapsis, obs.chaserArgOfPeriapsis);
    var deltaT := PhasingTimeDifference(m, phi, obs.targetEccentricity, obs.targetPeriod);
    var period := ComputePhasingPeriod(obs.targetPeriod, deltaT, Behind(phi), DefaultPhasingOrbits);
    PhasingPlan(phi, Behind(phi), deltaT, period, SemiMajAxisFromPeriod(m, body, period))
  }

  /** What the second burn's planning reads once the first burn is done. */
  datatype AfterFirstBurn = AfterFirstBurn(ut: real, timeToApoapsis: real, timeToPeriapsis: real,
                                           semiMajorAxis: real, targetSemiMajorAxis: real, targetApoapsis: real)

  /** `execute_phasing_maneuvers`: a prograde burn at the desired apoapsis into the phasing
      orbit at the next apoapsis, then a prograde burn out of it after the remaining phasing
      orbits, towards the circularisation semi-major axis. */
  function PhasingNodes(m: Transcendentals, body: CelestialBody, p: PhasingPlan, obs: PhasingObservation,
                        chaserSemiMajorAxis: real, desiredApoapsis: real, after: AfterFirstBurn)
    : (nodes: (ManeuverNode, ManeuverNode))
    requires desiredApoapsis != 0.0 && chaserSemiMajorAxis != 0.0 && p.semiMajorAxis != 0.0
    requires after.semiMajorAxis != 0.0
    requires CircSemiMajorAxis(after.targetSemiMajorAxis, after.targetApoapsis, desiredApoapsis) != 0.0
    ensures nodes.0.ut == obs.ut + obs.timeToApoapsis
    ensures nodes.0.prograde + OrbitalVelocity(m, body, desiredApoapsis, chaserSemiMajorAxis)
         == OrbitalVelocity(m, body, desiredApoapsis, p.semiMajorAxis)
    ensures nodes.1.ut == after.ut + CircManeuverTime(p.behind, after.timeToApoapsis, after.timeToPeriapsis,
                                                      p.period, DefaultPhasingOrbits)
    ensures nodes.1.prograde + OrbitalVelocity(m, body, desiredApoapsis, after.semiMajorAxis)
         == OrbitalVelocity(m, body, desiredApoapsis,
                            CircSemiMajorAxis(after.targetSemiMajorAxis, after.targetApoapsis, desiredApoapsis))
    ensures nodes.0.normal == nodes.0.radial == nodes.1.normal == nodes.1.radial == 0.0
  {
    var first := PlanNode(m, body, desiredApoapsis, chaserSemiMajorAxis, p.semiMajorAxis,
                          obs.timeToApoapsis, false, "prograde", obs.ut);
    var circTime := CircManeuverTime(p.behind, after.timeToApoapsis, after.timeToPeriapsis,
                                     p.period, DefaultPhasingOrbits);
    var second := PlanNode(m, body, desiredApoapsis, after.semiMajorAxis,
                           CircSemiMajorAxis(after.targetSemiMajorAxis, after.targetApoapsis, desiredApoapsis),
                           circTime, false, "prograde", after.ut);
    (first.value, second.value)
  }
}
