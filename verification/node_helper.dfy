/** Manoeuvre-node helpers (`NodeHelper`): where and how a node is added, the throttle law
    of node execution, the Tsiolkovsky burn time, and the Δv step of planning a node. */
module NodeHelper {
  import opened RealMath
  import opened Outcomes
  import opened OrbitalDynamics

  /** A manoeuvre node: absolute universal time and Δv in each orbital direction. */
  datatype ManeuverNode = ManeuverNode(ut: real, prograde: real, normal: real, radial: real)

  /** The three direction names `add_node` accepts. */
  const Directions: set<string> := {"prograde", "normal", "radial"}

  /** The Δv a node carries in a named direction. */
  function Component(node: ManeuverNode, direction: string): real
    requires direction in Directions
  {
    if direction == "prograde" then node.prograde
    else if direction == "normal" then node.normal
    else node.radial
  }

  /** `add_node`: a relative time is counted from the current universal time `ut`; the Δv goes
      into the named direction only; any other name is an error and no node is added. */
  function AddNode(dv: real, time: real, absolute: bool, direction: string, ut: real): (r: Result<ManeuverNode>)
    ensures r.Err? <==> direction !in Directions
    ensures r.Err? ==> r.error == InvalidDirection
    ensures r.Ok? ==> r.value.ut == (if absolute then time else time + ut)
    ensures r.Ok? ==> Component(r.value, direction) == dv
    ensures r.Ok? ==> forall other :: other in Directions && other != direction ==> Component(r.value, other) == 0.0
  {
    var t := if absolute then time else time + ut;
    if direction == "prograde" then Ok(ManeuverNode(t, dv, 0.0, 0.0))
    else if direction == "normal" then Ok(ManeuverNode(t, 0.0, dv, 0.0))
    else if direction == "radial" then Ok(ManeuverNode(t, 0.0, 0.0, dv))
    else Err(InvalidDirection)
  }

  /** A relative node time t at universal time ut and the absolute time t + ut add the same node. */
  lemma AddNodeRelativeIsAbsolute(dv: real, time: real, direction: string, ut: real, otherUt: real)
    ensures AddNode(dv, time, false, direction, ut) == AddNode(dv, time + ut, true, direction, otherUt)
  {
  }

  /** `thrust_controller`: full throttle while more than one second of full-thrust burn
      remains, then log10(9·ratio + 1), which falls from 1 to 0 as the ratio does. */
  function ThrustController(m: Transcendentals, availableThrust: real, mass: real, remainingDv: real): (throttle: real)
    requires mass != 0.0 && availableThrust != 0.0
    ensures remainingDv / (availableThrust / mass) > 1.0 ==> throttle == 1.0
    ensures LogLaws(m) && 0.0 <= remainingDv / (availableThrust / mass) <= 1.0 ==> 0.0 <= throttle <= 1.0
  {
    var twr := availableThrust / mass;
    var ratio := remainingDv / twr;
    if ratio > 1.0 then 1.0 else
      LogInUnitInterval(m, ratio);
      Log10(m, ratio * 9.0 + 1.0)
  }

  lemma LogInUnitInterval(m: Transcendentals, ratio: real)
    ensures LogLaws(m) && 0.0 <= ratio <= 1.0 ==> 0.0 <= Log10(m, ratio * 9.0 + 1.0) <= 1.0
  {
    if LogLaws(m) && 0.0 <= ratio <= 1.0 {
      assert 1.0 <= ratio * 9.0 + 1.0 <= 10.0;
    }
  }

  /** With a monotone log10 and positive thrust-to-weight, more remaining Δv never lowers the throttle. */
  lemma ThrottleMonotone(m: Transcendentals, availableThrust: real, mass: real, dv1: real, dv2: real)
    requires mass > 0.0 && availableThrust > 0.0
    requires LogLaws(m)
    requires 0.0 <= dv1 <= dv2
    ensures ThrustController(m, availableThrust, mass, dv1) <= ThrustController(m, availableThrust, mass, dv2)
  {
    var twr := availableThrust / mass;
    assert twr > 0.0;
    var r1 := dv1 / twr;
    var r2 := dv2 / twr;
    DivMonotone(dv1, dv2, twr);
    DivMonotone(0.0, dv1, twr);
    if r2 <= 1.0 {
      assert 0.0 < r1 * 9.0 + 1.0 <= r2 * 9.0 + 1.0;
    } else if r1 <= 1.0 {
      LogInUnitInterval(m, r1);
    }
  }

  /** `next_node_burn_time`: the Tsiolkovsky burn time (m − m/e^(Δv/(Isp·g₀)))/(F/(Isp·g₀)). */
  function NextNodeBurnTime(m: Transcendentals, mass: real, isp: real, dv: real, availableThrust: real,
                            surfaceGravity: real): (burnTime: real)
    requires ExpLaws(m)
    requires isp * surfaceGravity != 0.0 && availableThrust != 0.0
    ensures dv == 0.0 ==> burnTime == 0.0
    ensures dv >= 0.0 && mass >= 0.0 && isp * surfaceGravity > 0.0 && availableThrust > 0.0 ==> burnTime >= 0.0
  {
    var ve := isp * surfaceGravity;
    var e := Exp(m, dv / ve);
    BurnedMassNonnegative(m, mass, dv, ve);
    (mass - mass / e) / (availableThrust / ve)
  }

  /** The propellant mass m − m/e^(Δv/vₑ) is zero for no Δv and never negative for a
      non-negative Δv and a positive exhaust velocity. */
  lemma BurnedMassNonnegative(m: Transcendentals, mass: real, dv: real, ve: real)
    requires ExpLaws(m) && ve != 0.0
    ensures dv == 0.0 ==> mass - mass / Exp(m, dv / ve) == 0.0
    ensures dv >= 0.0 && mass >= 0.0 && ve > 0.0 ==> mass - mass / Exp(m, dv / ve) >= 0.0
  {
    var e := Exp(m, dv / ve);
    if dv == 0.0 {
      assert dv / ve == 0.0;
    }
    if dv >= 0.0 && mass >= 0.0 && ve > 0.0 {
      assert dv / ve >= 0.0;
      assert e >= 1.0;
      assert mass - mass / e == mass * (e - 1.0) / e;
      assert mass * (e - 1.0) >= 0.0;
    }
  }

  /** `plan_and_execute_node` up to execution: the Δv changing the current semi-major axis into
      the new one at the given radius, put into a node. */
  function PlanNode(m: Transcendentals, body: CelestialBody, radius: real, currentSemiMajorAxis: real,
                    newSemiMajorAxis: real, time: real, absolute: bool, direction: string, ut: real): (r: Result<ManeuverNode>)
    requires radius != 0.0 && currentSemiMajorAxis != 0.0 && newSemiMajorAxis != 0.0
    ensures r.Err? <==> direction !in Directions
    ensures r.Ok? ==> Component(r.value, direction) + OrbitalVelocity(m, body, radius, currentSemiMajorAxis)
                      == OrbitalVelocity(m, body, radius, newSemiMajorAxis)
  {
    AddNode(DeltaV(m, body, radius, currentSemiMajorAxis, newSemiMajorAxis), time, absolute, direction, ut)
  }
}
