/** The homing phase (`Homing`): a Clohessy–Wiltshire Hohmann transfer from a lower orbit to a
    hold point 1 km behind the target, tracked by the LQR controllers between a quarter and
    half of the target period, with one recirculation burn once half the period has passed.
    The loop is modelled over a finite sequence of telemetry samples, one per cycle. */
module Homing {
  import opened RealMath
  import opened LinearAlgebra
  import opened Outcomes
  import opened RelativeStates
  import opened Navigation
  import opened Guidance
  import opened Lqr
  import opened NodeHelper

  /** The along-track coordinate of the hold point, in metres. */
  const FinalAlongTrack: real := 1000.0

  /** Seconds from "now" at which both homing burns are placed. */
  const BurnDelay: real := 5.0

  /** `cw_hohmann_transfer`'s result: the along-track start y_i, the height difference Δh,
      the Δv of each burn, and the along-track distance ΔY the transfer covers. */
  datatype Transfer = Transfer(yI: real, deltaH: real, deltaV: real, deltaY: real)

  /** The target's mean motion w = 2π/T. */
  function TargetRate(m: Transcendentals, targetPeriod: real): (w: real)
    requires targetPeriod != 0.0
    ensures w * targetPeriod == 2.0 * m.pi
  {
    2.0 * m.pi / targetPeriod
  }

  /** `cw_hohmann_transfer`: a chaser above the target is an error; otherwise the transfer
      climbs Δh = r_target − r_chaser, each burn is w/4·Δh, and it starts ΔY = 3π/4·Δh
      before the hold point, so that start plus drift lands exactly on it. */
  function CwHohmannTransfer(m: Transcendentals, targetPeriod: real, targetRadius: real, chaserRadius: real)
    : (r: Result<Transfer>)
    requires targetPeriod != 0.0
    ensures r.Err? <==> targetRadius < chaserRadius
    ensures r.Err? ==> r.error == GeometryViolation
    ensures r.Ok? ==>
      && r.value.deltaH == targetRadius - chaserRadius >= 0.0
      && r.value.deltaY * 4.0 == r.value.deltaH * 3.0 * m.pi
      && r.value.deltaV * 4.0 == TargetRate(m, targetPeriod) * r.value.deltaH
      && r.value.yI + r.value.deltaY == FinalAlongTrack
    ensures r.Ok? && m.pi >= 0.0 ==> r.value.yI <= FinalAlongTrack
  {
    var w := TargetRate(m, targetPeriod);
    var deltaH := targetRadius - chaserRadius;
    if deltaH < 0.0 then Err(GeometryViolation)
    else
      var deltaY := Abs(deltaH) * 3.0 * m.pi / 4.0;
      var deltaV := w / 4.0 * Abs(deltaH);
      Ok(Transfer(FinalAlongTrack - deltaY, deltaH, deltaV, deltaY))
  }

  /** The initial position of the reference drift: Δh below the target, at y_i. */
  function SeedPos(t: Transfer): (p: Vector)
    ensures |p| == 3
  {
    [Abs(t.deltaH), t.yI, 0.0]
  }

  /** The initial velocity of the reference drift: 7w/4·Δh along track. */
  function SeedVel(w: real, t: Transfer): (v: Vector)
    ensures |v| == 3
  {
    [0.0, 7.0 * w / 4.0 * Abs(t.deltaH), 0.0]
  }

  /** The seed's along-track speed is the relative drift 3/2·w·Δh of a circular orbit Δh
      lower plus the first burn's Δv. */
  lemma SeedIsDriftPlusBurn(m: Transcendentals, targetPeriod: real, targetRadius: real, chaserRadius: real)
    requires targetPeriod != 0.0
    requires CwHohmannTransfer(m, targetPeriod, targetRadius, chaserRadius).Ok?
    ensures var t := CwHohmannTransfer(m, targetPeriod, targetRadius, chaserRadius).value;
            var w := TargetRate(m, targetPeriod);
            SeedVel(w, t)[1] == 3.0 / 2.0 * w * t.deltaH + t.deltaV
  {
  }

  /** Each homing burn: Δv prograde, five seconds from the current universal time, exactly
      the node `add_node` makes for those arguments. */
  function TransferBurn(deltaV: real, ut: real): (node: ManeuverNode)
    ensures AddNode(deltaV, BurnDelay, false, "prograde", ut) == Ok(node)
    ensures node == ManeuverNode(ut + BurnDelay, deltaV, 0.0, 0.0)
  {
    ManeuverNode(BurnDelay + ut, deltaV, 0.0, 0.0)
  }

  /** The closed-form drift from a seed at rest radially with along-track speed 7n/4·x₀, at
      the time its phase reaches a half turn (cosine −1, sine 0): the chaser is back at zero
      radial offset and radial rate, has drifted 3π/4·x₀ along track and moves backwards at
      n/4·x₀. */
  lemma {:induction false} HalfTurnOfSeed(n: real, c: real, s: real, tau: real, pi: real, pos: Vector, vel: Vector)
    requires n != 0.0 && n * tau == pi && c == -1.0 && s == 0.0
    requires |pos| == 3 && |vel| == 3
    requires pos[2] == 0.0 && vel[0] == 0.0 && vel[2] == 0.0 && vel[1] == 7.0 * n / 4.0 * pos[0]
    ensures var r := CwClosedForm(n, c, s, tau, pos, vel);
            && r.inPlane[0] == 0.0 && r.inPlane[1] == pos[1] + 3.0 * pi / 4.0 * pos[0]
            && r.inPlane[2] == 0.0 && r.inPlane[3] == -(n * pos[0] / 4.0)
            && r.outOfPlane[0] == 0.0 && r.outOfPlane[1] == 0.0
  {
    var x0 := pos[0];
    var yd0 := vel[1];
    assert 2.0 * yd0 / n == 7.0 / 2.0 * x0;
    assert 4.0 * yd0 / n == 7.0 * x0;
    assert (6.0 * n * x0 - 3.0 * yd0) * tau == 3.0 / 4.0 * x0 * (n * tau);
  }

  /** The hold point: with a guidance rate equal to the target's mean motion, the reference
      at half the target period sits at (0, 1000 m, 0) with zero radial and cross-track rate,
      and its remaining along-track rate is exactly cancelled by the recirculation burn's Δv. */
  lemma HoldPoint(m: Transcendentals, g: CwGuidance, targetPeriod: real, targetRadius: real, chaserRadius: real)
    requires targetPeriod != 0.0 && TrigAtHalfTurn(m)
    requires g.n == TargetRate(m, targetPeriod)
    requires CwHohmannTransfer(m, targetPeriod, targetRadius, chaserRadius).Ok?
    ensures var t := CwHohmannTransfer(m, targetPeriod, targetRadius, chaserRadius).value;
            var ref := CwReference(g, m, SeedPos(t), SeedVel(g.n, t), targetPeriod / 2.0);
            && ref.inPlane[0] == 0.0 && ref.inPlane[1] == FinalAlongTrack
            && ref.inPlane[2] == 0.0 && ref.inPlane[3] + t.deltaV == 0.0
            && ref.outOfPlane[0] == 0.0 && ref.outOfPlane[1] == 0.0
  {
    var t := CwHohmannTransfer(m, targetPeriod, targetRadius, chaserRadius).value;
    var tau := targetPeriod / 2.0;
    assert g.n != 0.0 by {
      assert g.n * targetPeriod == 2.0 * m.pi;
    }
    assert Phase(g.n, tau) == m.pi by {
      assert g.n * targetPeriod == 2.0 * m.pi;
      assert g.n * tau == g.n * targetPeriod / 2.0;
    }
    var pos := SeedPos(t);
    assert pos[0] == t.deltaH;
    HalfTurnOfSeed(g.n, Cos(m, Phase(g.n, tau)), Sin(m, Phase(g.n, tau)), tau, m.pi, pos, SeedVel(g.n, t));
    assert t.yI + 3.0 * m.pi / 4.0 * t.deltaH == FinalAlongTrack;
    assert g.n * t.deltaH / 4.0 == t.deltaV;
  }

  /** What the homing loop carries between cycles: the reference last assigned (none before
      the first guided cycle) and whether the recirculation burn has been done. */
  datatype HomingState = HomingState(reference: Option<PlaneStates>, circBurnDone: bool)

  const InitialState: HomingState := HomingState(None, false)

  /** A held reference is always a well-shaped pair of plane states. */
  predicate Consistent(st: HomingState)
  {
    st.reference.Some? ==> Valid(st.reference.value)
  }

  /** What one cycle did: elapsed time τ, the node added for the recirculation burn if this
      cycle added it, and the LVLH command handed to the frame transform (`None` while idle). */
  datatype HomingStep = HomingStep(tau: real, burn: Option<ManeuverNode>, command: Option<Vector>)

  /** Everything the loop reads but does not change: the target period, the start time t₀,
      the reference signal (the closure `ref_signal` returns), the Δv of the recirculation burn
      and the two controllers. */
  datatype HomingContext = HomingContext(
    targetPeriod: real,
    t0: real,
    refSignal: real -> ValidPlaneStates,
    deltaV: real,
    inPlane: LqrControl,
    outOfPlane: LqrControl)

  /** The controller gains have the shapes the three-axis command needs. */
  predicate ValidContext(c: HomingContext)
  {
    CommandGains(c.inPlane, c.outOfPlane)
  }

  /** The context `execute_phase` sets up: the reference signal is the CW drift from the
      transfer's seed, and the recirculation burn repeats the transfer's Δv. */
  function PhaseContext(m: Transcendentals, g: CwGuidance, targetPeriod: real, t0: real, t: Transfer,
                        inPlane: LqrControl, outOfPlane: LqrControl): (c: HomingContext)
    requires g.n != 0.0 && CommandGains(inPlane, outOfPlane)
    ensures ValidContext(c)
    ensures c.targetPeriod == targetPeriod && c.t0 == t0 && c.deltaV == t.deltaV
    ensures forall tau :: c.refSignal(tau) == CwReference(g, m, SeedPos(t), SeedVel(g.n, t), tau)
  {
    HomingContext(targetPeriod, t0, tau => CwReference(g, m, SeedPos(t), SeedVel(g.n, t), tau),
                  t.deltaV, inPlane, outOfPlane)
  }

  /** One pass of the `execute_phase` loop body. Up to a quarter period the cycle is idle.
      Up to half a period the reference follows the drift; afterwards it is held, and the
      first such cycle adds the recirculation burn. A cycle that must command before any
      reference was assigned fails, as the source's unbound local does. */
  function HomingCycle(c: HomingContext, st: HomingState, sample: Sample): (r: Result<(HomingState, HomingStep)>)
    requires ValidContext(c) && WellFormed(sample) && Consistent(st)
    ensures r.Ok? ==> Consistent(r.value.0)
    ensures var tau := sample.ut - c.t0;
      && (tau <= c.targetPeriod / 4.0 ==> r == Ok((st, HomingStep(tau, None, None))))
      && (c.targetPeriod / 4.0 < tau <= c.targetPeriod / 2.0 ==>
            r.Ok? && r.value.0.reference == Some(c.refSignal(tau)))
      && (tau > c.targetPeriod / 4.0 && tau > c.targetPeriod / 2.0 ==>
            (r.Err? <==> st.reference.None?) && (r.Ok? ==> r.value.0.reference == st.reference))
      && (r.Err? ==> r.error == UnboundReference)
      && (r.Ok? ==> r.value.1.tau == tau)
      && (r.Ok? && tau > c.targetPeriod / 4.0 ==>
            (r.value.1.burn.Some? <==> tau > c.targetPeriod / 2.0 && !st.circBurnDone))
      && (r.Ok? ==> r.value.0.circBurnDone == (st.circBurnDone || r.value.1.burn.Some?))
      && (r.Ok? && r.value.1.burn.Some? ==> r.value.1.burn.value == TransferBurn(c.deltaV, sample.ut))
      && (r.Ok? && tau > c.targetPeriod / 4.0 ==>
            r.value.0.reference.Some? &&
            r.value.1.command == Some(Command(c.inPlane, c.outOfPlane, Output(sample.relPos, sample.relVel),
                                              r.value.0.reference.value)))
  {
    var tau := sample.ut - c.t0;
    if tau <= c.targetPeriod / 4.0 then Ok((st, HomingStep(tau, None, None)))
    else
      var nav := Output(sample.relPos, sample.relVel);
      var reference := if tau <= c.targetPeriod / 2.0 then Some(c.refSignal(tau)) else st.reference;
      var burnNow := tau > c.targetPeriod / 2.0 && !st.circBurnDone;
      var burn := if burnNow then Some(TransferBurn(c.deltaV, sample.ut)) else None;
      match reference
      case None => Err(UnboundReference)
      case Some(ref) =>
        Ok((HomingState(reference, st.circBurnDone || burnNow),
            HomingStep(tau, burn, Some(Command(c.inPlane, c.outOfPlane, nav, ref)))))
  }

  /** Elapsed time read by cycle k. */
  function Tau(c: HomingContext, samples: seq<Sample>, k: nat): real
    requires k < |samples|
  {
    samples[k].ut - c.t0
  }

  /** The τ the loop condition compares before cycle k: 0 before the first cycle, and the τ
      of the previous cycle afterwards. */
  function LastTau(c: HomingContext, samples: seq<Sample>, k: nat): real
    requires k <= |samples|
  {
    if k == 0 then 0.0 else Tau(c, samples, k - 1)
  }

  /** Whether one of the first k cycles read a τ past half the period. */
  function PastHalfBefore(c: HomingContext, samples: seq<Sample>, k: nat): bool
    requires k <= |samples|
  {
    k > 0 && (Tau(c, samples, k - 1) > c.targetPeriod / 2.0 || PastHalfBefore(c, samples, k - 1))
  }

  /** A cycle past half the period is remembered by every later cycle. */
  lemma {:induction false} PastHalfSeen(c: HomingContext, samples: seq<Sample>, j: nat, k: nat)
    requires j < k <= |samples| && Tau(c, samples, j) > c.targetPeriod / 2.0
    ensures PastHalfBefore(c, samples, k)
  {
    if j < k - 1 {
      PastHalfSeen(c, samples, j, k - 1);
    }
  }

  /** What one successful cycle does to the loop's bookkeeping: the burn flag keeps recording
      whether a cycle past half the period was seen, the burn happens on the first such cycle,
      and the reference stays unassigned only across idle cycles. */
  lemma CycleBookkeeping(c: HomingContext, samples: seq<Sample>, k: nat, st: HomingState,
                         st': HomingState, step: HomingStep)
    requires ValidContext(c) && k < |samples| && WellFormed(samples[k]) && Consistent(st)
    requires c.targetPeriod > 0.0
    requires st.circBurnDone == PastHalfBefore(c, samples, k)
    requires HomingCycle(c, st, samples[k]) == Ok((st', step))
    ensures st'.circBurnDone == PastHalfBefore(c, samples, k + 1)
    ensures step.burn.Some? <==> Tau(c, samples, k) > c.targetPeriod / 2.0 && !PastHalfBefore(c, samples, k)
    ensures st'.reference.None? ==> st.reference.None? && Tau(c, samples, k) <= c.targetPeriod / 4.0
  {
  }

  /** The cycles so far: each is `HomingCycle` on its sample from the previous state. */
  predicate CyclesTrace(c: HomingContext, samples: seq<Sample>, states: seq<HomingState>, steps: seq<HomingStep>)
    requires ValidContext(c)
    requires forall k :: 0 <= k < |samples| ==> WellFormed(samples[k])
  {
    && |states| == |steps| + 1 && |steps| <= |samples|
    && (forall k :: 0 <= k <= |steps| ==> Consistent(states[k]))
    && (forall k :: 0 <= k < |steps| ==> HomingCycle(c, states[k], samples[k]) == Ok((states[k + 1], steps[k])))
  }

  /** One more successful cycle extends the cycles so far. */
  lemma CyclesExtend(c: HomingContext, samples: seq<Sample>, states: seq<HomingState>, steps: seq<HomingStep>,
                     st': HomingState, step: HomingStep)
    requires ValidContext(c)
    requires forall k :: 0 <= k < |samples| ==> WellFormed(samples[k])
    requires CyclesTrace(c, samples, states, steps) && |steps| < |samples|
    requires HomingCycle(c, states[|steps|], samples[|steps|]) == Ok((st', step))
    ensures CyclesTrace(c, samples, states + [st'], steps + [step])
  {
    var k, states', steps' := |steps|, states + [st'], steps + [step];
    forall j | 0 <= j <= k + 1
      ensures Consistent(states'[j])
    {
      if j <= k {
        assert states'[j] == states[j];
      }
    }
    forall j | 0 <= j < k + 1
      ensures HomingCycle(c, states'[j], samples[j]) == Ok((states'[j + 1], steps'[j]))
    {
      if j < k {
        assert states'[j] == states[j] && states'[j + 1] == states[j + 1] && steps'[j] == steps[j];
      }
    }
  }

  /** The burns so far happened exactly on the first cycle past half the period. */
  predicate BurnsTrace(c: HomingContext, samples: seq<Sample>, steps: seq<HomingStep>)
  {
    && |steps| <= |samples|
    && forall k :: 0 <= k < |steps| ==>
         (steps[k].burn.Some? <==> Tau(c, samples, k) > c.targetPeriod / 2.0 && !PastHalfBefore(c, samples, k))
  }

  /** A step whose burn follows the same rule extends the burns so far. */
  lemma BurnsExtend(c: HomingContext, samples: seq<Sample>, steps: seq<HomingStep>, step: HomingStep)
    requires BurnsTrace(c, samples, steps) && |steps| < |samples|
    requires step.burn.Some? <==> Tau(c, samples, |steps|) > c.targetPeriod / 2.0 && !PastHalfBefore(c, samples, |steps|)
    ensures BurnsTrace(c, samples, steps + [step])
  {
    var steps' := steps + [step];
    forall j | 0 <= j < |steps'|
      ensures steps'[j].burn.Some? <==> Tau(c, samples, j) > c.targetPeriod / 2.0 && !PastHalfBefore(c, samples, j)
    {
      if j < |steps| {
        assert steps'[j] == steps[j];
      }
    }
  }

  /** Every one of the first n cycles ran because the previous τ was below the period. */
  predicate TimesTrace(c: HomingContext, samples: seq<Sample>, n: nat)
  {
    n <= |samples| && forall k :: 0 <= k < n ==> LastTau(c, samples, k) < c.targetPeriod
  }

  /** The trace of the first |steps| cycles: the cycles themselves, why each ran, the burn flag
      recording whether a cycle past half the period ran, a missing reference meaning every
      cycle so far was idle, and burns exactly on the first cycle past half the period. */
  predicate Trace(c: HomingContext, samples: seq<Sample>, states: seq<HomingState>, steps: seq<HomingStep>)
    requires ValidContext(c)
    requires forall k :: 0 <= k < |samples| ==> WellFormed(samples[k])
  {
    && CyclesTrace(c, samples, states, steps) && states[0] == InitialState
    && TimesTrace(c, samples, |steps|)
    && states[|steps|].circBurnDone == PastHalfBefore(c, samples, |steps|)
    && (states[|steps|].reference.None? ==>
          forall j :: 0 <= j < |steps| ==> Tau(c, samples, j) <= c.targetPeriod / 4.0)
    && BurnsTrace(c, samples, steps)
  }

  /** A cycle that runs and succeeds extends the trace by its state and step. */
  lemma TraceExtends(c: HomingContext, samples: seq<Sample>, states: seq<HomingState>, steps: seq<HomingStep>,
                     st': HomingState, step: HomingStep)
    requires ValidContext(c)
    requires forall k :: 0 <= k < |samples| ==> WellFormed(samples[k])
    requires Trace(c, samples, states, steps)
    requires |steps| < |samples| && LastTau(c, samples, |steps|) < c.targetPeriod
    requires HomingCycle(c, states[|steps|], samples[|steps|]) == Ok((st', step))
    ensures Trace(c, samples, states + [st'], steps + [step])
  {
    var k := |steps|;
    assert c.targetPeriod > 0.0 by {
      if k > 0 {
        assert LastTau(c, samples, 0) < c.targetPeriod;
      }
    }
    CycleBookkeeping(c, samples, k, states[k], st', step);
    CyclesExtend(c, samples, states, steps, st', step);
    BurnsExtend(c, samples, steps, step);
    assert (states + [st'])[k + 1] == st';
  }

  /** A cycle that runs and fails does so past half the period, after idle cycles only. */
  lemma TraceFails(c: HomingContext, samples: seq<Sample>, states: seq<HomingState>, steps: seq<HomingStep>)
    requires ValidContext(c)
    requires forall k :: 0 <= k < |samples| ==> WellFormed(samples[k])
    requires Trace(c, samples, states, steps)
    requires |steps| < |samples|
    requires HomingCycle(c, states[|steps|], samples[|steps|]).Err?
    ensures HomingCycle(c, states[|steps|], samples[|steps|]).error == UnboundReference
    ensures Tau(c, samples, |steps|) > c.targetPeriod / 2.0
    ensures forall j :: 0 <= j < |steps| ==> Tau(c, samples, j) <= c.targetPeriod / 4.0
  {
  }

  /** The guided part of `execute_phase`, from the start of the transfer: one cycle per
      telemetry sample while the previous cycle's τ is below the target period. The
      recirculation burn is added exactly by the first cycle past half the period, hence at
      most once. A failure can only come from a cycle past half the period that no guided
      cycle preceded, and it ends the phase. The model also stops if the samples run out. */
  method RunHoming(c: HomingContext, samples: seq<Sample>)
    returns (states: seq<HomingState>, steps: seq<HomingStep>, failure: Option<Error>)
    requires ValidContext(c)
    requires forall k :: 0 <= k < |samples| ==> WellFormed(samples[k])
    ensures |states| == |steps| + 1 && states[0] == InitialState && |steps| <= |samples|
    ensures forall k :: 0 <= k < |steps| ==>
      Consistent(states[k]) && HomingCycle(c, states[k], samples[k]) == Ok((states[k + 1], steps[k]))
    ensures forall k :: 0 <= k < |steps| ==> LastTau(c, samples, k) < c.targetPeriod
    ensures failure.None? && |steps| < |samples| ==> LastTau(c, samples, |steps|) >= c.targetPeriod
    ensures failure.Some? ==>
      && failure.value == UnboundReference
      && |steps| < |samples| && LastTau(c, samples, |steps|) < c.targetPeriod
      && Consistent(states[|steps|]) && HomingCycle(c, states[|steps|], samples[|steps|]).Err?
      && Tau(c, samples, |steps|) > c.targetPeriod / 2.0
      && forall j :: 0 <= j < |steps| ==> Tau(c, samples, j) <= c.targetPeriod / 4.0
    ensures forall k :: 0 <= k < |steps| ==>
      (steps[k].burn.Some? <==> Tau(c, samples, k) > c.targetPeriod / 2.0 && !PastHalfBefore(c, samples, k))
    ensures forall j, k :: 0 <= j < k < |steps| && steps[j].burn.Some? ==> steps[k].burn.None?
  {
    states := [InitialState];
    steps := [];
    failure := None;
    var tau := 0.0;
    while tau < c.targetPeriod && |steps| < |samples|
      invariant Trace(c, samples, states, steps)
      invariant tau == LastTau(c, samples, |steps|)
      decreases |samples| - |steps|
    {
      var k := |steps|;
      tau := samples[k].ut - c.t0;
      var r := HomingCycle(c, states[k], samples[k]);
      if r.Err? {
        TraceFails(c, samples, states, steps);
        failure := Some(r.error);
        return;
      }
      TraceExtends(c, samples, states, steps, r.value.0, r.value.1);
      states := states + [r.value.0];
      steps := steps + [r.value.1];
    }
    BurnsAtMostOnce(c, samples, steps);
  }

  /** A burn only on the first cycle past half the period happens at most once. */
  lemma BurnsAtMostOnce(c: HomingContext, samples: seq<Sample>, steps: seq<HomingStep>)
    requires |steps| <= |samples|
    requires forall k :: 0 <= k < |steps| ==>
      (steps[k].burn.Some? <==> Tau(c, samples, k) > c.targetPeriod / 2.0 && !PastHalfBefore(c, samples, k))
    ensures forall j, k :: 0 <= j < k < |steps| && steps[j].burn.Some? ==> steps[k].burn.None?
  {
    forall j, k | 0 <= j < k < |steps| && steps[j].burn.Some?
      ensures steps[k].burn.None?
    {
      PastHalfSeen(c, samples, j, k);
    }
  }
}
