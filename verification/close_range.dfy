/** The closed-loop proximity manoeuvre (`CloseRangeManeuver`): smooth guidance from the
    current relative position to a final one over a fixed duration, LQR tracking in both
    planes, and a tolerance gate that stops commanding once the chaser has arrived.
    The loop is modelled over a finite sequence of telemetry samples, one per cycle. */
module CloseRange {
  import opened RealMath
  import opened LinearAlgebra
  import opened Outcomes
  import opened RelativeStates
  import opened Navigation
  import opened GuidanceProfiles
  import opened Guidance
  import opened Lqr

  /** The arguments of `execute_phase`: final relative position (x, y, z), duration in
      seconds (60 by default) and position tolerance in metres (3 by default). */
  datatype Settings = Settings(finalState: Vector, duration: real, tolerance: real)

  const DefaultDuration: real := 60.0
  const DefaultTolerance: real := 3.0

  /** `norm_time`: elapsed time as a fraction of the duration. */
  function NormTime(time: real, t0: real, duration: real): (tau: real)
    requires duration != 0.0
    ensures tau * duration == time - t0
  {
    (time - t0) / duration
  }

  /** The segment starts at τ = 0 and ends at τ = 1, and for a positive duration later times
      give larger τ. */
  lemma NormTimeEndpoints(t0: real, duration: real, t1: real, t2: real)
    requires duration > 0.0
    ensures NormTime(t0, t0, duration) == 0.0
    ensures NormTime(t0 + duration, t0, duration) == 1.0
    ensures t1 <= t2 ==> NormTime(t1, t0, duration) <= NormTime(t2, t0, duration)
  {
    if t1 <= t2 {
      var a := NormTime(t1, t0, duration);
      var b := NormTime(t2, t0, duration);
      assert (b - a) * duration == t2 - t1;
      if b < a {
        assert (a - b) * duration > 0.0;
      }
    }
  }

  /** `inside_tolerance`: never before the end of the segment; from then on, exactly when
      every axis is strictly closer than the tolerance to its final position. */
  function InsideTolerance(tau: real, relPos: Vector, finalState: Vector, tolerance: real): (inside: bool)
    requires |relPos| == 3 && |finalState| == 3
    ensures tau < 1.0 ==> !inside
    ensures tau >= 1.0 ==>
      (inside <==> forall i :: 0 <= i < 3 ==> Abs(relPos[i] - finalState[i]) < tolerance)
  {
    if tau < 1.0 then false
    else
      && Abs(relPos[0] - finalState[0]) < tolerance
      && Abs(relPos[1] - finalState[1]) < tolerance
      && Abs(relPos[2] - finalState[2]) < tolerance
  }

  /** The loop over `guidance.profiles` in `execute_phase`: each axis runs from the current
      relative position to its final coordinate over the same duration. */
  function ConfigureGuidance(g: SmoothGuidance, relPos: Vector, finalState: Vector, duration: real): (g': SmoothGuidance)
    requires |g.profiles| == 3 && |relPos| == 3 && |finalState| == 3
    ensures |g'.profiles| == 3
    ensures forall i :: 0 <= i < 3 ==>
      g'.profiles[i] == ConfigProfile(g.profiles[i], relPos[i], finalState[i], duration)
    ensures duration != 0.0 ==> Ready(g')
  {
    var p := g.profiles;
    SmoothGuidance([ConfigProfile(p[0], relPos[0], finalState[0], duration),
                    ConfigProfile(p[1], relPos[1], finalState[1], duration),
                    ConfigProfile(p[2], relPos[2], finalState[2], duration)])
  }

  /** What one cycle did: normalised time, the time guidance was read at, the reference,
      and the LVLH command handed to the frame transform (`None` inside tolerance). */
  datatype Cycle = Cycle(tau: real, guidanceTau: real, reference: PlaneStates, command: Option<Vector>)

  /** One pass of the `execute_phase` loop body on a telemetry sample. */
  function CloseRangeCycle(s: Settings, t0: real, g: SmoothGuidance, inPlane: LqrControl, outOfPlane: LqrControl,
                           sample: Sample): (c: Cycle)
    requires |s.finalState| == 3 && s.duration != 0.0 && WellFormed(sample)
    requires Ready(g) && CommandGains(inPlane, outOfPlane)
    ensures c.tau == NormTime(sample.ut, t0, s.duration)
    ensures c.guidanceTau == Min(c.tau, 1.0) && c.guidanceTau <= 1.0
    ensures c.reference == SmoothReference(g, c.guidanceTau)
    ensures c.command.None? <==> InsideTolerance(c.tau, sample.relPos, s.finalState, s.tolerance)
    ensures c.command.Some? ==>
      c.command.value == Command(inPlane, outOfPlane, Output(sample.relPos, sample.relVel), c.reference)
  {
    var x := Output(sample.relPos, sample.relVel);
    var tau := NormTime(sample.ut, t0, s.duration);
    var ref := SmoothReference(g, Min(tau, 1.0));
    if !InsideTolerance(tau, sample.relPos, s.finalState, s.tolerance) then
      Cycle(tau, Min(tau, 1.0), ref, Some(Command(inPlane, outOfPlane, x, ref)))
    else
      Cycle(tau, Min(tau, 1.0), ref, None)
  }

  /** Past the end of the segment, the standard profiles hold the final position at rest.
      A chaser sitting exactly on the final position is inside any positive tolerance, so
      the cycle commands nothing; with a tolerance of zero or less it is never inside, and a
      chaser there at rest gets the zero command. */
  lemma CycleAfterSegment(s: Settings, t0: real, g: SmoothGuidance, inPlane: LqrControl, outOfPlane: LqrControl,
                          sample: Sample)
    requires |s.finalState| == 3 && s.duration != 0.0 && WellFormed(sample)
    requires Ready(g) && CommandGains(inPlane, outOfPlane)
    requires forall i :: 0 <= i < 3 ==> Standard(g.profiles[i]) && g.profiles[i].segment.value.pF == s.finalState[i]
    requires NormTime(sample.ut, t0, s.duration) >= 1.0
    ensures var c := CloseRangeCycle(s, t0, g, inPlane, outOfPlane, sample);
            c.reference == PlaneStates([s.finalState[0], s.finalState[1], 0.0, 0.0], [s.finalState[2], 0.0])
    ensures sample.relPos == s.finalState ==>
            (CloseRangeCycle(s, t0, g, inPlane, outOfPlane, sample).command.None? <==> s.tolerance > 0.0)
    ensures sample.relPos == s.finalState && sample.relVel == [0.0, 0.0, 0.0] && s.tolerance <= 0.0 ==>
            CloseRangeCycle(s, t0, g, inPlane, outOfPlane, sample).command == Some([0.0, 0.0, 0.0])
  {
    SmoothReferenceEndpoints(g);
    var c := CloseRangeCycle(s, t0, g, inPlane, outOfPlane, sample);
    if sample.relPos == s.finalState && sample.relVel == [0.0, 0.0, 0.0] && c.command.Some? {
      var x := Output(sample.relPos, sample.relVel);
      Equal4(x.inPlane, c.reference.inPlane);
      Equal2(x.outOfPlane, c.reference.outOfPlane);
      CommandAtReference(inPlane, outOfPlane, x);
    }
  }

  /** The time the loop condition compares before cycle k: t₀ before the first cycle, and
      the time read by the previous cycle afterwards. */
  function LastTime(t0: real, samples: seq<Sample>, k: nat): real
    requires k <= |samples|
  {
    if k == 0 then t0 else samples[k - 1].ut
  }

  /** The cycles so far: each is `CloseRangeCycle` on its sample with the configured guidance. */
  predicate CyclesTrace(s: Settings, t0: real, g: SmoothGuidance, inPlane: LqrControl, outOfPlane: LqrControl,
                        samples: seq<Sample>, cycles: seq<Cycle>)
    requires |s.finalState| == 3 && CommandGains(inPlane, outOfPlane)
    requires forall k :: 0 <= k < |samples| ==> WellFormed(samples[k])
  {
    && |cycles| <= |samples|
    && (|cycles| > 0 ==> s.duration != 0.0 && Ready(g))
    && forall k :: 0 <= k < |cycles| ==>
         s.duration != 0.0 && Ready(g) && cycles[k] == CloseRangeCycle(s, t0, g, inPlane, outOfPlane, samples[k])
  }

  /** One more cycle on the next sample extends the cycles so far. */
  lemma CyclesExtend(s: Settings, t0: real, g: SmoothGuidance, inPlane: LqrControl, outOfPlane: LqrControl,
                     samples: seq<Sample>, cycles: seq<Cycle>)
    requires |s.finalState| == 3 && CommandGains(inPlane, outOfPlane)
    requires forall k :: 0 <= k < |samples| ==> WellFormed(samples[k])
    requires CyclesTrace(s, t0, g, inPlane, outOfPlane, samples, cycles) && |cycles| < |samples|
    requires s.duration != 0.0 && Ready(g)
    ensures CyclesTrace(s, t0, g, inPlane, outOfPlane, samples,
                        cycles + [CloseRangeCycle(s, t0, g, inPlane, outOfPlane, samples[|cycles|])])
  {
    var cycles' := cycles + [CloseRangeCycle(s, t0, g, inPlane, outOfPlane, samples[|cycles|])];
    forall k | 0 <= k < |cycles'|
      ensures cycles'[k] == CloseRangeCycle(s, t0, g, inPlane, outOfPlane, samples[k])
    {
      if k < |cycles| {
        assert cycles'[k] == cycles[k];
      }
    }
  }

  /** `execute_phase`: configures the three profiles from the first position read, then runs
      one cycle per telemetry sample while the previously read time is below t₀ + 2·duration.
      The cycle that first reads a time past the horizon still runs. The model stops early
      only if the samples run out. */
  method RunCloseRange(s: Settings, g: SmoothGuidance, inPlane: LqrControl, outOfPlane: LqrControl,
                       t0: real, initialRelPos: Vector, samples: seq<Sample>)
    returns (configured: SmoothGuidance, cycles: seq<Cycle>)
    requires |s.finalState| == 3 && |g.profiles| == 3 && |initialRelPos| == 3
    requires CommandGains(inPlane, outOfPlane)
    requires forall k :: 0 <= k < |samples| ==> WellFormed(samples[k])
    ensures configured == ConfigureGuidance(g, initialRelPos, s.finalState, s.duration)
    ensures |cycles| <= |samples|
    ensures forall k :: 0 <= k < |cycles| ==> LastTime(t0, samples, k) < t0 + 2.0 * s.duration
    ensures |cycles| < |samples| ==> LastTime(t0, samples, |cycles|) >= t0 + 2.0 * s.duration
    ensures |cycles| > 0 ==> s.duration > 0.0 && Ready(configured)
    ensures forall k :: 0 <= k < |cycles| ==>
      s.duration != 0.0 && Ready(configured) &&
      cycles[k] == CloseRangeCycle(s, t0, configured, inPlane, outOfPlane, samples[k])
  {
    configured := ConfigureGuidance(g, initialRelPos, s.finalState, s.duration);
    var horizon := t0 + 2.0 * s.duration;
    var tod := t0;
    cycles := [];
    while tod < horizon && |cycles| < |samples|
      invariant CyclesTrace(s, t0, configured, inPlane, outOfPlane, samples, cycles)
      invariant tod == LastTime(t0, samples, |cycles|)
      invariant forall k :: 0 <= k < |cycles| ==> LastTime(t0, samples, k) < horizon
      invariant |cycles| > 0 ==> s.duration > 0.0
      decreases |samples| - |cycles|
    {
      assert s.duration > 0.0 by {
        if |cycles| > 0 {
          assert LastTime(t0, samples, 0) < horizon;
        }
      }
      var sample := samples[|cycles|];
      tod := sample.ut;
      CyclesExtend(s, t0, configured, inPlane, outOfPlane, samples, cycles);
      var c := CloseRangeCycle(s, t0, configured, inPlane, outOfPlane, sample);
      cycles := cycles + [c];
    }
  }
}
