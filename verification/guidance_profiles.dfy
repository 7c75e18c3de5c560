/** Smooth boundary-value guidance profiles: per axis, a normalised quintic position
    polynomial N(τ) scaled between the configured endpoints, and its derivative scaled
    by the segment duration for the velocity. Polynomials are coefficient sequences
    in increasing powers, as numpy's `Polynomial` stores them. */
module GuidanceProfiles {
  import opened Outcomes

  /** `GuidanceParameters`: normalised position, velocity and acceleration coefficients. */
  datatype GuidanceParameters = GuidanceParameters(
    normPosPolCoeff: seq<real>,
    normVelPolCoeff: seq<real>,
    normAccPolCoeff: seq<real>)

  /** The endpoints and duration set by `config_profile`. */
  datatype Segment = Segment(pI: real, pF: real, duration: real)

  /** `SmoothProfile`: the normalised polynomials fixed at construction, and the segment
      of the latest `config_profile` call (`None` before the first one, when reading
      the endpoints would fail). */
  datatype SmoothProfile = SmoothProfile(
    guidParams: GuidanceParameters,
    normalizedPos: seq<real>,
    normalizedVel: seq<real>,
    segment: Option<Segment>)

  /** The coefficients wired by the GNC initialisation: N(τ) = 10τ³ − 15τ⁴ + 6τ⁵,
      its derivative, and its second derivative. */
  const StandardPosCoeff: seq<real> := [0.0, 0.0, 0.0, 10.0, -15.0, 6.0]
  const StandardVelCoeff: seq<real> := [0.0, 0.0, 30.0, -60.0, 30.0]
  const StandardAccCoeff: seq<real> := [0.0, 60.0, -180.0, 120.0]

  /** The parameters `init_gnc` shares between the three profiles: a quintic from 0 to 1,
      with its velocity and acceleration polynomials as its successive derivatives, at rest
      at both ends. */
  function StandardParameters(): (p: GuidanceParameters)
    ensures p.normVelPolCoeff == FormalDerivative(p.normPosPolCoeff)
    ensures p.normAccPolCoeff == FormalDerivative(p.normVelPolCoeff)
    ensures EvalPoly(p.normPosPolCoeff, 0.0) == 0.0 && EvalPoly(p.normPosPolCoeff, 1.0) == 1.0
    ensures EvalPoly(p.normVelPolCoeff, 0.0) == 0.0 && EvalPoly(p.normVelPolCoeff, 1.0) == 0.0
  {
    StandardCoefficientsChain();
    NormPosValue(0.0);
    NormPosValue(1.0);
    GuidanceParameters(StandardPosCoeff, StandardVelCoeff, StandardAccCoeff)
  }

  /** The value at t of the polynomial with coefficients c (lowest power first). */
  function EvalPoly(c: seq<real>, t: real): real
    decreases |c|
  {
    if |c| == 0 then 0.0 else c[0] + t * EvalPoly(c[1..], t)
  }

  /** The formal derivative of a coefficient sequence. */
  function FormalDerivative(c: seq<real>): (d: seq<real>)
    ensures |c| > 0 ==> |d| == |c| - 1
    ensures |c| == 0 ==> d == []
    ensures forall i :: 0 <= i < |d| ==> d[i] == (i + 1) as real * c[i + 1]
  {
    if |c| == 0 then [] else seq(|c| - 1, i requires 0 <= i < |c| - 1 => (i + 1) as real * c[i + 1])
  }

  /** The velocity coefficients are the formal derivative of the position coefficients and
      the acceleration coefficients that of the velocity ones; the normalised velocity and
      acceleration vanish at both ends of the segment. */
  lemma StandardCoefficientsChain()
    ensures FormalDerivative(StandardPosCoeff) == StandardVelCoeff
    ensures FormalDerivative(StandardVelCoeff) == StandardAccCoeff
    ensures EvalPoly(StandardVelCoeff, 0.0) == 0.0 && EvalPoly(StandardVelCoeff, 1.0) == 0.0
    ensures EvalPoly(StandardAccCoeff, 0.0) == 0.0 && EvalPoly(StandardAccCoeff, 1.0) == 0.0
  {
    var dp := FormalDerivative(StandardPosCoeff);
    assert dp == StandardVelCoeff by {
      assert |dp| == 5;
      forall i | 0 <= i < 5 ensures dp[i] == StandardVelCoeff[i] {
        if i == 0 {} else if i == 1 {} else if i == 2 {} else if i == 3 {} else {}
      }
    }
    var dv := FormalDerivative(StandardVelCoeff);
    assert dv == StandardAccCoeff by {
      assert |dv| == 4;
      forall i | 0 <= i < 4 ensures dv[i] == StandardAccCoeff[i] {
        if i == 0 {} else if i == 1 {} else if i == 2 {} else {}
      }
    }
    NormVelValue(0.0);
    NormVelValue(1.0);
    NormAccValue(0.0);
    NormAccValue(1.0);
  }

  lemma NormPosValue(t: real)
    ensures EvalPoly(StandardPosCoeff, t) == 10.0 * t * t * t - 15.0 * t * t * t * t + 6.0 * t * t * t * t * t
  {
    var c := StandardPosCoeff;
    assert c[1..] == [0.0, 0.0, 10.0, -15.0, 6.0];
    assert c[1..][1..] == [0.0, 10.0, -15.0, 6.0];
    assert c[1..][1..][1..] == [10.0, -15.0, 6.0];
    assert c[1..][1..][1..][1..] == [-15.0, 6.0];
    assert c[1..][1..][1..][1..][1..] == [6.0];
    assert c[1..][1..][1..][1..][1..][1..] == [];
    assert EvalPoly([6.0], t) == 6.0;
    assert EvalPoly([-15.0, 6.0], t) == -15.0 + t * 6.0;
    assert EvalPoly([10.0, -15.0, 6.0], t) == 10.0 + t * (-15.0 + t * 6.0);
  }

  lemma NormVelValue(t: real)
    ensures EvalPoly(StandardVelCoeff, t) == 30.0 * t * t - 60.0 * t * t * t + 30.0 * t * t * t * t
  {
    var c := StandardVelCoeff;
    assert c[1..] == [0.0, 30.0, -60.0, 30.0];
    assert c[1..][1..] == [30.0, -60.0, 30.0];
    assert c[1..][1..][1..] == [-60.0, 30.0];
    assert c[1..][1..][1..][1..] == [30.0];
    assert c[1..][1..][1..][1..][1..] == [];
    assert EvalPoly([30.0], t) == 30.0;
    assert EvalPoly([-60.0, 30.0], t) == -60.0 + t * 30.0;
  }

  lemma NormAccValue(t: real)
    ensures EvalPoly(StandardAccCoeff, t) == 60.0 * t - 180.0 * t * t + 120.0 * t * t * t
  {
    var c := StandardAccCoeff;
    assert c[1..] == [60.0, -180.0, 120.0];
    assert c[1..][1..] == [-180.0, 120.0];
    assert c[1..][1..][1..] == [120.0];
    assert c[1..][1..][1..][1..] == [];
    assert EvalPoly([120.0], t) == 120.0;
  }

  /** `SmoothProfile(guid_params)`: the normalised polynomials are taken from the parameters
      and no segment is configured yet. */
  function NewSmoothProfile(params: GuidanceParameters): (p: SmoothProfile)
    ensures p.guidParams == params
    ensures p.normalizedPos == params.normPosPolCoeff && p.normalizedVel == params.normVelPolCoeff
    ensures p.segment.None?
  {
    SmoothProfile(params, params.normPosPolCoeff, params.normVelPolCoeff, None)
  }

  /** `config_profile`: overwrites only the endpoints and the duration. */
  function ConfigProfile(p: SmoothProfile, pI: real, pF: real, duration: real): (r: SmoothProfile)
    ensures r.segment == Some(Segment(pI, pF, duration))
    ensures r.guidParams == p.guidParams
    ensures r.normalizedPos == p.normalizedPos && r.normalizedVel == p.normalizedVel
  {
    p.(segment := Some(Segment(pI, pF, duration)))
  }

  /** `pos()(τ)`: the normalised position scaled to the configured endpoints. */
  function Pos(p: SmoothProfile, tau: real): (x: real)
    requires p.segment.Some?
    ensures EvalPoly(p.normalizedPos, tau) == 0.0 ==> x == p.segment.value.pI
    ensures EvalPoly(p.normalizedPos, tau) == 1.0 ==> x == p.segment.value.pF
    ensures p.segment.value.pI == p.segment.value.pF ==> x == p.segment.value.pI
  {
    var s := p.segment.value;
    EvalPoly(p.normalizedPos, tau) * (s.pF - s.pI) + s.pI
  }

  /** `vel()(τ)`: the normalised velocity scaled to the endpoints and divided by the
      duration, which must therefore be nonzero. */
  function Vel(p: SmoothProfile, tau: real): (v: real)
    requires p.segment.Some? && p.segment.value.duration != 0.0
    ensures EvalPoly(p.normalizedVel, tau) == 0.0 ==> v == 0.0
    ensures p.segment.value.pI == p.segment.value.pF ==> v == 0.0
    ensures v * p.segment.value.duration == EvalPoly(p.normalizedVel, tau) * (p.segment.value.pF - p.segment.value.pI)
  {
    var s := p.segment.value;
    EvalPoly(p.normalizedVel, tau) * (s.pF - s.pI) / s.duration
  }

  /** The profile uses the standard quintic shape. */
  predicate Standard(p: SmoothProfile)
  {
    p.normalizedPos == StandardPosCoeff && p.normalizedVel == StandardVelCoeff
  }

  /** Position boundary conditions: the profile starts at p_i and ends at p_f. */
  lemma PosEndpoints(p: SmoothProfile)
    requires Standard(p) && p.segment.Some?
    ensures Pos(p, 0.0) == p.segment.value.pI
    ensures Pos(p, 1.0) == p.segment.value.pF
  {
    NormPosValue(0.0);
    NormPosValue(1.0);
  }

  /** Velocity boundary conditions: the profile is at rest at both ends. */
  lemma VelEndpoints(p: SmoothProfile)
    requires Standard(p) && p.segment.Some? && p.segment.value.duration != 0.0
    ensures Vel(p, 0.0) == 0.0
    ensures Vel(p, 1.0) == 0.0
  {
    NormVelValue(0.0);
    NormVelValue(1.0);
  }

  /** 0 ≤ N(τ) ≤ 1 on [0, 1]: N(τ) = τ³(6τ² − 15τ + 10) and 1 − N(τ) = (1 − τ)³(6τ² + 3τ + 1). */
  lemma NormPosBounded(t: real)
    requires 0.0 <= t <= 1.0
    ensures 0.0 <= EvalPoly(StandardPosCoeff, t) <= 1.0
  {
    NormPosValue(t);
    var q := 6.0 * t * t - 15.0 * t + 10.0;
    assert q == 6.0 * (t - 1.25) * (t - 1.25) + 0.625;
    NonnegProduct(t, t);
    NonnegProduct(t * t, t);
    NonnegProduct(t * t * t, q);
    assert 10.0 * t * t * t - 15.0 * t * t * t * t + 6.0 * t * t * t * t * t == t * t * t * q;
    var s := 1.0 - t;
    var q' := 6.0 * t * t + 3.0 * t + 1.0;
    NonnegProduct(s, s);
    NonnegProduct(s * s, s);
    assert q' >= 0.0;
    NonnegProduct(s * s * s, q');
    assert 1.0 - (10.0 * t * t * t - 15.0 * t * t * t * t + 6.0 * t * t * t * t * t) == s * s * s * q';
  }

  lemma NonnegProduct(a: real, b: real)
    requires a >= 0.0 && b >= 0.0
    ensures a * b >= 0.0
  {
  }

  /** For τ in [0, 1] the position lies between the two endpoints. */
  lemma PosBetweenEndpoints(p: SmoothProfile, tau: real)
    requires Standard(p) && p.segment.Some?
    requires 0.0 <= tau <= 1.0
    ensures p.segment.value.pI <= p.segment.value.pF ==>
      p.segment.value.pI <= Pos(p, tau) <= p.segment.value.pF
    ensures p.segment.value.pF <= p.segment.value.pI ==>
      p.segment.value.pF <= Pos(p, tau) <= p.segment.value.pI
  {
    NormPosBounded(tau);
    var s := p.segment.value;
    var nt := EvalPoly(StandardPosCoeff, tau);
    var d := s.pF - s.pI;
    FractionOfSpan(nt, d);
    var pos := Pos(p, tau);
    assert pos == nt * d + s.pI;
    assert s.pI + d == s.pF;
    if d >= 0.0 {
      assert s.pI <= pos <= s.pF;
    }
    if d <= 0.0 {
      assert s.pF <= pos <= s.pI;
    }
  }

  /** A fraction in [0, 1] of a span lies between 0 and the span, whatever its sign. */
  lemma FractionOfSpan(f: real, d: real)
    requires 0.0 <= f <= 1.0
    ensures d >= 0.0 ==> 0.0 <= f * d <= d
    ensures d <= 0.0 ==> d <= f * d <= 0.0
  {
    assert d - f * d == (1.0 - f) * d;
    if d >= 0.0 {
      NonnegProduct(f, d);
      NonnegProduct(1.0 - f, d);
    } else {
      NonnegProduct(f, -d);
      NonnegProduct(1.0 - f, -d);
    }
  }

  /** For τ in [0, 1] and a positive duration the velocity never points away from p_f:
      the normalised velocity is 30τ²(1 − τ)² ≥ 0. */
  lemma VelTowardsTarget(p: SmoothProfile, tau: real)
    requires Standard(p) && p.segment.Some? && p.segment.value.duration > 0.0
    requires 0.0 <= tau <= 1.0
    ensures Vel(p, tau) * (p.segment.value.pF - p.segment.value.pI) >= 0.0
  {
    NormVelValue(tau);
    var s := p.segment.value;
    var nv := EvalPoly(StandardVelCoeff, tau);
    var w := tau * (1.0 - tau);
    assert nv == 30.0 * w * w;
    assert nv >= 0.0;
    var d := s.pF - s.pI;
    assert Vel(p, tau) * d == nv * (d * d) / s.duration;
    assert nv * (d * d) >= 0.0;
  }

  /** A degenerate segment (p_i = p_f) holds position p_i at rest, whatever the shape. */
  lemma StationarySegment(p: SmoothProfile, tau: real)
    requires p.segment.Some? && p.segment.value.duration != 0.0
    requires p.segment.value.pI == p.segment.value.pF
    ensures Pos(p, tau) == p.segment.value.pI
    ensures Vel(p, tau) == 0.0
  {
  }
}
