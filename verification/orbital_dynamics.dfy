/** Two-body helpers used by the mission phases (`OrbitalDynamicsUtils`): phasing angles,
    Kepler timing, vis-viva speeds, semi-major axes and the clock format of the logs. */
module OrbitalDynamics {
  import opened RealMath

  /** `CelestialBodyParameters`: μ in m³/s², surface gravity in m/s², equatorial radius in m. */
  datatype CelestialBody = CelestialBody(mu: real, surfaceGravity: real, equatorialRadius: real)

  /** Minimum periapsis clearance above the equatorial radius, in metres. */
  const SafetyAltitude: real := 100000.0

  /** `phase_offset`: angle of the target, seen from the body's centre, ahead of the direction
      opposite the chaser's periapsis. */
  function PhaseOffset(m: Transcendentals, targetTaAtChaserApoapsis: real, targetArgOfPeriapsis: real,
                       chaserArgOfPeriapsis: real): (phi: real)
    ensures phi + (m.pi + chaserArgOfPeriapsis) == targetTaAtChaserApoapsis + targetArgOfPeriapsis
  {
    targetTaAtChaserApoapsis + targetArgOfPeriapsis - (m.pi + chaserArgOfPeriapsis)
  }

  /** Rotating both orbits' periapsis by the same angle leaves the offset unchanged, and
      advancing the target along its orbit advances the offset by the same amount. */
  lemma PhaseOffsetRotation(m: Transcendentals, ta: real, wt: real, wc: real, delta: real)
    ensures PhaseOffset(m, ta, wt + delta, wc + delta) == PhaseOffset(m, ta, wt, wc)
    ensures PhaseOffset(m, ta + delta, wt, wc) == PhaseOffset(m, ta, wt, wc) + delta
  {
  }

  /** `eccentric_anomaly_difference`: 2·atan(√((1−e)/(1+e))·tan(φ/2)); e = −1 divides by 0. */
  function EccentricAnomalyDifference(m: Transcendentals, targetEccentricity: real, phaseOffset: real): (dE: real)
    requires targetEccentricity != -1.0
    ensures targetEccentricity == 0.0 && SqrtLaws(m) ==> dE == 2.0 * Atan(m, Tan(m, phaseOffset / 2.0))
    ensures Tan(m, phaseOffset / 2.0) == 0.0 && Atan(m, 0.0) == 0.0 ==> dE == 0.0
  {
    SqrtOfOne(m);
    assert targetEccentricity == 0.0 ==> (1.0 - targetEccentricity) / (1.0 + targetEccentricity) == 1.0;
    assert Tan(m, phaseOffset / 2.0) == 0.0 ==>
      Sqrt(m, (1.0 - targetEccentricity) / (1.0 + targetEccentricity)) * Tan(m, phaseOffset / 2.0) == 0.0;
    2.0 * Atan(m, Sqrt(m, (1.0 - targetEccentricity) / (1.0 + targetEccentricity)) * Tan(m, phaseOffset / 2.0))
  }

  /** A true square root of 1 is 1. */
  lemma SqrtOfOne(m: Transcendentals)
    ensures SqrtLaws(m) ==> Sqrt(m, 1.0) == 1.0
  {
    if SqrtLaws(m) {
      NonnegRootUnique(Sqrt(m, 1.0), 1.0);
    }
  }

  /** No phase offset means no eccentric-anomaly difference, given tan 0 = 0 and atan 0 = 0. */
  lemma EccentricAnomalyAtZeroOffset(m: Transcendentals, e: real)
    requires e != -1.0
    requires Tan(m, 0.0) == 0.0 && Atan(m, 0.0) == 0.0
    ensures EccentricAnomalyDifference(m, e, 0.0) == 0.0
  {
    assert 0.0 / 2.0 == 0.0;
  }

  /** `time_difference`: Kepler's equation, (ΔE − e·sin ΔE)·T/(2π). */
  function TimeDifference(m: Transcendentals, eccentricAnomalyDifference: real, targetEccentricity: real,
                          targetPeriod: real): (t: real)
    requires m.pi != 0.0
    ensures t * (2.0 * m.pi)
         == (eccentricAnomalyDifference - targetEccentricity * Sin(m, eccentricAnomalyDifference)) * targetPeriod
  {
    (eccentricAnomalyDifference - targetEccentricity * Sin(m, eccentricAnomalyDifference)) * targetPeriod
      / (2.0 * m.pi)
  }

  /** No anomaly difference takes no time; on a circular orbit the time is the plain fraction
      ΔE/(2π) of the period. */
  lemma TimeDifferenceSpecialCases(m: Transcendentals, dE: real, e: real, period: real)
    requires m.pi != 0.0
    requires TrigAtZero(m)
    ensures TimeDifference(m, 0.0, e, period) == 0.0
    ensures TimeDifference(m, dE, 0.0, period) == dE * period / (2.0 * m.pi)
  {
  }

  /** `semi_maj_axis_from_period`: a = (T·√μ/(2π))^(2/3), Kepler's third law. */
  function SemiMajAxisFromPeriod(m: Transcendentals, body: CelestialBody, period: real): (a: real)
    requires m.pi != 0.0
    ensures Pow23Laws(m) && SqrtLaws(m) && m.pi > 0.0 && period >= 0.0 && body.mu >= 0.0 ==>
      a >= 0.0 && 4.0 * m.pi * m.pi * (a * a * a) == body.mu * (period * period)
  {
    var x := period * Sqrt(m, body.mu) / (2.0 * m.pi);
    KeplerFromPeriod(m, body.mu, period, x);
    Pow23(m, x)
  }

  /** The argument T·√μ/(2π) of the power law, squared and scaled by 4π², is μT². */
  lemma KeplerFromPeriod(m: Transcendentals, mu: real, period: real, x: real)
    requires m.pi != 0.0 && x == period * Sqrt(m, mu) / (2.0 * m.pi)
    ensures Pow23Laws(m) && SqrtLaws(m) && m.pi > 0.0 && period >= 0.0 && mu >= 0.0 ==>
      Pow23(m, x) >= 0.0 && 4.0 * m.pi * m.pi * (Pow23(m, x) * Pow23(m, x) * Pow23(m, x)) == mu * (period * period)
  {
    if Pow23Laws(m) && SqrtLaws(m) && m.pi > 0.0 && period >= 0.0 && mu >= 0.0 {
      var sq := Sqrt(m, mu);
      assert sq >= 0.0 && sq * sq == mu;
      var tp := 2.0 * m.pi;
      assert x * tp == period * sq;
      assert x >= 0.0 by {
        assert period * sq >= 0.0;
      }
      var a := Pow23(m, x);
      assert a * a * a == x * x;
      calc {
        4.0 * m.pi * m.pi * (a * a * a);
        (x * tp) * (x * tp);
        (period * sq) * (period * sq);
        (sq * sq) * (period * period);
        mu * (period * period);
      }
    }
  }

  /** `apsis_from_period_and_2nd_apsis`: the apsis that, together with the given one, makes an
      orbit of period T. */
  function ApsisFromPeriodAnd2ndApsis(m: Transcendentals, body: CelestialBody, period: real, apsis: real): (r: real)
    requires m.pi != 0.0
    ensures r + apsis == 2.0 * SemiMajAxisFromPeriod(m, body, period)
  {
    2.0 * SemiMajAxisFromPeriod(m, body, period) - apsis
  }

  /** `semi_maj_axis_from_apsises`: the mean of the apsides, equally far from both. */
  function SemiMajAxisFromApsises(periapsis: real, apoapsis: real): (a: real)
    ensures Min(periapsis, apoapsis) <= a <= Max(periapsis, apoapsis)
    ensures a - periapsis == apoapsis - a
  {
    (periapsis + apoapsis) / 2.0
  }

  /** The apsis computed from a period and a second apsis gives back, averaged with that
      apsis, the semi-major axis of the period. */
  lemma ApsisRoundTrip(m: Transcendentals, body: CelestialBody, period: real, apsis: real)
    requires m.pi != 0.0
    ensures SemiMajAxisFromApsises(ApsisFromPeriodAnd2ndApsis(m, body, period, apsis), apsis)
         == SemiMajAxisFromPeriod(m, body, period)
  {
  }

  /** `phasing_period_validity`: an orbit of period T through the given apoapsis keeps its
      periapsis more than 100 km above the equatorial radius. */
  function PhasingPeriodValidity(m: Transcendentals, body: CelestialBody, phasingPeriod: real, apoapsis: real): (ok: bool)
    requires m.pi != 0.0
    ensures ok <==> ApsisFromPeriodAnd2ndApsis(m, body, phasingPeriod, apoapsis)
                    > body.equatorialRadius + SafetyAltitude
  {
    var a := SemiMajAxisFromPeriod(m, body, phasingPeriod);
    var periapsis := 2.0 * a - apoapsis;
    periapsis > body.equatorialRadius + SafetyAltitude
  }

  /** `orbital_velocity`: the vis-viva speed √(μ(2/r − 1/a)). */
  function OrbitalVelocity(m: Transcendentals, body: CelestialBody, radius: real, semiMajorAxis: real): (v: real)
    requires radius != 0.0 && semiMajorAxis != 0.0
    ensures radius == semiMajorAxis ==> v == Sqrt(m, body.mu / radius)
  {
    assert radius == semiMajorAxis ==> body.mu * (2.0 / radius - 1.0 / semiMajorAxis) == body.mu / radius;
    Sqrt(m, body.mu * (2.0 / radius - 1.0 / semiMajorAxis))
  }

  /** With a true square root, the speed satisfies the vis-viva equation v² = μ(2/r − 1/a). */
  lemma VisViva(m: Transcendentals, body: CelestialBody, r: real, a: real)
    requires r != 0.0 && a != 0.0
    requires SqrtLaws(m)
    requires body.mu * (2.0 / r - 1.0 / a) >= 0.0
    ensures OrbitalVelocity(m, body, r, a) >= 0.0
    ensures OrbitalVelocity(m, body, r, a) * OrbitalVelocity(m, body, r, a) == body.mu * (2.0 / r - 1.0 / a)
  {
  }

  /** `delta_v`: the speed change at radius r that turns an orbit of semi-major axis a₁ into
      one of semi-major axis a₂. */
  function DeltaV(m: Transcendentals, body: CelestialBody, radius: real, currentSemiMajorAxis: real,
                  newSemiMajorAxis: real): (dv: real)
    requires radius != 0.0 && currentSemiMajorAxis != 0.0 && newSemiMajorAxis != 0.0
    ensures dv + OrbitalVelocity(m, body, radius, currentSemiMajorAxis)
         == OrbitalVelocity(m, body, radius, newSemiMajorAxis)
  {
    var v1 := OrbitalVelocity(m, body, radius, currentSemiMajorAxis);
    var v2 := OrbitalVelocity(m, body, radius, newSemiMajorAxis);
    v2 - v1
  }

  /** Keeping the orbit costs nothing, and undoing a change costs the opposite change. */
  lemma DeltaVAntisymmetric(m: Transcendentals, body: CelestialBody, r: real, a1: real, a2: real)
    requires r != 0.0 && a1 != 0.0 && a2 != 0.0
    ensures DeltaV(m, body, r, a1, a1) == 0.0
    ensures DeltaV(m, body, r, a2, a1) == -DeltaV(m, body, r, a1, a2)
  {
  }

  /** `orbital_rate`: the mean motion √(μ/a³). */
  function OrbitalRate(m: Transcendentals, body: CelestialBody, semiMajorAxis: real): (n: real)
    requires semiMajorAxis != 0.0
    ensures SqrtLaws(m) && semiMajorAxis > 0.0 && body.mu >= 0.0 ==>
      n >= 0.0 && n * semiMajorAxis == OrbitalVelocity(m, body, semiMajorAxis, semiMajorAxis)
  {
    CircularRate(m, body.mu, semiMajorAxis);
    Sqrt(m, body.mu / (semiMajorAxis * semiMajorAxis * semiMajorAxis))
  }

  /** On a circular orbit of radius a the mean motion times a is the orbital speed:
      √(μ/a³)·a = √(μ/a). */
  lemma CircularRate(m: Transcendentals, mu: real, a: real)
    requires a != 0.0
    ensures SqrtLaws(m) && a > 0.0 && mu >= 0.0 ==>
      Sqrt(m, mu / (a * a * a)) >= 0.0 && Sqrt(m, mu / (a * a * a)) * a == Sqrt(m, mu / a)
  {
    if SqrtLaws(m) && a > 0.0 && mu >= 0.0 {
      var cube := a * a * a;
      assert cube > 0.0 by {
        assert a * a > 0.0;
      }
      var n := Sqrt(m, mu / cube);
      var v := Sqrt(m, mu / a);
      assert mu / cube >= 0.0 && mu / a >= 0.0;
      assert n >= 0.0 && n * n == mu / cube;
      assert v >= 0.0 && v * v == mu / a;
      assert (n * a) * (n * a) == v * v by {
        assert (n * a) * (n * a) == (n * n) * (a * a);
        assert (mu / cube) * (a * a) == mu / a;
      }
      NonnegRootUnique(n * a, v);
    }
  }

  /** Two non-negative reals with equal squares are equal. */
  lemma NonnegRootUnique(x: real, y: real)
    requires x >= 0.0 && y >= 0.0 && x * x == y * y
    ensures x == y
  {
    assert (x - y) * (x + y) == 0.0;
    if x + y != 0.0 {
      assert x - y == 0.0;
    }
  }

  /** With a true square root, the mean motion satisfies Kepler's third law n²·a³ = μ. */
  lemma KeplerThirdLaw(m: Transcendentals, body: CelestialBody, a: real)
    requires a > 0.0 && body.mu >= 0.0
    requires SqrtLaws(m)
    ensures OrbitalRate(m, body, a) * OrbitalRate(m, body, a) * (a * a * a) == body.mu
  {
    var cube := a * a * a;
    assert cube > 0.0 by { PositiveCube(a); }
    assert body.mu / cube >= 0.0;
    var n := OrbitalRate(m, body, a);
    assert n * n == body.mu / cube;
  }

  lemma PositiveCube(a: real)
    requires a > 0.0
    ensures a * a * a > 0.0
  {
    assert a * a > 0.0;
  }

  /** `format_time`: whole hours, minutes and seconds of a duration in seconds. */
  datatype Hms = Hms(hours: int, minutes: int, seconds: int)

  /** Python's floored `%` for a positive divisor. */
  function FlooredMod(x: real, d: real): (r: real)
    requires d > 0.0
    ensures 0.0 <= r < d
  {
    FloorScaled(x, d);
    x - d * (x / d).Floor as real
  }

  lemma FloorScaled(x: real, d: real)
    requires d > 0.0
    ensures d * (x / d).Floor as real <= x < d * (x / d).Floor as real + d
  {
    var q := x / d;
    var f := q.Floor as real;
    assert f <= q < f + 1.0;
    var df, dq, df1 := d * f, d * q, d * (f + 1.0);
    assert dq == x;
    assert df1 == df + d;
    ScaleMonotone(d, f, q);
    assert df <= dq;
    ScaleMonotone(d, q, f + 1.0);
    assert dq < df1;
  }

  lemma ScaleMonotone(d: real, a: real, b: real)
    requires d > 0.0
    ensures a <= b ==> d * a <= d * b
    ensures a < b ==> d * a < d * b
  {
    assert d * b - d * a == d * (b - a);
  }

  /** `format_time`: hours from `time // 3600`, minutes from `(time % 3600) // 60` and seconds
      from `time % 60`, with Python's floored division and modulo. Minutes and seconds are
      below 60, and together the three fields give back the whole seconds of `time`, for
      negative durations too. */
  function FormatTime(time: real): (r: Hms)
    ensures 0 <= r.minutes < 60 && 0 <= r.seconds < 60
    ensures 3600 * r.hours + 60 * r.minutes + r.seconds == time.Floor
    ensures 0.0 <= time ==> 0 <= r.hours
  {
    var hours := (time / 3600.0).Floor;
    var rem := FlooredMod(time, 3600.0);
    var minutes := (rem / 60.0).Floor;
    var seconds := FlooredMod(time, 60.0).Floor;
    FormatTimeSum(time, hours, rem, minutes);
    Hms(hours, minutes, seconds)
  }

  lemma FormatTimeSum(time: real, hours: int, rem: real, minutes: int)
    requires hours == (time / 3600.0).Floor
    requires rem == time - 3600.0 * hours as real && 0.0 <= rem < 3600.0
    requires minutes == (rem / 60.0).Floor
    ensures 0 <= minutes < 60
    ensures 3600 * hours + 60 * minutes + FlooredMod(time, 60.0).Floor == time.Floor
  {
    assert time / 60.0 == (60 * hours) as real + rem / 60.0;
    assert (time / 60.0).Floor == 60 * hours + minutes;
    var s := FlooredMod(time, 60.0);
    assert s == rem - 60.0 * minutes as real;
    assert time == s + (3600 * hours + 60 * minutes) as real;
  }
}
