/** Reference generators: the smooth per-axis profiles (close range) and the closed-form
    Clohessy–Wiltshire free drift (homing). Both return an in-plane and an out-of-plane
    reference state at a time τ. */
module Guidance {
  import opened RealMath
  import opened LinearAlgebra
  import opened RelativeStates
  import opened GuidanceProfiles
  import opened CwDynamics

  /** `SmoothGuidance`: one profile per axis (radial, along-track, cross-track). */
  datatype SmoothGuidance = SmoothGuidance(profiles: seq<SmoothProfile>)

  /** Three profiles, each configured with a nonzero duration. */
  predicate Ready(g: SmoothGuidance)
  {
    && |g.profiles| == 3
    && forall i :: 0 <= i < 3 ==>
         g.profiles[i].segment.Some? && g.profiles[i].segment.value.duration != 0.0
  }

  /** `SmoothGuidance.ref_signal()(τ)`: positions and velocities of axes 0 and 1 in plane,
      position and velocity of axis 2 out of plane, all read at the same τ from the
      profiles' current configuration. */
  function SmoothReference(g: SmoothGuidance, tau: real): (r: PlaneStates)
    requires Ready(g)
    ensures Valid(r)
    ensures r.inPlane[0] == Pos(g.profiles[0], tau) && r.inPlane[1] == Pos(g.profiles[1], tau)
    ensures r.inPlane[2] == Vel(g.profiles[0], tau) && r.inPlane[3] == Vel(g.profiles[1], tau)
    ensures r.outOfPlane == [Pos(g.profiles[2], tau), Vel(g.profiles[2], tau)]
  {
    var p := g.profiles;
    PlaneStates([Pos(p[0], tau), Pos(p[1], tau), Vel(p[0], tau), Vel(p[1], tau)],
                [Pos(p[2], tau), Vel(p[2], tau)])
  }

  /** With the standard quintic shape, the reference starts at rest at the initial
      positions and ends at rest at the final positions. */
  lemma SmoothReferenceEndpoints(g: SmoothGuidance)
    requires Ready(g)
    requires forall i :: 0 <= i < 3 ==> Standard(g.profiles[i])
    ensures SmoothReference(g, 0.0) ==
      PlaneStates([g.profiles[0].segment.value.pI, g.profiles[1].segment.value.pI, 0.0, 0.0],
                  [g.profiles[2].segment.value.pI, 0.0])
    ensures SmoothReference(g, 1.0) ==
      PlaneStates([g.profiles[0].segment.value.pF, g.profiles[1].segment.value.pF, 0.0, 0.0],
                  [g.profiles[2].segment.value.pF, 0.0])
  {
    var p := g.profiles;
    PosEndpoints(p[0]); PosEndpoints(p[1]); PosEndpoints(p[2]);
    VelEndpoints(p[0]); VelEndpoints(p[1]); VelEndpoints(p[2]);
    var r0 := SmoothReference(g, 0.0);
    var r1 := SmoothReference(g, 1.0);
    Equal4(r0.inPlane, [p[0].segment.value.pI, p[1].segment.value.pI, 0.0, 0.0]);
    Equal4(r1.inPlane, [p[0].segment.value.pF, p[1].segment.value.pF, 0.0, 0.0]);
  }

  /** `CWGuidance`: the orbital rate n is its only state. */
  datatype CwGuidance = CwGuidance(n: real)

  /** The closed-form free drift of `CWGuidance.ref_signal` as plain arithmetic: `c` and `s`
      stand for cos(nτ) and sin(nτ). Several terms divide by n, which must be nonzero. */
  function CwClosedForm(n: real, c: real, s: real, tau: real, initialPos: Vector, initialVel: Vector): (r: PlaneStates)
    requires n != 0.0 && |initialPos| == 3 && |initialVel| == 3
    ensures Valid(r)
    ensures c == 1.0 && s == 0.0 && tau == 0.0 ==>
      r.inPlane[0] == initialPos[0] && r.inPlane[1] == initialPos[1] && r.outOfPlane[0] == initialPos[2]
  {
    var x0 := initialPos[0];
    var y0 := initialPos[1];
    var z0 := initialPos[2];
    var xd0 := initialVel[0];
    var yd0 := initialVel[1];
    var zd0 := initialVel[2];
    var x := (2.0 * yd0 / n - 3.0 * x0) * c + xd0 / n * s + (4.0 * x0 - 2.0 * yd0 / n);
    var y := (4.0 * yd0 / n - 6.0 * x0) * s - 2.0 * xd0 / n * c
             + (6.0 * n * x0 - 3.0 * yd0) * tau + (y0 + 2.0 * xd0 / n);
    var z := z0 * c + zd0 / n * s;
    var xd := -n * (2.0 * yd0 / n - 3.0 * x0) * s + xd0 * c;
    var yd := n * (4.0 * yd0 / n - 6.0 * x0) * c + 2.0 * xd0 * s + (6.0 * n * x0 - 3.0 * yd0);
    var zd := -n * z0 * s + zd0 * c;
    PlaneStates([x, y, xd, yd], [z, zd])
  }

  /** The phase nτ of the free drift after τ seconds. */
  function Phase(n: real, tau: real): real { n * tau }

  /** `CWGuidance.ref_signal(initial_pos, initial_vel)(τ)`: the closed form at τ seconds. */
  function CwReference(g: CwGuidance, m: Transcendentals, initialPos: Vector, initialVel: Vector, tau: real): (r: PlaneStates)
    requires g.n != 0.0 && |initialPos| == 3 && |initialVel| == 3
    ensures Valid(r)
    ensures tau == 0.0 && TrigAtZero(m) ==>
      r.inPlane[0] == initialPos[0] && r.inPlane[1] == initialPos[1] && r.outOfPlane[0] == initialPos[2]
  {
    assert Phase(g.n, 0.0) == 0.0;
    CwClosedForm(g.n, Cos(m, Phase(g.n, tau)), Sin(m, Phase(g.n, tau)), tau, initialPos, initialVel)
  }

  /** At τ = 0 (cosine 1, sine 0) the closed form reproduces its initial state exactly. */
  lemma CwClosedFormInitial(n: real, initialPos: Vector, initialVel: Vector)
    requires n != 0.0 && |initialPos| == 3 && |initialVel| == 3
    ensures CwClosedForm(n, 1.0, 0.0, 0.0, initialPos, initialVel) ==
      PlaneStates([initialPos[0], initialPos[1], initialVel[0], initialVel[1]],
                  [initialPos[2], initialVel[2]])
  {
    var r := CwClosedForm(n, 1.0, 0.0, 0.0, initialPos, initialVel);
    var yd0 := initialVel[1];
    assert n * (4.0 * yd0 / n) == 4.0 * yd0;
    Equal4(r.inPlane, [initialPos[0], initialPos[1], initialVel[0], initialVel[1]]);
    Equal2(r.outOfPlane, [initialPos[2], initialVel[2]]);
  }

  lemma CwReferenceAtZero(g: CwGuidance, m: Transcendentals, initialPos: Vector, initialVel: Vector)
    requires g.n != 0.0 && |initialPos| == 3 && |initialVel| == 3
    requires TrigAtZero(m)
    ensures CwReference(g, m, initialPos, initialVel, 0.0) ==
      PlaneStates([initialPos[0], initialPos[1], initialVel[0], initialVel[1]],
                  [initialPos[2], initialVel[2]])
  {
    assert Phase(g.n, 0.0) == 0.0;
    CwClosedFormInitial(g.n, initialPos, initialVel);
  }

  /** The cross-track reference depends only on z₀, ż₀, n and τ, and the in-plane reference
      never depends on them. */
  lemma CwPlanesDecoupled(g: CwGuidance, m: Transcendentals, p: Vector, v: Vector, p': Vector, v': Vector, tau: real)
    requires g.n != 0.0 && |p| == |v| == |p'| == |v'| == 3
    ensures p[2] == p'[2] && v[2] == v'[2] ==>
      CwReference(g, m, p, v, tau).outOfPlane == CwReference(g, m, p', v', tau).outOfPlane
    ensures p[0] == p'[0] && p[1] == p'[1] && v[0] == v'[0] && v[1] == v'[1] ==>
      CwReference(g, m, p, v, tau).inPlane == CwReference(g, m, p', v', tau).inPlane
  {
    if p[2] == p'[2] && v[2] == v'[2] {
      OutOfPlaneDecoupled(g, m, p, v, p', v', tau);
    }
    if p[0] == p'[0] && p[1] == p'[1] && v[0] == v'[0] && v[1] == v'[1] {
      InPlaneDecoupled(g, m, p, v, p', v', tau);
    }
  }

  /** The out-of-plane half of `CwPlanesDecoupled`. */
  lemma OutOfPlaneDecoupled(g: CwGuidance, m: Transcendentals, p: Vector, v: Vector, p': Vector, v': Vector, tau: real)
    requires g.n != 0.0 && |p| == |v| == |p'| == |v'| == 3
    requires p[2] == p'[2] && v[2] == v'[2]
    ensures CwReference(g, m, p, v, tau).outOfPlane == CwReference(g, m, p', v', tau).outOfPlane
  {
    Equal2(CwReference(g, m, p, v, tau).outOfPlane, CwReference(g, m, p', v', tau).outOfPlane);
  }

  /** The in-plane half of `CwPlanesDecoupled`. */
  lemma InPlaneDecoupled(g: CwGuidance, m: Transcendentals, p: Vector, v: Vector, p': Vector, v': Vector, tau: real)
    requires g.n != 0.0 && |p| == |v| == |p'| == |v'| == 3
    requires p[0] == p'[0] && p[1] == p'[1] && v[0] == v'[0] && v[1] == v'[1]
    ensures CwReference(g, m, p, v, tau).inPlane == CwReference(g, m, p', v', tau).inPlane
  {
    Equal4(CwReference(g, m, p, v, tau).inPlane, CwReference(g, m, p', v', tau).inPlane);
  }

  /** A trajectory c·cos(nτ) + s·sin(nτ) + t·τ + k, the shape of every closed-form component,
      evaluated from the cosine and sine values at τ. */
  datatype Wave = Wave(c: real, s: real, t: real, k: real)

  function EvalWave(w: Wave, cos: real, sin: real, tau: real): real
  {
    w.c * cos + w.s * sin + w.t * tau + w.k
  }

  /** The time derivative of a wave, using d/dτ cos(nτ) = −n·sin(nτ) and d/dτ sin(nτ) = n·cos(nτ). */
  function DiffWave(n: real, w: Wave): (d: Wave)
    ensures forall cos: real, sin: real, tau: real ::
      EvalWave(d, cos, sin, tau) == -n * w.c * sin + n * w.s * cos + w.t
  {
    Wave(n * w.s, -(n * w.c), 0.0, w.t)
  }

  function EvalWaves(ws: seq<Wave>, cos: real, sin: real, tau: real): (r: Vector)
    ensures |r| == |ws|
    ensures forall i :: 0 <= i < |ws| ==> r[i] == EvalWave(ws[i], cos, sin, tau)
  {
    seq(|ws|, i requires 0 <= i < |ws| => EvalWave(ws[i], cos, sin, tau))
  }

  /** The time derivatives of a vector of waves with angular rate n, evaluated at τ. */
  function RatesOf(n: real, ws: seq<Wave>, cos: real, sin: real, tau: real): (r: Vector)
    ensures |r| == |ws|
    ensures forall i :: 0 <= i < |ws| ==> r[i] == EvalWave(DiffWave(n, ws[i]), cos, sin, tau)
  {
    seq(|ws|, i requires 0 <= i < |ws| => EvalWave(DiffWave(n, ws[i]), cos, sin, tau))
  }

  /** The coefficients of the in-plane closed form (x, y, ẋ, ẏ). The along-track secular
      drift 6n·x₀ − 3ẏ₀ is the τ coefficient of y and the constant term of ẏ. */
  function CwInPlaneWaves(n: real, initialPos: Vector, initialVel: Vector): (ws: seq<Wave>)
    requires n != 0.0 && |initialPos| == 3 && |initialVel| == 3
    ensures |ws| == 4
  {
    var x0 := initialPos[0];
    var y0 := initialPos[1];
    var xd0 := initialVel[0];
    var yd0 := initialVel[1];
    var a := 2.0 * yd0 / n - 3.0 * x0;
    var d := 4.0 * yd0 / n - 6.0 * x0;
    var drift := 6.0 * n * x0 - 3.0 * yd0;
    [ Wave(a, xd0 / n, 0.0, 4.0 * x0 - 2.0 * yd0 / n),
      Wave(-(2.0 * xd0 / n), d, drift, y0 + 2.0 * xd0 / n),
      Wave(xd0, -n * a, 0.0, 0.0),
      Wave(n * d, 2.0 * xd0, 0.0, drift) ]
  }

  /** The coefficients of the out-of-plane closed form (z, ż). */
  function CwOutOfPlaneWaves(n: real, initialPos: Vector, initialVel: Vector): (ws: seq<Wave>)
    requires n != 0.0 && |initialPos| == 3 && |initialVel| == 3
    ensures |ws| == 2
  {
    var z0 := initialPos[2];
    var zd0 := initialVel[2];
    [ Wave(z0, zd0 / n, 0.0, 0.0), Wave(zd0, -n * z0, 0.0, 0.0) ]
  }

  /** The closed form is exactly the evaluation of those waves. */
  lemma CwClosedFormIsWaves(n: real, c: real, s: real, tau: real, initialPos: Vector, initialVel: Vector)
    requires n != 0.0 && |initialPos| == 3 && |initialVel| == 3
    ensures CwClosedForm(n, c, s, tau, initialPos, initialVel).inPlane
         == EvalWaves(CwInPlaneWaves(n, initialPos, initialVel), c, s, tau)
    ensures CwClosedForm(n, c, s, tau, initialPos, initialVel).outOfPlane
         == EvalWaves(CwOutOfPlaneWaves(n, initialPos, initialVel), c, s, tau)
  {
    InPlaneIsWaves(n, c, s, tau, initialPos, initialVel);
    OutOfPlaneIsWaves(n, c, s, tau, initialPos, initialVel);
  }

  /** The in-plane half of `CwClosedFormIsWaves`. */
  lemma InPlaneIsWaves(n: real, c: real, s: real, tau: real, initialPos: Vector, initialVel: Vector)
    requires n != 0.0 && |initialPos| == 3 && |initialVel| == 3
    ensures CwClosedForm(n, c, s, tau, initialPos, initialVel).inPlane
         == EvalWaves(CwInPlaneWaves(n, initialPos, initialVel), c, s, tau)
  {
    var ws := CwInPlaneWaves(n, initialPos, initialVel);
    var r := CwClosedForm(n, c, s, tau, initialPos, initialVel).inPlane;
    var w := EvalWaves(ws, c, s, tau);
    assert 0.0 * tau == 0.0;
    assert r[0] == w[0] by { assert w[0] == EvalWave(ws[0], c, s, tau); }
    assert r[1] == w[1] by { assert w[1] == EvalWave(ws[1], c, s, tau); }
    assert r[2] == w[2] by { assert w[2] == EvalWave(ws[2], c, s, tau); }
    assert r[3] == w[3] by { assert w[3] == EvalWave(ws[3], c, s, tau); }
    Equal4(r, w);
  }

  /** The out-of-plane half of `CwClosedFormIsWaves`. */
  lemma OutOfPlaneIsWaves(n: real, c: real, s: real, tau: real, initialPos: Vector, initialVel: Vector)
    requires n != 0.0 && |initialPos| == 3 && |initialVel| == 3
    ensures CwClosedForm(n, c, s, tau, initialPos, initialVel).outOfPlane
         == EvalWaves(CwOutOfPlaneWaves(n, initialPos, initialVel), c, s, tau)
  {
    Equal2(CwClosedForm(n, c, s, tau, initialPos, initialVel).outOfPlane,
           EvalWaves(CwOutOfPlaneWaves(n, initialPos, initialVel), c, s, tau));
  }

  /** The closed form solves the Clohessy–Wiltshire equations of the dynamics model: the time
      derivative of the reference equals A times the reference, in plane and out of plane,
      for the same n, whatever the cosine and sine values. */
  lemma CwClosedFormSolvesDynamics(n: real, c: real, s: real, tau: real, initialPos: Vector, initialVel: Vector)
    requires n != 0.0 && |initialPos| == 3 && |initialVel| == 3
    ensures RatesOf(n, CwInPlaneWaves(n, initialPos, initialVel), c, s, tau)
         == MatVec(FreeDynamics(Dynamics(InPlane, n)), CwClosedForm(n, c, s, tau, initialPos, initialVel).inPlane)
    ensures RatesOf(n, CwOutOfPlaneWaves(n, initialPos, initialVel), c, s, tau)
         == MatVec(FreeDynamics(Dynamics(OutOfPlane, n)), CwClosedForm(n, c, s, tau, initialPos, initialVel).outOfPlane)
  {
    var r := CwClosedForm(n, c, s, tau, initialPos, initialVel);
    CwClosedFormIsWaves(n, c, s, tau, initialPos, initialVel);
    InPlaneRates(n, c, s, tau, initialPos, initialVel);
    OutOfPlaneRates(n, c, s, tau, initialPos, initialVel);
    FreeRates(Dynamics(InPlane, n), r.inPlane);
    FreeRates(Dynamics(OutOfPlane, n), r.outOfPlane);
  }

  /** The same statement for `CWGuidance.ref_signal`, with the cosine and sine of nτ. */
  lemma CwSolvesDynamics(g: CwGuidance, m: Transcendentals, initialPos: Vector, initialVel: Vector, tau: real)
    requires g.n != 0.0 && |initialPos| == 3 && |initialVel| == 3
    ensures RatesOf(g.n, CwInPlaneWaves(g.n, initialPos, initialVel), Cos(m, Phase(g.n, tau)), Sin(m, Phase(g.n, tau)), tau)
         == MatVec(FreeDynamics(Dynamics(InPlane, g.n)), CwReference(g, m, initialPos, initialVel, tau).inPlane)
    ensures RatesOf(g.n, CwOutOfPlaneWaves(g.n, initialPos, initialVel), Cos(m, Phase(g.n, tau)), Sin(m, Phase(g.n, tau)), tau)
         == MatVec(FreeDynamics(Dynamics(OutOfPlane, g.n)), CwReference(g, m, initialPos, initialVel, tau).outOfPlane)
  {
    var c := Cos(m, Phase(g.n, tau));
    var s := Sin(m, Phase(g.n, tau));
    assert CwReference(g, m, initialPos, initialVel, tau) == CwClosedForm(g.n, c, s, tau, initialPos, initialVel);
    CwClosedFormSolvesDynamics(g.n, c, s, tau, initialPos, initialVel);
  }

  /** Without input, A·x is the Clohessy–Wiltshire rate vector. */
  lemma FreeRates(d: Dynamics, x: Vector)
    requires |x| == StateCount(d.plane)
    ensures MatVec(FreeDynamics(d), x) == CwRates(d, x, Zeros(InputCount(d.plane)))
  {
    var u := Zeros(InputCount(d.plane));
    StateSpaceIsCw(d, x, u);
    MatVecZeros(ControlledDynamics(d), InputCount(d.plane));
    var ax := MatVec(FreeDynamics(d), x);
    assert Add(ax, Zeros(|ax|)) == ax;
  }

  /** The in-plane waves rewritten without division: p = ẋ₀/n, q = ẏ₀/n. */
  lemma InPlaneWavesNoDivision(n: real, initialPos: Vector, initialVel: Vector, p: real, q: real)
    requires n != 0.0 && |initialPos| == 3 && |initialVel| == 3
    requires p == initialVel[0] / n && q == initialVel[1] / n
    ensures n * p == initialVel[0] && n * q == initialVel[1]
    ensures var x0 := initialPos[0];
            var a := 2.0 * q - 3.0 * x0;
            var drift := 6.0 * n * x0 - 3.0 * (n * q);
            CwInPlaneWaves(n, initialPos, initialVel) ==
              [ Wave(a, p, 0.0, 4.0 * x0 - 2.0 * q),
                Wave(-(2.0 * p), 2.0 * a, drift, initialPos[1] + 2.0 * p),
                Wave(n * p, -n * a, 0.0, 0.0),
                Wave(n * (2.0 * a), 2.0 * (n * p), 0.0, drift) ]
  {
    var yd0 := initialVel[1];
    var xd0 := initialVel[0];
    assert 2.0 * yd0 / n == 2.0 * q;
    assert 4.0 * yd0 / n == 4.0 * q;
    assert 2.0 * xd0 / n == 2.0 * p;
  }

  /** Radial row, in the division-free coefficients: 3n²x − 2nẏ equals the derivative of ẋ. */
  lemma RadialRate(n: real, a: real, p: real, k: real, drift: real, c: real, s: real, x: real, yd: real)
    requires 3.0 * n * n * k == 2.0 * n * drift
    requires x == a * c + p * s + k
    requires yd == n * (2.0 * a) * c + 2.0 * (n * p) * s + drift
    ensures 3.0 * n * n * x - 2.0 * n * yd == -(n * (n * p)) * s + n * (-n * a) * c
  {
  }

  /** Along-track row, in the division-free coefficients: 2nẋ equals the derivative of ẏ. */
  lemma AlongTrackRate(n: real, a: real, p: real, c: real, s: real, xd: real)
    requires xd == (n * p) * c + (-n * a) * s
    ensures 2.0 * n * xd == -(n * (n * (2.0 * a))) * s + n * (2.0 * (n * p)) * c
  {
  }

  lemma SecularBalance(n: real, x0: real, q: real)
    ensures 3.0 * n * n * (4.0 * x0 - 2.0 * q) == 2.0 * n * (6.0 * n * x0 - 3.0 * (n * q))
  {
  }

  lemma InPlaneRadialRow(n: real, c: real, s: real, tau: real, initialPos: Vector, initialVel: Vector)
    requires n != 0.0 && |initialPos| == 3 && |initialVel| == 3
    ensures RatesOf(n, CwInPlaneWaves(n, initialPos, initialVel), c, s, tau)[2]
         == CwRates(Dynamics(InPlane, n), EvalWaves(CwInPlaneWaves(n, initialPos, initialVel), c, s, tau), Zeros(2))[2]
  {
    var p := initialVel[0] / n;
    var q := initialVel[1] / n;
    var x0 := initialPos[0];
    var a := 2.0 * q - 3.0 * x0;
    var drift := 6.0 * n * x0 - 3.0 * (n * q);
    InPlaneWavesNoDivision(n, initialPos, initialVel, p, q);
    SecularBalance(n, x0, q);
    var ws := CwInPlaneWaves(n, initialPos, initialVel);
    var x := EvalWaves(ws, c, s, tau);
    RadialRate(n, a, p, 4.0 * x0 - 2.0 * q, drift, c, s, x[0], x[3]);
  }

  lemma InPlaneAlongTrackRow(n: real, c: real, s: real, tau: real, initialPos: Vector, initialVel: Vector)
    requires n != 0.0 && |initialPos| == 3 && |initialVel| == 3
    ensures RatesOf(n, CwInPlaneWaves(n, initialPos, initialVel), c, s, tau)[3]
         == CwRates(Dynamics(InPlane, n), EvalWaves(CwInPlaneWaves(n, initialPos, initialVel), c, s, tau), Zeros(2))[3]
  {
    var p := initialVel[0] / n;
    var q := initialVel[1] / n;
    var a := 2.0 * q - 3.0 * initialPos[0];
    InPlaneWavesNoDivision(n, initialPos, initialVel, p, q);
    var ws := CwInPlaneWaves(n, initialPos, initialVel);
    var x := EvalWaves(ws, c, s, tau);
    assert x[2] == EvalWave(ws[2], c, s, tau) == (n * p) * c + (-n * a) * s + 0.0 * tau + 0.0;
    AlongTrackRate(n, a, p, c, s, x[2]);
    var d3 := DiffWave(n, ws[3]);
    assert d3 == Wave(n * (2.0 * (n * p)), -(n * (n * (2.0 * a))), 0.0, 0.0);
    var rate := -(n * (n * (2.0 * a))) * s + n * (2.0 * (n * p)) * c;
    assert EvalWave(d3, c, s, tau) == rate by {
      assert 0.0 * tau == 0.0;
    }
    assert RatesOf(n, ws, c, s, tau)[3] == rate;
    assert Zeros(2)[1] == 0.0;
    assert 2.0 * n * x[2] == rate;
    assert CwRates(Dynamics(InPlane, n), x, Zeros(2))[3] == rate;
  }

  lemma InPlaneRates(n: real, c: real, s: real, tau: real, initialPos: Vector, initialVel: Vector)
    requires n != 0.0 && |initialPos| == 3 && |initialVel| == 3
    ensures RatesOf(n, CwInPlaneWaves(n, initialPos, initialVel), c, s, tau)
         == CwRates(Dynamics(InPlane, n), EvalWaves(CwInPlaneWaves(n, initialPos, initialVel), c, s, tau), Zeros(2))
  {
    var ws := CwInPlaneWaves(n, initialPos, initialVel);
    var lhs := RatesOf(n, ws, c, s, tau);
    var rhs := CwRates(Dynamics(InPlane, n), EvalWaves(ws, c, s, tau), Zeros(2));
    InPlaneRadialRow(n, c, s, tau, initialPos, initialVel);
    InPlaneAlongTrackRow(n, c, s, tau, initialPos, initialVel);
    Equal4(lhs, rhs);
  }

  lemma OutOfPlaneRates(n: real, c: real, s: real, tau: real, initialPos: Vector, initialVel: Vector)
    requires n != 0.0 && |initialPos| == 3 && |initialVel| == 3
    ensures RatesOf(n, CwOutOfPlaneWaves(n, initialPos, initialVel), c, s, tau)
         == CwRates(Dynamics(OutOfPlane, n), EvalWaves(CwOutOfPlaneWaves(n, initialPos, initialVel), c, s, tau), Zeros(1))
  {
    var ws := CwOutOfPlaneWaves(n, initialPos, initialVel);
    var lhs := RatesOf(n, ws, c, s, tau);
    var rhs := CwRates(Dynamics(OutOfPlane, n), EvalWaves(ws, c, s, tau), Zeros(1));
    var zd0 := initialVel[2];
    assert n * (zd0 / n) == zd0;
    Equal2(lhs, rhs);
  }
}
