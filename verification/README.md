# Rendezvous GNC and mission logic in KSP, modelled in Dafny

This project models the guidance, navigation and control (GNC) arithmetic and the mission-phase
decision logic of *rendezvous-in-KSP*. That program flies a chaser vessel to a target in Kerbal
Space Program through kRPC. The game, the telemetry streams and the clock become parameters.
Transcendental functions (`sin`, `cos`, `tan`, `atan`, `sqrt`, `exp`, `log10`, `x**(2/3)`) and
π are fields of an uninterpreted `RealMath.Transcendentals` record. Each property that needs
one of their laws states it as a named assumption, such as `TrigAtZero`, `TrigAtHalfTurn`,
`ExpLaws`, `LogLaws` or `SqrtLaws`. All numbers are exact reals, with no float rounding.

Modules, following the program's structure:

- `RealMath`, `Outcomes`, `LinearAlgebra`: uninterpreted transcendentals, an error/result
  type, and small vectors and matrices as `seq<real>` / `seq<seq<real>>`.
- `CwDynamics`: the Clohessy–Wiltshire state-space matrices for the in-plane (4-state) and
  out-of-plane (2-state) motion, and their controllability.
- `Lqr`: the LQR problem sizing and the feedback law `u = −K·(x − r)`. The gain `K` comes
  from a solver passed in as a function.
- `RelativeStates`, `Navigation`: the split of a relative position/velocity sample into the
  two plane states.
- `GuidanceProfiles`, `Guidance`: the quintic smooth profile per axis, the smooth reference,
  and the closed-form CW free-drift reference. The closed form is shown to solve the dynamics
  matrix of `CwDynamics`.
- `GncInit`: the constants and sharing wired by `init_gnc_classes`.
- `OrbitalDynamics`: the orbital-mechanics helpers, including `format_time`.
- `NodeHelper`, `RcsControl`: manoeuvre-node dispatch, the throttle law, burn time, and RCS
  actuation.
- `CloseRange`, `Homing`, `Phasing`, `OrbitRaise`: the four mission phases. Each loop is a
  method over a finite sequence of telemetry samples, one per cycle.

## Model

| member | source | states |
|---|---|---|
| CwDynamics.FreeDynamics | src/gnc/cw_linear_dynamics.py:24-33 | The free-dynamics matrix is square, 4×4 in plane and 2×2 out of plane. |
| CwDynamics.ControlledDynamics | src/gnc/cw_linear_dynamics.py:35-37 | The input matrix has as many rows as states: 4×2 in plane and 2×1 out of plane. |
| CwDynamics.StateSpaceIsCw | src/gnc/cw_linear_dynamics.py:21-50 | For either plane, A·x + B·u equals the Clohessy–Wiltshire rates of x under input u. The matrices depend only on the stored n. |
| CwDynamics.InPlaneStateSpace | src/gnc/cw_linear_dynamics.py:24-37 | In plane, A·x + B·u is (ẋ, ẏ, 3n²x − 2nẏ + uₓ, 2nẋ + u_y). Position rates equal velocity, and B acts as identity on the velocity rows only. |
| CwDynamics.OutOfPlaneStateSpace | src/gnc/cw_linear_dynamics.py:44-50 | Out of plane, A·x + B·u is (ż, −n²z + u_z): a harmonic oscillator at rate n, driven on the velocity row. |
| CwDynamics.ControllabilityMatrix | src/gnc/cw_linear_dynamics.py:24-50 | [B \| A·B] is square: 4×4 in plane and 2×2 out of plane. |
| CwDynamics.InPlaneProductValue | src/gnc/cw_linear_dynamics.py:24-37 | In plane, A·B has the exact entries 1 on the position rows, and −2n and 2n on the velocity rows. |
| CwDynamics.OutOfPlaneProductValue | src/gnc/cw_linear_dynamics.py:44-50 | Out of plane, A·B is [[1],[0]]. |
| CwDynamics.ControllabilityMatrixValue | src/gnc/cw_linear_dynamics.py:24-50 | The explicit entries of [B \| A·B] for each plane. |
| CwDynamics.Controllable | src/gnc/cw_linear_dynamics.py:24-50 | For every n, only the zero vector is sent to zero by [B \| A·B] (full rank). So the pair handed to the Riccati solve is controllable. |
| Lqr.Synthesize | src/gnc/lqr_continuous_ctrl.py:23-32 | The controller keeps its costs and dynamics. Its gain is the solver's answer for a problem whose A and B are the plane's dynamics and whose Q and R are square of the matching sizes. |
| Lqr.ProblemOf | src/gnc/lqr_continuous_ctrl.py:23-30 | The problem uses the plane's A and B. Q is square, sized by the rows of A; R is square, sized by the columns of B. |
| Lqr.ProblemWeights | src/gnc/lqr_continuous_ctrl.py:25-30 | Q acts as multiplication by the state cost and R as multiplication by the control cost (Q·I, R·I). The pair is controllable. |
| Lqr.Control | src/gnc/lqr_continuous_ctrl.py:34-35 | The command has one entry per row of K, the number of inputs. |
| Lqr.ControlAtReference | src/gnc/lqr_continuous_ctrl.py:35 | A state equal to the reference gives the zero command. |
| Lqr.ControlScales | src/gnc/lqr_continuous_ctrl.py:35 | Scaling the tracking error by k scales the command by k. |
| Lqr.ControlAdds | src/gnc/lqr_continuous_ctrl.py:35 | The command for the sum of two errors is the sum of their commands. |
| Lqr.ControlTranslationInvariant | src/gnc/lqr_continuous_ctrl.py:35 | Shifting state and reference by the same vector leaves the command unchanged. |
| Lqr.Command | src/mission/close_range.py:132-134 | The 3-vector command is the two in-plane command entries followed by the out-of-plane one. |
| Lqr.CommandAtReference | src/mission/close_range.py:132-134 | Both planes at their reference give the command (0, 0, 0). |
| Navigation.Output | src/gnc/navigation.py:19-34 | The in-plane state is (p₀, p₁, v₀, v₁) and the out-of-plane state is (p₂, v₂), of lengths 4 and 2. |
| Navigation.RecombineOutput | src/gnc/navigation.py:19-34 | Recombining the two plane states gives back the sample unchanged. Every component appears exactly once. |
| Navigation.OutputRecombine | src/gnc/navigation.py:19-34 | Splitting a recombined pair of plane states gives back the same pair. The split is a bijection. |
| GuidanceProfiles.FormalDerivative | src/initialization/gnc_init.py:62-66 | Coefficient i of the derivative polynomial is (i+1) times coefficient i+1 of the original, one degree lower. |
| GuidanceProfiles.StandardCoefficientsChain | src/initialization/gnc_init.py:62-66 | The velocity coefficients [0,0,30,−60,30] are the derivative of [0,0,0,10,−15,6], and [0,60,−180,120] is the derivative of those. Velocity and acceleration vanish at both ends. |
| GuidanceProfiles.NewSmoothProfile | src/gnc/guidance/guidance_profiles.py:33-36 | A new profile keeps the shared parameters and their normalised polynomials, and has no segment yet. |
| GuidanceProfiles.StandardParameters | src/initialization/gnc_init.py:62-66 | The shared parameters are a quintic from 0 at τ = 0 to 1 at τ = 1. The velocity and acceleration polynomials are its successive derivatives, and the velocity is zero at both ends. |
| GuidanceProfiles.Pos | src/gnc/guidance/guidance_profiles.py:49-50 | The position is p_i where the normalised position is 0 and p_f where it is 1. A segment with p_i = p_f stays at p_i. |
| GuidanceProfiles.Vel | src/gnc/guidance/guidance_profiles.py:53-54 | The velocity times the duration is the normalised velocity times (p_f − p_i). It is zero where the normalised velocity is zero, and everywhere when p_i = p_f. |
| GuidanceProfiles.ConfigProfile | src/gnc/guidance/guidance_profiles.py:38-46 | Configuring sets p_i, p_f and the duration, and leaves the parameters and normalised polynomials untouched. |
| GuidanceProfiles.PosEndpoints | src/gnc/guidance/guidance_profiles.py:49-50 | With the standard coefficients, pos(0) = p_i and pos(1) = p_f. |
| GuidanceProfiles.VelEndpoints | src/gnc/guidance/guidance_profiles.py:53-54 | With the standard coefficients and a nonzero duration, vel(0) = vel(1) = 0. |
| GuidanceProfiles.NormPosBounded | src/gnc/guidance/guidance_profiles.py:49-50 | The normalised position 10t³ − 15t⁴ + 6t⁵ lies in [0, 1] for t in [0, 1]. |
| GuidanceProfiles.PosBetweenEndpoints | src/gnc/guidance/guidance_profiles.py:49-50 | For τ in [0, 1], pos(τ) lies between p_i and p_f, whichever is larger. |
| GuidanceProfiles.VelTowardsTarget | src/gnc/guidance/guidance_profiles.py:53-54 | For τ in [0, 1] and a positive duration, the velocity never points away from p_f. |
| GuidanceProfiles.StationarySegment | src/gnc/guidance/guidance_profiles.py:49-54 | If p_i = p_f, the position is p_i and the velocity is 0 at every τ, for any coefficients. |
| Guidance.SmoothReference | src/gnc/guidance/guidance.py:24-42 | The in-plane reference is (pos₀, pos₁, vel₀, vel₁) and the out-of-plane one is (pos₂, vel₂), all at the same τ and read from the current profiles. |
| Guidance.SmoothReferenceEndpoints | src/gnc/guidance/guidance.py:24-42 | With standard profiles, the reference at τ = 0 is the start positions at rest, and at τ = 1 the end positions at rest. |
| Guidance.CwClosedForm | src/gnc/guidance/guidance.py:58-80 | The free drift has state vectors of lengths 4 and 2. With cos = 1, sin = 0 and τ = 0 the positions are the initial ones. Its meaning is proved by CwClosedFormInitial, CwClosedFormIsWaves and CwClosedFormSolvesDynamics. |
| Guidance.CwReference | src/gnc/guidance/guidance.py:45-82 | The reference at τ is the closed form at cos(nτ) and sin(nτ). At τ = 0, given sin 0 = 0 and cos 0 = 1, the positions are the initial ones. Its meaning is proved by CwReferenceAtZero, CwPlanesDecoupled and CwSolvesDynamics. |
| Guidance.CwClosedFormInitial | src/gnc/guidance/guidance.py:58-80 | With cos = 1 and sin = 0, the closed form returns exactly (x₀, y₀, ẋ₀, ẏ₀) and (z₀, ż₀). |
| Guidance.CwReferenceAtZero | src/gnc/guidance/guidance.py:58-80 | Given sin 0 = 0 and cos 0 = 1, the CW reference at τ = 0 is the initial state. |
| Guidance.CwPlanesDecoupled | src/gnc/guidance/guidance.py:59-79 | z and ż depend only on z₀, ż₀ and n. The in-plane outputs never depend on z₀ or ż₀. |
| Guidance.CwClosedFormIsWaves | src/gnc/guidance/guidance.py:58-80 | Each closed-form component is a combination of cos nτ, sin nτ, τ and 1. The along-track secular coefficient is 6n·x₀ − 3ẏ₀. |
| Guidance.CwClosedFormSolvesDynamics | src/gnc/guidance/guidance.py:58-80 | Differentiating the closed form gives the free CW rates of the closed form itself, in both planes. |
| Guidance.CwSolvesDynamics | src/gnc/guidance/guidance.py:45-82 | The CW reference satisfies ẋ = A·x for the A matrices of the dynamics model, at every τ. |
| Guidance.FreeRates | src/gnc/cw_linear_dynamics.py:24-50 | A·x equals the CW rates with zero input. |
| Guidance.InPlaneRates | src/gnc/guidance/guidance.py:59-78 | The derivative of the in-plane closed form equals the in-plane A applied to it. |
| Guidance.OutOfPlaneRates | src/gnc/guidance/guidance.py:70-79 | The derivative of the out-of-plane closed form equals the out-of-plane A applied to it. |
| GncInit.InitGnc | src/initialization/gnc_init.py:43-71 | Both dynamics and the CW guidance use the target's orbital rate n. Both controllers use Q = 10³ and R = 10⁵, with gains from the solver. Three profiles are built from the standard parameters. |
| GncInit.InitGncConsistent | src/initialization/gnc_init.py:43-71 | Both controllers and the CW guidance share one n. Every profile's velocity polynomial is the derivative of its position polynomial. |
| OrbitalDynamics.PhaseOffset | src/physics/orb_dyn_utils.py:16-33 | φ + (π + ω_chaser) = ta + ω_target. |
| OrbitalDynamics.PhaseOffsetRotation | src/physics/orb_dyn_utils.py:22-26 | Turning both arguments of periapsis by the same angle leaves φ unchanged. Turning the anomaly turns φ by the same amount. |
| OrbitalDynamics.EccentricAnomalyAtZeroOffset | src/physics/orb_dyn_utils.py:35-42 | Given tan 0 = atan 0 = 0, a zero phase offset gives a zero eccentric-anomaly difference. |
| OrbitalDynamics.EccentricAnomalyDifference | src/physics/orb_dyn_utils.py:35-42 | For a circular target orbit (e = 0), given square-root laws, dE = 2·atan(tan(φ/2)): the eccentric anomaly moves with the phase offset. When tan(φ/2) = 0 and atan 0 = 0, dE = 0. |
| OrbitalDynamics.TimeDifference | src/physics/orb_dyn_utils.py:44-55 | t·2π = (dE − e·sin dE)·T. |
| OrbitalDynamics.TimeDifferenceSpecialCases | src/physics/orb_dyn_utils.py:44-55 | time_difference(0, e, T) = 0, and with e = 0 it is dE·T/(2π). |
| OrbitalDynamics.SemiMajAxisFromPeriod | src/physics/orb_dyn_utils.py:114-117 | Given square-root and two-thirds-power laws, a non-negative period and μ ≥ 0: a ≥ 0 and 4π²·a³ = μ·T², Kepler's third law. |
| OrbitalDynamics.ApsisFromPeriodAnd2ndApsis | src/physics/orb_dyn_utils.py:119-120 | The result plus the given apsis is twice the semi-major axis of the period. |
| OrbitalDynamics.SemiMajAxisFromApsises | src/physics/orb_dyn_utils.py:102-112 | The result is the mean of the two apsides and lies between them. |
| OrbitalDynamics.ApsisRoundTrip | src/physics/orb_dyn_utils.py:102-120 | Averaging the computed apsis with the given one gives back the semi-major axis of the period. |
| OrbitalDynamics.PhasingPeriodValidity | src/physics/orb_dyn_utils.py:57-60 | True exactly when the apsis opposite the given apoapsis on an orbit of that period is above R_eq + 100000 m. |
| OrbitalDynamics.OrbitalVelocity | src/physics/orb_dyn_utils.py:62-72 | When the radius equals the semi-major axis, the vis-viva speed is the circular speed √(μ/r). |
| OrbitalDynamics.VisViva | src/physics/orb_dyn_utils.py:62-72 | Given square-root laws, the velocity is non-negative and its square is μ(2/r − 1/a). |
| OrbitalDynamics.DeltaV | src/physics/orb_dyn_utils.py:74-89 | Δv plus the current velocity at r is the new velocity at r. |
| OrbitalDynamics.DeltaVAntisymmetric | src/physics/orb_dyn_utils.py:74-89 | delta_v(r, a, a) = 0, and swapping the two semi-major axes negates delta_v. |
| OrbitalDynamics.OrbitalRate | src/physics/orb_dyn_utils.py:91-100 | Given square-root laws, a > 0 and μ ≥ 0: n ≥ 0, and n·a is the orbital speed on the circular orbit of radius a. |
| OrbitalDynamics.KeplerThirdLaw | src/physics/orb_dyn_utils.py:91-100 | Given square-root laws, the orbital rate satisfies n²·a³ = μ. |
| OrbitalDynamics.FlooredMod | src/physics/orb_dyn_utils.py:132-133 | Python's floored `%` by a positive divisor lies in [0, divisor). |
| OrbitalDynamics.FormatTime | src/physics/orb_dyn_utils.py:122-134 | Minutes and seconds are in [0, 59], and 3600h + 60m + s = ⌊time⌋. Hours are non-negative for a non-negative time. |
| CloseRange.NormTime | src/mission/close_range.py:64-65 | τ·duration = time − t₀. |
| CloseRange.NormTimeEndpoints | src/mission/close_range.py:64-65 | norm_time(t₀) = 0 and norm_time(t₀ + duration) = 1, and τ grows with time for a positive duration. |
| CloseRange.InsideTolerance | src/mission/close_range.py:67-82 | False whenever τ < 1. For τ ≥ 1, true exactly when all three axis errors are strictly below the tolerance. |
| CloseRange.ConfigureGuidance | src/mission/close_range.py:104-110 | Profile i runs from the current position i to final_state[i] over the same duration. The guidance is then ready to evaluate. |
| CloseRange.CloseRangeCycle | src/mission/close_range.py:116-147 | Guidance is read at min(τ, 1) ≤ 1. No command is issued exactly when inside tolerance. Otherwise the command is (u_inplane₀, u_inplane₁, u_out) on the navigation output. |
| CloseRange.CycleAfterSegment | src/mission/close_range.py:116-147 | Past the segment end, the reference is the final position at rest. A chaser exactly at the final position gets no command if and only if the tolerance is positive (the default is 3 m). With a tolerance of zero or less, a chaser there at rest gets the zero command. |
| CloseRange.RunCloseRange | src/mission/close_range.py:101-147 | The profiles are configured once. Each cycle runs while the previously read time is below t₀ + 2·duration, and stops at the first time past it. Every cycle is CloseRangeCycle on its sample. |
| Homing.TargetRate | src/mission/homing.py:35 | w·T = 2π. |
| Homing.CwHohmannTransfer | src/mission/homing.py:34-47 | An error exactly when the target radius is below the chaser's. Otherwise Δh = r_t − r_c ≥ 0, 4Δy = 3πΔh, 4Δv = wΔh, y_i + Δy = 1000 and y_i ≤ 1000. |
| Homing.SeedIsDriftPlusBurn | src/mission/homing.py:82-85 | The seed along-track velocity 7w/4·\|Δh\| is the drift 3/2·w·Δh plus the burn Δv. |
| Homing.TransferBurn | src/mission/homing.py:86-91 | The node is add_node of Δv prograde, 5 s after the current time, with no normal or radial part. |
| Homing.HalfTurnOfSeed | src/gnc/guidance/guidance.py:58-80 | From a seed of this shape, half a turn later the closed form is at x = 0 and ẋ = 0, y = y₀ + 3π/4·x₀, with ẏ = −n·x₀/4. |
| Homing.HoldPoint | src/mission/homing.py:81-119 | At τ = T/2 the seeded CW reference is at (0, 1000, 0) with ẋ = 0. Its along-track velocity plus Δv is zero, so the second burn cancels it. This assumes the guidance rate n equals 2π/T. The program's n is √(μ/a³) from the target's semi-major axis, which equals 2π/T only by Kepler's third law applied to the period the game reports. |
| Homing.PhaseContext | src/mission/homing.py:81-85 | The reference closure is the CW reference from the seed (\|Δh\|, y_i, 0), (0, 7w/4·\|Δh\|, 0). |
| Homing.HomingCycle | src/mission/homing.py:100-131 | For τ ≤ T/4 nothing happens. For T/4 < τ ≤ T/2 the reference is the closure at τ. Afterwards the held reference is used, and an error arises if none was ever set. The burn happens exactly on the first cycle past T/2. The command tracks the reference. |
| Homing.PastHalfSeen | src/mission/homing.py:111-119 | Once a cycle past T/2 has run, every later cycle sees it. |
| Homing.CycleBookkeeping | src/mission/homing.py:100-119 | One cycle keeps the burn flag equal to "a cycle past T/2 has run". It burns exactly on the first such cycle. |
| Homing.RunHoming | src/mission/homing.py:93-131 | Cycles run while the previous τ is below T. Each cycle is HomingCycle on its sample. A failure happens only past T/2 after idle cycles. The burn happens exactly on the first cycle past T/2, at most once. |
| Homing.BurnsAtMostOnce | src/mission/homing.py:93-119 | In a run whose burns follow the first-past-half rule, no two cycles burn. |
| Phasing.Behind | src/mission/phasing.py:23-25 | The chaser is behind exactly when φ ≥ 0. |
| Phasing.WrapTargetAnomaly | src/mission/phasing.py:34-41 | The anomaly less the desired final phase in radians gains 2π once, exactly when it is negative. |
| Phasing.PhaseDifference | src/mission/phasing.py:31-47 | φ is the phase offset for the wrapped anomaly. |
| Phasing.PhasingTimeDifference | src/mission/phasing.py:49-60 | The time difference is Kepler's time for the eccentric-anomaly difference of \|φ\|. |
| Phasing.TimeDifferenceIsSignFree | src/mission/phasing.py:51-60 | The time difference is the same for φ and −φ. |
| Phasing.ComputePhasingPeriod | src/mission/phasing.py:62-68 | Behind: (T − p)·k = Δt. Ahead: (p − T)·k = Δt. |
| Phasing.PhasingMakesUpDifference | src/mission/phasing.py:62-68 | k phasing orbits differ from k target orbits by exactly Δt. A larger k keeps the period closer to T. |
| Phasing.InBandIsValid | src/mission/phasing.py:76-80 | Inside the band [R_eq + 100000, 1.3·target apoapsis], the phasing orbit passes phasing_period_validity unless the apsis sits on the lower bound. |
| Phasing.UpdatePhasingPeriod | src/mission/phasing.py:70-92 | Starting at k = 1 and adding one at a time, the search returns the first k whose apsis is in the band. Every smaller k was rejected. The period is the one for k. |
| Phasing.CircManeuverTime | src/mission/phasing.py:108-117 | The second burn is time_to_apoapsis (behind) or time_to_periapsis (ahead), plus T_phasing·(n − 1). |
| Phasing.CircSemiMajorAxis | src/mission/phasing.py:119-126 | a_target − a = 2·(target apoapsis − desired apoapsis). It equals a_target when the apoapsides agree. |
| Phasing.PlanPhasing | src/mission/phasing.py:131-163 | The default path computes φ, behind, Δt, the period for 3 orbits and its semi-major axis, and never searches for k. |
| Phasing.PhasingNodes | src/mission/phasing.py:94-129 | The first burn is at the apoapsis time, into the phasing orbit. The second is at the circularisation time, into the lowered target semi-major axis. Both are prograde only. |
| NodeHelper.AddNode | src/helpers/node_helper.py:69-85 | An invalid-direction error exactly for a name other than prograde, normal or radial. A relative time is offset by the current ut. Only the named component is set. |
| NodeHelper.AddNodeRelativeIsAbsolute | src/helpers/node_helper.py:76-77 | A relative time t at ut adds the same node as the absolute time t + ut. |
| NodeHelper.ThrustController | src/helpers/node_helper.py:90-96 | Full throttle when remaining Δv / TWR > 1. Otherwise, given log laws, the throttle is in [0, 1] for a ratio in [0, 1]. |
| NodeHelper.LogInUnitInterval | src/helpers/node_helper.py:96 | Given log laws, log10(9r + 1) is in [0, 1] for r in [0, 1]. |
| NodeHelper.ThrottleMonotone | src/helpers/node_helper.py:90-96 | More remaining Δv never lowers the throttle. |
| NodeHelper.NextNodeBurnTime | src/helpers/node_helper.py:31-45 | The burn time is 0 for Δv = 0, and non-negative for non-negative inputs. |
| NodeHelper.BurnedMassNonnegative | src/helpers/node_helper.py:42 | The burned mass m − m/e^(Δv/vₑ) is 0 for no Δv and never negative. |
| NodeHelper.PlanNode | src/helpers/node_helper.py:47-65 | The node carries delta_v(r, current a, new a) in the named direction, or an error for an invalid direction. |
| RcsControl.AvailableAcceleration | src/helpers/rcs_ctrl_helper.py:22-30 | Each acceleration times the mass gives back its force, for both force triples. |
| RcsControl.AxisInputs | src/helpers/rcs_ctrl_helper.py:43-47 | The inputs are U₀, U₁ and −U₂. |
| RcsControl.AxisSetting | src/helpers/rcs_ctrl_helper.py:48-52 | setting·a = input, where a is the selected acceleration. The setting has the input's sign, is zero exactly for a zero input, and is in [−1, 1] exactly when \|input\| ≤ a. |
| RcsControl.RcsActuation | src/helpers/rcs_ctrl_helper.py:32-58 | Each setting divides its input by \|acc[0][i]\| for a non-negative input and by \|acc[1][i]\| for a negative one. |
| RcsControl.AxesIndependent | src/helpers/rcs_ctrl_helper.py:48-58 | Each setting depends only on its own axis input. |
| OrbitRaise.RaiseOffset | src/mission/orbit_raise.py:16-21 | offset + (ω_c + Ω_c) = ω_t + Ω_t. |
| OrbitRaise.RaiseAnomalyAsWritten | src/mission/orbit_raise.py:23 | A negative offset gains 2π; any other offset is doubled. |
| OrbitRaise.RaiseAnomaly | src/mission/orbit_raise.py:23 | The intended wrap names the same direction (offset or offset + 2π). It keeps a non-negative offset. For offsets in [−2π, 2π) it lands in [0, 2π). |
| OrbitRaise.AsWrittenDoublesOffset | src/mission/orbit_raise.py:23 | The two wraps agree exactly for offsets ≤ 0. A positive offset is doubled; 1 rad becomes 2 rad. |
| OrbitRaise.PlanAt | src/mission/orbit_raise.py:25-36 | The raised orbit's periapsis is r(ta) and its time is ut(ta). Its semi-major axis is the mean of r(ta) and the desired apoapsis. |
| OrbitRaise.RaisePlanAsWritten | src/mission/orbit_raise.py:16-36 | The plan at the anomaly of line 23. A positive offset is planned at twice the offset. |
| OrbitRaise.RaisePlanIntended | src/mission/orbit_raise.py:16-36 | The plan at the intended anomaly. A non-negative offset is planned at the offset itself. |
| OrbitRaise.RaiseNode | src/mission/orbit_raise.py:37-43 | The node is at the absolute plan time and prograde only. Its Δv turns the current velocity at r(ta) into the raised orbit's. |
| OrbitRaise.NoRaiseNoBurn | src/mission/orbit_raise.py:25-43 | A raise to the semi-major axis already held at the burn radius costs no Δv. |

## Left out

- Game and kRPC plumbing are not modelled. This covers the connector, streams, space-centre helper (warp, frame transforms, SAS modes) and attitude helper. Telemetry values enter as parameters or `Sample`s (universal time, relative position, relative velocity).
- The `transform_position` change of frame between the LVLH command and `rcs_actuation` is not modelled. It is a foreign call, so the loops stop at the LVLH command.
- Busy-waits, sleeps and warps are not modelled: `rcs_node_execution`, `execute_next_node`, the homing `rel_pos()[1] < y_i` poll (src/mission/homing.py:69-74) and every `time.sleep`. They depend on the game clock. Homing takes the transfer computed after the poll.
- Execution of the first homing node and of the recirculation node (`rcs_node_execution`) is a game-side burn loop. Only the planned nodes are modelled.
- The Riccati solve `control.matlab.lqr` is a foreign numerical routine. `Lqr.Synthesize` takes the solver as a function parameter, and the gain is whatever it returns.
- Transcendentals and IEEE floats are not modelled. `sin`, `cos`, `tan`, `atan`, `sqrt`, `exp`, `log10` and `**(2/3)` are uninterpreted, and laws are assumed only where a lemma names them. Float rounding, NaN and infinities are not modelled. Division by zero becomes a `requires` clause. Out-of-domain `sqrt` and `log10` arguments (a `ValueError` in Python) are not modelled: for example e > 1 in `eccentric_anomaly_difference`, r > 2a in the vis-viva speed, a < 0 in `orbital_rate`, and a throttle ratio ≤ −1/9 in `thrust_controller`. Neither is a negative base of `**(2/3)`, which gives a complex number in Python. At such arguments the model returns the uninterpreted real.
- Navigation's telemetry reads are not modelled: a cycle reads one sample. `inside_tolerance` re-reads `rel_pos()` three times (src/mission/close_range.py:72-80), and the model uses the cycle's single sample.
- The dead property definitions nested in `CloseRangeManeuver.__init__` (src/mission/close_range.py:23-45) and the dead duplicate `vessel_control_helper` are not modelled.
- Wiring modules (`rendezvous_docking`, `mission_init`, `game_helper_init`, `rdv_phase`) are not modelled. Plotting scripts and log formats are not modelled either, and `format_time` is modelled as its three integers rather than the string.
- Phasing.UpdatePhasingPeriod: the source's `while True` may never end. The model takes a `fuel` bound and reports, through `settled`, whether the band was reached within `fuel + 1` tries.
- Phasing.Behind: the `behind` setter writes `_behind`, which nothing reads. The model has only the getter `phi >= 0`.
- Phasing.PlanPhasing: `execute_phase` fixes three phasing orbits, and its call to `update_phasing_period` is commented out. The model follows that default path, and the search is modelled on its own.
- Phasing.PhasingNodes: the values the second burn reads after the first burn (time to apsis, the target's orbit) are taken as a second observation. The model does not predict them.
- Homing.HomingCycle: in the source, the first active cycle after T/2 with no reference fails only after the recirculation node has been added and executed, because an unbound name is read when logging. The model reports `UnboundReference` for that cycle and records no burn.
- Homing.CwHohmannTransfer: the model treats the radii as given numbers. The source re-reads them from the game on each call.
- RaiseNode and the homing burns use the default direction "prograde", as the source does. `PlanNode` is applied with `.value` because that direction is always valid.
- CloseRange.RunCloseRange and Homing.RunHoming: a run also ends when the samples run out. The source keeps reading the clock.

## Findings

| source | as written | input that shows it | evidently intended | confidence | as-written member | corrected member |
|---|---|---|---|---|---|---|
| src/mission/orbit_raise.py:23 | `ta += 2π if ta < 0 else ta` adds the offset to itself when it is not negative | an offset of 1.0 rad becomes 2.0 rad, so the burn is planned at the wrong true anomaly | add 2π only to a negative offset and keep any other offset (`ta += 2π if ta < 0 else 0`) | not executed; high | OrbitRaise.RaiseAnomalyAsWritten (exhibited by OrbitRaise.AsWrittenDoublesOffset) | OrbitRaise.RaiseAnomaly |

The plan is modelled both ways. `OrbitRaise.RaisePlanAsWritten` follows line 23 as written, and `OrbitRaise.RaisePlanIntended` uses the corrected wrap.
