# Jet engine throttle and glider aerodynamics

A Dafny model of the two pieces of logic in this Unity flight toy.

**The jet engine** (`Assets/Scripts/JetEngine.cs`) is modelled in `jet_engine.dfy`, module `Engine`. It is a small state machine over these fields:

- the throttle fraction;
- the afterburner flag;
- the last applied thrust;
- the ground-contact flag;
- the height recorded at contact.

Several handlers change these fields:

- Discrete step events multiply the throttle by +step or -step and then clamp it into [0, 1]. This multiplicative rule is reproduced as written.
- The afterburner toggle flips its flag.
- A ground collision sets the ground flag and records the height.
- Each fixed update does four things:
  - it checks whether the nozzle reset is due;
  - it ramps the throttle by rate * dt for each held input, up first, then down, clamping each write;
  - it selects the thrust as throttle * (afterburner ? T_ab : T_dry) and records it;
  - it decides whether a force is applied.

The pure functions `Tick`, `Apply` and `Run` are the specification. The class `Engine.JetEngine` updates its fields in place, and each method is proved to move `State()` exactly as the specification does. The invariant that the throttle stays in [0, 1] is proved over every sequence of events.

When the nozzle reset is due but no nozzle is assigned, the component dereferences the missing nozzle at `JetEngine.cs:100`. Nothing guards that line, unlike line 113. The exception ends the update before the ramp. The model reproduces this as the `Faulted` outcome, which leaves the state unchanged.

**The glider** (`Assets/Scripts/Gilder.cs`) is modelled in `gilder.dfy`, module `Gilder`. The aerodynamic coefficient pipeline is a pure function, `CalculateAerodynamics`. It takes the wing parameters, the angle of attack and the point speed, and returns a record with these fields:

- Cl = Cl_alpha * alpha;
- Cd = Cd0 + Cl^2 / (pi * AR * 0.85);
- q = 0.5 * rho * V^2;
- L = q * S * Cl;
- D = q * S * Cd;
- the lift-to-drag ratio, which is 0 when L <= 0.1 and L / D otherwise.

In C# floats, a division by zero yields infinity or NaN. Two evaluations divide by zero: a zero aspect ratio, and a lift above the guard with zero drag. The model returns `None` for both, and proves that a physical wing never meets either.

The glider's ground flag is the small class `Gilder.GroundContact`. Entering a ground collision sets the flag and records the height, and leaving one clears the flag.

`real_arith.dfy`, module `RealArith`, holds sign and monotonicity facts about real products that both models use.

Floats are modelled as reals. The constants 0.5, 0.85 and 0.1 are exact decimals.

## Model

| member | source | states |
|---|---|---|
| Engine.Clamp01 | Assets/Scripts/JetEngine.cs:71 | Mathf.Clamp01 lands in [0, 1]; it is the identity on [0, 1], 0 at or below 0, and 1 at or above 1 |
| Engine.StepAdjust | Assets/Scripts/JetEngine.cs:69-72 | the throttle after a step, clamp01(throttle * delta), is always in [0, 1] |
| Engine.RampThrottle | Assets/Scripts/JetEngine.cs:104-108 | the ramped throttle stays in [0, 1] from a throttle in [0, 1], and is in [0, 1] whenever either hold is active |
| Engine.TickFacts | Assets/Scripts/JetEngine.cs:92-118 | one fixed update changes only the throttle and the recorded thrust, and keeps the throttle in [0, 1]; it faults exactly when a due reset meets a missing nozzle, and then nothing changes; otherwise it records the thrust, reports whether the reset fired, and applies a force exactly when a nozzle is present and the thrust is positive |
| Engine.Apply | Assets/Scripts/JetEngine.cs:46-117 | every event (step up, step down, toggle, collision, fixed update) keeps the throttle in [0, 1] and never clears the ground flag |
| Engine.RunKeepsThrottleInRange | Assets/Scripts/JetEngine.cs:69-108 | from a throttle in [0, 1], any sequence of ramps, steps, toggles, collisions and updates keeps the throttle in [0, 1] |
| Engine.ThrottleAlwaysInRange | Assets/Scripts/JetEngine.cs:35-108 | from the state Awake leaves (throttle 0, afterburner off), the throttle is in [0, 1] after any sequence of events |
| Engine.RunNeverClearsGround | Assets/Scripts/JetEngine.cs:46-53 | the engine has no exit handler, so once grounded it stays grounded through any sequence of events |
| Engine.StepDownZeroes | Assets/Scripts/JetEngine.cs:65-72 | a step-down with a positive step drives any non-negative throttle to exactly 0 |
| Engine.StepUpNeverIncreases | Assets/Scripts/JetEngine.cs:64-72 | with throttle and step in [0, 1], a step-up yields throttle * step, which is at most the throttle, and keeps 0 at 0 |
| Engine.ToggleTwiceRestores | Assets/Scripts/JetEngine.cs:66 | the toggle negates the afterburner flag and leaves the throttle alone; two toggles restore the whole state |
| Engine.RampUpRaises | Assets/Scripts/JetEngine.cs:104-105 | holding throttle-up raises the throttle by exactly min(rate * dt, 1 - throttle), so it never decreases |
| Engine.RampDownLowers | Assets/Scripts/JetEngine.cs:107-108 | holding throttle-down lowers the throttle by exactly min(rate * dt, throttle), so it never increases |
| Engine.BothHeldOrderObservable | Assets/Scripts/JetEngine.cs:104-108 | with both holds active near full throttle, up-then-down yields 1 - change, below the start; down-then-up would have returned the start |
| Engine.ThrustWithinSelected | Assets/Scripts/JetEngine.cs:110 | with non-negative thrust constants, throttle * selected thrust lies in [0, selected thrust] |
| Engine.ForceNeedsNozzleAndThrust | Assets/Scripts/JetEngine.cs:110-117 | a completed update reports the thrust throttle * selected thrust, which lies in [0, selected thrust], and applies a force only with a nozzle and a positive thrust |
| Engine.StepDownScenario | Assets/Scripts/JetEngine.cs:65-71 | from throttle 0.8, a step-down with the default step 0.05 lands on 0, not on 0.75 |
| Engine.DryThrustScenario | Assets/Scripts/JetEngine.cs:110-117 | at half throttle, afterburner off and default constants, the update applies 39500 N with a nozzle present and no reset |
| Engine.JetEngine.constructor | Assets/Scripts/JetEngine.cs:35-44 | Awake leaves throttle 0 and afterburner off, with the other fields at their defaults |
| Engine.JetEngine.AdjustThrottle | Assets/Scripts/JetEngine.cs:69-72 | the throttle becomes clamp01(old throttle * delta), and the invariant holds |
| Engine.JetEngine.StepUp | Assets/Scripts/JetEngine.cs:64 | the state moves as the step-up event specifies |
| Engine.JetEngine.StepDown | Assets/Scripts/JetEngine.cs:65 | the state moves as the step-down event specifies |
| Engine.JetEngine.ToggleAB | Assets/Scripts/JetEngine.cs:66 | the afterburner flag is negated and nothing else changes |
| Engine.JetEngine.OnCollisionEnter | Assets/Scripts/JetEngine.cs:46-53 | a ground-tagged contact records the height and sets the ground flag; any other contact changes nothing |
| Engine.JetEngine.Ramp | Assets/Scripts/JetEngine.cs:104-108 | the two sequential clamped writes yield the specified ramped throttle |
| Engine.JetEngine.RecordThrust | Assets/Scripts/JetEngine.cs:110-111 | the selected thrust is throttle * (afterburner ? T_ab : T_dry) and is stored as the last applied thrust |
| Engine.JetEngine.FixedTick | Assets/Scripts/JetEngine.cs:92-118 | the new state and the outcome (thrust, force applied, reset fired, or the fault) are those of one specified fixed update, and the invariant holds |
| Gilder.InducedDrag | Assets/Scripts/Gilder.cs:88 | for a positive aspect ratio the induced term Cl^2 / (pi AR 0.85) is non-negative, and it is zero exactly when Cl is zero |
| Gilder.DynamicPressure | Assets/Scripts/Gilder.cs:90 | q = 0.5 rho V^2 is non-negative for rho >= 0, positive for rho > 0 and V != 0, and zero when V = 0 |
| Gilder.LiftToDrag | Assets/Scripts/Gilder.cs:93 | the ratio is 0 when the lift is at most 0.1; above that the ratio times the drag gives back the lift |
| Gilder.CalculateAerodynamics | Assets/Scripts/Gilder.cs:87-93 | the pipeline is undefined for a zero aspect ratio and always defined for a physical wing |
| Gilder.GuardImpliesPositiveDrag | Assets/Scripts/Gilder.cs:88-93 | for a physical wing, a lift above the 0.1 guard forces a positive drag |
| Gilder.RatioWellDefined | Assets/Scripts/Gilder.cs:87-93 | for a physical wing the pipeline is defined; above the guard the drag is positive and the ratio is lift / drag, and at or below it the ratio is 0 |
| Gilder.LiftCoefficientLinear | Assets/Scripts/Gilder.cs:87 | Cl is additive and odd in alpha, and zero at alpha = 0 (no stall clamp) |
| Gilder.DragCoefficientBounds | Assets/Scripts/Gilder.cs:88 | for AR > 0, Cd >= Cd0, with equality exactly when Cl = 0, and Cd(alpha) = Cd(-alpha) |
| Gilder.DragAtLeastParasitic | Assets/Scripts/Gilder.cs:88-92 | with rho, S >= 0 and AR > 0, D >= Cd0 q S, so the drag is non-negative when Cd0 is |
| Gilder.LiftFollowsAlpha | Assets/Scripts/Gilder.cs:87-91 | with rho, S, Cl_alpha > 0 and V != 0, the lift is positive exactly when alpha is, and negative exactly when alpha is |
| Gilder.StillAirNoForce | Assets/Scripts/Gilder.cs:90-93 | at V = 0 the pipeline is defined, and q, L, D and the ratio are all 0 |
| Gilder.PressureMonotone | Assets/Scripts/Gilder.cs:90 | for rho >= 0, q does not decrease as the speed grows |
| Gilder.LiftMonotoneInPressure | Assets/Scripts/Gilder.cs:91 | for a fixed Cl of either sign and S >= 0, the lift magnitude abs(q S Cl) does not decrease as q grows from 0 |
| Gilder.LiftMonotoneInSpeed | Assets/Scripts/Gilder.cs:87-91 | for a physical wing, both evaluations are defined, and the lift magnitude on the record does not decrease as the speed grows, for either sign of alpha |
| Gilder.DefaultWingScenario | Assets/Scripts/Gilder.cs:87-91 | the default wing at 0.1 rad and 100 m/s gives Cl = 0.55, q = 6125 Pa and L = 5053.125 N |
| Gilder.ExitUndoesEnter | Assets/Scripts/Gilder.cs:111-126 | entering ground sets the flag and records the height, leaving clears the flag and keeps the height, and non-ground contacts change nothing |
| Gilder.GroundContact.constructor | Assets/Scripts/Gilder.cs:20-21 | the glider starts off the ground, with recorded height 0 |
| Gilder.GroundContact.OnCollisionEnter | Assets/Scripts/Gilder.cs:111-118 | the contact record moves as Enter specifies |
| Gilder.GroundContact.OnCollisionExit | Assets/Scripts/Gilder.cs:120-126 | the contact record moves as Exit specifies |

## Left out

- The telemetry display is not modelled: `OnGUI`, `InitializeGUI` and `CalculateTelemetryRect` only render values.
- The Input System wiring is not modelled: action-map lookup, `OnEnable`/`OnDisable` and `IsPressed()` belong to a foreign library. Held inputs are boolean parameters, and performed actions are method calls.
- Vector geometry is not modelled: point velocity, normalisation, dot and cross products, `Atan2` and the transform axes are library calls and floating-point trigonometry. The angle of attack and the speed are inputs.
- Force application is not modelled: `ApplyAerodynamicForces`, `AddForceAtPosition` and the force modes belong to the rigid-body integrator. The engine models only the thrust magnitude and whether a force is applied.
- The nozzle rotation is not modelled: the reset of its Euler angles is reported as a boolean in the update's outcome.
- The rigid-body setup is not modelled: the centre-of-mass assignment in `Awake` and the unused `_speedMS` speed sample are engine state with no effect on the modelled fields.
- Float rounding is not modelled: reals replace 32-bit floats. The infinity and NaN results of a division by zero appear only as `None`.
- Mathf.PI is the constant 3.1415927; the proofs use only that it is positive.
- The tunable serialized fields are unconstrained parameters. The default values appear only in the scenario lemmas.
- Gilder.InducedDrag: requires a non-zero aspect ratio, because a zero one divides by zero. `CalculateAerodynamics` returns `None` for that case before calling it.
