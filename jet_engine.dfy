/**
 The throttle / afterburner state machine of the jet engine component.

 The pure part (state record, transition functions, a run over a sequence of
 events) specifies the class `JetEngine`, whose methods update the persistent
 fields in place the way the component's event handlers and its fixed-step
 update do. Floats are modelled as reals.
 */
module Engine {

  import opened RealArith

  /** Mathf.Clamp01: the result lies in [0, 1] and is `x` itself whenever `x` already does. */
  function Clamp01(x: real): (r: real)
    ensures 0.0 <= r <= 1.0
    ensures 0.0 <= x <= 1.0 ==> r == x
    ensures x <= 0.0 ==> r == 0.0
    ensures x >= 1.0 ==> r == 1.0
  {
    if x < 0.0 then 0.0 else if x > 1.0 then 1.0 else x
  }

  function Min(a: real, b: real): real
  {
    if a <= b then a else b
  }

  /** The tunable constants of the engine (serialized fields, never written by the component). */
  datatype Config = Config(thrustDrySL: real, thrustABSL: real, throttleRate: real, throttleStep: real)

  /** The values the component declares as field initialisers. */
  const DefaultConfig := Config(79000.0, 129000.0, 1.0, 0.05)

  /** The persistent state of one engine. */
  datatype EngineState = EngineState(
    throttle: real,
    afterBurner: bool,
    lastAppliedThrust: real,
    isGround: bool,
    startPosition: real)

  /** State after Awake: throttle 0 and afterburner off; the other fields keep their C# defaults. */
  const Initial := EngineState(0.0, false, 0.0, false, 0.0)

  /** The engine's invariant: throttle is a fraction. */
  predicate InRange(s: EngineState)
  {
    0.0 <= s.throttle <= 1.0
  }

  /**
   A discrete throttle step: the current throttle is MULTIPLIED by the signed
   step, then clamped.
   */
  function StepAdjust(throttle: real, delta: real): (r: real)
    ensures 0.0 <= r <= 1.0
  {
    Clamp01(Product(throttle, delta))
  }

  /**
   The continuous ramp of one fixed step, where `change` is rate * dt:
   the up-hold is applied first, then the down-hold, each clamped.
   */
  function RampThrottle(throttle: real, upHeld: bool, downHeld: bool, change: real): (r: real)
    ensures 0.0 <= throttle <= 1.0 ==> 0.0 <= r <= 1.0
    ensures upHeld || downHeld ==> 0.0 <= r <= 1.0
  {
    var afterUp := if upHeld then Clamp01(throttle + change) else throttle;
    if downHeld then Clamp01(afterUp - change) else afterUp
  }

  /** The sea-level thrust the afterburner flag selects. */
  function SelectedThrust(cfg: Config, afterBurner: bool): real
  {
    if afterBurner then cfg.thrustABSL else cfg.thrustDrySL
  }

  /** The thrust magnitude for a throttle fraction and a mode. */
  function ThrustMagnitude(cfg: Config, throttle: real, afterBurner: bool): real
  {
    Product(throttle, SelectedThrust(cfg, afterBurner))
  }

  /** The nozzle reset fires once the body is more than half a metre above the recorded contact height. */
  predicate NozzleResetDue(s: EngineState, y: real)
  {
    y - 0.5 > s.startPosition && s.isGround
  }

  /** What one fixed step samples: the two holds, the time step, the height and whether a nozzle is assigned. */
  datatype TickInput = TickInput(upHeld: bool, downHeld: bool, dt: real, y: real, nozzlePresent: bool)

  /**
   The observable result of one fixed step. `Faulted` is the step that dereferences
   a missing nozzle to reset it, which throws and skips the rest of the update.
   */
  datatype TickOutcome =
    | Faulted
    | Completed(thrust: real, forceApplied: bool, nozzleReset: bool)

  datatype TickResult = TickResult(state: EngineState, outcome: TickOutcome)

  /** One fixed step of the engine. */
  function Tick(cfg: Config, s: EngineState, input: TickInput): TickResult
  {
    var reset := NozzleResetDue(s, input.y);
    if reset && !input.nozzlePresent then
      TickResult(s, Faulted)
    else
      var t := RampThrottle(s.throttle, input.upHeld, input.downHeld, Product(cfg.throttleRate, input.dt));
      var thrust := ThrustMagnitude(cfg, t, s.afterBurner);
      TickResult(s.(throttle := t, lastAppliedThrust := thrust),
                 Completed(thrust, input.nozzlePresent && thrust > 0.0, reset))
  }

  /**
   What one fixed step promises: only the throttle and the recorded thrust change, the
   throttle stays a fraction, the step faults exactly when a due reset meets a missing
   nozzle, and otherwise the thrust is recorded and a force is applied exactly when a
   nozzle is present and the thrust is positive.
   */
  lemma TickFacts(cfg: Config, s: EngineState, input: TickInput)
    ensures var r := Tick(cfg, s, input);
      && r.state.afterBurner == s.afterBurner
      && r.state.isGround == s.isGround && r.state.startPosition == s.startPosition
      && (InRange(s) ==> InRange(r.state))
      && (r.outcome.Faulted? <==> NozzleResetDue(s, input.y) && !input.nozzlePresent)
      && (r.outcome.Faulted? ==> r.state == s)
      && (r.outcome.Completed? ==>
        && r.outcome.nozzleReset == NozzleResetDue(s, input.y)
        && r.state.lastAppliedThrust == r.outcome.thrust
        && (r.outcome.forceApplied <==> input.nozzlePresent && r.outcome.thrust > 0.0))
  {
  }

  /** The events that reach the engine. */
  datatype Event =
    | StepUpPerformed
    | StepDownPerformed
    | ToggleABPerformed
    | CollisionEnter(groundTagged: bool, y: real)
    | FixedUpdate(input: TickInput)

  /** The state after one event. */
  function Apply(cfg: Config, s: EngineState, e: Event): (r: EngineState)
    ensures InRange(s) ==> InRange(r)
    ensures s.isGround ==> r.isGround
  {
    match e
    case StepUpPerformed => s.(throttle := StepAdjust(s.throttle, cfg.throttleStep))
    case StepDownPerformed => s.(throttle := StepAdjust(s.throttle, -cfg.throttleStep))
    case ToggleABPerformed => s.(afterBurner := !s.afterBurner)
    case CollisionEnter(ground, y) => if ground then s.(startPosition := y, isGround := true) else s
    case FixedUpdate(input) => TickFacts(cfg, s, input); Tick(cfg, s, input).state
  }

  /** The state after a sequence of events, in order. */
  function Run(cfg: Config, s: EngineState, events: seq<Event>): EngineState
    decreases |events|
  {
    if events == [] then s else Run(cfg, Apply(cfg, s, events[0]), events[1..])
  }

  // ---------------------------------------------------------------------------
  // Properties of the specification
  // ---------------------------------------------------------------------------

  /** The throttle stays a fraction through any sequence of ramps, steps, toggles and contacts. */
  lemma {:induction false} RunKeepsThrottleInRange(cfg: Config, s: EngineState, events: seq<Event>)
    requires InRange(s)
    ensures InRange(Run(cfg, s, events))
    decreases |events|
  {
    if events != [] {
      RunKeepsThrottleInRange(cfg, Apply(cfg, s, events[0]), events[1..]);
    }
  }

  /** Starting from the state Awake leaves, the throttle is a fraction forever after. */
  lemma {:induction false} ThrottleAlwaysInRange(cfg: Config, events: seq<Event>)
    ensures 0.0 <= Run(cfg, Initial, events).throttle <= 1.0
  {
    RunKeepsThrottleInRange(cfg, Initial, events);
  }

  /** The engine has no exit handler: once grounded, it stays grounded. */
  lemma {:induction false} RunNeverClearsGround(cfg: Config, s: EngineState, events: seq<Event>)
    requires s.isGround
    ensures Run(cfg, s, events).isGround
    decreases |events|
  {
    if events != [] {
      RunNeverClearsGround(cfg, Apply(cfg, s, events[0]), events[1..]);
    }
  }

  /** A step-down with a positive step always drives a non-negative throttle to zero. */
  lemma StepDownZeroes(throttle: real, step: real)
    requires 0.0 <= throttle && step > 0.0
    ensures StepAdjust(throttle, -step) == 0.0
  {
  }

  /** With a step of at most 1, a step-up scales the throttle down (or keeps it), and 0 stays 0. */
  lemma StepUpNeverIncreases(throttle: real, step: real)
    requires 0.0 <= throttle <= 1.0 && 0.0 <= step <= 1.0
    ensures StepAdjust(throttle, step) == throttle * step
    ensures StepAdjust(throttle, step) <= throttle
    ensures throttle == 0.0 ==> StepAdjust(throttle, step) == 0.0
  {
  }

  /** Toggling twice restores the flag, and toggling never touches the throttle. */
  lemma ToggleTwiceRestores(cfg: Config, s: EngineState)
    ensures Apply(cfg, s, ToggleABPerformed).afterBurner == !s.afterBurner
    ensures Apply(cfg, s, ToggleABPerformed).throttle == s.throttle
    ensures Run(cfg, s, [ToggleABPerformed, ToggleABPerformed]) == s
  {
    assert [ToggleABPerformed, ToggleABPerformed][1..] == [ToggleABPerformed];
  }

  /** Holding throttle-up raises the throttle by exactly min(change, 1 - throttle). */
  lemma RampUpRaises(throttle: real, change: real)
    requires 0.0 <= throttle <= 1.0 && change >= 0.0
    ensures RampThrottle(throttle, true, false, change) == throttle + Min(change, 1.0 - throttle)
    ensures RampThrottle(throttle, true, false, change) >= throttle
  {
  }

  /** Holding throttle-down lowers the throttle by exactly min(change, throttle). */
  lemma RampDownLowers(throttle: real, change: real)
    requires 0.0 <= throttle <= 1.0 && change >= 0.0
    ensures RampThrottle(throttle, false, true, change) == throttle - Min(change, throttle)
    ensures RampThrottle(throttle, false, true, change) <= throttle
  {
  }

  /**
   With both holds active, up is applied before down; near full throttle the clamp makes
   that order observable: the result differs from applying down first.
   */
  lemma BothHeldOrderObservable(throttle: real, change: real)
    requires 0.0 < change <= throttle <= 1.0 && throttle + change > 1.0
    ensures RampThrottle(throttle, true, true, change) == 1.0 - change
    ensures RampThrottle(throttle, true, true, change) < throttle
    ensures Clamp01(Clamp01(throttle - change) + change) == throttle
  {
  }

  /** With non-negative thrust constants, the thrust lies between 0 and the selected sea-level thrust. */
  lemma ThrustWithinSelected(cfg: Config, throttle: real, afterBurner: bool)
    requires 0.0 <= throttle <= 1.0
    requires cfg.thrustDrySL >= 0.0 && cfg.thrustABSL >= 0.0
    ensures 0.0 <= ThrustMagnitude(cfg, throttle, afterBurner) <= SelectedThrust(cfg, afterBurner)
  {
  }

  /** A force is applied only with a nozzle and a positive thrust, and that thrust is what is recorded. */
  lemma ForceNeedsNozzleAndThrust(cfg: Config, s: EngineState, input: TickInput)
    requires InRange(s)
    requires cfg.thrustDrySL >= 0.0 && cfg.thrustABSL >= 0.0
    ensures var r := Tick(cfg, s, input);
      r.outcome.Completed? ==>
        && r.outcome.thrust == ThrustMagnitude(cfg, r.state.throttle, s.afterBurner)
        && 0.0 <= r.outcome.thrust <= SelectedThrust(cfg, s.afterBurner)
        && (r.outcome.forceApplied ==> input.nozzlePresent && r.outcome.thrust > 0.0)
  {
    var r := Tick(cfg, s, input);
    if r.outcome.Completed? {
      ThrustWithinSelected(cfg, r.state.throttle, s.afterBurner);
    }
  }

  /** A step-down from 0.8 with the default step lands on 0, not on 0.75. */
  lemma StepDownScenario()
    ensures Run(DefaultConfig, Initial.(throttle := 0.8), [StepDownPerformed]).throttle == 0.0
  {
    StepDownZeroes(0.8, DefaultConfig.throttleStep);
  }

  /** Half throttle, afterburner off, default constants, no holds: 39500 N. */
  lemma DryThrustScenario(input: TickInput)
    requires !input.upHeld && !input.downHeld && input.nozzlePresent
    ensures Tick(DefaultConfig, Initial.(throttle := 0.5), input).outcome
         == Completed(39500.0, true, false)
  {
  }

  /** The new state of a step that does not fault, unfolded (used by the imperative FixedTick). */
  lemma TickCompletedState(cfg: Config, s: EngineState, input: TickInput, change: real, t: real, thrust: real)
    requires !(NozzleResetDue(s, input.y) && !input.nozzlePresent)
    requires change == Product(cfg.throttleRate, input.dt)
    requires t == RampThrottle(s.throttle, input.upHeld, input.downHeld, change)
    requires thrust == ThrustMagnitude(cfg, t, s.afterBurner)
    ensures Tick(cfg, s, input).state == s.(throttle := t, lastAppliedThrust := thrust)
  {
  }

  /** The outcome of a step that does not fault, unfolded (used by the imperative FixedTick). */
  lemma TickCompletedOutcome(cfg: Config, s: EngineState, input: TickInput, change: real, t: real, thrust: real)
    requires !(NozzleResetDue(s, input.y) && !input.nozzlePresent)
    requires change == Product(cfg.throttleRate, input.dt)
    requires t == RampThrottle(s.throttle, input.upHeld, input.downHeld, change)
    requires thrust == ThrustMagnitude(cfg, t, s.afterBurner)
    ensures Tick(cfg, s, input).outcome == Completed(thrust, input.nozzlePresent && thrust > 0.0, NozzleResetDue(s, input.y))
  {
  }

  // ---------------------------------------------------------------------------
  // The component itself
  // ---------------------------------------------------------------------------

  class JetEngine {
    const thrustDrySL: real
    const thrustABSL: real
    const throttleRate: real
    const throttleStep: real

    var throttle01: real
    var afterBurner: bool
    var lastAppliedThrust: real
    var isGround: bool
    var startPosition: real

    function Cfg(): Config
    {
      Config(thrustDrySL, thrustABSL, throttleRate, throttleStep)
    }

    ghost function State(): EngineState
      reads this
    {
      EngineState(throttle01, afterBurner, lastAppliedThrust, isGround, startPosition)
    }

    ghost predicate Valid()
      reads this
    {
      InRange(State())
    }

    /** Awake: throttle 0, afterburner off. */
    constructor (cfg: Config)
      ensures Cfg() == cfg
      ensures State() == Initial && Valid()
    {
      thrustDrySL, thrustABSL := cfg.thrustDrySL, cfg.thrustABSL;
      throttleRate, throttleStep := cfg.throttleRate, cfg.throttleStep;
      throttle01 := 0.0;
      afterBurner := false;
      lastAppliedThrust := 0.0;
      isGround := false;
      startPosition := 0.0;
    }

    /** Multiplies the throttle by `delta` and clamps the product into [0, 1]. */
    method AdjustThrottle(delta: real)
      modifies this`throttle01
      ensures throttle01 == StepAdjust(old(throttle01), delta)
      ensures Valid()
    {
      throttle01 := Clamp01(Product(throttle01, delta));
    }

    /** The step-up event: multiply by +step. */
    method StepUp()
      modifies this`throttle01
      ensures State() == Apply(Cfg(), old(State()), StepUpPerformed)
      ensures Valid()
    {
      AdjustThrottle(throttleStep);
    }

    /** The step-down event: multiply by -step. */
    method StepDown()
      modifies this`throttle01
      ensures State() == Apply(Cfg(), old(State()), StepDownPerformed)
      ensures Valid()
    {
      AdjustThrottle(-throttleStep);
    }

    /** The afterburner toggle: flips the flag unconditionally. */
    method ToggleAB()
      requires Valid()
      modifies this`afterBurner
      ensures afterBurner == !old(afterBurner)
      ensures State() == Apply(Cfg(), old(State()), ToggleABPerformed)
      ensures Valid()
    {
      afterBurner := !afterBurner;
    }

    /** A collision starts: contact with a ground-tagged object records the height and sets the flag. */
    method OnCollisionEnter(groundTagged: bool, y: real)
      requires Valid()
      modifies this`isGround, this`startPosition
      ensures State() == Apply(Cfg(), old(State()), CollisionEnter(groundTagged, y))
      ensures Valid()
    {
      if groundTagged {
        startPosition := y;
        isGround := true;
      }
    }

    /** The held-input ramps of a fixed step: up first, then down, each write clamped. */
    method Ramp(upHeld: bool, downHeld: bool, change: real)
      modifies this`throttle01
      ensures throttle01 == RampThrottle(old(throttle01), upHeld, downHeld, change)
    {
      if upHeld {
        throttle01 := Clamp01(throttle01 + change);
      }
      if downHeld {
        throttle01 := Clamp01(throttle01 - change);
      }
    }

    /** Selects the thrust for the current throttle and mode and records it as the last applied thrust. */
    method RecordThrust() returns (thrust: real)
      modifies this`lastAppliedThrust
      ensures thrust == ThrustMagnitude(Cfg(), throttle01, afterBurner)
      ensures lastAppliedThrust == thrust
    {
      thrust := Product(throttle01, if afterBurner then thrustABSL else thrustDrySL);
      lastAppliedThrust := thrust;
    }

    /**
     One fixed step: the nozzle reset check, the up then down ramps, the thrust selection
     and the decision whether a force is applied.
     */
    method FixedTick(upHeld: bool, downHeld: bool, dt: real, y: real, nozzlePresent: bool)
      returns (outcome: TickOutcome)
      requires Valid()
      modifies this`throttle01, this`lastAppliedThrust
      ensures State() == Tick(Cfg(), old(State()), TickInput(upHeld, downHeld, dt, y, nozzlePresent)).state
      ensures outcome == Tick(Cfg(), old(State()), TickInput(upHeld, downHeld, dt, y, nozzlePresent)).outcome
      ensures Valid()
    {
      ghost var s0 := State();
      ghost var input := TickInput(upHeld, downHeld, dt, y, nozzlePresent);
      var resetDue := y - 0.5 > startPosition && isGround;
      assert resetDue == NozzleResetDue(s0, y);
      if resetDue && !nozzlePresent {
        // the reset dereferences the missing nozzle and the update stops here
        assert Tick(Cfg(), s0, input) == TickResult(s0, Faulted);
        return Faulted;
      }
      var change := Product(throttleRate, dt);
      Ramp(upHeld, downHeld, change);
      var thrust := RecordThrust();
      outcome := Completed(thrust, nozzlePresent && thrust > 0.0, resetDue);
      TickCompletedState(Cfg(), s0, input, change, throttle01, thrust);
      TickCompletedOutcome(Cfg(), s0, input, change, throttle01, thrust);
    }
  }
}
