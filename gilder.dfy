/**
 The aerodynamic coefficient pipeline of the glider component, and its ground-contact flag.

 The angle of attack and the speed of the wing reference point are inputs here: the
 vector geometry that derives them (point velocity, normalisation, dot products,
 atan2) is left to the host engine. Floats are modelled as reals.
 */
module Gilder {

  import opened RealArith

  datatype Option<T> = None | Some(value: T)

  /** Mathf.PI; the proofs use only that it is positive. */
  const Pi: real := 3.1415927

  /** The Oswald efficiency factor of the drag polar. */
  const Oswald: real := 0.85

  /** Lift (in newtons) at or below which the lift-to-drag ratio reads 0. */
  const RatioGuard: real := 0.1

  /** The wing's tunable parameters (serialized fields). */
  datatype Wing = Wing(airDensity: real, wingArea: real, aspectRatio: real, cd0: real, clAlpha: real)

  /** The values the component declares as field initialisers. */
  const DefaultWing := Wing(1.225, 1.5, 8.0, 0.02, 5.5)

  /** Parameters a physical wing has: non-negative density, area and parasitic drag, positive aspect ratio. */
  predicate PhysicalWing(w: Wing)
  {
    w.airDensity >= 0.0 && w.wingArea >= 0.0 && w.aspectRatio > 0.0 && w.cd0 >= 0.0
  }

  /** The per-tick values the component stores for telemetry. */
  datatype Aero = Aero(cl: real, cd: real, qDyn: real, lift: real, drag: real, liftToDrag: real)

  /** Linear lift model, no stall clamp. */
  function LiftCoefficient(w: Wing, alpha: real): real
  {
    w.clAlpha * alpha
  }

  /** The induced-drag term of the drag polar: never negative for a positive aspect ratio, zero exactly without lift. */
  function InducedDrag(w: Wing, cl: real): (r: real)
    requires w.aspectRatio != 0.0
    ensures w.aspectRatio > 0.0 ==> r >= 0.0
    ensures w.aspectRatio > 0.0 ==> (r == 0.0 <==> cl == 0.0)
  {
    var denominator := Pi * w.aspectRatio * Oswald;
    if w.aspectRatio > 0.0 then
      QuotientSign(Square(cl), denominator);
      Square(cl) / denominator
    else
      Square(cl) / denominator
  }

  /** The drag polar Cd0 + Cl^2 / (pi AR e). */
  function DragCoefficient(w: Wing, cl: real): real
    requires w.aspectRatio != 0.0
  {
    w.cd0 + InducedDrag(w, cl)
  }

  /** Dynamic pressure of the relative airflow: non-negative for a non-negative density, zero in still air. */
  function DynamicPressure(w: Wing, speed: real): (q: real)
    ensures w.airDensity >= 0.0 ==> q >= 0.0
    ensures w.airDensity > 0.0 && speed != 0.0 ==> q > 0.0
    ensures speed == 0.0 ==> q == 0.0
  {
    Product(0.5 * w.airDensity, Square(speed))
  }

  /** The guarded lift-to-drag ratio: 0 up to the guard, lift / drag above it. */
  function LiftToDrag(lift: real, drag: real): (r: real)
    requires lift > RatioGuard ==> drag != 0.0
    ensures lift <= RatioGuard ==> r == 0.0
    ensures lift > RatioGuard ==> r * drag == lift
  {
    if lift > RatioGuard then lift / drag else 0.0
  }

  /**
   One evaluation of the coefficient pipeline for an angle of attack (radians) and a
   point speed (m/s). `None` stands for the evaluations whose float arithmetic
   leaves the reals: a zero aspect ratio divides by zero in the drag polar, and a
   lift above the guard with zero drag divides by zero in the ratio. A physical
   wing never meets either.
   */
  function CalculateAerodynamics(w: Wing, alpha: real, speed: real): (r: Option<Aero>)
    ensures w.aspectRatio == 0.0 ==> r.None?
    ensures PhysicalWing(w) ==> r.Some?
  {
    if w.aspectRatio == 0.0 then None
    else
      var cl := LiftCoefficient(w, alpha);
      var cd := DragCoefficient(w, cl);
      var q := DynamicPressure(w, speed);
      var lift := q * w.wingArea * cl;
      var drag := q * w.wingArea * cd;
      if lift > RatioGuard && drag == 0.0 then
        (if PhysicalWing(w) then GuardImpliesPositiveDrag(w, cl, q); None else None)
      else
        Some(Aero(cl, cd, q, lift, drag, LiftToDrag(lift, drag)))
  }

  // ---------------------------------------------------------------------------
  // Properties
  // ---------------------------------------------------------------------------

  /**
   Under the ratio guard the drag is positive: a lift above 0.1 forces q S > 0 and
   Cl != 0, hence a positive induced term and a positive drag. So the division
   in the ratio is always defined for a physical wing.
   */
  lemma GuardImpliesPositiveDrag(w: Wing, cl: real, q: real)
    requires PhysicalWing(w) && q >= 0.0
    requires q * w.wingArea * cl > RatioGuard
    ensures q * w.wingArea * DragCoefficient(w, cl) > 0.0
  {
    ProductNonNegative(q, w.wingArea);
    PositiveProductFactors(q * w.wingArea, cl);
    assert DragCoefficient(w, cl) > 0.0;
    ProductPositive(q * w.wingArea, DragCoefficient(w, cl));
  }

  /** For a physical wing the pipeline is always defined, and the ratio really is lift over drag above the guard. */
  lemma RatioWellDefined(w: Wing, alpha: real, speed: real)
    requires PhysicalWing(w)
    ensures var r := CalculateAerodynamics(w, alpha, speed);
      && r.Some?
      && (r.value.lift > RatioGuard ==> r.value.drag > 0.0 && r.value.liftToDrag == r.value.lift / r.value.drag)
      && (r.value.lift <= RatioGuard ==> r.value.liftToDrag == 0.0)
  {
    var cl := LiftCoefficient(w, alpha);
    var q := DynamicPressure(w, speed);
    if q * w.wingArea * cl > RatioGuard {
      GuardImpliesPositiveDrag(w, cl, q);
    }
  }

  /** Cl is linear in the angle of attack: additive, odd, and zero at zero. */
  lemma {:induction false} LiftCoefficientLinear(w: Wing, a: real, b: real)
    ensures LiftCoefficient(w, a + b) == LiftCoefficient(w, a) + LiftCoefficient(w, b)
    ensures LiftCoefficient(w, -a) == -LiftCoefficient(w, a)
    ensures LiftCoefficient(w, 0.0) == 0.0
  {
    assert w.clAlpha * (a + b) == w.clAlpha * a + w.clAlpha * b;
    assert w.clAlpha * -a == -(w.clAlpha * a);
  }

  /**
   The drag coefficient never falls below Cd0 for a positive aspect ratio, equals it
   exactly when there is no lift, and is even in the angle of attack.
   */
  lemma DragCoefficientBounds(w: Wing, alpha: real)
    requires w.aspectRatio > 0.0
    ensures DragCoefficient(w, LiftCoefficient(w, alpha)) >= w.cd0
    ensures DragCoefficient(w, LiftCoefficient(w, alpha)) == w.cd0 <==> LiftCoefficient(w, alpha) == 0.0
    ensures DragCoefficient(w, LiftCoefficient(w, -alpha)) == DragCoefficient(w, LiftCoefficient(w, alpha))
  {
    var cl := LiftCoefficient(w, alpha);
    LiftCoefficientLinear(w, alpha, 0.0);
    assert LiftCoefficient(w, -alpha) == -cl;
    assert (-cl) * (-cl) == cl * cl;
  }

  /** Drag is at least the parasitic part Cd0 q S, hence never negative when Cd0 is not. */
  lemma DragAtLeastParasitic(w: Wing, alpha: real, speed: real)
    requires w.airDensity >= 0.0 && w.wingArea >= 0.0 && w.aspectRatio > 0.0
    ensures var r := CalculateAerodynamics(w, alpha, speed);
      r.Some? ==>
        && r.value.drag >= w.cd0 * r.value.qDyn * w.wingArea
        && (w.cd0 >= 0.0 ==> r.value.drag >= 0.0)
  {
    EvaluationFields(w, alpha, speed);
    var q := DynamicPressure(w, speed);
    ProductNonNegative(q, w.wingArea);
    ParasiticBound(q * w.wingArea, w.cd0, InducedDrag(w, LiftCoefficient(w, alpha)));
    assert w.cd0 * q * w.wingArea == w.cd0 * (q * w.wingArea);
  }

  /** qS (Cd0 + induced) >= Cd0 qS when qS and the induced term are non-negative. */
  lemma ParasiticBound(qs: real, cd0: real, induced: real)
    requires qs >= 0.0 && induced >= 0.0
    ensures qs * (cd0 + induced) >= cd0 * qs
    ensures cd0 >= 0.0 ==> qs * (cd0 + induced) >= 0.0
  {
    ProductNonNegative(qs, induced);
    assert qs * (cd0 + induced) == cd0 * qs + qs * induced;
    if cd0 >= 0.0 {
      ProductNonNegative(cd0, qs);
    }
  }

  /**
   With positive density, area and lift slope and a non-zero speed, lift has the sign
   of the angle of attack.
   */
  lemma LiftFollowsAlpha(w: Wing, alpha: real, speed: real)
    requires w.aspectRatio != 0.0
    requires w.airDensity > 0.0 && w.wingArea > 0.0 && w.clAlpha > 0.0 && speed != 0.0
    ensures var r := CalculateAerodynamics(w, alpha, speed);
      r.Some? ==>
        && (r.value.lift > 0.0 <==> alpha > 0.0)
        && (r.value.lift < 0.0 <==> alpha < 0.0)
  {
    var r := CalculateAerodynamics(w, alpha, speed);
    if r.Some? {
      var q := DynamicPressure(w, speed);
      ProductPositive(q, w.wingArea);
      var cl := LiftCoefficient(w, alpha);
      assert r.value.lift == (q * w.wingArea) * cl;
      if alpha > 0.0 {
        ProductPositive(w.clAlpha, alpha);
        ProductPositive(q * w.wingArea, cl);
      } else if alpha < 0.0 {
        ProductPositive(w.clAlpha, -alpha);
        assert cl == -(w.clAlpha * -alpha);
        ProductPositive(q * w.wingArea, -cl);
        assert (q * w.wingArea) * -cl == -((q * w.wingArea) * cl);
      } else {
        assert cl == 0.0;
      }
    }
  }

  /** In still air the pipeline is defined and yields no pressure, no lift, no drag and a zero ratio. */
  lemma StillAirNoForce(w: Wing, alpha: real)
    requires w.aspectRatio != 0.0
    ensures var r := CalculateAerodynamics(w, alpha, 0.0);
      && r.Some?
      && r.value.qDyn == 0.0 && r.value.lift == 0.0 && r.value.drag == 0.0 && r.value.liftToDrag == 0.0
  {
  }

  /** Dynamic pressure grows with the speed magnitude. */
  lemma PressureMonotone(w: Wing, v1: real, v2: real)
    requires w.airDensity >= 0.0 && 0.0 <= v1 <= v2
    ensures DynamicPressure(w, v1) <= DynamicPressure(w, v2)
  {
    SquareMonotone(v1, v2);
    ProductMonotone(0.5 * w.airDensity, Square(v1), Square(v2));
  }

  /** The pressure, lift and drag a defined evaluation stores (a helper for the lemmas around it). */
  lemma EvaluationFields(w: Wing, alpha: real, speed: real)
    ensures var r := CalculateAerodynamics(w, alpha, speed);
      r.Some? ==>
        && r.value.qDyn == DynamicPressure(w, speed)
        && r.value.lift == DynamicPressure(w, speed) * w.wingArea * LiftCoefficient(w, alpha)
        && r.value.drag == DynamicPressure(w, speed) * w.wingArea * DragCoefficient(w, LiftCoefficient(w, alpha))
  {
  }

  function Abs(x: real): real
  {
    if x < 0.0 then -x else x
  }

  /** For a fixed Cl of either sign, the lift magnitude |q S Cl| grows with the dynamic pressure. */
  lemma LiftMonotoneInPressure(q1: real, q2: real, area: real, cl: real)
    requires 0.0 <= q1 <= q2 && area >= 0.0
    ensures Abs(q1 * area * cl) <= Abs(q2 * area * cl)
  {
    var k := if cl >= 0.0 then cl else -cl;
    ProductNonNegative(area, k);
    ProductNonNegative(q1, area * k);
    ProductNonNegative(q2 - q1, area * k);
    assert q2 * area * k - q1 * area * k == (q2 - q1) * (area * k);
    if cl < 0.0 {
      assert q1 * area * cl == -(q1 * area * k);
      assert q2 * area * cl == -(q2 * area * k);
    }
  }

  /**
   The pipeline's lift magnitude grows with the speed magnitude, for either sign of
   the angle of attack, on a physical wing.
   */
  lemma LiftMonotoneInSpeed(w: Wing, alpha: real, v1: real, v2: real)
    requires PhysicalWing(w) && 0.0 <= v1 <= v2
    ensures var r1 := CalculateAerodynamics(w, alpha, v1);
            var r2 := CalculateAerodynamics(w, alpha, v2);
      && r1.Some? && r2.Some?
      && Abs(r1.value.lift) <= Abs(r2.value.lift)
  {
    var cl := LiftCoefficient(w, alpha);
    var q1, q2 := DynamicPressure(w, v1), DynamicPressure(w, v2);
    EvaluationFields(w, alpha, v1);
    EvaluationFields(w, alpha, v2);
    PressureMonotone(w, v1, v2);
    LiftMonotoneInPressure(q1, q2, w.wingArea, cl);
  }

  /** The default wing at 0.1 rad and 100 m/s: Cl = 0.55, q = 6125 Pa, L = 5053.125 N. */
  lemma DefaultWingScenario()
    ensures var r := CalculateAerodynamics(DefaultWing, 0.1, 100.0);
      r.Some? && r.value.cl == 0.55 && r.value.qDyn == 6125.0 && r.value.lift == 5053.125
  {
  }

  // ---------------------------------------------------------------------------
  // Ground contact
  // ---------------------------------------------------------------------------

  /** The glider's contact record: whether it touches the ground, and the height recorded at touch-down. */
  datatype Contact = Contact(isGround: bool, startPosition: real)

  /** A collision starts; only a ground-tagged one counts. */
  function Enter(c: Contact, groundTagged: bool, y: real): Contact
  {
    if groundTagged then Contact(true, y) else c
  }

  /** A collision ends; only a ground-tagged one counts. */
  function Exit(c: Contact, groundTagged: bool): Contact
  {
    if groundTagged then c.(isGround := false) else c
  }

  /** Leaving the ground clears what touching it set, and keeps the recorded height. */
  lemma ExitUndoesEnter(c: Contact, y: real)
    ensures Enter(c, true, y).isGround && Enter(c, true, y).startPosition == y
    ensures Exit(Enter(c, true, y), true) == Contact(false, y)
    ensures Enter(Exit(c, true), true, y) == Enter(c, true, y)
    ensures Enter(c, false, y) == c && Exit(c, false) == c
  {
  }

  class GroundContact {
    var isGround: bool
    var startPosition: real

    ghost function State(): Contact
      reads this
    {
      Contact(isGround, startPosition)
    }

    constructor ()
      ensures State() == Contact(false, 0.0)
    {
      isGround := false;
      startPosition := 0.0;
    }

    method OnCollisionEnter(groundTagged: bool, y: real)
      modifies this
      ensures State() == Enter(old(State()), groundTagged, y)
    {
      if groundTagged {
        startPosition := y;
        isGround := true;
      }
    }

    method OnCollisionExit(groundTagged: bool)
      modifies this`isGround
      ensures State() == Exit(old(State()), groundTagged)
    {
      if groundTagged {
        isGround := false;
      }
    }
  }
}
