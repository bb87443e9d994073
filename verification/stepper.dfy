/**
 * The bipolar stepper driver: two windings whose polarities select one of the
 * phases of a fixed table, stepping through that table in full-step (4-cycle)
 * or half-step (8-cycle) mode, and arm/disarm caching of the phase. GPIO writes
 * are replaced by the `energized` field each write leaves behind.
 */
module StepperMotor {
  import opened Wrappers
  import opened Errors

  /** A winding's energization: +1 drives pin1 high, -1 drives pin2 high, 0 drives both low. */
  type Polarity = x: int | -1 <= x <= 1

  /** An index of the phase table; 8 is the parked, both-windings-off configuration. */
  type Phase = x: int | 0 <= x <= 8

  /** `cached_state`: -1 until the first disarm, afterwards the phase captured by it. */
  type Cached = x: int | -1 <= x <= 8

  const Parked: Phase := 8
  const NotCached: Cached := -1

  datatype Winding = Winding(pin1: int, pin2: int, energized: Polarity)

  datatype Stepper = Stepper(windingA: Winding, windingB: Winding, cachedState: Cached)

  /** The winding and stepper constructors: everything de-energized, nothing cached. */
  function NewStepper(pinA1: int, pinA2: int, pinB1: int, pinB2: int): (s: Stepper)
    ensures State(s) == Parked && s.cachedState == NotCached
    ensures s.windingA.pin1 == pinA1 && s.windingA.pin2 == pinA2
    ensures s.windingB.pin1 == pinB1 && s.windingB.pin2 == pinB2
  {
    Stepper(Winding(pinA1, pinA2, 0), Winding(pinB1, pinB2, 0), NotCached)
  }

  predicate SamePins(w: Winding, w': Winding) {
    w.pin1 == w'.pin1 && w.pin2 == w'.pin2
  }

  predicate SameWiring(s: Stepper, s': Stepper) {
    SamePins(s.windingA, s'.windingA) && SamePins(s.windingB, s'.windingB)
  }

  // ---------------------------------------------------------------------------
  // Winding
  // ---------------------------------------------------------------------------

  /** `Winding.energize`: only 1, -1 and 0 are accepted. */
  function Energize(w: Winding, direction: int): (r: Result<Winding, Error>)
    ensures r.Success? <==> direction == 1 || direction == -1 || direction == 0
    ensures r.Success? ==> r.value.energized == direction && SamePins(r.value, w)
    ensures r.Failure? ==> r.error == BadPolarity(direction)
  {
    if direction == 1 then Success(w.(energized := 1))
    else if direction == -1 then Success(w.(energized := -1))
    else if direction == 0 then Success(DeEnergize(w))
    else Failure(BadPolarity(direction))
  }

  /** `Winding.de_energize`: both pins low, whatever the winding held before. */
  function DeEnergize(w: Winding): (r: Winding)
    ensures r.energized == 0 && SamePins(r, w)
  {
    w.(energized := 0)
  }

  // ---------------------------------------------------------------------------
  // The phase table (`state_dict` and its inverse)
  // ---------------------------------------------------------------------------

  /** `state_dict`: the phase selected by the polarities of windings A and B. */
  function PhaseOf(a: Polarity, b: Polarity): Phase {
    if a == 1 && b == 0 then 0
    else if a == 1 && b == 1 then 1
    else if a == 0 && b == 1 then 2
    else if a == -1 && b == 1 then 3
    else if a == -1 && b == 0 then 4
    else if a == -1 && b == -1 then 5
    else if a == 0 && b == -1 then 6
    else if a == 1 && b == -1 then 7
    else 8
  }

  /** `inverted_state_dict`: the polarities of windings A and B for a phase. */
  function PolaritiesOf(p: Phase): (ab: (Polarity, Polarity))
    ensures PhaseOf(ab.0, ab.1) == p
  {
    match p
    case 0 => (1, 0)
    case 1 => (1, 1)
    case 2 => (0, 1)
    case 3 => (-1, 1)
    case 4 => (-1, 0)
    case 5 => (-1, -1)
    case 6 => (0, -1)
    case 7 => (1, -1)
    case 8 => (0, 0)
  }

  /** The table is a bijection between the nine polarity pairs and the phases 0..8. */
  lemma TableBijective(a: Polarity, b: Polarity)
    ensures PolaritiesOf(PhaseOf(a, b)) == (a, b)
    ensures PhaseOf(a, b) == Parked <==> a == 0 && b == 0
  {
  }

  // ---------------------------------------------------------------------------
  // The `state` property
  // ---------------------------------------------------------------------------

  /** The `state` getter. */
  function State(s: Stepper): Phase {
    PhaseOf(s.windingA.energized, s.windingB.energized)
  }

  /** Energizes both windings as the table prescribes for `p`; the core of the setter. */
  function ApplyPhase(s: Stepper, p: Phase): (r: Stepper)
    ensures State(r) == p
    ensures r.cachedState == s.cachedState && SameWiring(r, s)
  {
    var ab := PolaritiesOf(p);
    var a := Energize(s.windingA, ab.0);
    var b := Energize(s.windingB, ab.1);
    s.(windingA := a.value, windingB := b.value)
  }

  /** The `state` setter: a key missing from the inverted table raises KeyError. */
  function SetState(s: Stepper, p: int): (r: Result<Stepper, Error>)
    ensures r.Success? <==> 0 <= p <= 8
    ensures r.Success? ==> State(r.value) == p && r.value.cachedState == s.cachedState
    ensures r.Success? ==> SameWiring(r.value, s)
    ensures r.Failure? ==> r.error == UnknownPhase(p)
  {
    if 0 <= p <= 8 then Success(ApplyPhase(s, p)) else Failure(UnknownPhase(p))
  }

  /** Setting a phase fixes both polarities: the setter reproduces the windings a phase was read from. */
  lemma SetStateOfState(s: Stepper)
    ensures SetState(s, State(s)) == Success(s)
  {
    TableBijective(s.windingA.energized, s.windingB.energized);
  }

  // ---------------------------------------------------------------------------
  // Arm / disarm
  // ---------------------------------------------------------------------------

  /** `disarm`: caches the current phase, then parks both windings. */
  function Disarm(s: Stepper): (r: Stepper)
    ensures r.cachedState == State(s)
    ensures r.windingA.energized == 0 && r.windingB.energized == 0 && State(r) == Parked
    ensures SameWiring(r, s)
  {
    s.(cachedState := State(s), windingA := DeEnergize(s.windingA), windingB := DeEnergize(s.windingB))
  }

  /** `arm`: restores the cached phase; with nothing cached it changes nothing. */
  function Arm(s: Stepper): (r: Stepper)
    ensures s.cachedState == NotCached ==> r == s
    ensures s.cachedState != NotCached ==> State(r) == s.cachedState
    ensures r.cachedState == s.cachedState && SameWiring(r, s)
  {
    if s.cachedState != NotCached then SetState(s, s.cachedState).value else s
  }

  /** A disarm followed by an arm re-energizes exactly the windings that were energized before. */
  lemma ArmAfterDisarm(s: Stepper)
    ensures Arm(Disarm(s)) == s.(cachedState := State(s))
  {
    TableBijective(s.windingA.energized, s.windingB.energized);
  }

  // ---------------------------------------------------------------------------
  // Direction and the next phase
  // ---------------------------------------------------------------------------

  predicate IsDirection(direction: string) {
    direction == "CW" || direction == "CCW"
  }

  /** Signed number of table positions `n` steps in `direction` move: CCW advances, CW retreats. */
  function Displacement(direction: string, n: int): int {
    if direction == "CCW" then n else if direction == "CW" then -n else 0
  }

  /**
   * Where `k` signed steps (k != 0 or otherwise at least one step taken) from `p`
   * land: half-step mode moves around 0..7, full-step mode first floors `p` to an
   * even phase and moves around {0, 2, 4, 6}.
   */
  function Displaced(p: Phase, halfStep: bool, k: int): (q: Phase)
    ensures q < 8
    ensures !halfStep ==> q % 2 == 0
  {
    if halfStep then (p + k) % 8 else 2 * ((p / 2 + k) % 4)
  }

  /** Displacements add up. */
  lemma DisplacedCompose(p: Phase, halfStep: bool, a: int, b: int)
    ensures Displaced(Displaced(p, halfStep, a), halfStep, b) == Displaced(p, halfStep, a + b)
  {
    if halfStep {
      ModAdd8(p + a, b);
    } else {
      var x := (p / 2 + a) % 4;
      assert (2 * x) / 2 == x;
      ModAdd4(p / 2 + a, b);
    }
  }

  /** Reducing a summand first does not change the residue modulo 8. */
  lemma ModAdd8(x: int, b: int)
    ensures (x % 8 + b) % 8 == (x + b) % 8
  {
    assert x == 8 * (x / 8) + x % 8;
  }

  /** Reducing a summand first does not change the residue modulo 4. */
  lemma ModAdd4(x: int, b: int)
    ensures (x % 4 + b) % 4 == (x + b) % 4
  {
    assert x == 4 * (x / 4) + x % 4;
  }

  const FullStepStates: seq<Phase> := [0, 2, 4, 6]

  /**
   * `get_next_state` from phase `p`. `int(state / 2)` truncates, which for the
   * non-negative phases is Dafny's `/`; Python's `%` by 4 with a positive divisor
   * is Dafny's `%`.
   */
  function NextState(p: Phase, halfStep: bool, direction: string): (r: Result<Phase, Error>)
    ensures r.Success? <==> IsDirection(direction)
    ensures r.Failure? ==> r.error == BadDirection(direction)
    ensures r.Success? ==> r.value == Displaced(p, halfStep, Displacement(direction, 1))
    ensures r.Success? && !halfStep ==> r.value in FullStepStates
    ensures r.Success? && halfStep ==> r.value < 8
  {
    if !(direction == "CW") && !(direction == "CCW") then Failure(BadDirection(direction))
    else if !halfStep then
      if direction == "CCW" then Success(FullStepStates[(p / 2 + 1) % 4])
      else Success(FullStepStates[(p / 2 - 1) % 4])
    else
      if direction == "CCW" then Success((p + 1) % 8)
      else Success((p + 15) % 8)
  }

  /** Full step: from an even phase, one step each way in either order comes back. */
  lemma FullStepRoundTrip(p: Phase)
    requires p % 2 == 0 && p < 8
    ensures NextState(NextState(p, false, "CCW").value, false, "CW") == Success(p)
    ensures NextState(NextState(p, false, "CW").value, false, "CCW") == Success(p)
  {
    assert p == 0 || p == 2 || p == 4 || p == 6;
  }

  /** Full step: an odd phase is floored first, so the round trip lands one below it. */
  lemma FullStepOddRoundTrip(p: Phase)
    requires p % 2 == 1
    ensures NextState(NextState(p, false, "CCW").value, false, "CW") == Success(p - 1)
    ensures NextState(NextState(p, false, "CW").value, false, "CCW") == Success(p - 1)
  {
    assert p == 1 || p == 3 || p == 5 || p == 7;
  }

  /** Half step: CCW is +1 and CW is -1 modulo 8, inverse to each other on 0..7. */
  lemma HalfStepRoundTrip(p: Phase)
    requires p < 8
    ensures NextState(p, true, "CCW") == Success((p + 1) % 8)
    ensures NextState(p, true, "CW") == Success((p - 1) % 8)
    ensures NextState(NextState(p, true, "CCW").value, true, "CW") == Success(p)
    ensures NextState(NextState(p, true, "CW").value, true, "CCW") == Success(p)
  {
  }

  /** From the parked phase a step leaves the table's rotational part, so no round trip returns to 8. */
  lemma ParkedRoundTrip(halfStep: bool)
    ensures NextState(NextState(Parked, halfStep, "CCW").value, halfStep, "CW") == Success(0)
    ensures NextState(NextState(Parked, halfStep, "CW").value, halfStep, "CCW") == Success(0)
  {
  }

  // ---------------------------------------------------------------------------
  // Stepping
  // ---------------------------------------------------------------------------

  /**
   * `step`: `n` iterations of computing the next phase and energizing the windings
   * for it (`range(n)` is empty for n <= 0). A bad direction raises on the first
   * iteration, before any winding is touched.
   */
  function Step(s: Stepper, halfStep: bool, direction: string, n: int): (r: Result<Stepper, Error>)
    ensures n <= 0 ==> r == Success(s)
    ensures n > 0 ==> (r.Success? <==> IsDirection(direction))
    ensures r.Failure? ==> r.error == BadDirection(direction)
    ensures r.Success? ==> r.value.cachedState == s.cachedState && SameWiring(r.value, s)
    ensures r.Success? && n > 0 ==> State(r.value) == Displaced(State(s), halfStep, Displacement(direction, n))
    decreases n
  {
    if n <= 0 then Success(s)
    else
      match NextState(State(s), halfStep, direction)
      case Failure(e) => Failure(e)
      case Success(next) =>
        var s' := ApplyPhase(s, next);
        var r := Step(s', halfStep, direction, n - 1);
        if n == 1 then r
        else
          DisplacedCompose(State(s), halfStep, Displacement(direction, 1), Displacement(direction, n - 1));
          r
  }

  /**
   * `step` as the source writes it, a `for i in range(n)` loop energizing the
   * windings once per iteration: `n` steps land where the closed form says.
   */
  method StepLoop(s: Stepper, halfStep: bool, direction: string, n: int) returns (r: Result<Stepper, Error>)
    ensures n <= 0 ==> r == Success(s)
    ensures n > 0 && !IsDirection(direction) ==> r == Failure(BadDirection(direction))
    ensures n > 0 && IsDirection(direction) ==> r.Success?
    ensures r.Success? ==> r.value.cachedState == s.cachedState && SameWiring(r.value, s)
    ensures r.Success? && n > 0 ==> State(r.value) == Displaced(State(s), halfStep, Displacement(direction, n))
  {
    if n <= 0 {
      return Success(s);
    }
    if !IsDirection(direction) {
      return Failure(BadDirection(direction));
    }
    var cur := s;
    var i := 0;
    while i < n
      invariant 0 <= i <= n
      invariant cur.cachedState == s.cachedState && SameWiring(cur, s)
      invariant i == 0 ==> cur == s
      invariant i > 0 ==> State(cur) == Displaced(State(s), halfStep, Displacement(direction, i))
    {
      var next := NextState(State(cur), halfStep, direction).value;
      assert next == Displaced(State(cur), halfStep, Displacement(direction, 1));
      if i > 0 {
        DisplacedCompose(State(s), halfStep, Displacement(direction, i), Displacement(direction, 1));
        assert Displacement(direction, i) + Displacement(direction, 1) == Displacement(direction, i + 1);
      }
      cur := ApplyPhase(cur, next);
      i := i + 1;
    }
    r := Success(cur);
  }

  /**
   * In half-step mode `n` steps move `n` table positions on (CCW) or back (CW)
   * modulo 8; in full-step mode they land on one of {0, 2, 4, 6}.
   */
  lemma StepClosedForms(s: Stepper, halfStep: bool, direction: string, n: int)
    requires n > 0 && IsDirection(direction)
    ensures var q := State(Step(s, halfStep, direction, n).value);
      && (halfStep && direction == "CCW" ==> q == (State(s) + n) % 8)
      && (halfStep && direction == "CW" ==> q == (State(s) - n) % 8)
      && (!halfStep ==> q in FullStepStates)
  {
    var k := Displacement(direction, n);
    DisplacedLands(State(s), halfStep, k);
  }

  /** The closed form's two shapes: a residue modulo 8, or one of the full-step phases. */
  lemma DisplacedLands(p: Phase, halfStep: bool, k: int)
    ensures halfStep ==> Displaced(p, halfStep, k) == (p + k) % 8
    ensures !halfStep ==> Displaced(p, halfStep, k) in FullStepStates
  {
    var q := Displaced(p, halfStep, k);
    if !halfStep {
      assert q == FullStepStates[q / 2];
    }
  }

  /** `n` steps one way and then `n` back return to the starting phase (a rotational one, even in full-step mode). */
  lemma StepThereAndBack(s: Stepper, halfStep: bool, direction: string, back: string, n: int)
    requires n > 0 && State(s) < 8 && (halfStep || State(s) % 2 == 0)
    requires (direction, back) == ("CCW", "CW") || (direction, back) == ("CW", "CCW")
    ensures Step(s, halfStep, direction, n).Success?
    ensures State(Step(Step(s, halfStep, direction, n).value, halfStep, back, n).value) == State(s)
  {
    var p := State(s);
    var a, b := Displacement(direction, n), Displacement(back, n);
    assert a + b == 0;
    var there := Step(s, halfStep, direction, n).value;
    DisplacedCompose(p, halfStep, a, b);
    DisplacedZero(p, halfStep);
  }

  lemma DisplacedZero(p: Phase, halfStep: bool)
    requires p < 8 && (halfStep || p % 2 == 0)
    ensures Displaced(p, halfStep, 0) == p
  {
  }
}
