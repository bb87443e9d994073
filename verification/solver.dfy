/**
 * The face actuator binding and the move interpreter: six steppers wired to fixed
 * GPIO pins, reachable under a colour name or a cube-notation letter, turned by
 * quarter and half turns with a small opposite compensation against shaft play.
 */
module Solver {
  import opened Wrappers
  import opened Errors
  import opened StepperMotor

  // ---------------------------------------------------------------------------
  // GPIO pin table
  // ---------------------------------------------------------------------------

  /** The members of the `GPIOs` enum, in declaration order. */
  datatype Colour = Green | Yellow | Orange | White | Red | Blue

  /** The four keys of each `GPIOs` entry: winding A pins then winding B pins. */
  datatype PinName = A1N1 | A1N2 | B1N1 | B1N2

  function Pin(c: Colour, n: PinName): int {
    match (c, n)
    case (Green, A1N1) => 6
    case (Green, A1N2) => 5
    case (Green, B1N1) => 13
    case (Green, B1N2) => 19
    case (Yellow, A1N1) => 3
    case (Yellow, A1N2) => 2
    case (Yellow, B1N1) => 4
    case (Yellow, B1N2) => 17
    case (Orange, A1N1) => 22
    case (Orange, A1N2) => 27
    case (Orange, B1N1) => 10
    case (Orange, B1N2) => 9
    case (White, A1N1) => 20
    case (White, A1N2) => 21
    case (White, B1N1) => 16
    case (White, B1N2) => 12
    case (Red, A1N1) => 8
    case (Red, A1N2) => 7
    case (Red, B1N1) => 25
    case (Red, B1N2) => 24
    case (Blue, A1N1) => 18
    case (Blue, A1N2) => 23
    case (Blue, B1N1) => 15
    case (Blue, B1N2) => 14
  }

  /** The 24 pins are pairwise distinct: no two windings, of one motor or of two, share a pin. */
  lemma PinsDistinct(c: Colour, n: PinName, c': Colour, n': PinName)
    ensures Pin(c, n) == Pin(c', n') <==> c == c' && n == n'
  {
  }

  // ---------------------------------------------------------------------------
  // Face names and alias resolution
  // ---------------------------------------------------------------------------

  /** The attribute under which `Cube.__init__` stores each colour's stepper. */
  function AttrName(c: Colour): string {
    match c
    case Green => "green"
    case Yellow => "yellow"
    case Orange => "orange"
    case White => "white"
    case Red => "red"
    case Blue => "blue"
  }

  /** `Cube.ids`: face letter to colour attribute. */
  const Ids: map<string, string> :=
    map["D" := "white", "U" := "yellow", "B" := "orange", "R" := "green", "F" := "red", "L" := "blue"]

  /** The iteration order of `Cube.ids`. */
  const IdOrder: seq<string> := ["D", "U", "B", "R", "F", "L"]

  /** The six colour attributes are distinct: already their first letters differ. */
  lemma AttrNameInjective(c: Colour, d: Colour)
    ensures AttrName(c) == AttrName(d) <==> c == d
  {
    if AttrName(c) == AttrName(d) {
      assert AttrName(c)[0] == AttrName(d)[0];
    }
  }

  /** The letter of each colour in `Cube.ids`. */
  function Letter(c: Colour): string {
    match c
    case White => "D"
    case Yellow => "U"
    case Orange => "B"
    case Green => "R"
    case Red => "F"
    case Blue => "L"
  }

  /**
   * `Cube.ids` pairs each colour with exactly one letter: the letters are
   * its keys, its values are the six colour attributes, no letter is a colour
   * attribute, and `IdOrder` lists every letter once.
   */
  lemma IdsTable()
    ensures forall c: Colour :: Letter(c) in Ids && Ids[Letter(c)] == AttrName(c)
    ensures forall id :: id in Ids ==> exists c: Colour :: Letter(c) == id
    ensures forall c: Colour :: AttrName(c) !in Ids && Letter(c) != AttrName(c)
    ensures forall c: Colour, d: Colour :: Letter(c) == Letter(d) ==> c == d
    ensures forall id :: id in Ids <==> id in IdOrder
    ensures forall i, j :: 0 <= i < j < |IdOrder| ==> IdOrder[i] != IdOrder[j]
  {
    IdsByLetter();
    IdsKeys();
    LetterInjective();
    IdsLettered();
    IdOrderDistinct();
    AttrsAreNotIds();
  }

  /** No colour attribute is a letter of `Cube.ids`: letters have one character, attributes more. */
  lemma AttrsAreNotIds()
    ensures forall c: Colour :: AttrName(c) !in Ids && Letter(c) != AttrName(c)
  {
    IdsLettered();
    forall id | id in Ids ensures |id| == 1 {
      var d: Colour :| Letter(d) == id;
    }
    forall c: Colour ensures AttrName(c) !in Ids && Letter(c) != AttrName(c) {
      assert |Letter(c)| == 1 < |AttrName(c)|;
    }
  }

  /** Distinct colours have distinct letters. */
  lemma LetterInjective()
    ensures forall c: Colour, d: Colour :: Letter(c) == Letter(d) ==> c == d
  {
    forall c: Colour, d: Colour | Letter(c) == Letter(d) ensures c == d {
      assert Letter(c)[0] == Letter(d)[0];
    }
  }

  /** Every key of `Cube.ids` is some colour's letter. */
  lemma IdsLettered()
    ensures forall id :: id in Ids ==> exists c: Colour :: Letter(c) == id
  {
    IdsKeys();
    forall id | id in Ids ensures exists c: Colour :: Letter(c) == id {
      if id == "D" { assert Letter(White) == id; }
      else if id == "U" { assert Letter(Yellow) == id; }
      else if id == "B" { assert Letter(Orange) == id; }
      else if id == "R" { assert Letter(Green) == id; }
      else if id == "F" { assert Letter(Red) == id; }
      else { assert Letter(Blue) == id; }
    }
  }

  /** `IdOrder` lists no letter twice. */
  lemma IdOrderDistinct()
    ensures forall i, j :: 0 <= i < j < |IdOrder| ==> IdOrder[i] != IdOrder[j]
  {
    LetterInjective();
    forall i, j | 0 <= i < j < |IdOrder| ensures IdOrder[i] != IdOrder[j] {
      var c, d := IndexColour(i), IndexColour(j);
      assert LetterIndex(c) != LetterIndex(d);
    }
  }

  /** Each colour's letter is a key of `Cube.ids` naming the colour's attribute. */
  lemma IdsByLetter()
    ensures forall c: Colour :: Letter(c) in Ids && Ids[Letter(c)] == AttrName(c)
  {
    forall c: Colour ensures Letter(c) in Ids && Ids[Letter(c)] == AttrName(c) {
      match c
      case White => assert Ids["D"] == "white";
      case Yellow => assert Ids["U"] == "yellow";
      case Orange => assert Ids["B"] == "orange";
      case Green => assert Ids["R"] == "green";
      case Red => assert Ids["F"] == "red";
      case Blue => assert Ids["L"] == "blue";
    }
  }

  /** The keys of `Cube.ids` are the six letters of `IdOrder`, and nothing else. */
  lemma IdsKeys()
    ensures Ids.Keys == {"D", "U", "B", "R", "F", "L"}
    ensures forall id :: id in Ids <==> id in IdOrder
  {
  }

  /** Where a colour's letter stands in `IdOrder`. */
  function LetterIndex(col: Colour): (i: nat)
    ensures i < |IdOrder| && IdOrder[i] == Letter(col)
  {
    match col
    case White => 0
    case Yellow => 1
    case Orange => 2
    case Green => 3
    case Red => 4
    case Blue => 5
  }

  /** The colour whose letter stands at a position of `IdOrder`. */
  function IndexColour(i: nat): (col: Colour)
    requires i < |IdOrder|
    ensures Letter(col) == IdOrder[i] && LetterIndex(col) == i
  {
    if i == 0 then White
    else if i == 1 then Yellow
    else if i == 2 then Orange
    else if i == 3 then Green
    else if i == 4 then Red
    else Blue
  }

  /** `Cube.ids` is injective: two letters name the same colour exactly when they are the same letter. */
  lemma IdsInjective(id: string, id': string)
    requires id in Ids && id' in Ids
    ensures Ids[id] == Ids[id'] <==> id == id'
  {
    IdsTable();
    var c :| Letter(c) == id;
    var d :| Letter(d) == id';
    AttrNameInjective(c, d);
  }

  /** `self.ids.get(name, name)`. */
  function Resolve(name: string): string {
    if name in Ids then Ids[name] else name
  }

  /** A cube's instance attributes; only steppers are stored in them. */
  datatype Cube = Cube(attrs: map<string, Stepper>)

  /** `Cube.__setattr__`: a letter writes the colour attribute, any other name writes itself. */
  function SetAttr(c: Cube, name: string, v: Stepper): (r: Cube)
    ensures r.attrs.Keys == c.attrs.Keys + {Resolve(name)}
    ensures r.attrs[Resolve(name)] == v
    ensures forall k :: k in c.attrs && k != Resolve(name) ==> r.attrs[k] == c.attrs[k]
  {
    Cube(c.attrs[Resolve(name) := v])
  }

  /**
   * The instance attribute `getattr(cube, name)` reaches: the name itself, or else,
   * through `__getattr__`, the colour a letter resolves to.
   */
  function Slot(c: Cube, name: string): (r: Option<string>)
    ensures r.Some? ==> r.value in c.attrs
    ensures r.Some? <==> name in c.attrs || Resolve(name) in c.attrs
    ensures r.Some? && name !in c.attrs ==> name in Ids && r.value == Ids[name]
  {
    if name in c.attrs then Some(name)
    else if Resolve(name) in c.attrs then Some(Resolve(name))
    else None
  }

  /** What `getattr(cube, name)` returns: a stepper, or the class attribute `ids`. */
  datatype Attribute = StepperAttr(stepper: Stepper) | IdsAttr(ids: map<string, string>)

  /**
   * `getattr(cube, name)`. Ordinary lookup finds an instance attribute, or else the
   * class attribute `ids`, so the "ids" guard of `__getattr__` is never reached;
   * otherwise `__getattr__` resolves a letter, and a missing attribute raises
   * AttributeError.
   */
  function GetAttr(c: Cube, name: string): (r: Result<Attribute, Error>)
    ensures r.Success? <==> Slot(c, name).Some? || name == "ids"
    ensures r.Success? && Slot(c, name).Some? ==> r.value == StepperAttr(c.attrs[Slot(c, name).value])
    ensures name !in c.attrs && name == "ids" ==> r == Success(IdsAttr(Ids))
    ensures r.Failure? ==> r.error == NoSuchAttribute(name)
  {
    if name in c.attrs then Success(StepperAttr(c.attrs[name]))
    else if name == "ids" then Success(IdsAttr(Ids))
    else if Resolve(name) in c.attrs then Success(StepperAttr(c.attrs[Resolve(name)]))
    else Failure(NoSuchAttribute(name))
  }

  /** Every colour attribute is present and no letter is stored as an attribute of its own. */
  predicate Wired(c: Cube) {
    forall id :: id in Ids ==> id !in c.attrs && Ids[id] in c.attrs
  }

  /** The stepper `Cube.__init__` builds for a colour, from its `GPIOs` entry in key order. */
  function StepperFor(col: Colour): (s: Stepper)
    ensures State(s) == Parked && s.cachedState == NotCached
    ensures s.windingA.pin1 == Pin(col, A1N1) && s.windingA.pin2 == Pin(col, A1N2)
    ensures s.windingB.pin1 == Pin(col, B1N1) && s.windingB.pin2 == Pin(col, B1N2)
  {
    NewStepper(Pin(col, A1N1), Pin(col, A1N2), Pin(col, B1N1), Pin(col, B1N2))
  }

  /** A colour attribute name is no letter, so `__setattr__` stores it under its own name. */
  lemma ResolveAttrName(col: Colour)
    ensures Resolve(AttrName(col)) == AttrName(col)
  {
    IdsTable();
  }

  /**
   * The attributes `Cube.__init__` assigns, one stepper per colour. Each assignment
   * goes through `__setattr__`, which stores a colour name under itself
   * (`ResolveAttrName`).
   */
  const InitialAttrs: map<string, Stepper> := map[
    "red" := StepperFor(Red), "green" := StepperFor(Green), "blue" := StepperFor(Blue),
    "yellow" := StepperFor(Yellow), "orange" := StepperFor(Orange), "white" := StepperFor(White)]

  lemma InitialAttrsWired()
    ensures Wired(Cube(InitialAttrs))
  {
  }

  lemma InitialAttrsPerColour()
    ensures forall col: Colour :: AttrName(col) in InitialAttrs && InitialAttrs[AttrName(col)] == StepperFor(col)
  {
  }

  lemma InitialAttrsParked()
    ensures forall k :: k in InitialAttrs ==> State(InitialAttrs[k]) == Parked && InitialAttrs[k].cachedState == NotCached
  {
  }

  /** `Cube.__init__` assigns the six colour attributes and nothing else. */
  lemma InitialAttrsKeys()
    ensures InitialAttrs.Keys == set col: Colour :: AttrName(col)
  {
    forall k | k in InitialAttrs ensures exists col: Colour :: AttrName(col) == k {
      if k == "red" { assert AttrName(Red) == k; }
      else if k == "green" { assert AttrName(Green) == k; }
      else if k == "blue" { assert AttrName(Blue) == k; }
      else if k == "yellow" { assert AttrName(Yellow) == k; }
      else if k == "orange" { assert AttrName(Orange) == k; }
      else { assert AttrName(White) == k; }
    }
  }

  /** `Cube.__init__`. */
  function NewCube(): (c: Cube)
    ensures Wired(c)
    ensures c.attrs.Keys == set col: Colour :: AttrName(col)
    ensures forall col: Colour :: AttrName(col) in c.attrs && c.attrs[AttrName(col)] == StepperFor(col)
    ensures forall k :: k in c.attrs ==> State(c.attrs[k]) == Parked && c.attrs[k].cachedState == NotCached
  {
    InitialAttrsWired();
    InitialAttrsPerColour();
    InitialAttrsParked();
    InitialAttrsKeys();
    Cube(InitialAttrs)
  }

  /** The four pins one stepper drives. */
  function PinsOf(s: Stepper): set<int> {
    {s.windingA.pin1, s.windingA.pin2, s.windingB.pin1, s.windingB.pin2}
  }

  /** Every stepper of the pin table drives four pins of its own. */
  lemma StepperPinsDisjoint(col: Colour, col': Colour)
    ensures |PinsOf(StepperFor(col))| == 4
    ensures col != col' ==> PinsOf(StepperFor(col)) !! PinsOf(StepperFor(col'))
  {
    StepperPinsFour(col);
    forall x | x in PinsOf(StepperFor(col)) && x in PinsOf(StepperFor(col')) ensures col == col' {
      var n := PinNameOf(col, x);
      var n' := PinNameOf(col', x);
      PinsDistinct(col, n, col', n');
    }
  }

  /** A stepper of the pin table drives four different pins. */
  lemma StepperPinsFour(col: Colour)
    ensures |PinsOf(StepperFor(col))| == 4
  {
    forall n: PinName, n': PinName ensures Pin(col, n) == Pin(col, n') <==> n == n' {
      PinsDistinct(col, n, col, n');
    }
    assert PinsOf(StepperFor(col)) == {Pin(col, A1N1), Pin(col, A1N2), Pin(col, B1N1), Pin(col, B1N2)};
  }

  /** Which of a stepper's pins a pin is. */
  function PinNameOf(col: Colour, x: int): (n: PinName)
    requires x in PinsOf(StepperFor(col))
    ensures Pin(col, n) == x
  {
    if x == Pin(col, A1N1) then A1N1
    else if x == Pin(col, A1N2) then A1N2
    else if x == Pin(col, B1N1) then B1N1
    else B1N2
  }

  /** So in a new cube no two windings share a pin. */
  lemma NewCubePinsDisjoint(col: Colour, col': Colour)
    ensures |PinsOf(NewCube().attrs[AttrName(col)])| == 4
    ensures col != col' ==> PinsOf(NewCube().attrs[AttrName(col)]) !! PinsOf(NewCube().attrs[AttrName(col')])
  {
    StepperPinsDisjoint(col, col');
  }

  /** Writing through a letter is reading through its colour, and the other way round. */
  lemma AliasResolution(c: Cube, id: string, v: Stepper)
    requires Wired(c) && id in Ids
    ensures SetAttr(c, id, v) == SetAttr(c, Ids[id], v)
    ensures GetAttr(SetAttr(c, id, v), Ids[id]) == Success(StepperAttr(v))
    ensures GetAttr(SetAttr(c, Ids[id], v), id) == Success(StepperAttr(v))
    ensures GetAttr(c, id) == GetAttr(c, Ids[id])
    ensures Wired(SetAttr(c, id, v))
  {
    IdsTable();
  }

  /** A name outside the id table is an ordinary attribute. */
  lemma AliasPassThrough(c: Cube, name: string, v: Stepper)
    requires name !in Ids
    ensures SetAttr(c, name, v) == Cube(c.attrs[name := v])
    ensures GetAttr(SetAttr(c, name, v), name) == Success(StepperAttr(v))
  {
  }

  // ---------------------------------------------------------------------------
  // Directions
  // ---------------------------------------------------------------------------

  /** `_opposite_direction`, its identity tests read as equality. */
  function OppositeDirection(direction: string): (r: Result<string, Error>)
    ensures r.Success? <==> direction in {"CW", "CCW", "cw", "ccw"}
    ensures r.Success? ==> r.value in {"CW", "CCW", "cw", "ccw"} && r.value != direction
    ensures r.Success? ==> (IsDirection(r.value) <==> IsDirection(direction))
    ensures r.Failure? ==> r.error == BadDirection(direction)
  {
    if direction == "CW" then Success("CCW")
    else if direction == "CCW" then Success("CW")
    else if direction == "cw" then Success("ccw")
    else if direction == "ccw" then Success("cw")
    else Failure(BadDirection(direction))
  }

  /** The opposite of the opposite is the direction itself. */
  lemma OppositeInvolution(direction: string)
    requires direction in {"CW", "CCW", "cw", "ccw"}
    ensures OppositeDirection(OppositeDirection(direction).value) == Success(direction)
  {
  }

  /** Stepping in the opposite direction moves the same distance back. */
  lemma OppositeReverses(direction: string, n: int)
    requires IsDirection(direction)
    ensures Displacement(OppositeDirection(direction).value, n) == -Displacement(direction, n)
  {
  }

  // ---------------------------------------------------------------------------
  // Rotations
  // ---------------------------------------------------------------------------

  datatype Turn = Quarter | HalfTurn

  /** `(rot_n, comp_n)` of `rot90` and `rot180`: the compensation is positive and strictly smaller. */
  function StepCounts(halfStep: bool, turn: Turn): (counts: (nat, nat))
    ensures 0 < counts.1 < counts.0
    ensures turn == Quarter ==> counts.0 - counts.1 == (if halfStep then 100 else 50)
    ensures turn == HalfTurn ==> counts.0 - counts.1 == (if halfStep then 200 else 101)
  {
    match turn
    case Quarter => if halfStep then (101, 1) else (53, 3)
    case HalfTurn => if halfStep then (202, 2) else (103, 2)
  }

  /** The cube after a command, and the exception it raised, if any. */
  datatype Outcome = Outcome(cube: Cube, error: Option<Error>)

  /** The phase a stepper holds once armed. */
  function ArmedPhase(s: Stepper): Phase {
    State(Arm(s))
  }

  /** The net number of steps a turn advances: the primary rotation less the compensation. */
  function NetSteps(halfStep: bool, turn: Turn): int {
    StepCounts(halfStep, turn).0 - StepCounts(halfStep, turn).1
  }

  /**
   * The stepper part of `rot90`/`rot180` after arming: the primary rotation, the
   * compensation in the opposite direction, then disarm. A bad direction raises in
   * the first `step`, before any winding changes.
   */
  function TurnArmed(armed: Stepper, halfStep: bool, direction: string, turn: Turn): (r: Result<Stepper, Error>)
    ensures r.Success? <==> IsDirection(direction)
    ensures r.Failure? ==> r.error == BadDirection(direction)
    ensures r.Success? ==> State(r.value) == Parked && SameWiring(r.value, armed)
    ensures r.Success? ==>
      r.value.cachedState == Displaced(State(armed), halfStep, Displacement(direction, NetSteps(halfStep, turn)))
  {
    var (rotN, compN) := StepCounts(halfStep, turn);
    match Step(armed, halfStep, direction, rotN)
    case Failure(e) => Failure(e)
    case Success(turned) =>
      var back := OppositeDirection(direction).value;
      var compensated := Step(turned, halfStep, back, compN).value;
      OppositeReverses(direction, compN);
      DisplacedCompose(State(armed), halfStep, Displacement(direction, rotN), Displacement(back, compN));
      Success(Disarm(compensated))
  }

  /**
   * The shared shape of `rot90` and `rot180`: check the id, then arm the stepper
   * (an effect that survives a later raise) and turn it.
   */
  function Rotate(c: Cube, id: string, halfStep: bool, direction: string, turn: Turn): (r: Outcome)
    ensures id !in Ids ==> r == Outcome(c, Some(UnrecognizedId(id)))
    ensures id in Ids && Slot(c, id).None? ==> r == Outcome(c, Some(NoSuchAttribute(id)))
    ensures r.error.None? <==> id in Ids && Slot(c, id).Some? && IsDirection(direction)
    ensures id in Ids && Slot(c, id).Some? && !IsDirection(direction) ==>
      r.error == Some(BadDirection(direction))
      && r.cube.attrs == c.attrs[Slot(c, id).value := Arm(c.attrs[Slot(c, id).value])]
    ensures r.error.None? ==>
      && Slot(c, id).Some?
      && var key := Slot(c, id).value;
      && key in r.cube.attrs
      && var f := r.cube.attrs[key];
      && r.cube.attrs == c.attrs[key := f]
      && State(f) == Parked
      && SameWiring(f, c.attrs[key])
      && f.cachedState == Displaced(ArmedPhase(c.attrs[key]), halfStep, Displacement(direction, NetSteps(halfStep, turn)))
  {
    if id !in Ids then Outcome(c, Some(UnrecognizedId(id)))
    else
      match Slot(c, id)
      case None => Outcome(c, Some(NoSuchAttribute(id)))
      case Some(key) =>
        var armed := Arm(c.attrs[key]);
        match TurnArmed(armed, halfStep, direction, turn)
        case Failure(e) => Outcome(Cube(c.attrs[key := armed]), Some(e))
        case Success(f) => Outcome(Cube(c.attrs[key := f]), None)
  }

  /** `rot90`: net 100 half steps or 50 full steps. */
  function Rot90(c: Cube, id: string, halfStep: bool, direction: string): (r: Outcome)
    ensures r.error.None? ==>
      && Slot(c, id).Some?
      && var key := Slot(c, id).value;
      && key in r.cube.attrs
      && r.cube.attrs[key].cachedState
         == Displaced(ArmedPhase(c.attrs[key]), halfStep, Displacement(direction, if halfStep then 100 else 50))
  {
    Rotate(c, id, halfStep, direction, Quarter)
  }

  /** `rot180`: net 200 half steps or 101 full steps. */
  function Rot180(c: Cube, id: string, halfStep: bool, direction: string): (r: Outcome)
    ensures r.error.None? ==>
      && Slot(c, id).Some?
      && var key := Slot(c, id).value;
      && key in r.cube.attrs
      && r.cube.attrs[key].cachedState
         == Displaced(ArmedPhase(c.attrs[key]), halfStep, Displacement(direction, if halfStep then 200 else 101))
  {
    Rotate(c, id, halfStep, direction, HalfTurn)
  }

  /** On a wired cube every letter reaches its colour's stepper. */
  lemma WiredSlot(c: Cube, id: string)
    requires Wired(c) && id in Ids
    ensures Slot(c, id) == Some(Ids[id])
  {
    IdsTable();
  }

  /**
   * In half-step mode a quarter turn leaves the motor four phases on from where it
   * was armed, and a half turn on the phase it was armed at.
   */
  lemma HalfStepTurnPhases(c: Cube, id: string, direction: string)
    requires Wired(c) && id in Ids && IsDirection(direction) && ArmedPhase(c.attrs[Ids[id]]) < 8
    ensures Rot90(c, id, true, direction).error.None?
    ensures Rot90(c, id, true, direction).cube.attrs[Ids[id]].cachedState == (ArmedPhase(c.attrs[Ids[id]]) as int + 4) % 8
    ensures Rot180(c, id, true, direction).cube.attrs[Ids[id]].cachedState == ArmedPhase(c.attrs[Ids[id]])
  {
    WiredSlot(c, id);
    var p := ArmedPhase(c.attrs[Ids[id]]);
    assert Displaced(p, true, 100) == (p as int + 4) % 8;
    assert Displaced(p, true, -100) == (p as int + 4) % 8;
    assert Displaced(p, true, 200) == p;
    assert Displaced(p, true, -200) == p;
  }

  // ---------------------------------------------------------------------------
  // Moves
  // ---------------------------------------------------------------------------

  /** What a move token asks for: the face id, quarter or half turn, and the direction. */
  datatype MoveCmd = MoveCmd(id: string, turn: Turn, direction: string)

  /** The token grammar of `move`: checks in the order the source makes them. */
  function ParseMove(move: string): (r: Result<MoveCmd, Error>)
    ensures r.Success? <==> |move| == 1 || (|move| == 2 && move[1] in "21'3")
    ensures r.Success? ==> r.value.id == move[..1] && IsDirection(r.value.direction)
    ensures r.Success? ==> (r.value.direction == "CCW" <==> |move| == 2 && move[1] in "'3")
    ensures r.Success? ==> (r.value.turn == HalfTurn <==> |move| == 2 && move[1] == '2')
    ensures |move| == 0 ==> r == Failure(EmptyMove)
    ensures |move| > 2 ==> r == Failure(MoveTooLong(move))
    ensures |move| == 2 && move[1] !in "21'3" ==> r == Failure(UnrecognizedModifier(move[1]))
  {
    if |move| > 2 then Failure(MoveTooLong(move))
    else if |move| == 0 then Failure(EmptyMove)
    else if |move| == 1 then Success(MoveCmd(move, Quarter, "CW"))
    else if move[1] == '2' then Success(MoveCmd(move[..1], HalfTurn, "CW"))
    else if move[1] == '1' then Success(MoveCmd(move[..1], Quarter, "CW"))
    else if move[1] == '\'' || move[1] == '3' then Success(MoveCmd(move[..1], Quarter, "CCW"))
    else Failure(UnrecognizedModifier(move[1]))
  }

  /** The canonical token of a command: the letter, then "2", "'" or nothing. */
  function Notation(m: MoveCmd): string {
    match m.turn
    case HalfTurn => m.id + "2"
    case Quarter => if m.direction == "CCW" then m.id + "'" else m.id
  }

  /** Every command the grammar can express reads back from its canonical token. */
  lemma ParseNotation(m: MoveCmd)
    requires |m.id| == 1 && IsDirection(m.direction) && (m.turn == HalfTurn ==> m.direction == "CW")
    ensures ParseMove(Notation(m)) == Success(m)
  {
    var t := Notation(m);
    assert t[..1] == m.id;
  }

  /** The alternative spellings "X1" and "X3" mean "X" and "X'". */
  lemma ModifierAliases(face: char)
    ensures ParseMove([face, '1']) == ParseMove([face])
    ensures ParseMove([face, '3']) == ParseMove([face, '\''])
  {
    assert [face, '1'][..1] == [face];
    assert [face, '3'][..1] == [face] == [face, '\''][..1];
  }

  /**
   * `move`: parse the token, then `rot180` for a half turn or `rot90` otherwise.
   * No malformed token, unknown face or missing attribute arms a stepper.
   */
  function Move(c: Cube, move: string, halfStep: bool): (r: Outcome)
    ensures r.error.Some? ==> r.cube == c
    ensures ParseMove(move).Failure? ==> r == Outcome(c, Some(ParseMove(move).error))
    ensures r.error.None? <==> ParseMove(move).Success? && move[..1] in Ids && Slot(c, move[..1]).Some?
    ensures r.error.None? ==>
      && |move| > 0 && Slot(c, move[..1]).Some?
      && var key := Slot(c, move[..1]).value;
      && key in r.cube.attrs
      && r.cube.attrs == c.attrs[key := r.cube.attrs[key]]
      && State(r.cube.attrs[key]) == Parked
    ensures r.error.None? ==>
      && ParseMove(move).Success? && Slot(c, move[..1]).Some?
      && var m := ParseMove(move).value;
      && var key := Slot(c, move[..1]).value;
      && key in r.cube.attrs
      && r.cube.attrs[key].cachedState
         == Displaced(ArmedPhase(c.attrs[key]), halfStep, Displacement(m.direction, NetSteps(halfStep, m.turn)))
  {
    match ParseMove(move)
    case Failure(e) => Outcome(c, Some(e))
    case Success(m) =>
      if m.turn == HalfTurn then Rot180(c, m.id, halfStep, m.direction)
      else Rot90(c, m.id, halfStep, m.direction)
  }

  /**
   * The signed steps a token selects, by its modifier: "X2" a clockwise half turn,
   * "X'" and "X3" a counter-clockwise quarter turn, "X" and "X1" a clockwise one
   * (clockwise counts negative, as in `Displacement`).
   */
  lemma ModifierTurns(move: string, halfStep: bool)
    requires ParseMove(move).Success?
    ensures var m := ParseMove(move).value;
      var k := Displacement(m.direction, NetSteps(halfStep, m.turn));
      && (|move| == 2 && move[1] == '2' ==> k == -NetSteps(halfStep, HalfTurn))
      && (|move| == 2 && move[1] in "'3" ==> k == NetSteps(halfStep, Quarter))
      && (|move| == 1 || move[1] == '1' ==> k == -NetSteps(halfStep, Quarter))
  {
  }

  /** The turn a successful move makes, by its modifier. */
  lemma MoveTurns(c: Cube, move: string, halfStep: bool)
    requires Move(c, move, halfStep).error.None?
    ensures |move| in {1, 2} && Slot(c, move[..1]).Some?
    ensures var key := Slot(c, move[..1]).value;
      var p := ArmedPhase(c.attrs[key]);
      var landed := Move(c, move, halfStep).cube.attrs[key].cachedState;
      && (|move| == 2 && move[1] == '2' ==> landed == Displaced(p, halfStep, -NetSteps(halfStep, HalfTurn)))
      && (|move| == 2 && move[1] in "'3" ==> landed == Displaced(p, halfStep, NetSteps(halfStep, Quarter)))
      && (|move| == 1 || move[1] == '1' ==> landed == Displaced(p, halfStep, -NetSteps(halfStep, Quarter)))
  {
    ModifierTurns(move, halfStep);
  }
}
