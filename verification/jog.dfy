/**
 * The calibration ("jog") routine: for each face in `Cube.ids` order, a loop of
 * operator inputs steps the motor until "ok", after which the phase is stored and
 * the motor disarmed; and `jog_if_needed`, which runs it once when calibration is
 * forced, missing or unset. Operator input is a sequence of strings.
 */
module Jog {
  import opened Wrappers
  import opened Errors
  import opened Decimal
  import opened StepperMotor
  import opened StateFiles
  import opened Solver

  // ---------------------------------------------------------------------------
  // Directions
  // ---------------------------------------------------------------------------

  /** The routine's `direction` variable, which only ever holds "cw" or "ccw". */
  datatype JogDir = Cw | Ccw

  /** The text the variable holds. */
  function DirText(d: JogDir): string {
    match d
    case Cw => "cw"
    case Ccw => "ccw"
  }

  /** `str.upper()` on ASCII letters. */
  function Upper(s: string): (r: string)
    ensures |r| == |s|
    ensures forall i :: 0 <= i < |s| ==> ('a' <= s[i] <= 'z' ==> r[i] as int == s[i] as int - 32)
    ensures forall i :: 0 <= i < |s| ==> (!('a' <= s[i] <= 'z') ==> r[i] == s[i])
  {
    if |s| == 0 then ""
    else [if 'a' <= s[0] <= 'z' then (s[0] as int - 32) as char else s[0]] + Upper(s[1..])
  }

  /** Upper-casing a jog direction gives the stepper's direction token. */
  lemma UpperDirections()
    ensures Upper("cw") == "CW" && Upper("ccw") == "CCW"
  {
    assert Upper("cw")[0] == 'C' && Upper("cw")[1] == 'W';
    assert Upper("ccw")[0] == 'C' && Upper("ccw")[1] == 'C' && Upper("ccw")[2] == 'W';
  }

  /** Signed count of one step in a jog direction: "ccw" advances the phase, "cw" retreats it. */
  function Sign(d: JogDir): int {
    if d == Ccw then 1 else -1
  }

  /** `direction.upper()`: a valid stepper direction moving the phase the way the jog direction says. */
  function StepperDirection(d: JogDir): (r: string)
    ensures IsDirection(r)
    ensures forall n :: Displacement(r, n) == Sign(d) * n
  {
    UpperDirections();
    Upper(DirText(d))
  }

  /** The jog direction after "r", which is also the one `_opposite_direction` gives. */
  function Reversed(d: JogDir): (r: JogDir)
    ensures r != d && Sign(r) == -Sign(d)
    ensures OppositeDirection(DirText(d)) == Success(DirText(r))
  {
    if d == Cw then Ccw else Cw
  }

  // ---------------------------------------------------------------------------
  // The input loop of one face
  // ---------------------------------------------------------------------------

  /** What one input other than "ok" does inside the loop. */
  datatype Action = StepOnce | SetDirection(to: JogDir) | Reverse | Ignore

  /** The branch of the loop body an input takes; "ok" is handled before it. */
  function ActionOf(option: string): (a: Action)
    ensures a == StepOnce <==> option == ""
    ensures a == SetDirection(Cw) <==> option == "cw"
    ensures a == SetDirection(Ccw) <==> option == "ccw"
    ensures a == Reverse <==> option == "r"
  {
    if option == "" then StepOnce
    else if option == "cw" then SetDirection(Cw)
    else if option == "ccw" then SetDirection(Ccw)
    else if option == "r" then Reverse
    else Ignore
  }

  /** The direction after an input other than "ok". */
  function After(direction: JogDir, a: Action): (d: JogDir)
    ensures a == StepOnce || a == Ignore ==> d == direction
    ensures a == Reverse ==> d == Reversed(direction)
    ensures a.SetDirection? ==> d == a.to
  {
    match a
    case SetDirection(to) => to
    case Reverse => Reversed(direction)
    case _ => direction
  }

  /** The face and the direction after an input. */
  datatype Jogged = Jogged(face: Stepper, direction: JogDir)

  /**
   * One input other than "ok": "" steps once in the current direction, "cw"/"ccw"
   * set the direction, "r" reverses it, anything else is ignored.
   */
  function React(face: Stepper, direction: JogDir, halfStep: bool, a: Action): (r: Jogged)
    ensures r.face.cachedState == face.cachedState && SameWiring(r.face, face)
    ensures a == StepOnce ==> State(r.face) == Displaced(State(face), halfStep, Sign(direction))
    ensures a != StepOnce ==> r.face == face
    ensures r.direction == After(direction, a)
  {
    match a
    case StepOnce => Jogged(Step(face, halfStep, StepperDirection(direction), 1).value, direction)
    case SetDirection(d) => Jogged(face, d)
    case Reverse => Jogged(face, Reversed(direction))
    case Ignore => Jogged(face, direction)
  }

  /** Steps the "ok" input reverses for tolerance compensation. */
  function CompensationSteps(halfStep: bool): nat {
    if halfStep then 1 else 3
  }

  /** The "ok" input: the compensation steps in the opposite of the current direction. */
  function Compensate(face: Stepper, direction: JogDir, halfStep: bool): (r: Stepper)
    ensures r.cachedState == face.cachedState && SameWiring(r, face)
    ensures State(r) == Displaced(State(face), halfStep, -Sign(direction) * CompensationSteps(halfStep))
  {
    var back := OppositeDirection(DirText(direction)).value;
    assert Upper(back) == StepperDirection(Reversed(direction));
    Step(face, halfStep, Upper(back), CompensationSteps(halfStep)).value
  }

  /** A face part-way through jogging: its stepper, the direction, the unread inputs, and whether "ok" came. */
  datatype Progress = Progress(face: Stepper, direction: JogDir, rest: seq<string>, done: bool)

  /**
   * The `while option != "ok"` loop: every iteration reads one input first, and
   * "ok" compensates and ends the loop. Running out of input is `done == false`.
   */
  function JogLoop(face: Stepper, direction: JogDir, halfStep: bool, inputs: seq<string>): (r: Progress)
    ensures r.face.cachedState == face.cachedState && SameWiring(r.face, face)
    ensures |r.rest| <= |inputs| && r.rest == inputs[|inputs| - |r.rest|..]
    ensures !r.done ==> r.rest == []
    decreases |inputs|
  {
    if |inputs| == 0 then Progress(face, direction, [], false)
    else if inputs[0] == "ok" then Progress(Compensate(face, direction, halfStep), direction, inputs[1..], true)
    else
      var j := React(face, direction, halfStep, ActionOf(inputs[0]));
      JogLoop(j.face, j.direction, halfStep, inputs[1..])
  }

  /** What the loop does, counted rather than performed: the signed steps, the final direction, the step count. */
  datatype Tally = Tally(net: int, direction: JogDir, steps: nat)

  /** A reference reading of the loop's inputs up to the first "ok", with no stepper involved. */
  function Count(direction: JogDir, halfStep: bool, inputs: seq<string>): (t: Tally)
    ensures t.steps == 0 ==> t.net == 0
    decreases |inputs|
  {
    if |inputs| == 0 then Tally(0, direction, 0)
    else
      var option := inputs[0];
      if option == "" then
        var t := Count(direction, halfStep, inputs[1..]);
        Tally(Sign(direction) + t.net, t.direction, t.steps + 1)
      else if option == "cw" then Count(Cw, halfStep, inputs[1..])
      else if option == "ccw" then Count(Ccw, halfStep, inputs[1..])
      else if option == "ok" then
        Tally(-Sign(direction) * CompensationSteps(halfStep), direction, CompensationSteps(halfStep))
      else if option == "r" then Count(Reversed(direction), halfStep, inputs[1..])
      else Count(direction, halfStep, inputs[1..])
  }

  /** One input other than "ok": the loop and the count both go on from the reaction's direction. */
  lemma CountReact(direction: JogDir, halfStep: bool, inputs: seq<string>)
    requires |inputs| > 0 && inputs[0] != "ok"
    ensures var a := ActionOf(inputs[0]);
      var t := Count(After(direction, a), halfStep, inputs[1..]);
      Count(direction, halfStep, inputs)
        == if a == StepOnce then Tally(Sign(direction) + t.net, t.direction, t.steps + 1) else t
  {
  }

  /** The direction the loop ends with is the one the count ends with. */
  lemma {:induction false} JogLoopDirection(face: Stepper, direction: JogDir, halfStep: bool, inputs: seq<string>)
    ensures JogLoop(face, direction, halfStep, inputs).direction == Count(direction, halfStep, inputs).direction
    decreases |inputs|
  {
    if |inputs| > 0 && inputs[0] != "ok" {
      var j := React(face, direction, halfStep, ActionOf(inputs[0]));
      JogLoopDirection(j.face, j.direction, halfStep, inputs[1..]);
      CountReact(direction, halfStep, inputs);
    }
  }

  /** What the loop and the count promise of each other: the landing phase is the signed count on. */
  predicate LandsAsCounted(face: Stepper, halfStep: bool, last: Stepper, t: Tally) {
    && (t.steps == 0 ==> last == face)
    && (t.steps > 0 ==> State(last) == Displaced(State(face), halfStep, t.net))
  }

  /**
   * The loop lands where the counted steps say: unchanged when no step was taken,
   * otherwise displaced by the signed count.
   */
  lemma {:induction false} JogLoopMatchesCount(face: Stepper, direction: JogDir, halfStep: bool, inputs: seq<string>)
    ensures LandsAsCounted(face, halfStep, JogLoop(face, direction, halfStep, inputs).face, Count(direction, halfStep, inputs))
    decreases |inputs|
  {
    if |inputs| > 0 && inputs[0] != "ok" {
      var a := ActionOf(inputs[0]);
      var j := React(face, direction, halfStep, a);
      JogLoopMatchesCount(j.face, j.direction, halfStep, inputs[1..]);
      var last := JogLoop(j.face, j.direction, halfStep, inputs[1..]).face;
      assert JogLoop(face, direction, halfStep, inputs).face == last;
      ReactThenCount(face, j.face, direction, halfStep, inputs, last);
    }
  }

  /** The inductive step of `JogLoopMatchesCount`: one reaction, then the rest of the inputs as counted. */
  lemma ReactThenCount(face: Stepper, reacted: Stepper, direction: JogDir, halfStep: bool, inputs: seq<string>, last: Stepper)
    requires |inputs| > 0 && inputs[0] != "ok"
    requires ActionOf(inputs[0]) == StepOnce ==> State(reacted) == Displaced(State(face), halfStep, Sign(direction))
    requires ActionOf(inputs[0]) != StepOnce ==> reacted == face
    requires LandsAsCounted(reacted, halfStep, last, Count(After(direction, ActionOf(inputs[0])), halfStep, inputs[1..]))
    ensures LandsAsCounted(face, halfStep, last, Count(direction, halfStep, inputs))
  {
    var a := ActionOf(inputs[0]);
    CountReact(direction, halfStep, inputs);
    var t := Count(After(direction, a), halfStep, inputs[1..]);
    if a == StepOnce {
      StepThenCounted(face, reacted, halfStep, Sign(direction), last, t);
    }
  }

  /** One step of `k` before a counted run adds `k` to the count. */
  lemma StepThenCounted(face: Stepper, stepped: Stepper, halfStep: bool, k: int, last: Stepper, t: Tally)
    requires State(stepped) == Displaced(State(face), halfStep, k)
    requires LandsAsCounted(stepped, halfStep, last, t) && (t.steps == 0 ==> t.net == 0)
    ensures LandsAsCounted(face, halfStep, last, Tally(k + t.net, t.direction, t.steps + 1))
  {
    if t.steps > 0 {
      DisplacedCompose(State(face), halfStep, k, t.net);
    }
  }

  /** Once the loop sees "ok", at least the compensation step has been taken. */
  lemma {:induction false} DoneMeansStepped(face: Stepper, direction: JogDir, halfStep: bool, inputs: seq<string>)
    requires JogLoop(face, direction, halfStep, inputs).done
    ensures Count(direction, halfStep, inputs).steps > 0
    decreases |inputs|
  {
    if inputs[0] != "ok" {
      var j := React(face, direction, halfStep, ActionOf(inputs[0]));
      DoneMeansStepped(j.face, j.direction, halfStep, inputs[1..]);
      CountReact(direction, halfStep, inputs);
    }
  }

  /**
   * One face of `jog`: the first input is read before the loop and is only
   * checked for "ok" — an immediate "ok" skips the loop and its compensation,
   * any other first input is discarded.
   */
  function JogFace(face: Stepper, direction: JogDir, halfStep: bool, inputs: seq<string>): (r: Progress)
    ensures r.face.cachedState == face.cachedState && SameWiring(r.face, face)
    ensures !r.done ==> r.rest == []
    ensures |inputs| > 0 && inputs[0] == "ok" ==> r == Progress(face, direction, inputs[1..], true)
    ensures |inputs| > 0 && inputs[0] != "ok" ==> r == JogLoop(face, direction, halfStep, inputs[1..])
    ensures |inputs| == 0 ==> r == Progress(face, direction, [], false)
  {
    if |inputs| == 0 then Progress(face, direction, [], false)
    else if inputs[0] == "ok" then Progress(face, direction, inputs[1..], true)
    else JogLoop(face, direction, halfStep, inputs[1..])
  }

  /** The inputs after the first "ok", or None when no "ok" comes. */
  function AfterOk(inputs: seq<string>): (r: Option<seq<string>>)
    ensures r.Some? ==> |r.value| < |inputs| && r.value == inputs[|inputs| - |r.value|..]
    decreases |inputs|
  {
    if |inputs| == 0 then None
    else if inputs[0] == "ok" then Some(inputs[1..])
    else AfterOk(inputs[1..])
  }

  /** The loop ends exactly at the first "ok", and leaves the inputs after it unread. */
  lemma {:induction false} JogLoopConsumes(face: Stepper, direction: JogDir, halfStep: bool, inputs: seq<string>)
    ensures var r := JogLoop(face, direction, halfStep, inputs);
      AfterOk(inputs) == if r.done then Some(r.rest) else None
    decreases |inputs|
  {
    if |inputs| > 0 && inputs[0] != "ok" {
      var j := React(face, direction, halfStep, ActionOf(inputs[0]));
      JogLoopConsumes(j.face, j.direction, halfStep, inputs[1..]);
    }
  }

  /** One face's reading of its inputs, with no stepper: an immediate "ok" counts nothing, any other first input is dropped. */
  function FaceCount(direction: JogDir, halfStep: bool, inputs: seq<string>): Tally {
    if |inputs| == 0 || inputs[0] == "ok" then Tally(0, direction, 0)
    else Count(direction, halfStep, inputs[1..])
  }

  /** The inputs one face leaves to the next, or None when they run out first. */
  function FaceRest(inputs: seq<string>): Option<seq<string>> {
    if |inputs| == 0 then None
    else if inputs[0] == "ok" then Some(inputs[1..])
    else AfterOk(inputs[1..])
  }

  /** The phase a face started at lands on after the counted steps. */
  function Reached(start: Stepper, halfStep: bool, t: Tally): Phase {
    if t.steps == 0 then State(start) else Displaced(State(start), halfStep, t.net)
  }

  /**
   * One face jogs as its inputs are counted: it ends in the counted direction, on
   * the counted phase, and hands on exactly the inputs after its "ok".
   */
  lemma JogFaceMatchesCount(face: Stepper, direction: JogDir, halfStep: bool, inputs: seq<string>)
    ensures var r := JogFace(face, direction, halfStep, inputs);
      var t := FaceCount(direction, halfStep, inputs);
      && r.direction == t.direction
      && LandsAsCounted(face, halfStep, r.face, t)
      && State(r.face) == Reached(face, halfStep, t)
      && FaceRest(inputs) == (if r.done then Some(r.rest) else None)
  {
    if |inputs| > 0 && inputs[0] != "ok" {
      JogLoopDirection(face, direction, halfStep, inputs[1..]);
      JogLoopMatchesCount(face, direction, halfStep, inputs[1..]);
      JogLoopConsumes(face, direction, halfStep, inputs[1..]);
    }
  }

  // ---------------------------------------------------------------------------
  // All faces
  // ---------------------------------------------------------------------------

  /** `Cube.ids` in its iteration order, as the colours its letters name. */
  const JogOrder: seq<Colour> := [White, Yellow, Orange, Green, Red, Blue]

  predicate Distinct(cols: seq<Colour>) {
    forall i, j :: 0 <= i < j < |cols| ==> cols[i] != cols[j]
  }

  /** Where a colour stands in `JogOrder`. */
  function Position(col: Colour): (i: nat)
    ensures i < |JogOrder| && JogOrder[i] == col
  {
    match col
    case White => 0
    case Yellow => 1
    case Orange => 2
    case Green => 3
    case Red => 4
    case Blue => 5
  }

  /** `JogOrder` visits the letters of `Cube.ids` in order, each colour once. */
  lemma JogOrderFollowsIds()
    ensures |JogOrder| == |IdOrder|
    ensures forall i :: 0 <= i < |JogOrder| ==> Letter(JogOrder[i]) == IdOrder[i]
    ensures Distinct(JogOrder)
  {
    forall i | 0 <= i < |JogOrder| ensures Letter(JogOrder[i]) == IdOrder[i] && Position(JogOrder[i]) == i {
      assert i == 0 || i == 1 || i == 2 || i == 3 || i == 4 || i == 5;
    }
  }

  /** Every colour's stepper is stored under the colour's name. */
  predicate HasFaces(c: Cube) {
    forall col: Colour :: AttrName(col) in c.attrs
  }

  /** A constructed cube has every colour's stepper. */
  lemma WiredHasFaces(c: Cube)
    requires Wired(c)
    ensures HasFaces(c)
  {
    IdsTable();
    forall col: Colour ensures AttrName(col) in c.attrs {
      assert Letter(col) in Ids;
    }
  }

  /** `getattr(cube, id)` in the loop reaches the stepper of the colour the letter names. */
  lemma JogFaceSlot(c: Cube, col: Colour)
    requires Wired(c)
    ensures AttrName(col) in c.attrs && GetAttr(c, Letter(col)) == Success(StepperAttr(c.attrs[AttrName(col)]))
  {
    IdsTable();
    WiredSlot(c, Letter(col));
  }

  /** A face is left calibrated when it is disarmed and its state file holds the phase it cached, in decimal. */
  predicate Calibrated(c: Cube, files: Files, col: Colour) {
    && AttrName(col) in c.attrs && AttrName(col) in files
    && State(c.attrs[AttrName(col)]) == Parked
    && files[AttrName(col)] == FormatInt(c.attrs[AttrName(col)].cachedState as int)
  }

  /** A calibrated face's file reads back as the phase the face cached. */
  lemma CalibratedReadsBack(c: Cube, files: Files, col: Colour)
    requires Calibrated(c, files, col)
    ensures ParseInt(files[AttrName(col)]) == Some(c.attrs[AttrName(col)].cachedState as int)
  {
    ParseFormatRoundTrip(c.attrs[AttrName(col)].cachedState as int);
  }

  /** The colour attributes, which are also the state file names, of some faces. */
  function Names(cols: seq<Colour>): (r: set<string>)
    ensures forall i :: 0 <= i < |cols| ==> AttrName(cols[i]) in r
    decreases |cols|
  {
    if |cols| == 0 then {} else {AttrName(cols[0])} + Names(cols[1..])
  }

  /** A colour missing from a list is named by none of the list's names. */
  lemma {:induction false} NameNotListed(col: Colour, cols: seq<Colour>)
    requires col !in cols
    ensures AttrName(col) !in Names(cols)
    decreases |cols|
  {
    if |cols| > 0 {
      AttrNameInjective(col, cols[0]);
      assert col !in cols[1..];
      NameNotListed(col, cols[1..]);
    }
  }

  /** The rig after one face of `jog`, with the direction and inputs passed on to the next face. */
  datatype FaceJogged = FaceJogged(cube: Cube, files: Files, direction: JogDir, rest: seq<string>, done: bool)

  /**
   * The body of the `for id in Cube.ids` loop: jog the face, then, once "ok" came,
   * store its phase in `states/<colour>` and disarm it. Without "ok" the stepped
   * face is kept and nothing is stored. Only the face's own attribute and file change.
   */
  function JogOneFace(c: Cube, files: Files, col: Colour, direction: JogDir, halfStep: bool, inputs: seq<string>): (r: FaceJogged)
    requires HasFaces(c)
    ensures AttrName(col) in r.cube.attrs && r.cube.attrs == c.attrs[AttrName(col) := r.cube.attrs[AttrName(col)]]
    ensures SameWiring(r.cube.attrs[AttrName(col)], c.attrs[AttrName(col)])
    ensures r.done ==> Calibrated(r.cube, r.files, col)
    ensures r.done ==> r.files == files[AttrName(col) := r.files[AttrName(col)]]
    ensures !r.done ==> r.files == files && r.rest == []
  {
    var key := AttrName(col);
    var p := JogFace(c.attrs[key], direction, halfStep, inputs);
    if !p.done then
      FaceJogged(Cube(c.attrs[key := p.face]), files, p.direction, p.rest, false)
    else
      FaceJogged(Cube(c.attrs[key := Disarm(p.face)]), StoreState(p.face, files, key), p.direction, p.rest, true)
  }

  /**
   * What one face stores: the phase its inputs drove it to, which disarming caches
   * and `store_state` writes; the direction and the unread inputs go on to the next
   * face as counted.
   */
  lemma JogOneFaceCounted(c: Cube, files: Files, col: Colour, direction: JogDir, halfStep: bool, inputs: seq<string>)
    requires HasFaces(c)
    ensures var r := JogOneFace(c, files, col, direction, halfStep, inputs);
      var t := FaceCount(direction, halfStep, inputs);
      var start := c.attrs[AttrName(col)];
      && r.direction == t.direction
      && FaceRest(inputs) == (if r.done then Some(r.rest) else None)
      && (r.done ==> r.cube.attrs[AttrName(col)].cachedState == Reached(start, halfStep, t))
      && (!r.done ==> State(r.cube.attrs[AttrName(col)]) == Reached(start, halfStep, t))
  {
    JogFaceMatchesCount(c.attrs[AttrName(col)], direction, halfStep, inputs);
  }

  /** Jogging one face leaves every other attribute as it was. */
  lemma JogOneFaceLeaves(c: Cube, files: Files, col: Colour, direction: JogDir, halfStep: bool, inputs: seq<string>, k: string)
    requires HasFaces(c) && k in c.attrs && k != AttrName(col)
    ensures JogOneFace(c, files, col, direction, halfStep, inputs).cube.attrs[k] == c.attrs[k]
  {
  }

  /** The state of the whole rig after jogging: cube, state files, and the exception raised, if any. */
  datatype JogOutcome = JogOutcome(cube: Cube, files: Files, error: Option<Error>)

  /**
   * The `for id in Cube.ids` loop of `jog` from a given face on, the direction
   * carried from face to face. Running out of input stops it, keeping what was
   * done so far.
   */
  function JogFaces(c: Cube, files: Files, cols: seq<Colour>, direction: JogDir, halfStep: bool, inputs: seq<string>): (r: JogOutcome)
    requires HasFaces(c)
    ensures r.cube.attrs.Keys == c.attrs.Keys
    ensures r.error.Some? ==> r.error == Some(EndOfInput)
    decreases |cols|
  {
    if |cols| == 0 then JogOutcome(c, files, None)
    else
      var one := JogOneFace(c, files, cols[0], direction, halfStep, inputs);
      if !one.done then JogOutcome(one.cube, one.files, Some(EndOfInput))
      else JogFaces(one.cube, one.files, cols[1..], one.direction, halfStep, one.rest)
  }

  /** Jogging rewires no stepper. */
  lemma {:induction false} JogFacesKeepsWiring(c: Cube, files: Files, cols: seq<Colour>, direction: JogDir, halfStep: bool, inputs: seq<string>, k: string)
    requires HasFaces(c) && k in c.attrs
    ensures SameWiring(JogFaces(c, files, cols, direction, halfStep, inputs).cube.attrs[k], c.attrs[k])
    decreases |cols|
  {
    if |cols| > 0 {
      var one := JogOneFace(c, files, cols[0], direction, halfStep, inputs);
      if one.done {
        JogFacesKeepsWiring(one.cube, one.files, cols[1..], one.direction, halfStep, one.rest, k);
      }
    }
  }

  /** Jogging leaves the stepper and the file of every face not listed, and every other attribute and file, alone. */
  lemma {:induction false} JogFacesFrame(c: Cube, files: Files, cols: seq<Colour>, direction: JogDir, halfStep: bool, inputs: seq<string>, k: string)
    requires HasFaces(c) && k !in Names(cols)
    ensures var r := JogFaces(c, files, cols, direction, halfStep, inputs);
      && (k in c.attrs ==> r.cube.attrs[k] == c.attrs[k])
      && (k in files ==> k in r.files && r.files[k] == files[k])
    decreases |cols|
  {
    if |cols| > 0 {
      var one := JogOneFace(c, files, cols[0], direction, halfStep, inputs);
      if one.done {
        JogFacesFrame(one.cube, one.files, cols[1..], one.direction, halfStep, one.rest, k);
      }
    }
  }

  /** When no input runs out, every listed face (each listed once) ends disarmed with its file holding its cached phase. */
  lemma {:induction false} JogFacesCalibrates(c: Cube, files: Files, cols: seq<Colour>, direction: JogDir, halfStep: bool, inputs: seq<string>, col: Colour)
    requires HasFaces(c) && Distinct(cols) && col in cols
    ensures var r := JogFaces(c, files, cols, direction, halfStep, inputs);
      r.error.None? ==> Calibrated(r.cube, r.files, col)
    decreases |cols|
  {
    var one := JogOneFace(c, files, cols[0], direction, halfStep, inputs);
    if one.done {
      assert Distinct(cols[1..]);
      if col == cols[0] {
        FirstNotInRest(cols);
        NameNotListed(col, cols[1..]);
        JogFacesFrame(one.cube, one.files, cols[1..], one.direction, halfStep, one.rest, AttrName(col));
      } else {
        JogFacesCalibrates(one.cube, one.files, cols[1..], one.direction, halfStep, one.rest, col);
      }
    }
  }

  /**
   * The reference reading of a whole jog, with no stepper: each listed face's
   * count, every face starting in the direction and on the inputs the face before it
   * left. It stops at the face whose inputs run out.
   */
  function Tallies(cols: seq<Colour>, direction: JogDir, halfStep: bool, inputs: seq<string>): (ts: seq<Tally>)
    ensures |ts| <= |cols|
    ensures |cols| > 0 ==> |ts| > 0 && ts[0] == FaceCount(direction, halfStep, inputs)
    decreases |cols|
  {
    if |cols| == 0 then []
    else
      var t := FaceCount(direction, halfStep, inputs);
      match FaceRest(inputs)
      case None => [t]
      case Some(rest) => [t] + Tallies(cols[1..], t.direction, halfStep, rest)
  }

  /**
   * Face `i` of a run, if the run completes, caches (and so stores) the phase its
   * start reaches by the reference count of its share of the inputs.
   */
  predicate StoresAt(c: Cube, files: Files, cols: seq<Colour>, direction: JogDir, halfStep: bool, inputs: seq<string>, i: nat)
    requires HasFaces(c) && i < |cols|
  {
    var r := JogFaces(c, files, cols, direction, halfStep, inputs);
    var ts := Tallies(cols, direction, halfStep, inputs);
    r.error.None? ==>
      i < |ts| && r.cube.attrs[AttrName(cols[i])].cachedState == Reached(c.attrs[AttrName(cols[i])], halfStep, ts[i])
  }

  /** When no input runs out, every listed face (each listed once) stores the phase its inputs reach. */
  lemma {:induction false} JogFacesStoresCounted(c: Cube, files: Files, cols: seq<Colour>, direction: JogDir, halfStep: bool, inputs: seq<string>, i: nat)
    requires HasFaces(c) && Distinct(cols) && i < |cols|
    ensures StoresAt(c, files, cols, direction, halfStep, inputs, i)
    decreases |cols|
  {
    if i == 0 {
      FirstFaceStoresCounted(c, files, cols, direction, halfStep, inputs);
    } else {
      var one := JogOneFace(c, files, cols[0], direction, halfStep, inputs);
      LaterFaceStep(c, files, cols, direction, halfStep, inputs, i);
      if one.done {
        JogFacesStoresCounted(one.cube, one.files, cols[1..], one.direction, halfStep, one.rest, i - 1);
      }
    }
  }

  /**
   * The inductive step of `JogFacesStoresCounted`: a face after the first is left
   * alone by the first, so it stores what the rest of the run counts for it.
   */
  lemma LaterFaceStep(c: Cube, files: Files, cols: seq<Colour>, direction: JogDir, halfStep: bool, inputs: seq<string>, i: nat)
    requires HasFaces(c) && Distinct(cols) && 0 < i < |cols|
    ensures var one := JogOneFace(c, files, cols[0], direction, halfStep, inputs);
      && (!one.done ==> JogFaces(c, files, cols, direction, halfStep, inputs).error.Some?)
      && (one.done ==> HasFaces(one.cube) && Distinct(cols[1..]))
      && (one.done && StoresAt(one.cube, one.files, cols[1..], one.direction, halfStep, one.rest, i - 1)
          ==> StoresAt(c, files, cols, direction, halfStep, inputs, i))
  {
    var one := JogOneFace(c, files, cols[0], direction, halfStep, inputs);
    JogOneFaceCounted(c, files, cols[0], direction, halfStep, inputs);
    assert one.done ==> Distinct(cols[1..]);
    if one.done && StoresAt(one.cube, one.files, cols[1..], one.direction, halfStep, one.rest, i - 1) {
      var r := JogFaces(one.cube, one.files, cols[1..], one.direction, halfStep, one.rest);
      assert JogFaces(c, files, cols, direction, halfStep, inputs) == r;
      var ts' := Tallies(cols[1..], one.direction, halfStep, one.rest);
      assert Tallies(cols, direction, halfStep, inputs) == [FaceCount(direction, halfStep, inputs)] + ts';
      TailIndex(cols, i);
      AttrNameInjective(cols[i], cols[0]);
      var k := AttrName(cols[i]);
      JogOneFaceLeaves(c, files, cols[0], direction, halfStep, inputs, k);
      StoredLater(c.attrs[k], one.cube.attrs[k], r.cube.attrs[k], r.error, halfStep, FaceCount(direction, halfStep, inputs), ts', i);
    }
  }

  /** What `LaterFaceStep` concludes, over the values it computes. */
  lemma StoredLater(start: Stepper, mid: Stepper, last: Stepper, error: Option<Error>, halfStep: bool, t: Tally, ts': seq<Tally>, i: nat)
    requires i > 0 && mid == start
    requires error.None? ==> i - 1 < |ts'| && last.cachedState == Reached(mid, halfStep, ts'[i - 1])
    ensures error.None? ==> i < |[t] + ts'| && last.cachedState == Reached(start, halfStep, ([t] + ts')[i])
  {
  }

  /** The first listed face stores its own count, and the faces after it leave it alone. */
  lemma FirstFaceStoresCounted(c: Cube, files: Files, cols: seq<Colour>, direction: JogDir, halfStep: bool, inputs: seq<string>)
    requires HasFaces(c) && Distinct(cols) && |cols| > 0
    ensures var r := JogFaces(c, files, cols, direction, halfStep, inputs);
      r.error.None? ==>
        r.cube.attrs[AttrName(cols[0])].cachedState
          == Reached(c.attrs[AttrName(cols[0])], halfStep, FaceCount(direction, halfStep, inputs))
    ensures StoresAt(c, files, cols, direction, halfStep, inputs, 0)
  {
    var one := JogOneFace(c, files, cols[0], direction, halfStep, inputs);
    JogOneFaceCounted(c, files, cols[0], direction, halfStep, inputs);
    if one.done {
      assert Distinct(cols[1..]);
      FirstNotInRest(cols);
      NameNotListed(cols[0], cols[1..]);
      JogFacesFrame(one.cube, one.files, cols[1..], one.direction, halfStep, one.rest, AttrName(cols[0]));
    }
  }

  /** Position `i` of a list without repeats is position `i - 1` of its tail, and differs from the head. */
  lemma TailIndex(cols: seq<Colour>, i: nat)
    requires Distinct(cols) && 0 < i < |cols|
    ensures cols[1..][i - 1] == cols[i] && cols[i] != cols[0]
  {
  }

  /** In a list without repeats the head does not recur in the tail. */
  lemma FirstNotInRest(cols: seq<Colour>)
    requires |cols| > 0 && Distinct(cols)
    ensures cols[0] !in cols[1..]
  {
    forall i | 0 <= i < |cols[1..]| ensures cols[1..][i] != cols[0] {
      assert cols[1..][i] == cols[i + 1];
    }
  }

  /** `jog`: every face in `Cube.ids` order, starting in direction "cw". */
  function RunJog(c: Cube, files: Files, halfStep: bool, inputs: seq<string>): (r: JogOutcome)
    requires Wired(c)
    ensures Wired(r.cube) && r.cube.attrs.Keys == c.attrs.Keys
    ensures forall k :: k in c.attrs ==> SameWiring(r.cube.attrs[k], c.attrs[k])
    ensures r.error.None? ==> forall col: Colour :: Calibrated(r.cube, r.files, col)
    ensures r.error.None? ==> forall col: Colour :: StoresCounted(c, r.cube, halfStep, inputs, col)
    ensures r.error.Some? ==> r.error == Some(EndOfInput)
  {
    WiredHasFaces(c);
    RunJogKeepsWiring(c, files, halfStep, inputs);
    AllFacesCalibrated(c, files, halfStep, inputs);
    AllFacesStoreCounted(c, files, halfStep, inputs);
    var r := JogFaces(c, files, JogOrder, Cw, halfStep, inputs);
    WiredKeys(c, r.cube);
    r
  }

  /** Whether a cube is wired depends only on which attributes it has. */
  lemma WiredKeys(c: Cube, c': Cube)
    requires Wired(c) && c'.attrs.Keys == c.attrs.Keys
    ensures Wired(c')
  {
  }

  /** A run of the face loop over `JogOrder` rewires no stepper. */
  lemma RunJogKeepsWiring(c: Cube, files: Files, halfStep: bool, inputs: seq<string>)
    requires HasFaces(c)
    ensures var r := JogFaces(c, files, JogOrder, Cw, halfStep, inputs);
      forall k :: k in c.attrs ==> SameWiring(r.cube.attrs[k], c.attrs[k])
  {
    forall k | k in c.attrs
      ensures SameWiring(JogFaces(c, files, JogOrder, Cw, halfStep, inputs).cube.attrs[k], c.attrs[k])
    {
      JogFacesKeepsWiring(c, files, JogOrder, Cw, halfStep, inputs, k);
    }
  }

  /**
   * A face's cached phase after a full jog is the one its start reaches by the
   * reference count of its share of the inputs, the first face starting in "cw".
   */
  predicate StoresCounted(c: Cube, c': Cube, halfStep: bool, inputs: seq<string>, col: Colour) {
    var ts := Tallies(JogOrder, Cw, halfStep, inputs);
    && AttrName(col) in c.attrs && AttrName(col) in c'.attrs && Position(col) < |ts|
    && c'.attrs[AttrName(col)].cachedState == Reached(c.attrs[AttrName(col)], halfStep, ts[Position(col)])
  }

  /** A complete run of the face loop over `JogOrder` stores, for every colour, the phase its inputs reach. */
  lemma AllFacesStoreCounted(c: Cube, files: Files, halfStep: bool, inputs: seq<string>)
    requires HasFaces(c)
    ensures var r := JogFaces(c, files, JogOrder, Cw, halfStep, inputs);
      r.error.None? ==> forall col: Colour :: StoresCounted(c, r.cube, halfStep, inputs, col)
  {
    JogOrderFollowsIds();
    forall col: Colour
      ensures var r := JogFaces(c, files, JogOrder, Cw, halfStep, inputs);
        r.error.None? ==> StoresCounted(c, r.cube, halfStep, inputs, col)
    {
      JogFacesStoresCounted(c, files, JogOrder, Cw, halfStep, inputs, Position(col));
    }
  }

  /** A complete run of the face loop over `JogOrder` calibrates every colour. */
  lemma AllFacesCalibrated(c: Cube, files: Files, halfStep: bool, inputs: seq<string>)
    requires HasFaces(c)
    ensures var r := JogFaces(c, files, JogOrder, Cw, halfStep, inputs);
      r.error.None? ==> forall col: Colour :: Calibrated(r.cube, r.files, col)
  {
    JogOrderFollowsIds();
    forall col: Colour
      ensures var r := JogFaces(c, files, JogOrder, Cw, halfStep, inputs);
        r.error.None? ==> Calibrated(r.cube, r.files, col)
    {
      assert JogOrder[Position(col)] == col;
      JogFacesCalibrates(c, files, JogOrder, Cw, halfStep, inputs, col);
    }
  }

  // ---------------------------------------------------------------------------
  // jog_if_needed
  // ---------------------------------------------------------------------------

  /** A face still needs calibrating when its state file is missing or holds the sentinel. */
  predicate Uncalibrated(files: Files, name: string) {
    name !in files || files[name] == UncalibratedText
  }

  /** The scan of `jog_if_needed` over the faces from `cols` on: does some iteration call `jog`? */
  function NeedsJog(files: Files, force: bool, cols: seq<Colour>): (b: bool)
    ensures b <==> |cols| > 0 && (force || exists i :: 0 <= i < |cols| && Uncalibrated(files, AttrName(cols[i])))
    decreases |cols|
  {
    if |cols| == 0 then false
    else if force then true
    else if AttrName(cols[0]) !in files then true
    else if files[AttrName(cols[0])] == UncalibratedText then true
    else
      var b := NeedsJog(files, force, cols[1..]);
      assert b <==> exists i :: 1 <= i < |cols| && Uncalibrated(files, AttrName(cols[i])) by {
        if b {
          var i :| 0 <= i < |cols[1..]| && Uncalibrated(files, AttrName(cols[1..][i]));
          assert Uncalibrated(files, AttrName(cols[i + 1]));
        }
      }
      b
  }

  /** Scanning every face asks whether calibration is forced or some colour's file is missing or unset. */
  lemma NeedsJogAllFaces(files: Files, force: bool)
    ensures NeedsJog(files, force, JogOrder) <==> force || exists col: Colour :: Uncalibrated(files, AttrName(col))
  {
    if exists col: Colour :: Uncalibrated(files, AttrName(col)) {
      var col: Colour :| Uncalibrated(files, AttrName(col));
      assert Uncalibrated(files, AttrName(JogOrder[Position(col)]));
    }
  }

  /**
   * `jog_if_needed`: runs `jog` once exactly when calibration is forced or some
   * face's state file is missing or holds -1; otherwise nothing changes.
   */
  function JogIfNeeded(c: Cube, files: Files, force: bool, halfStep: bool, inputs: seq<string>): (r: JogOutcome)
    requires Wired(c)
    ensures (force || exists col: Colour :: Uncalibrated(files, AttrName(col))) ==> r == RunJog(c, files, halfStep, inputs)
    ensures !(force || exists col: Colour :: Uncalibrated(files, AttrName(col))) ==> r == JogOutcome(c, files, None)
  {
    NeedsJogAllFaces(files, force);
    if NeedsJog(files, force, JogOrder) then RunJog(c, files, halfStep, inputs) else JogOutcome(c, files, None)
  }
}
