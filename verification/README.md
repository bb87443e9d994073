# Cube solver stepper driver — a Dafny model

This project models the motor-control core of a robot that turns the six faces of a
puzzle cube with six bipolar stepper motors:

- **The stepper driver** (`stepper.py`, module `StepperMotor` in `stepper.dfy`).
  - A `Winding` holds a polarity in {-1, 0, +1}.
  - A `Stepper` reads its phase 0..8 from the pair of winding polarities through a fixed table.
  - In full-step mode it moves around {0, 2, 4, 6}; in half-step mode around 0..7.
  - `arm`/`disarm` restore and cache the phase.
- **Calibration persistence** (`store_state`, `load_state`, module `StateFiles` in `state_files.dfy`).
  - The `states/` directory is a map from file name to text.
  - Python's `int()` and `str()` are modelled in module `Decimal` (`decimal.dfy`).
- **The face binding and move interpreter** (`solver.py`, module `Solver` in `solver.dfy`).
  - The GPIO pin table and the letter → colour alias table (`Cube.ids`).
  - Attribute get/set through either name.
  - `_opposite_direction`, `rot90`/`rot180` with their compensation step counts, and `move`.
- **The calibration ("jog") routine** (module `Jog` in `jog.dfy`).
  - `jog` is a fold over a sequence of operator input strings.
  - `jog_if_needed` decides whether `jog` runs.
- **The face grid** (`cube.py`, module `FaceGrid` in `face.dfy`).
  - `Face.rotate90` on a 3×3 grid, with `np.rot90` written out as an index map.
  - The bounds-checked row and column setters and the edge properties.

Python exceptions become `Failure` values of `Result` (modules `Wrappers`, `Errors`).
Where the source mutates state before it raises, the outcome records both:
- `rot90` with a bad direction arms the stepper first, and the model keeps that armed stepper.
- `jog` running out of input keeps the faces already jogged.

GPIO writes are replaced by the `energized` field they leave behind.

Facts about the code that the model keeps:
- `move` also accepts the modifiers `1` (a plain quarter turn) and `3` (counter-clockwise).
- In `jog`, "r" only toggles the direction. The compensation steps are taken on "ok".
- The step and compensation counts are the constants hard-coded in `rot90`/`rot180`.
- The letter ↔ colour pairing is the one in `Cube.ids`, which differs from the class docstring.

## Model

| member | source | states |
|---|---|---|
| StepperMotor.NewStepper | stepper.py:43-46 | a new stepper has both windings off (phase 8), nothing cached (-1), and the given pins |
| StepperMotor.Energize | stepper.py:19-34 | succeeds exactly for 1, -1 and 0, leaving `energized` equal to the argument and the pins unchanged; any other value raises |
| StepperMotor.DeEnergize | stepper.py:36-39 | always leaves `energized == 0` |
| StepperMotor.PolaritiesOf | stepper.py:47-58 | the inverted table gives, for each phase 0..8, a polarity pair that the table maps back to that phase |
| StepperMotor.TableBijective | stepper.py:47-58 | the table is a bijection between the nine polarity pairs and 0..8, with (0,0) the only pair giving 8 |
| StepperMotor.SetState | stepper.py:64-68 | setting a phase 0..8 makes the getter read that phase and keeps the cache and the pins; any other key raises |
| StepperMotor.SetStateOfState | stepper.py:60-68 | setting the phase just read reproduces exactly the same windings |
| StepperMotor.Disarm | stepper.py:70-73 | caches the current phase and leaves both windings at 0 (phase 8) |
| StepperMotor.Arm | stepper.py:75-79 | with -1 cached, nothing changes; otherwise the windings take the cached phase; the cache is never altered |
| StepperMotor.ArmAfterDisarm | stepper.py:70-79 | disarm then arm re-energizes exactly the windings present before the disarm |
| StepperMotor.NextState | stepper.py:81-95 | raises for any direction other than "CW" or "CCW"; full step lands in {0,2,4,6}, half step in 0..7, displaced by one position in the direction's sense |
| StepperMotor.FullStepRoundTrip | stepper.py:85-90 | from an even phase, CCW then CW, or CW then CCW, returns to that phase |
| StepperMotor.FullStepOddRoundTrip | stepper.py:85-90 | from an odd phase the phase is floored first, so the round trip ends one below it |
| StepperMotor.HalfStepRoundTrip | stepper.py:91-95 | half step: CCW is (s+1)%8 and CW is (s-1) mod 8; on 0..7 each is undone by the other |
| StepperMotor.ParkedRoundTrip | stepper.py:81-95 | from the parked phase 8, a step and its reverse land on phase 0, never back on 8 |
| StepperMotor.Step | stepper.py:129-136 | n <= 0 changes nothing; n > 0 raises exactly on a bad direction; it never touches the cache and lands on the phase n signed table positions on |
| StepperMotor.StepLoop | stepper.py:129-136 | the iterative loop meets the same promise: same error cases, cache and pins kept, landing phase n positions on |
| StepperMotor.StepClosedForms | stepper.py:129-136 | half step: n steps CCW end at (s+n)%8 and n steps CW at (s-n) mod 8; full step always ends in {0,2,4,6} |
| StepperMotor.StepThereAndBack | stepper.py:129-136 | n steps one way then n steps back return to the starting rotational phase (even in full-step mode) |
| StateFiles.CreateStateFileIfNeeded | stepper.py:97-103 | an existing file leaves the directory untouched; an absent one is added holding "-1" and nothing else changes |
| StateFiles.CreatedUncalibrated | stepper.py:97-103 | a file created because it was absent reads back as -1, the "uncalibrated" phase |
| StateFiles.StoreState | stepper.py:105-108 | a store leaves the directory as it was except the face's file, which holds `str()` of the current phase, whether or not it existed before |
| StateFiles.StoreReadsBack | stepper.py:105-120 | after a store, the face's file reads back as the phase stored |
| StateFiles.LoadState | stepper.py:110-127 | a missing file and non-integer text raise; an integer outside 0..7 leaves the stepper unchanged; otherwise the phase becomes that integer; the cache is never touched |
| StateFiles.StoreThenLoad | stepper.py:105-127 | storing any phase 0..7 and loading it into any stepper reproduces that phase, with the loading stepper's cache kept |
| StateFiles.StoreParkedThenLoad | stepper.py:105-127 | storing the parked phase writes 8, which a later load ignores |
| StateFiles.LoadOutOfRangeIgnored | stepper.py:117-123 | a file corrupted to "99" is ignored rather than raised |
| StateFiles.LoadSentinelIgnored | stepper.py:117-123 | a file still holding "-1" leaves the stepper as it was |
| Decimal.FormatNat | stepper.py:108 | `str()` of a natural number is a non-empty digit string with no leading zero whose value is the number |
| Decimal.ParseFormatRoundTrip | stepper.py:105-120 | `int(str(n)) == n` for every integer n, which covers every phase and the sentinel -1 that `store_state` and `create_state_file_if_needed` write |
| Decimal.ParseSentinel | stepper.py:103 | the sentinel text "-1" reads back as -1 |
| Decimal.ParseNinetyNine | stepper.py:118 | the text "99" reads back as 99 |
| Decimal.ParseGroup | stepper.py:117-118 | text that strips to a digit group parses as the value of those digits |
| Decimal.ParseNonGroup | stepper.py:117-120 | text that strips to something neither signed nor a digit group is rejected |
| Decimal.ParseSurroundingSpace | stepper.py:117-118 | a digit surrounded by whitespace parses as that digit, since `int()` strips space, tab, line feed, vertical tab, form feed and carriage return |
| Decimal.ParseRejectsFileSeparator | stepper.py:117-120 | "\x1c5 " is not an integer: `int()` does not strip the separators 0x1C..0x1F |
| Decimal.ParseUnderscore | stepper.py:117-118 | "1_0" parses as 10, as `int()` accepts single underscores between digits |
| Decimal.ParseRejectsEmpty | stepper.py:117-120 | an empty file is not an integer |
| Decimal.ParseRejectsDecimalPoint | stepper.py:117-120 | "5.0" is not an integer |
| Decimal.ParseRejectsDoubleUnderscore | stepper.py:117-120 | "1__0" is not an integer |
| Solver.PinsDistinct | solver.py:19-55 | two entries of the pin table are the same pin exactly when they are the same colour and pin name |
| Solver.StepperPinsDisjoint | solver.py:19-55 | each colour's stepper drives four pins of its own, disjoint from every other colour's |
| Solver.NewCubePinsDisjoint | solver.py:67-73 | in a new cube no two windings share a pin |
| Solver.IdsTable | solver.py:75-82 | `ids` pairs each of the six letters with exactly one colour attribute, no letter is a colour name, and the iteration order lists each letter once |
| Solver.IdsInjective | solver.py:75-82 | two letters of `ids` name the same colour exactly when they are the same letter |
| Solver.StepperFor | solver.py:68-73 | the stepper built for a colour drives that colour's `GPIOs` pins in key order (A1N1, A1N2 to winding A, B1N1, B1N2 to winding B) and starts parked with nothing cached |
| Solver.ResolveAttrName | solver.py:86-88 | a colour name resolves to itself, so `__init__` stores each stepper under its colour |
| Solver.NewCube | solver.py:67-73 | the constructor stores each colour's stepper under its colour name and sets no other attribute, every letter resolves to a present attribute, and every stepper starts parked and uncached |
| Solver.SetAttr | solver.py:86-88 | a set stores the value under the resolved name (a letter's colour, any other name itself) and changes no other attribute |
| Solver.GetAttr | solver.py:75-94 | a get returns the stepper stored under the name, or else under the colour a letter resolves to; "ids" without an instance attribute of that name returns the class's `ids` table; any other missing name raises AttributeError |
| Solver.AliasResolution | solver.py:84-94 | writing through a letter is writing through its colour; each reads what the other wrote; both read the same stepper |
| Solver.AliasPassThrough | solver.py:86-94 | a name outside `ids` is an ordinary attribute, stored and read under itself |
| Solver.WiredSlot | solver.py:90-94 | on a constructed cube every letter reaches its colour's stepper |
| Solver.OppositeDirection | solver.py:96-107 | swaps CW/CCW and cw/ccw and raises on anything else; the result is always a different token of the same case |
| Solver.OppositeInvolution | solver.py:96-107 | the opposite of the opposite is the original token, for all four tokens |
| Solver.OppositeReverses | solver.py:96-107 | stepping n times in the opposite direction moves the same distance back |
| Solver.StepCounts | solver.py:115-138 | the compensation is positive and strictly smaller than the primary rotation; net quarter turn 100 half or 50 full steps, net half turn 200 or 101 |
| Solver.TurnArmed | solver.py:121-125 | primary rotation, opposite compensation, then disarm: the stepper ends parked and caches the phase net steps on; a bad direction raises |
| Solver.Rotate | solver.py:109-143 | an id outside `ids` raises before any stepper is armed; on success only the target changes, parked, with its cache equal to its final phase; a bad direction leaves the target armed |
| Solver.Rot90 | solver.py:109-125 | a successful quarter turn caches the phase 100 half steps or 50 full steps from the armed phase |
| Solver.Rot180 | solver.py:127-143 | a successful half turn caches the phase 200 half steps or 101 full steps from the armed phase |
| Solver.HalfStepTurnPhases | solver.py:115-142 | in half-step mode a quarter turn ends 4 phases on and a half turn ends on the armed phase |
| Solver.ParseMove | solver.py:151-165 | length 0 or over 2 raises; one character is a CW quarter turn; "2" is a CW half turn; "1" is a CW quarter turn; "'" or "3" is a CCW quarter turn; any other modifier raises |
| Solver.ParseNotation | solver.py:151-165 | every command the grammar expresses is read back from its canonical token |
| Solver.ModifierAliases | solver.py:160-163 | "X1" means "X" and "X3" means "X'" |
| Solver.Move | solver.py:145-167 | no error path changes the cube (no stepper is armed); success is exactly a well-formed token on a known face, after which only that face changes, it ends parked, and it has turned by the net steps of the turn and direction the token parses to |
| Solver.ModifierTurns | solver.py:155-163 | the modifier selects the signed net steps: "2" a clockwise half turn, "'" and "3" a counter-clockwise quarter turn, none or "1" a clockwise quarter turn |
| Solver.MoveTurns | solver.py:155-163 | after a successful move, "X2" has turned the face a clockwise half turn, "X'" and "X3" a counter-clockwise quarter turn, and "X" and "X1" a clockwise quarter turn |
| Jog.UpperDirections | solver.py:183 | upper-casing "cw" and "ccw" gives "CW" and "CCW" |
| Jog.StepperDirection | solver.py:183 | `direction.upper()` is a valid stepper direction: "ccw" advances the phase one position per step and "cw" retreats it |
| Jog.Reversed | solver.py:196-200 | "r" toggles between "cw" and "ccw", reversing the sense of a step, and gives what `_opposite_direction` gives |
| Jog.ActionOf | solver.py:182-203 | "" steps, "cw" and "ccw" set the direction, "r" reverses, and only these inputs do so; anything else is ignored |
| Jog.React | solver.py:182-203 | one input other than "ok": only "" moves the face, by one position in the current direction; the cache and the pins are never touched; the direction becomes the one the input names |
| Jog.Compensate | solver.py:187-194 | "ok" steps 1 (half step) or 3 (full step) positions against the current direction, keeping cache and pins |
| Jog.JogLoop | solver.py:180-203 | the loop never touches the cache or the pins, consumes a prefix of the input, and is unfinished only when input ran out |
| Jog.Count | solver.py:180-203 | a stepper-free reading of the inputs up to "ok": the signed steps taken, the final direction, and the step count |
| Jog.JogLoopDirection | solver.py:180-203 | the loop ends with the direction the count computes |
| Jog.JogLoopMatchesCount | solver.py:180-203 | the loop's final phase is the start displaced by the counted signed steps, and unchanged when none were taken |
| Jog.DoneMeansStepped | solver.py:180-194 | once "ok" was seen, at least the compensation step was taken |
| Jog.JogFace | solver.py:178-203 | the first input is only checked for "ok": an immediate "ok" skips the loop and its compensation, any other first input is discarded |
| Jog.JogLoopConsumes | solver.py:179-194 | the loop ends exactly at the first "ok" and leaves the inputs after it unread; with no "ok" it runs out of input |
| Jog.JogFaceMatchesCount | solver.py:178-203 | one face ends in the direction the stepper-free count gives, on the phase its start reaches by the counted steps (unchanged after an immediate "ok"), and hands on exactly the inputs after its "ok" |
| Jog.JogOrderFollowsIds | solver.py:176 | the order in which faces are jogged is the letter order of `Cube.ids`, each colour once |
| Jog.JogFaceSlot | solver.py:178 | `getattr(cube, id)` reaches the stepper stored under the letter's colour |
| Jog.JogOneFace | solver.py:176-206 | only the face's own attribute and file change; its pins are kept; after "ok" it is disarmed and its file holds its cached phase; without "ok" no file changes |
| Jog.JogOneFaceCounted | solver.py:176-206 | the phase a face caches on disarm, and so stores, is the one its start reaches by the count of its inputs; the direction and the unread inputs handed to the next face are the counted ones |
| Jog.CalibratedReadsBack | solver.py:204-205 | a calibrated face's file reads back as the phase it cached on disarm |
| Jog.JogFaces | solver.py:176-209 | no attribute is added or removed, and running out of input is the only error |
| Jog.JogFacesStoresCounted | solver.py:172-206 | on a complete run, face i stores the phase its start reaches by `Tallies` entry i: a stepper-free reading in which every face starts in the direction and on the inputs the face before it left |
| Jog.JogFacesKeepsWiring | solver.py:176-206 | jogging rewires no stepper |
| Jog.JogFacesFrame | solver.py:176-206 | the stepper and the file of every face not listed, and every other attribute and file, are left alone |
| Jog.JogFacesCalibrates | solver.py:176-206 | when input does not run out, every face listed once ends disarmed with its file holding its cached phase, later faces leaving it alone |
| Jog.AllFacesCalibrated | solver.py:176-206 | a complete pass over `Cube.ids` calibrates all six colours |
| Jog.AllFacesStoreCounted | solver.py:170-206 | a complete pass over `Cube.ids`, starting in "cw", stores for every colour the phase its inputs reach |
| Jog.RunJog | solver.py:170-209 | `jog` keeps the cube constructed and every stepper's pins, and either runs out of input or leaves all six faces disarmed, each caching and storing the phase its start reaches by its share of the inputs, the first face starting in "cw" and each later one in the direction the one before left |
| Jog.NeedsJog | solver.py:212-229 | the scan finds a reason to jog exactly when forced or some remaining face's file is missing or holds "-1" |
| Jog.NeedsJogAllFaces | solver.py:212-229 | over all six faces, the scan is forced or some colour's file is missing or holds "-1" |
| Jog.JogIfNeeded | solver.py:212-233 | `jog` runs once exactly when forced or some face's file is missing or holds "-1"; otherwise nothing changes |
| FaceGrid.RotCcw | cube.py:97-99 | one `np.rot90` turn: cell (i, j) of the result is cell (j, 2-i) of the input |
| FaceGrid.RotCcwFour | cube.py:97-99 | four counter-clockwise quarter turns are the identity |
| FaceGrid.RotCcwNAdd | cube.py:97-99 | counter-clockwise turns add up |
| FaceGrid.RotCcwNFullTurns | cube.py:97-99 | any whole number of full turns is the identity |
| FaceGrid.RotCw | cube.py:96-97 | the clockwise quarter turn: cell (i, j) of the result is cell (2-j, i) of the input |
| FaceGrid.Rotate90 | cube.py:86-100 | raises unless "CW" or "CCW"; k % 4 == 0 leaves the face unchanged; CCW by k is k counter-clockwise turns |
| FaceGrid.RotateCwMatchesIndexMap | cube.py:96-97 | one CW quarter turn (three `np.rot90` turns) is the clockwise index map |
| FaceGrid.RotateCwTurns | cube.py:94-97 | CW by k is the counter-clockwise rotation by 3k, for every k |
| FaceGrid.RotateInverse | cube.py:86-99 | CW by k then CCW by k restores the face, and so does CCW then CW |
| FaceGrid.FourQuarterTurns | cube.py:86-99 | four CW quarter turns are the identity |
| FaceGrid.Column | cube.py:72 | the column read top to bottom |
| FaceGrid.NumpyIndex | cube.py:42 | an index -3..2 reaches row or column index or index+3 |
| FaceGrid.SetRow | cube.py:34-42 | rejects a value of length other than 3, then an index above 2; on success only that row changes, and it holds the value |
| FaceGrid.SetColumn | cube.py:44-52 | the same checks; on success only that column changes, and it holds the value top to bottom |
| FaceGrid.SetRowAsWritten | cube.py:34-42 | as written, every call fails: well-formed ones raise at the element-wise equality test |
| FaceGrid.SetColumnAsWritten | cube.py:44-52 | as written, every call fails: well-formed ones raise at the element-wise equality test |
| FaceGrid.SetRowAsWrittenRaises | cube.py:40 | writing a red top row on a white face raises as written, while the corrected setter writes it |
| FaceGrid.EdgeAccessors | cube.py:54-84 | top/bottom rows and left/right columns read rows 0 and 2 and columns 0 and 2, each reads what its setter wrote, the opposite edge is unchanged, and wrong lengths are refused |
| FaceGrid.NegativeRowIndex | cube.py:37-42 | a negative index is not refused: -1 writes the bottom row |

## Left out

- GPIO calls (`GPIO.setup`, `GPIO.output`, `GPIO.cleanup`): only the `energized` field each write leaves behind is modelled. Hardware write failures are not modelled.
- `sleep` and every `sleep_time` argument: they only affect timing.
- `logger.py` and every `log(...)` call, plus the `print` of the jog instructions: diagnostics only. The out-of-range warning of `load_state` is therefore a silent no-op.
- `main`, argument parsing, `cleanup`, `atexit`, and the `KeyboardInterrupt` handling in `jog`: orchestration and process lifecycle.
- The external solver, `cubelib.scramble`, and the facelet-string construction in `main`: foreign library calls.
- The `__main__` demo block of `stepper.py`.
- Real file I/O: the `states/` directory is a map from file name to content, so creating the directory is implicit.
- `int()` on text holding any non-ASCII character: CPython first maps the Unicode digits and Unicode whitespace at or above code point 127 to ASCII. `Decimal.ParseInt` covers base-10 ASCII text only.
- Decimal.ParseInt: has no digit limit. CPython 3.11 and later (and patched 3.7–3.10) raise ValueError from `int()` on more than 4300 digits, so a state file of 4301 digits makes `load_state` raise where `StateFiles.LoadState` reads an out-of-range number and ignores it. The files the program writes hold one or two characters.
- Decimal.ParseFormatRoundTrip: holds for integers of any length. In CPython 3.11 and later the round trip holds up to 4300 digits, past which `str()` and `int()` raise.
- Solver.GetAttr: `Cube.attrs` holds the instance attributes only. Class attributes other than `ids` (the methods) are not modelled, and neither is object identity: two names reaching one stepper object are two map entries. An instance attribute named "ids" would also change what `self.ids` resolves inside `__getattr__`/`__setattr__`; the model keeps resolving through the class table.
- Solver.OppositeDirection: the source compares with `is` (object identity), which may fail for equal strings built at run time such as `input()` results. The model reads these tests as string equality.
- Jog.Compensate: in CPython, once the operator has typed "cw" or "ccw" (and not "r" after it), `direction` is an `input()` string, so `_opposite_direction` finds no identical literal and "ok" raises ValueError. The model takes the compensation steps instead.
- `input()` is the sequence of input strings. Its end is the `EndOfInput` error; in the source it raises EOFError.
- The `Face()` zeros default, the `Face` constructor's type check, `self.center`, `CubeVals` RGB values, and the empty `Cube` class of `cube.py`. A `Face` always holds a 3×3 grid of colours here.
- The "unchanged row" warning in `_set_row`/`_set_column` is left out of `FaceGrid.SetRow` and `FaceGrid.SetColumn`. As written, the element-wise test raises instead of warning (see Findings).

## Findings

| source | as written | input that shows it | evidently intended | confidence | as-written member | corrected member |
|---|---|---|---|---|---|---|
| cube.py:40 | `if ndarray == self.values[row]` compares two 3-element arrays element-wise, and `if` on a 3-element boolean array raises ValueError, so `_set_row` (and `_set_column` at cube.py:50) never writes | `top_row = [RED, RED, RED]` on an all-white face | log a warning when the row is unchanged, then write it | high, not executed | FaceGrid.SetRowAsWrittenRaises | FaceGrid.SetRow |
