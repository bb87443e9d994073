/** The exceptions the stepper driver, the move interpreter and the face grid raise. */
module Errors {

  datatype Error =
    /** `Winding.energize` got a polarity other than 1, -1 or 0 (ValueError). */
    | BadPolarity(polarity: int)
    /** A direction token outside the accepted ones (ValueError). */
    | BadDirection(direction: string)
    /** The state setter looked up a phase missing from the inverted table (KeyError). */
    | UnknownPhase(phase: int)
    /** `load_state` found no state file (FileNotFoundError). */
    | MissingStateFile(name: string)
    /** `load_state` read content that `int()` rejects (ValueError). */
    | NotAnInteger(text: string)
    /** `rot90`/`rot180` got a face id outside the id table (ValueError). */
    | UnrecognizedId(id: string)
    /** Attribute lookup on the cube failed (AttributeError). */
    | NoSuchAttribute(name: string)
    /** A move token longer than two characters (ValueError). */
    | MoveTooLong(move: string)
    /** An empty move token (ValueError). */
    | EmptyMove
    /** A two-character move whose second character is no known modifier (ValueError). */
    | UnrecognizedModifier(modifier: char)
    /** A row or column value whose shape is not (3,) (ValueError). */
    | BadShape(length: int)
    /** A row or column index above 2 (ValueError). */
    | IndexAboveRange(index: int)
    /** A negative row or column index below -3 (numpy IndexError). */
    | IndexBelowRange(index: int)
    /** `if` applied to an element-wise array comparison of more than one element (ValueError). */
    | AmbiguousTruth
    /** `input()` reached the end of its stream (EOFError). */
    | EndOfInput
}
