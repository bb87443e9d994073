/**
 * Calibration persistence of a stepper: the `states/` directory is a map from
 * file name to file content, one file per face, holding the phase as decimal text
 * or the sentinel -1 for "uncalibrated".
 */
module StateFiles {
  import opened Wrappers
  import opened Errors
  import opened Decimal
  import opened StepperMotor

  type Files = map<string, string>

  /** What a freshly created state file holds. */
  const UncalibratedText: string := "-1"

  /** `create_state_file_if_needed`: an absent file is created holding the sentinel; a present one is kept. */
  function CreateStateFileIfNeeded(files: Files, name: string): (r: Files)
    ensures name in files ==> r == files
    ensures name !in files ==> r == files[name := UncalibratedText]
  {
    if name in files then files else files[name := UncalibratedText]
  }

  /** A freshly created state file reads back as "uncalibrated". */
  lemma CreatedUncalibrated(files: Files, name: string)
    requires name !in files
    ensures ParseInt(CreateStateFileIfNeeded(files, name)[name]) == Some(NotCached)
  {
    ParseSentinel();
  }

  /**
   * `store_state`: creates the file if needed, then overwrites it with `str()` of
   * the current phase; the creation leaves no trace, and no other file changes.
   */
  function StoreState(s: Stepper, files: Files, name: string): (r: Files)
    ensures r == files[name := FormatInt(State(s))]
  {
    CreateStateFileIfNeeded(files, name)[name := FormatInt(State(s))]
  }

  /** After a store, the face's file reads back as the phase stored. */
  lemma StoreReadsBack(s: Stepper, files: Files, name: string)
    ensures ParseInt(StoreState(s, files, name)[name]) == Some(State(s))
  {
    ParseFormatRoundTrip(State(s));
  }

  /**
   * `load_state`: a missing file and non-integer content raise; an integer outside
   * 0..7 is ignored (only logged) and leaves the stepper as it was; otherwise the
   * windings are energized for that phase. The cached phase is never touched.
   */
  function LoadState(s: Stepper, files: Files, name: string): (r: Result<Stepper, Error>)
    ensures name !in files ==> r == Failure(MissingStateFile(name))
    ensures name in files && ParseInt(files[name]).None? ==> r == Failure(NotAnInteger(files[name]))
    ensures name in files && ParseInt(files[name]).Some? ==> r.Success?
    ensures r.Success? ==> r.value.cachedState == s.cachedState && SameWiring(r.value, s)
    ensures r.Success? && !(0 <= ParseInt(files[name]).value < 8) ==> r.value == s
    ensures r.Success? && 0 <= ParseInt(files[name]).value < 8 ==> State(r.value) == ParseInt(files[name]).value
  {
    if name !in files then Failure(MissingStateFile(name))
    else
      var text := files[name];
      match ParseInt(text)
      case None => Failure(NotAnInteger(text))
      case Some(p) =>
        if !(0 <= p < 8) then Success(s)
        else Success(ApplyPhase(s, p))
  }

  /** Storing a rotational phase and loading it, into any stepper, reproduces that phase. */
  lemma StoreThenLoad(s: Stepper, into: Stepper, files: Files, name: string)
    requires State(s) < 8
    ensures LoadState(into, StoreState(s, files, name), name).Success?
    ensures State(LoadState(into, StoreState(s, files, name), name).value) == State(s)
    ensures LoadState(into, StoreState(s, files, name), name).value.cachedState == into.cachedState
  {
    StoreReadsBack(s, files, name);
  }

  /** Storing the parked phase writes 8, which a later load ignores. */
  lemma StoreParkedThenLoad(s: Stepper, into: Stepper, files: Files, name: string)
    requires State(s) == Parked
    ensures LoadState(into, StoreState(s, files, name), name) == Success(into)
  {
    StoreReadsBack(s, files, name);
  }

  /** An out-of-range integer, such as a file corrupted to 99, is ignored rather than raised. */
  lemma LoadOutOfRangeIgnored(s: Stepper, files: Files, name: string)
    requires name in files && files[name] == "99"
    ensures LoadState(s, files, name) == Success(s)
  {
    ParseNinetyNine();
  }

  /** A file still holding the sentinel is ignored by a load. */
  lemma LoadSentinelIgnored(s: Stepper, files: Files, name: string)
    requires name in files && files[name] == UncalibratedText
    ensures LoadState(s, files, name) == Success(s)
  {
    ParseSentinel();
  }
}
