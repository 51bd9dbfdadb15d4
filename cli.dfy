/**
  The checks `main` makes on its arguments before it builds a generator, and
  the run itself.
 */
module CommandLine {
  import opened Wrappers
  import opened Patterns
  import opened RunningSum
  import opened Generator

  /** Why `main` stops before generating (it logs an error and exits). */
  datatype Rejection =
    | NoInput         // neither a regular expression nor a pattern name
    | InvalidPattern  // a pattern name that is not a key of the table

  /**
    The two checks as written. The second tests the name for truth, and in
    Python the empty string is false, so an empty name is let through.
   */
  function CheckArgs(regex: Option<string>, temporalPattern: Option<string>): (r: Result<(), Rejection>)
    ensures r == Err(NoInput) <==> regex.None? && temporalPattern.None?
    ensures r == Err(InvalidPattern) <==> temporalPattern.Some? && temporalPattern.value != "" && temporalPattern.value !in PatternRegexDic
  {
    if regex.None? && temporalPattern.None? then Err(NoInput)
    else if temporalPattern.Some? && temporalPattern.value != "" && temporalPattern.value !in PatternRegexDic then Err(InvalidPattern)
    else Ok(())
  }

  /** The second check as intended: every name that is not a key is rejected. */
  function CheckArgsFixed(regex: Option<string>, temporalPattern: Option<string>): (r: Result<(), Rejection>)
    ensures r == Err(NoInput) <==> regex.None? && temporalPattern.None?
    ensures r == Err(InvalidPattern) <==> temporalPattern.Some? && temporalPattern.value !in PatternRegexDic
  {
    if regex.None? && temporalPattern.None? then Err(NoInput)
    else if temporalPattern.Some? && temporalPattern.value !in PatternRegexDic then Err(InvalidPattern)
    else Ok(())
  }

  /** The checks as written accept an empty pattern name, on which the constructor raises `KeyError`. */
  lemma EmptyNamePassesButRaises(regex: Option<string>)
    ensures CheckArgs(regex, Some("")) == Ok(())
    ensures ResolveRegex(regex, Some("")) == Err(KeyError(""))
  {
  }

  /** The checks as written and the intended ones differ on the empty name and nowhere else. */
  lemma CheckArgsDiffersOnlyOnEmptyName(regex: Option<string>, temporalPattern: Option<string>)
    ensures CheckArgs(regex, temporalPattern).Ok? <==> CheckArgsFixed(regex, temporalPattern).Ok? || temporalPattern == Some("")
  {
  }

  /**
    The intended checks pass exactly when the constructor resolves a regular
    expression, so a run that passes them never raises and always has a
    regular expression to draw from.
   */
  lemma CheckArgsFixedResolves(regex: Option<string>, temporalPattern: Option<string>)
    ensures CheckArgsFixed(regex, temporalPattern).Ok? <==> ResolveRegex(regex, temporalPattern).Ok? && ResolveRegex(regex, temporalPattern).value.Some?
  {
  }

  /** With a name other than the empty one, the checks as written also guarantee the lookup succeeds. */
  lemma CheckArgsResolvesNonEmpty(regex: Option<string>, temporalPattern: Option<string>)
    requires temporalPattern != Some("")
    ensures CheckArgs(regex, temporalPattern).Ok? ==> ResolveRegex(regex, temporalPattern).Ok? && ResolveRegex(regex, temporalPattern).value.Some?
  {
    CheckArgsDiffersOnlyOnEmptyName(regex, temporalPattern);
    CheckArgsFixedResolves(regex, temporalPattern);
  }

  /**
    `main` after argument parsing: check the arguments, build the generator
    and generate. `xeger` and `randint` stand for the two random sources.
   */
  method Run(regex: Option<string>, temporalPattern: Option<string>, alphabetLen: int, traceLength: int,
             xeger: (string, nat) -> string, randint: nat -> int)
    returns (r: Result<seq<Row>, Rejection>)
    requires forall s: string, k: nat :: xeger(s, k) != []
    requires forall k: nat :: 1 <= randint(k) <= 5
    ensures r.Err? <==> CheckArgsFixed(regex, temporalPattern).Err?
    ensures r.Err? ==> r.error == CheckArgsFixed(regex, temporalPattern).error
    ensures r.Ok? ==> ResolveRegex(regex, temporalPattern).Ok? && ResolveRegex(regex, temporalPattern).value.Some?
    ensures r.Ok? ==> |r.value| >= ClampTraceLength(traceLength)
    ensures r.Ok? ==> exists n: nat ::
      var pattern, trace := ResolveRegex(regex, temporalPattern).value.value, Drawn(xeger, ResolveRegex(regex, temporalPattern).value.value, n);
      && FirstToReach(xeger, pattern, n, ClampTraceLength(traceLength))
      && r.value == Frame(Accumulate(Deltas(randint, |trace|)), trace)
      && IsTraceFrame(r.value, trace, 5)
  {
    match CheckArgsFixed(regex, temporalPattern)
    case Err(why) =>
      r := Err(why);
    case Ok(_) =>
      CheckArgsFixedResolves(regex, temporalPattern);
      var generator := new SyntheticTraceGenerator(regex, temporalPattern, alphabetLen, traceLength);
      var frame, trace := generator.Generate(xeger, randint);
      r := Ok(frame);
      var pattern := ResolveRegex(regex, temporalPattern).value.value;
      var n: nat :| trace == Drawn(xeger, pattern, n) && FirstToReach(xeger, pattern, n, ClampTraceLength(traceLength));
  }
}
