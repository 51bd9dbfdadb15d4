/**
  The synthetic trace generator: clamping of the parameters, resolution of
  the regular expression, the loop that draws the trace, the timestamp
  offsets, and the frame that pairs them with the events.
 */
module Generator {
  import opened Wrappers
  import opened StrFormat
  import opened Patterns
  import opened RunningSum

  function Max(a: int, b: int): int {
    if a >= b then a else b
  }

  function Min(a: int, b: int): int {
    if a <= b then a else b
  }

  /** `max(2, min(26, n))`: the alphabet length, kept within `[2, 26]`. */
  function ClampAlphabetLen(n: int): (r: int)
    ensures 2 <= r <= 26
    ensures 2 <= n <= 26 ==> r == n
    ensures n < 2 ==> r == 2
    ensures n > 26 ==> r == 26
  {
    Max(2, Min(26, n))
  }

  /** `max(1000, n)`: the trace length, never below 1000. */
  function ClampTraceLength(n: int): (r: int)
    ensures r >= 1000 && r >= n
    ensures r == n || r == 1000
  {
    Max(1000, n)
  }

  /** Why resolving the regular expression raises. */
  datatype Error =
    | KeyError(key: string)  // the pattern name is not a key of the table
    | FormatError            // the template is not a valid `str.format` template

  /**
    The value the constructor leaves in `regexPattern`: the given regular
    expression when no pattern name is given; otherwise the named template
    with the cause `a` and the effect `b` filled in, whatever the regular
    expression was. A name that is not a key raises `KeyError`.
   */
  function ResolveRegex(regex: Option<string>, temporalPattern: Option<string>): (r: Result<Option<string>, Error>)
    ensures temporalPattern.None? ==> r == Ok(regex)
    ensures temporalPattern.Some? && temporalPattern.value !in PatternRegexDic ==> r == Err(KeyError(temporalPattern.value))
    ensures forall p :: temporalPattern == Some(Name(p)) ==> r == Ok(Some(Grammar(p, "a", "b")))
    ensures temporalPattern.Some? && temporalPattern.value in PatternRegexDic ==> r.Ok? && r.value.Some?
  {
    TemplateFormats("a", "b");
    match temporalPattern
    case None => Ok(regex)
    case Some(name) =>
      if name !in PatternRegexDic then Err(KeyError(name))
      else
        assert PatternOf(name).Some?;
        match Format(PatternRegexDic[name], "a", "b")
        case None => Err(FormatError)
        case Some(grammar) => Ok(Some(grammar))
  }

  /** The four regular expressions a pattern name resolves to. */
  lemma ResolvedGrammars(regex: Option<string>)
    ensures ResolveRegex(regex, Some("Response")) == Ok(Some("[^a]*(a[^b]*b[^a]*)*"))
    ensures ResolveRegex(regex, Some("Alternating")) == Ok(Some("[^ab]*(a[^ab]*b[^ab]*)*"))
    ensures ResolveRegex(regex, Some("Multieffect")) == Ok(Some("[^ab]*(a[^ab]*b[^a]*)*"))
    ensures ResolveRegex(regex, Some("Multicause")) == Ok(Some("[^ab]*(a[^b]*b[^ab]*)*"))
  {
    assert Name(Response) == "Response" && Name(Alternating) == "Alternating";
    assert Name(Multieffect) == "Multieffect" && Name(Multicause) == "Multicause";
    ResponseOverAB();
    AlternatingOverAB();
    MultieffectOverAB();
    MulticauseOverAB();
  }

  /** One row of the generated frame; pandas leaves a cell empty where its column runs out. */
  datatype Row = Row(timestamp: Option<int>, event: Option<char>)

  /**
    `pd.DataFrame([time, trace]).T`: the timestamps and the events side by
    side, row `i` holding the `i`-th of each, as many rows as the longer of
    the two.
   */
  function Frame(time: seq<int>, trace: string): (r: seq<Row>)
    ensures |r| == Max(|time|, |trace|)
  {
    seq(Max(|time|, |trace|), i requires 0 <= i =>
      Row(if i < |time| then Some(time[i]) else None, if i < |trace| then Some(trace[i]) else None))
  }

  function TimestampColumn(frame: seq<Row>): seq<Option<int>> {
    seq(|frame|, i requires 0 <= i < |frame| => frame[i].timestamp)
  }

  function EventColumn(frame: seq<Row>): seq<Option<char>> {
    seq(|frame|, i requires 0 <= i < |frame| => frame[i].event)
  }

  /** The cells of a column that hold a value, in order. */
  function Values<T>(cells: seq<Option<T>>): seq<T> {
    if cells == [] then []
    else Values(cells[..|cells| - 1]) + (match cells[|cells| - 1] case Some(v) => [v] case None => [])
  }

  /** A column holding `s` and then empty cells up to `n` rows. */
  function Padded<T>(s: seq<T>, n: nat): seq<Option<T>> {
    seq(n, i requires 0 <= i => if i < |s| then Some(s[i]) else None)
  }

  lemma {:induction false} PaddedValues<T>(s: seq<T>, n: nat)
    requires |s| <= n
    ensures Values(Padded(s, n)) == s
  {
    if n > 0 {
      var cells := Padded(s, n);
      if n == |s| {
        assert cells[..n - 1] == Padded(s[..n - 1], n - 1);
        PaddedValues(s[..n - 1], n - 1);
        assert s == s[..n - 1] + [s[n - 1]];
      } else {
        assert cells[..n - 1] == Padded(s, n - 1);
        PaddedValues(s, n - 1);
      }
    }
  }

  /** Reading the two columns back out of the frame gives the timestamps and the events. */
  lemma FrameUnzips(time: seq<int>, trace: string)
    ensures Values(TimestampColumn(Frame(time, trace))) == time
    ensures Values(EventColumn(Frame(time, trace))) == trace
  {
    var n := Max(|time|, |trace|);
    assert TimestampColumn(Frame(time, trace)) == Padded(time, n);
    assert EventColumn(Frame(time, trace)) == Padded(trace, n);
    PaddedValues(time, n);
    PaddedValues(trace, n);
  }

  /** The first `n` strings `xeger` draws for `pattern`, joined in order. */
  function Drawn(xeger: (string, nat) -> string, pattern: string, n: nat): (r: string)
    ensures n == 0 ==> r == ""
    ensures n > 0 ==> |xeger(pattern, n - 1)| <= |r| && r[|r| - |xeger(pattern, n - 1)|..] == xeger(pattern, n - 1)
  {
    if n == 0 then "" else
      var before, last := Drawn(xeger, pattern, n - 1), xeger(pattern, n - 1);
      assert (before + last)[|before|..] == last;
      before + last
  }

  /** `n` draws are the first to bring the text drawn to at least `floor` characters. */
  predicate FirstToReach(xeger: (string, nat) -> string, pattern: string, n: nat, floor: int) {
    |Drawn(xeger, pattern, n)| >= floor && forall m :: 0 <= m < n ==> |Drawn(xeger, pattern, m)| < floor
  }

  /** At most one number of draws is the first to reach the floor, so the drawn trace is determined. */
  lemma FirstToReachUnique(xeger: (string, nat) -> string, pattern: string, n1: nat, n2: nat, floor: int)
    requires FirstToReach(xeger, pattern, n1, floor) && FirstToReach(xeger, pattern, n2, floor)
    ensures n1 == n2
  {
  }

  /** When every draw is empty, so is the text drawn, however many draws are made. */
  lemma {:induction false} DrawnAllEmpty(xeger: (string, nat) -> string, pattern: string, n: nat)
    requires forall k: nat :: xeger(pattern, k) == ""
    ensures Drawn(xeger, pattern, n) == ""
  {
    if n > 0 {
      DrawnAllEmpty(xeger, pattern, n - 1);
      var last := xeger(pattern, n - 1);
      assert last == "";
      assert Drawn(xeger, pattern, n) == Drawn(xeger, pattern, n - 1) + last;
    }
  }

  /**
    When every draw is empty (an expression such as `""` or `x{0}` that matches
    only the empty string), no number of draws reaches a positive floor: the
    drawing loop never ends.
   */
  lemma EmptyDrawsNeverReach(xeger: (string, nat) -> string, pattern: string, floor: int)
    requires floor >= 1 && forall k: nat :: xeger(pattern, k) == ""
    ensures forall n: nat :: !FirstToReach(xeger, pattern, n, floor)
  {
    forall n: nat
      ensures !FirstToReach(xeger, pattern, n, floor)
    {
      DrawnAllEmpty(xeger, pattern, n);
    }
  }

  /** `randint(0), ..., randint(n - 1)`: the first `n` deltas drawn. */
  function Deltas(randint: nat -> int, n: nat): (r: seq<int>)
    ensures |r| == n && forall k :: 0 <= k < n ==> r[k] == randint(k)
  {
    seq(n, k requires 0 <= k => randint(k))
  }

  /** Drawing more never changes what was drawn before: earlier draws are a prefix of later ones. */
  lemma {:induction false} DrawnPrefix(xeger: (string, nat) -> string, pattern: string, m: nat, n: nat)
    requires m <= n
    ensures |Drawn(xeger, pattern, m)| <= |Drawn(xeger, pattern, n)|
    ensures Drawn(xeger, pattern, n)[..|Drawn(xeger, pattern, m)|] == Drawn(xeger, pattern, m)
    decreases n - m
  {
    if m < n {
      DrawnPrefix(xeger, pattern, m, n - 1);
      var before := Drawn(xeger, pattern, n - 1);
      assert (before + xeger(pattern, n - 1))[..|before|] == before;
    }
  }

  /**
    A frame of a generated trace: one row per event, in order, each with a
    timestamp; the `i`-th timestamp lies in `[i + 1, (i + 1) * max(1, w)]`,
    and the timestamps strictly increase.
   */
  predicate IsTraceFrame(frame: seq<Row>, trace: string, w: int) {
    && |frame| == |trace|
    && (forall i :: 0 <= i < |frame| ==> frame[i].event == Some(trace[i]) && frame[i].timestamp.Some?)
    && (forall i :: 0 <= i < |frame| ==> i + 1 <= frame[i].timestamp.value <= (i + 1) * Max(1, w))
    && (forall i, j :: 0 <= i < j < |frame| ==> frame[i].timestamp.value < frame[j].timestamp.value)
  }

  /** The offsets of deltas drawn one per event, zipped with the events, form a trace frame. */
  lemma TraceFrame(deltas: seq<int>, trace: string, w: int)
    requires |deltas| == |trace| && DeltasWithin(deltas, Max(1, w))
    ensures IsTraceFrame(Frame(Accumulate(deltas), trace), trace, w)
  {
    var time := Accumulate(deltas);
    AccumulateSteps(deltas);
    AccumulateStrictlyIncreasing(deltas);
    var frame := Frame(time, trace);
    forall i | 0 <= i < |frame|
      ensures i + 1 <= frame[i].timestamp.value <= (i + 1) * Max(1, w)
    {
      AccumulateBounds(deltas, Max(1, w), i);
    }
  }

  class SyntheticTraceGenerator {
    var regexPattern: Option<string>
    var temporalPattern: Option<string>
    var alphabetLen: int
    var traceLength: int

    /** The bounds the constructor establishes. */
    ghost predicate Valid()
      reads this
    {
      2 <= alphabetLen <= 26 && traceLength >= 1000
    }

    /**
      Stores the parameters, clamped, and resolves the regular expression.
      A name that is not a key raises in the source; `Create` models that path.
     */
    constructor (regex: Option<string>, temporalPattern: Option<string>, alphabetLen: int, traceLength: int)
      requires ResolveRegex(regex, temporalPattern).Ok?
      ensures Valid()
      ensures this.regexPattern == ResolveRegex(regex, temporalPattern).value
      ensures this.temporalPattern == temporalPattern
      ensures this.alphabetLen == ClampAlphabetLen(alphabetLen)
      ensures this.traceLength == ClampTraceLength(traceLength)
    {
      this.regexPattern := regex;
      this.temporalPattern := temporalPattern;
      this.alphabetLen := ClampAlphabetLen(alphabetLen);
      this.traceLength := ClampTraceLength(traceLength);
      if temporalPattern.Some? {
        this.regexPattern := Some(Format(PatternRegexDic[temporalPattern.value], "a", "b").value);
      }
    }

    /**
      The accumulation loop: appends whole strings drawn from `pattern` until
      the trace is at least `traceLength` long. `xeger(pattern, k)` is the
      `k`-th string drawn; every draw must be non-empty for the loop to end.
     */
    method DrawTrace(pattern: string, xeger: (string, nat) -> string) returns (trace: string, draws: nat)
      requires Valid()
      requires forall k: nat :: xeger(pattern, k) != []
      ensures trace == Drawn(xeger, pattern, draws)
      ensures FirstToReach(xeger, pattern, draws, traceLength)
      ensures |trace| >= traceLength >= 1000
    {
      trace := "";
      draws := 0;
      while |trace| < traceLength
        invariant trace == Drawn(xeger, pattern, draws)
        invariant forall m :: 0 <= m < draws ==> |Drawn(xeger, pattern, m)| < traceLength
        decreases traceLength - |trace|
      {
        trace := trace + xeger(pattern, draws);
        draws := draws + 1;
      }
    }

    /**
      Draws the trace, one delta per event from `randint(1, max(1, w))`
      (`randint(k)` is the `k`-th delta drawn), the offsets as their running
      sums, and zips offsets and events into a frame.
     */
    method GetTrace(pattern: string, w: int, xeger: (string, nat) -> string, randint: nat -> int)
      returns (frame: seq<Row>, trace: string, draws: nat, deltas: seq<int>, time: seq<int>)
      requires Valid()
      requires forall k: nat :: xeger(pattern, k) != []
      requires forall k: nat :: 1 <= randint(k) <= Max(1, w)
      ensures trace == Drawn(xeger, pattern, draws)
      ensures FirstToReach(xeger, pattern, draws, traceLength)
      ensures |trace| >= traceLength >= 1000
      ensures deltas == Deltas(randint, |trace|)
      ensures DeltasWithin(deltas, Max(1, w))
      ensures time == Accumulate(deltas)
      ensures frame == Frame(time, trace)
      ensures IsTraceFrame(frame, trace, w)
    {
      trace, draws := DrawTrace(pattern, xeger);
      deltas := [];
      deltas := deltas + Deltas(randint, |trace|);
      assert deltas == Deltas(randint, |trace|);
      time := Accumulate(deltas);
      frame := Frame(time, trace);
      TraceFrame(deltas, trace, w);
    }

    /**
      `generate`: the frame of a trace drawn from the resolved regular
      expression, with the default variability 5. Saving it is left out.
     */
    method Generate(xeger: (string, nat) -> string, randint: nat -> int) returns (frame: seq<Row>, trace: string)
      requires Valid() && regexPattern.Some?
      requires forall k: nat :: xeger(regexPattern.value, k) != []
      requires forall k: nat :: 1 <= randint(k) <= 5
      ensures exists n: nat :: trace == Drawn(xeger, regexPattern.value, n) && FirstToReach(xeger, regexPattern.value, n, traceLength)
      ensures |trace| >= traceLength >= 1000
      ensures frame == Frame(Accumulate(Deltas(randint, |trace|)), trace)
      ensures IsTraceFrame(frame, trace, 5)
    {
      var draws, deltas, time;
      frame, trace, draws, deltas, time := GetTrace(regexPattern.value, 5, xeger, randint);
      assert trace == Drawn(xeger, regexPattern.value, draws) && FirstToReach(xeger, regexPattern.value, draws, traceLength);
    }
  }

  /**
    The constructor together with its failure: `Err` exactly when resolving
    the regular expression raises, and otherwise a generator whose fields are
    as the constructor sets them.
   */
  method Create(regex: Option<string>, temporalPattern: Option<string>, alphabetLen: int, traceLength: int)
    returns (r: Result<SyntheticTraceGenerator, Error>)
    ensures ResolveRegex(regex, temporalPattern).Err? ==> r == Err(ResolveRegex(regex, temporalPattern).error)
    ensures ResolveRegex(regex, temporalPattern).Ok? ==> r.Ok?
    ensures r.Ok? ==> r.value.Valid() && r.value.regexPattern == ResolveRegex(regex, temporalPattern).value
    ensures r.Ok? ==> r.value.temporalPattern == temporalPattern
    ensures r.Ok? ==> r.value.alphabetLen == ClampAlphabetLen(alphabetLen) && r.value.traceLength == ClampTraceLength(traceLength)
  {
    match ResolveRegex(regex, temporalPattern)
    case Err(e) =>
      r := Err(e);
    case Ok(_) =>
      var generator := new SyntheticTraceGenerator(regex, temporalPattern, alphabetLen, traceLength);
      r := Ok(generator);
  }
}
