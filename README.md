# Synthetic trace generator, modelled in Dafny

`generator.py` produces synthetic event traces for testing temporal-pattern
mining. If the user names a temporal pattern (Response, Alternating,
Multieffect, Multicause), that name is turned into a regular expression over
a cause symbol `a` and an effect symbol `b`. Otherwise the user supplies a
regular expression of their own. The program then works in four steps:

1. It draws random strings matching the expression and concatenates them
   until the trace holds at least the required number of events.
2. It draws one random delay per event.
3. It turns the delays into increasing timestamp offsets by a running sum.
4. It pairs offsets and events row by row into a table.

Before any of this, `main` rejects a run that has neither a regular
expression nor a pattern name, or whose pattern name is non-empty and not a
key of the table (an empty name gets through; see ## Findings).

The model has these modules:

- `Wrappers` (`wrappers.dfy`): the `Option` and `Result` types.
- `StrFormat` (`strformat.dfy`): `Format` covers the part of Python's
  `str.format` used by the pattern table: the fields `{0}` and `{1}`, and the
  escapes `{{` and `}}`. The file also holds the lemma that formatting a
  template made of brace-free text and fields fills in exactly those fields.
- `Patterns` (`patterns.dfy`):
  - the table `PatternRegexDic`, with the same four literal templates as
    the source;
  - an independent description, `Grammar`, of each pattern's regular
    expression: a leading gap, then rounds of cause, gap, effect, gap, where
    each gap avoids given symbols;
  - the proof that formatting each table entry with any two symbols yields
    that pattern's grammar over those symbols.
- `RunningSum` (`accumulate.dfy`): `itertools.accumulate` with `add`, stated
  against a reference `Sum`, with the step, bound and strict-increase
  properties for deltas of at least 1.
- `Generator` (`generator.dfy`):
  - the clamping of the alphabet and trace lengths;
  - the resolution of the regular expression, including the `KeyError`
    raised for an unknown name;
  - the class `SyntheticTraceGenerator`, whose methods are:
    - the constructor;
    - the accumulation loop `DrawTrace`;
    - `GetTrace`, which draws the deltas, sums them into offsets and builds
      the frame;
    - `Generate`.
  - the positional zip of offsets and events into rows (`Frame`).
- `CommandLine` (`cli.dfy`): the two checks in `main` as written, the
  corrected checks, and `Run`, the body of `main` after argument parsing.

The two random sources are parameters:

- `xeger(pattern, k)` is the `k`-th string drawn for `pattern`. The model
  requires every draw to be non-empty.
- `randint(k)` is the `k`-th delay drawn. It lies in `[1, max(1, w)]`.

The clamped `alphabetLen` (generator.py:24) is stored and never read again.
`rstr.xeger` receives only the expression, so nothing in the model depends on
it.

## Model

| member | source | states |
|---|---|---|
| StrFormat.Format | generator.py:28 | `str.format` with two positional arguments: its contract states that text without braces is returned unchanged. That a stray brace or any field other than `{0}`/`{1}` fails is the body's behaviour, not a clause of the contract. |
| StrFormat.FormatRender | generator.py:28 | A template made of brace-free text and the fields `{0}`, `{1}` formats successfully. The result is that template with the two arguments put in place of the fields, and nothing else changes. |
| StrFormat.FormatTextPrefix | generator.py:28 | Brace-free text at the front of a template is copied unchanged to the front of the result. |
| StrFormat.ExpandJoin | generator.py:28 | Filling in the fields of two joined template pieces gives the two filled-in texts concatenated. |
| Patterns.PatternOf | generator.py:12-17 | A name denotes a pattern exactly when it is a key of the table. The pattern's name is that key, and no other pattern has it. |
| Patterns.ExpandParts | generator.py:12-17 | Each template's pieces are brace-free text and fields. Filling them with symbols `x`, `y` gives the pattern's independently described grammar over `x`, `y`. |
| Patterns.SpellParts | generator.py:12-17 | Filling the pieces with the field names themselves spells the literal table entry. |
| Patterns.TemplateFormats | generator.py:12-28 | For every pair of symbols and every pattern, the pattern's name is a key, and formatting its table entry succeeds and yields the pattern's grammar over those symbols. |
| Patterns.ResponseOverAB | generator.py:13 | The Response grammar over `a`, `b` is `[^a]*(a[^b]*b[^a]*)*`. |
| Patterns.AlternatingOverAB | generator.py:14 | The Alternating grammar over `a`, `b` is `[^ab]*(a[^ab]*b[^ab]*)*`. |
| Patterns.MultieffectOverAB | generator.py:15 | The Multieffect grammar over `a`, `b` is `[^ab]*(a[^ab]*b[^a]*)*`. |
| Patterns.MulticauseOverAB | generator.py:16 | The Multicause grammar over `a`, `b` is `[^ab]*(a[^b]*b[^ab]*)*`. |
| RunningSum.Accumulate | generator.py:78 | `list(accumulate(d, add))` has one total per element, and the first total is the first element; the remaining totals are stated by the lemmas below. |
| RunningSum.AccumulateFrom | generator.py:78 | The totals from a running total onward: one more than the remaining elements, starting with the current total. |
| RunningSum.AccumulateSteps | generator.py:78 | `accumulate` yields one total per delta. The first total is the first delta, and each later total is the previous total plus the next delta. |
| RunningSum.AccumulateIsPrefixSum | generator.py:78 | The `i`-th total is the sum of the first `i + 1` deltas. |
| RunningSum.AccumulateBounds | generator.py:76-78 | With every delta in `[1, hi]`, the `i`-th offset lies in `[i + 1, (i + 1) * hi]`. |
| RunningSum.AccumulateGap | generator.py:76-78 | With every delta at least 1, offsets `j - i` places apart differ by at least `j - i`. |
| RunningSum.AccumulateStrictlyIncreasing | generator.py:76-78 | With every delta at least 1, the offsets strictly increase. |
| Generator.ClampAlphabetLen | generator.py:24 | The alphabet length lies in `[2, 26]`. A value already in range is kept. Below 2 gives 2 (so the default 0 becomes 2), and above 26 gives 26. |
| Generator.ClampTraceLength | generator.py:25 | The trace length is at least 1000 and at least the input, and it is one of the two. |
| Generator.ResolveRegex | generator.py:22-28 | With no pattern name, the regular expression is the user's, unchanged. With a key, it is that pattern's grammar over `a`, `b`, whatever the user's expression was. Any other name raises `KeyError` with that name. |
| Generator.ResolvedGrammars | generator.py:12-28 | Each of the four names resolves to its literal grammar over `a` and `b`. |
| Generator.Frame | generator.py:53-54 | The zipped frame has as many rows as the longer of its two columns. |
| Generator.FrameUnzips | generator.py:53-54 | Reading the timestamp column and the event column back out of the frame gives exactly the offsets and the events, in order. |
| Generator.Drawn | generator.py:72-74 | The text after `n` draws: empty for none, and otherwise ending with the `n`-th draw, whole. |
| Generator.DrawnPrefix | generator.py:72-74 | Later draws extend earlier ones: the text drawn so far is never truncated or reordered. |
| Generator.FirstToReachUnique | generator.py:72-74 | At most one number of draws is the first to reach the length floor, so the loop's trace is determined by the draws. |
| Generator.EmptyDrawsNeverReach | generator.py:72-74 | When every draw is empty, no number of draws brings the trace to a positive length floor, so the loop never ends. |
| Generator.Deltas | generator.py:76-77 | The deltas drawn for `n` events: exactly `n` of them, the `k`-th being the `k`-th `randint` draw. |
| Generator.TraceFrame | generator.py:53-78 | Offsets summed from one in-bound delta per event, zipped with the events, give one row per event. Each row holds its event and an offset in `[i + 1, (i + 1) * max(1, w)]`, and the offsets strictly increase. |
| Generator.SyntheticTraceGenerator.constructor | generator.py:21-28 | The alphabet length and trace length are clamped, the pattern name is kept, and the regular expression is the resolved one. |
| Generator.Create | generator.py:21-28 | Construction fails with the resolution error exactly when resolution raises. Otherwise the fields are as the constructor sets them. |
| Generator.SyntheticTraceGenerator.DrawTrace | generator.py:72-74 | The loop ends with at least `traceLength` (so at least 1000) characters. The trace is the in-order concatenation of all the draws, none truncated, and the number of draws is the first that reaches `traceLength`: before the last draw it was still shorter. |
| Generator.SyntheticTraceGenerator.GetTrace | generator.py:60-83 | The trace is as `DrawTrace` promises. The deltas are exactly the first `randint` draws, one per event, each in `[1, max(1, w)]`. The offsets are their running sums, and the frame zips offsets and events into a trace frame. |
| Generator.SyntheticTraceGenerator.Generate | generator.py:98-102 | The trace is the draws from the stored regular expression up to the first that reaches `traceLength`. The frame zips the running sums of one `randint` draw per event with the events, and is a trace frame for variability 5. |
| CommandLine.CheckArgs | generator.py:125-131 | The checks as written: rejected for no input exactly when both inputs are missing. Rejected as invalid exactly when the name is non-empty and not a key. |
| CommandLine.CheckArgsFixed | generator.py:125-131 | The corrected checks: any name that is not a key, the empty one included, is rejected as invalid. |
| CommandLine.EmptyNamePassesButRaises | generator.py:129 | The empty name passes the checks as written, and resolving it, as the constructor does at line 28, raises `KeyError`. |
| CommandLine.CheckArgsDiffersOnlyOnEmptyName | generator.py:125-131 | The checks as written accept exactly what the corrected checks accept, plus the empty name. |
| CommandLine.CheckArgsFixedResolves | generator.py:125-131 | The corrected checks pass exactly when resolution succeeds with some regular expression. |
| CommandLine.CheckArgsResolvesNonEmpty | generator.py:129 | For any accepted name other than the empty one, the checks as written guarantee that the lookup at construction (line 28) succeeds. |
| CommandLine.Run | generator.py:125-134 | A run is rejected exactly when the corrected checks reject it, with their reason. Otherwise resolution yields a regular expression, and the frame is built from the draws of that expression up to the first that reaches the clamped trace length, zipped with the running sums of one delta per event: a trace frame with at least that many rows. |

## Left out

- `__getTime` (generator.py:30-42) is left out because it reads the wall clock. The model stops at the integer offsets, so frame rows hold offsets rather than datetimes.
- The `pd.to_datetime`/`strftime` formatting (generator.py:55-56) is left out because it depends on the clock and the locale.
- `save` (generator.py:85-96) is left out because it is file I/O: CSV export, logging and `sys.exit(1)`.
- The logging set-up, `argparse` and the exits in `main` (generator.py:106-123, 126-127, 130-131) are left out as command-line plumbing. A rejection is returned as an `Err`, and the exit status 0 it produces is not modelled.
- The pandas frame is reduced to the positional zip (generator.py:53-54), with a missing cell wherever a column runs short. The column names and pandas' type conversions are not modelled.
- `rstr.xeger` is a foreign library. It is the parameter `xeger`, and the model does not state that the drawn strings match the expression.
- `random.randint` is nondeterministic. It is the parameter `randint`, with the bound `[1, max(1, w)]` as a precondition.
- The values of `alphabetLen` do not reach the generation code in the source, so they do not reach it in the model either.
- Generator.SyntheticTraceGenerator.DrawTrace: requires every draw to be non-empty. The source loop also terminates when only some draws are empty, as long as non-empty ones keep coming, and the pattern grammars can match the empty string. That case is outside the model. If every draw is empty, for example for `--regex ""` or `--regex "x{0}"`, the source loop never ends (`EmptyDrawsNeverReach`); `Run` requires non-empty draws and so excludes this input.
- Generator.SyntheticTraceGenerator.Generate: requires a stored regular expression. In the source, a generator built with neither input passes `None` to `rstr.xeger`, and that failure belongs to the foreign library. `main` never builds such a generator.
- StrFormat.Format: covers only the `{0}`, `{1}`, `{{` and `}}` forms and fails on everything else. With the two arguments `"a"`, `"b"` Python also fails on a stray brace, a named field such as `{x}` or an index above 1, but it accepts automatic numbering `{}`, indexed fields such as `{0[0]}`, conversions such as `{0!r}` and format specifications such as `{0:>3}`, which the model refuses. The table uses only `{0}` and `{1}`.
- CommandLine.Run: models `main` with the corrected checks. On `--temporalPattern ""`, `main` as written passes line 129, builds the generator at line 133 and raises `KeyError` at line 28, whereas `Run` returns `Err(InvalidPattern)`; the as-written behaviour is stated by `CommandLine.EmptyNamePassesButRaises`.
- Generator.ResolveRegex: the `FormatError` case is kept to mirror `str.format` raising, but `Patterns.TemplateFormats` shows it never happens for a key of the table.

## Findings

| source | as written | input that shows it | evidently intended | confidence | as-written member | corrected member |
|---|---|---|---|---|---|---|
| generator.py:129 | `main` tests the pattern name for truth before checking it is a key, so the empty name passes; the constructor's lookup at generator.py:28 then raises `KeyError` | `--temporalPattern ""` | every name that is not a key, the empty one included, is rejected with "temporalPattern must be valid" | not executed | CommandLine.EmptyNamePassesButRaises | CommandLine.CheckArgsFixedResolves |
