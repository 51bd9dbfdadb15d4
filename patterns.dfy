/**
  The built-in temporal patterns: the table of regular-expression templates
  (generator.py, `PATTERN_REGEX_DIC`) and the grammars they stand for.
 */
module Patterns {
  import opened Wrappers
  import opened StrFormat

  /** Pattern name to template; `{0}` stands for the cause symbol, `{1}` for the effect symbol. */
  const PatternRegexDic: map<string, string> := map[
    "Response" := "[^{0}]*({0}[^{1}]*{1}[^{0}]*)*",
    "Alternating" := "[^{0}{1}]*({0}[^{0}{1}]*{1}[^{0}{1}]*)*",
    "Multieffect" := "[^{0}{1}]*({0}[^{0}{1}]*{1}[^{0}]*)*",
    "Multicause" := "[^{0}{1}]*({0}[^{1}]*{1}[^{0}{1}]*)*"
  ]

  /** The four temporal patterns the table knows. */
  datatype TemporalPattern = Response | Alternating | Multieffect | Multicause

  /** The key under which a pattern is stored in the table. */
  function Name(p: TemporalPattern): string {
    match p
    case Response => "Response"
    case Alternating => "Alternating"
    case Multieffect => "Multieffect"
    case Multicause => "Multicause"
  }

  /** The pattern a name denotes, if the name is a key of the table. */
  function PatternOf(name: string): (r: Option<TemporalPattern>)
    ensures r.Some? <==> name in PatternRegexDic
    ensures r.Some? ==> Name(r.value) == name
    ensures forall p :: Name(p) == name ==> r == Some(p)
  {
    if name == "Response" then Some(Response)
    else if name == "Alternating" then Some(Alternating)
    else if name == "Multieffect" then Some(Multieffect)
    else if name == "Multicause" then Some(Multicause)
    else None
  }

  /** The symbols a gap of a pattern must avoid. */
  datatype Gap = NoCause | NoEffect | Neither

  /** The symbols of a gap, over cause symbol `x` and effect symbol `y`. */
  function Avoided(g: Gap, x: string, y: string): string {
    match g
    case NoCause => x
    case NoEffect => y
    case Neither => x + y
  }

  /**
    The three gaps of a pattern: before the first cause, between a cause and
    its effect, and after the effect.
   */
  function Gaps(p: TemporalPattern): (Gap, Gap, Gap) {
    match p
    case Response => (NoCause, NoEffect, NoCause)
    case Alternating => (Neither, Neither, Neither)
    case Multieffect => (Neither, Neither, NoCause)
    case Multicause => (Neither, NoEffect, Neither)
  }

  /** `[^s]*`: a run, possibly empty, of symbols none of which occurs in `s`. */
  function Except(s: string): string {
    "[^" + s + "]*"
  }

  /**
    The grammar of a pattern over cause symbol `x` and effect symbol `y`,
    written out independently of the template table: a leading gap, then any
    number of rounds of a cause, a gap, the effect and a gap.
   */
  function Grammar(p: TemporalPattern, x: string, y: string): string {
    var (lead, inner, trail) := Gaps(p);
    Except(Avoided(lead, x, y)) + "(" + x + Except(Avoided(inner, x, y)) + y + Except(Avoided(trail, x, y)) + ")*"
  }

  /** The template of a pattern: its entry in the table, under which every pattern is stored. */
  function Template(p: TemporalPattern): string {
    PatternRegexDic[Name(p)]
  }

  /** The fields that stand for the symbols of a gap. */
  function GapFields(g: Gap): TemplateParts {
    match g
    case NoCause => Then(Arg0, NoParts)
    case NoEffect => Then(Arg1, NoParts)
    case Neither => Then(Arg0, Then(Arg1, NoParts))
  }

  /** The pieces of a gap, followed by `tail`. */
  function GapParts(g: Gap, tail: TemplateParts): TemplateParts {
    Then(Text("[^"), Join(GapFields(g), Then(Text("]*"), tail)))
  }

  /** The pieces of a pattern's template: literal text between the fields. */
  function Parts(p: TemporalPattern): TemplateParts {
    var (lead, inner, trail) := Gaps(p);
    GapParts(lead, Then(Text("("), Then(Arg0, GapParts(inner, Then(Arg1, GapParts(trail, Then(Text(")*"), NoParts)))))))
  }

  /** Regrouping a concatenation of four strings. */
  lemma Regroup4(a: string, b: string, c: string, d: string)
    ensures a + (b + (c + d)) == a + b + c + d
  {
    assert b + (c + d) == (b + c) + d;
    assert a + ((b + c) + d) == (a + (b + c)) + d;
  }

  /** Regrouping a concatenation of seven strings. */
  lemma Regroup7(a: string, b: string, c: string, d: string, e: string, f: string, g: string)
    ensures a + (b + (c + (d + (e + (f + g))))) == a + b + c + d + e + f + g
  {
    Regroup4(d, e, f, g);
    Regroup4(a, b, c, d + e + f + g);
    assert a + b + c + (d + e + f + g) == a + b + c + d + e + f + g by {
      Regroup4(a + b + c, d, e, f + g);
      assert (a + b + c) + ((d + e) + f) + g == a + b + c + d + e + f + g;
    }
  }

  lemma GapFieldsExpand(g: Gap, x: string, y: string)
    ensures Expand(GapFields(g), x, y) == Avoided(g, x, y)
  {
    match g
    case NoCause => assert x + [] == x;
    case NoEffect => assert y + [] == y;
    case Neither =>
      assert Expand(Then(Arg1, NoParts), x, y) == y + [] == y;
  }

  lemma GapExpands(g: Gap, tail: TemplateParts, x: string, y: string)
    ensures Expand(GapParts(g, tail), x, y) == Except(Avoided(g, x, y)) + Expand(tail, x, y)
  {
    var rest := Then(Text("]*"), tail);
    var avoided, after := Avoided(g, x, y), Expand(tail, x, y);
    ExpandJoin(GapFields(g), rest, x, y);
    GapFieldsExpand(g, x, y);
    assert Expand(GapParts(g, tail), x, y) == "[^" + (avoided + ("]*" + after));
    Regroup4("[^", avoided, "]*", after);
  }

  lemma GapPlain(g: Gap, tail: TemplateParts)
    requires PlainText(tail)
    ensures PlainText(GapParts(g, tail))
  {
    assert BraceFree("]*") && BraceFree("[^");
    PlainTextJoin(GapFields(g), Then(Text("]*"), tail));
  }

  /** Filling the fields of the pieces in gives the pattern's grammar. */
  lemma ExpandParts(p: TemporalPattern, x: string, y: string)
    ensures PlainText(Parts(p))
    ensures Expand(Parts(p), x, y) == Grammar(p, x, y)
  {
    var (lead, inner, trail) := Gaps(p);
    var close := Then(Text(")*"), NoParts);
    var afterTrail := GapParts(trail, close);
    var afterInner := GapParts(inner, Then(Arg1, afterTrail));
    var afterLead := Then(Text("("), Then(Arg0, afterInner));
    assert BraceFree(")*") && BraceFree("(");
    GapPlain(trail, close);
    GapPlain(inner, Then(Arg1, afterTrail));
    GapPlain(lead, afterLead);
    var gl, gi, gt := Except(Avoided(lead, x, y)), Except(Avoided(inner, x, y)), Except(Avoided(trail, x, y));
    GapExpands(trail, close, x, y);
    GapExpands(inner, Then(Arg1, afterTrail), x, y);
    GapExpands(lead, afterLead, x, y);
    assert Expand(close, x, y) == ")*" by { assert ")*" + [] == ")*"; }
    assert Expand(afterTrail, x, y) == gt + ")*";
    assert Expand(afterInner, x, y) == gi + (y + (gt + ")*"));
    assert Expand(afterLead, x, y) == "(" + (x + (gi + (y + (gt + ")*"))));
    Regroup7(gl, "(", x, gi, y, gt, ")*");
  }

  lemma ResponsePieces()
    ensures "[^{0}]*({0}[^{1}]*{1}[^{0}]*)*" == "[^{0}]*" + "(" + "{0}" + "[^{1}]*" + "{1}" + "[^{0}]*" + ")*"
  {
  }

  lemma ResponseSpelled()
    ensures Grammar(Response, "{0}", "{1}") == Template(Response)
  {
    assert Template(Response) == "[^{0}]*({0}[^{1}]*{1}[^{0}]*)*";
    assert Except("{0}") == "[^{0}]*" && Except("{1}") == "[^{1}]*";
    ResponsePieces();
  }

  lemma AlternatingPieces()
    ensures "[^{0}{1}]*({0}[^{0}{1}]*{1}[^{0}{1}]*)*" == "[^{0}{1}]*" + "(" + "{0}" + "[^{0}{1}]*" + "{1}" + "[^{0}{1}]*" + ")*"
  {
  }

  lemma AlternatingSpelled()
    ensures Grammar(Alternating, "{0}", "{1}") == Template(Alternating)
  {
    assert Template(Alternating) == "[^{0}{1}]*({0}[^{0}{1}]*{1}[^{0}{1}]*)*";
    assert Except("{0}" + "{1}") == "[^{0}{1}]*";
    AlternatingPieces();
  }

  lemma MultieffectPieces()
    ensures "[^{0}{1}]*({0}[^{0}{1}]*{1}[^{0}]*)*" == "[^{0}{1}]*" + "(" + "{0}" + "[^{0}{1}]*" + "{1}" + "[^{0}]*" + ")*"
  {
  }

  lemma MultieffectSpelled()
    ensures Grammar(Multieffect, "{0}", "{1}") == Template(Multieffect)
  {
    assert Template(Multieffect) == "[^{0}{1}]*({0}[^{0}{1}]*{1}[^{0}]*)*";
    assert Except("{0}") == "[^{0}]*" && Except("{0}" + "{1}") == "[^{0}{1}]*";
    MultieffectPieces();
  }

  lemma MulticausePieces()
    ensures "[^{0}{1}]*({0}[^{1}]*{1}[^{0}{1}]*)*" == "[^{0}{1}]*" + "(" + "{0}" + "[^{1}]*" + "{1}" + "[^{0}{1}]*" + ")*"
  {
  }

  lemma MulticauseSpelled()
    ensures Grammar(Multicause, "{0}", "{1}") == Template(Multicause)
  {
    assert Template(Multicause) == "[^{0}{1}]*({0}[^{1}]*{1}[^{0}{1}]*)*";
    assert Except("{1}") == "[^{1}]*" && Except("{0}" + "{1}") == "[^{0}{1}]*";
    MulticausePieces();
  }

  /** Filling in the field names themselves spells the table's template. */
  lemma SpellParts(p: TemporalPattern)
    ensures Expand(Parts(p), "{0}", "{1}") == Template(p)
  {
    ExpandParts(p, "{0}", "{1}");
    match p
    case Response => ResponseSpelled();
    case Alternating => AlternatingSpelled();
    case Multieffect => MultieffectSpelled();
    case Multicause => MulticauseSpelled();
  }

  /**
    For every pattern and every pair of symbols, `str.format` of the table
    entry succeeds and yields the pattern's grammar over those symbols.
   */
  lemma TemplateFormats(x: string, y: string)
    ensures forall p :: Name(p) in PatternRegexDic && Format(PatternRegexDic[Name(p)], x, y) == Some(Grammar(p, x, y))
  {
    forall p
      ensures Name(p) in PatternRegexDic && Format(PatternRegexDic[Name(p)], x, y) == Some(Grammar(p, x, y))
    {
      ExpandParts(p, x, y);
      SpellParts(p);
      FormatRender(Parts(p), x, y);
    }
  }

  /** The grammar of each pattern over the symbols `a` and `b`. */
  lemma ResponseOverAB()
    ensures Grammar(Response, "a", "b") == "[^a]*(a[^b]*b[^a]*)*"
  {
    assert Except("a") == "[^a]*" && Except("b") == "[^b]*";
    assert "[^a]*(a[^b]*b[^a]*)*" == "[^a]*" + "(" + "a" + "[^b]*" + "b" + "[^a]*" + ")*";
  }

  lemma AlternatingOverAB()
    ensures Grammar(Alternating, "a", "b") == "[^ab]*(a[^ab]*b[^ab]*)*"
  {
    assert Except("a" + "b") == "[^ab]*";
    assert "[^ab]*(a[^ab]*b[^ab]*)*" == "[^ab]*" + "(" + "a" + "[^ab]*" + "b" + "[^ab]*" + ")*";
  }

  lemma MultieffectOverAB()
    ensures Grammar(Multieffect, "a", "b") == "[^ab]*(a[^ab]*b[^a]*)*"
  {
    assert Except("a") == "[^a]*" && Except("a" + "b") == "[^ab]*";
    assert "[^ab]*(a[^ab]*b[^a]*)*" == "[^ab]*" + "(" + "a" + "[^ab]*" + "b" + "[^a]*" + ")*";
  }

  lemma MulticauseOverAB()
    ensures Grammar(Multicause, "a", "b") == "[^ab]*(a[^b]*b[^ab]*)*"
  {
    assert Except("b") == "[^b]*" && Except("a" + "b") == "[^ab]*";
    assert "[^ab]*(a[^b]*b[^ab]*)*" == "[^ab]*" + "(" + "a" + "[^b]*" + "b" + "[^ab]*" + ")*";
  }
}
