/**
  The part of Python's `str.format` that the pattern table uses: positional
  replacement fields `{0}` and `{1}`, and the escapes `{{` and `}}`.
 */
module StrFormat {
  import opened Wrappers

  /** Text without braces, which `str.format` copies verbatim. */
  predicate BraceFree(s: string) {
    forall i :: 0 <= i < |s| ==> s[i] != '{' && s[i] != '}'
  }

  /** Puts `s` in front of a successful result; a failure stays a failure. */
  function Prepend(s: string, r: Option<string>): Option<string> {
    match r
    case Some(t) => Some(s + t)
    case None => None
  }

  /**
    `template.format(arg0, arg1)`. `None` stands for the exception Python
    raises on a lone `}` or on any replacement field other than `{0}` and
    `{1}`. The arguments are inserted as they are, never rescanned.
   */
  function Format(template: string, arg0: string, arg1: string): (r: Option<string>)
    ensures BraceFree(template) ==> r == Some(template)
    decreases |template|
  {
    if template == [] then Some([])
    else if template[0] == '{' then
      if |template| >= 2 && template[1] == '{' then Prepend("{", Format(template[2..], arg0, arg1))
      else if |template| >= 3 && template[1] == '0' && template[2] == '}' then Prepend(arg0, Format(template[3..], arg0, arg1))
      else if |template| >= 3 && template[1] == '1' && template[2] == '}' then Prepend(arg1, Format(template[3..], arg0, arg1))
      else None
    else if template[0] == '}' then
      if |template| >= 2 && template[1] == '}' then Prepend("}", Format(template[2..], arg0, arg1))
      else None
    else
      assert BraceFree(template) ==> BraceFree(template[1..]);
      assert template == [template[0]] + template[1..];
      Prepend([template[0]], Format(template[1..], arg0, arg1))
  }

  /** Brace-free text in front of a template is copied in front of the result. */
  lemma {:induction false} FormatTextPrefix(s: string, t: string, arg0: string, arg1: string)
    requires BraceFree(s)
    ensures Format(s + t, arg0, arg1) == Prepend(s, Format(t, arg0, arg1))
    decreases |s|
  {
    if s == [] {
      assert s + t == t;
      PrependEmpty(Format(t, arg0, arg1));
    } else {
      var u := s + t;
      assert u[0] == s[0] && u[1..] == s[1..] + t;
      assert u[0] != '{' && u[0] != '}';
      assert Format(u, arg0, arg1) == Prepend([s[0]], Format(s[1..] + t, arg0, arg1));
      assert BraceFree(s[1..]);
      FormatTextPrefix(s[1..], t, arg0, arg1);
      PrependTwice([s[0]], s[1..], Format(t, arg0, arg1));
      assert [s[0]] + s[1..] == s;
    }
  }

  lemma PrependEmpty(r: Option<string>)
    ensures Prepend([], r) == r
  {
    if r.Some? { assert [] + r.value == r.value; }
  }

  lemma PrependTwice(s1: string, s2: string, r: Option<string>)
    ensures Prepend(s1, Prepend(s2, r)) == Prepend(s1 + s2, r)
  {
    if r.Some? { assert s1 + (s2 + r.value) == (s1 + s2) + r.value; }
  }

  /** One piece of a template: literal text, or the field `{0}` or `{1}`. */
  datatype TemplatePart = Text(text: string) | Arg0 | Arg1

  /** A template taken apart into its pieces, first piece first. */
  datatype TemplateParts = NoParts | Then(part: TemplatePart, rest: TemplateParts)

  /** What a piece becomes once the fields are filled in. */
  function Filled(part: TemplatePart, arg0: string, arg1: string): string {
    match part
    case Text(s) => s
    case Arg0 => arg0
    case Arg1 => arg1
  }

  /**
    The text the parts stand for once the fields are filled in. With the
    arguments "{0}" and "{1}" it is the template the parts spell.
   */
  function Expand(parts: TemplateParts, arg0: string, arg1: string): string {
    match parts
    case NoParts => []
    case Then(part, rest) => Filled(part, arg0, arg1) + Expand(rest, arg0, arg1)
  }

  /** The pieces of `front` followed by the pieces of `back`. */
  function Join(front: TemplateParts, back: TemplateParts): TemplateParts {
    match front
    case NoParts => back
    case Then(part, rest) => Then(part, Join(rest, back))
  }

  /** Expanding joined pieces concatenates the two expansions. */
  lemma {:induction false} ExpandJoin(front: TemplateParts, back: TemplateParts, arg0: string, arg1: string)
    ensures Expand(Join(front, back), arg0, arg1) == Expand(front, arg0, arg1) + Expand(back, arg0, arg1)
  {
    match front
    case NoParts =>
      assert Expand(front, arg0, arg1) + Expand(back, arg0, arg1) == [] + Expand(back, arg0, arg1);
    case Then(part, rest) =>
      ExpandJoin(rest, back, arg0, arg1);
      var f := Filled(part, arg0, arg1);
      assert f + (Expand(rest, arg0, arg1) + Expand(back, arg0, arg1))
          == (f + Expand(rest, arg0, arg1)) + Expand(back, arg0, arg1);
  }

  /** Every literal piece is free of braces. */
  predicate PlainText(parts: TemplateParts) {
    match parts
    case NoParts => true
    case Then(part, rest) => (part.Text? ==> BraceFree(part.text)) && PlainText(rest)
  }

  /** Joining plain pieces gives plain pieces. */
  lemma {:induction false} PlainTextJoin(front: TemplateParts, back: TemplateParts)
    requires PlainText(front) && PlainText(back)
    ensures PlainText(Join(front, back))
  {
    match front
    case NoParts =>
    case Then(part, rest) => PlainTextJoin(rest, back);
  }

  /** Formatting a template built from plain text and fields fills in exactly those fields. */
  lemma {:induction false} FormatRender(parts: TemplateParts, arg0: string, arg1: string)
    requires PlainText(parts)
    ensures Format(Expand(parts, "{0}", "{1}"), arg0, arg1) == Some(Expand(parts, arg0, arg1))
  {
    match parts
    case NoParts =>
    case Then(part, rest) =>
      var spelled := Expand(rest, "{0}", "{1}");
      FormatRender(rest, arg0, arg1);
      match part
      case Text(s) =>
        FormatTextPrefix(s, spelled, arg0, arg1);
      case Arg0 =>
        var u := "{0}" + spelled;
        assert u[0] == '{' && u[1] == '0' && u[2] == '}' && u[3..] == spelled;
      case Arg1 =>
        var u := "{1}" + spelled;
        assert u[0] == '{' && u[1] == '1' && u[2] == '}' && u[3..] == spelled;
  }
}
