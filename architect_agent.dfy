/**
 * The architect: normalises the language model's two answers (the technical
 * specification, then the builder-specific specs) into the planning state,
 * falls back to an empty specification when the first answer is unusable,
 * and renders every Mermaid diagram as a placeholder SVG that shows the
 * escaped source, one `<tspan>` per line for at most 30 lines.
 */
module ArchitectAgent {
  import opened Common
  import opened Text
  import opened Artifacts
  import Evaluator

  // ---------------------------------------------------------------------
  // The placeholder SVG
  // ---------------------------------------------------------------------

  /** `code.replace("&", "&amp;").replace("<", "&lt;").replace(">", "&gt;")` */
  function Escape(code: string): string {
    Replace(Replace(Replace(code, "&", "&amp;"), "<", "&lt;"), ">", "&gt;")
  }

  /** The escaping of one character. */
  function EscapeChar(c: char): string {
    if c == '&' then "&amp;" else if c == '<' then "&lt;" else if c == '>' then "&gt;" else [c]
  }

  /** Character-by-character escaping: the reference `Escape` is proved equal to. */
  function EscapeChars(s: string): string
    decreases |s|
  {
    if s == [] then [] else EscapeChar(s[0]) + EscapeChars(s[1..])
  }

  /** Reading the entities back; the inverse of `EscapeChars`. */
  function Unescape(s: string): string
    decreases |s|
  {
    if s == [] then []
    else if StartsWith(s, "&amp;") then "&" + Unescape(s[5..])
    else if StartsWith(s, "&lt;") then "<" + Unescape(s[4..])
    else if StartsWith(s, "&gt;") then ">" + Unescape(s[4..])
    else [s[0]] + Unescape(s[1..])
  }

  lemma SubstWithout(s: string, c: char, rep: string)
    requires c !in s
    ensures Subst(s, c, rep) == s
    decreases |s|
  {
    if s != [] {
      SubstWithout(s[1..], c, rep);
    }
  }

  /** Three successive substitutions, `&` first, escape each character once. */
  lemma {:induction false} SubstChain(s: string)
    ensures Subst(Subst(Subst(s, '&', "&amp;"), '<', "&lt;"), '>', "&gt;") == EscapeChars(s)
    decreases |s|
  {
    if s != [] {
      var c, t := s[0], s[1..];
      assert s == [c] + t;
      SubstChain(t);
      SubstAppend([c], t, '&', "&amp;");
      var a1, a2 := Subst([c], '&', "&amp;"), Subst(t, '&', "&amp;");
      SubstAppend(a1, a2, '<', "&lt;");
      var b1, b2 := Subst(a1, '<', "&lt;"), Subst(a2, '<', "&lt;");
      SubstAppend(b1, b2, '>', "&gt;");
      EscapeOneChar(c);
    }
  }

  /** The three substitutions escape a single character. */
  lemma EscapeOneChar(c: char)
    ensures Subst(Subst(Subst([c], '&', "&amp;"), '<', "&lt;"), '>', "&gt;") == EscapeChar(c)
  {
    var s1 := if c == '&' then "&amp;" else [c];
    assert Subst([c], '&', "&amp;") == s1;
    var s2 := if c == '<' then "&lt;" else s1;
    if c == '<' {
      assert Subst(s1, '<', "&lt;") == s2;
    } else {
      SubstWithout(s1, '<', "&lt;");
    }
    if c == '>' {
      assert Subst(s2, '>', "&gt;") == EscapeChar(c);
    } else {
      SubstWithout(s2, '>', "&gt;");
    }
  }

  /** The chained `replace` calls escape the code character by character. */
  lemma EscapeIsPerChar(code: string)
    ensures Escape(code) == EscapeChars(code)
  {
    ReplaceOneChar(code, '&', "&amp;");
    var a := Subst(code, '&', "&amp;");
    ReplaceOneChar(a, '<', "&lt;");
    var b := Subst(a, '<', "&lt;");
    ReplaceOneChar(b, '>', "&gt;");
    SubstChain(code);
  }

  /** The escaped code contains no raw `<` or `>`. */
  lemma EscapeRemovesBrackets(code: string)
    ensures '<' !in Escape(code) && '>' !in Escape(code)
  {
    ReplaceOneChar(code, '&', "&amp;");
    var a := Subst(code, '&', "&amp;");
    ReplaceOneChar(a, '<', "&lt;");
    var b := Subst(a, '<', "&lt;");
    ReplaceOneChar(b, '>', "&gt;");
  }

  /** A string whose `i`-th character differs from the pattern's does not
      start with the pattern. */
  lemma DiffersAt(s: string, prefix: string, i: nat)
    requires i < |s| && i < |prefix| && s[i] != prefix[i]
    ensures !StartsWith(s, prefix)
  {
    if |prefix| <= |s| {
      assert s[..|prefix|][i] == s[i];
    }
  }

  /** Escaping loses nothing: the entities read back to the code. */
  lemma {:induction false} UnescapeEscape(s: string)
    ensures Unescape(EscapeChars(s)) == s
    decreases |s|
  {
    if s != [] {
      var c, t := s[0], s[1..];
      UnescapeEscape(t);
      UnescapeHead(c, EscapeChars(t));
      assert s == [c] + t;
    }
  }

  /** One escaped character reads back to itself, whatever follows it. */
  lemma UnescapeHead(c: char, rest: string)
    ensures Unescape(EscapeChar(c) + rest) == [c] + Unescape(rest)
  {
    var e := EscapeChar(c) + rest;
    if c == '&' {
      assert e[..5] == "&amp;" && e[5..] == rest;
    } else if c == '<' {
      DiffersAt(e, "&amp;", 1);
      assert e[..4] == "&lt;" && e[4..] == rest;
    } else if c == '>' {
      DiffersAt(e, "&amp;", 1);
      DiffersAt(e, "&lt;", 1);
      assert e[..4] == "&gt;" && e[4..] == rest;
    } else {
      DiffersAt(e, "&amp;", 0);
      DiffersAt(e, "&lt;", 0);
      DiffersAt(e, "&gt;", 0);
      assert e[1..] == rest;
    }
  }

  /** Character-by-character escaping leaves no raw `<` or `>`. */
  lemma {:induction false} EscapeCharsNoBrackets(s: string)
    ensures '<' !in EscapeChars(s) && '>' !in EscapeChars(s)
    decreases |s|
  {
    if s != [] {
      EscapeCharsNoBrackets(s[1..]);
    }
  }

  /** Escaping each line of a list. */
  function EscapeEach(lines: seq<string>): (r: seq<string>)
    ensures |r| == |lines|
    ensures forall i :: 0 <= i < |lines| ==> r[i] == EscapeChars(lines[i])
    decreases |lines|
  {
    if lines == [] then [] else [EscapeChars(lines[0])] + EscapeEach(lines[1..])
  }

  /** Splitting after a separator-free prefix glues the prefix to the first piece. */
  lemma {:induction false} SplitPrefix(x: string, t: string, c: char)
    requires c !in x
    ensures Split(x + t, c) == [x + Split(t, c)[0]] + Split(t, c)[1..]
    decreases |x|
  {
    if x == [] {
      var r := Split(t, c);
      assert x + t == t && x + r[0] == r[0];
      assert [r[0]] + r[1..] == r;
    } else {
      SplitPrefix(x[1..], t, c);
      var r := Split(t, c);
      var rest := Split(x[1..] + t, c);
      assert (x + t)[0] == x[0] != c;
      assert (x + t)[1..] == x[1..] + t;
      assert rest[0] == x[1..] + r[0] && rest[1..] == r[1..];
      assert [x[0]] + rest[0] == x + r[0];
    }
  }

  /** Escaping never adds or removes a newline, so the lines of the escaped
      code are the escaped lines of the code. */
  lemma {:induction false} EscapeSplitsLikeCode(s: string)
    ensures Split(EscapeChars(s), '\n') == EscapeEach(Split(s, '\n'))
    decreases |s|
  {
    if s != [] {
      var c, t := s[0], s[1..];
      EscapeSplitsLikeCode(t);
      var p := Split(t, '\n');
      if c == '\n' {
        assert EscapeChars(s) == "\n" + EscapeChars(t);
        assert ("\n" + EscapeChars(t))[1..] == EscapeChars(t);
        assert Split(s, '\n') == [""] + p;
        assert EscapeEach([""] + p) == [EscapeChars("")] + EscapeEach(p);
      } else {
        var x := EscapeChar(c);
        assert '\n' !in x;
        assert EscapeChars(s) == x + EscapeChars(t);
        SplitPrefix(x, EscapeChars(t), '\n');
        assert Split(s, '\n') == [[c] + p[0]] + p[1..];
        assert EscapeChars([c] + p[0]) == x + EscapeChars(p[0]) by {
          assert ([c] + p[0])[1..] == p[0];
        }
        assert EscapeEach([[c] + p[0]] + p[1..]) == [x + EscapeChars(p[0])] + EscapeEach(p[1..]) by {
          assert ([[c] + p[0]] + p[1..])[1..] == p[1..];
        }
        assert EscapeEach(p)[1..] == EscapeEach(p[1..]) by {
          assert p == [p[0]] + p[1..];
        }
      }
    }
  }

  /** The lines the placeholder shows: the first 30 lines of the escaped code. */
  function SvgLines(code: string): seq<string> {
    Take(Split(Escape(code), '\n'), 30)
  }

  /** `<tspan x="20" dy="16">{line}</tspan>` for every line, joined with "". */
  function Tspans(lines: seq<string>): string
    decreases |lines|
  {
    if lines == [] then "" else "<tspan x=\"20\" dy=\"16\">" + lines[0] + "</tspan>" + Tspans(lines[1..])
  }

  /** The fixed text of the placeholder before the title. */
  const SvgHead: string :=
    "<svg xmlns=\"http://www.w3.org/2000/svg\" viewBox=\"0 0 800 600\">\n"
    + "  <rect width=\"800\" height=\"600\" fill=\"#f8f9fa\" rx=\"8\"/>\n"
    + "  <text x=\"400\" y=\"30\" text-anchor=\"middle\" font-family=\"Arial\" font-size=\"16\" font-weight=\"bold\" fill=\"#333\">"

  /** The fixed text between the title and the source lines. */
  const SvgMiddle: string :=
    "</text>\n"
    + "  <text x=\"20\" y=\"60\" font-family=\"monospace\" font-size=\"11\" fill=\"#555\">\n"
    + "    <tspan x=\"20\" dy=\"0\">Mermaid source (render with mermaid.js):</tspan>\n"
    + "    "

  /** The fixed text after the source lines. */
  const SvgTail: string := "\n  </text>\n</svg>"

  /** `_mermaid_to_svg_placeholder(mermaid_code, title)` */
  function SvgPlaceholder(code: string, title: string): string {
    SvgHead + title + SvgMiddle + Tspans(SvgLines(code)) + SvgTail
  }

  /** At most 30 lines are shown; each is the escaping of the corresponding
      source line and holds no raw `<` or `>`. */
  lemma SvgLinesShape(code: string)
    ensures |SvgLines(code)| == Min(30, |Split(code, '\n')|)
    ensures forall i :: 0 <= i < |SvgLines(code)| ==>
      SvgLines(code)[i] == EscapeChars(Split(code, '\n')[i])
      && '<' !in SvgLines(code)[i] && '>' !in SvgLines(code)[i]
  {
    var lines := Split(code, '\n');
    EscapeIsPerChar(code);
    EscapeSplitsLikeCode(code);
    assert Split(Escape(code), '\n') == EscapeEach(lines);
    forall i | 0 <= i < |SvgLines(code)|
      ensures SvgLines(code)[i] == EscapeChars(lines[i])
      ensures '<' !in SvgLines(code)[i] && '>' !in SvgLines(code)[i]
    {
      EscapeCharsNoBrackets(lines[i]);
    }
  }

  /** A diagram of at most 30 lines is shown whole: reading the shown lines
      back gives the Mermaid source. */
  lemma ShortDiagramShownWhole(code: string)
    requires |Split(code, '\n')| <= 30
    ensures Unescape(Join("\n", SvgLines(code))) == code
  {
    EscapeIsPerChar(code);
    EscapeSplitsLikeCode(code);
    var pieces := Split(Escape(code), '\n');
    assert SvgLines(code) == pieces;
    JoinSplit(Escape(code), '\n');
    assert Join("\n", pieces) == Escape(code);
    UnescapeEscape(code);
  }

  // ---------------------------------------------------------------------
  // run_architect_agent
  // ---------------------------------------------------------------------

  /** A JSON value as the language model returned it: an object, a list,
      or anything else. */
  datatype Json<+R> = Object(fields: R) | List(items: seq<Json<R>>) | Scalar

  /** A list is replaced by its first element when that is an object. */
  function FirstObject<R>(j: Json<R>): Option<R> {
    match j
    case Object(f) => Some(f)
    case List(items) => if items != [] && items[0].Object? then Some(items[0].fields) else None
    case Scalar => None
  }

  /** The `tech_spec` object of the first answer; any key may be missing.
      Values are taken to have the types the prompt asks for. */
  datatype RawTechSpec = RawTechSpec(
    projectStructure: Option<ProjectStructure>, mermaidEr: Option<string>, mermaidSequence: Option<seq<Diagram>>)

  /** The first answer: an `error` key marks a failed call. */
  datatype SpecReply = SpecReply(
    error: Option<string>, techSpec: Option<RawTechSpec>, feasibility: Option<string>, reasoning: Option<string>)

  /** The second answer's builder-specific specs; a key may be missing or null. */
  datatype BuilderSpecsReply = BuilderSpecsReply(
    backendSpec: Option<BuilderSpec>, frontendSpec: Option<BuilderSpec>,
    qaSpec: Option<QaSpec>, devopsSpec: Option<BuilderSpec>)

  datatype ArchitectResult = ArchitectResult(
    techSpec: TechSpec, backendSpec: Option<BuilderSpec>, frontendSpec: Option<BuilderSpec>,
    qaSpec: Option<QaSpec>, devopsSpec: Option<BuilderSpec>,
    erDiagramSvg: string, sequenceDiagramsSvg: seq<SvgDiagram>, feasibility: string, reasoning: string)

  /** `_fallback(state)` */
  function Fallback(iteration: int): ArchitectResult {
    ArchitectResult(
      TechSpec(ProjectStructure([], []), "", [], "Architect Agent (fallback)", iteration),
      None, None, None, None, "<svg/>", [], "needs_changes", "Fallback: LLM call failed.")
  }

  /** The first answer, when it is usable. */
  function UsableSpec(first: Json<SpecReply>): Option<SpecReply> {
    match FirstObject(first)
    case Some(r) => if r.error.None? then Some(r) else None
    case None => None
  }

  /** The builder specs of the second answer; a list without a leading
      object counts as `{}`, and anything else gives no specs at all. */
  function BuilderSpecs(second: Json<BuilderSpecsReply>): BuilderSpecsReply {
    FirstObject(second).GetOr(BuilderSpecsReply(None, None, None, None))
  }

  function BuildTechSpec(raw: RawTechSpec, iteration: int): TechSpec {
    TechSpec(raw.projectStructure.GetOr(ProjectStructure([], [])), raw.mermaidEr.GetOr(""),
             raw.mermaidSequence.GetOr([]), "Architect Agent", iteration)
  }

  /** One rendered sequence diagram per Mermaid sequence diagram. */
  function SequenceSvgs(diagrams: seq<Diagram>): (r: seq<SvgDiagram>)
    ensures |r| == |diagrams|
    ensures forall i :: 0 <= i < |diagrams| ==>
      r[i] == SvgDiagram(diagrams[i].title, SvgPlaceholder(diagrams[i].code, diagrams[i].title))
  {
    seq(|diagrams|, i requires 0 <= i < |diagrams| =>
      SvgDiagram(diagrams[i].title, SvgPlaceholder(diagrams[i].code, diagrams[i].title)))
  }

  /** `run_architect_agent(state)`: `first` answers the specification call,
      `second` the builder-spec call made only after a usable first answer. */
  function RunArchitectAgent(iteration: int, first: Json<SpecReply>, second: Json<BuilderSpecsReply>): (res: ArchitectResult)
    ensures res == Fallback(iteration) <==> UsableSpec(first).None?
    ensures UsableSpec(first).Some? ==>
      res.techSpec.createdBy == "Architect Agent" && res.techSpec.iteration == iteration
      && res.erDiagramSvg == SvgPlaceholder(res.techSpec.mermaidEr, "ER Diagram")
      && res.sequenceDiagramsSvg == SequenceSvgs(res.techSpec.mermaidSequence)
  {
    match UsableSpec(first)
    case None => Fallback(iteration)
    case Some(r) =>
      var ts := BuildTechSpec(r.techSpec.GetOr(RawTechSpec(None, None, None)), iteration);
      var specs := BuilderSpecs(second);
      ArchitectResult(ts, specs.backendSpec, specs.frontendSpec, specs.qaSpec, specs.devopsSpec,
                      SvgPlaceholder(ts.mermaidEr, "ER Diagram"), SequenceSvgs(ts.mermaidSequence),
                      r.feasibility.GetOr("approved"), r.reasoning.GetOr("Architecture designed."))
  }

  /** An error, a scalar, or a list whose first element is not an object
      all give the fallback, whatever the second answer would have been. */
  lemma UnusableGivesFallback(iteration: int, first: Json<SpecReply>, second: Json<BuilderSpecsReply>)
    requires first.Scalar? || (first.Object? && first.fields.error.Some?)
             || (first.List? && (first.items == [] || !first.items[0].Object?))
    ensures RunArchitectAgent(iteration, first, second) == Fallback(iteration)
    ensures RunArchitectAgent(iteration, first, second).feasibility == "needs_changes"
  {
  }

  /** A usable first answer is stamped by the architect with the planning
      iteration, and its diagrams are all rendered. */
  lemma UsableAnswerShape(iteration: int, first: Json<SpecReply>, second: Json<BuilderSpecsReply>)
    requires UsableSpec(first).Some?
    ensures var res := RunArchitectAgent(iteration, first, second);
      res.techSpec.createdBy == "Architect Agent" && res.techSpec.iteration == iteration
      && |res.sequenceDiagramsSvg| == |res.techSpec.mermaidSequence|
      && res.feasibility == UsableSpec(first).value.feasibility.GetOr("approved")
  {
  }

  /** A usable answer passes on the builder specs of the second answer (an
      object, or the object a list starts with) as they are, and takes the
      project structure and diagrams of `tech_spec`, each defaulting when
      `tech_spec` or the key is missing. */
  lemma UsableAnswerCarriesSpecs(iteration: int, first: Json<SpecReply>, second: Json<BuilderSpecsReply>, o: BuilderSpecsReply)
    requires UsableSpec(first).Some?
    requires second == Object(o) || (second.List? && second.items != [] && second.items[0] == Object(o))
    ensures var res := RunArchitectAgent(iteration, first, second);
      res.backendSpec == o.backendSpec && res.frontendSpec == o.frontendSpec
      && res.qaSpec == o.qaSpec && res.devopsSpec == o.devopsSpec
    ensures var res := RunArchitectAgent(iteration, first, second);
      var raw := UsableSpec(first).value.techSpec;
      (raw.None? ==> res.techSpec.projectStructure == ProjectStructure([], [])
                     && res.techSpec.mermaidEr == "" && res.techSpec.mermaidSequence == [])
      && (raw.Some? ==>
            res.techSpec.projectStructure == raw.value.projectStructure.GetOr(ProjectStructure([], []))
            && res.techSpec.mermaidEr == raw.value.mermaidEr.GetOr("")
            && res.techSpec.mermaidSequence == raw.value.mermaidSequence.GetOr([]))
  {
  }

  /** The builder specs are all absent whenever the second answer is not an
      object (or a list starting with one). */
  lemma NoSpecsWithoutObject(iteration: int, first: Json<SpecReply>, second: Json<BuilderSpecsReply>)
    requires FirstObject(second).None?
    ensures var res := RunArchitectAgent(iteration, first, second);
      res.backendSpec.None? && res.frontendSpec.None? && res.qaSpec.None? && res.devopsSpec.None?
  {
  }

  /** The fallback specification has no files, so the evaluator never lets
      it pass its structural checks. */
  lemma FallbackFailsStructuralChecks(iteration: int, reqs: seq<Requirement>, stories: seq<UserStory>,
                                      inception: Option<Inception>)
    ensures Evaluator.NoProjectFiles in
      Evaluator.ExpectedIssues(reqs, stories, Some(Fallback(iteration).techSpec), inception)
  {
    var issues := Evaluator.ExpectedIssues(reqs, stories, Some(Fallback(iteration).techSpec), inception);
    var p := Evaluator.PresenceIssues(reqs, stories, Some(Fallback(iteration).techSpec), inception);
    assert Evaluator.NoProjectFiles in p;
    assert issues[..|p|] == p;
  }
}
