/**
 * The planning evaluator: fast structural checks on the planning artifacts
 * (emptiness, files in the project structure, coverage of requirement ids
 * by user stories), and the decision that short-circuits on any structural
 * issue before the language model is consulted.
 */
module Evaluator {
  import opened Common
  import opened Text
  import opened Artifacts

  /** One structural issue; `TooManyUncovered` carries the uncovered ids. */
  datatype StructuralIssue =
    | NoRequirements
    | NoUserStories
    | NoTechSpec
    | NoInception
    | NoProjectFiles
    | TooManyUncovered(uncovered: set<string>)

  /** The message of an issue. The uncovered ids are printed as a Python set,
      whose element order depends on string hashing: `setRepr` stands for it. */
  function IssueMessage(issue: StructuralIssue, setRepr: set<string> -> string): string {
    match issue
    case NoRequirements => "No requirements generated"
    case NoUserStories => "No user stories generated"
    case NoTechSpec => "No tech spec generated"
    case NoInception => "No inception/MVP generated"
    case NoProjectFiles => "Tech spec has no files in project_structure"
    case TooManyUncovered(u) => "Too many uncovered requirements: " + setRepr(u)
  }

  /** `{r["id"] for r in requirements}` */
  function RequirementIds(reqs: seq<Requirement>): set<string> {
    set r | r in reqs :: r.id
  }

  /** The union of every story's `req_ids`. */
  function CoveredIds(stories: seq<UserStory>): set<string>
    decreases |stories|
  {
    if stories == [] then {}
    else CoveredIds(stories[..|stories| - 1]) + Elements(stories[|stories| - 1].reqIds)
  }

  /** `set(xs)` */
  function Elements(xs: seq<string>): set<string> {
    set x | x in xs
  }

  /** An id is covered exactly when some story lists it. */
  lemma {:induction false} CoveredIdsMeaning(stories: seq<UserStory>, id: string)
    ensures id in CoveredIds(stories) <==> exists k :: 0 <= k < |stories| && id in stories[k].reqIds
    decreases |stories|
  {
    if stories != [] {
      var init := stories[..|stories| - 1];
      CoveredIdsMeaning(init, id);
      if id in CoveredIds(stories) && id !in CoveredIds(init) {
        assert id in stories[|stories| - 1].reqIds;
      }
      if exists k :: 0 <= k < |stories| && id in stories[k].reqIds {
        var k :| 0 <= k < |stories| && id in stories[k].reqIds;
        if k < |stories| - 1 {
          assert init[k] == stories[k];
        }
      }
    }
  }

  /** `len(uncovered) > len(req_ids) * 0.3`, in integers. */
  predicate TooMany(uncovered: set<string>, reqIds: set<string>) {
    10 * |uncovered| > 3 * |reqIds|
  }

  /** The issues the structural checks report, in the order they are
      checked: one per empty artifact, then missing project files, then a
      coverage issue when both lists are non-empty. */
  function ExpectedIssues(reqs: seq<Requirement>, stories: seq<UserStory>,
                          techSpec: Option<TechSpec>, inception: Option<Inception>): seq<StructuralIssue>
  {
    var uncovered := RequirementIds(reqs) - CoveredIds(stories);
    PresenceIssues(reqs, stories, techSpec, inception)
    + When(reqs != [] && stories != [] && TooMany(uncovered, RequirementIds(reqs)),
           TooManyUncovered(uncovered))
  }

  /** The issues that do not depend on coverage. */
  function PresenceIssues(reqs: seq<Requirement>, stories: seq<UserStory>,
                          techSpec: Option<TechSpec>, inception: Option<Inception>): seq<StructuralIssue>
  {
    When(reqs == [], NoRequirements)
    + When(stories == [], NoUserStories)
    + When(techSpec.None?, NoTechSpec)
    + When(inception.None?, NoInception)
    + When(techSpec.Some? && techSpec.value.projectStructure.files == [], NoProjectFiles)
  }

  /** `[issue] if cond else []` */
  function When(cond: bool, issue: StructuralIssue): seq<StructuralIssue> {
    if cond then [issue] else []
  }

  /** `_structural_checks(state)`: the presence checks, then the coverage
      check with the covered set grown story by story. */
  method StructuralChecks(reqs: seq<Requirement>, stories: seq<UserStory>,
                          techSpec: Option<TechSpec>, inception: Option<Inception>)
    returns (issues: seq<StructuralIssue>)
    ensures issues == ExpectedIssues(reqs, stories, techSpec, inception)
  {
    issues := PresenceChecks(reqs, stories, techSpec, inception);
    if reqs != [] && stories != [] {
      var reqIds := RequirementIds(reqs);
      var covered := Covered(stories);
      var uncovered := reqIds - covered;
      if 10 * |uncovered| > 3 * |reqIds| {
        issues := issues + [TooManyUncovered(uncovered)];
      }
    }
  }

  /** The first five checks of `_structural_checks`, one issue per failed check. */
  method PresenceChecks(reqs: seq<Requirement>, stories: seq<UserStory>,
                        techSpec: Option<TechSpec>, inception: Option<Inception>)
    returns (issues: seq<StructuralIssue>)
    ensures issues == PresenceIssues(reqs, stories, techSpec, inception)
  {
    issues := [];
    if reqs == [] {
      issues := issues + [NoRequirements];
    }
    assert issues == When(reqs == [], NoRequirements);
    if stories == [] {
      issues := issues + [NoUserStories];
    }
    assert issues == When(reqs == [], NoRequirements) + When(stories == [], NoUserStories);
    if techSpec.None? {
      issues := issues + [NoTechSpec];
    }
    assert issues == When(reqs == [], NoRequirements) + When(stories == [], NoUserStories)
      + When(techSpec.None?, NoTechSpec);
    if inception.None? {
      issues := issues + [NoInception];
    }
    assert issues == When(reqs == [], NoRequirements) + When(stories == [], NoUserStories)
      + When(techSpec.None?, NoTechSpec) + When(inception.None?, NoInception);
    if techSpec.Some? && techSpec.value.projectStructure.files == [] {
      issues := issues + [NoProjectFiles];
    }
  }

  /** The loop of `_structural_checks` that grows the covered set. */
  method Covered(stories: seq<UserStory>) returns (covered: set<string>)
    ensures covered == CoveredIds(stories)
  {
    covered := {};
    var k := 0;
    while k < |stories|
      invariant 0 <= k <= |stories|
      invariant covered == CoveredIds(stories[..k])
    {
      assert stories[..k + 1][..k] == stories[..k];
      covered := covered + Elements(stories[k].reqIds);
      k := k + 1;
    }
    assert stories[..k] == stories;
  }

  /** The checks pass exactly when every artifact is present, the project
      structure lists files, and at most 30% of the requirement ids are
      left uncovered by the stories. */
  lemma NoIssuesIff(reqs: seq<Requirement>, stories: seq<UserStory>,
                    techSpec: Option<TechSpec>, inception: Option<Inception>)
    ensures ExpectedIssues(reqs, stories, techSpec, inception) == [] <==>
      reqs != [] && stories != [] && techSpec.Some? && inception.Some?
      && techSpec.value.projectStructure.files != []
      && !TooMany(RequirementIds(reqs) - CoveredIds(stories), RequirementIds(reqs))
  {
  }

  /** When every requirement id is listed by some story, coverage never
      raises an issue. */
  lemma FullCoverageNoIssue(reqs: seq<Requirement>, stories: seq<UserStory>,
                            techSpec: Option<TechSpec>, inception: Option<Inception>)
    requires forall i :: 0 <= i < |reqs| ==> exists k :: 0 <= k < |stories| && reqs[i].id in stories[k].reqIds
    ensures forall u :: TooManyUncovered(u) !in ExpectedIssues(reqs, stories, techSpec, inception)
  {
    forall id | id in RequirementIds(reqs)
      ensures id in CoveredIds(stories)
    {
      var i :| 0 <= i < |reqs| && reqs[i].id == id;
      CoveredIdsMeaning(stories, id);
    }
    assert RequirementIds(reqs) - CoveredIds(stories) == {};
    var p := PresenceIssues(reqs, stories, techSpec, inception);
    assert ExpectedIssues(reqs, stories, techSpec, inception) == p + [];
    PresenceNotCoverage(reqs, stories, techSpec, inception);
  }

  /** The presence checks never report a coverage issue. */
  lemma PresenceNotCoverage(reqs: seq<Requirement>, stories: seq<UserStory>,
                            techSpec: Option<TechSpec>, inception: Option<Inception>)
    ensures forall x :: x in PresenceIssues(reqs, stories, techSpec, inception) ==> !x.TooManyUncovered?
  {
  }

  /** A reported coverage issue names only requirement ids no story lists. */
  lemma UncoveredReallyUncovered(reqs: seq<Requirement>, stories: seq<UserStory>,
                                 techSpec: Option<TechSpec>, inception: Option<Inception>,
                                 u: set<string>, id: string)
    requires TooManyUncovered(u) in ExpectedIssues(reqs, stories, techSpec, inception)
    requires id in u
    ensures exists r :: r in reqs && r.id == id
    ensures forall k :: 0 <= k < |stories| ==> id !in stories[k].reqIds
  {
    CoveredIdsMeaning(stories, id);
  }

  /** The fields of the language model's evaluation the source reads; a
      key present with value null reads as a missing key. */
  datatype EvalReply = EvalReply(converged: Option<bool>, feedback: Option<string>)

  /** What `evaluate_planning` returns. */
  datatype Evaluation = Evaluation(converged: bool, feedback: string)

  /** `evaluate_planning(state)`: structural issues decide on their own and
      the language model is not consulted; otherwise its answer is taken, and
      an error counts as convergence. */
  function EvaluatePlanning(issues: seq<string>, reply: LlmReply<EvalReply>): (e: Evaluation)
    ensures issues != [] ==> !e.converged
    ensures issues != [] ==> e.feedback == "Structural issues: " + Join("; ", issues)
    ensures issues == [] && reply.LlmError? ==>
      e == Evaluation(true, "Structural checks passed (LLM evaluation unavailable).")
    ensures issues == [] && reply.LlmOk? ==>
      e.converged == reply.reply.converged.GetOr(true)
      && e.feedback == reply.reply.feedback.GetOr("Evaluation complete.")
  {
    if issues != [] then Evaluation(false, "Structural issues: " + Join("; ", issues))
    else match reply
      case LlmError(_) => Evaluation(true, "Structural checks passed (LLM evaluation unavailable).")
      case LlmOk(r) => Evaluation(r.converged.GetOr(true), r.feedback.GetOr("Evaluation complete."))
  }

  /** The evaluator reports non-convergence only for a structural issue or
      when the language model explicitly answers `converged: false`. */
  lemma NotConvergedWhy(issues: seq<string>, reply: LlmReply<EvalReply>)
    requires !EvaluatePlanning(issues, reply).converged
    ensures issues != [] || (reply.LlmOk? && reply.reply.converged == Some(false))
  {
  }
}
