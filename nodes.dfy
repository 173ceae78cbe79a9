/**
 * The graph's nodes and routers. A node reads the state, calls its agent
 * and returns an update (`Delta`); the agent's result is a parameter here
 * (the agents are modelled in their own modules). The routers pick the next
 * node after the planning evaluator and after the integration validator.
 */
module Nodes {
  import opened Common
  import opened Text
  import opened Artifacts
  import opened State
  import Evaluator
  import Builders
  import BaAgent
  import PoAgent
  import ArchitectAgent
  import QaAgent
  import IntegrationValidator
  import DevopsAgent

  // ---------------------------------------------------------------------
  // Planning
  // ---------------------------------------------------------------------

  function RequirementIds(reqs: seq<Requirement>): seq<string> {
    Ids(reqs, (r: Requirement) => r.id)
  }

  /** `ba_node`: stores the requirements. */
  function BaDelta(s: AgentState, r: BaAgent.BaResult): (d: Delta)
    ensures KeepsControl(d) && d.requirements == Some(r.requirements)
    ensures |d.decisionsLog| == 1 && d.decisionsLog[0].artifacts == RequirementIds(r.requirements)
  {
    NoChange.(requirements := Some(r.requirements), currentAgent := Some("ba_agent"),
              decisionsLog := [LogDecision(s, "BA Agent", "planning",
                                           "Generated " + NatToDecimal(|r.requirements|) + " requirements",
                                           RequirementIds(r.requirements))],
              activityLog := [Activity("BA Agent"), Activity("BA Agent")])
  }

  /** `po_node`: stores the inception and the stories. */
  function PoDelta(s: AgentState, r: PoAgent.PoResult): (d: Delta)
    ensures KeepsControl(d) && d.inception == Some(r.inception) && d.userStories == Some(r.userStories)
    ensures d.requirements.None? && d.techSpec.None?
  {
    NoChange.(inception := Some(r.inception), userStories := Some(r.userStories), currentAgent := Some("po_agent"),
              decisionsLog := [LogDecision(s, "Product Owner Agent", "planning",
                                           "Defined MVP with " + NatToDecimal(|r.userStories|) + " user stories",
                                           [r.inception.id] + StoryIds(r.userStories))],
              activityLog := [Activity("PO Agent"), Activity("PO Agent"), Activity("PO Agent")])
  }

  /** `architect_node`: stores the technical specification, the four
      builder specs (each possibly `None`) and the rendered diagrams. */
  function ArchitectDelta(s: AgentState, r: ArchitectAgent.ArchitectResult): (d: Delta)
    ensures KeepsControl(d) && d.techSpec == Some(r.techSpec)
    ensures d.backendSpec.Some? && d.frontendSpec.Some? && d.qaSpec.Some? && d.devopsSpec.Some?
    ensures d.backendSpec.value == r.backendSpec && d.frontendSpec.value == r.frontendSpec
    ensures d.qaSpec.value == r.qaSpec && d.devopsSpec.value == r.devopsSpec
    ensures d.erDiagramSvg == Some(r.erDiagramSvg) && d.sequenceDiagramsSvg == Some(r.sequenceDiagramsSvg)
  {
    NoChange.(techSpec := Some(r.techSpec), backendSpec := Some(r.backendSpec), frontendSpec := Some(r.frontendSpec),
              qaSpec := Some(r.qaSpec), devopsSpec := Some(r.devopsSpec),
              erDiagramSvg := Some(r.erDiagramSvg), sequenceDiagramsSvg := Some(r.sequenceDiagramsSvg),
              currentAgent := Some("architect_agent"),
              decisionsLog := [LogDecision(s, "Architect Agent", "planning", "Tech spec generated. Feasibility: " + r.feasibility,
                                           ["tech_spec", "backend_spec", "frontend_spec", "qa_spec", "devops_spec"])],
              activityLog := [Activity("Architect"), Activity("Architect"), Activity("Architect")])
  }

  /** The planning agents' nodes write artifacts only: no counter, flag,
      status or phase. */
  predicate KeepsControl(d: Delta) {
    d.planningIteration.None? && d.planningConverged.None? && d.status.None? && d.currentPhase.None? &&
    d.integrationIteration.None? && d.integrationValid.None? && d.hitlGate1Status.None? && d.hitlGate2Status.None?
  }

  lemma PlanningNodesKeepControl(s: AgentState, ba: BaAgent.BaResult, po: PoAgent.PoResult, arch: ArchitectAgent.ArchitectResult)
    ensures KeepsControl(BaDelta(s, ba)) && KeepsControl(PoDelta(s, po)) && KeepsControl(ArchitectDelta(s, arch))
    ensures Apply(s, BaDelta(s, ba)).requirements == ba.requirements
    ensures Apply(s, PoDelta(s, po)).userStories == po.userStories
    ensures Apply(s, ArchitectDelta(s, arch)).techSpec == Some(arch.techSpec)
    ensures Apply(s, ArchitectDelta(s, arch)).backendSpec == arch.backendSpec
  {
  }

  /** The evaluator's verdict: converged by its own judgement, or forced
      once the pass that just ended reaches the maximum. */
  function Converged(s: AgentState, e: Evaluator.Evaluation): bool {
    e.converged || s.planningIteration + 1 >= s.planningMaxIterations
  }

  /** `planning_evaluator_node`: counts the pass and records the verdict. */
  function EvaluatorDelta(s: AgentState, e: Evaluator.Evaluation): (d: Delta)
    ensures d.planningIteration == Some(s.planningIteration + 1)
    ensures d.planningConverged.Some? &&
      (d.planningConverged.value <==> e.converged || s.planningIteration + 1 >= s.planningMaxIterations)
    ensures d.status.None? && d.currentPhase.None? && d.requirements.None? && d.techSpec.None?
  {
    var converged := Converged(s, e);
    NoChange.(planningIteration := Some(s.planningIteration + 1), planningConverged := Some(converged),
              planningFeedback := Some(e.feedback),
              decisionsLog := [LogDecision(s, "Planning Evaluator", "planning",
                                           if converged then "converged" else "needs_refinement", [])],
              activityLog := [Activity("Evaluator"), Activity("Evaluator")])
  }

  /** The evaluator node adds one to the pass counter, forces convergence
      at the maximum, and changes nothing but the planning verdict and the
      logs. */
  lemma EvaluatorCounts(s: AgentState, e: Evaluator.Evaluation)
    ensures var t := Apply(s, EvaluatorDelta(s, e));
      t.planningIteration == s.planningIteration + 1 &&
      (t.planningConverged <==> e.converged || t.planningIteration >= s.planningMaxIterations) &&
      t.planningFeedback == e.feedback &&
      t == s.(planningIteration := t.planningIteration, planningConverged := t.planningConverged,
              planningFeedback := t.planningFeedback, decisionsLog := t.decisionsLog, activityLog := t.activityLog)
  {
    EvaluatorVerdict(s, e);
    EvaluatorFrame(s, e);
  }

  /** The planning verdict the evaluator node stores. */
  lemma EvaluatorVerdict(s: AgentState, e: Evaluator.Evaluation)
    ensures var t := Apply(s, EvaluatorDelta(s, e));
      t.planningIteration == s.planningIteration + 1 &&
      (t.planningConverged <==> e.converged || t.planningIteration >= s.planningMaxIterations) &&
      t.planningFeedback == e.feedback
  {
  }

  /** The fields the evaluator node leaves alone. */
  lemma EvaluatorFrame(s: AgentState, e: Evaluator.Evaluation)
    ensures var t := Apply(s, EvaluatorDelta(s, e));
      t == s.(planningIteration := t.planningIteration, planningConverged := t.planningConverged,
              planningFeedback := t.planningFeedback, decisionsLog := t.decisionsLog, activityLog := t.activityLog)
  {
  }

  /** `should_continue_planning(state)` */
  function ShouldContinuePlanning(s: AgentState): (r: string)
    ensures r == "hitl_gate_1" || r == "ba_node"
    ensures r == "hitl_gate_1" <==> s.planningConverged
  {
    if s.planningConverged then "hitl_gate_1" else "ba_node"
  }

  // ---------------------------------------------------------------------
  // Gates
  // ---------------------------------------------------------------------

  /** `hitl_gate1_node` (it runs only once the run is resumed). */
  function Gate1Delta(s: AgentState): (d: Delta)
    ensures d.status == Some("waiting_hitl") && d.currentPhase == Some("hitl_gate_1")
    ensures d.hitlGate1Status.None? && d.planningIteration.None? && d.planningConverged.None?
  {
    NoChange.(status := Some("waiting_hitl"), currentPhase := Some("hitl_gate_1"), currentAgent := Some("hitl_gate_1"),
              decisionsLog := [LogDecision(s, "HITL Gate 1", "planning", "Waiting for human approval",
                                           RequirementIds(s.requirements) + StoryIds(s.userStories))],
              activityLog := [Activity("HITL Gate 1")])
  }

  /** `hitl_gate2_node` */
  function Gate2Delta(s: AgentState): (d: Delta)
    ensures d.status == Some("waiting_hitl") && d.currentPhase == Some("hitl_gate_2")
    ensures d.hitlGate2Status.None? && d.integrationIteration.None? && d.integrationValid.None?
  {
    NoChange.(status := Some("waiting_hitl"), currentPhase := Some("hitl_gate_2"), currentAgent := Some("hitl_gate_2"),
              decisionsLog := [LogDecision(s, "HITL Gate 2", "building", "Waiting for human approval",
                                           Paths(s.generatedFiles) + TestCaseIds(s.testCases))],
              activityLog := [Activity("HITL Gate 2")])
  }

  function TestCaseIds(cases: seq<TestCase>): seq<string> {
    Ids(cases, (c: TestCase) => c.id)
  }

  /** A gate node marks the run as waiting at that gate and changes nothing
      else but the logs. */
  lemma GatesWait(s: AgentState)
    ensures var t := Apply(s, Gate1Delta(s));
      t.status == "waiting_hitl" && t.currentPhase == "hitl_gate_1" && t.currentAgent == "hitl_gate_1" &&
      t == s.(status := t.status, currentPhase := t.currentPhase, currentAgent := t.currentAgent,
              decisionsLog := t.decisionsLog, activityLog := t.activityLog)
    ensures var t := Apply(s, Gate2Delta(s));
      t.status == "waiting_hitl" && t.currentPhase == "hitl_gate_2" && t.currentAgent == "hitl_gate_2" &&
      t == s.(status := t.status, currentPhase := t.currentPhase, currentAgent := t.currentAgent,
              decisionsLog := t.decisionsLog, activityLog := t.activityLog)
  {
  }

  // ---------------------------------------------------------------------
  // Builders
  // ---------------------------------------------------------------------

  /** The name the validator uses for a builder in a fix's `builder` key. */
  function BuilderName(b: Builders.Builder): string {
    match b
    case Backend => "backend_builder"
    case Frontend => "frontend_builder"
  }

  /** `_get_fix_instructions(state, builder_name)` */
  function FixInstructions(fixes: seq<Fix>, name: string): seq<Fix> {
    Filter((f: Fix) => f.builder == Some(name), fixes)
  }

  /** The fixes for a builder are exactly those naming it, in their original
      order (the selection distributes over concatenation), and the two
      builders never receive the same fix. */
  lemma FixInstructionsMeaning(fixes: seq<Fix>, more: seq<Fix>, name: string)
    ensures forall f :: f in FixInstructions(fixes, name) <==> f in fixes && f.builder == Some(name)
    ensures FixInstructions(fixes + more, name) == FixInstructions(fixes, name) + FixInstructions(more, name)
    ensures forall f :: !(f in FixInstructions(fixes, BuilderName(Builders.Backend)) &&
                          f in FixInstructions(fixes, BuilderName(Builders.Frontend)))
  {
    FilterAppend((f: Fix) => f.builder == Some(name), fixes, more);
  }

  /** What a builder node passes to its agent. */
  function BuilderContext(s: AgentState, b: Builders.Builder): Builders.Context {
    Builders.Context(b, s.userStories, s.techSpec, FixInstructions(s.integrationFixes, BuilderName(b)))
  }

  /** `Generated N backend files`, marked ` (fix)` in a fix pass. */
  function BuilderDecision(b: Builders.Builder, count: nat, fixMode: bool): string {
    "Generated " + NatToDecimal(count) + " " + Builders.Domain(b) + " files" + (if fixMode then " (fix)" else "")
  }

  /** `backend_builder_node` / `frontend_builder_node` */
  function BuilderDelta(s: AgentState, b: Builders.Builder, r: Builders.BuilderResult): (d: Delta)
    ensures ReducerOnly(d) && d.generatedFiles == Some(r.files)
    ensures d.status.None? && d.currentPhase.None? && d.currentAgent.None?
  {
    var fixes := FixInstructions(s.integrationFixes, BuilderName(b));
    NoChange.(generatedFiles := Some(r.files),
              decisionsLog := [LogDecision(s, Builders.Label(b), "building", BuilderDecision(b, |r.files|, fixes != []), Paths(r.files))],
              activityLog := [Activity(Builders.Label(b)), Activity(Builders.Label(b))])
  }

  /** A builder node writes only the reducer fields (the generated files and
      the logs), so the two builders of one step never conflict; its
      decision says "(fix)" exactly when the validator sent it fixes. */
  lemma BuilderDeltaShape(s: AgentState, b: Builders.Builder, r: Builders.BuilderResult)
    ensures ReducerOnly(BuilderDelta(s, b, r))
    ensures BuilderDelta(s, b, r).status.None? && BuilderDelta(s, b, r).currentPhase.None?
    ensures BuilderDelta(s, b, r).currentAgent.None?
    ensures Apply(s, BuilderDelta(s, b, r)).generatedFiles == Reducers.MergedFiles(s.generatedFiles, r.files)
    ensures EndsWith(BuilderDelta(s, b, r).decisionsLog[0].decision, " (fix)") <==>
      FixInstructions(s.integrationFixes, BuilderName(b)) != []
  {
    BuilderDecisionMarksFix(b, |r.files|, FixInstructions(s.integrationFixes, BuilderName(b)) != []);
  }

  lemma BuilderDecisionMarksFix(b: Builders.Builder, count: nat, fixMode: bool)
    ensures EndsWith(BuilderDecision(b, count, fixMode), " (fix)") <==> fixMode
  {
    var text := BuilderDecision(b, count, fixMode);
    if !fixMode {
      assert text[|text| - 1] == 's';
    } else {
      assert text[|text| - 6..] == " (fix)";
    }
  }

  // ---------------------------------------------------------------------
  // QA
  // ---------------------------------------------------------------------

  /** `qa_node`: the test files are merged into the generated files by path,
      and the test cases appended to those of earlier passes. */
  function QaDelta(s: AgentState, r: QaAgent.QaResult): (d: Delta)
    ensures KeepsControl(d) && d.testCases == r.testCases && d.generatedFiles == Some(r.testFiles)
    ensures d.testResults == Some(Some(r.testResults))
  {
    NoChange.(testCases := r.testCases, testResults := Some(Some(r.testResults)), generatedFiles := Some(r.testFiles),
              currentAgent := Some("qa_agent"),
              decisionsLog := [LogDecision(s, "QA Agent", "qa", "Generated " + NatToDecimal(|r.testCases|) + " test cases",
                                           TestCaseIds(r.testCases))],
              activityLog := [Activity("QA Agent"), Activity("QA Agent")])
  }

  /** Test cases accumulate: a second QA pass (after a fix cycle) keeps the
      first pass's cases and adds its own. */
  lemma QaAppendsCases(s: AgentState, r: QaAgent.QaResult)
    ensures Apply(s, QaDelta(s, r)).testCases == s.testCases + r.testCases
    ensures Apply(s, QaDelta(s, r)).generatedFiles == Reducers.MergedFiles(s.generatedFiles, r.testFiles)
    ensures KeepsControl(QaDelta(s, r))
  {
  }

  // ---------------------------------------------------------------------
  // Integration validation
  // ---------------------------------------------------------------------

  /** The paths of the fixes, read with `fix["path"]`; `None` when one has
      no path. */
  function FixPaths(fixes: seq<Fix>): (r: Option<seq<string>>)
    ensures r.Some? <==> forall f :: f in fixes ==> f.path.Some?
    ensures r.Some? ==> |r.value| == |fixes| && forall i :: 0 <= i < |fixes| ==> r.value[i] == fixes[i].path.value
    decreases |fixes|
  {
    if fixes == [] then Some([])
    else
      var n := |fixes| - 1;
      match FixPaths(fixes[..n])
      case None => None
      case Some(ps) => if fixes[n].path.None? then None else Some(ps + [fixes[n].path.value])
  }

  /** `Score: S/100. PASSED`, or `FAILED - N fixes`. */
  function ValidatorDecision(v: IntegrationValidator.Validation): string {
    "Score: " + IntToDecimal(v.score) + "/100. " +
    (if v.isConsistent then "PASSED" else "FAILED - " + NatToDecimal(|v.fileFixes|) + " fixes")
  }

  /** `integration_validator_node`: counts the pass and stores the verdict;
      logging the fixes' paths raises `KeyError` when one has none. */
  function ValidatorDelta(s: AgentState, v: IntegrationValidator.Validation): (o: Outcome<Delta>)
    ensures o.Crashed? <==> exists f :: f in v.fileFixes && f.path.None?
    ensures o.Done? ==>
      o.value.integrationIteration == Some(s.integrationIteration + 1)
      && o.value.integrationValid == Some(v.isConsistent) && o.value.integrationFixes == Some(v.fileFixes)
      && o.value.planningIteration.None? && o.value.status.None? && o.value.currentPhase.None?
  {
    match FixPaths(v.fileFixes)
    case None => Crashed("KeyError")
    case Some(paths) =>
      Done(NoChange.(integrationValid := Some(v.isConsistent), integrationScore := Some(v.score),
                     integrationIssues := Some(v.issues), integrationFixes := Some(v.fileFixes),
                     integrationIteration := Some(s.integrationIteration + 1),
                     currentAgent := Some("integration_validator"),
                     decisionsLog := [LogDecision(s, "Integration Validator (Architect)", "integration", ValidatorDecision(v), paths)],
                     activityLog := [Activity("Integration Validator"), Activity("Integration Validator")]))
  }

  /** The validator node adds one to the integration counter and stores the
      verdict and the fixes, raising exactly when a fix has no path. */
  lemma ValidatorCounts(s: AgentState, v: IntegrationValidator.Validation)
    ensures ValidatorDelta(s, v).Crashed? <==> exists f :: f in v.fileFixes && f.path.None?
    ensures ValidatorDelta(s, v).Done? ==>
      var t := Apply(s, ValidatorDelta(s, v).value);
      t.integrationIteration == s.integrationIteration + 1 && t.integrationValid == v.isConsistent &&
      t.integrationFixes == v.fileFixes && t.integrationScore == v.score &&
      t.planningIteration == s.planningIteration && t.planningConverged == s.planningConverged &&
      t.status == s.status && t.currentPhase == s.currentPhase
  {
  }

  /** A rejection never makes the node raise: the validator only rejects
      with fixes that all name a path. */
  lemma RejectionNeverFaults(s: AgentState, techSpec: Option<TechSpec>, reply: Attempt<IntegrationValidator.Answer>,
                             v: IntegrationValidator.Validation)
    requires IntegrationValidator.Validate(techSpec, reply) == Done(v)
    requires !v.isConsistent
    ensures ValidatorDelta(s, v).Done?
  {
    IntegrationValidator.ValidateMeaning(techSpec, reply);
    ValidatorCounts(s, v);
  }

  /** An approval carrying a fix without a path makes the node raise. */
  lemma ApprovalWithPathlessFixFaults(s: AgentState)
    ensures ValidatorDelta(s, IntegrationValidator.Validation(true, [], [Fix(None, Some("backend_builder"), None)], 90, ""))
      == Crashed("KeyError")
  {
    ValidatorCounts(s, IntegrationValidator.Validation(true, [], [Fix(None, Some("backend_builder"), None)], 90, ""));
  }

  /** `should_fix_or_continue(state)` */
  function ShouldFixOrContinue(s: AgentState): (r: string)
    ensures r == "hitl_gate_2" || r == "fan_out_builders"
    ensures r == "fan_out_builders" <==> !s.integrationValid && s.integrationIteration < s.integrationMaxIterations
  {
    if s.integrationValid then "hitl_gate_2"
    else if s.integrationIteration >= s.integrationMaxIterations then "hitl_gate_2"
    else "fan_out_builders"
  }

  // ---------------------------------------------------------------------
  // DevOps
  // ---------------------------------------------------------------------

  /** `devops_node`: stores the deployment files and completes the run. */
  function DevopsDelta(s: AgentState, r: DevopsAgent.DevopsResult): (d: Delta)
    ensures d.status == Some("completed") && d.currentPhase == Some("done") && d.deploymentReady == Some(true)
    ensures d.dockerFiles == Some(r.files) && d.generatedFiles.None? && d.integrationIteration.None?
  {
    NoChange.(dockerFiles := Some(r.files), deploymentReady := Some(true), currentPhase := Some("done"),
              status := Some("completed"), currentAgent := Some("devops_agent"),
              decisionsLog := [LogDecision(s, "DevOps Agent", "devops", "Generated deployment configuration", Paths(r.files))],
              activityLog := [Activity("DevOps Agent"), Activity("DevOps Agent"), Activity("Pipeline")])
  }

  /** The devops node marks the deployment ready and the run completed. */
  lemma DevopsCompletes(s: AgentState, r: DevopsAgent.DevopsResult)
    ensures var t := Apply(s, DevopsDelta(s, r));
      t.dockerFiles == r.files && t.deploymentReady && t.status == "completed" && t.currentPhase == "done" &&
      t.currentAgent == "devops_agent" && t.generatedFiles == s.generatedFiles &&
      t.planningIteration == s.planningIteration && t.integrationIteration == s.integrationIteration
  {
  }
}
