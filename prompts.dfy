/**
 * The one piece of prompt construction the pipeline's behaviour depends on:
 * whether the planning agents (business analyst, product owner, architect)
 * are shown feedback, and which. All three read `planning_iteration` and
 * `planning_feedback` from the state they are given; the evaluator writes
 * both after each pass, and a rejection at gate 1 writes the reviewer's
 * feedback and steps the iteration back.
 */
module Prompts {
  import opened Common
  import opened State
  import Evaluator
  import BaAgent
  import PoAgent
  import ArchitectAgent
  import Nodes
  import Routes

  /** The feedback block of a planning prompt: present exactly when this is
      not the first pass and the feedback is non-empty. */
  function FeedbackSection(iteration: int, feedback: string): (r: Option<string>)
    ensures r.Some? <==> iteration > 0 && feedback != ""
    ensures r.Some? ==> r.value == feedback
  {
    if iteration > 0 && feedback != "" then Some(feedback) else None
  }

  /** The feedback the three planning prompts show on state `s`, as written. */
  function PlanningFeedback(s: AgentState): Option<string> {
    FeedbackSection(s.planningIteration, s.planningFeedback)
  }

  /** The feedback they show with the condition on the iteration dropped:
      any non-empty feedback is shown. */
  function PlanningFeedbackCorrected(s: AgentState): (r: Option<string>)
    ensures r.Some? <==> s.planningFeedback != ""
    ensures r.Some? ==> r.value == s.planningFeedback
  {
    if s.planningFeedback != "" then Some(s.planningFeedback) else None
  }

  /** A run's first pass shows no feedback, in both readings. */
  lemma FirstPassShowsNoFeedback(runId: string, brief: string)
    ensures PlanningFeedback(CreateInitialState(runId, brief)) == None
    ensures PlanningFeedbackCorrected(CreateInitialState(runId, brief)) == None
  {
  }

  /** Within a pass the three planning agents see the same feedback: none
      of their nodes writes the iteration or the feedback. */
  lemma PassSeesOneFeedback(s: AgentState, ba: BaAgent.BaResult, po: PoAgent.PoResult,
                            arch: ArchitectAgent.ArchitectResult)
    ensures PlanningFeedback(Apply(s, Nodes.BaDelta(s, ba))) == PlanningFeedback(s)
    ensures PlanningFeedback(Apply(s, Nodes.PoDelta(s, po))) == PlanningFeedback(s)
    ensures PlanningFeedback(Apply(s, Nodes.ArchitectDelta(s, arch))) == PlanningFeedback(s)
    ensures PlanningFeedbackCorrected(Apply(s, Nodes.BaDelta(s, ba))) == PlanningFeedbackCorrected(s)
    ensures PlanningFeedbackCorrected(Apply(s, Nodes.PoDelta(s, po))) == PlanningFeedbackCorrected(s)
    ensures PlanningFeedbackCorrected(Apply(s, Nodes.ArchitectDelta(s, arch))) == PlanningFeedbackCorrected(s)
  {
  }

  /** After an evaluated pass the next pass is shown the evaluator's
      feedback whenever it is non-empty; the two readings agree there. */
  lemma EvaluatorFeedbackReachesNextPass(s: AgentState, e: Evaluator.Evaluation)
    requires s.planningIteration >= 0
    ensures var t := Apply(s, Nodes.EvaluatorDelta(s, e));
      PlanningFeedback(t) == (if e.feedback != "" then Some(e.feedback) else None) &&
      PlanningFeedbackCorrected(t) == PlanningFeedback(t)
  {
    Nodes.EvaluatorVerdict(s, e);
  }

  /** As written, the reviewer's feedback on a rejection at gate 1 reaches
      the next pass only when at least two passes had run: the iteration is
      stepped back first, and after a single pass it is back at 0. */
  lemma RejectionFeedbackAsWritten(s: AgentState, decision: string, text: string)
    requires Routes.IsRejection(decision) && text != ""
    ensures var t := Apply(s, Routes.GateOneUpdate(s, decision, Some(text)));
      t.planningFeedback == text &&
      PlanningFeedback(t) == (if s.planningIteration >= 2 then Some(text) else None)
  {
    var d := Routes.GateOneUpdate(s, decision, Some(text));
    assert d.planningFeedback == Some(text);
  }

  /** A plan that converged in its first pass and is then sent back with
      feedback: the stored feedback is shown to no planning agent. */
  lemma FirstPassRejectionLosesFeedback(s: AgentState)
    requires s.planningIteration == 1
    ensures var t := Apply(s, Routes.GateOneUpdate(s, "changes_requested", Some("add login")));
      t.planningFeedback == "add login" && t.planningIteration == 0 && PlanningFeedback(t) == None
  {
    RejectionFeedbackAsWritten(s, "changes_requested", "add login");
  }

  /** Corrected, the reviewer's feedback on a rejection always reaches the
      next pass, however many passes had run. */
  lemma RejectionFeedbackReachesNextPass(s: AgentState, decision: string, text: string)
    requires Routes.IsRejection(decision) && text != ""
    ensures PlanningFeedbackCorrected(Apply(s, Routes.GateOneUpdate(s, decision, Some(text)))) == Some(text)
  {
    var d := Routes.GateOneUpdate(s, decision, Some(text));
    assert d.planningFeedback == Some(text);
  }
}
