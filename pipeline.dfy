/**
 * The runs the program makes. `Workflow` runs the graph on whatever agent
 * results it is handed; here every node's result is what its agent returns
 * on the state of that step, with the arguments the node passes, so a run
 * is determined by the language model's replies alone. Every such run is a
 * run of `Workflow`, so the engine's theorems hold for it, and the lemmas
 * below add what the agents themselves guarantee.
 */
module Pipeline {
  import opened Common
  import opened Artifacts
  import opened State
  import opened Nodes
  import opened Workflow
  import Termination
  import Routes
  import Prompts
  import BaAgent
  import PoAgent
  import ArchitectAgent
  import Evaluator
  import Builders
  import QaAgent
  import IntegrationValidator
  import DevopsAgent

  /** The language model's replies in one step. A planning agent's reply may
      depend on the feedback its prompt shows; an agent that makes one call
      per file gets one reply per call, by call number; `setRepr` is how
      Python prints a set, which the evaluator's coverage message uses. */
  datatype Replies = Replies(
    ba: Option<string> -> LlmReply<BaAgent.BaReply>,
    po: Option<string> -> LlmReply<PoAgent.PoReply>,
    techSpec: Option<string> -> ArchitectAgent.Json<ArchitectAgent.SpecReply>,
    builderSpecs: ArchitectAgent.Json<ArchitectAgent.BuilderSpecsReply>,
    evaluation: LlmReply<Evaluator.EvalReply>, setRepr: set<string> -> string,
    backend: nat -> Attempt<Builders.BuildReply>, frontend: nat -> Attempt<Builders.BuildReply>,
    qa: nat -> Attempt<QaAgent.QaReply>, validation: Attempt<IntegrationValidator.Answer>,
    devops: nat -> Attempt<Builders.BuildReply>, backendFirst: bool)

  /** The replies to the calls numbered `0 .. n-1`. */
  function Calls<R>(f: nat -> R, n: nat): (r: seq<R>)
    ensures |r| == n
  {
    seq(n, i requires 0 <= i < n => f(i))
  }

  /** The messages of the evaluator's structural issues on `s`. */
  function IssueMessages(s: AgentState, setRepr: set<string> -> string): (r: seq<string>)
    ensures |r| == |Evaluator.ExpectedIssues(s.requirements, s.userStories, s.techSpec, s.inception)|
  {
    var issues := Evaluator.ExpectedIssues(s.requirements, s.userStories, s.techSpec, s.inception);
    seq(|issues|, i requires 0 <= i < |issues| => Evaluator.IssueMessage(issues[i], setRepr))
  }

  /** What a builder returns on `s`: one reply per file it selects. */
  function BuilderAnswer(s: AgentState, b: Builders.Builder, own: Option<BuilderSpec>,
                         calls: nat -> Attempt<Builders.BuildReply>): Outcome<Builders.BuilderResult>
  {
    var ctx := BuilderContext(s, b);
    var selected := Builders.Selected(ctx, own, Builders.Corrected);
    Builders.Build(ctx, own, Calls(calls, if selected.Done? then |selected.value| else 0), Builders.Corrected)
  }

  /** What the QA agent returns on `s`: one reply per test spec. */
  function QaAnswer(s: AgentState, calls: nat -> Attempt<QaAgent.QaReply>): Outcome<QaAgent.QaResult> {
    var specs := QaAgent.TestSpecsFor(s.qaSpec, s.generatedFiles);
    QaAgent.ExpectedQa(s.userStories, specs, s.techSpec.Some?, Calls(calls, |specs|))
  }

  /** What the DevOps agent returns on `s`: one reply per file spec. */
  function DevopsAnswer(s: AgentState, calls: nat -> Attempt<Builders.BuildReply>): Outcome<DevopsAgent.DevopsResult> {
    var specs := DevopsAgent.FileSpecs(s.devopsSpec, s.techSpec);
    DevopsAgent.Devops(s.devopsSpec, s.techSpec, Calls(calls, if specs.Done? then |specs.value| else 0),
                       Builders.Corrected)
  }

  /** What every agent returns on state `s`, given what its node passes it:
      the planning agents see the feedback their prompts show. */
  function AgentResults(s: AgentState, q: Replies): Results {
    var feedback := Prompts.PlanningFeedbackCorrected(s);
    Results(
      BaAgent.Answer(s.brief, s.planningIteration, q.ba(feedback)),
      PoAgent.Answer(s.requirements, s.planningIteration, q.po(feedback)),
      ArchitectAgent.RunArchitectAgent(s.planningIteration, q.techSpec(feedback), q.builderSpecs),
      Evaluator.EvaluatePlanning(IssueMessages(s, q.setRepr), q.evaluation),
      BuilderAnswer(s, Builders.Backend, s.backendSpec, q.backend),
      BuilderAnswer(s, Builders.Frontend, s.frontendSpec, q.frontend),
      QaAnswer(s, q.qa),
      IntegrationValidator.Validate(s.techSpec, q.validation),
      DevopsAnswer(s, q.devops),
      q.backendFirst)
  }

  /** The run the program makes from `cp`: step `k` reads the replies
      `qs[k]`, and its nodes read their agents' results on the state the
      step starts from. The lemmas below hold for `RunWith` on any agents,
      so for this run in particular. */
  function RunOn(cp: Checkpoint, qs: seq<Replies>, resuming: bool): RunResult {
    RunWith(AgentResults, cp, qs, resuming)
  }

  /** The run made from `cp` by nodes whose agents answer `agents(s, q)` on
      the state `s` a step starts from and that step's replies `q`. */
  function RunWith(agents: (AgentState, Replies) -> Results, cp: Checkpoint, qs: seq<Replies>,
                   resuming: bool): RunResult
    decreases |qs|
  {
    if cp.next == [] then RunResult(cp, Finished, 0)
    else if !resuming && Gated(cp.next) then RunResult(cp, Paused, 0)
    else if qs == [] then RunResult(cp, OutOfResults, 0)
    else
      match Tick(cp, agents(cp.values, qs[0]))
      case Crashed(k) => RunResult(Fault(cp, k), Faulted(k), 1)
      case Done(c) => var rest := RunWith(agents, c, qs[1..], false); rest.(steps := rest.steps + 1)
  }

  /** The agent results such a run reads, one per element of `qs`; once the
      run has stopped they are read on the state it stopped at. */
  function Along(agents: (AgentState, Replies) -> Results, cp: Checkpoint, qs: seq<Replies>,
                 resuming: bool): (rs: seq<Results>)
    ensures |rs| == |qs|
    decreases |qs|
  {
    if qs == [] then []
    else
      var r := agents(cp.values, qs[0]);
      if cp.next == [] || (!resuming && Gated(cp.next)) then [r] + Along(agents, cp, qs[1..], resuming)
      else
        match Tick(cp, r)
        case Crashed(_) => [r] + Along(agents, cp, qs[1..], resuming)
        case Done(c) => [r] + Along(agents, c, qs[1..], false)
  }

  /** A run whose agents answer from the state of each step, the program's
      among them, is a run of the engine on the results they return. */
  lemma {:induction false} ProgramRunIsEngineRun(agents: (AgentState, Replies) -> Results, cp: Checkpoint,
                                                 qs: seq<Replies>, resuming: bool)
    ensures RunWith(agents, cp, qs, resuming) == Run(cp, Along(agents, cp, qs, resuming), resuming)
    decreases |qs|
  {
    if cp.next != [] && (resuming || !Gated(cp.next)) && qs != [] {
      var rs := Along(agents, cp, qs, resuming);
      assert rs[0] == agents(cp.values, qs[0]);
      match Tick(cp, rs[0])
      case Crashed(_) =>
      case Done(c) =>
        assert rs[1..] == Along(agents, c, qs[1..], false);
        ProgramRunIsEngineRun(agents, c, qs[1..], false);
    }
  }

  /** A fresh run pauses at gate 1 within twelve steps. */
  lemma ProgramStartPausesAtGate1(agents: (AgentState, Replies) -> Results, runId: string, brief: string,
                                  qs: seq<Replies>)
    requires |qs| >= 12
    ensures var r := RunWith(agents, Checkpoint(CreateInitialState(runId, brief), [Entry]), qs, false);
      r.halt == Paused && r.last.next == [HitlGate1] && r.steps <= 12 &&
      1 <= r.last.values.planningIteration <= 3
  {
    var cp := Checkpoint(CreateInitialState(runId, brief), [Entry]);
    ProgramRunIsEngineRun(agents, cp, qs, false);
    Termination.StartPausesAtGate1(runId, brief, Along(agents, cp, qs, false));
  }

  /** From BA a run reaches gate 1 within the planning budget. */
  lemma ProgramPlanningReachesGate1(agents: (AgentState, Replies) -> Results, cp: Checkpoint, qs: seq<Replies>)
    requires cp.next == [BaNode] && |qs| >= 4 * Termination.PlanningBudget(cp.values)
    ensures var r := RunWith(agents, cp, qs, false);
      r.halt == Paused && r.last.next == [HitlGate1] && r.last.values.planningConverged &&
      r.steps <= 4 * Termination.PlanningBudget(cp.values)
  {
    ProgramRunIsEngineRun(agents, cp, qs, false);
    Termination.PlanningReachesGate1(cp, Along(agents, cp, qs, false));
  }

  /** From the validator a run reaches gate 2 within the fix budget, or a
      node raises. */
  lemma ProgramFixLoopEnds(agents: (AgentState, Replies) -> Results, cp: Checkpoint, qs: seq<Replies>)
    requires cp.next == [IntegrationValidatorNode] && |qs| >= 4 * Termination.FixBudget(cp.values)
    ensures var r := RunWith(agents, cp, qs, false);
      r.steps <= 4 * Termination.FixBudget(cp.values) &&
      (r.halt.Faulted? || (r.halt == Paused && r.last.next == [HitlGate2]))
  {
    ProgramRunIsEngineRun(agents, cp, qs, false);
    Termination.FixLoopEnds(cp, Along(agents, cp, qs, false));
  }

  /** When the evaluator node's result is what the evaluator returns on the
      step's state, it sends a plan to gate 1 before the planning budget is
      spent only when the structural checks pass on it: a plan without
      stories, requirements, inception, technical specification or project
      files, or with too many uncovered requirements, goes back to BA. */
  lemma EvaluatorGateNeedsSoundPlan(cp: Checkpoint, r: Results, setRepr: set<string> -> string,
                                    reply: LlmReply<Evaluator.EvalReply>)
    requires cp.next == [PlanningEvaluator]
    requires r.evaluation == Evaluator.EvaluatePlanning(IssueMessages(cp.values, setRepr), reply)
    ensures Tick(cp, r).Done?
    ensures var c := Tick(cp, r).value;
      c.next == [HitlGate1] ==>
        Evaluator.ExpectedIssues(c.values.requirements, c.values.userStories, c.values.techSpec, c.values.inception) == [] ||
        c.values.planningIteration >= c.values.planningMaxIterations
  {
    var c := Termination.EvaluatorTick(cp, r);
    EvaluatorCounts(cp.values, r.evaluation);
  }

  /** When the validator node's result is what the validator returns on the
      step's state, the fix loop goes back to the builders only when the
      language model answered and explicitly rejected the build: every
      default the validator falls back on approves. */
  lemma FixLoopNeedsRejection(cp: Checkpoint, r: Results, answer: Attempt<IntegrationValidator.Answer>)
    requires cp.next == [IntegrationValidatorNode]
    requires r.validation == IntegrationValidator.Validate(cp.values.techSpec, answer)
    ensures var o := Tick(cp, r);
      o.Done? && o.value.next == [FixDispatcher] ==>
        answer.Returned? && answer.result.LlmOk? && answer.result.reply.isConsistent == Some(false)
  {
    var c := Termination.ValidatorTick(cp, r);
    IntegrationValidator.ValidateMeaning(cp.values.techSpec, answer);
    if r.validation.Done? && ValidatorDelta(cp.values, r.validation.value).Done? {
      ValidatorCounts(cp.values, r.validation.value);
    }
  }

  /** When the architect node's result is what the architect returns on the
      step's state, the plan then has a technical specification stamped
      with the current pass, whatever the language model replied. */
  lemma ArchitectStepStoresSpec(cp: Checkpoint, r: Results,
                                techSpec: ArchitectAgent.Json<ArchitectAgent.SpecReply>,
                                builderSpecs: ArchitectAgent.Json<ArchitectAgent.BuilderSpecsReply>)
    requires cp.next == [ArchitectNode]
    requires r.architect == ArchitectAgent.RunArchitectAgent(cp.values.planningIteration, techSpec, builderSpecs)
    ensures var o := Tick(cp, r);
      o.Done? && o.value.next == [PlanningEvaluator] && o.value.values.techSpec.Some? &&
      o.value.values.techSpec.value.iteration == cp.values.planningIteration
  {
    Termination.ArchitectTick(cp, r);
  }

  /** A rejection at gate 1 sends the run back to BA, whose prompt shows
      the reviewer's feedback, whatever the pass. */
  lemma RejectionFeedbackReachesBa(cp: Checkpoint, decision: string, text: string)
    requires HitlGate1 in cp.next && cp.values.planningConverged
    requires Routes.IsRejection(decision) && text != ""
    ensures var c := Routes.Decide(cp, decision, Some(text));
      c.next == [BaNode] && Prompts.PlanningFeedbackCorrected(c.values) == Some(text)
  {
    Routes.DecisionAtGate1(cp, decision, Some(text));
    Prompts.RejectionFeedbackReachesNextPass(cp.values, decision, text);
  }
}
