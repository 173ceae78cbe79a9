/**
 * The shared state of a run (`AgentState`), the partial updates nodes
 * return (`Delta`), and how the graph engine folds an update into the state:
 * fields declared with a reducer go through it, every other field written by
 * the update is overwritten, and fields the update leaves out are kept.
 *
 * `create_initial_state` writes every key and no update removes one, so
 * every field is always present; `.get(key, default)` on the state therefore
 * always returns the stored value and is modelled as a field read.
 */
module State {
  import opened Common
  import opened Artifacts
  import opened Reducers

  datatype AgentState = AgentState(
    // Run metadata
    runId: string,
    brief: string,
    currentPhase: string,          // reducer: last non-empty
    currentAgent: string,          // reducer: last non-empty
    nextAgent: string,             // reducer: last non-empty
    status: string,                // reducer: last non-empty
    // Planning
    requirements: seq<Requirement>,
    inception: Option<Inception>,
    userStories: seq<UserStory>,
    techSpec: Option<TechSpec>,
    backendSpec: Option<BuilderSpec>,
    frontendSpec: Option<BuilderSpec>,
    qaSpec: Option<QaSpec>,
    devopsSpec: Option<BuilderSpec>,
    planningIteration: int,
    planningMaxIterations: int,
    planningFeedback: string,
    planningConverged: bool,
    // Gate 1
    hitlGate1Status: string,
    hitlGate1Feedback: string,
    // Building
    generatedFiles: seq<GeneratedFile>,  // reducer: merge by path
    testCases: seq<TestCase>,            // reducer: append
    testResults: Option<TestResults>,
    // Integration validation
    integrationValid: bool,
    integrationScore: int,
    integrationIssues: seq<Issue>,
    integrationFixes: seq<Fix>,
    integrationIteration: int,
    integrationMaxIterations: int,
    // Gate 2
    hitlGate2Status: string,
    hitlGate2Feedback: string,
    // DevOps
    dockerFiles: seq<GeneratedFile>,
    deploymentReady: bool,
    // Diagrams
    erDiagramSvg: string,
    sequenceDiagramsSvg: seq<SvgDiagram>,
    // Logs
    decisionsLog: seq<DecisionEntry>,    // reducer: append
    activityLog: seq<ActivityEntry>,     // reducer: append
    errors: seq<ErrorEntry>,             // reducer: append
    retryCount: int)

  /** The update a node returns: `None` (or an empty list for an appended
      log) means the key is absent from the returned dictionary. A written
      optional field carries the written value, which may itself be `None`. */
  datatype Delta = Delta(
    currentPhase: Option<string>,
    currentAgent: Option<string>,
    status: Option<string>,
    requirements: Option<seq<Requirement>>,
    inception: Option<Inception>,
    userStories: Option<seq<UserStory>>,
    techSpec: Option<TechSpec>,
    backendSpec: Option<Option<BuilderSpec>>,
    frontendSpec: Option<Option<BuilderSpec>>,
    qaSpec: Option<Option<QaSpec>>,
    devopsSpec: Option<Option<BuilderSpec>>,
    planningIteration: Option<int>,
    planningFeedback: Option<string>,
    planningConverged: Option<bool>,
    hitlGate1Status: Option<string>,
    hitlGate1Feedback: Option<string>,
    generatedFiles: Option<seq<GeneratedFile>>,
    testCases: seq<TestCase>,
    testResults: Option<Option<TestResults>>,
    integrationValid: Option<bool>,
    integrationScore: Option<int>,
    integrationIssues: Option<seq<Issue>>,
    integrationFixes: Option<seq<Fix>>,
    integrationIteration: Option<int>,
    hitlGate2Status: Option<string>,
    hitlGate2Feedback: Option<string>,
    dockerFiles: Option<seq<GeneratedFile>>,
    deploymentReady: Option<bool>,
    erDiagramSvg: Option<string>,
    sequenceDiagramsSvg: Option<seq<SvgDiagram>>,
    decisionsLog: seq<DecisionEntry>,
    activityLog: seq<ActivityEntry>,
    errors: seq<ErrorEntry>)

  /** The empty update `{}`. */
  const NoChange := Delta(
    None, None, None, None, None, None, None, None, None, None, None, None, None, None,
    None, None, None, [], None, None, None, None, None, None, None, None, None, None,
    None, None, [], [], [])

  /** Overwrite a plain field when the update writes it. */
  function Put<T>(prev: T, written: Option<T>): T {
    match written
    case Some(v) => v
    case None => prev
  }

  /** Reducer fields reduce only when the update writes them. */
  function PutStr(prev: string, written: Option<string>): string {
    match written
    case Some(v) => LastNonEmpty(prev, v)
    case None => prev
  }

  function PutFiles(prev: seq<GeneratedFile>, written: Option<seq<GeneratedFile>>): seq<GeneratedFile> {
    match written
    case Some(v) => MergedFiles(prev, v)
    case None => prev
  }

  /** The state after the engine applies one node's update. */
  function Apply(s: AgentState, d: Delta): (t: AgentState)
    ensures t.runId == s.runId && t.brief == s.brief && t.retryCount == s.retryCount
    ensures t.planningMaxIterations == s.planningMaxIterations && t.integrationMaxIterations == s.integrationMaxIterations
  {
    s.(
      currentPhase := PutStr(s.currentPhase, d.currentPhase),
      currentAgent := PutStr(s.currentAgent, d.currentAgent),
      status := PutStr(s.status, d.status),
      requirements := Put(s.requirements, d.requirements),
      inception := if d.inception.Some? then d.inception else s.inception,
      userStories := Put(s.userStories, d.userStories),
      techSpec := if d.techSpec.Some? then d.techSpec else s.techSpec,
      backendSpec := Put(s.backendSpec, d.backendSpec),
      frontendSpec := Put(s.frontendSpec, d.frontendSpec),
      qaSpec := Put(s.qaSpec, d.qaSpec),
      devopsSpec := Put(s.devopsSpec, d.devopsSpec),
      planningIteration := Put(s.planningIteration, d.planningIteration),
      planningFeedback := Put(s.planningFeedback, d.planningFeedback),
      planningConverged := Put(s.planningConverged, d.planningConverged),
      hitlGate1Status := Put(s.hitlGate1Status, d.hitlGate1Status),
      hitlGate1Feedback := Put(s.hitlGate1Feedback, d.hitlGate1Feedback),
      generatedFiles := PutFiles(s.generatedFiles, d.generatedFiles),
      testCases := MergeAppend(s.testCases, d.testCases),
      testResults := Put(s.testResults, d.testResults),
      integrationValid := Put(s.integrationValid, d.integrationValid),
      integrationScore := Put(s.integrationScore, d.integrationScore),
      integrationIssues := Put(s.integrationIssues, d.integrationIssues),
      integrationFixes := Put(s.integrationFixes, d.integrationFixes),
      integrationIteration := Put(s.integrationIteration, d.integrationIteration),
      hitlGate2Status := Put(s.hitlGate2Status, d.hitlGate2Status),
      hitlGate2Feedback := Put(s.hitlGate2Feedback, d.hitlGate2Feedback),
      dockerFiles := Put(s.dockerFiles, d.dockerFiles),
      deploymentReady := Put(s.deploymentReady, d.deploymentReady),
      erDiagramSvg := Put(s.erDiagramSvg, d.erDiagramSvg),
      sequenceDiagramsSvg := Put(s.sequenceDiagramsSvg, d.sequenceDiagramsSvg),
      decisionsLog := MergeAppend(s.decisionsLog, d.decisionsLog),
      activityLog := MergeAppend(s.activityLog, d.activityLog),
      errors := MergeAppend(s.errors, d.errors))
  }

  /** The update writes only fields that have a reducer, so two such updates
      of one step may be applied in either order without a conflict. */
  predicate ReducerOnly(d: Delta) {
    d == NoChange.(currentPhase := d.currentPhase, currentAgent := d.currentAgent, status := d.status,
                   generatedFiles := d.generatedFiles, testCases := d.testCases,
                   decisionsLog := d.decisionsLog, activityLog := d.activityLog, errors := d.errors)
  }

  /** Applying the empty update changes nothing: the `fix_dispatcher` node. */
  lemma ApplyNoChange(s: AgentState)
    ensures Apply(s, NoChange) == s
  {
  }

  /** Every log only grows: an update never removes a decision, an activity
      entry, an error or a test case. */
  lemma ApplyKeepsLogs(s: AgentState, d: Delta)
    ensures s.decisionsLog <= Apply(s, d).decisionsLog
    ensures s.activityLog <= Apply(s, d).activityLog
    ensures s.errors <= Apply(s, d).errors
    ensures s.testCases <= Apply(s, d).testCases
    ensures |Apply(s, d).activityLog| == |s.activityLog| + |d.activityLog|
  {
  }

  /** A reducer-only update leaves every other field as it was. */
  lemma ApplyReducerOnly(s: AgentState, d: Delta)
    requires ReducerOnly(d)
    ensures var t := Apply(s, d);
      t == s.(currentPhase := t.currentPhase, currentAgent := t.currentAgent, status := t.status,
              generatedFiles := t.generatedFiles, testCases := t.testCases,
              decisionsLog := t.decisionsLog, activityLog := t.activityLog, errors := t.errors)
  {
  }

  /** `create_initial_state(run_id, brief)` */
  function CreateInitialState(runId: string, brief: string): (s: AgentState)
    ensures s.runId == runId && s.brief == brief
    ensures s.planningIteration == 0 && s.integrationIteration == 0
    ensures s.planningMaxIterations == 3 && s.integrationMaxIterations == 2
    ensures !s.planningConverged && !s.integrationValid && !s.deploymentReady
    ensures s.hitlGate1Status == "pending" && s.hitlGate2Status == "pending"
    ensures s.requirements == [] && s.userStories == [] && s.generatedFiles == []
    ensures s.testCases == [] && s.dockerFiles == [] && s.integrationIssues == []
    ensures s.integrationFixes == [] && s.sequenceDiagramsSvg == []
    ensures s.decisionsLog == [] && s.activityLog == [] && s.errors == []
    ensures s.inception.None? && s.techSpec.None? && s.testResults.None?
    ensures s.backendSpec.None? && s.frontendSpec.None? && s.qaSpec.None? && s.devopsSpec.None?
    ensures s.status == "running" && s.currentPhase == "planning" && s.nextAgent == "ba_agent"
  {
    AgentState(
      runId := runId, brief := brief,
      currentPhase := "planning", currentAgent := "", nextAgent := "ba_agent", status := "running",
      requirements := [], inception := None, userStories := [], techSpec := None,
      backendSpec := None, frontendSpec := None, qaSpec := None, devopsSpec := None,
      planningIteration := 0, planningMaxIterations := 3, planningFeedback := "",
      planningConverged := false,
      hitlGate1Status := "pending", hitlGate1Feedback := "",
      generatedFiles := [], testCases := [], testResults := None,
      integrationValid := false, integrationScore := 0, integrationIssues := [],
      integrationFixes := [], integrationIteration := 0, integrationMaxIterations := 2,
      hitlGate2Status := "pending", hitlGate2Feedback := "",
      dockerFiles := [], deploymentReady := false,
      erDiagramSvg := "", sequenceDiagramsSvg := [],
      decisionsLog := [], activityLog := [], errors := [], retryCount := 0)
  }

  /** `log_decision(state, agent, phase, decision, justification, artifacts)`:
      the entry is stamped with the planning iteration the state is in. */
  function LogDecision(s: AgentState, agent: string, phase: string, decision: string, artifacts: seq<string>): (e: DecisionEntry)
    ensures e.iteration == s.planningIteration
    ensures e.agent == agent && e.phase == phase && e.decision == decision && e.artifacts == artifacts
  {
    DecisionEntry(agent, phase, decision, artifacts, s.planningIteration)
  }

  /** `activity(agent, icon, message, detail)`, reduced to its agent. */
  function Activity(agent: string): ActivityEntry {
    ActivityEntry(agent)
  }
}
