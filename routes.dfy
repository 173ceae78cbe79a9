/**
 * The HTTP layer over the graph (`backend/api/routes.py`): the run store and
 * the set of live background tasks, the status a poller sees, what a human
 * decision at a gate writes into the state, the activity feed's tail and
 * the lookup of one generated file.
 *
 * A background task (`_run_pipeline_background`) is one call of
 * `Server.RunInBackground`, made by the scheduler some time after the
 * request that created it; everything between its start and its end is one
 * atomic `Run`.
 */
module Routes {
  import opened Common
  import opened Text
  import opened Artifacts
  import opened State
  import opened Workflow
  import Termination

  // ---------------------------------------------------------------------
  // The status a poller sees
  // ---------------------------------------------------------------------

  /** `status`, `current_phase` and `current_agent` of a run. */
  datatype RunStatus = RunStatus(status: string, phase: string, agent: string)

  /** The three fields as stored; a run without a checkpoint has no values. */
  function Stored(values: Option<AgentState>): RunStatus {
    match values
    case None => RunStatus("unknown", "unknown", "")
    case Some(s) => RunStatus(s.status, s.currentPhase, s.currentAgent)
  }

  /** `_derive_run_status(run_id, values, next)`, with `active` standing for
      "a background task for the run exists and is not done". */
  function DeriveRunStatus(values: Option<AgentState>, next: seq<Node>, active: bool): (r: RunStatus)
    ensures HitlGate1 in next ==>
      r.agent == "hitl_gate_1" && r.status == (if active then "running" else "waiting_hitl") &&
      r.phase == (if active then "building" else "hitl_gate_1")
    ensures HitlGate1 !in next && HitlGate2 in next ==>
      r.agent == "hitl_gate_2" && r.status == (if active then "running" else "waiting_hitl") &&
      r.phase == (if active then "devops" else "hitl_gate_2")
    ensures active && next != [] ==> r.status == "running"
    ensures HitlGate1 !in next && HitlGate2 !in next && next == [] && Stored(values).status == "running" ==>
      r == RunStatus("completed", "done", "")
    ensures HitlGate1 !in next && HitlGate2 !in next && !(next == [] && Stored(values).status == "running") ==>
      r == (if active then Stored(values).(status := "running") else Stored(values))
  {
    var stored := Stored(values);
    if HitlGate1 in next then
      if active then RunStatus("running", "building", "hitl_gate_1")
      else RunStatus("waiting_hitl", "hitl_gate_1", "hitl_gate_1")
    else if HitlGate2 in next then
      if active then RunStatus("running", "devops", "hitl_gate_2")
      else RunStatus("waiting_hitl", "hitl_gate_2", "hitl_gate_2")
    else if next == [] && stored.status == "running" then RunStatus("completed", "done", "")
    else if active then stored.(status := "running")
    else stored
  }

  /** A run is interrupted exactly when one of the two gates is pending. */
  lemma {:induction false} GatedNamesAGate(ns: seq<Node>)
    ensures Gated(ns) <==> HitlGate1 in ns || HitlGate2 in ns
    decreases |ns|
  {
    if ns != [] {
      GatedNamesAGate(ns[1..]);
      assert ns == [ns[0]] + ns[1..];
    }
  }

  // ---------------------------------------------------------------------
  // Where a run can stop
  // ---------------------------------------------------------------------

  /** The pending nodes of any checkpoint the engine writes: none, one, or
      the two builders. */
  predicate Shaped(ns: seq<Node>) {
    |ns| <= 1 || ns == [BackendBuilder, FrontendBuilder]
  }

  /** A gate is only ever pending alone. */
  lemma ShapedGate(ns: seq<Node>)
    requires Shaped(ns)
    ensures Gated(ns) ==> ns == [HitlGate1] || ns == [HitlGate2]
  {
    if ns == [BackendBuilder, FrontendBuilder] {
      Termination.BuildersNotGated(ns);
    } else if ns != [] {
      assert ns == [ns[0]] && ns[1..] == [];
      assert !Gated(ns[1..]);
    }
  }

  /** The nodes left pending after one node ran. */
  lemma NextShaped(n: Node, t: AgentState)
    ensures Shaped(Pending(Next(n, t)))
  {
    match n
    case BaNode => PlanningChain(t); Termination.PendingSingle(PoNode);
    case PoNode => PlanningChain(t); Termination.PendingSingle(ArchitectNode);
    case ArchitectNode => PlanningChain(t); Termination.PendingSingle(PlanningEvaluator);
    case PlanningEvaluator =>
      EvaluatorExits(t); Termination.PendingSingle(HitlGate1); Termination.PendingSingle(BaNode);
    case HitlGate1 => FanOuts(t); Termination.PendingPair(BackendBuilder, FrontendBuilder);
    case FixDispatcher => FanOuts(t); Termination.PendingPair(BackendBuilder, FrontendBuilder);
    case BackendBuilder => JoinAtQa(t); Termination.PendingSingle(QaNode);
    case FrontendBuilder => JoinAtQa(t); Termination.PendingSingle(QaNode);
    case QaNode => JoinAtQa(t); Termination.PendingSingle(IntegrationValidatorNode);
    case IntegrationValidatorNode =>
      ValidatorExits(t); Termination.PendingSingle(HitlGate2); Termination.PendingSingle(FixDispatcher);
    case HitlGate2 => GateTwoToDevops(t); Termination.PendingSingle(DevopsNode);
    case DevopsNode => DevopsEnds(t); assert [End][..0] == [];
  }

  /** One pending node: the step fails exactly when the node raises. */
  lemma SingleNodeTick(n: Node, s: AgentState, r: Results)
    ensures NodeDelta(n, s, r).Crashed? ==> Tick(Checkpoint(s, [n]), r).Crashed?
    ensures Tick(Checkpoint(s, [n]), r).Done? ==> Shaped(Tick(Checkpoint(s, [n]), r).value.next)
  {
    if NodeDelta(n, s, r).Done? {
      SingleTick(n, s, r);
      NextShaped(n, Apply(s, NodeDelta(n, s, r).value));
    } else {
      assert Order([n], r.backendFirst) == [n];
    }
  }

  /** A step keeps the pending nodes in shape. */
  lemma {:induction false} TickShaped(cp: Checkpoint, r: Results)
    requires Shaped(cp.next)
    ensures Tick(cp, r).Done? ==> Shaped(Tick(cp, r).value.next)
  {
    if cp.next == [] {
      assert Targets(cp.next, ApplyAll(cp.values, [])) == [];
    } else if |cp.next| == 1 {
      var n := cp.next[0];
      assert cp == Checkpoint(cp.values, [n]);
      SingleNodeTick(n, cp.values, r);
    } else if r.backend.Done? && r.frontend.Done? {
      var c := Termination.BuildersDone(cp, r);
    } else {
      Termination.BuildersCrash(cp, r);
    }
  }

  /** How a run that was not resumed ended: paused with one gate pending,
      finished with nothing pending, or faulted with status `error` and the
      failed step still pending. */
  predicate Settled(r: RunResult) {
    (r.halt == Paused ==> r.last.next == [HitlGate1] || r.last.next == [HitlGate2]) &&
    (r.halt == Finished ==> r.last.next == []) &&
    (r.halt.Faulted? ==> r.last.next != [] && !Gated(r.last.next) && r.last.values.status == "error")
  }

  lemma {:induction false} RunSettles(cp: Checkpoint, rs: seq<Results>)
    requires Shaped(cp.next)
    ensures Settled(Run(cp, rs, false))
    ensures Shaped(Run(cp, rs, false).last.next)
    decreases |rs|
  {
    if cp.next == [] {
    } else if Gated(cp.next) {
      ShapedGate(cp.next);
    } else if rs != [] {
      match Tick(cp, rs[0])
      case Crashed(k) =>
        assert Run(cp, rs, false) == RunResult(Fault(cp, k), Faulted(k), 1);
      case Done(c) =>
        TickShaped(cp, rs[0]);
        RunSettles(c, rs[1..]);
        Termination.RunsOn(cp, rs, c);
    }
  }

  /** A resumed run takes its first step even at a gate, and is then an
      ordinary run. */
  lemma {:induction false} ResumedRunSettles(cp: Checkpoint, rs: seq<Results>)
    requires Shaped(cp.next)
    ensures Settled(Run(cp, rs, true))
    ensures Shaped(Run(cp, rs, true).last.next)
  {
    if Gated(cp.next) {
      ShapedGate(cp.next);
      if rs != [] {
        var n := cp.next[0];
        assert cp == Checkpoint(cp.values, [n]);
        SingleTick(n, cp.values, rs[0]);
        TickShaped(cp, rs[0]);
        RunSettles(Tick(cp, rs[0]).value, rs[1..]);
      }
    } else {
      ResumeOffGate(cp, rs);
      RunSettles(cp, rs);
    }
  }

  /** What a poller sees once the background task has ended: a paused run
      waits for a human at its gate, a finished run that never recorded
      another status is completed, and a faulted run reads `error`. */
  lemma ReportAfterRun(r: RunResult)
    requires Settled(r)
    ensures var rep := DeriveRunStatus(Some(r.last.values), r.last.next, false);
      (r.halt == Paused ==> rep.status == "waiting_hitl" && rep.phase == rep.agent &&
                            (rep.agent == "hitl_gate_1" || rep.agent == "hitl_gate_2")) &&
      (r.halt == Finished && r.last.values.status == "running" ==> rep == RunStatus("completed", "done", "")) &&
      (r.halt.Faulted? ==> rep.status == "error")
  {
    if r.halt.Faulted? {
      GatedNamesAGate(r.last.next);
    }
  }

  // ---------------------------------------------------------------------
  // A human decision at a gate
  // ---------------------------------------------------------------------

  /** `decision.feedback or ""` */
  function FeedbackText(feedback: Option<string>): string {
    feedback.GetOr("")
  }

  predicate IsRejection(decision: string) {
    decision == "rejected" || decision == "changes_requested"
  }

  /** The update written at gate 1; a rejection reopens planning one
      iteration back. */
  function GateOneUpdate(s: AgentState, decision: string, feedback: Option<string>): (d: Delta)
    ensures d.hitlGate1Status == Some(decision) && d.status == Some("running") && d.hitlGate2Status.None?
    ensures d.planningIteration.Some? <==> IsRejection(decision)
    ensures d.planningIteration.Some? ==>
      d.planningIteration.value >= 0 && (s.planningIteration >= 1 ==> d.planningIteration.value == s.planningIteration - 1)
    ensures d.planningConverged.Some? <==> IsRejection(decision)
  {
    var text := FeedbackText(feedback);
    var d := NoChange.(hitlGate1Status := Some(decision), hitlGate1Feedback := Some(text),
                       status := Some("running"), planningFeedback := Some(text));
    if IsRejection(decision) then
      d.(planningConverged := Some(false), planningIteration := Some(Max(0, s.planningIteration - 1)))
    else d
  }

  /** The update written at gate 2. */
  function GateTwoUpdate(decision: string, feedback: Option<string>): (d: Delta)
    ensures d.hitlGate2Status == Some(decision) && d.status == Some("running") && d.hitlGate1Status.None?
    ensures d.planningIteration.None? && d.planningConverged.None? && d.integrationIteration.None? && d.integrationValid.None?
  {
    NoChange.(hitlGate2Status := Some(decision), hitlGate2Feedback := Some(FeedbackText(feedback)),
              status := Some("running"))
  }

  /** The pending nodes after a decision: the engine re-runs the router of
      the node that ran before the gate on the updated state. */
  function Reroute(atGate1: bool, t: AgentState): seq<Node> {
    Pending(Next(if atGate1 then PlanningEvaluator else IntegrationValidatorNode, t))
  }

  /** `update_state` with the decision's update, at the gate pending in `cp`
      (gate 1 is checked first). */
  function Decide(cp: Checkpoint, decision: string, feedback: Option<string>): (c: Checkpoint)
    ensures c.values.status == "running" && c.values.runId == cp.values.runId
    ensures HitlGate1 in cp.next ==>
      c.values.hitlGate1Status == decision && c.values.hitlGate2Status == cp.values.hitlGate2Status
    ensures HitlGate1 !in cp.next ==>
      c.values.hitlGate2Status == decision && c.values.hitlGate1Status == cp.values.hitlGate1Status
  {
    var atGate1 := HitlGate1 in cp.next;
    var d := if atGate1 then GateOneUpdate(cp.values, decision, feedback) else GateTwoUpdate(decision, feedback);
    var t := Apply(cp.values, d);
    Checkpoint(t, Reroute(atGate1, t))
  }

  /** At gate 1 the decision, its feedback and status `running` are
      recorded; a rejection clears convergence and steps the planning
      iteration back, never below 0; an approval keeps both. Nothing else
      changes. */
  lemma GateOneApplied(s: AgentState, decision: string, feedback: Option<string>)
    ensures var t := Apply(s, GateOneUpdate(s, decision, feedback));
      t.hitlGate1Status == decision && t.hitlGate1Feedback == FeedbackText(feedback) &&
      t.planningFeedback == FeedbackText(feedback) && t.status == "running" &&
      t.planningConverged == (s.planningConverged && !IsRejection(decision)) &&
      t.planningIteration == (if IsRejection(decision) then Max(0, s.planningIteration - 1) else s.planningIteration) &&
      t == s.(hitlGate1Status := t.hitlGate1Status, hitlGate1Feedback := t.hitlGate1Feedback,
              planningFeedback := t.planningFeedback, status := t.status,
              planningConverged := t.planningConverged, planningIteration := t.planningIteration)
  {
  }

  /** At gate 2 only the gate-2 fields and status `running` are written; the
      planning and fix-loop fields are untouched. */
  lemma GateTwoApplied(s: AgentState, decision: string, feedback: Option<string>)
    ensures Apply(s, GateTwoUpdate(decision, feedback)) ==
      s.(hitlGate2Status := decision, hitlGate2Feedback := FeedbackText(feedback), status := "running")
  {
  }

  /** After a decision at gate 1 a rejection sends the run back to the BA
      node, while an approval of the converged plan leaves gate 1 pending, so
      the resumed run executes it. */
  lemma {:induction false} DecisionAtGate1(cp: Checkpoint, decision: string, feedback: Option<string>)
    requires HitlGate1 in cp.next && cp.values.planningConverged
    ensures var c := Decide(cp, decision, feedback);
      c.values == Apply(cp.values, GateOneUpdate(cp.values, decision, feedback)) &&
      c.next == (if IsRejection(decision) then [BaNode] else [HitlGate1])
  {
    var t := Apply(cp.values, GateOneUpdate(cp.values, decision, feedback));
    assert Decide(cp, decision, feedback) == Checkpoint(t, Reroute(true, t));
    GateOneApplied(cp.values, decision, feedback);
    EvaluatorExits(t);
    Termination.PendingSingle(BaNode);
    Termination.PendingSingle(HitlGate1);
  }

  /** At gate 2 the run stays at gate 2 whatever the decision, so even a
      rejection proceeds to DevOps. */
  lemma {:induction false} DecisionAtGate2(cp: Checkpoint, decision: string, feedback: Option<string>)
    requires HitlGate1 !in cp.next && HitlGate2 in cp.next
    requires cp.values.integrationValid || cp.values.integrationIteration >= cp.values.integrationMaxIterations
    ensures var c := Decide(cp, decision, feedback);
      c.values == Apply(cp.values, GateTwoUpdate(decision, feedback)) && c.next == [HitlGate2]
  {
    var t := Apply(cp.values, GateTwoUpdate(decision, feedback));
    assert Decide(cp, decision, feedback) == Checkpoint(t, Reroute(false, t));
    GateTwoApplied(cp.values, decision, feedback);
    ValidatorExits(t);
    Termination.PendingSingle(HitlGate2);
  }

  /** Between an approval at gate 1 and the resumed task's first step,
      gate 1 is still pending and a poller reads the run as building. */
  lemma ApprovalReadsBuilding(cp: Checkpoint, decision: string, feedback: Option<string>)
    requires HitlGate1 in cp.next && cp.values.planningConverged && !IsRejection(decision)
    ensures var c := Decide(cp, decision, feedback);
      DeriveRunStatus(Some(c.values), c.next, true) == RunStatus("running", "building", "hitl_gate_1") &&
      DeriveRunStatus(Some(c.values), c.next, false) == RunStatus("waiting_hitl", "hitl_gate_1", "hitl_gate_1")
  {
    DecisionAtGate1(cp, decision, feedback);
  }

  /** A resumed run whose pending nodes hold no gate is an ordinary run. */
  lemma ResumeOffGate(cp: Checkpoint, rs: seq<Results>)
    requires !Gated(cp.next)
    ensures Run(cp, rs, true) == Run(cp, rs, false)
  {
  }

  /** A run resumed at the BA node plans again and is back at gate 1
      within its planning budget. */
  lemma {:induction false} ResumedPlanningReachesGate1(c: Checkpoint, rs: seq<Results>)
    requires c.next == [BaNode] && |rs| >= 4 * Termination.PlanningBudget(c.values)
    ensures var r := Run(c, rs, true);
      r.halt == Paused && r.last.next == [HitlGate1] && r.steps <= 4 * Termination.PlanningBudget(c.values)
  {
    Termination.SingleNotGated(c.next);
    ResumeOffGate(c, rs);
    Termination.PlanningReachesGate1(c, rs);
  }

  /** After a rejection at gate 1 the resumed run plans again and is back at
      gate 1 within the planning passes the rollback leaves. */
  lemma RejectionReplans(cp: Checkpoint, decision: string, feedback: Option<string>, rs: seq<Results>)
    requires HitlGate1 in cp.next && cp.values.planningConverged && IsRejection(decision)
    requires |rs| >= 4 * Termination.PlanningBudget(Decide(cp, decision, feedback).values)
    ensures var c := Decide(cp, decision, feedback); var r := Run(c, rs, true);
      r.halt == Paused && r.last.next == [HitlGate1] &&
      r.steps <= 4 * Termination.PlanningBudget(c.values)
  {
    var c := Decide(cp, decision, feedback);
    DecisionAtGate1(cp, decision, feedback);
    assert c.next == [BaNode];
    ResumedPlanningReachesGate1(c, rs);
  }

  // ---------------------------------------------------------------------
  // The activity feed and the generated files
  // ---------------------------------------------------------------------

  /** `all_activity[-last:]`: the trailing `last` entries; all of them when
      `last` is 0 (`[-0:]` is the whole list) or at least the length, and a
      negative `last` drops the first `-last` entries instead. */
  function ActivityTail<T>(log: seq<T>, last: int): (r: seq<T>)
    ensures last == 0 || last >= |log| ==> r == log
    ensures 0 < last <= |log| ==> |r| == last && r == log[|log| - last..]
    ensures last < 0 ==> r == (if -last >= |log| then [] else log[-last..])
  {
    SliceFrom(log, -last)
  }

  /** `str.count(c)` for one character. */
  function CountChar(s: string, c: char): nat
    decreases |s|
  {
    if s == [] then 0 else (if s[0] == c then 1 else 0) + CountChar(s[1..], c)
  }

  /** The `lines` of a file: newlines plus one. */
  function LineCount(content: string): nat {
    CountChar(content, '\n') + 1
  }

  /** The line count is the number of pieces `content.split("\n")` gives,
      and those pieces joined by newlines are the content again. */
  lemma {:induction false} LinesOfContent(content: string)
    ensures |Split(content, '\n')| == LineCount(content)
    ensures Join("\n", Split(content, '\n')) == content
    decreases |content|
  {
    if content != [] {
      LinesOfContent(content[1..]);
    }
    JoinSplit(content, '\n');
  }

  /** The index of the first file with the given path. */
  function FindFile(files: seq<GeneratedFile>, path: string): (r: Option<nat>)
    ensures r.Some? ==> r.value < |files| && files[r.value].path == path &&
                        forall j :: 0 <= j < r.value ==> files[j].path != path
    ensures r.None? ==> forall j :: 0 <= j < |files| ==> files[j].path != path
    decreases |files|
  {
    if files == [] then None
    else if files[0].path == path then Some(0)
    else
      match FindFile(files[1..], path)
      case None => None
      case Some(i) => Some(i + 1)
  }

  /** `generated_files + docker_files` of a run; none before its first
      checkpoint. */
  function AllFiles(values: Option<AgentState>): seq<GeneratedFile> {
    match values
    case None => []
    case Some(s) => s.generatedFiles + s.dockerFiles
  }

  // ---------------------------------------------------------------------
  // The server
  // ---------------------------------------------------------------------

  datatype DecisionReply =
    | UnknownRun
    | AlreadyProcessed(phase: string, next: seq<Node>)
    | Resumed(phase: string)

  datatype ActivityPage = ActivityPage(entries: seq<ActivityEntry>, total: nat)

  datatype FileReply =
    | NoSuchRun
    | FileNotFound(path: string)
    | FileContent(file: GeneratedFile, lines: nat)

  function StoredValues(snapshot: Option<Checkpoint>): Option<AgentState> {
    match snapshot
    case None => None
    case Some(cp) => Some(cp.values)
  }

  function StoredNext(snapshot: Option<Checkpoint>): seq<Node> {
    match snapshot
    case None => []
    case Some(cp) => cp.next
  }

  /** The run store (`runs_store` with the graph's checkpointer behind it)
      and the live background tasks (`_running_tasks`). */
  class Server {
    /** The latest checkpoint of each known run; `None` before the run's
        background task has written one. */
    var runs: map<string, Option<Checkpoint>>
    /** Runs whose background task exists and is not done. */
    var active: set<string>

    /** Every stored checkpoint has none, one, or the two builders pending. */
    predicate Valid()
      reads this
    {
      ShapedStore(runs)
    }

    constructor ()
      ensures Valid()
      ensures runs == map[] && active == {}
    {
      runs := map[];
      active := {};
    }

    /** `start_run`: the run is stored without a checkpoint and its task is
        live until `RunInBackground` ends it. */
    method StartRun(runId: string) returns (reply: RunStatus)
      requires Valid()
      modifies this
      ensures Valid()
      ensures runs == old(runs)[runId := None] && active == old(active) + {runId}
      ensures reply == RunStatus("running", "planning", "BA Agent")
    {
      runs := runs[runId := None];
      active := active + {runId};
      reply := RunStatus("running", "planning", "BA Agent");
    }

    /** `_run_pipeline_background(run_id, initial_state)`: a fresh run from
        the entry node, or (without a state) a resumed one from the stored
        checkpoint; the checkpoint it ends on is stored (on a fault, with
        status `error` and the error recorded) and the task is done. */
    method RunInBackground(runId: string, initial: Option<AgentState>, rs: seq<Results>) returns (r: Option<RunResult>)
      requires Valid() && runId in runs
      modifies this
      ensures Valid()
      ensures active == old(active) - {runId}
      ensures initial.Some? ==> r == Some(Run(Checkpoint(initial.value, [Entry]), rs, false))
      ensures initial.None? && old(runs)[runId].Some? ==> r == Some(Run(old(runs)[runId].value, rs, true))
      ensures initial.None? && old(runs)[runId].None? ==> r.None?
      ensures r.Some? ==> runs == old(runs)[runId := Some(r.value.last)]
      ensures r.None? ==> runs == old(runs)
      ensures r.Some? ==> Settled(r.value)
    {
      var start := if initial.Some? then Some(Checkpoint(initial.value, [Entry])) else runs[runId];
      if start.Some? {
        var resuming := initial.None?;
        var result := Run(start.value, rs, resuming);
        if resuming {
          ResumedRunSettles(start.value, rs);
        } else {
          RunSettles(start.value, rs);
        }
        runs := runs[runId := Some(result.last)];
        r := Some(result);
      } else {
        r := None;
      }
      active := active - {runId};
    }

    /** `get_run`: the derived status of a known run. */
    method GetRun(runId: string) returns (r: Option<RunStatus>)
      ensures runId !in runs ==> r.None?
      ensures runId in runs ==>
        r == Some(DeriveRunStatus(StoredValues(runs[runId]), StoredNext(runs[runId]), runId in active))
    {
      if runId !in runs {
        return None;
      }
      var snapshot := runs[runId];
      r := Some(DeriveRunStatus(StoredValues(snapshot), StoredNext(snapshot), runId in active));
    }

    /** `submit_hitl_decision`: unknown runs and runs with no gate pending
        change nothing; otherwise the decision is written at the pending
        gate and a resume task is started. */
    method SubmitDecision(runId: string, decision: string, feedback: Option<string>) returns (reply: DecisionReply)
      requires Valid()
      modifies this
      ensures Valid()
      ensures runId !in old(runs) ==> reply == UnknownRun && runs == old(runs) && active == old(active)
      ensures runId in old(runs) && HitlGate1 !in StoredNext(old(runs)[runId]) && HitlGate2 !in StoredNext(old(runs)[runId]) ==>
        reply == AlreadyProcessed(Stored(StoredValues(old(runs)[runId])).phase, StoredNext(old(runs)[runId])) &&
        runs == old(runs) && active == old(active)
      ensures runId in old(runs) && (HitlGate1 in StoredNext(old(runs)[runId]) || HitlGate2 in StoredNext(old(runs)[runId])) ==>
        old(runs)[runId].Some? &&
        runs == Decided(old(runs), runId, decision, feedback) &&
        active == old(active) + {runId} &&
        reply == Resumed(if HitlGate1 in StoredNext(old(runs)[runId]) then "building" else "devops")
    {
      if runId !in runs {
        return UnknownRun;
      }
      var snapshot := runs[runId];
      var next := StoredNext(snapshot);
      var atGate1 := HitlGate1 in next;
      var atGate2 := HitlGate2 in next;
      if !atGate1 && !atGate2 {
        return AlreadyProcessed(Stored(StoredValues(snapshot)).phase, next);
      }
      DecisionStored(runs, runId, decision, feedback);
      runs := Decided(runs, runId, decision, feedback);
      active := active + {runId};
      reply := Resumed(if atGate1 then "building" else "devops");
    }

    /** `get_activity_log`: the tail of the activity feed and its full length. */
    method GetActivity(runId: string, last: int) returns (r: Option<ActivityPage>)
      ensures runId !in runs ==> r.None?
      ensures runId in runs ==>
        var log := match StoredValues(runs[runId]) case None => [] case Some(s) => s.activityLog;
        r == Some(ActivityPage(ActivityTail(log, last), |log|))
    {
      if runId !in runs {
        return None;
      }
      var log := match StoredValues(runs[runId]) case None => [] case Some(s) => s.activityLog;
      r := Some(ActivityPage(ActivityTail(log, last), |log|));
    }

    /** `get_file_content`: the first generated or Docker file with the
        path, with its line count. */
    method GetFileContent(runId: string, path: string) returns (reply: FileReply)
      ensures runId !in runs ==> reply == NoSuchRun
      ensures runId in runs ==>
        var files := AllFiles(StoredValues(runs[runId]));
        reply == match FindFile(files, path)
                 case None => FileNotFound(path)
                 case Some(i) => FileContent(files[i], LineCount(files[i].content))
    {
      if runId !in runs {
        return NoSuchRun;
      }
      var files := AllFiles(StoredValues(runs[runId]));
      var i := 0;
      while i < |files|
        invariant 0 <= i <= |files|
        invariant forall j :: 0 <= j < i ==> files[j].path != path
      {
        if files[i].path == path {
          return FileContent(files[i], LineCount(files[i].content));
        }
        i := i + 1;
      }
      return FileNotFound(path);
    }
  }

  /** The store once the decision is written at run `runId`'s pending gate. */
  function Decided(runs: map<string, Option<Checkpoint>>, runId: string, decision: string, feedback: Option<string>)
    : map<string, Option<Checkpoint>>
    requires runId in runs && runs[runId].Some?
  {
    runs[runId := Some(Decide(runs[runId].value, decision, feedback))]
  }

  /** Every stored checkpoint has none, one, or the two builders pending. */
  predicate ShapedStore(runs: map<string, Option<Checkpoint>>) {
    forall id :: id in runs && runs[id].Some? ==> Shaped(runs[id].value.next)
  }

  /** Storing a checkpoint in shape keeps the store in shape. */
  lemma StoreShaped(runs: map<string, Option<Checkpoint>>, id: string, cp: Option<Checkpoint>)
    requires ShapedStore(runs) && (cp.Some? ==> Shaped(cp.value.next))
    ensures ShapedStore(runs[id := cp])
  {
  }

  /** A decision written at a run's pending gate keeps the store in shape. */
  lemma DecisionStored(runs: map<string, Option<Checkpoint>>, runId: string, decision: string, feedback: Option<string>)
    requires ShapedStore(runs) && runId in runs
    requires HitlGate1 in StoredNext(runs[runId]) || HitlGate2 in StoredNext(runs[runId])
    ensures runs[runId].Some? && ShapedStore(Decided(runs, runId, decision, feedback))
  {
    var cp := runs[runId].value;
    GateAlone(cp.next);
    DecisionShaped(cp, decision, feedback);
    StoreShaped(runs, runId, Some(Decide(cp, decision, feedback)));
  }

  /** In a store in shape, a pending gate is pending alone. */
  lemma GateAlone(ns: seq<Node>)
    requires Shaped(ns) && (HitlGate1 in ns || HitlGate2 in ns)
    ensures ns == [HitlGate1] || ns == [HitlGate2]
  {
  }

  /** A decision at a gate leaves the pending nodes in shape. */
  lemma DecisionShaped(cp: Checkpoint, decision: string, feedback: Option<string>)
    requires cp.next == [HitlGate1] || cp.next == [HitlGate2]
    ensures Shaped(Decide(cp, decision, feedback).next)
  {
    var c := Decide(cp, decision, feedback);
    NextShaped(if HitlGate1 in cp.next then PlanningEvaluator else IntegrationValidatorNode, c.values);
  }
}
