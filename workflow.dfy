/**
 * The pipeline graph and the engine that runs it. The topology is data
 * (the edges `create_workflow` adds); the engine is a step function over
 * checkpoints: every pending node runs against the same state, their
 * updates are applied one after the other (the two builders in either
 * order), and the pending nodes of the next step are the targets of the
 * edges leaving the nodes that ran, routed on the updated state. A run
 * halts before a human-approval gate unless it is being resumed, at the
 * end of the graph, or when a node raises.
 */
module Workflow {
  import opened Common
  import opened Artifacts
  import opened State
  import opened Nodes
  import Evaluator
  import Builders
  import BaAgent
  import PoAgent
  import ArchitectAgent
  import QaAgent
  import IntegrationValidator
  import DevopsAgent

  // ---------------------------------------------------------------------
  // Topology
  // ---------------------------------------------------------------------

  datatype Node =
    | BaNode | PoNode | ArchitectNode | PlanningEvaluator
    | HitlGate1 | BackendBuilder | FrontendBuilder | QaNode
    | IntegrationValidatorNode | FixDispatcher | HitlGate2 | DevopsNode

  datatype Target = Go(node: Node) | End

  datatype Router = PlanningRouter | FixRouter

  /** An edge added by `add_edge`, by `add_conditional_edges` with a router
      and its path map, or by `add_conditional_edges` with a fan-out. */
  datatype Edge = Plain(from: Node, to: Target) | Routed(from: Node, router: Router) | FanOut(from: Node)

  const Entry: Node := BaNode

  /** The edges of `create_workflow`, in the order they are added. */
  const Edges: seq<Edge> := [
    Plain(BaNode, Go(PoNode)), Plain(PoNode, Go(ArchitectNode)), Plain(ArchitectNode, Go(PlanningEvaluator)),
    Routed(PlanningEvaluator, PlanningRouter),
    FanOut(HitlGate1),
    Plain(BackendBuilder, Go(QaNode)), Plain(FrontendBuilder, Go(QaNode)),
    Plain(QaNode, Go(IntegrationValidatorNode)),
    Routed(IntegrationValidatorNode, FixRouter),
    FanOut(FixDispatcher),
    Plain(HitlGate2, Go(DevopsNode)), Plain(DevopsNode, End)]

  /** The nodes `compile_workflow` interrupts before. */
  predicate IsGate(n: Node) {
    n == HitlGate1 || n == HitlGate2
  }

  /** Some pending node is a gate. */
  predicate Gated(ns: seq<Node>)
    decreases |ns|
  {
    ns != [] && (IsGate(ns[0]) || Gated(ns[1..]))
  }

  /** `fan_out_to_builders` and `fix_fan_out_to_builders`: both send the
      whole state to the two builders. */
  function FanOutTargets(): seq<Target> {
    [Go(BackendBuilder), Go(FrontendBuilder)]
  }

  /** The path maps of the two conditional edges. */
  const PlanningPaths: map<string, Node> := map["hitl_gate_1" := HitlGate1, "ba_node" := BaNode]
  const FixPaths: map<string, Node> := map["hitl_gate_2" := HitlGate2, "fan_out_builders" := FixDispatcher]

  function Route(r: Router, s: AgentState): Node {
    match r
    case PlanningRouter => PlanningPaths[ShouldContinuePlanning(s)]
    case FixRouter => FixPaths[ShouldFixOrContinue(s)]
  }

  function EdgeTargets(e: Edge, s: AgentState): seq<Target> {
    match e
    case Plain(_, t) => [t]
    case Routed(_, r) => [Go(Route(r, s))]
    case FanOut(_) => FanOutTargets()
  }

  /** The edges leaving `n`, from the `i`-th edge on. */
  function EdgesFrom(n: Node, i: nat): seq<Edge>
    decreases |Edges| - i
  {
    if i >= |Edges| then []
    else if Edges[i].from == n then [Edges[i]] + EdgesFrom(n, i + 1)
    else EdgesFrom(n, i + 1)
  }

  function AllTargets(es: seq<Edge>, s: AgentState): seq<Target>
    decreases |es|
  {
    if es == [] then [] else EdgeTargets(es[0], s) + AllTargets(es[1..], s)
  }

  /** Where the graph goes after `n` ran, on the updated state `s`. */
  function Next(n: Node, s: AgentState): seq<Target> {
    AllTargets(EdgesFrom(n, 0), s)
  }

  /** A node with exactly one edge leaving it goes where that edge says. */
  lemma {:induction false} NextOfSingleEdge(n: Node, e: Edge, s: AgentState)
    requires EdgesFrom(n, 0) == [e]
    ensures Next(n, s) == EdgeTargets(e, s)
  {
    assert [e][1..] == [];
    assert AllTargets([e], s) == EdgeTargets(e, s) + AllTargets([], s);
  }

  /** The planning chain: BA, PO, architect, evaluator. */
  lemma PlanningChain(s: AgentState)
    ensures Next(BaNode, s) == [Go(PoNode)]
    ensures Next(PoNode, s) == [Go(ArchitectNode)]
    ensures Next(ArchitectNode, s) == [Go(PlanningEvaluator)]
  {
    SoleEdgeBa();
    SoleEdgePo();
    SoleEdgeArchitect();
    NextOfSingleEdge(BaNode, Plain(BaNode, Go(PoNode)), s);
    NextOfSingleEdge(PoNode, Plain(PoNode, Go(ArchitectNode)), s);
    NextOfSingleEdge(ArchitectNode, Plain(ArchitectNode, Go(PlanningEvaluator)), s);
  }

  /** The evaluator's two ways out: back to BA, or on to gate 1 once the
      plan has converged. */
  lemma EvaluatorExits(s: AgentState)
    ensures Next(PlanningEvaluator, s) == (if s.planningConverged then [Go(HitlGate1)] else [Go(BaNode)])
  {
    SoleEdgeEvaluator();
    NextOfSingleEdge(PlanningEvaluator, Routed(PlanningEvaluator, PlanningRouter), s);
  }

  /** Gate 1 and the fix dispatcher both fan out to the two builders. */
  lemma FanOuts(s: AgentState)
    ensures Next(HitlGate1, s) == FanOutTargets()
    ensures Next(FixDispatcher, s) == FanOutTargets()
  {
    SoleEdgeGate1();
    SoleEdgeDispatcher();
    NextOfSingleEdge(HitlGate1, FanOut(HitlGate1), s);
    NextOfSingleEdge(FixDispatcher, FanOut(FixDispatcher), s);
  }

  /** Both builders join at QA, and QA hands over to the validator. */
  lemma JoinAtQa(s: AgentState)
    ensures Next(BackendBuilder, s) == [Go(QaNode)]
    ensures Next(FrontendBuilder, s) == [Go(QaNode)]
    ensures Next(QaNode, s) == [Go(IntegrationValidatorNode)]
  {
    SoleEdgeBackend();
    SoleEdgeFrontend();
    SoleEdgeQa();
    NextOfSingleEdge(BackendBuilder, Plain(BackendBuilder, Go(QaNode)), s);
    NextOfSingleEdge(FrontendBuilder, Plain(FrontendBuilder, Go(QaNode)), s);
    NextOfSingleEdge(QaNode, Plain(QaNode, Go(IntegrationValidatorNode)), s);
  }

  /** The validator's two ways out: gate 2 once the build is consistent or
      the fix budget is spent, otherwise another fix cycle. */
  lemma ValidatorExits(s: AgentState)
    ensures Next(IntegrationValidatorNode, s) ==
      (if s.integrationValid || s.integrationIteration >= s.integrationMaxIterations then [Go(HitlGate2)] else [Go(FixDispatcher)])
  {
    SoleEdgeValidator();
    NextOfSingleEdge(IntegrationValidatorNode, Routed(IntegrationValidatorNode, FixRouter), s);
  }

  /** Gate 2 leads to devops. */
  lemma GateTwoToDevops(s: AgentState)
    ensures Next(HitlGate2, s) == [Go(DevopsNode)]
  {
    SoleEdgeGate2();
    NextOfSingleEdge(HitlGate2, Plain(HitlGate2, Go(DevopsNode)), s);
  }

  /** Devops is the last node. */
  lemma DevopsEnds(s: AgentState)
    ensures Next(DevopsNode, s) == [End]
  {
    SoleEdgeDevops();
    NextOfSingleEdge(DevopsNode, Plain(DevopsNode, End), s);
  }

  // The one edge leaving each node, read off `Edges`.

  lemma SoleEdgeBa() ensures EdgesFrom(BaNode, 0) == [Plain(BaNode, Go(PoNode))] {}
  lemma SoleEdgePo() ensures EdgesFrom(PoNode, 0) == [Plain(PoNode, Go(ArchitectNode))] {}
  lemma SoleEdgeArchitect() ensures EdgesFrom(ArchitectNode, 0) == [Plain(ArchitectNode, Go(PlanningEvaluator))] {}
  lemma SoleEdgeEvaluator() ensures EdgesFrom(PlanningEvaluator, 0) == [Routed(PlanningEvaluator, PlanningRouter)] {}
  lemma SoleEdgeGate1() ensures EdgesFrom(HitlGate1, 0) == [FanOut(HitlGate1)] {}
  lemma SoleEdgeBackend() ensures EdgesFrom(BackendBuilder, 0) == [Plain(BackendBuilder, Go(QaNode))] {}
  lemma SoleEdgeFrontend() ensures EdgesFrom(FrontendBuilder, 0) == [Plain(FrontendBuilder, Go(QaNode))] {}
  lemma SoleEdgeQa() ensures EdgesFrom(QaNode, 0) == [Plain(QaNode, Go(IntegrationValidatorNode))] {}
  lemma SoleEdgeValidator() ensures EdgesFrom(IntegrationValidatorNode, 0) == [Routed(IntegrationValidatorNode, FixRouter)] {}
  lemma SoleEdgeDispatcher() ensures EdgesFrom(FixDispatcher, 0) == [FanOut(FixDispatcher)] {}
  lemma SoleEdgeGate2() ensures EdgesFrom(HitlGate2, 0) == [Plain(HitlGate2, Go(DevopsNode))] {}
  lemma SoleEdgeDevops() ensures EdgesFrom(DevopsNode, 0) == [Plain(DevopsNode, End)] {}

  // ---------------------------------------------------------------------
  // One step
  // ---------------------------------------------------------------------

  /** A checkpoint: the state and the nodes pending for the next step. */
  datatype Checkpoint = Checkpoint(values: AgentState, next: seq<Node>)

  /** What the agents return in one step (only the results of the nodes
      that run are read), and the order in which the two builders' updates
      are applied. */
  datatype Results = Results(
    ba: BaAgent.BaResult, po: PoAgent.PoResult, architect: ArchitectAgent.ArchitectResult,
    evaluation: Evaluator.Evaluation,
    backend: Outcome<Builders.BuilderResult>, frontend: Outcome<Builders.BuilderResult>,
    qa: Outcome<QaAgent.QaResult>, validation: Outcome<IntegrationValidator.Validation>,
    devops: Outcome<DevopsAgent.DevopsResult>, backendFirst: bool)

  /** The update node `n` returns on state `s`. */
  function NodeDelta(n: Node, s: AgentState, r: Results): Outcome<Delta> {
    match n
    case BaNode => Done(BaDelta(s, r.ba))
    case PoNode => Done(PoDelta(s, r.po))
    case ArchitectNode => Done(ArchitectDelta(s, r.architect))
    case PlanningEvaluator => Done(EvaluatorDelta(s, r.evaluation))
    case HitlGate1 => Done(Gate1Delta(s))
    case BackendBuilder =>
      (match r.backend case Crashed(k) => Crashed(k) case Done(b) => Done(BuilderDelta(s, Builders.Backend, b)))
    case FrontendBuilder =>
      (match r.frontend case Crashed(k) => Crashed(k) case Done(b) => Done(BuilderDelta(s, Builders.Frontend, b)))
    case QaNode => (match r.qa case Crashed(k) => Crashed(k) case Done(q) => Done(QaDelta(s, q)))
    case IntegrationValidatorNode =>
      (match r.validation case Crashed(k) => Crashed(k) case Done(v) => ValidatorDelta(s, v))
    case FixDispatcher => Done(NoChange)
    case HitlGate2 => Done(Gate2Delta(s))
    case DevopsNode => (match r.devops case Crashed(k) => Crashed(k) case Done(d) => Done(DevopsDelta(s, d)))
  }

  /** Every node of the step runs on the same state; one that raises fails
      the whole step. */
  function RunNodes(nodes: seq<Node>, s: AgentState, r: Results): Outcome<seq<Delta>>
    decreases |nodes|
  {
    if nodes == [] then Done([])
    else
      match NodeDelta(nodes[0], s, r)
      case Crashed(k) => Crashed(k)
      case Done(d) =>
        match RunNodes(nodes[1..], s, r)
        case Crashed(k) => Crashed(k)
        case Done(ds) => Done([d] + ds)
  }

  function ApplyAll(s: AgentState, ds: seq<Delta>): (t: AgentState)
    ensures t.runId == s.runId && t.brief == s.brief
    ensures t.planningMaxIterations == s.planningMaxIterations && t.integrationMaxIterations == s.integrationMaxIterations
    decreases |ds|
  {
    if ds == [] then s else ApplyAll(Apply(s, ds[0]), ds[1..])
  }

  /** The pending nodes in the order their updates are applied. */
  function Order(next: seq<Node>, backendFirst: bool): seq<Node> {
    if backendFirst || |next| != 2 then next else [next[1], next[0]]
  }

  /** The targets of the nodes that ran, each node once. */
  function Targets(ran: seq<Node>, s: AgentState): seq<Target>
    decreases |ran|
  {
    if ran == [] then [] else Next(ran[0], s) + Targets(ran[1..], s)
  }

  function Pending(ts: seq<Target>): (r: seq<Node>)
    ensures forall n :: n in r <==> Go(n) in ts
    ensures forall i, j :: 0 <= i < j < |r| ==> r[i] != r[j]
    decreases |ts|
  {
    if ts == [] then []
    else
      var rest := Pending(ts[..|ts| - 1]);
      var t := ts[|ts| - 1];
      assert ts == ts[..|ts| - 1] + [t];
      if t.End? || t.node in rest then rest else rest + [t.node]
  }

  /** One superstep. */
  function Tick(cp: Checkpoint, r: Results): (o: Outcome<Checkpoint>)
    ensures o.Done? ==> o.value.values.runId == cp.values.runId && o.value.values.brief == cp.values.brief
    ensures o.Done? ==> forall i, j :: 0 <= i < j < |o.value.next| ==> o.value.next[i] != o.value.next[j]
  {
    match RunNodes(Order(cp.next, r.backendFirst), cp.values, r)
    case Crashed(k) => Crashed(k)
    case Done(ds) =>
      var s := ApplyAll(cp.values, ds);
      Done(Checkpoint(s, Pending(Targets(cp.next, s))))
  }

  /** A step with one pending node that does not raise. */
  lemma SingleTick(n: Node, s: AgentState, r: Results)
    requires NodeDelta(n, s, r).Done?
    ensures Tick(Checkpoint(s, [n]), r) ==
      Done(Checkpoint(Apply(s, NodeDelta(n, s, r).value), Pending(Next(n, Apply(s, NodeDelta(n, s, r).value)))))
  {
    var d := NodeDelta(n, s, r).value;
    var t := Apply(s, d);
    assert Order([n], r.backendFirst) == [n];
    assert RunNodes([n], s, r) == Done([d]) by {
      assert [n][1..] == [];
      assert RunNodes([n][1..], s, r) == Done([]);
      assert [d] + [] == [d];
    }
    assert ApplyAll(s, [d]) == t by {
      assert [d][1..] == [];
    }
    assert Targets([n], t) == Next(n, t) by {
      assert [n][1..] == [];
    }
  }

  // ---------------------------------------------------------------------
  // Runs
  // ---------------------------------------------------------------------

  datatype Halt = Paused | Finished | Faulted(kind: string) | OutOfResults

  /** Where a run stopped, why, and how many steps it took. */
  datatype RunResult = RunResult(last: Checkpoint, halt: Halt, steps: nat)

  /** What `_run_pipeline_background` records when a node raises: status
      `error` and an error entry; the pending nodes stay as they were. */
  function Fault(cp: Checkpoint, kind: string): Checkpoint {
    Checkpoint(Apply(cp.values, NoChange.(status := Some("error"), errors := [ErrorEntry(kind)])), cp.next)
  }

  /** `astream` until the next interrupt or the end; `resuming` skips the
      interrupt before the gate the run is resumed at. */
  function Run(cp: Checkpoint, rs: seq<Results>, resuming: bool): (r: RunResult)
    ensures r.steps <= |rs| && r.last.values.runId == cp.values.runId
    ensures r.halt == Finished ==> r.last.next == []
    ensures r.halt == Paused ==> Gated(r.last.next)
    ensures r.halt.Faulted? ==> r.last.values.status == "error"
    decreases |rs|
  {
    if cp.next == [] then RunResult(cp, Finished, 0)
    else if !resuming && Gated(cp.next) then RunResult(cp, Paused, 0)
    else if rs == [] then RunResult(cp, OutOfResults, 0)
    else
      match Tick(cp, rs[0])
      case Crashed(k) => RunResult(Fault(cp, k), Faulted(k), 1)
      case Done(c) => var rest := Run(c, rs[1..], false); rest.(steps := rest.steps + 1)
  }

  /** `start_run`: a fresh state with the entry node pending. */
  function StartRun(runId: string, brief: string, rs: seq<Results>): (r: RunResult)
    ensures r.steps <= |rs| && r.last.values.runId == runId
    ensures r.halt == Paused ==> Gated(r.last.next)
  {
    Run(Checkpoint(CreateInitialState(runId, brief), [Entry]), rs, false)
  }

  /** A run that is not resumed never executes a gate node: it stops before. */
  lemma {:induction false} GatesNeverRunUnresumed(cp: Checkpoint, rs: seq<Results>)
    requires Gated(cp.next)
    ensures Run(cp, rs, false) == RunResult(cp, Paused, 0)
  {
  }
}
