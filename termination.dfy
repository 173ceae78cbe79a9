/**
 * How far a run gets between two human decisions. The planning loop
 * (BA, PO, architect, evaluator) always reaches gate 1 when the planning
 * agents' replies have the shapes they ask for, and within a number of
 * passes the iteration budget bounds; the fix loop (validator, fix
 * dispatcher, both builders, QA) reaches gate 2 within the integration
 * budget unless a node raises on the way.
 *
 * Each node has two lemmas: `...Tick` says what one superstep from a
 * checkpoint with that node pending gives, `...Runs` turns it into a step
 * of the run with the counters the loops route on.
 */
module Termination {
  import opened Common
  import opened State
  import opened Nodes
  import opened Workflow
  import Builders

  /** `r` is the run `rest` with `k` more steps in front of it. */
  predicate Later(r: RunResult, rest: RunResult, k: nat) {
    r.last == rest.last && r.halt == rest.halt && r.steps == rest.steps + k
  }

  /** The counters the two loops route on. */
  predicate SameCounters(s: AgentState, t: AgentState) {
    t.planningIteration == s.planningIteration && t.planningConverged == s.planningConverged &&
    t.planningMaxIterations == s.planningMaxIterations &&
    t.integrationIteration == s.integrationIteration && t.integrationValid == s.integrationValid &&
    t.integrationMaxIterations == s.integrationMaxIterations
  }

  /** Planning passes left before the evaluator is forced to converge
      (one at least: a pass always runs). */
  function PlanningBudget(s: AgentState): nat {
    if s.planningMaxIterations - s.planningIteration >= 1 then s.planningMaxIterations - s.planningIteration else 1
  }

  /** Validator runs left before the fix budget is spent. */
  function FixBudget(s: AgentState): nat {
    if s.integrationMaxIterations - s.integrationIteration >= 1 then s.integrationMaxIterations - s.integrationIteration else 1
  }

  // ---------------------------------------------------------------------
  // Steps of a run
  // ---------------------------------------------------------------------

  /** A single target leaves that node pending; so do two targets naming
      the same node (the join at QA); two different targets leave both. */
  lemma PendingSingle(m: Node)
    ensures Pending([Go(m)]) == [m]
  {
    assert [Go(m)][..0] == [];
  }

  lemma PendingTwin(m: Node)
    ensures Pending([Go(m), Go(m)]) == [m]
  {
    assert [Go(m), Go(m)][..1] == [Go(m)];
    PendingSingle(m);
  }

  lemma PendingPair(m: Node, n: Node)
    requires m != n
    ensures Pending([Go(m), Go(n)]) == [m, n]
  {
    assert [Go(m), Go(n)][..1] == [Go(m)];
    PendingSingle(m);
  }

  /** A single pending node that is not a gate does not stop the run. */
  lemma SingleNotGated(ns: seq<Node>)
    requires |ns| == 1 && !IsGate(ns[0])
    ensures !Gated(ns)
  {
    assert ns[1..] == [];
    assert !Gated(ns[1..]);
  }

  /** Nor do the two builders. */
  lemma BuildersNotGated(ns: seq<Node>)
    requires ns == [BackendBuilder, FrontendBuilder]
    ensures !Gated(ns)
  {
    assert ns[1..] == [FrontendBuilder];
    assert ns[1..][1..] == [];
    assert !Gated(ns[1..][1..]);
    assert !Gated(ns[1..]);
  }

  /** A step in which no node raises is one step of the run. */
  lemma RunsOn(cp: Checkpoint, rs: seq<Results>, c: Checkpoint)
    requires cp.next != [] && !Gated(cp.next) && rs != []
    requires Tick(cp, rs[0]) == Done(c)
    ensures Later(Run(cp, rs, false), Run(c, rs[1..], false), 1)
  {
  }

  /** A step in which a node raises ends the run. */
  lemma RunsIntoFault(cp: Checkpoint, rs: seq<Results>, k: string)
    requires cp.next != [] && !Gated(cp.next) && rs != []
    requires Tick(cp, rs[0]) == Crashed(k)
    ensures Run(cp, rs, false) == RunResult(Fault(cp, k), Faulted(k), 1)
  {
  }

  /** A run that reaches a gate without being resumed stops there. */
  lemma {:induction false} StopsAtGate(c: Checkpoint, rs: seq<Results>)
    requires |c.next| == 1 && IsGate(c.next[0])
    ensures Run(c, rs, false) == RunResult(c, Paused, 0)
  {
  }

  /** An update that leaves the control fields alone keeps the counters;
      so does one that only feeds the reducers. */
  lemma KeepsCounters(s: AgentState, d: Delta)
    requires KeepsControl(d)
    ensures SameCounters(s, Apply(s, d))
  {
  }

  lemma ReducerOnlyKeepsCounters(s: AgentState, d: Delta)
    requires ReducerOnly(d)
    ensures SameCounters(s, Apply(s, d))
  {
    ApplyReducerOnly(s, d);
  }

  // ---------------------------------------------------------------------
  // The planning loop
  // ---------------------------------------------------------------------

  /** BA, PO and the architect each hand over to the next planning node. */
  lemma {:induction false} BaTick(cp: Checkpoint, r: Results)
    requires cp.next == [BaNode]
    ensures cp.next != [] && !Gated(cp.next)
    ensures Tick(cp, r) == Done(Checkpoint(Apply(cp.values, BaDelta(cp.values, r.ba)), [PoNode]))
  {
    SingleNotGated(cp.next);
    assert cp == Checkpoint(cp.values, [BaNode]);
    SingleTick(BaNode, cp.values, r);
    PlanningChain(Apply(cp.values, BaDelta(cp.values, r.ba)));
    PendingSingle(PoNode);
  }

  lemma {:induction false} BaRuns(cp: Checkpoint, rs: seq<Results>) returns (c: Checkpoint)
    requires cp.next == [BaNode] && rs != []
    ensures c.next == [PoNode] && SameCounters(cp.values, c.values)
    ensures Later(Run(cp, rs, false), Run(c, rs[1..], false), 1)
  {
    c := Checkpoint(Apply(cp.values, BaDelta(cp.values, rs[0].ba)), [PoNode]);
    BaTick(cp, rs[0]);
    RunsOn(cp, rs, c);
    PlanningNodesKeepControl(cp.values, rs[0].ba, rs[0].po, rs[0].architect);
    KeepsCounters(cp.values, BaDelta(cp.values, rs[0].ba));
  }

  lemma {:induction false} PoTick(cp: Checkpoint, r: Results)
    requires cp.next == [PoNode]
    ensures cp.next != [] && !Gated(cp.next)
    ensures Tick(cp, r) == Done(Checkpoint(Apply(cp.values, PoDelta(cp.values, r.po)), [ArchitectNode]))
  {
    SingleNotGated(cp.next);
    assert cp == Checkpoint(cp.values, [PoNode]);
    SingleTick(PoNode, cp.values, r);
    PlanningChain(Apply(cp.values, PoDelta(cp.values, r.po)));
    PendingSingle(ArchitectNode);
  }

  lemma {:induction false} PoRuns(cp: Checkpoint, rs: seq<Results>) returns (c: Checkpoint)
    requires cp.next == [PoNode] && rs != []
    ensures c.next == [ArchitectNode] && SameCounters(cp.values, c.values)
    ensures Later(Run(cp, rs, false), Run(c, rs[1..], false), 1)
  {
    c := Checkpoint(Apply(cp.values, PoDelta(cp.values, rs[0].po)), [ArchitectNode]);
    PoTick(cp, rs[0]);
    RunsOn(cp, rs, c);
    PlanningNodesKeepControl(cp.values, rs[0].ba, rs[0].po, rs[0].architect);
    KeepsCounters(cp.values, PoDelta(cp.values, rs[0].po));
  }

  lemma {:induction false} ArchitectTick(cp: Checkpoint, r: Results)
    requires cp.next == [ArchitectNode]
    ensures cp.next != [] && !Gated(cp.next)
    ensures Tick(cp, r) == Done(Checkpoint(Apply(cp.values, ArchitectDelta(cp.values, r.architect)), [PlanningEvaluator]))
  {
    SingleNotGated(cp.next);
    assert cp == Checkpoint(cp.values, [ArchitectNode]);
    SingleTick(ArchitectNode, cp.values, r);
    PlanningChain(Apply(cp.values, ArchitectDelta(cp.values, r.architect)));
    PendingSingle(PlanningEvaluator);
  }

  lemma {:induction false} ArchitectRuns(cp: Checkpoint, rs: seq<Results>) returns (c: Checkpoint)
    requires cp.next == [ArchitectNode] && rs != []
    ensures c.next == [PlanningEvaluator] && SameCounters(cp.values, c.values)
    ensures Later(Run(cp, rs, false), Run(c, rs[1..], false), 1)
  {
    c := Checkpoint(Apply(cp.values, ArchitectDelta(cp.values, rs[0].architect)), [PlanningEvaluator]);
    ArchitectTick(cp, rs[0]);
    RunsOn(cp, rs, c);
    PlanningNodesKeepControl(cp.values, rs[0].ba, rs[0].po, rs[0].architect);
    KeepsCounters(cp.values, ArchitectDelta(cp.values, rs[0].architect));
  }

  /** The evaluator sends the run to gate 1 or back to BA. */
  lemma {:induction false} EvaluatorTick(cp: Checkpoint, r: Results) returns (c: Checkpoint)
    requires cp.next == [PlanningEvaluator]
    ensures cp.next != [] && !Gated(cp.next)
    ensures c.values == Apply(cp.values, EvaluatorDelta(cp.values, r.evaluation))
    ensures c.next == (if c.values.planningConverged then [HitlGate1] else [BaNode])
    ensures Tick(cp, r) == Done(c)
  {
    SingleNotGated(cp.next);
    var t := Apply(cp.values, EvaluatorDelta(cp.values, r.evaluation));
    c := Checkpoint(t, if t.planningConverged then [HitlGate1] else [BaNode]);
    assert cp == Checkpoint(cp.values, [PlanningEvaluator]);
    SingleTick(PlanningEvaluator, cp.values, r);
    EvaluatorExits(t);
    if t.planningConverged { PendingSingle(HitlGate1); } else { PendingSingle(BaNode); }
  }

  /** The evaluator as a step of the run: one more iteration, and gate 1 or
      BA pending as its verdict, forced once the budget is reached, says. */
  lemma {:induction false} EvaluatorRuns(cp: Checkpoint, rs: seq<Results>) returns (c: Checkpoint)
    requires cp.next == [PlanningEvaluator] && rs != []
    ensures c.values.planningIteration == cp.values.planningIteration + 1
    ensures c.values.planningMaxIterations == cp.values.planningMaxIterations
    ensures c.values.planningConverged <==>
      rs[0].evaluation.converged || c.values.planningIteration >= c.values.planningMaxIterations
    ensures c.next == (if c.values.planningConverged then [HitlGate1] else [BaNode])
    ensures Later(Run(cp, rs, false), Run(c, rs[1..], false), 1)
  {
    c := EvaluatorTick(cp, rs[0]);
    RunsOn(cp, rs, c);
    EvaluatorCounts(cp.values, rs[0].evaluation);
  }

  /** One planning pass: four steps, one more iteration on the counter, and
      back to BA or on to gate 1 as the evaluator's verdict says. */
  lemma {:induction false} PlanningPass(cp: Checkpoint, rs: seq<Results>) returns (c: Checkpoint)
    requires cp.next == [BaNode] && |rs| >= 4
    ensures c.values.planningIteration == cp.values.planningIteration + 1
    ensures c.values.planningMaxIterations == cp.values.planningMaxIterations
    ensures c.values.planningConverged <==>
      rs[3].evaluation.converged || c.values.planningIteration >= c.values.planningMaxIterations
    ensures c.next == (if c.values.planningConverged then [HitlGate1] else [BaNode])
    ensures Later(Run(cp, rs, false), Run(c, rs[4..], false), 4)
  {
    var rs1 := rs[1..];
    var rs2 := rs1[1..];
    var rs3 := rs2[1..];
    assert rs3[0] == rs[3] && rs3[1..] == rs[4..];
    var c1 := BaRuns(cp, rs);
    var c2 := PoRuns(c1, rs1);
    var c3 := ArchitectRuns(c2, rs2);
    c := EvaluatorRuns(c3, rs3);
  }

  /** From BA, the run always stops at gate 1 (on replies of the shapes the
      planning agents expect, no planning node raises), within four steps
      per pass of the planning budget, with the plan marked converged and
      the counter moved on by at most that budget. */
  lemma {:induction false} PlanningReachesGate1(cp: Checkpoint, rs: seq<Results>)
    requires cp.next == [BaNode] && |rs| >= 4 * PlanningBudget(cp.values)
    ensures var r := Run(cp, rs, false);
      r.halt == Paused && r.last.next == [HitlGate1] && r.last.values.planningConverged &&
      r.steps <= 4 * PlanningBudget(cp.values) &&
      cp.values.planningIteration < r.last.values.planningIteration <= cp.values.planningIteration + PlanningBudget(cp.values)
    decreases PlanningBudget(cp.values)
  {
    var c := PlanningPass(cp, rs);
    if c.values.planningConverged {
      StopsAtGate(c, rs[4..]);
    } else {
      PlanningReachesGate1(c, rs[4..]);
    }
  }

  /** A fresh run pauses at gate 1 after at most three planning passes. */
  lemma StartPausesAtGate1(runId: string, brief: string, rs: seq<Results>)
    requires |rs| >= 12
    ensures var r := StartRun(runId, brief, rs);
      r.halt == Paused && r.last.next == [HitlGate1] && r.steps <= 12 &&
      1 <= r.last.values.planningIteration <= 3
  {
    PlanningReachesGate1(Checkpoint(CreateInitialState(runId, brief), [Entry]), rs);
  }

  // ---------------------------------------------------------------------
  // The fix loop
  // ---------------------------------------------------------------------

  /** The validator raises when the agent raises or a fix it returns has no
      path (`fix["path"]`); otherwise it sends the run to gate 2 or to the
      fix dispatcher. */
  lemma {:induction false} ValidatorTick(cp: Checkpoint, r: Results) returns (c: Checkpoint)
    requires cp.next == [IntegrationValidatorNode]
    ensures cp.next != [] && !Gated(cp.next)
    ensures r.validation.Crashed? ==> Tick(cp, r) == Crashed(r.validation.kind)
    ensures r.validation.Done? && ValidatorDelta(cp.values, r.validation.value).Crashed? ==>
      Tick(cp, r) == Crashed(ValidatorDelta(cp.values, r.validation.value).kind)
    ensures r.validation.Done? && ValidatorDelta(cp.values, r.validation.value).Done? ==>
      c.values == Apply(cp.values, ValidatorDelta(cp.values, r.validation.value).value) &&
      c.next == (if c.values.integrationValid || c.values.integrationIteration >= c.values.integrationMaxIterations
                 then [HitlGate2] else [FixDispatcher]) &&
      Tick(cp, r) == Done(c)
  {
    SingleNotGated(cp.next);
    c := cp;
    assert cp == Checkpoint(cp.values, [IntegrationValidatorNode]);
    assert Order(cp.next, r.backendFirst) == [IntegrationValidatorNode];
    if r.validation.Done? {
      var v := r.validation.value;
      if ValidatorDelta(cp.values, v).Done? {
        var t := Apply(cp.values, ValidatorDelta(cp.values, v).value);
        c := Checkpoint(t, if t.integrationValid || t.integrationIteration >= t.integrationMaxIterations
                           then [HitlGate2] else [FixDispatcher]);
        SingleTick(IntegrationValidatorNode, cp.values, r);
        ValidatorExits(t);
        if t.integrationValid || t.integrationIteration >= t.integrationMaxIterations {
          PendingSingle(HitlGate2);
        } else {
          PendingSingle(FixDispatcher);
        }
      }
    }
  }

  /** The fix dispatcher changes nothing and hands over to both builders. */
  lemma {:induction false} DispatchTick(cp: Checkpoint, r: Results)
    requires cp.next == [FixDispatcher]
    ensures cp.next != [] && !Gated(cp.next)
    ensures Tick(cp, r) == Done(Checkpoint(cp.values, [BackendBuilder, FrontendBuilder]))
  {
    SingleNotGated(cp.next);
    assert cp == Checkpoint(cp.values, [FixDispatcher]);
    SingleTick(FixDispatcher, cp.values, r);
    ApplyNoChange(cp.values);
    FanOuts(cp.values);
    PendingPair(BackendBuilder, FrontendBuilder);
  }

  /** Two nodes that do not raise give their two updates, in order. */
  lemma {:induction false} RunsTwo(a: Node, b: Node, s: AgentState, r: Results)
    requires NodeDelta(a, s, r).Done? && NodeDelta(b, s, r).Done?
    ensures RunNodes([a, b], s, r) == Done([NodeDelta(a, s, r).value, NodeDelta(b, s, r).value])
  {
    var db := NodeDelta(b, s, r).value;
    assert [a, b][1..] == [b];
    assert [b][1..] == [];
    assert RunNodes([], s, r) == Done([]);
    assert RunNodes([b], s, r) == Done([db]) by {
      assert [db] + [] == [db];
    }
    assert [NodeDelta(a, s, r).value] + [db] == [NodeDelta(a, s, r).value, db];
  }

  /** Two updates applied one after the other. */
  lemma ApplyTwo(s: AgentState, d0: Delta, d1: Delta)
    ensures ApplyAll(s, [d0, d1]) == Apply(Apply(s, d0), d1)
  {
    var s1 := Apply(s, d0);
    assert [d0, d1][1..] == [d1];
    assert [d1][1..] == [];
    assert ApplyAll(Apply(s1, d1), []) == Apply(s1, d1);
    assert ApplyAll(s1, [d1]) == Apply(s1, d1);
  }

  /** After both builders, QA is the one node pending. */
  lemma JoinPending(t: AgentState)
    ensures Pending(Targets([BackendBuilder, FrontendBuilder], t)) == [QaNode]
  {
    JoinAtQa(t);
    assert [BackendBuilder, FrontendBuilder][1..] == [FrontendBuilder];
    assert [FrontendBuilder][1..] == [];
    assert Targets([FrontendBuilder], t) == [Go(QaNode)];
    assert Targets([BackendBuilder, FrontendBuilder], t) == [Go(QaNode), Go(QaNode)];
    PendingTwin(QaNode);
  }

  /** Both builders run on the same state; when neither raises, their
      updates (applied in either order) leave the counters alone and QA is
      the one node pending. */
  lemma {:induction false} BuildersDone(cp: Checkpoint, r: Results) returns (c: Checkpoint)
    requires cp.next == [BackendBuilder, FrontendBuilder] && r.backend.Done? && r.frontend.Done?
    ensures c.next == [QaNode] && SameCounters(cp.values, c.values)
    ensures Tick(cp, r) == Done(c)
  {
    var s := cp.values;
    var db := BuilderDelta(s, Builders.Backend, r.backend.value);
    var df := BuilderDelta(s, Builders.Frontend, r.frontend.value);
    var ds := if r.backendFirst then [db, df] else [df, db];
    assert RunNodes(Order(cp.next, r.backendFirst), s, r) == Done(ds) by {
      if r.backendFirst {
        RunsTwo(BackendBuilder, FrontendBuilder, s, r);
      } else {
        RunsTwo(FrontendBuilder, BackendBuilder, s, r);
      }
    }
    ApplyTwo(s, ds[0], ds[1]);
    BuilderDeltaShape(s, Builders.Backend, r.backend.value);
    BuilderDeltaShape(s, Builders.Frontend, r.frontend.value);
    ReducerOnlyKeepsCounters(s, ds[0]);
    ReducerOnlyKeepsCounters(Apply(s, ds[0]), ds[1]);
    var t := Apply(Apply(s, ds[0]), ds[1]);
    JoinPending(t);
    c := Checkpoint(t, [QaNode]);
  }

  /** A builder that raises fails the step. */
  lemma {:induction false} BuildersCrash(cp: Checkpoint, r: Results)
    requires cp.next == [BackendBuilder, FrontendBuilder] && (r.backend.Crashed? || r.frontend.Crashed?)
    ensures Tick(cp, r).Crashed?
  {
    var s := cp.values;
    var order := if r.backendFirst then [BackendBuilder, FrontendBuilder] else [FrontendBuilder, BackendBuilder];
    assert Order(cp.next, r.backendFirst) == order;
    assert order[1..] == [order[1]];
    assert [order[1]][1..] == [];
    if NodeDelta(order[0], s, r).Done? {
      assert NodeDelta(order[1], s, r).Crashed?;
      assert RunNodes(order[1..], s, r).Crashed?;
    }
  }

  /** QA raises, or hands over to the validator with its test cases added. */
  lemma {:induction false} QaTick(cp: Checkpoint, r: Results)
    requires cp.next == [QaNode]
    ensures cp.next != [] && !Gated(cp.next)
    ensures r.qa.Crashed? ==> Tick(cp, r) == Crashed(r.qa.kind)
    ensures r.qa.Done? ==>
      Tick(cp, r) == Done(Checkpoint(Apply(cp.values, QaDelta(cp.values, r.qa.value)), [IntegrationValidatorNode]))
  {
    SingleNotGated(cp.next);
    assert cp == Checkpoint(cp.values, [QaNode]);
    if r.qa.Done? {
      SingleTick(QaNode, cp.values, r);
      JoinAtQa(Apply(cp.values, QaDelta(cp.values, r.qa.value)));
      PendingSingle(IntegrationValidatorNode);
    } else {
      assert Order([QaNode], r.backendFirst) == [QaNode];
    }
  }

  /** The fix-loop nodes as steps of the run. */
  lemma {:induction false} ValidatorRuns(cp: Checkpoint, rs: seq<Results>) returns (c: Checkpoint)
    requires cp.next == [IntegrationValidatorNode] && rs != []
    ensures var faults := rs[0].validation.Crashed? || ValidatorDelta(cp.values, rs[0].validation.value).Crashed?;
      (faults ==> Run(cp, rs, false).halt.Faulted? && Run(cp, rs, false).steps == 1) &&
      (!faults ==>
        c.values.integrationIteration == cp.values.integrationIteration + 1 &&
        c.values.integrationMaxIterations == cp.values.integrationMaxIterations &&
        c.values.integrationValid == rs[0].validation.value.isConsistent &&
        c.next == (if c.values.integrationValid || c.values.integrationIteration >= c.values.integrationMaxIterations
                   then [HitlGate2] else [FixDispatcher]) &&
        Later(Run(cp, rs, false), Run(c, rs[1..], false), 1))
  {
    c := ValidatorTick(cp, rs[0]);
    if rs[0].validation.Crashed? {
      RunsIntoFault(cp, rs, rs[0].validation.kind);
    } else if ValidatorDelta(cp.values, rs[0].validation.value).Crashed? {
      RunsIntoFault(cp, rs, ValidatorDelta(cp.values, rs[0].validation.value).kind);
    } else {
      RunsOn(cp, rs, c);
      ValidatorCounts(cp.values, rs[0].validation.value);
    }
  }

  lemma {:induction false} DispatchRuns(cp: Checkpoint, rs: seq<Results>) returns (c: Checkpoint)
    requires cp.next == [FixDispatcher] && rs != []
    ensures c == Checkpoint(cp.values, [BackendBuilder, FrontendBuilder])
    ensures Later(Run(cp, rs, false), Run(c, rs[1..], false), 1)
  {
    c := Checkpoint(cp.values, [BackendBuilder, FrontendBuilder]);
    DispatchTick(cp, rs[0]);
    RunsOn(cp, rs, c);
  }

  lemma {:induction false} BuildersRuns(cp: Checkpoint, rs: seq<Results>) returns (c: Checkpoint)
    requires cp.next == [BackendBuilder, FrontendBuilder] && rs != []
    ensures rs[0].backend.Crashed? || rs[0].frontend.Crashed? ==>
      Run(cp, rs, false).halt.Faulted? && Run(cp, rs, false).steps == 1
    ensures rs[0].backend.Done? && rs[0].frontend.Done? ==>
      c.next == [QaNode] && SameCounters(cp.values, c.values) && Later(Run(cp, rs, false), Run(c, rs[1..], false), 1)
  {
    BuildersNotGated(cp.next);
    if rs[0].backend.Done? && rs[0].frontend.Done? {
      c := BuildersDone(cp, rs[0]);
      RunsOn(cp, rs, c);
    } else {
      c := cp;
      BuildersCrash(cp, rs[0]);
      RunsIntoFault(cp, rs, Tick(cp, rs[0]).kind);
    }
  }

  lemma {:induction false} QaRuns(cp: Checkpoint, rs: seq<Results>) returns (c: Checkpoint)
    requires cp.next == [QaNode] && rs != []
    ensures rs[0].qa.Crashed? ==> Run(cp, rs, false).halt.Faulted? && Run(cp, rs, false).steps == 1
    ensures rs[0].qa.Done? ==>
      c.next == [IntegrationValidatorNode] && SameCounters(cp.values, c.values) &&
      c.values.testCases == cp.values.testCases + rs[0].qa.value.testCases &&
      Later(Run(cp, rs, false), Run(c, rs[1..], false), 1)
  {
    QaTick(cp, rs[0]);
    if rs[0].qa.Done? {
      c := Checkpoint(Apply(cp.values, QaDelta(cp.values, rs[0].qa.value)), [IntegrationValidatorNode]);
      RunsOn(cp, rs, c);
      QaAppendsCases(cp.values, rs[0].qa.value);
      KeepsCounters(cp.values, QaDelta(cp.values, rs[0].qa.value));
    } else {
      c := cp;
      RunsIntoFault(cp, rs, rs[0].qa.kind);
    }
  }

  /** Both builders, then QA: the validator is pending again with the
      counters unchanged, unless a builder or QA raises. */
  lemma {:induction false} BuildAndTest(b: Checkpoint, rs: seq<Results>) returns (c: Checkpoint, ok: bool)
    requires b.next == [BackendBuilder, FrontendBuilder] && |rs| >= 2
    ensures var r := Run(b, rs, false);
      if ok then c.next == [IntegrationValidatorNode] && SameCounters(b.values, c.values) && Later(r, Run(c, rs[2..], false), 2)
      else r.halt.Faulted? && r.steps <= 2
  {
    var rs1 := rs[1..];
    assert rs1[1..] == rs[2..];
    var q := BuildersRuns(b, rs);
    c, ok := q, false;
    if rs[0].backend.Done? && rs[0].frontend.Done? {
      c := QaRuns(q, rs1);
      ok := rs1[0].qa.Done?;
    }
  }

  /** After a validator run that asks for another cycle: the dispatcher,
      the builders and QA. */
  lemma {:induction false} FixCycle(cp: Checkpoint, rs: seq<Results>) returns (c: Checkpoint, ok: bool)
    requires cp.next == [FixDispatcher] && |rs| >= 3
    ensures var r := Run(cp, rs, false);
      if ok then c.next == [IntegrationValidatorNode] && SameCounters(cp.values, c.values) && Later(r, Run(c, rs[3..], false), 3)
      else r.halt.Faulted? && r.steps <= 3
  {
    assert rs[1..][2..] == rs[3..];
    var b := DispatchRuns(cp, rs);
    c, ok := BuildAndTest(b, rs[1..]);
  }

  /** One round of the fix loop: the validator, and when it asks for
      fixes, one fix cycle. The round ends the run (a node raises, or gate 2
      is reached with the build approved or the budget spent), or leaves the
      validator pending again with one more iteration counted and budget
      left. */
  lemma {:induction false} FixRound(cp: Checkpoint, rs: seq<Results>) returns (d: Checkpoint, more: bool)
    requires cp.next == [IntegrationValidatorNode] && |rs| >= 4
    ensures var r := Run(cp, rs, false);
      if more then
        d.next == [IntegrationValidatorNode] &&
        d.values.integrationIteration == cp.values.integrationIteration + 1 &&
        d.values.integrationIteration < d.values.integrationMaxIterations == cp.values.integrationMaxIterations &&
        Later(r, Run(d, rs[4..], false), 4)
      else
        r.steps <= 4 &&
        (r.halt.Faulted? ||
         (r.halt == Paused && r.last.next == [HitlGate2] &&
          (r.last.values.integrationValid || r.last.values.integrationIteration >= r.last.values.integrationMaxIterations) &&
          r.last.values.integrationIteration == cp.values.integrationIteration + 1))
  {
    var c := ValidatorRuns(cp, rs);
    d, more := c, false;
    if !(rs[0].validation.Crashed? || ValidatorDelta(cp.values, rs[0].validation.value).Crashed?) {
      if c.next == [HitlGate2] {
        StopsAtGate(c, rs[1..]);
      } else {
        assert rs[1..][3..] == rs[4..];
        d, more := FixCycle(c, rs[1..]);
      }
    }
  }

  /** From the validator, the run stops at gate 2 with the build approved or
      the fix budget spent, within four steps per validator run the budget
      allows, unless a node raises first. */
  lemma {:induction false} FixLoopEnds(cp: Checkpoint, rs: seq<Results>)
    requires cp.next == [IntegrationValidatorNode] && |rs| >= 4 * FixBudget(cp.values)
    ensures var r := Run(cp, rs, false);
      r.steps <= 4 * FixBudget(cp.values) &&
      (r.halt.Faulted? ||
       (r.halt == Paused && r.last.next == [HitlGate2] &&
        (r.last.values.integrationValid || r.last.values.integrationIteration >= r.last.values.integrationMaxIterations) &&
        cp.values.integrationIteration < r.last.values.integrationIteration <= cp.values.integrationIteration + FixBudget(cp.values)))
    decreases FixBudget(cp.values)
  {
    var d, more := FixRound(cp, rs);
    if more {
      assert FixBudget(d.values) == FixBudget(cp.values) - 1;
      FixLoopEnds(d, rs[4..]);
    }
  }
}
