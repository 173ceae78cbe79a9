/**
 * The business analyst: turns the language model's list of requirements
 * into normalised `Requirement` records, filling every missing field with
 * its default and numbering missing ids `REQ-001`, `REQ-002`, ..., or falls
 * back to a single requirement when the call fails.
 */
module BaAgent {
  import opened Common
  import opened Text
  import opened Artifacts

  /** One requirement as the language model wrote it; any key may be missing. */
  datatype RawRequirement = RawRequirement(
    id: Option<string>, title: Option<string>, description: Option<string>,
    kind: Option<string>, priority: Option<string>, domain: Option<string>)

  /** The reply's `requirements` list (a missing key is the empty list) and
      its `reasoning`. Values are taken to have the types the prompt asks
      for; a null value reads as a missing key. */
  datatype BaReply = BaReply(requirements: seq<RawRequirement>, reasoning: Option<string>)

  datatype BaResult = BaResult(requirements: seq<Requirement>, reasoning: string)

  /** The id of the `i`-th raw requirement: its own, or `REQ-` and its
      1-based position padded to three digits. */
  function RequirementId(raw: RawRequirement, i: nat): string {
    raw.id.GetOr(PaddedId("REQ-", i + 1))
  }

  /** The record built for the `i`-th raw requirement (0-based). */
  function Normalize(raw: RawRequirement, i: nat, iteration: int): Requirement {
    Requirement(
      id := RequirementId(raw, i),
      title := raw.title.GetOr("Requirement " + NatToDecimal(i + 1)),
      description := raw.description.GetOr(""),
      kind := raw.kind.GetOr("functional"),
      priority := raw.priority.GetOr("should"),
      domain := raw.domain.GetOr("backend"),
      createdBy := "BA Agent",
      iteration := iteration)
  }

  /** `_fallback(state)`: one must-have backend requirement describing the
      brief (cut to 200 characters). */
  function Fallback(brief: string, iteration: int): BaResult {
    BaResult(
      [Requirement("REQ-001", "Core functionality", "Implement: " + Take(brief, 200),
                   "functional", "must", "backend", "BA Agent (fallback)", iteration)],
      "Fallback: LLM call failed.")
  }

  /** What `run_ba_agent` returns for the language model's answer `reply`:
      the fallback on an error, otherwise one record per raw requirement. */
  function Answer(brief: string, iteration: int, reply: LlmReply<BaReply>): BaResult {
    match reply
    case LlmError(_) => Fallback(brief, iteration)
    case LlmOk(a) =>
      var reqs := seq(|a.requirements|, i requires 0 <= i < |a.requirements| => Normalize(a.requirements[i], i, iteration));
      BaResult(reqs, a.reasoning.GetOr("Analyzed brief: " + NatToDecimal(|reqs|) + " requirements."))
  }

  /** `run_ba_agent(state)`, with the language model's answer as `reply`. */
  method RunBaAgent(brief: string, iteration: int, reply: LlmReply<BaReply>) returns (result: BaResult)
    ensures result == Answer(brief, iteration, reply)
    ensures reply.LlmError? ==> result == Fallback(brief, iteration)
    ensures reply.LlmOk? ==>
      |result.requirements| == |reply.reply.requirements|
      && (forall i :: 0 <= i < |result.requirements| ==>
            result.requirements[i] == Normalize(reply.reply.requirements[i], i, iteration))
      && result.reasoning == reply.reply.reasoning.GetOr(
           "Analyzed brief: " + NatToDecimal(|result.requirements|) + " requirements.")
  {
    if reply.LlmError? {
      return Fallback(brief, iteration);
    }
    var reqs := NormalizeAll(reply.reply.requirements, iteration);
    result := BaResult(reqs, reply.reply.reasoning.GetOr(
      "Analyzed brief: " + NatToDecimal(|reqs|) + " requirements."));
  }

  /** The loop of `run_ba_agent`: one record per raw requirement, in order,
      each written by the analyst in the current planning iteration. */
  method NormalizeAll(raws: seq<RawRequirement>, iteration: int) returns (reqs: seq<Requirement>)
    ensures |reqs| == |raws|
    ensures forall i :: 0 <= i < |raws| ==> reqs[i] == Normalize(raws[i], i, iteration)
  {
    reqs := [];
    var i := 0;
    while i < |raws|
      invariant 0 <= i <= |raws|
      invariant |reqs| == i
      invariant forall j :: 0 <= j < i ==> reqs[j] == Normalize(raws[j], j, iteration)
    {
      reqs := reqs + [Normalize(raws[i], i, iteration)];
      i := i + 1;
    }
  }

  /** An id the model left out is the padded position, so two such ids
      never collide. */
  lemma DefaultIdsDistinct(a: RawRequirement, i: nat, b: RawRequirement, j: nat)
    requires i != j
    requires a.id.None? && b.id.None?
    ensures RequirementId(a, i) != RequirementId(b, j)
  {
    PaddedIdInjective("REQ-", i + 1, j + 1);
  }

  /** The fallback's single requirement carries the id the numbering gives
      the first requirement, is a must-have, and describes a prefix of the
      brief. */
  lemma FallbackShape(brief: string, iteration: int)
    ensures var r := Fallback(brief, iteration).requirements;
      |r| == 1 && r[0].id == PaddedId("REQ-", 1) && r[0].priority == "must"
      && StartsWith(r[0].description, "Implement: ")
      && r[0].description[|"Implement: "|..] == brief[..Min(200, |brief|)]
      && r[0].iteration == iteration
  {
    assert NatToDecimal(1) == "1";
    assert ZFill("1", 3) == "001";
  }
}
