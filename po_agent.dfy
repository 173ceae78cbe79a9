/**
 * The product owner: turns the language model's inception and user stories
 * into normalised records (missing ids numbered `US-001`, ...; the MVP scope
 * defaulting to the must-have requirements), or falls back to one story per
 * requirement when the call fails.
 */
module PoAgent {
  import opened Common
  import opened Text
  import opened Artifacts
  import Evaluator

  /** The reply's `inception` object (a missing key is the empty object).
      Values are taken to have the types the prompt asks for. */
  datatype RawInception = RawInception(id: Option<string>, mvpScope: Option<seq<string>>)

  /** One user story as the language model wrote it. */
  datatype RawStory = RawStory(
    id: Option<string>, title: Option<string>, acceptanceCriteria: Option<seq<string>>, reqIds: Option<seq<string>>,
    domain: Option<string>, priority: Option<string>, storyPoints: Option<int>)

  datatype PoReply = PoReply(inception: RawInception, userStories: seq<RawStory>, reasoning: Option<string>)

  datatype PoResult = PoResult(inception: Inception, userStories: seq<UserStory>, reasoning: string)

  /** `[r["id"] for r in requirements if r["priority"] == "must"]` */
  function MustIds(reqs: seq<Requirement>): (ids: seq<string>)
    ensures |ids| <= |reqs|
    ensures forall k :: 0 <= k < |reqs| && reqs[k].priority == "must" ==> reqs[k].id in ids
    ensures forall id :: id in ids ==> exists k :: 0 <= k < |reqs| && reqs[k].priority == "must" && reqs[k].id == id
  {
    if reqs == [] then []
    else
      var rest := MustIds(reqs[1..]);
      assert forall id :: id in rest ==> exists k :: 0 <= k < |reqs| && reqs[k].priority == "must" && reqs[k].id == id by {
        forall id | id in rest
          ensures exists k :: 0 <= k < |reqs| && reqs[k].priority == "must" && reqs[k].id == id
        {
          var k :| 0 <= k < |reqs[1..]| && reqs[1..][k].priority == "must" && reqs[1..][k].id == id;
          assert reqs[k + 1] == reqs[1..][k];
        }
      }
      assert forall k :: 1 <= k < |reqs| ==> reqs[k] == reqs[1..][k - 1];
      if reqs[0].priority == "must" then [reqs[0].id] + rest else rest
  }

  /** The id of the `i`-th raw story: its own, or `US-` and its padded
      1-based position. */
  function StoryId(raw: RawStory, i: nat): string {
    raw.id.GetOr(PaddedId("US-", i + 1))
  }

  /** The record built for the `i`-th raw story. */
  function NormalizeStory(raw: RawStory, i: nat, iteration: int): UserStory {
    UserStory(
      id := StoryId(raw, i),
      title := raw.title.GetOr("Story " + NatToDecimal(i + 1)),
      acceptanceCriteria := raw.acceptanceCriteria.GetOr([]),
      reqIds := raw.reqIds.GetOr([]),
      domain := raw.domain.GetOr("backend"),
      priority := raw.priority.GetOr("should"),
      storyPoints := raw.storyPoints.GetOr(3),
      createdBy := "Product Owner Agent",
      iteration := iteration)
  }

  /** The inception built from the reply: id `INC-001` and the must-have
      requirement ids unless the reply gives them. */
  function NormalizeInception(raw: RawInception, reqs: seq<Requirement>, iteration: int): Inception {
    Inception(raw.id.GetOr("INC-001"), raw.mvpScope.GetOr(MustIds(reqs)), "Product Owner Agent", iteration)
  }

  /** The story `_fallback` writes for the `i`-th requirement. */
  function FallbackStory(r: Requirement, i: nat, iteration: int): UserStory {
    UserStory(PaddedId("US-", i + 1), "Story for " + r.title, [], [r.id], r.domain, r.priority, 3,
              "PO Agent (fallback)", iteration)
  }

  /** `_fallback(state)`: the must-have scope and one story per requirement. */
  function Fallback(reqs: seq<Requirement>, iteration: int): PoResult {
    PoResult(
      Inception("INC-001", MustIds(reqs), "PO Agent (fallback)", iteration),
      seq(|reqs|, i requires 0 <= i < |reqs| => FallbackStory(reqs[i], i, iteration)),
      "Fallback: LLM call failed.")
  }

  /** What `run_po_agent` returns for the language model's answer `reply`:
      the fallback on an error, otherwise the inception and one story per
      raw story. */
  function Answer(reqs: seq<Requirement>, iteration: int, reply: LlmReply<PoReply>): PoResult {
    match reply
    case LlmError(_) => Fallback(reqs, iteration)
    case LlmOk(a) =>
      var stories := seq(|a.userStories|, i requires 0 <= i < |a.userStories| => NormalizeStory(a.userStories[i], i, iteration));
      PoResult(NormalizeInception(a.inception, reqs, iteration), stories,
               a.reasoning.GetOr("MVP + " + NatToDecimal(|stories|) + " stories defined."))
  }

  /** `run_po_agent(state)`, with the language model's answer as `reply`. */
  method RunPoAgent(reqs: seq<Requirement>, iteration: int, reply: LlmReply<PoReply>) returns (result: PoResult)
    ensures result == Answer(reqs, iteration, reply)
    ensures reply.LlmError? ==> result == Fallback(reqs, iteration)
    ensures reply.LlmOk? ==>
      result.inception == NormalizeInception(reply.reply.inception, reqs, iteration)
      && |result.userStories| == |reply.reply.userStories|
      && (forall i :: 0 <= i < |result.userStories| ==>
            result.userStories[i] == NormalizeStory(reply.reply.userStories[i], i, iteration))
      && result.reasoning == reply.reply.reasoning.GetOr(
           "MVP + " + NatToDecimal(|result.userStories|) + " stories defined.")
  {
    if reply.LlmError? {
      return Fallback(reqs, iteration);
    }
    var inception := NormalizeInception(reply.reply.inception, reqs, iteration);
    var stories := NormalizeStories(reply.reply.userStories, iteration);
    result := PoResult(inception, stories, reply.reply.reasoning.GetOr(
      "MVP + " + NatToDecimal(|stories|) + " stories defined."));
  }

  /** The loop of `run_po_agent`: one story per raw story, in order. */
  method NormalizeStories(raws: seq<RawStory>, iteration: int) returns (stories: seq<UserStory>)
    ensures |stories| == |raws|
    ensures forall i :: 0 <= i < |raws| ==> stories[i] == NormalizeStory(raws[i], i, iteration)
  {
    stories := [];
    var i := 0;
    while i < |raws|
      invariant 0 <= i <= |raws|
      invariant |stories| == i
      invariant forall j :: 0 <= j < i ==> stories[j] == NormalizeStory(raws[j], j, iteration)
    {
      stories := stories + [NormalizeStory(raws[i], i, iteration)];
      i := i + 1;
    }
  }

  /** Two stories the model left without an id get different ids. */
  lemma DefaultStoryIdsDistinct(a: RawStory, i: nat, b: RawStory, j: nat)
    requires i != j
    requires a.id.None? && b.id.None?
    ensures StoryId(a, i) != StoryId(b, j)
  {
    PaddedIdInjective("US-", i + 1, j + 1);
  }

  /** The fallback stories cover every requirement, so the evaluator's
      coverage check never complains about them. */
  lemma FallbackCoversEveryRequirement(reqs: seq<Requirement>, iteration: int,
                                       techSpec: Option<TechSpec>, inception: Option<Inception>)
    ensures var stories := Fallback(reqs, iteration).userStories;
      |stories| == |reqs|
      && (forall u :: Evaluator.TooManyUncovered(u) !in Evaluator.ExpectedIssues(reqs, stories, techSpec, inception))
  {
    var stories := Fallback(reqs, iteration).userStories;
    forall i | 0 <= i < |reqs|
      ensures exists k :: 0 <= k < |stories| && reqs[i].id in stories[k].reqIds
    {
      assert reqs[i].id in stories[i].reqIds;
    }
    Evaluator.FullCoverageNoIssue(reqs, stories, techSpec, inception);
  }

  /** The fallback numbers its stories `US-001`, `US-002`, ... in
      requirement order, so their ids are pairwise distinct. */
  lemma FallbackIdsDistinct(reqs: seq<Requirement>, iteration: int, i: nat, j: nat)
    requires i < |reqs| && j < |reqs| && i != j
    ensures Fallback(reqs, iteration).userStories[i].id != Fallback(reqs, iteration).userStories[j].id
  {
    PaddedIdInjective("US-", i + 1, j + 1);
  }
}
