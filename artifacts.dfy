/**
 * The records that flow through the pipeline: what the planning agents
 * produce (requirements, inception, user stories, the technical
 * specification and the per-builder file specs), what the building agents
 * produce (generated files, test cases), and the log entries every node
 * appends. Fields that no modelled operation reads or constrains are
 * left out: a story's description, the inception's risks, success metrics,
 * out-of-scope list and technical constraints, and the technical
 * specification's data models, endpoints, schema, ML and GenAI sections and
 * stack.
 */
module Artifacts {
  import opened Common

  /** A requirement written by the business analyst. */
  datatype Requirement = Requirement(
    id: string, title: string, description: string, kind: string,
    priority: string, domain: string, createdBy: string, iteration: int)

  /** The product owner's MVP definition. */
  datatype Inception = Inception(
    id: string, mvpScope: seq<string>, createdBy: string, iteration: int)

  /** A user story, linked to the requirements it covers by `reqIds`. */
  datatype UserStory = UserStory(
    id: string, title: string, acceptanceCriteria: seq<string>, reqIds: seq<string>, domain: string,
    priority: string, storyPoints: int, createdBy: string, iteration: int)

  /** A documented test case written by the QA agent. */
  datatype TestCase = TestCase(
    id: string, title: string, description: string, preconditions: seq<string>, steps: seq<string>,
    expectedResult: string, usId: string, kind: string, createdBy: string)

  /** One file the architect asks a builder to write. Both keys may be
      missing from the language model's answer. */
  datatype FileSpec = FileSpec(path: Option<string>, domain: Option<string>)

  /** An entry of a builder's folder in the legacy `project_structure`
      layout: a file described by a string, a sub-folder of `(file,
      description)` entries (each description as `str()` prints it), or
      anything else. */
  datatype LegacyValue = Text(description: string) | Folder(entries: seq<(string, string)>) | OtherValue

  /** A top-level value of the legacy layout: a dictionary of entries in
      their dictionary order, or a value that is not a dictionary. */
  datatype LegacyFolder = Dict(entries: seq<(string, LegacyValue)>) | NotADict

  /** The architect's `project_structure`: the `files` list (a missing key is
      the empty list) and the remaining keys in their dictionary order. */
  datatype ProjectStructure = ProjectStructure(files: seq<FileSpec>, legacy: seq<(string, LegacyFolder)>)

  /** A Mermaid sequence diagram of the technical specification. */
  datatype Diagram = Diagram(title: string, code: string)

  datatype TechSpec = TechSpec(
    projectStructure: ProjectStructure, mermaidEr: string,
    mermaidSequence: seq<Diagram>, createdBy: string, iteration: int)

  /** A builder-specific spec (`backend_spec`, `frontend_spec`, `devops_spec`). */
  datatype BuilderSpec = BuilderSpec(files: seq<FileSpec>)

  /** The instruction of a test file: the text the architect wrote, or one
      of the QA agent's own fixed instructions (their wording is given by
      `QaAgent.InstructionText`). */
  datatype Instruction =
    | Written(text: string)
    | ConftestTests
    | RouterTests(routerPath: string)
    | MlTests
    | GenAiTests
    | AuthTests

  /** One test file the QA agent is asked to write (a missing `focus_us` is
      the empty list). */
  datatype TestSpec = TestSpec(path: Option<string>, instruction: Option<Instruction>, focusUs: seq<string>)

  datatype QaSpec = QaSpec(testFiles: seq<TestSpec>)

  /** A rendered diagram in `sequence_diagrams_svg`. */
  datatype SvgDiagram = SvgDiagram(title: string, svg: string)

  /** A file written by a builder, the QA agent or the DevOps agent. */
  datatype GeneratedFile = GeneratedFile(path: string, content: string, usIds: seq<string>, createdBy: string)

  /** A correction requested by the integration validator; any key may be
      missing from the language model's answer. */
  datatype Fix = Fix(path: Option<string>, builder: Option<string>, instruction: Option<string>)

  /** An integration issue reported by the validator: only its severity is
      read; the language model may also answer something that is not a
      record. */
  datatype Issue = IssueRecord(severity: Option<string>) | NotARecord

  datatype TestResults = TestResults(total: nat, automated: nat, documented: nat)

  /** A `decisions_log` entry (its timestamp and justification text are not
      modelled). */
  datatype DecisionEntry = DecisionEntry(
    agent: string, phase: string, decision: string, artifacts: seq<string>, iteration: int)

  /** An `activity_log` entry, reduced to the agent that wrote it. */
  datatype ActivityEntry = ActivityEntry(agent: string)

  /** An `errors` entry, reduced to the exception's type name (its message
      is not modelled). */
  datatype ErrorEntry = ErrorEntry(kind: string)

  /** The paths of a list of files, in order. */
  function Paths(files: seq<GeneratedFile>): (r: seq<string>)
    ensures |r| == |files|
    ensures forall i :: 0 <= i < |files| ==> r[i] == files[i].path
  {
    seq(|files|, i requires 0 <= i < |files| => files[i].path)
  }

  lemma PathsAppend(a: seq<GeneratedFile>, b: seq<GeneratedFile>)
    ensures Paths(a + b) == Paths(a) + Paths(b)
  {
    assert forall i :: 0 <= i < |a + b| ==> Paths(a + b)[i] == (Paths(a) + Paths(b))[i];
  }

  /** No two files share a path. */
  predicate UniquePaths(files: seq<GeneratedFile>) {
    forall i, j :: 0 <= i < j < |files| ==> files[i].path != files[j].path
  }

  /** The ids of a list of records, in order: `[x["id"] for x in xs]`. */
  function Ids<T>(xs: seq<T>, id: T -> string): (r: seq<string>)
    ensures |r| == |xs|
    ensures forall i :: 0 <= i < |xs| ==> r[i] == id(xs[i])
  {
    seq(|xs|, i requires 0 <= i < |xs| => id(xs[i]))
  }

  function StoryIds(stories: seq<UserStory>): seq<string> {
    Ids(stories, (u: UserStory) => u.id)
  }
}
