/**
 * The integration validator: the architect's review of every generated
 * file. Modelled here are the file manifest its prompt carries (each file's
 * content, truncated when long, and the paths sorted into backend,
 * frontend and devops lists) and the way the language model's verdict is
 * turned into a result, approving by default whenever the call fails.
 */
module IntegrationValidator {
  import opened Common
  import opened Text
  import opened Artifacts

  // ---------------------------------------------------------------------
  // The file manifest of the prompt
  // ---------------------------------------------------------------------

  /** `generated_files + docker_files`: every file under review. */
  function FilesUnderReview(generated: seq<GeneratedFile>, docker: seq<GeneratedFile>): (r: seq<GeneratedFile>)
    ensures |r| == |generated| + |docker|
    ensures forall f :: f in r <==> f in generated || f in docker
  {
    generated + docker
  }

  const MaxContent := 3000
  const HeadLines := 40
  const TailLines := 20
  const TruncationMarker := "\n\n# ... [TRUNCATED] ...\n\n"

  function Lines(content: string): seq<string> {
    Split(content, '\n')
  }

  /** The first forty lines of a long file. */
  function Head(content: string): string {
    Join("\n", Take(Lines(content), HeadLines))
  }

  /** The last twenty lines of a long file. */
  function Tail(content: string): string {
    Join("\n", Last(Lines(content), TailLines))
  }

  /** A file's content as the prompt shows it: longer than 3000 characters,
      its first forty lines, a marker and its last twenty lines. */
  function Truncated(content: string): string {
    if |content| <= MaxContent then content else Head(content) + TruncationMarker + Tail(content)
  }

  /** Joining the first `k` lines gives a prefix of the content, and joining
      the last `k` lines a suffix. */
  lemma JoinedPrefixSuffix(content: string, k: nat)
    requires k > 0
    ensures StartsWith(content, Join("\n", Take(Lines(content), k)))
    ensures EndsWith(content, Join("\n", Last(Lines(content), k)))
  {
    var lines := Lines(content);
    JoinSplit(content, '\n');
    assert Join("\n", lines) == content;
    if k < |lines| {
      assert lines == lines[..k] + lines[k..];
      JoinAppend("\n", lines[..k], lines[k..]);
      var m := |lines| - k;
      assert lines == lines[..m] + lines[m..];
      JoinAppend("\n", lines[..m], lines[m..]);
    } else {
      assert Take(lines, k) == lines;
      assert Last(lines, k) == lines;
    }
  }

  /** The joined lines split back into themselves. */
  lemma JoinedLinesSplitBack(content: string, lines: seq<string>)
    requires |lines| >= 1
    requires forall x :: x in lines ==> x in Lines(content)
    ensures Lines(Join("\n", lines)) == lines
  {
    SplitPieces(content, '\n');
    SplitJoin(lines, '\n');
  }

  /** Short content is shown as is; long content is shown as a prefix of at
      most forty lines, the marker, and a suffix of at most twenty lines. */
  lemma TruncatedMeaning(content: string)
    ensures |content| <= MaxContent ==> Truncated(content) == content
    ensures |content| > MaxContent ==>
      Truncated(content) == Head(content) + TruncationMarker + Tail(content) &&
      StartsWith(content, Head(content)) && |Lines(Head(content))| <= HeadLines &&
      EndsWith(content, Tail(content)) && |Lines(Tail(content))| <= TailLines
  {
    var lines := Lines(content);
    JoinedPrefixSuffix(content, HeadLines);
    JoinedPrefixSuffix(content, TailLines);
    assert forall x :: x in Take(lines, HeadLines) ==> x in lines;
    JoinedLinesSplitBack(content, Take(lines, HeadLines));
    assert forall x :: x in Last(lines, TailLines) ==> x in lines;
    JoinedLinesSplitBack(content, Last(lines, TailLines));
  }

  /** Long content without a line break is shown twice, once as its head
      and once as its tail: the truncation only shortens content with more
      than sixty lines. */
  lemma SingleLineShownTwice(content: string)
    requires |content| > MaxContent && '\n' !in content
    ensures Truncated(content) == content + TruncationMarker + content
  {
    SplitWithoutSep(content, '\n');
  }

  /** One file's entry in the prompt: `=== path (created_by) ===` and its
      (possibly truncated) content. */
  function Section(f: GeneratedFile): string {
    "=== " + f.path + " (" + f.createdBy + ") ===\n" + Truncated(f.content)
  }

  /** The loop of `_build_validation_prompt` collecting one section per file. */
  method BuildSections(files: seq<GeneratedFile>) returns (sections: seq<string>)
    ensures |sections| == |files|
    ensures forall i :: 0 <= i < |files| ==> sections[i] == Section(files[i])
  {
    sections := [];
    for i := 0 to |files|
      invariant |sections| == i
      invariant forall j :: 0 <= j < i ==> sections[j] == Section(files[j])
    {
      var content := files[i].content;
      if |content| > MaxContent {
        var lines := Split(content, '\n');
        content := Join("\n", Take(lines, HeadLines)) + TruncationMarker + Join("\n", Last(lines, TailLines));
      }
      assert content == Truncated(files[i].content);
      sections := sections + ["=== " + files[i].path + " (" + files[i].createdBy + ") ===\n" + content];
    }
  }

  /** The path prefixes that mark a devops file. */
  const DevopsPrefixes: seq<string> := ["Docker", "docker", "scripts/", "README", ".env"]

  predicate IsBackendPath(p: string) {
    StartsWith(p, "backend/")
  }

  predicate IsFrontendPath(p: string) {
    StartsWith(p, "frontend/")
  }

  predicate IsDevopsPath(p: string) {
    exists k :: 0 <= k < |DevopsPrefixes| && StartsWith(p, DevopsPrefixes[k])
  }

  /** The three path lists of the prompt, each in file order. */
  datatype Manifest = Manifest(backend: seq<string>, frontend: seq<string>, devops: seq<string>)

  function Classify(files: seq<GeneratedFile>): Manifest {
    var paths := Paths(files);
    Manifest(Filter(IsBackendPath, paths), Filter(IsFrontendPath, paths), Filter(IsDevopsPath, paths))
  }

  /** No path is in two classes. */
  lemma ClassesDisjoint(p: string)
    ensures !(IsBackendPath(p) && IsFrontendPath(p))
    ensures !(IsBackendPath(p) && IsDevopsPath(p))
    ensures !(IsFrontendPath(p) && IsDevopsPath(p))
  {
    if IsDevopsPath(p) {
      var k :| 0 <= k < |DevopsPrefixes| && StartsWith(p, DevopsPrefixes[k]);
      assert p[0] == DevopsPrefixes[k][0];
    }
    if IsBackendPath(p) {
      assert p[0] == 'b';
    }
  }

  /** Every listed path belongs to a file under review and to its class, and
      no path is listed twice over: the three classes are disjoint. */
  lemma ClassifyMeaning(files: seq<GeneratedFile>)
    ensures forall p :: p in Classify(files).backend <==> p in Paths(files) && IsBackendPath(p)
    ensures forall p :: p in Classify(files).frontend <==> p in Paths(files) && IsFrontendPath(p)
    ensures forall p :: p in Classify(files).devops <==> p in Paths(files) && IsDevopsPath(p)
    ensures forall p :: !(p in Classify(files).backend && p in Classify(files).frontend)
    ensures forall p :: !(p in Classify(files).backend && p in Classify(files).devops)
    ensures forall p :: !(p in Classify(files).frontend && p in Classify(files).devops)
  {
    forall p
      ensures !(IsBackendPath(p) && IsFrontendPath(p))
      ensures !(IsBackendPath(p) && IsDevopsPath(p))
      ensures !(IsFrontendPath(p) && IsDevopsPath(p))
    {
      ClassesDisjoint(p);
    }
  }

  /** The devops agent's default Dockerfiles are listed with the builders'
      files, not as devops files. */
  lemma DefaultDockerfilesNotDevops()
    ensures IsBackendPath("backend/Dockerfile") && !IsDevopsPath("backend/Dockerfile")
    ensures IsFrontendPath("frontend/Dockerfile") && !IsDevopsPath("frontend/Dockerfile")
  {
    ClassesDisjoint("backend/Dockerfile");
    ClassesDisjoint("frontend/Dockerfile");
  }

  /** The compose file, the README and the environment example are listed
      as devops files. */
  lemma DefaultDevopsFilesClassified()
    ensures IsDevopsPath("docker-compose.yml") && IsDevopsPath("README.md") && IsDevopsPath(".env.example")
  {
    assert StartsWith("docker-compose.yml", DevopsPrefixes[1]);
    assert StartsWith("README.md", DevopsPrefixes[3]);
    assert StartsWith(".env.example", DevopsPrefixes[4]);
  }

  // ---------------------------------------------------------------------
  // The verdict
  // ---------------------------------------------------------------------

  /** The language model's answer; every field may be missing. */
  datatype Answer = Answer(isConsistent: Option<bool>, issues: Option<seq<Issue>>, fileFixes: Option<seq<Fix>>,
                           score: Option<int>, summary: Option<string>)

  /** The validator's result. */
  datatype Validation = Validation(isConsistent: bool, issues: seq<Issue>, fileFixes: seq<Fix>, score: int, summary: string)

  const ErrorSummary := "Validation skipped due to LLM error. Approved by default."
  const ExceptionSummary := "Validation failed with exception. Approved by default."

  /** Reading the answer raises: an issue that is not a record cannot be
      asked for its severity, and a rejection logs every fix's path and
      builder. */
  predicate ReadingRaises(a: Answer) {
    (exists i :: 0 <= i < |a.issues.GetOr([])| && a.issues.GetOr([])[i].NotARecord?) ||
    (!a.isConsistent.GetOr(true) &&
     exists j :: 0 <= j < |a.fileFixes.GetOr([])| && (a.fileFixes.GetOr([])[j].path.None? || a.fileFixes.GetOr([])[j].builder.None?))
  }

  /** `run_integration_validator(state)`: the prompt is built before the
      call is guarded, so a missing technical specification raises; a failed
      call approves with score 70, an exception with score 60, and missing
      fields of an answer default to approval with score 80. */
  function Validate(techSpec: Option<TechSpec>, reply: Attempt<Answer>): Outcome<Validation> {
    if techSpec.None? then Crashed("AttributeError")
    else match reply
      case Threw(_) => Done(Validation(true, [], [], 60, ExceptionSummary))
      case Returned(LlmError(_)) => Done(Validation(true, [], [], 70, ErrorSummary))
      case Returned(LlmOk(a)) =>
        if ReadingRaises(a) then Done(Validation(true, [], [], 60, ExceptionSummary))
        else Done(Validation(a.isConsistent.GetOr(true), a.issues.GetOr([]), a.fileFixes.GetOr([]),
                             a.score.GetOr(80), a.summary.GetOr("")))
  }

  /** The validator rejects exactly when the model answered, explicitly
      rejected, and its answer could be read; a rejection's fixes all name a
      path and a builder, and every default result approves with no fixes. */
  lemma ValidateMeaning(techSpec: Option<TechSpec>, reply: Attempt<Answer>)
    ensures Validate(techSpec, reply).Crashed? <==> techSpec.None?
    ensures Validate(techSpec, reply).Done? ==>
      (!Validate(techSpec, reply).value.isConsistent <==>
        reply.Returned? && reply.result.LlmOk? && reply.result.reply.isConsistent == Some(false) &&
        !ReadingRaises(reply.result.reply))
    ensures Validate(techSpec, reply).Done? && !Validate(techSpec, reply).value.isConsistent ==>
      forall f :: f in Validate(techSpec, reply).value.fileFixes ==> f.path.Some? && f.builder.Some?
    ensures Validate(techSpec, reply).Done? && !(reply.Returned? && reply.result.LlmOk? && !ReadingRaises(reply.result.reply)) ==>
      Validate(techSpec, reply).value.isConsistent && Validate(techSpec, reply).value.fileFixes == [] &&
      Validate(techSpec, reply).value.issues == [] && Validate(techSpec, reply).value.score in {60, 70}
  {
    if techSpec.Some? && reply.Returned? && reply.result.LlmOk? {
      var a := reply.result.reply;
      if !ReadingRaises(a) && !a.isConsistent.GetOr(true) {
        forall f | f in a.fileFixes.GetOr([])
          ensures f.path.Some? && f.builder.Some?
        {
          var j :| 0 <= j < |a.fileFixes.GetOr([])| && a.fileFixes.GetOr([])[j] == f;
        }
      }
    }
  }

  /** An answer with no fields approves with score 80. */
  lemma EmptyAnswerApproves(techSpec: TechSpec)
    ensures Validate(Some(techSpec), Returned(LlmOk(Answer(None, None, None, None, None))))
      == Done(Validation(true, [], [], 80, ""))
  {
  }

  /** A rejection whose fix names no builder is lost: reading it raises, and
      the run approves by default with score 60. */
  lemma FixWithoutBuilderApproves(techSpec: TechSpec)
    ensures var fix := Fix(Some("backend/main.py"), None, Some("add router"));
      Validate(Some(techSpec), Returned(LlmOk(Answer(Some(false), None, Some([fix]), Some(40), None))))
        == Done(Validation(true, [], [], 60, ExceptionSummary))
  {
    var fix := Fix(Some("backend/main.py"), None, Some("add router"));
    assert [fix][0].builder.None?;
  }
}
