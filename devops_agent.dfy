/**
 * The DevOps agent: which deployment files it writes (its own spec, else
 * the project structure's devops entries, else six fixed defaults), one
 * call per file where a failed call writes nothing, and a two-file
 * fallback when no call succeeds.
 */
module DevopsAgent {
  import opened Common
  import opened Text
  import opened Artifacts
  import opened Builders

  /** A deployment file the agent writes when the architect named none. */
  function DevopsSpec(path: string): FileSpec {
    FileSpec(Some(path), Some("devops"))
  }

  /** The six deployment files written by default, in order. */
  const DefaultSpecs: seq<FileSpec> := [
    DevopsSpec("backend/Dockerfile"), DevopsSpec("frontend/Dockerfile"),
    DevopsSpec("frontend/nginx-site.conf"), DevopsSpec("docker-compose.yml"),
    DevopsSpec(".env.example"), DevopsSpec("README.md")]

  /** `_get_file_specs(state)`: the agent's own files when it has any;
      otherwise the project structure is read (which raises without a
      technical specification) and its devops entries are used only when
      there are some; otherwise the defaults. */
  function FileSpecs(own: Option<BuilderSpec>, techSpec: Option<TechSpec>): (r: Outcome<seq<FileSpec>>)
    ensures r.Done? ==> r.value != []
    ensures r.Done? && !(own.Some? && own.value.files != []) ==>
      forall s :: s in r.value ==> s.domain == Some("devops")
    ensures r.Crashed? <==> techSpec.None? && !(own.Some? && own.value.files != [])
  {
    if own.Some? && own.value.files != [] then Done(own.value.files)
    else if techSpec.None? then Crashed("AttributeError")
    else
      var devops := Filter((f: FileSpec) => f.domain == Some("devops"), techSpec.value.projectStructure.files);
      Done(if devops != [] then devops else DefaultSpecs)
  }

  /** The path a spec without one is written to. */
  function DefaultPath(i: nat): string {
    "unknown_" + NatToDecimal(i)
  }

  /** `spec.get("path", f"unknown_{i}")` */
  function FilePath(spec: FileSpec, i: nat): string {
    match spec.path
    case Some(p) => p
    case None => DefaultPath(i)
  }

  /** The exception building a file's prompt raises, if any: the technical
      specification is read for every file, and, as written, the spec's
      own path is indexed. */
  function PromptFailure(techSpec: Option<TechSpec>, spec: FileSpec, reading: Reading): Option<string> {
    if techSpec.None? then Some("AttributeError")
    else if reading.AsWritten? && spec.path.None? then Some("KeyError")
    else None
  }

  /** The file a successful call writes. */
  function Output(spec: FileSpec, i: nat, reply: BuildReply): GeneratedFile {
    GeneratedFile(FilePath(spec, i), ReplyContent(reply), [], "DevOps Agent")
  }

  /** The loop over the specs: a failed call writes nothing. */
  function Written(techSpec: Option<TechSpec>, specs: seq<FileSpec>, replies: seq<Attempt<BuildReply>>, reading: Reading)
    : Outcome<seq<GeneratedFile>>
    requires |replies| == |specs|
    decreases |specs|
  {
    if specs == [] then Done([])
    else
      var n := |specs| - 1;
      match Written(techSpec, specs[..n], replies[..n], reading)
      case Crashed(kind) => Crashed(kind)
      case Done(files) => Step(techSpec, files, specs[n], n, replies[n], reading)
  }

  /** One pass of the loop for the `i`-th spec. */
  function Step(techSpec: Option<TechSpec>, files: seq<GeneratedFile>, spec: FileSpec, i: nat,
                reply: Attempt<BuildReply>, reading: Reading): Outcome<seq<GeneratedFile>> {
    match PromptFailure(techSpec, spec, reading)
    case Some(kind) => Crashed(kind)
    case None => Done(if Failed(reply) then files else files + [Output(spec, i, reply.result.reply)])
  }

  datatype DevopsResult = DevopsResult(files: seq<GeneratedFile>, reasoning: string)

  const FallbackCompose := "version: '3.8'\nservices:\n  backend:\n    build: ./backend\n    ports:\n      - '8001:8000'\n"
  const FallbackReadme := "# Project\n\nDevOps generation failed. Run manually:\n```\ncd backend && uvicorn main:app --reload\n```\n"

  /** `_fallback(state)`: a minimal compose file and README. */
  function Fallback(): DevopsResult {
    DevopsResult(
      [GeneratedFile("docker-compose.yml", FallbackCompose, [], "DevOps Agent (fallback)"),
       GeneratedFile("README.md", FallbackReadme, [], "DevOps Agent (fallback)")],
      "Fallback: LLM calls failed.")
  }

  /** `run_devops_agent(state)`, with one reply per spec. */
  function Devops(own: Option<BuilderSpec>, techSpec: Option<TechSpec>, replies: seq<Attempt<BuildReply>>, reading: Reading)
    : Outcome<DevopsResult>
    requires FileSpecs(own, techSpec).Done? ==> |replies| == |FileSpecs(own, techSpec).value|
  {
    match FileSpecs(own, techSpec)
    case Crashed(kind) => Crashed(kind)
    case Done(specs) =>
      match Written(techSpec, specs, replies, reading)
      case Crashed(kind) => Crashed(kind)
      case Done(files) =>
        Done(if files == [] then Fallback()
             else DevopsResult(files, "Generated " + NatToDecimal(|files|) + " infrastructure files."))
  }

  /** The agent, corrected as described under "Findings" in the README. */
  method RunDevopsAgent(own: Option<BuilderSpec>, techSpec: Option<TechSpec>, replies: seq<Attempt<BuildReply>>)
    returns (r: Outcome<DevopsResult>)
    requires FileSpecs(own, techSpec).Done? ==> |replies| == |FileSpecs(own, techSpec).value|
    ensures r == Devops(own, techSpec, replies, Corrected)
  {
    var specs := FileSpecs(own, techSpec);
    if specs.Crashed? {
      return Crashed(specs.kind);
    }
    var written := WriteFiles(techSpec, specs.value, replies);
    if written.Crashed? {
      return Crashed(written.kind);
    }
    var files := written.value;
    if files == [] {
      return Done(Fallback());
    }
    r := Done(DevopsResult(files, "Generated " + NatToDecimal(|files|) + " infrastructure files."));
  }

  /** The loop of `run_devops_agent`. */
  method WriteFiles(techSpec: Option<TechSpec>, specs: seq<FileSpec>, replies: seq<Attempt<BuildReply>>)
    returns (r: Outcome<seq<GeneratedFile>>)
    requires |replies| == |specs|
    ensures r == Written(techSpec, specs, replies, Corrected)
  {
    var files: seq<GeneratedFile> := [];
    var i := 0;
    while i < |specs|
      invariant 0 <= i <= |specs|
      invariant Written(techSpec, specs[..i], replies[..i], Corrected) == Done(files)
    {
      assert specs[..i + 1][..i] == specs[..i];
      assert replies[..i + 1][..i] == replies[..i];
      var failure := PromptFailure(techSpec, specs[i], Corrected);
      if failure.Some? {
        CrashStays(techSpec, specs, replies, Corrected, i + 1);
        return Crashed(failure.value);
      }
      if !Failed(replies[i]) {
        files := files + [Output(specs[i], i, replies[i].result.reply)];
      }
      i := i + 1;
    }
    assert specs[..i] == specs && replies[..i] == replies;
    r := Done(files);
  }

  /** Once the loop has raised, later specs change nothing. */
  lemma {:induction false} CrashStays(techSpec: Option<TechSpec>, specs: seq<FileSpec>, replies: seq<Attempt<BuildReply>>,
                                      reading: Reading, k: nat)
    requires |replies| == |specs| && k <= |specs|
    requires Written(techSpec, specs[..k], replies[..k], reading).Crashed?
    ensures Written(techSpec, specs, replies, reading) == Written(techSpec, specs[..k], replies[..k], reading)
    decreases |specs|
  {
    if k == |specs| {
      assert specs[..k] == specs && replies[..k] == replies;
    } else {
      var n := |specs| - 1;
      assert specs[..n][..k] == specs[..k] && replies[..n][..k] == replies[..k];
      CrashStays(techSpec, specs[..n], replies[..n], reading, k);
    }
  }

  /** A finished loop wrote exactly the successful calls' files, each at its
      spec's path (or the default path of its position) with the reply's
      content, crediting no story; the files of earlier specs come first. */
  lemma WrittenMeaning(techSpec: Option<TechSpec>, specs: seq<FileSpec>, replies: seq<Attempt<BuildReply>>,
                                          reading: Reading, files: seq<GeneratedFile>)
    requires |replies| == |specs|
    requires Written(techSpec, specs, replies, reading) == Done(files)
    ensures |files| + FailedCount(replies) == |specs|
    ensures forall i :: 0 <= i < |specs| && !Failed(replies[i]) ==> Output(specs[i], i, replies[i].result.reply) in files
    ensures forall f :: f in files ==>
      exists i :: 0 <= i < |specs| && !Failed(replies[i]) && f == Output(specs[i], i, replies[i].result.reply)
    ensures forall f :: f in files ==> f.usIds == [] && f.createdBy == "DevOps Agent"
    ensures forall k :: 0 <= k <= |specs| ==>
      Written(techSpec, specs[..k], replies[..k], reading).Done? && Written(techSpec, specs[..k], replies[..k], reading).value <= files
  {
    WrittenCount(techSpec, specs, replies, reading, files);
    WrittenHas(techSpec, specs, replies, reading, files);
    WrittenFrom(techSpec, specs, replies, reading, files);
    WrittenPrefixes(techSpec, specs, replies, reading, files);
  }

  /** One file per successful call. */
  lemma {:induction false} WrittenCount(techSpec: Option<TechSpec>, specs: seq<FileSpec>, replies: seq<Attempt<BuildReply>>,
                                          reading: Reading, files: seq<GeneratedFile>)
    requires |replies| == |specs|
    requires Written(techSpec, specs, replies, reading) == Done(files)
    ensures |files| + FailedCount(replies) == |specs|
    decreases |specs|
  {
    if specs != [] {
      var n := |specs| - 1;
      var prior := Written(techSpec, specs[..n], replies[..n], reading).value;
      WrittenCount(techSpec, specs[..n], replies[..n], reading, prior);
      assert Step(techSpec, prior, specs[n], n, replies[n], reading) == Done(files);
      assert replies[..|replies| - 1] == replies[..n];
    }
  }

  /** Every successful call's file is written. */
  lemma {:induction false} WrittenHas(techSpec: Option<TechSpec>, specs: seq<FileSpec>, replies: seq<Attempt<BuildReply>>,
                                          reading: Reading, files: seq<GeneratedFile>)
    requires |replies| == |specs|
    requires Written(techSpec, specs, replies, reading) == Done(files)
    ensures forall i :: 0 <= i < |specs| && !Failed(replies[i]) ==> Output(specs[i], i, replies[i].result.reply) in files
    decreases |specs|
  {
    if specs != [] {
      var n := |specs| - 1;
      var prior := Written(techSpec, specs[..n], replies[..n], reading).value;
      WrittenHas(techSpec, specs[..n], replies[..n], reading, prior);
      assert Step(techSpec, prior, specs[n], n, replies[n], reading) == Done(files);
      forall i | 0 <= i < |specs| && !Failed(replies[i])
        ensures Output(specs[i], i, replies[i].result.reply) in files
      {
        if i < n {
          assert specs[..n][i] == specs[i] && replies[..n][i] == replies[i];
          assert Output(specs[i], i, replies[i].result.reply) in prior;
        }
      }
    }
  }

  /** Every written file is a successful call's, credited to no story and
      created by the agent. */
  lemma {:induction false} WrittenFrom(techSpec: Option<TechSpec>, specs: seq<FileSpec>, replies: seq<Attempt<BuildReply>>,
                                          reading: Reading, files: seq<GeneratedFile>)
    requires |replies| == |specs|
    requires Written(techSpec, specs, replies, reading) == Done(files)
    ensures forall f :: f in files ==>
      exists i :: 0 <= i < |specs| && !Failed(replies[i]) && f == Output(specs[i], i, replies[i].result.reply)
    ensures forall f :: f in files ==> f.usIds == [] && f.createdBy == "DevOps Agent"
    decreases |specs|
  {
    if specs != [] {
      var n := |specs| - 1;
      var prior := Written(techSpec, specs[..n], replies[..n], reading).value;
      WrittenFrom(techSpec, specs[..n], replies[..n], reading, prior);
      assert Step(techSpec, prior, specs[n], n, replies[n], reading) == Done(files);
      forall f | f in files
        ensures exists i :: 0 <= i < |specs| && !Failed(replies[i]) && f == Output(specs[i], i, replies[i].result.reply)
      {
        if f in prior {
          var i :| 0 <= i < n && !Failed(replies[..n][i]) && f == Output(specs[..n][i], i, replies[..n][i].result.reply);
          assert specs[..n][i] == specs[i] && replies[..n][i] == replies[i];
        } else {
          assert f == Output(specs[n], n, replies[n].result.reply);
        }
      }
    }
  }

  /** What each prefix of the loop wrote is kept. */
  lemma {:induction false} WrittenPrefixes(techSpec: Option<TechSpec>, specs: seq<FileSpec>, replies: seq<Attempt<BuildReply>>,
                                          reading: Reading, files: seq<GeneratedFile>)
    requires |replies| == |specs|
    requires Written(techSpec, specs, replies, reading) == Done(files)
    ensures forall k :: 0 <= k <= |specs| ==>
      Written(techSpec, specs[..k], replies[..k], reading).Done? && Written(techSpec, specs[..k], replies[..k], reading).value <= files
    decreases |specs|
  {
    if specs == [] {
      assert specs[..0] == specs && replies[..0] == replies;
    } else {
      var n := |specs| - 1;
      var prior := Written(techSpec, specs[..n], replies[..n], reading).value;
      WrittenPrefixes(techSpec, specs[..n], replies[..n], reading, prior);
      assert Step(techSpec, prior, specs[n], n, replies[n], reading) == Done(files);
      assert prior <= files;
      forall k | 0 <= k <= |specs|
        ensures Written(techSpec, specs[..k], replies[..k], reading).Done?
        ensures Written(techSpec, specs[..k], replies[..k], reading).value <= files
      {
        if k == |specs| {
          assert specs[..k] == specs && replies[..k] == replies;
        } else {
          assert specs[..n][..k] == specs[..k] && replies[..n][..k] == replies[..k];
        }
      }
    }
  }

  /** The fallback is used exactly when every call failed, and the result
      always lists at least one file. */
  lemma FallbackIffAllFailed(own: Option<BuilderSpec>, techSpec: Option<TechSpec>, replies: seq<Attempt<BuildReply>>,
                             reading: Reading, r: DevopsResult)
    requires FileSpecs(own, techSpec).Done? ==> |replies| == |FileSpecs(own, techSpec).value|
    requires Devops(own, techSpec, replies, reading) == Done(r)
    ensures r.files != []
    ensures r == Fallback() <==> forall i :: 0 <= i < |replies| ==> Failed(replies[i])
  {
    var specs := FileSpecs(own, techSpec).value;
    var files := Written(techSpec, specs, replies, reading).value;
    WrittenMeaning(techSpec, specs, replies, reading, files);
    FailedCountAll(replies);
    if files != [] {
      assert files[0].createdBy == "DevOps Agent";
      assert Fallback().files[0].createdBy != "DevOps Agent";
    }
  }

  /** Every call failed exactly when the failures number the calls. */
  lemma {:induction false} FailedCountAll(replies: seq<Attempt<BuildReply>>)
    ensures FailedCount(replies) == |replies| <==> forall i :: 0 <= i < |replies| ==> Failed(replies[i])
    decreases |replies|
  {
    if replies != [] {
      var n := |replies| - 1;
      FailedCountAll(replies[..n]);
      FailedCountMeaning(replies[..n]);
      assert forall i :: 0 <= i < n ==> replies[..n][i] == replies[i];
    }
  }

  /** Without a technical specification the agent always raises: the specs
      cannot be looked up, or the first file's prompt cannot be built. */
  lemma NoTechSpecCrashes(own: Option<BuilderSpec>, replies: seq<Attempt<BuildReply>>, reading: Reading)
    requires FileSpecs(own, None).Done? ==> |replies| == |FileSpecs(own, None).value|
    ensures Devops(own, None, replies, reading).Crashed?
  {
    if FileSpecs(own, None).Done? {
      var specs := FileSpecs(own, None).value;
      assert Written(None, specs[..1], replies[..1], reading).Crashed? by {
        assert specs[..1][..0] == [];
      }
      CrashStays(None, specs, replies, reading, 1);
    }
  }

  /** As written, one spec without a path makes the agent raise
      `KeyError`, although the loop gives such a spec a default path. */
  lemma PathlessSpecCrashesAsWritten()
    ensures Devops(Some(BuilderSpec([FileSpec(None, None)])), Some(ExampleTechSpec()),
                   [Returned(LlmOk(BuildReply("services: {}", None, "")))], AsWritten) == Crashed("KeyError")
  {
    var specs := [FileSpec(None, None)];
    assert specs[..0] == [];
  }

  /** Corrected, the same spec is written to `unknown_0`. */
  lemma PathlessSpecGetsDefaultPath()
    ensures var r := Devops(Some(BuilderSpec([FileSpec(None, None)])), Some(ExampleTechSpec()),
                            [Returned(LlmOk(BuildReply("services: {}", None, "")))], Corrected);
      r.Done? && |r.value.files| == 1 && r.value.files[0].path == "unknown_0"
  {
    var specs := [FileSpec(None, None)];
    assert specs[..0] == [];
    assert NatToDecimal(0) == "0";
  }

  /** A technical specification with an empty project structure. */
  function ExampleTechSpec(): TechSpec {
    TechSpec(ProjectStructure([], []), "", [], "Architect Agent", 0)
  }
}
