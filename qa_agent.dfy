/**
 * The QA agent: picks the test files to write (the architect's `qa_spec`, or
 * a conftest plus one file per router and per ML, GenAI and auth service
 * found among the generated backend files), asks the language model for each
 * file in turn, numbers every documented test case `TC-001`, `TC-002`, ...
 * across all files, and falls back to one acceptance case per user story
 * when no test case was produced at all.
 */
module QaAgent {
  import opened Common
  import opened Text
  import opened Artifacts

  // ---------------------------------------------------------------------
  // _get_test_specs
  // ---------------------------------------------------------------------

  /** A backend source file: under `backend/` but not under `backend/tests/`. */
  predicate IsBackendSource(f: GeneratedFile) {
    StartsWith(f.path, "backend/") && !StartsWith(f.path, "backend/tests/")
  }

  /** Some file's path contains `sub`. */
  predicate AnyPathContains(files: seq<GeneratedFile>, sub: string)
    decreases |files|
  {
    files != [] && (Contains(files[0].path, sub) || AnyPathContains(files[1..], sub))
  }

  /** The wording of an instruction, as the prompt shows it. */
  function InstructionText(i: Instruction): string {
    match i
    case Written(text) => text
    case ConftestTests =>
      "Genera conftest.py con fixtures: async_session (SQLite en memoria), client (httpx.AsyncClient con override de get_db), auth_token (JWT valido para tests). Usa pytest-asyncio."
    case RouterTests(path) =>
      "Genera tests para los endpoints del router " + path
      + ". Incluye: crear recurso (201), listar (200), obtener por ID (200), ID inexistente (404), campos invalidos (422). Minimo 5 tests."
    case MlTests =>
      "Genera tests para el servicio ML: clasificacion correcta por keywords, texto ambiguo con baja confianza, texto vacio. Minimo 4 tests."
    case GenAiTests =>
      "Genera tests para el servicio GenAI: mockear Anthropic API, verificar estructura de respuesta, manejar error de API, timeout. Usa unittest.mock.patch. Minimo 4 tests."
    case AuthTests =>
      "Genera tests para autenticacion: login exitoso, credenciales invalidas (401), acceso sin token (401), token expirado (401). Minimo 4 tests."
  }

  const ConftestSpec: TestSpec := TestSpec(Some("backend/tests/conftest.py"), Some(ConftestTests), [])
  const MlSpec: TestSpec := TestSpec(Some("backend/tests/test_ml_service.py"), Some(MlTests), [])
  const GenAiSpec: TestSpec := TestSpec(Some("backend/tests/test_genai_service.py"), Some(GenAiTests), [])
  const AuthSpec: TestSpec := TestSpec(Some("backend/tests/test_auth.py"), Some(AuthTests), [])

  /** The last `/`-separated piece of the path without `_router.py` and `.py`. */
  function RouterName(path: string): string {
    var pieces := Split(path, '/');
    Replace(Replace(pieces[|pieces| - 1], "_router.py", ""), ".py", "")
  }

  /** The test file written for the router at `path`. */
  function RouterSpec(path: string): TestSpec {
    TestSpec(Some("backend/tests/test_" + RouterName(path) + ".py"),
             Some(RouterTests(path)), [])
  }

  /** One test file per file whose path contains `router`, in file order. */
  function RouterSpecs(files: seq<GeneratedFile>): seq<TestSpec>
    decreases |files|
  {
    if files == [] then []
    else
      var f := files[|files| - 1];
      RouterSpecs(files[..|files| - 1]) + (if Contains(f.path, "router") then [RouterSpec(f.path)] else [])
  }

  /** The specs derived from the generated backend files. */
  function DerivedSpecs(generated: seq<GeneratedFile>): seq<TestSpec> {
    var backend := Filter(IsBackendSource, generated);
    [ConftestSpec] + RouterSpecs(backend) + ServiceSpecs(backend)
  }

  /** One test file each for the ML, GenAI and auth services, when some
      backend file's path names them. */
  function ServiceSpecs(backend: seq<GeneratedFile>): seq<TestSpec> {
    (if AnyPathContains(backend, "ml") then [MlSpec] else [])
    + (if AnyPathContains(backend, "genai") then [GenAiSpec] else [])
    + (if AnyPathContains(backend, "auth") then [AuthSpec] else [])
  }

  /** `_get_test_specs(state)`: a non-empty `test_files` list of the
      architect's `qa_spec` wins; otherwise the derived specs. */
  function TestSpecsFor(qaSpec: Option<QaSpec>, generated: seq<GeneratedFile>): seq<TestSpec> {
    if qaSpec.Some? && qaSpec.value.testFiles != [] then qaSpec.value.testFiles
    else DerivedSpecs(generated)
  }

  /** `_get_test_specs(state)`, with its loop over the backend files. */
  method GetTestSpecs(qaSpec: Option<QaSpec>, generated: seq<GeneratedFile>) returns (specs: seq<TestSpec>)
    ensures specs == TestSpecsFor(qaSpec, generated)
  {
    if qaSpec.Some? && qaSpec.value.testFiles != [] {
      return qaSpec.value.testFiles;
    }
    var backend := Filter(IsBackendSource, generated);
    var routers := RouterLoop(backend);
    var services := ServiceChecks(backend);
    specs := [ConftestSpec] + routers + services;
  }

  /** The three service checks of `_get_test_specs`. */
  method ServiceChecks(backend: seq<GeneratedFile>) returns (specs: seq<TestSpec>)
    ensures specs == ServiceSpecs(backend)
  {
    specs := [];
    if AnyPathContains(backend, "ml") {
      specs := specs + [MlSpec];
    }
    if AnyPathContains(backend, "genai") {
      specs := specs + [GenAiSpec];
    }
    if AnyPathContains(backend, "auth") {
      specs := specs + [AuthSpec];
    }
  }

  /** The loop of `_get_test_specs` over the backend files. */
  method RouterLoop(backend: seq<GeneratedFile>) returns (specs: seq<TestSpec>)
    ensures specs == RouterSpecs(backend)
  {
    specs := [];
    var k := 0;
    while k < |backend|
      invariant 0 <= k <= |backend|
      invariant specs == RouterSpecs(backend[..k])
    {
      assert backend[..k + 1][..k] == backend[..k];
      if Contains(backend[k].path, "router") {
        specs := specs + [RouterSpec(backend[k].path)];
      }
      k := k + 1;
    }
    assert backend[..k] == backend;
  }

  /** A router's test file lies under `backend/tests/` and has an instruction. */
  lemma RouterSpecComplete(path: string)
    ensures RouterSpec(path).path.Some? && RouterSpec(path).instruction.Some?
    ensures StartsWith(RouterSpec(path).path.value, "backend/tests/")
  {
    var p := "backend/tests/test_" + RouterName(path) + ".py";
    assert p[..|"backend/tests/"|] == "backend/tests/";
  }

  /** Every router file gets its own test file, and every router test file
      comes from a router file. */
  lemma {:induction false} RouterSpecsMeaning(files: seq<GeneratedFile>)
    ensures |RouterSpecs(files)| <= |files|
    ensures forall k :: 0 <= k < |files| && Contains(files[k].path, "router") ==>
      RouterSpec(files[k].path) in RouterSpecs(files)
    ensures forall s :: s in RouterSpecs(files) ==>
      exists k :: 0 <= k < |files| && Contains(files[k].path, "router") && s == RouterSpec(files[k].path)
    decreases |files|
  {
    if files != [] {
      var init := files[..|files| - 1];
      RouterSpecsMeaning(init);
      forall k | 0 <= k < |init|
        ensures files[k] == init[k]
      {
      }
    }
  }

  /** There is always at least one test file to write. */
  lemma SpecsNeverEmpty(qaSpec: Option<QaSpec>, generated: seq<GeneratedFile>)
    ensures |TestSpecsFor(qaSpec, generated)| >= 1
  {
  }

  /** A spec that names a test file under `backend/tests/` and carries an
      instruction: building its prompt cannot raise. */
  predicate Complete(s: TestSpec) {
    s.path.Some? && StartsWith(s.path.value, "backend/tests/") && s.instruction.Some?
  }

  lemma FixedSpecsComplete()
    ensures Complete(ConftestSpec) && Complete(MlSpec) && Complete(GenAiSpec) && Complete(AuthSpec)
  {
    assert "backend/tests/conftest.py"[..14] == "backend/tests/";
    assert "backend/tests/test_ml_service.py"[..14] == "backend/tests/";
    assert "backend/tests/test_genai_service.py"[..14] == "backend/tests/";
    assert "backend/tests/test_auth.py"[..14] == "backend/tests/";
  }

  /** The derived specs are all complete and start with the conftest, and
      there are at most four more of them than backend source files. */
  lemma DerivedSpecsComplete(generated: seq<GeneratedFile>)
    ensures var specs := DerivedSpecs(generated);
      specs[0] == ConftestSpec
      && |specs| <= 4 + |Filter(IsBackendSource, generated)|
      && forall s :: s in specs ==> Complete(s)
  {
    var backend := Filter(IsBackendSource, generated);
    var specs := DerivedSpecs(generated);
    RouterSpecsMeaning(backend);
    FixedSpecsComplete();
    forall s | s in specs
      ensures Complete(s)
    {
      if s in RouterSpecs(backend) {
        var k :| 0 <= k < |backend| && Contains(backend[k].path, "router") && s == RouterSpec(backend[k].path);
        RouterSpecComplete(backend[k].path);
      } else {
        assert s == ConftestSpec || s == MlSpec || s == GenAiSpec || s == AuthSpec;
      }
    }
  }

  // ---------------------------------------------------------------------
  // run_qa_agent
  // ---------------------------------------------------------------------

  /** An entry of the reply's `test_cases` list: an object whose keys may be
      missing, or a value `.get` cannot be called on. */
  datatype RawTestCase = RawTestCase(title: Option<string>, usId: Option<string>, kind: Option<string>) | NotAnObject

  /** A successful reply; `repr` stands for `str(result)`, the file content
      used when `content` is missing or empty. */
  datatype QaReply = QaReply(content: Option<string>, testCases: seq<RawTestCase>, repr: string)

  datatype QaResult = QaResult(testCases: seq<TestCase>, testFiles: seq<GeneratedFile>,
                               testResults: TestResults, reasoning: string)

  /** What the specs produced so far: the numbered test cases and the files. */
  datatype Generated = Generated(cases: seq<TestCase>, files: seq<GeneratedFile>)

  /** What one spec produced. */
  datatype FileResult = FileResult(cases: seq<TestCase>, file: Option<GeneratedFile>)

  /** How many entries precede the first one that is not an object. */
  function LeadingObjects(raws: seq<RawTestCase>): (n: nat)
    ensures n <= |raws|
    ensures forall k :: 0 <= k < n ==> raws[k].RawTestCase?
    ensures n < |raws| ==> raws[n].NotAnObject?
    decreases |raws|
  {
    if raws == [] || raws[0].NotAnObject? then 0
    else
      var rest := LeadingObjects(raws[1..]);
      assert forall k :: 1 <= k < 1 + rest ==> raws[k] == raws[1..][k - 1];
      1 + rest
  }

  /** The test case numbered `counter`. */
  function MakeCase(raw: RawTestCase, counter: nat): TestCase
    requires raw.RawTestCase?
  {
    TestCase(PaddedId("TC-", counter), raw.title.GetOr("Test " + NatToDecimal(counter)), raw.title.GetOr(""),
             ["System running", "Test DB initialized"], ["Execute pytest"], "Pass", raw.usId.GetOr(""), raw.kind.GetOr("integration"), "QA Agent")
  }

  /** The cases read from one reply, numbered from `counter` on: an entry
      that is not an object raises inside the `try`, so reading stops there. */
  function FileCases(raws: seq<RawTestCase>, counter: nat): (r: seq<TestCase>)
    ensures |r| == LeadingObjects(raws)
    ensures forall k :: 0 <= k < |r| ==> r[k].id == PaddedId("TC-", counter + k)
  {
    seq(LeadingObjects(raws), k requires 0 <= k < LeadingObjects(raws) => MakeCase(raws[k], counter + k))
  }

  /** `content`, or `str(result)` when it is missing or empty. */
  function Content(r: QaReply): string {
    if r.content.Some? && r.content.value != "" then r.content.value else r.repr
  }

  /** One pass of the loop body, after the prompt has been built: an
      exception or an error adds nothing; a reply adds its cases and, unless
      reading them raised, the file. */
  function GenerateFile(spec: TestSpec, attempt: Attempt<QaReply>, counter: nat): FileResult {
    match attempt
    case Threw(_) => FileResult([], None)
    case Returned(LlmError(_)) => FileResult([], None)
    case Returned(LlmOk(r)) =>
      var cases := FileCases(r.testCases, counter);
      if LeadingObjects(r.testCases) < |r.testCases| then FileResult(cases, None)
      else FileResult(cases, Some(GeneratedFile(spec.path.GetOr(""), Content(r), spec.focusUs, "QA Agent")))
  }

  /** The loop of `run_qa_agent` over the specs, the counter continuing
      from the cases already numbered. */
  function QaRun(specs: seq<TestSpec>, replies: seq<Attempt<QaReply>>): Generated
    requires |specs| == |replies|
    decreases |specs|
  {
    if specs == [] then Generated([], [])
    else
      var g := QaRun(specs[..|specs| - 1], replies[..|replies| - 1]);
      var fr := GenerateFile(specs[|specs| - 1], replies[|replies| - 1], |g.cases| + 1);
      Generated(g.cases + fr.cases, g.files + (if fr.file.Some? then [fr.file.value] else []))
  }

  /** The uncaught exception building one spec's prompt raises: `spec["path"]`,
      `spec["instruction"]`, then `tech_spec.get` on a missing specification. */
  function SpecCrash(spec: TestSpec, hasTechSpec: bool): Option<string> {
    if spec.path.None? then Some("KeyError")
    else if spec.instruction.None? then Some("KeyError")
    else if !hasTechSpec then Some("AttributeError")
    else None
  }

  /** The exception of the first spec that raises one. */
  function FirstCrash(specs: seq<TestSpec>, hasTechSpec: bool): Option<string>
    decreases |specs|
  {
    if specs == [] then None
    else
      var before := FirstCrash(specs[..|specs| - 1], hasTechSpec);
      if before.Some? then before else SpecCrash(specs[|specs| - 1], hasTechSpec)
  }

  /** The acceptance case the fallback writes for the `j`-th story. */
  function FallbackCase(us: UserStory, j: nat): TestCase {
    TestCase(PaddedId("TC-", j + 1), "Test for " + us.title, "Verify: " + us.title, ["System running"],
             us.acceptanceCriteria, "All acceptance criteria pass", us.id, "acceptance", "QA Agent")
  }

  function FallbackCases(stories: seq<UserStory>): (r: seq<TestCase>)
    ensures |r| == |stories|
    ensures forall j :: 0 <= j < |stories| ==> r[j] == FallbackCase(stories[j], j)
  {
    seq(|stories|, j requires 0 <= j < |stories| => FallbackCase(stories[j], j))
  }

  /** The returned dictionary once the loop is over. */
  function Finish(stories: seq<UserStory>, g: Generated): QaResult {
    var cases := if g.cases == [] then FallbackCases(stories) else g.cases;
    QaResult(cases, g.files, TestResults(|cases|, |g.files|, |cases|),
             "Generated " + NatToDecimal(|cases|) + " test cases and " + NatToDecimal(|g.files|) + " test files.")
  }

  /** `run_qa_agent(state)` as a whole. */
  function ExpectedQa(stories: seq<UserStory>, specs: seq<TestSpec>, hasTechSpec: bool,
                      replies: seq<Attempt<QaReply>>): Outcome<QaResult>
    requires |specs| == |replies|
  {
    match FirstCrash(specs, hasTechSpec)
    case Some(kind) => Crashed(kind)
    case None => Done(Finish(stories, QaRun(specs, replies)))
  }

  /** `run_qa_agent(state)`: `replies[i]` is what the call for the `i`-th
      spec returned or raised. */
  method RunQaAgent(stories: seq<UserStory>, qaSpec: Option<QaSpec>, generated: seq<GeneratedFile>,
                    hasTechSpec: bool, replies: seq<Attempt<QaReply>>) returns (out: Outcome<QaResult>)
    requires |replies| == |TestSpecsFor(qaSpec, generated)|
    ensures out == ExpectedQa(stories, TestSpecsFor(qaSpec, generated), hasTechSpec, replies)
  {
    var specs := GetTestSpecs(qaSpec, generated);
    var written := WriteTestFiles(specs, hasTechSpec, replies);
    match written
    case Crashed(kind) =>
      out := Crashed(kind);
    case Done(g) =>
      var result := FinishRun(stories, g.cases, g.files);
      out := Done(result);
  }

  /** The loop of `run_qa_agent` over the specs. */
  method WriteTestFiles(specs: seq<TestSpec>, hasTechSpec: bool, replies: seq<Attempt<QaReply>>)
    returns (out: Outcome<Generated>)
    requires |replies| == |specs|
    ensures FirstCrash(specs, hasTechSpec).Some? ==> out == Crashed(FirstCrash(specs, hasTechSpec).value)
    ensures FirstCrash(specs, hasTechSpec).None? ==> out == Done(QaRun(specs, replies))
  {
    var cases: seq<TestCase> := [];
    var files: seq<GeneratedFile> := [];
    var counter := 1;
    var i := 0;
    while i < |specs|
      invariant 0 <= i <= |specs|
      invariant FirstCrash(specs[..i], hasTechSpec).None?
      invariant Generated(cases, files) == QaRun(specs[..i], replies[..i])
      invariant counter == |cases| + 1
    {
      assert specs[..i + 1][..i] == specs[..i];
      assert replies[..i + 1][..i] == replies[..i];
      var crash := SpecCrash(specs[i], hasTechSpec);
      if crash.Some? {
        FirstCrashPrefix(specs, hasTechSpec, i + 1);
        return Crashed(crash.value);
      }
      var fr := GenerateOne(specs[i], replies[i], counter);
      cases := cases + fr.cases;
      counter := counter + |fr.cases|;
      if fr.file.Some? {
        files := files + [fr.file.value];
      }
      i := i + 1;
    }
    assert specs[..i] == specs;
    assert replies[..i] == replies;
    out := Done(Generated(cases, files));
  }

  /** The fallback and the returned dictionary after the loop. */
  method FinishRun(stories: seq<UserStory>, cases: seq<TestCase>, files: seq<GeneratedFile>) returns (result: QaResult)
    ensures result == Finish(stories, Generated(cases, files))
  {
    var all := cases;
    if all == [] {
      all := FallbackLoop(stories);
    }
    result := QaResult(all, files, TestResults(|all|, |files|, |all|),
      "Generated " + NatToDecimal(|all|) + " test cases and " + NatToDecimal(|files|) + " test files.");
  }

  /** The body of the loop for one spec, after its prompt was built. */
  method GenerateOne(spec: TestSpec, attempt: Attempt<QaReply>, counter: nat) returns (fr: FileResult)
    ensures fr == GenerateFile(spec, attempt, counter)
  {
    match attempt
    case Threw(_) =>
      fr := FileResult([], None);
    case Returned(LlmError(_)) =>
      fr := FileResult([], None);
    case Returned(LlmOk(r)) =>
      var cases, complete := ReadCases(r.testCases, counter);
      if complete {
        fr := FileResult(cases, Some(GeneratedFile(spec.path.GetOr(""), Content(r), spec.focusUs, "QA Agent")));
      } else {
        fr := FileResult(cases, None);
      }
  }

  /** The inner loop `for tc in raw_tcs`, advancing the counter; it stops
      at the first entry that is not an object. */
  method ReadCases(raws: seq<RawTestCase>, start: nat) returns (cases: seq<TestCase>, complete: bool)
    ensures cases == FileCases(raws, start)
    ensures complete <==> LeadingObjects(raws) == |raws|
  {
    cases := [];
    var counter := start;
    var k := 0;
    while k < |raws|
      invariant 0 <= k <= LeadingObjects(raws)
      invariant counter == start + k
      invariant |cases| == k
      invariant forall j :: 0 <= j < k ==> cases[j] == MakeCase(raws[j], start + j)
    {
      if raws[k].NotAnObject? {
        return cases, false;
      }
      cases := cases + [MakeCase(raws[k], counter)];
      counter := counter + 1;
      k := k + 1;
    }
    complete := true;
  }

  /** The fallback loop over the user stories. */
  method FallbackLoop(stories: seq<UserStory>) returns (cases: seq<TestCase>)
    ensures cases == FallbackCases(stories)
  {
    cases := [];
    var j := 0;
    while j < |stories|
      invariant 0 <= j <= |stories|
      invariant cases == FallbackCases(stories[..j])
    {
      cases := cases + [FallbackCase(stories[j], j)];
      j := j + 1;
    }
    assert stories[..j] == stories;
  }

  /** Once a prefix of the specs raises, so does the whole list, with the
      same exception. */
  lemma {:induction false} FirstCrashPrefix(specs: seq<TestSpec>, hasTechSpec: bool, j: nat)
    requires j <= |specs|
    requires FirstCrash(specs[..j], hasTechSpec).Some?
    ensures FirstCrash(specs, hasTechSpec) == FirstCrash(specs[..j], hasTechSpec)
    decreases |specs| - j
  {
    if j < |specs| {
      var init := specs[..|specs| - 1];
      assert init[..j] == specs[..j];
      FirstCrashPrefix(init, hasTechSpec, j);
    } else {
      assert specs[..j] == specs;
    }
  }

  /** The run raises exactly when some spec lacks its path or instruction,
      or there is no technical specification to read the endpoints from. */
  lemma {:induction false} CrashIff(specs: seq<TestSpec>, hasTechSpec: bool)
    requires |specs| >= 1
    ensures FirstCrash(specs, hasTechSpec).Some? <==>
      !hasTechSpec || exists k :: 0 <= k < |specs| && (specs[k].path.None? || specs[k].instruction.None?)
    decreases |specs|
  {
    var init := specs[..|specs| - 1];
    if |specs| > 1 {
      CrashIff(init, hasTechSpec);
      assert forall k :: 0 <= k < |init| ==> init[k] == specs[k];
    }
  }

  /** With a technical specification present, the specs the agent derives
      itself never make the run raise. */
  lemma DerivedSpecsNeverCrash(generated: seq<GeneratedFile>)
    ensures FirstCrash(DerivedSpecs(generated), true).None?
  {
    var specs := DerivedSpecs(generated);
    DerivedSpecsComplete(generated);
    CrashIff(specs, true);
    assert forall k :: 0 <= k < |specs| ==> specs[k] in specs;
  }

  /** Test cases are numbered consecutively from `TC-001` across all files. */
  lemma {:induction false} QaRunNumbering(specs: seq<TestSpec>, replies: seq<Attempt<QaReply>>)
    requires |specs| == |replies|
    ensures forall k :: 0 <= k < |QaRun(specs, replies).cases| ==>
      QaRun(specs, replies).cases[k].id == PaddedId("TC-", k + 1)
    decreases |specs|
  {
    if specs != [] {
      var g := QaRun(specs[..|specs| - 1], replies[..|replies| - 1]);
      QaRunNumbering(specs[..|specs| - 1], replies[..|replies| - 1]);
      assert forall k :: 0 <= k < |g.cases| ==> g.cases[k].id == PaddedId("TC-", k + 1);
      var fr := GenerateFile(specs[|specs| - 1], replies[|replies| - 1], |g.cases| + 1);
      assert forall j :: 0 <= j < |fr.cases| ==> fr.cases[j].id == PaddedId("TC-", |g.cases| + 1 + j);
      var cases := QaRun(specs, replies).cases;
      assert cases == g.cases + fr.cases;
      forall k | 0 <= k < |cases|
        ensures cases[k].id == PaddedId("TC-", k + 1)
      {
        if k >= |g.cases| {
          var j := k - |g.cases|;
          assert cases[k] == fr.cases[j];
          assert fr.cases[j].id == PaddedId("TC-", |g.cases| + 1 + j);
          assert |g.cases| + 1 + j == k + 1;
          assert cases[k].id == PaddedId("TC-", k + 1);
        } else {
          assert cases[k] == g.cases[k];
          assert g.cases[k].id == PaddedId("TC-", k + 1);
        }
      }
    }
  }

  /** Every file written is one of the specs' test files, written by the QA
      agent with the spec's user stories; at most one file per spec. */
  lemma {:induction false} QaRunFiles(specs: seq<TestSpec>, replies: seq<Attempt<QaReply>>)
    requires |specs| == |replies|
    ensures var files := QaRun(specs, replies).files;
      |files| <= |specs|
      && forall f :: f in files ==>
           f.createdBy == "QA Agent"
           && exists k :: 0 <= k < |specs| && f.path == specs[k].path.GetOr("") && f.usIds == specs[k].focusUs
    decreases |specs|
  {
    if specs != [] {
      var init := specs[..|specs| - 1];
      QaRunFiles(init, replies[..|replies| - 1]);
      assert forall k :: 0 <= k < |init| ==> init[k] == specs[k];
    }
  }

  /** In a finished run every test case id is `TC-` and its 1-based
      position, so the ids are pairwise distinct, and the reported counts are
      the lengths of the returned lists. */
  lemma FinishedRunShape(stories: seq<UserStory>, specs: seq<TestSpec>, hasTechSpec: bool,
                         replies: seq<Attempt<QaReply>>, r: QaResult)
    requires |specs| == |replies|
    requires ExpectedQa(stories, specs, hasTechSpec, replies) == Done(r)
    ensures forall k :: 0 <= k < |r.testCases| ==> r.testCases[k].id == PaddedId("TC-", k + 1)
    ensures forall i, j :: 0 <= i < j < |r.testCases| ==> r.testCases[i].id != r.testCases[j].id
    ensures r.testResults == TestResults(|r.testCases|, |r.testFiles|, |r.testCases|)
  {
    QaRunNumbering(specs, replies);
    forall i, j | 0 <= i < j < |r.testCases|
      ensures r.testCases[i].id != r.testCases[j].id
    {
      PaddedIdInjective("TC-", i + 1, j + 1);
    }
  }

  /** When no reply produced a test case, every user story gets exactly one
      acceptance case, in story order. */
  lemma FallbackCoversStories(stories: seq<UserStory>, specs: seq<TestSpec>, hasTechSpec: bool,
                              replies: seq<Attempt<QaReply>>, r: QaResult)
    requires |specs| == |replies|
    requires ExpectedQa(stories, specs, hasTechSpec, replies) == Done(r)
    requires QaRun(specs, replies).cases == []
    ensures |r.testCases| == |stories|
    ensures forall j :: 0 <= j < |stories| ==> r.testCases[j].usId == stories[j].id && r.testCases[j].kind == "acceptance"
    ensures forall j :: 0 <= j < |stories| ==> r.testCases[j].steps == stories[j].acceptanceCriteria
  {
  }
}
