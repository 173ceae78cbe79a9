# AI Dev Team pipeline: a Dafny model

This project models the core of a multi-agent code-generation pipeline
built on LangGraph. A brief goes through a planning loop (business analyst,
product owner, architect, planning evaluator) until the plan converges or
the planning budget of three passes is spent. The run then waits at a first
human-approval gate. After approval, a backend builder and a frontend
builder run in parallel, a QA agent writes tests, and an integration
validator either approves the build or sends fixes back to the builders, at
most twice. The run then waits at a second gate, and a DevOps agent writes
the deployment files. A FastAPI layer starts runs in background tasks,
derives the status a poller sees, and applies the human decisions.

Every language-model call is an oracle parameter: a reply, an error reply,
or (where the source wraps the call in `try`) an exception. The engine of
`Workflow` runs the graph on whatever agent results it is handed, so its
theorems hold for every result. `Pipeline` computes each step's results
the way the nodes call their agents, from the state of that step and the
language model's replies, and proves that every such run is a run of the
engine. The state reducers, each agent's normalisation, fallbacks and
per-file loops, the node updates and routers, the graph and its execution
engine, and the API's bookkeeping are modelled; "Left out" lists the rest.

Modules, one per source file or concern:

- `Common`, `Text`: option and outcome types, filters, and the string
  operations the source uses (`split`/`join`, slicing, `replace`, `zfill`
  ids).
- `Reducers`, `State`, `Artifacts`: the `merge_files`, `merge_append` and
  `last_non_empty_str` reducers; the agent state and the application of a
  node's update through those reducers; the initial state and decision
  entries (`backend/graph/state.py`).
- `BaAgent`, `PoAgent`, `ArchitectAgent`, `Evaluator`: the planning agents
  and the planning evaluator's structural checks.
- `Prompts`: when the three planning prompts show feedback, and whose.
- `Builders` (backend and frontend builders, one model parameterised by the
  builder), `QaAgent`, `IntegrationValidator`, `DevopsAgent`: the build
  phase agents.
- `Nodes`: each graph node's state update and the two routers
  (`backend/graph/nodes.py`).
- `Workflow`: the graph as data and the engine that runs it. Every pending
  node runs on the same snapshot. The updates are applied through the
  reducers, with the two builders in either order. The run stops before a
  gate unless it is being resumed, at the end of the graph, or when a node
  raises.
- `Termination`: every run reaches gate 1 when the planning agents'
  replies have the shapes their prompts ask for (see "Left out"), and from
  the validator every run reaches gate 2 or raises, within a step count set
  by the budgets.
- `Pipeline`: the runs the program makes, with every node's result
  computed by its agent from the state of its step and the replies.
- `Routes`: run-status derivation, the gate decisions, the activity tail,
  the file lookup, and a `Server` class holding the run store and the set
  of active background tasks (`backend/api/routes.py`).

Where an operation loops or mutates, it is a method proved against a
specification function, and the properties are lemmas about that function.

## Model

| member | source | states |
|---|---|---|
| Reducers.MergeFiles | backend/graph/state.py:15-20 | the dictionary-filling loop of `merge_files` returns exactly the reference merge `MergedFiles` |
| Reducers.WriteAll | backend/graph/state.py:17-19 | writing a list of files into the dictionary one by one keeps it holding, for each path, the last file written there, with paths in first-write order |
| Reducers.ValuesInOrder | backend/graph/state.py:20 | `list(merged.values())` lists one file per key, in key insertion order |
| Reducers.DistinctKeys | backend/graph/state.py:17-20 | the keys of the merged dictionary: exactly the paths written, each once |
| Reducers.LookupSome | backend/graph/state.py:17-19 | a path has a record in the dictionary exactly when some file carries it |
| Reducers.LookupFound | backend/graph/state.py:17-19 | the record found for a path is one of the files and has that path |
| Reducers.MergedIndex | backend/graph/state.py:17-20 | the merge has one record per distinct path, the i-th being the last record written for the i-th key |
| Reducers.MergedPaths | backend/graph/state.py:17-20 | the paths of the merge are the distinct paths of `existing + new` in first-insertion order |
| Reducers.MergeUniquePaths | backend/graph/state.py:15-20 | the merge never holds two files with the same path |
| Reducers.MergeLookup | backend/graph/state.py:17-19 | for every path the merge holds the record a later write of `existing + new` leaves |
| Reducers.MergeNewWins | backend/graph/state.py:16-19 | a path written by `new` holds the last new record; any other path keeps the existing record |
| Reducers.MergeKeepsExisting | backend/graph/state.py:17-20 | an existing file whose path `new` does not write survives the merge unchanged |
| Reducers.MergePathSet | backend/graph/state.py:17-20 | the merged paths are the union of both path sets, and the merge is no longer than both lists together |
| Reducers.MergeOrder | backend/graph/state.py:17-20 | existing paths keep their order and come first; new paths follow in the order they were written |
| Reducers.MergeNothing | backend/graph/state.py:15-20 | merging an empty list into a path-unique list changes nothing |
| Reducers.SameLookupSamePaths | backend/graph/state.py:17-20 | two path-unique lists with the same paths in the same order and the same record per path are equal |
| Reducers.DistinctKeysTwice | backend/graph/state.py:17-19 | re-inserting the keys of a dictionary before more keys does not change the key order |
| Reducers.MergeTwice | backend/graph/state.py:15-20 | merging `a` then `b` equals merging `a + b` at once, so two updates of one step can be folded one by one |
| Reducers.MergeDisjointCommutes | backend/graph/state.py:15-20 | two writes with disjoint paths give the same record for every path in either order: the two builders never overwrite each other |
| Reducers.MergeAppend | backend/graph/state.py:23-25 | `merge_append` keeps the existing list as a prefix and the new items as the suffix |
| Reducers.LastNonEmpty | backend/graph/state.py:28-35 | an empty write keeps the old value; a non-empty write wins |
| Reducers.LastNonEmptyAssociative | backend/graph/state.py:28-35 | folding writes with the reducer is associative |
| Reducers.LastNonEmptyCommutes | backend/graph/state.py:28-35 | two writes of one step commute when at most one is non-empty (the parallel builders skip these fields) |
| State.ApplyNoChange | backend/graph/state.py:128-195 | applying the empty update leaves the state unchanged |
| State.Apply | backend/graph/state.py:128-195 | folding a node's update into the state never changes the run id, the brief, the retry count or the two iteration budgets, since no node writes them |
| State.ApplyKeepsLogs | backend/graph/state.py:188-194 | decisions, activity entries, errors and test cases are only ever appended to; the activity log grows by exactly the update's entries |
| State.ApplyReducerOnly | backend/graph/state.py:163-194 | an update that writes only reducer fields leaves every other field as it was |
| State.CreateInitialState | backend/graph/state.py:198-249 | a fresh run: status `running`, phase `planning`, next agent `ba_agent`, iterations 0 with maxima 3 and 2, both gates `pending`, every list empty and every optional spec absent |
| State.LogDecision | backend/graph/state.py:252-269 | a decision entry records its agent, phase, decision and artifacts, stamped with the planning iteration |
| Artifacts.Paths | backend/graph/state.py:101-106 | the paths of a list of files, one per file, in order |
| Artifacts.PathsAppend | backend/graph/state.py:101-106 | the paths of two concatenated lists are the concatenated paths |
| Artifacts.Ids | backend/graph/nodes.py:103 | the ids logged as a decision's artifacts (requirements, stories, test cases): one id per record, in order |
| Prompts.FeedbackSection | backend/agents/ba_agent.py:67-74 | the feedback block appears in a planning prompt exactly when the iteration is positive and the feedback non-empty, and carries that feedback; the product owner's and the architect's prompts use the same condition |
| Prompts.PlanningFeedbackCorrected | backend/agents/ba_agent.py:59-67 | corrected reading: the planning prompts show the stored feedback exactly when it is non-empty |
| Prompts.FirstPassShowsNoFeedback | backend/graph/state.py:216-218 | a run's first planning pass shows no feedback, in both readings |
| Prompts.PassSeesOneFeedback | backend/graph/nodes.py:76-200 | BA, PO and the architect write neither the iteration nor the feedback, so all three prompts of a pass show the same feedback |
| Prompts.EvaluatorFeedbackReachesNextPass | backend/graph/nodes.py:236-238 | after an evaluated pass the next pass shows the evaluator's feedback exactly when it is non-empty, and both readings agree there |
| Prompts.RejectionFeedbackAsWritten | backend/api/routes.py:398-407 | as written, a rejection's feedback is stored but shown to the next pass only when at least two passes had run |
| Prompts.FirstPassRejectionLosesFeedback | backend/api/routes.py:405-407 | a plan that converged in one pass and is sent back with feedback is replanned at iteration 0 with that feedback stored and shown to no agent |
| Prompts.RejectionFeedbackReachesNextPass | backend/api/routes.py:403 | corrected, a rejection's non-empty feedback is always shown to the next pass |
| BaAgent.RunBaAgent | backend/agents/ba_agent.py:80-122 | an LLM error gives the fallback; otherwise one normalized requirement per raw requirement, in order, and the model's reasoning or a count-based default |
| BaAgent.NormalizeAll | backend/agents/ba_agent.py:101-113 | the enumerate loop yields exactly one `Normalize` record per raw requirement, at its index |
| BaAgent.DefaultIdsDistinct | backend/agents/ba_agent.py:105 | two requirements the model left without an id get different `REQ-nnn` ids |
| BaAgent.FallbackShape | backend/agents/ba_agent.py:125-134 | the fallback is one must-have requirement `REQ-001` whose description is `Implement: ` and the first 200 characters of the brief |
| PoAgent.MustIds | backend/agents/po_agent.py:116-158 | the default MVP scope holds exactly the ids of the must-have requirements |
| PoAgent.RunPoAgent | backend/agents/po_agent.py:95-151 | an LLM error gives the fallback; otherwise the normalized inception and one normalized story per raw story, in order |
| PoAgent.NormalizeStories | backend/agents/po_agent.py:126-140 | the loop yields exactly one `NormalizeStory` record per raw story, at its index |
| PoAgent.DefaultStoryIdsDistinct | backend/agents/po_agent.py:130 | two stories the model left without an id get different `US-nnn` ids |
| PoAgent.FallbackCoversEveryRequirement | backend/agents/po_agent.py:162-167 | the fallback writes one story per requirement and the evaluator never reports them as leaving requirements uncovered |
| PoAgent.FallbackIdsDistinct | backend/agents/po_agent.py:163 | the fallback's story ids are pairwise distinct |
| Text.PaddedIdInjective | backend/agents/ba_agent.py:105 | `f"{prefix}{str(n).zfill(3)}"` never gives two distinct positive numbers the same id |
| Text.SliceFrom | backend/api/routes.py:360 | Python's `xs[start:]` for every sign and size of `start` |
| Evaluator.StructuralChecks | backend/agents/evaluator.py:108-144 | the checks return exactly `ExpectedIssues`: one issue per missing artifact, missing project files, then the coverage issue |
| Evaluator.PresenceChecks | backend/agents/evaluator.py:116-132 | the first five checks return exactly the presence issues, in order |
| Evaluator.Covered | backend/agents/evaluator.py:137-139 | the loop's covered set is the union of every story's `req_ids` |
| Evaluator.CoveredIdsMeaning | backend/agents/evaluator.py:137-139 | an id is covered exactly when some story lists it |
| Evaluator.NoIssuesIff | backend/agents/evaluator.py:108-144 | no issue is reported exactly when every artifact is present, the structure lists files and at most 30% of the requirement ids are uncovered |
| Evaluator.FullCoverageNoIssue | backend/agents/evaluator.py:135-142 | when every requirement is listed by some story, no coverage issue is reported |
| Evaluator.UncoveredReallyUncovered | backend/agents/evaluator.py:135-142 | a coverage issue names only requirement ids that no story lists |
| Evaluator.EvaluatePlanning | backend/agents/evaluator.py:66-105 | structural issues give non-convergence with their joined text; an LLM error gives convergence; otherwise the model's answer with defaults `true` and `Evaluation complete.`, a null value read as a missing key (see "Left out") |
| Evaluator.NotConvergedWhy | backend/agents/evaluator.py:72-91 | non-convergence comes only from a structural issue or an explicit `converged: false`, with a null `converged` read as a missing key (see "Left out") |
| ArchitectAgent.SubstChain | backend/agents/architect_agent.py:287 | the three chained `replace` calls, `&` first, escape every character exactly once |
| ArchitectAgent.EscapeIsPerChar | backend/agents/architect_agent.py:287 | the escaping equals the per-character reference escaping |
| ArchitectAgent.EscapeRemovesBrackets | backend/agents/architect_agent.py:287 | the escaped code holds no raw `<` or `>` |
| ArchitectAgent.UnescapeEscape | backend/agents/architect_agent.py:287 | escaping loses nothing: reading the entities back gives the code |
| ArchitectAgent.EscapeSplitsLikeCode | backend/agents/architect_agent.py:287-293 | escaping never adds or removes a newline, so the lines of the escaped code are the escaped lines |
| ArchitectAgent.SvgLinesShape | backend/agents/architect_agent.py:293 | the placeholder shows at most 30 lines, each the escaping of the matching source line and free of brackets |
| ArchitectAgent.ShortDiagramShownWhole | backend/agents/architect_agent.py:286-295 | a diagram of at most 30 lines is shown whole: the shown lines read back to the code |
| ArchitectAgent.SequenceSvgs | backend/agents/architect_agent.py:260-263 | one rendered diagram per sequence diagram, with its title, in order |
| ArchitectAgent.UnusableGivesFallback | backend/agents/architect_agent.py:211-313 | an error, a scalar, or a list not starting with an object gives the fallback with feasibility `needs_changes` |
| ArchitectAgent.UsableAnswerShape | backend/agents/architect_agent.py:218-265 | a usable answer is stamped with the architect and the iteration, every sequence diagram is rendered, and feasibility defaults to `approved` |
| ArchitectAgent.RunArchitectAgent | backend/agents/architect_agent.py:194-283 | the result is the fallback exactly when the first answer is unusable; otherwise the spec is stamped by the architect with the iteration, and the ER and sequence diagrams are rendered from the spec's own Mermaid text |
| ArchitectAgent.UsableAnswerCarriesSpecs | backend/agents/architect_agent.py:218-256 | after a usable answer the four builder specs are those of the second answer's object (or the object its list starts with), and the project structure and diagrams are those of `tech_spec`, each defaulting to empty when missing |
| ArchitectAgent.NoSpecsWithoutObject | backend/agents/architect_agent.py:250-256 | when the second answer is not an object (or a list starting with one) all four builder specs are absent |
| ArchitectAgent.FallbackFailsStructuralChecks | backend/agents/architect_agent.py:298-305 | the fallback specification has no files, so the evaluator always reports it |
| Builders.FolderPrefix | backend/agents/backend_builder.py:79 | the prefix ends in `/`, starts with the folder name, and adds a slash exactly when the name lacks one |
| Builders.FallbackSpecs | backend/agents/frontend_builder.py:91-98 | the minimal fallback: two backend specs (four frontend), every one with a path under the builder's root folder |
| Builders.AllSpecs | backend/agents/backend_builder.py:91-98 | the spec list a run works from is never empty and is the found list whenever that one is non-empty |
| Builders.GetFileSpecs | backend/agents/backend_builder.py:55-82 | the lookup order (own spec's files, then project-structure files filtered to the domain, then the legacy folder dictionary, raising without a technical specification) equals `FileSpecs` |
| Builders.FlattenLegacy | backend/agents/backend_builder.py:71-82 | the loop over the legacy folder dictionary produces exactly `LegacySpecs` |
| Builders.FlattenEntry | backend/agents/backend_builder.py:75-80 | one entry of the legacy dictionary appends exactly its own specs: one for a described file, one per sub-entry of a sub-folder, none otherwise |
| Builders.FlattenFolder | backend/agents/backend_builder.py:77-80 | the inner loop over a sub-folder appends exactly `FolderSpecs` to what was collected |
| Builders.LegacySpecsMeaning | backend/agents/backend_builder.py:74-80 | a spec is in the legacy list iff some dictionary entry produced it |
| Builders.FolderSpecsShape | backend/agents/backend_builder.py:78-80 | one spec per sub-file, each with path `<root>/<folder prefix><sub-file>` |
| Builders.LegacySpecsUnderRoot | backend/agents/backend_builder.py:74-80 | every legacy spec has a path under the builder's root folder and no domain |
| Builders.SelectMeaning | backend/agents/backend_builder.py:100-108 | the selected specs are a non-empty sub-list of all specs: all of them in a build pass or when none is flagged by a fix, exactly the flagged ones otherwise |
| Builders.FixFor | backend/agents/backend_builder.py:119-123 | a found fix is one of the fixes and names the file's path |
| Builders.FixForMeaning | backend/agents/backend_builder.py:119-123 | no fix is found iff no fix names the path; a found fix is the first one naming it |
| Builders.FindFix | backend/agents/backend_builder.py:119-123 | the loop with `break` returns exactly `FixFor` |
| Builders.ReplyContent | backend/agents/backend_builder.py:145-147 | a non-empty `content` field is the file content |
| Builders.OutputShape | backend/agents/backend_builder.py:135-168 | every output file keeps its path; a failed call gives no story ids and an ` (error)` / ` (exception)` stamp; a success credits the builder's stories and is stamped ` (fix)` exactly in fix mode |
| Builders.RunBuilder | backend/agents/backend_builder.py:85-176 | the builder run (spec lookup, fallback, fix selection, per-file loop, summary) equals `Build` with the corrected path reading |
| Builders.GenerateFiles | backend/agents/backend_builder.py:114-168 | the per-file loop equals `Generate` |
| Builders.GenerateOne | backend/agents/backend_builder.py:115-168 | one loop pass equals `Step` |
| Builders.CrashStays | backend/agents/backend_builder.py:114-168 | once a pass raises, the rest of the loop does not change the outcome |
| Builders.GenerateIndex | backend/agents/backend_builder.py:114-168 | a finished loop yields one file and one correction per spec, the `i`-th file built from the `i`-th spec's path and reply |
| Builders.GenerateErrors | backend/agents/backend_builder.py:135-175 | the error count is the number of failed calls |
| Builders.FailedCountMeaning | backend/agents/backend_builder.py:135-168 | the error count is at most the number of calls and is zero iff no call failed |
| Builders.GenerateCrashIff | backend/agents/backend_builder.py:114-125 | the loop raises iff some spec's fix lookup or prompt raises |
| Builders.OneFilePerSpec | backend/agents/backend_builder.py:114-176 | a finished run returns one file per selected spec at that spec's path, built from that spec's reply |
| Builders.NoTechSpecCrashes | backend/agents/backend_builder.py:63-64 | with no technical specification the run raises |
| Builders.BuildPassCrashIff | backend/agents/backend_builder.py:179-216 | a build pass raises iff there is no technical specification or a domain file lacks a path, and as written also when a selected spec lacks a path |
| Builders.NothingFoundUsesFallback | backend/agents/backend_builder.py:93-98 | when no spec is found a build pass runs the fallback specs |
| Builders.DefaultPathsDistinct | backend/agents/frontend_builder.py:115 | default paths `unknown_{i}` (for both builders) differ for different indices |
| Builders.DefaultPathUnderRoot | backend/agents/frontend_builder.py:115 | every default path `unknown_{i}` lies under the builder's root folder |
| Builders.PathlessSpecCrashesAsWritten | backend/agents/backend_builder.py:216 | as written, a spec without a path raises KeyError in the prompt builder even though the loop gave it a default path |
| Builders.PathlessSpecGetsDefaultPath | backend/agents/backend_builder.py:115 | corrected, the same spec produces one file at `backend/unknown_0.py` with the model's content |
| QaAgent.GetTestSpecs | backend/agents/qa_agent.py:78-131 | the spec lookup (the architect's non-empty test-file list, else conftest plus one spec per router plus the service specs) equals `TestSpecsFor` |
| QaAgent.ServiceChecks | backend/agents/qa_agent.py:104-129 | the ML, GenAI and auth checks produce exactly `ServiceSpecs` |
| QaAgent.RouterLoop | backend/agents/qa_agent.py:94-102 | the loop over the backend files produces exactly `RouterSpecs` |
| QaAgent.RouterSpecComplete | backend/agents/qa_agent.py:97-101 | a router's test spec has a path under `backend/tests/` and an instruction |
| QaAgent.RouterSpecsMeaning | backend/agents/qa_agent.py:95-102 | there is one router test spec for each backend file whose path contains `router` and no other |
| QaAgent.SpecsNeverEmpty | backend/agents/qa_agent.py:78-131 | the QA agent always has at least one test file to write |
| QaAgent.FixedSpecsComplete | backend/agents/qa_agent.py:90-129 | the conftest, ML, GenAI and auth specs each have a path under `backend/tests/` and an instruction |
| QaAgent.DerivedSpecsComplete | backend/agents/qa_agent.py:86-131 | the derived list starts with conftest, has at most four more specs than backend source files, and every spec in it is complete |
| QaAgent.LeadingObjects | backend/agents/qa_agent.py:169-183 | the number of test cases read before a non-object entry: all entries before it are objects and the entry at it is not |
| QaAgent.FileCases | backend/agents/qa_agent.py:169-183 | one case per leading object, numbered `TC-NNN` consecutively from the running counter |
| QaAgent.FallbackCases | backend/agents/qa_agent.py:199-211 | one acceptance case per user story, in story order |
| QaAgent.RunQaAgent | backend/agents/qa_agent.py:134-224 | the whole QA run equals `ExpectedQa` on the looked-up specs |
| QaAgent.WriteTestFiles | backend/agents/qa_agent.py:146-197 | the loop raises with the first spec's exception that escapes the `try`, and otherwise collects exactly `QaRun` |
| QaAgent.FinishRun | backend/agents/qa_agent.py:199-224 | the result keeps the collected cases (or the per-story fallback when none), the files, and counts that match them |
| QaAgent.GenerateOne | backend/agents/qa_agent.py:152-197 | one file pass equals `GenerateFile`: a failed call contributes nothing, a non-object test case stops the file after its predecessors |
| QaAgent.ReadCases | backend/agents/qa_agent.py:169-183 | the inner loop reads exactly `FileCases` and reports whether every entry was an object |
| QaAgent.FallbackLoop | backend/agents/qa_agent.py:199-211 | the fallback loop builds exactly `FallbackCases` |
| QaAgent.FirstCrashPrefix | backend/agents/qa_agent.py:146-150 | an exception raised before the `try` at some spec is not changed by later specs |
| QaAgent.CrashIff | backend/agents/qa_agent.py:146-150 | the run raises iff there is no technical specification or some spec lacks a path or an instruction |
| QaAgent.DerivedSpecsNeverCrash | backend/agents/qa_agent.py:86-150 | the derived specs never make the run raise when a technical specification exists |
| QaAgent.QaRunNumbering | backend/agents/qa_agent.py:144-183 | the `k`-th collected case is `TC-` followed by `k+1` padded to three digits |
| QaAgent.QaRunFiles | backend/agents/qa_agent.py:185-190 | at most one file per spec; each is created by the QA agent at some spec's path with that spec's focus stories |
| QaAgent.FinishedRunShape | backend/agents/qa_agent.py:199-224 | the returned case ids are `TC-001`, `TC-002`, … and pairwise distinct, and the totals count the cases and files |
| QaAgent.FallbackCoversStories | backend/agents/qa_agent.py:199-211 | when no case was generated there is one acceptance case per story, naming that story |
| IntegrationValidator.FilesUnderReview | backend/agents/integration_validator.py:73-76 | the reviewed files are the generated files followed by the docker files, nothing lost and nothing added |
| IntegrationValidator.JoinedPrefixSuffix | backend/agents/integration_validator.py:147-148 | joining the first `k` lines of a content gives a prefix of it and joining the last `k` lines a suffix |
| IntegrationValidator.TruncatedMeaning | backend/agents/integration_validator.py:145-149 | content of at most 3000 characters is shown whole; longer content is shown as at most its first 40 lines, the truncation marker, and at most its last 20 lines, a prefix and a suffix of the original |
| IntegrationValidator.SingleLineShownTwice | backend/agents/integration_validator.py:146-148 | a long content without a newline is shown twice around the truncation marker |
| IntegrationValidator.BuildSections | backend/agents/integration_validator.py:143-151 | one section per file, in order, each the file's header followed by its truncated content |
| IntegrationValidator.ClassesDisjoint | backend/agents/integration_validator.py:157-159 | no path is listed as both backend and frontend, backend and devops, or frontend and devops |
| IntegrationValidator.ClassifyMeaning | backend/agents/integration_validator.py:157-159 | each manifest list holds exactly the reviewed paths of its class, and the three lists share no path |
| IntegrationValidator.DefaultDockerfilesNotDevops | backend/agents/integration_validator.py:157-159 | the devops agent's `backend/Dockerfile` and `frontend/Dockerfile` are listed as backend and frontend files, not as devops files |
| IntegrationValidator.DefaultDevopsFilesClassified | backend/agents/integration_validator.py:159 | `docker-compose.yml`, `README.md` and `.env.example` are listed as devops files |
| IntegrationValidator.ValidateMeaning | backend/agents/integration_validator.py:71-135 | the node raises iff there is no technical specification; it rejects iff the model answered `is_consistent: false` and reading the answer did not raise; every fix of a rejection names a path and a builder; a failed or raising call approves with no fixes and score 60 or 70 |
| IntegrationValidator.EmptyAnswerApproves | backend/agents/integration_validator.py:100-104 | an answer with none of the fields approves with score 80 and no issues or fixes |
| IntegrationValidator.FixWithoutBuilderApproves | backend/agents/integration_validator.py:114-135 | a rejection whose fix lacks a `builder` raises while it is logged and is turned into an approval with score 60 |
| DevopsAgent.FileSpecs | backend/agents/devops_agent.py:90-115 | the lookup raises iff there is no technical specification and the devops spec lists no files; it never yields an empty list, and outside the devops spec every spec is in the devops domain |
| DevopsAgent.RunDevopsAgent | backend/agents/devops_agent.py:118-172 | the devops run (spec lookup, per-file loop, fallback when nothing was written) equals `Devops` with the corrected path reading |
| DevopsAgent.WriteFiles | backend/agents/devops_agent.py:127-162 | the per-file loop equals `Written` |
| DevopsAgent.CrashStays | backend/agents/devops_agent.py:127-162 | once a pass raises, the rest of the loop does not change the outcome |
| DevopsAgent.WrittenMeaning | backend/agents/devops_agent.py:127-162 | one file per successful call and none per failed one, each credited to no story and created by the DevOps agent, and what each prefix of the loop wrote is kept |
| DevopsAgent.FallbackIffAllFailed | backend/agents/devops_agent.py:166-172 | the agent always returns files, and returns the fallback exactly when every call failed |
| DevopsAgent.FailedCountAll | backend/agents/devops_agent.py:141-162 | every call failed iff the failure count equals the number of calls |
| DevopsAgent.NoTechSpecCrashes | backend/agents/devops_agent.py:177 | with no technical specification the run raises |
| DevopsAgent.PathlessSpecCrashesAsWritten | backend/agents/devops_agent.py:210 | as written, a spec without a path raises KeyError in the prompt builder even though the loop gave it a default path |
| DevopsAgent.PathlessSpecGetsDefaultPath | backend/agents/devops_agent.py:128 | corrected, the same spec produces one file at `unknown_0` |
| Nodes.PlanningNodesKeepControl | backend/graph/nodes.py:76-200 | the BA, PO and architect nodes leave the run's status and phase alone and write the requirements, the stories, and the technical and backend specs their agents returned |
| Nodes.BaDelta | backend/graph/nodes.py:76-111 | the BA node writes the requirements and logs their ids, and touches no counter, flag, status or phase |
| Nodes.PoDelta | backend/graph/nodes.py:114-150 | the PO node writes the inception and the stories, and touches no counter, flag, status, phase, requirement or tech spec |
| Nodes.ArchitectDelta | backend/graph/nodes.py:153-200 | the architect node writes the tech spec and all four builder specs, an absent spec included, and touches no counter, flag, status or phase |
| Nodes.EvaluatorDelta | backend/graph/nodes.py:203-241 | the evaluator node writes the next planning iteration and a convergence flag that is set iff the evaluation converged or the pass reaches the maximum, and leaves status, phase and the artifacts alone |
| Nodes.EvaluatorCounts | backend/graph/nodes.py:203-241 | the evaluator node adds one to the planning iteration, marks planning converged iff the evaluation converged or the budget is reached, stores the feedback, and changes nothing else but the logs |
| Nodes.ShouldContinuePlanning | backend/graph/nodes.py:487-492 | the router goes to gate 1 iff planning converged and back to the BA node otherwise |
| Nodes.Gate1Delta | backend/graph/nodes.py:248-267 | gate 1 marks the run `waiting_hitl` at phase `hitl_gate_1` without writing the gate's status or the planning counters |
| Nodes.Gate2Delta | backend/graph/nodes.py:270-289 | gate 2 marks the run `waiting_hitl` at phase `hitl_gate_2` without writing the gate's status or the fix-loop counters |
| Nodes.GatesWait | backend/graph/nodes.py:248-289 | each gate sets status `waiting_hitl` and names itself as phase and agent, changing nothing else but the logs |
| Nodes.FixInstructionsMeaning | backend/graph/nodes.py:438-441 | a builder's fixes are exactly those naming that builder, selection distributes over concatenation, and no fix goes to both builders |
| Nodes.BuilderDeltaShape | backend/graph/nodes.py:296-356 | a builder node writes only reducer fields, merges its files into the generated files, and logs a decision ending in ` (fix)` iff it had fixes |
| Nodes.BuilderDecisionMarksFix | backend/graph/nodes.py:316 | the builder's decision text ends in ` (fix)` iff it ran in fix mode |
| Nodes.BuilderDelta | backend/graph/nodes.py:296-356 | a builder node writes only reducer fields, with its agent's files as the generated files, and no status, phase or agent |
| Nodes.QaAppendsCases | backend/graph/nodes.py:359-389 | the QA node appends its cases to the test cases, merges its test files into the generated files, and leaves status and phase alone |
| Nodes.QaDelta | backend/graph/nodes.py:359-389 | the QA node writes its cases, its test files and the test results, and touches no counter, flag, status or phase |
| Nodes.FixPaths | backend/graph/nodes.py:423 | the fixes' paths can be listed iff every fix has a path, and then they are listed one per fix in order |
| Nodes.ValidatorDelta | backend/graph/nodes.py:396-435 | the validator node raises iff some fix has no path; otherwise it writes the next integration iteration, the verdict and the fixes, and no planning iteration, status or phase |
| Nodes.ValidatorCounts | backend/graph/nodes.py:396-435 | the validator node raises iff some fix has no path; otherwise it adds one to the integration iteration, stores validity, fixes and score, and leaves the planning fields, status and phase alone |
| Nodes.RejectionNeverFaults | backend/graph/nodes.py:396-435 | a rejection produced by the validator never makes the node raise |
| Nodes.ApprovalWithPathlessFixFaults | backend/graph/nodes.py:423 | an approval that carries a fix without a path makes the node raise KeyError |
| Nodes.ShouldFixOrContinue | backend/graph/nodes.py:495-514 | the router goes back to the builders iff integration is invalid and the fix budget is not used up, and to gate 2 otherwise |
| Nodes.DevopsCompletes | backend/graph/nodes.py:448-480 | the devops node stores the docker files, marks deployment ready, sets status `completed` and phase `done`, and leaves the generated files and the counters alone |
| Nodes.DevopsDelta | backend/graph/nodes.py:448-480 | the devops node writes status `completed`, phase `done`, deployment ready and its docker files, and neither the generated files nor the integration counter |
| Workflow.PlanningChain | backend/graph/workflow.py:153-156 | BA is followed by PO, PO by the architect, the architect by the planning evaluator |
| Workflow.EvaluatorExits | backend/graph/workflow.py:158-166 | the planning evaluator is followed by gate 1 when planning converged and by the BA node otherwise |
| Workflow.FanOuts | backend/graph/workflow.py:168-197 | gate 1 and the fix dispatcher are each followed by both builders |
| Workflow.JoinAtQa | backend/graph/workflow.py:175-180 | both builders are followed by QA, and QA by the integration validator |
| Workflow.ValidatorExits | backend/graph/workflow.py:182-190 | the validator is followed by gate 2 when integration is valid or the fix budget is used up, and by the fix dispatcher otherwise |
| Workflow.GateTwoToDevops | backend/graph/workflow.py:199-200 | gate 2 is followed by devops |
| Workflow.DevopsEnds | backend/graph/workflow.py:202-203 | devops is followed by the end of the graph |
| Workflow.Pending | backend/graph/workflow.py:175-177 | the nodes scheduled next are exactly the targets named, each once, so the two builders' edges to QA schedule one QA run |
| Workflow.SingleTick | backend/graph/workflow.py:106-205 | a step with one pending node applies that node's update and schedules the successors its edges name on the new state |
| Workflow.ApplyAll | backend/graph/state.py:128-195 | applying the updates of one step in turn keeps the run id, the brief and the budgets |
| Workflow.Tick | backend/graph/workflow.py:106-205 | a step that does not raise keeps the run id and the brief, and schedules every next node at most once |
| Workflow.Run | backend/api/routes.py:90-107 | a run takes at most one step per oracle result and keeps its run id; it finishes only with nothing pending, pauses only with a gate pending, and a fault leaves status `error` |
| Workflow.StartRun | backend/api/routes.py:177-205 | a started run keeps the run id it was given, takes at most one step per oracle result, and pauses only at a gate |
| Workflow.GatesNeverRunUnresumed | backend/graph/workflow.py:215-218 | a run that is not resuming stops before a pending gate without running anything |
| Termination.RunsIntoFault | backend/api/routes.py:114-123 | a step in which a node raises ends the run after that step, with the error recorded and the pending nodes kept |
| Termination.StopsAtGate | backend/graph/workflow.py:215-218 | a run that reaches a single pending gate without being resumed stops there |
| Termination.EvaluatorRuns | backend/graph/nodes.py:203-241 | the evaluator step adds one to the planning iteration, converges iff the evaluation did or the budget is reached, and schedules gate 1 or BA accordingly |
| Termination.PlanningPass | backend/graph/workflow.py:153-166 | one planning pass is four steps that add one to the iteration and end at gate 1 or back at BA as the evaluator's verdict says |
| Termination.PlanningReachesGate1 | backend/graph/nodes.py:216-217 | from BA the run always pauses at gate 1 with planning converged, within four steps per pass of the remaining budget, having counted at least one and at most that many passes |
| Termination.StartPausesAtGate1 | backend/graph/state.py:216-217 | a fresh run pauses at gate 1 within twelve steps, after one to three planning passes |
| Termination.BuildersCrash | backend/graph/workflow.py:168-177 | if either parallel builder raises, the step raises |
| Termination.BuildersRuns | backend/graph/workflow.py:175-177 | both builders run in one step and then QA alone is pending, with the loop counters unchanged; a raising builder ends the run |
| Termination.QaRuns | backend/graph/workflow.py:179-180 | the QA step appends its cases and schedules the validator, counters unchanged; a raising QA agent ends the run |
| Termination.ValidatorRuns | backend/graph/nodes.py:396-435 | the validator step ends the run if it raises, and otherwise counts one more iteration, stores validity, and schedules gate 2 or the fix dispatcher as the router says |
| Termination.BuildAndTest | backend/graph/workflow.py:175-180 | from the builders, two steps reach the validator with the counters unchanged, unless a builder or QA raises within them |
| Termination.FixCycle | backend/graph/workflow.py:192-197 | from the fix dispatcher, three steps reach the validator with the counters unchanged, unless a node raises |
| Termination.FixRound | backend/graph/nodes.py:495-514 | one validator round either ends the run within four steps (a raise, or a pause at gate 2 with the build approved or the budget spent) or leaves the validator pending with one more iteration counted and budget left |
| Pipeline.ProgramRunIsEngineRun | backend/graph/nodes.py:76-480 | a run whose nodes call their agents on the state of each step, as the program's do, is the engine's run on the results those agents return |
| Pipeline.ProgramStartPausesAtGate1 | backend/api/routes.py:177-205 | such a run, started fresh, pauses at gate 1 within twelve steps, after one to three passes |
| Pipeline.ProgramPlanningReachesGate1 | backend/graph/nodes.py:216-217 | from BA such a run pauses at gate 1 with planning converged within four steps per pass of the remaining budget |
| Pipeline.ProgramFixLoopEnds | backend/graph/nodes.py:495-514 | from the validator such a run pauses at gate 2 or raises within four steps per remaining fix iteration |
| Pipeline.EvaluatorGateNeedsSoundPlan | backend/agents/evaluator.py:66-77 | when the evaluator node's result is what the evaluator returns on the step's state, it sends a plan to gate 1 before the budget is spent only when the structural checks find nothing on it |
| Pipeline.FixLoopNeedsRejection | backend/agents/integration_validator.py:71-135 | when the validator node's result is what the validator returns, the fix loop goes back to the builders only when the model answered and said `is_consistent: false` |
| Pipeline.ArchitectStepStoresSpec | backend/graph/nodes.py:153-200 | when the architect node's result is what the architect returns, the state then holds a technical specification stamped with the current pass, whatever the model replied, and the evaluator is next |
| Pipeline.RejectionFeedbackReachesBa | backend/api/routes.py:397-407 | a rejection at gate 1 sends the run to BA, and in the corrected reading the planning prompts then show the reviewer's feedback |
| Termination.FixLoopEnds | backend/graph/nodes.py:495-514 | from the validator the run stops within four steps per remaining iteration of budget: it raises or pauses at gate 2 with the build approved or the budget spent |
| Routes.DeriveRunStatus | backend/api/routes.py:40-87 | a pending gate 1 (checked first) or gate 2 is reported with that gate as agent, `running` if the task is active and `waiting_hitl` otherwise; an active task with work pending reads `running`; a finished run still marked `running` reads `completed`/`done`; otherwise the stored status, phase and agent, or `unknown` when nothing is stored |
| Routes.GatedNamesAGate | backend/api/routes.py:56-73 | the run is stopped at an interrupt iff gate 1 or gate 2 is among the pending nodes |
| Routes.RunSettles | backend/api/routes.py:89-126 | a background run ends paused at exactly one gate, finished with nothing pending, or faulted with status `error` and a non-gate node pending |
| Routes.ResumedRunSettles | backend/api/routes.py:89-126 | the same holds for a run resumed after a decision |
| Routes.ReportAfterRun | backend/api/routes.py:40-87 | once the task has ended, a paused run reads `waiting_hitl` at its gate, a finished run still marked `running` reads `completed`, a faulted run reads `error` |
| Routes.GateOneApplied | backend/api/routes.py:397-406 | a gate-1 decision records the decision and feedback, copies the feedback to the planning feedback, sets status `running`; a rejection clears convergence and steps the planning iteration back but never below 0; nothing else changes |
| Routes.GateOneUpdate | backend/api/routes.py:397-407 | the gate-1 update records the decision and status `running`, never gate 2's status; it writes convergence and the planning iteration exactly on a rejection, the iteration stepping back by one and never below 0 |
| Routes.GateTwoUpdate | backend/api/routes.py:408-413 | the gate-2 update records the decision and status `running` and touches neither gate 1 nor the planning or fix-loop counters |
| Routes.Decide | backend/api/routes.py:396-416 | `update_state` with a decision sets status `running`, keeps the run id, and records the decision at the pending gate, gate 1 first, leaving the other gate's status alone |
| Routes.GateTwoApplied | backend/api/routes.py:407-412 | a gate-2 decision records the decision and feedback and sets status `running`, nothing else |
| Routes.DecisionAtGate1 | backend/api/routes.py:397-415 | after a gate-1 decision on a converged plan, a rejection schedules the BA node and an approval leaves gate 1 pending |
| Routes.DecisionAtGate2 | backend/api/routes.py:407-415 | after a gate-2 decision gate 2 stays pending whatever the decision, so a rejection also proceeds to DevOps |
| Routes.ApprovalReadsBuilding | backend/api/routes.py:56-64 | right after a gate-1 approval, a poller reads `running`/`building` while the resume task is active and `waiting_hitl` at gate 1 otherwise |
| Routes.ResumeOffGate | backend/api/routes.py:98-100 | resuming a run whose pending nodes hold no gate is the same as running it |
| Routes.RejectionReplans | backend/api/routes.py:397-423 | after a gate-1 rejection the resumed run plans again and pauses at gate 1 within four steps per remaining planning pass |
| Routes.ActivityTail | backend/api/routes.py:360 | `log[-last:]`: the whole log for 0 or a count at least its length, the last `last` entries for a smaller positive count, and the log without its first `-last` entries for a negative one |
| Routes.LinesOfContent | backend/api/routes.py:326 | the reported line count is the number of newline-separated lines, and joining those lines gives back the content |
| Routes.FindFile | backend/api/routes.py:318-327 | the index found holds a file with the path and no earlier file has it; nothing is found iff no file has the path |
| Routes.Server.constructor | backend/api/routes.py:176-209 | the run store starts with no runs and no active tasks |
| Routes.Server.StartRun | backend/api/routes.py:176-209 | starting a run registers it with no checkpoint yet, marks its task active, and replies `running`/`planning`/`BA Agent` |
| Routes.Server.RunInBackground | backend/api/routes.py:89-126 | the task runs a fresh run from the initial state or resumes the stored checkpoint, stores where it stopped, always drops the run from the active tasks, and leaves it settled |
| Routes.Server.GetRun | backend/api/routes.py:212-240 | an unknown run is not found; otherwise the reply is the status derived from the stored checkpoint and whether its task is active |
| Routes.Server.SubmitDecision | backend/api/routes.py:365-433 | an unknown run is not found and a run at no gate is reported already processed, both changing nothing; otherwise the decision is written at the pending gate, a resume task becomes active, and the reply names the next phase |
| Routes.Server.GetActivity | backend/api/routes.py:348-362 | an unknown run is not found; otherwise the reply is the tail of the stored activity log and the log's length |
| Routes.Server.GetFileContent | backend/api/routes.py:304-329 | an unknown run is not found; otherwise the first generated or Docker file with the path is returned with its line count, or the path is reported not found |

## Left out

- Language-model calls (`call_llm`, the provider clients, JSON parsing and repair) are oracle parameters. `Pipeline` gives a per-file agent one reply per call, by call number. A planning agent's reply may depend on the feedback its prompt shows, and on nothing else in the prompt.
- The runs of `Pipeline` use the corrected reading of each finding below: a spec without a path is generated at its default path, and any non-empty planning feedback is shown.
- The LangGraph runtime (`astream`, `MemorySaver`, `Send`, `get_state`, `update_state`) is replaced by the step function of `Workflow`. A run with too few oracle replies stops with `OutOfResults`; that halt exists only in the model.
- `update_state` is modelled as LangGraph applies it: the router of the gate's predecessor is re-evaluated on the updated values. That predecessor is the planning evaluator for gate 1 and the integration validator for gate 2.
- Routes.Server.RunInBackground: the background task is atomic. The snapshots LangGraph stores after each step, which a concurrent poller could read, are not modelled.
- Concurrency between requests is not modelled. One consequence follows from the model: a second approval sent before the resumed task has taken its first step is accepted again, because gate 1 is still pending.
- Run ids come from `uuid4` and are a parameter here. Timestamps, `print` logging, temperatures and token limits are left out.
- The evaluator's float threshold `len(uncovered) > len(ids) * 0.3` is the exact integer comparison `10 * |uncovered| > 3 * |ids|`; floating-point rounding of the product is not modelled.
- Prompt texts are left out, except where their construction can raise (`spec['path']`, `tech_spec.get`) and the conditions under which the feedback block is included.
- Routes.GateOneApplied: the rollback reads `planning_iteration` directly instead of through `.get(..., 1)`. Every stored state carries the key, so the default is never used.
- Activity entries keep only the agent's name, and decision entries keep no justification text. The message text of an error entry is dropped; only the exception's kind is kept.
- The wording of the evaluator's "too many uncovered" issue prints a Python set; only the set of ids it names is modelled.
- `get_run`'s artifact counts and listing, `list_runs`, the graph-info endpoint, and the export, download, deploy and teardown endpoints are left out. They only read state, or they touch the filesystem and subprocesses.
- `backend/main.py` (application wiring) is not part of this model.
- BaAgent.RunBaAgent: the reply is assumed to have the shape the prompt asks for. The source raises outside any `try` when `requirements` is null or an entry is not an object (`backend/agents/ba_agent.py:103-105`); the model has no such raise. A key present with value null is read as a missing key, so it gets the default where the source stores None.
- PoAgent.RunPoAgent: the same assumption; the source raises when `inception` is null (`backend/agents/po_agent.py:115`) or a story entry is not an object, and stores None for a key present with value null.
- ArchitectAgent.RunArchitectAgent: the same assumption; the source raises when `tech_spec` or `mermaid_er` is null, or a sequence diagram lacks `title` or `code` (`backend/agents/architect_agent.py:221`, `:259-262`).
- Evaluator.EvaluatePlanning (and Evaluator.NotConvergedWhy): the same assumption on the evaluator's reply, whose null values the source does not read as missing keys. A null `converged` is returned as None (`backend/agents/evaluator.py:90`), so the node's `None or new_iteration >= max` is false while budget remains and the run goes back to BA (`backend/graph/nodes.py:217`); the model reads it as `true` and goes to gate 1. A null `feedback` with non-convergence makes `result.get("feedback", "")[:200]` raise outside any `try` (`backend/graph/nodes.py:225`), so the run ends with status `error`; the model stores "Evaluation complete." and re-plans. A null `feedback` with convergence stores None as `planning_feedback` (`backend/graph/nodes.py:241`), where the model stores "Evaluation complete.".
- Termination.PlanningReachesGate1: every run reaches gate 1 only under the four assumptions above, on the three planning agents' replies and the evaluator's; a malformed planning reply that makes the source raise would end the run with status `error` instead.
- Builders.RunBuilder: a builder reply is assumed to have the shape the prompt asks for, and a key present with value null is read as a missing key. For `{"content": "", "code": null}` the model stores the reply's text as the content. The source stores None, then `content.count` raises inside the `try` and adds an exception note (`backend/agents/backend_builder.py:145-158`), and `f["content"].count` in the node raises outside it, which fails the run (`backend/graph/nodes.py:311`).
- DevopsAgent.RunDevopsAgent: the same assumption. For a null `code` beside an empty content the source stores None as the file's content (`backend/agents/devops_agent.py:145-157`), where the model stores the reply's text.
- QaAgent.RunQaAgent: the same assumption. A null `test_cases` makes the loop at `backend/agents/qa_agent.py:170` raise inside the `try`, so the source adds no case and no file for that spec; the model reads it as a missing key and keeps the file.
- IntegrationValidator.ValidateMeaning: the same assumption. A null `is_consistent` is falsy, so the source rejects and the node stores None as not valid (`backend/agents/integration_validator.py:112`, `backend/graph/nodes.py:427`); a null `issues` raises at `backend/agents/integration_validator.py:106` and approves with score 60; a null `file_fixes` on an approval reaches the node, whose artifact list at `backend/graph/nodes.py:423` raises and fails the run. The model reads all three as missing keys and approves with the answer's score, or 80, and no fixes.
- QaAgent.FallbackCases: a fallback case's steps are the story's acceptance criteria. The default `["Execute test"]` for a story without the key is not modelled, because every story the product owner writes carries it.
- Stories keep no description, the inception no risks, success metrics, out-of-scope list or technical constraints, and the technical specification no data models, endpoints, schema, ML and GenAI sections or stack: no modelled operation reads them.
- A rejection at gate 2 still proceeds to DevOps (Routes.DecisionAtGate2). The backend's `Dockerfile` is listed as a backend file, not a devops file, in the validator's prompt. A long single-line file is shown twice around the truncation marker. These are stated as the code behaves, not as findings.

## Findings

| source | as written | input that shows it | evidently intended | confidence | as-written member | corrected member |
|---|---|---|---|---|---|---|
| backend/agents/backend_builder.py:115 | the loop gives a spec without `path` the default `backend/unknown_{i}.py`, but `_build_file_prompt` then indexes `spec['path']` outside the `try` (backend_builder.py:216, and frontend_builder.py:215 for the frontend's `frontend/unknown_{i}`) and raises KeyError, so the default is never used and the node fails the run; in a fix pass the filter `s["path"] in fix_paths` (backend_builder.py:103, frontend_builder.py:103) raises the same KeyError before the loop | an own backend spec listing one file with no `path` | the file is generated at its default path | not executed | Builders.PathlessSpecCrashesAsWritten | Builders.PathlessSpecGetsDefaultPath |
| backend/agents/devops_agent.py:128 | the same: the default `unknown_{i}` is computed, then `_build_file_prompt` raises KeyError on `spec['path']` | a devops spec listing one file with no `path` | the file is generated at its default path | not executed | DevopsAgent.PathlessSpecCrashesAsWritten | DevopsAgent.PathlessSpecGetsDefaultPath |
| backend/api/routes.py:405-407 | a rejection at gate 1 stores the reviewer's feedback as `planning_feedback` and steps `planning_iteration` back by one. After a plan that converged in its first pass the iteration is back at 0, and the planning prompts show feedback only when the iteration is positive (ba_agent.py:67, po_agent.py:84, architect_agent.py:174). So no agent sees the feedback, and the next evaluator overwrites it | a run whose first planning pass converges, sent back at gate 1 with `changes_requested` and feedback "add login" | the next planning pass is shown the reviewer's feedback | not executed | Prompts.FirstPassRejectionLosesFeedback | Prompts.RejectionFeedbackReachesNextPass |
