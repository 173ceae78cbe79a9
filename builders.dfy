/**
 * The backend and frontend builders. Each works from a list of file specs:
 * its own builder spec when that lists files, else its domain's entries of
 * the project structure, else the legacy folder layout, else a fixed
 * fallback. A fix pass regenerates only the specs the integration
 * validator flagged (all of them when none matches), and every selected
 * spec yields exactly one output file, whether the language model answers,
 * reports an error or raises.
 *
 * The two builders differ only in their domain, their fallback list, the
 * stories they credit and the comment syntax of their failure notes, so
 * they are one model with a `Builder` parameter.
 */
module Builders {
  import opened Common
  import opened Text
  import opened Artifacts

  datatype Builder = Backend | Frontend

  /** The builder's domain, which is also the root folder of its files. */
  function Domain(b: Builder): string {
    match b
    case Backend => "backend"
    case Frontend => "frontend"
  }

  /** The `created_by` stamp of the builder's files. */
  function Label(b: Builder): string {
    match b
    case Backend => "Backend Builder"
    case Frontend => "Frontend Builder"
  }

  /** The stories a builder credits in the files it writes: backend, ml,
      genai and data stories for the backend, frontend stories for the
      frontend. */
  predicate Serves(b: Builder, story: UserStory) {
    match b
    case Backend => story.domain in {"backend", "ml", "genai", "data"}
    case Frontend => story.domain == "frontend"
  }

  /** The ids of the stories the builder serves, in story order. */
  function RelevantIds(b: Builder, stories: seq<UserStory>): seq<string> {
    StoryIds(Filter((s: UserStory) => Serves(b, s), stories))
  }

  /** A spec that names its path and no domain. */
  function PathSpec(path: string): FileSpec {
    FileSpec(Some(path), None)
  }

  // ---------------------------------------------------------------------
  // Where the specs come from (`_get_file_specs`)
  // ---------------------------------------------------------------------

  /** The first value stored under `key` in the legacy layout. */
  function LegacyLookup(legacy: seq<(string, LegacyFolder)>, key: string): Option<LegacyFolder>
    decreases |legacy|
  {
    if legacy == [] then None
    else if legacy[0].0 == key then Some(legacy[0].1)
    else LegacyLookup(legacy[1..], key)
  }

  /** The builder's folder in the legacy layout: the value under `backend/`,
      else under `backend`, else the empty dictionary. */
  function BuilderFolder(b: Builder, legacy: seq<(string, LegacyFolder)>): LegacyFolder {
    match LegacyLookup(legacy, Domain(b) + "/")
    case Some(v) => v
    case None => LegacyLookup(legacy, Domain(b)).GetOr(Dict([]))
  }

  /** The folder name as a path prefix: a slash is added only when it is
      missing. */
  function FolderPrefix(name: string): (r: string)
    ensures EndsWith(r, "/") && StartsWith(r, name)
    ensures |r| == |name| <==> EndsWith(name, "/")
    ensures |r| <= |name| + 1
  {
    if EndsWith(name, "/") then name else name + "/"
  }

  /** The specs one sub-folder flattens to, in entry order. */
  function FolderSpecs(b: Builder, name: string, subs: seq<(string, string)>): seq<FileSpec>
    decreases |subs|
  {
    if subs == [] then []
    else FolderSpecs(b, name, subs[..|subs| - 1])
         + [PathSpec(Domain(b) + "/" + FolderPrefix(name) + subs[|subs| - 1].0)]
  }

  /** The specs one entry of the builder's folder flattens to: a described
      file is one spec, a sub-folder one spec per entry, anything else
      none. */
  function EntrySpecs(b: Builder, entry: (string, LegacyValue)): seq<FileSpec> {
    match entry.1
    case Text(_) => [PathSpec(Domain(b) + "/" + entry.0)]
    case Folder(subs) => FolderSpecs(b, entry.0, subs)
    case OtherValue => []
  }

  /** The legacy branch: every entry's specs, in dictionary order. */
  function LegacySpecs(b: Builder, entries: seq<(string, LegacyValue)>): seq<FileSpec> {
    ConcatMap(EntryOf(b), entries, |entries|)
  }

  /** `EntrySpecs` for the builder, as a function of the entry. */
  function EntryOf(b: Builder): ((string, LegacyValue)) -> seq<FileSpec> {
    entry => EntrySpecs(b, entry)
  }

  /** The project structure's entries of the builder's domain. */
  function InDomain(b: Builder, files: seq<FileSpec>): seq<FileSpec> {
    Filter((f: FileSpec) => f.domain == Some(Domain(b)), files)
  }

  /** `_get_file_specs(state)`: the builder's own files when it has any;
      otherwise the project structure is read, which raises when there is
      no technical specification. A non-empty `files` list decides alone,
      even when none of its entries is in the builder's domain. */
  function FileSpecs(b: Builder, own: Option<BuilderSpec>, techSpec: Option<TechSpec>): Outcome<seq<FileSpec>> {
    if own.Some? && own.value.files != [] then Done(own.value.files)
    else if techSpec.None? then Crashed("AttributeError")
    else
      var ps := techSpec.value.projectStructure;
      if ps.files != [] then Done(InDomain(b, ps.files))
      else match BuilderFolder(b, ps.legacy)
        case Dict(entries) => Done(LegacySpecs(b, entries))
        case NotADict => Done([])
  }

  /** The minimal file list a builder falls back to when no spec is found. */
  function FallbackSpecs(b: Builder): (r: seq<FileSpec>)
    ensures b.Backend? ==> |r| == 2
    ensures b.Frontend? ==> |r| == 4
    ensures forall s :: s in r ==> s.path.Some? && StartsWith(s.path.value, Domain(b) + "/")
  {
    match b
    case Backend => [PathSpec("backend/main.py"), PathSpec("backend/requirements.txt")]
    case Frontend => [PathSpec("frontend/package.json"), PathSpec("frontend/index.html"),
                      PathSpec("frontend/src/main.jsx"), PathSpec("frontend/src/App.jsx")]
  }

  /** The specs found, or the fallback when none was found. */
  function AllSpecs(b: Builder, found: seq<FileSpec>): (r: seq<FileSpec>)
    ensures r != []
    ensures found != [] ==> r == found
  {
    if found == [] then FallbackSpecs(b) else found
  }

  /** `_get_file_specs` with its loops: the legacy folder is flattened entry
      by entry. */
  method GetFileSpecs(b: Builder, own: Option<BuilderSpec>, techSpec: Option<TechSpec>)
    returns (r: Outcome<seq<FileSpec>>)
    ensures r == FileSpecs(b, own, techSpec)
  {
    if own.Some? && own.value.files != [] {
      return Done(own.value.files);
    }
    if techSpec.None? {
      return Crashed("AttributeError");
    }
    var ps := techSpec.value.projectStructure;
    if ps.files != [] {
      return Done(InDomain(b, ps.files));
    }
    var folder := BuilderFolder(b, ps.legacy);
    if folder.NotADict? {
      return Done([]);
    }
    var specs := FlattenLegacy(b, folder.entries);
    r := Done(specs);
  }

  /** The outer loop of the legacy branch. */
  method FlattenLegacy(b: Builder, entries: seq<(string, LegacyValue)>) returns (specs: seq<FileSpec>)
    ensures specs == LegacySpecs(b, entries)
  {
    specs := [];
    var k := 0;
    while k < |entries|
      invariant 0 <= k <= |entries|
      invariant specs == ConcatMap(EntryOf(b), entries, k)
    {
      specs := FlattenEntry(b, entries[k], specs);
      assert ConcatMap(EntryOf(b), entries, k + 1) == ConcatMap(EntryOf(b), entries, k) + EntrySpecs(b, entries[k]);
      k := k + 1;
    }
  }

  /** One pass of the outer loop: a described file adds its path, a
      sub-folder each of its files, anything else nothing. */
  method FlattenEntry(b: Builder, entry: (string, LegacyValue), specs0: seq<FileSpec>) returns (specs: seq<FileSpec>)
    ensures specs == specs0 + EntrySpecs(b, entry)
  {
    var name := entry.0;
    var value := entry.1;
    specs := specs0;
    if value.Text? {
      specs := specs + [PathSpec(Domain(b) + "/" + name)];
    } else if value.Folder? {
      specs := FlattenFolder(b, name, value.entries, specs);
    }
  }

  /** The inner loop of the legacy branch: one spec per sub-folder entry. */
  method FlattenFolder(b: Builder, name: string, subs: seq<(string, string)>, specs0: seq<FileSpec>)
    returns (specs: seq<FileSpec>)
    ensures specs == specs0 + FolderSpecs(b, name, subs)
  {
    specs := specs0;
    var j := 0;
    while j < |subs|
      invariant 0 <= j <= |subs|
      invariant specs == specs0 + FolderSpecs(b, name, subs[..j])
    {
      assert subs[..j + 1][..j] == subs[..j];
      specs := specs + [PathSpec(Domain(b) + "/" + FolderPrefix(name) + subs[j].0)];
      j := j + 1;
    }
    assert subs[..j] == subs;
  }

  /** A spec is in the legacy list exactly when one entry of the folder
      flattens to it. */
  lemma LegacySpecsMeaning(b: Builder, entries: seq<(string, LegacyValue)>, s: FileSpec)
    ensures s in LegacySpecs(b, entries) <==> exists k :: 0 <= k < |entries| && s in EntrySpecs(b, entries[k])
  {
    if s in LegacySpecs(b, entries) {
      ConcatMapFrom(EntryOf(b), entries, |entries|, s);
      var k :| 0 <= k < |entries| && s in EntryOf(b)(entries[k]);
      assert s in EntrySpecs(b, entries[k]);
    }
    if exists k :: 0 <= k < |entries| && s in EntrySpecs(b, entries[k]) {
      var k :| 0 <= k < |entries| && s in EntrySpecs(b, entries[k]);
      assert s in EntryOf(b)(entries[k]);
      ConcatMapOf(EntryOf(b), entries, |entries|, k, s);
    }
  }

  /** Every spec of a sub-folder lies under the builder's root, below the
      folder's prefix, and names no domain. */
  lemma {:induction false} FolderSpecsShape(b: Builder, name: string, subs: seq<(string, string)>)
    ensures |FolderSpecs(b, name, subs)| == |subs|
    ensures forall k :: 0 <= k < |subs| ==>
      FolderSpecs(b, name, subs)[k] == PathSpec(Domain(b) + "/" + FolderPrefix(name) + subs[k].0)
    decreases |subs|
  {
    if subs != [] {
      var n := |subs| - 1;
      FolderSpecsShape(b, name, subs[..n]);
      forall k | 0 <= k < n
        ensures FolderSpecs(b, name, subs)[k] == PathSpec(Domain(b) + "/" + FolderPrefix(name) + subs[k].0)
      {
        assert subs[..n][k] == subs[k];
      }
    }
  }

  /** Every legacy spec names a path under the builder's root folder and no
      domain. */
  lemma LegacySpecsUnderRoot(b: Builder, entries: seq<(string, LegacyValue)>, s: FileSpec)
    requires s in LegacySpecs(b, entries)
    ensures s.path.Some? && StartsWith(s.path.value, Domain(b) + "/") && s.domain.None?
  {
    LegacySpecsMeaning(b, entries, s);
    var k :| 0 <= k < |entries| && s in EntrySpecs(b, entries[k]);
    EntrySpecUnderRoot(b, entries[k], s);
  }

  /** Each spec one entry flattens to lies under the builder's root folder. */
  lemma EntrySpecUnderRoot(b: Builder, entry: (string, LegacyValue), s: FileSpec)
    requires s in EntrySpecs(b, entry)
    ensures s.path.Some? && StartsWith(s.path.value, Domain(b) + "/") && s.domain.None?
  {
    var root := Domain(b) + "/";
    match entry.1
    case Text(_) =>
      assert (root + entry.0)[..|root|] == root;
    case Folder(subs) =>
      FolderSpecsShape(b, entry.0, subs);
      var j :| 0 <= j < |subs| && s == FolderSpecs(b, entry.0, subs)[j];
      assert (root + FolderPrefix(entry.0) + subs[j].0)[..|root|] == root;
    case OtherValue =>
  }

  // ---------------------------------------------------------------------
  // Which specs a pass runs (fix-mode selection)
  // ---------------------------------------------------------------------

  /** Which reading of the code a definition follows: the code as written,
      or with the correction described under "Findings" in the README. */
  datatype Reading = AsWritten | Corrected

  /** Every fix names a path. */
  predicate FixesHavePaths(fixes: seq<Fix>) {
    forall k :: 0 <= k < |fixes| ==> fixes[k].path.Some?
  }

  /** Every spec names a path. */
  predicate SpecsHavePaths(specs: seq<FileSpec>) {
    forall k :: 0 <= k < |specs| ==> specs[k].path.Some?
  }

  /** `{f["path"] for f in fix_instructions}` */
  function FixPaths(fixes: seq<Fix>): set<string> {
    set f | f in fixes && f.path.Some? :: f.path.value
  }

  /** The spec names one of the given paths. */
  predicate Flagged(spec: FileSpec, paths: set<string>) {
    spec.path.Some? && spec.path.value in paths
  }

  /** The specs a pass runs. A build pass (no fixes) runs them all; a fix
      pass runs the flagged ones, or all when none is flagged. Reading the
      fixes' paths raises when one has none; as written, reading the specs'
      paths raises too when one has none. */
  function Select(all: seq<FileSpec>, fixes: seq<Fix>, reading: Reading): Outcome<seq<FileSpec>> {
    if fixes == [] then Done(all)
    else if !FixesHavePaths(fixes) then Crashed("KeyError")
    else if reading.AsWritten? && !SpecsHavePaths(all) then Crashed("KeyError")
    else
      var paths := FixPaths(fixes);
      var chosen := Filter((s: FileSpec) => Flagged(s, paths), all);
      Done(if chosen == [] then all else chosen)
  }

  /** A pass runs a non-empty sub-list of the specs: all of them in a build
      pass or when no spec is flagged, exactly the flagged ones otherwise. */
  lemma SelectMeaning(all: seq<FileSpec>, fixes: seq<Fix>, reading: Reading, chosen: seq<FileSpec>)
    requires Select(all, fixes, reading) == Done(chosen)
    ensures all != [] ==> chosen != []
    ensures forall s :: s in chosen ==> s in all
    ensures fixes == [] ==> chosen == all
    ensures fixes != [] && (forall s :: s in all ==> !Flagged(s, FixPaths(fixes))) ==> chosen == all
    ensures fixes != [] && (exists s :: s in all && Flagged(s, FixPaths(fixes))) ==>
      forall s :: s in chosen <==> s in all && Flagged(s, FixPaths(fixes))
  {
    if fixes != [] {
      var paths := FixPaths(fixes);
      var flagged := Filter((s: FileSpec) => Flagged(s, paths), all);
      if |flagged| > 0 {
        assert flagged[0] in all && Flagged(flagged[0], paths);
      }
      if exists s :: s in all && Flagged(s, paths) {
        var s :| s in all && Flagged(s, paths);
        var i :| 0 <= i < |all| && all[i] == s;
        assert all[i] in flagged;
      }
    }
  }

  // ---------------------------------------------------------------------
  // One output file per selected spec
  // ---------------------------------------------------------------------

  /** What a builder run reads from the state, and the fixes passed to it. */
  datatype Context = Context(builder: Builder, stories: seq<UserStory>, techSpec: Option<TechSpec>, fixes: seq<Fix>)

  /** The path a spec without one is written to. */
  function DefaultPath(b: Builder, i: nat): string {
    match b
    case Backend => "backend/unknown_" + NatToDecimal(i) + ".py"
    case Frontend => "frontend/src/unknown_" + NatToDecimal(i) + ".jsx"
  }

  /** `spec.get("path", <default path>)` for the `i`-th selected spec. */
  function FilePath(b: Builder, spec: FileSpec, i: nat): string {
    match spec.path
    case Some(p) => p
    case None => DefaultPath(b, i)
  }

  /** The fix for a file: the first fix naming its path. */
  function FixFor(fixes: seq<Fix>, path: string): (r: Option<Fix>)
    ensures r.Some? ==> r.value in fixes && r.value.path == Some(path)
    decreases |fixes|
  {
    if fixes == [] then None
    else if fixes[0].path == Some(path) then Some(fixes[0])
    else FixFor(fixes[1..], path)
  }

  /** The fix found is the first one naming the path, and none is found
      exactly when no fix names it. */
  lemma {:induction false} FixForMeaning(fixes: seq<Fix>, path: string)
    ensures FixFor(fixes, path).None? <==> forall k :: 0 <= k < |fixes| ==> fixes[k].path != Some(path)
    ensures FixFor(fixes, path).Some? ==>
      exists k :: 0 <= k < |fixes| && fixes[k] == FixFor(fixes, path).value
                  && forall m :: 0 <= m < k ==> fixes[m].path != Some(path)
    decreases |fixes|
  {
    if fixes != [] && fixes[0].path != Some(path) {
      FixForMeaning(fixes[1..], path);
      if FixFor(fixes, path).Some? {
        var k :| 0 <= k < |fixes[1..]| && fixes[1..][k] == FixFor(fixes, path).value
          && forall m :: 0 <= m < k ==> fixes[1..][m].path != Some(path);
        assert fixes[k + 1] == fixes[1..][k];
        assert forall m :: 1 <= m < k + 1 ==> fixes[m] == fixes[1..][m - 1];
      }
      assert forall k :: 1 <= k < |fixes| ==> fixes[k] == fixes[1..][k - 1];
    }
  }

  /** Some file of the project structure in the builder's domain has no
      path; listing the domain's paths for the prompt then raises. */
  predicate DomainFileWithoutPath(b: Builder, files: seq<FileSpec>) {
    exists k :: 0 <= k < |files| && files[k].domain == Some(Domain(b)) && files[k].path.None?
  }

  /** The exception building a file's prompt raises, if any: reading the
      technical specification fails when there is none, listing the
      domain's paths fails on a file without one, and, as written, the
      spec's own path is indexed too. */
  function PromptFailure(ctx: Context, spec: FileSpec, reading: Reading): Option<string> {
    if ctx.techSpec.None? then Some("AttributeError")
    else if DomainFileWithoutPath(ctx.builder, ctx.techSpec.value.projectStructure.files) then Some("KeyError")
    else if reading.AsWritten? && spec.path.None? then Some("KeyError")
    else None
  }

  /** What happens before the call for the `i`-th spec: the correction its
      prompt carries (the instruction of the fix for its path, if any), or
      the exception raised reading that instruction or building the
      prompt. */
  function Prepare(ctx: Context, spec: FileSpec, i: nat, reading: Reading): Outcome<Option<string>> {
    var fix := FixFor(ctx.fixes, FilePath(ctx.builder, spec, i));
    if fix.Some? && fix.value.instruction.None? then Crashed("KeyError")
    else match PromptFailure(ctx, spec, reading)
      case Some(kind) => Crashed(kind)
      case None => Done(if fix.Some? then fix.value.instruction else None)
  }

  /** The fields of the language model's answer a builder reads: `content`
      (the empty string when missing), `code`, and the answer printed as a
      whole. */
  datatype BuildReply = BuildReply(content: string, code: Option<string>, repr: string)

  /** `result.get("content", "")`, or when that is empty
      `result.get("code", str(result))`. */
  function ReplyContent(r: BuildReply): (c: string)
    ensures r.content != "" ==> c == r.content
  {
    if r.content != "" then r.content else r.code.GetOr(r.repr)
  }

  /** The call did not produce code: it raised or reported an error. */
  predicate Failed(reply: Attempt<BuildReply>) {
    !(reply.Returned? && reply.result.LlmOk?)
  }

  /** The note written in place of a file whose generation reported an
      error (the frontend's note omits the error). */
  function ErrorNote(b: Builder, path: string, error: string): string {
    match b
    case Backend => "# Generation failed for " + path + "\n# Error: " + Take(error, 200) + "\n"
    case Frontend => "// Generation failed for " + path + "\n"
  }

  /** The note written in place of a file whose generation raised. */
  function ExceptionNote(b: Builder, path: string, message: string): string {
    match b
    case Backend => "# Exception generating " + path + "\n# " + Take(message, 200) + "\n"
    case Frontend => "// Exception generating " + path + "\n// " + Take(message, 200) + "\n"
  }

  /** The file written for `path` from the call's outcome. */
  function Output(ctx: Context, path: string, reply: Attempt<BuildReply>): GeneratedFile {
    var b := ctx.builder;
    match reply
    case Threw(message) =>
      GeneratedFile(path, ExceptionNote(b, path, message), [], Label(b) + " (exception)")
    case Returned(LlmError(error)) =>
      GeneratedFile(path, ErrorNote(b, path, error), [], Label(b) + " (error)")
    case Returned(LlmOk(r)) =>
      GeneratedFile(path, ReplyContent(r), RelevantIds(b, ctx.stories),
                    Label(b) + (if ctx.fixes != [] then " (fix)" else ""))
  }

  /** A failed call is still written, at its path, as a note crediting no
      story; a success credits the builder's stories and is marked as a fix
      exactly in a fix pass. */
  lemma OutputShape(ctx: Context, path: string, reply: Attempt<BuildReply>)
    ensures Output(ctx, path, reply).path == path
    ensures Failed(reply) ==> Output(ctx, path, reply).usIds == []
    ensures Failed(reply) ==> EndsWith(Output(ctx, path, reply).createdBy, " (error)")
                              || EndsWith(Output(ctx, path, reply).createdBy, " (exception)")
    ensures !Failed(reply) ==> Output(ctx, path, reply).usIds == RelevantIds(ctx.builder, ctx.stories)
    ensures !Failed(reply) ==> StartsWith(Output(ctx, path, reply).createdBy, Label(ctx.builder))
    ensures !Failed(reply) ==> (EndsWith(Output(ctx, path, reply).createdBy, " (fix)") <==> ctx.fixes != [])
  {
    var stamp := Output(ctx, path, reply).createdBy;
    if !Failed(reply) && ctx.fixes == [] {
      assert stamp[|stamp| - 1] == 'r';
    }
  }

  /** What the loop has built so far: the files, the number of failed
      calls, and the correction each call's prompt carried. */
  datatype Progress = Progress(files: seq<GeneratedFile>, errors: nat, corrections: seq<Option<string>>)

  /** The loop over the selected specs, one reply per spec. */
  function Generate(ctx: Context, specs: seq<FileSpec>, replies: seq<Attempt<BuildReply>>, reading: Reading): Outcome<Progress>
    requires |replies| == |specs|
    decreases |specs|
  {
    if specs == [] then Done(Progress([], 0, []))
    else
      var n := |specs| - 1;
      match Generate(ctx, specs[..n], replies[..n], reading)
      case Crashed(kind) => Crashed(kind)
      case Done(p) => Step(ctx, p, specs[n], n, replies[n], reading)
  }

  /** One pass of the loop for the `i`-th spec. */
  function Step(ctx: Context, p: Progress, spec: FileSpec, i: nat, reply: Attempt<BuildReply>, reading: Reading): Outcome<Progress> {
    match Prepare(ctx, spec, i, reading)
    case Crashed(kind) => Crashed(kind)
    case Done(correction) =>
      Done(Progress(p.files + [Output(ctx, FilePath(ctx.builder, spec, i), reply)],
                    p.errors + (if Failed(reply) then 1 else 0),
                    p.corrections + [correction]))
  }

  /** What a builder returns: its files and the summary line; the
      corrections the prompts carried are kept alongside. */
  datatype BuilderResult = BuilderResult(files: seq<GeneratedFile>, reasoning: string, corrections: seq<Option<string>>)

  /** `Generated N backend files (fix mode, E errors).` */
  function Reasoning(b: Builder, files: nat, fixMode: bool, errors: nat): string {
    "Generated " + NatToDecimal(files) + " " + Domain(b) + " files (" + (if fixMode then "fix" else "full")
    + " mode, " + NatToDecimal(errors) + " errors)."
  }

  /** The specs a run works through. */
  function Selected(ctx: Context, own: Option<BuilderSpec>, reading: Reading): Outcome<seq<FileSpec>> {
    match FileSpecs(ctx.builder, own, ctx.techSpec)
    case Crashed(kind) => Crashed(kind)
    case Done(found) => Select(AllSpecs(ctx.builder, found), ctx.fixes, reading)
  }

  /** `run_backend_builder(state, fix_instructions)` /
      `run_frontend_builder(state, fix_instructions)`. */
  function Build(ctx: Context, own: Option<BuilderSpec>, replies: seq<Attempt<BuildReply>>, reading: Reading): Outcome<BuilderResult>
    requires Selected(ctx, own, reading).Done? ==> |replies| == |Selected(ctx, own, reading).value|
  {
    match Selected(ctx, own, reading)
    case Crashed(kind) => Crashed(kind)
    case Done(specs) =>
      match Generate(ctx, specs, replies, reading)
      case Crashed(kind) => Crashed(kind)
      case Done(p) => Done(BuilderResult(p.files, Reasoning(ctx.builder, |p.files|, ctx.fixes != [], p.errors), p.corrections))
  }

  /** The builder run, corrected as described under "Findings". */
  method RunBuilder(ctx: Context, own: Option<BuilderSpec>, replies: seq<Attempt<BuildReply>>)
    returns (r: Outcome<BuilderResult>)
    requires Selected(ctx, own, Corrected).Done? ==> |replies| == |Selected(ctx, own, Corrected).value|
    ensures r == Build(ctx, own, replies, Corrected)
  {
    var found := GetFileSpecs(ctx.builder, own, ctx.techSpec);
    if found.Crashed? {
      return Crashed(found.kind);
    }
    var all := if found.value == [] then FallbackSpecs(ctx.builder) else found.value;
    var selected := Select(all, ctx.fixes, Corrected);
    if selected.Crashed? {
      return Crashed(selected.kind);
    }
    var progress := GenerateFiles(ctx, selected.value, replies);
    if progress.Crashed? {
      return Crashed(progress.kind);
    }
    var p := progress.value;
    r := Done(BuilderResult(p.files, Reasoning(ctx.builder, |p.files|, ctx.fixes != [], p.errors), p.corrections));
  }

  /** The loop of the builder: one file per spec, a failure counted and
      written as a note. */
  method GenerateFiles(ctx: Context, specs: seq<FileSpec>, replies: seq<Attempt<BuildReply>>)
    returns (r: Outcome<Progress>)
    requires |replies| == |specs|
    ensures r == Generate(ctx, specs, replies, Corrected)
  {
    var progress := Progress([], 0, []);
    var i := 0;
    while i < |specs|
      invariant 0 <= i <= |specs|
      invariant Generate(ctx, specs[..i], replies[..i], Corrected) == Done(progress)
    {
      assert specs[..i + 1][..i] == specs[..i];
      assert replies[..i + 1][..i] == replies[..i];
      var next := GenerateOne(ctx, progress, specs[i], i, replies[i]);
      if next.Crashed? {
        CrashStays(ctx, specs, replies, Corrected, i + 1);
        return next;
      }
      progress := next.value;
      i := i + 1;
    }
    assert specs[..i] == specs && replies[..i] == replies;
    r := Done(progress);
  }

  /** One pass of the loop: look up the fix for the file, build the prompt,
      and write the file from the call's outcome. */
  method GenerateOne(ctx: Context, p: Progress, spec: FileSpec, i: nat, reply: Attempt<BuildReply>)
    returns (r: Outcome<Progress>)
    ensures r == Step(ctx, p, spec, i, reply, Corrected)
  {
    var path := FilePath(ctx.builder, spec, i);
    var fix := FindFix(ctx.fixes, path);
    if fix.Some? && fix.value.instruction.None? {
      return Crashed("KeyError");
    }
    var failure := PromptFailure(ctx, spec, Corrected);
    if failure.Some? {
      return Crashed(failure.value);
    }
    var correction := if fix.Some? then fix.value.instruction else None;
    var errors := p.errors;
    if Failed(reply) {
      errors := errors + 1;
    }
    r := Done(Progress(p.files + [Output(ctx, path, reply)], errors, p.corrections + [correction]));
  }

  /** Once the loop has raised, later specs change nothing. */
  lemma {:induction false} CrashStays(ctx: Context, specs: seq<FileSpec>, replies: seq<Attempt<BuildReply>>,
                                      reading: Reading, k: nat)
    requires |replies| == |specs| && k <= |specs|
    requires Generate(ctx, specs[..k], replies[..k], reading).Crashed?
    ensures Generate(ctx, specs, replies, reading) == Generate(ctx, specs[..k], replies[..k], reading)
    decreases |specs|
  {
    if k == |specs| {
      assert specs[..k] == specs && replies[..k] == replies;
    } else {
      var n := |specs| - 1;
      assert specs[..n][..k] == specs[..k] && replies[..n][..k] == replies[..k];
      CrashStays(ctx, specs[..n], replies[..n], reading, k);
    }
  }

  /** The inner `for fix in fix_instructions` loop that stops at the first
      fix naming the path. */
  method FindFix(fixes: seq<Fix>, path: string) returns (fix: Option<Fix>)
    ensures fix == FixFor(fixes, path)
  {
    var k := 0;
    while k < |fixes|
      invariant 0 <= k <= |fixes|
      invariant FixFor(fixes, path) == FixFor(fixes[k..], path)
    {
      if fixes[k].path == Some(path) {
        return Some(fixes[k]);
      }
      assert fixes[k..][1..] == fixes[k + 1..];
      k := k + 1;
    }
    return None;
  }

  // ---------------------------------------------------------------------
  // What the loop promises
  // ---------------------------------------------------------------------

  /** A finished loop wrote exactly one file per spec, in spec order, at the
      spec's path (or the default path for its position), each from that
      spec's reply; each prompt carried the instruction of the fix for its
      file. */
  lemma GenerateIndex(ctx: Context, specs: seq<FileSpec>, replies: seq<Attempt<BuildReply>>,
                                         reading: Reading, p: Progress)
    requires |replies| == |specs|
    requires Generate(ctx, specs, replies, reading) == Done(p)
    ensures |p.files| == |specs| && |p.corrections| == |specs|
    ensures forall i :: 0 <= i < |specs| ==>
      p.files[i] == Output(ctx, FilePath(ctx.builder, specs[i], i), replies[i])
    ensures forall i :: 0 <= i < |specs| ==>
      Prepare(ctx, specs[i], i, reading) == Done(p.corrections[i])
  {
    GenerateFilesAt(ctx, specs, replies, reading, p);
    GenerateCorrectionsAt(ctx, specs, replies, reading, p);
  }

  /** The files of a finished loop, spec by spec. */
  lemma {:induction false} GenerateFilesAt(ctx: Context, specs: seq<FileSpec>, replies: seq<Attempt<BuildReply>>,
                                         reading: Reading, p: Progress)
    requires |replies| == |specs|
    requires Generate(ctx, specs, replies, reading) == Done(p)
    ensures |p.files| == |specs|
    ensures forall i :: 0 <= i < |specs| ==>
      p.files[i] == Output(ctx, FilePath(ctx.builder, specs[i], i), replies[i])
    decreases |specs|
  {
    if specs != [] {
      var n := |specs| - 1;
      var q := Generate(ctx, specs[..n], replies[..n], reading).value;
      GenerateFilesAt(ctx, specs[..n], replies[..n], reading, q);
      assert Step(ctx, q, specs[n], n, replies[n], reading) == Done(p);
      assert p.files == q.files + [Output(ctx, FilePath(ctx.builder, specs[n], n), replies[n])];
      forall i | 0 <= i < n
        ensures p.files[i] == Output(ctx, FilePath(ctx.builder, specs[i], i), replies[i])
      {
        assert specs[..n][i] == specs[i] && replies[..n][i] == replies[i];
        assert p.files[i] == q.files[i];
      }
    }
  }

  /** The correction each prompt of a finished loop carried, spec by spec. */
  lemma {:induction false} GenerateCorrectionsAt(ctx: Context, specs: seq<FileSpec>, replies: seq<Attempt<BuildReply>>,
                                         reading: Reading, p: Progress)
    requires |replies| == |specs|
    requires Generate(ctx, specs, replies, reading) == Done(p)
    ensures |p.corrections| == |specs|
    ensures forall i :: 0 <= i < |specs| ==>
      Prepare(ctx, specs[i], i, reading) == Done(p.corrections[i])
    decreases |specs|
  {
    if specs != [] {
      var n := |specs| - 1;
      var q := Generate(ctx, specs[..n], replies[..n], reading).value;
      GenerateCorrectionsAt(ctx, specs[..n], replies[..n], reading, q);
      assert Step(ctx, q, specs[n], n, replies[n], reading) == Done(p);
      var correction := Prepare(ctx, specs[n], n, reading).value;
      assert p.corrections == q.corrections + [correction];
      forall i | 0 <= i < n
        ensures Prepare(ctx, specs[i], i, reading) == Done(p.corrections[i])
      {
        assert specs[..n][i] == specs[i];
        assert p.corrections[i] == q.corrections[i];
      }
    }
  }

  /** The number of calls that did not produce code. */
  function FailedCount(replies: seq<Attempt<BuildReply>>): nat
    decreases |replies|
  {
    if replies == [] then 0
    else FailedCount(replies[..|replies| - 1]) + (if Failed(replies[|replies| - 1]) then 1 else 0)
  }

  /** The error count of a finished loop is the number of failed calls. */
  lemma {:induction false} GenerateErrors(ctx: Context, specs: seq<FileSpec>, replies: seq<Attempt<BuildReply>>,
                                          reading: Reading, p: Progress)
    requires |replies| == |specs|
    requires Generate(ctx, specs, replies, reading) == Done(p)
    ensures p.errors == FailedCount(replies)
    decreases |specs|
  {
    if specs != [] {
      var n := |specs| - 1;
      var q := Generate(ctx, specs[..n], replies[..n], reading).value;
      GenerateErrors(ctx, specs[..n], replies[..n], reading, q);
      assert Step(ctx, q, specs[n], n, replies[n], reading) == Done(p);
    }
  }

  /** At most every call fails, and none fails exactly when every call
      produced code. */
  lemma {:induction false} FailedCountMeaning(replies: seq<Attempt<BuildReply>>)
    ensures FailedCount(replies) <= |replies|
    ensures FailedCount(replies) == 0 <==> forall i :: 0 <= i < |replies| ==> !Failed(replies[i])
    decreases |replies|
  {
    if replies != [] {
      var n := |replies| - 1;
      FailedCountMeaning(replies[..n]);
      assert forall i :: 0 <= i < n ==> replies[..n][i] == replies[i];
    }
  }

  /** The loop raises exactly when preparing some spec's call raises. */
  lemma GenerateCrashIff(ctx: Context, specs: seq<FileSpec>, replies: seq<Attempt<BuildReply>>, reading: Reading)
    requires |replies| == |specs|
    ensures Generate(ctx, specs, replies, reading).Crashed? <==>
      exists i :: 0 <= i < |specs| && Prepare(ctx, specs[i], i, reading).Crashed?
  {
    if Generate(ctx, specs, replies, reading).Crashed? {
      GenerateCrashFrom(ctx, specs, replies, reading);
    }
    if exists i :: 0 <= i < |specs| && Prepare(ctx, specs[i], i, reading).Crashed? {
      var i :| 0 <= i < |specs| && Prepare(ctx, specs[i], i, reading).Crashed?;
      GenerateCrashOf(ctx, specs, replies, reading, i);
    }
  }

  /** A loop that raised did so preparing some spec's call. */
  lemma {:induction false} GenerateCrashFrom(ctx: Context, specs: seq<FileSpec>, replies: seq<Attempt<BuildReply>>, reading: Reading)
    requires |replies| == |specs|
    requires Generate(ctx, specs, replies, reading).Crashed?
    ensures exists i :: 0 <= i < |specs| && Prepare(ctx, specs[i], i, reading).Crashed?
    decreases |specs|
  {
    var n := |specs| - 1;
    var head := Generate(ctx, specs[..n], replies[..n], reading);
    if head.Crashed? {
      GenerateCrashFrom(ctx, specs[..n], replies[..n], reading);
      var i :| 0 <= i < n && Prepare(ctx, specs[..n][i], i, reading).Crashed?;
      assert specs[..n][i] == specs[i];
    } else {
      assert Step(ctx, head.value, specs[n], n, replies[n], reading).Crashed?;
      assert Prepare(ctx, specs[n], n, reading).Crashed?;
    }
  }

  /** Preparing the `i`-th spec's call raising makes the loop raise. */
  lemma {:induction false} GenerateCrashOf(ctx: Context, specs: seq<FileSpec>, replies: seq<Attempt<BuildReply>>,
                                           reading: Reading, i: nat)
    requires |replies| == |specs| && i < |specs|
    requires Prepare(ctx, specs[i], i, reading).Crashed?
    ensures Generate(ctx, specs, replies, reading).Crashed?
    decreases |specs|
  {
    var n := |specs| - 1;
    var head := Generate(ctx, specs[..n], replies[..n], reading);
    if i < n {
      assert specs[..n][i] == specs[i];
      GenerateCrashOf(ctx, specs[..n], replies[..n], reading, i);
    } else if head.Done? {
      assert Step(ctx, head.value, specs[n], n, replies[n], reading).Crashed?;
    }
  }

  /** A successful run returns one file per selected spec, in order, at the
      spec's path or the default path of its position. */
  lemma OneFilePerSpec(ctx: Context, own: Option<BuilderSpec>, replies: seq<Attempt<BuildReply>>,
                       reading: Reading, specs: seq<FileSpec>, r: BuilderResult)
    requires Selected(ctx, own, reading) == Done(specs)
    requires |replies| == |specs|
    requires Build(ctx, own, replies, reading) == Done(r)
    ensures |r.files| == |specs| && |r.corrections| == |specs|
    ensures forall i :: 0 <= i < |specs| ==> r.files[i].path == FilePath(ctx.builder, specs[i], i)
    ensures forall i :: 0 <= i < |specs| ==> r.files[i] == Output(ctx, r.files[i].path, replies[i])
    ensures forall i :: 0 <= i < |specs| ==> Prepare(ctx, specs[i], i, reading) == Done(r.corrections[i])
  {
    var p := Generate(ctx, specs, replies, reading).value;
    GenerateIndex(ctx, specs, replies, reading, p);
  }

  /** Without a technical specification a run always raises: the file
      specs cannot be looked up, or the first file's prompt cannot be
      built. */
  lemma NoTechSpecCrashes(ctx: Context, own: Option<BuilderSpec>, replies: seq<Attempt<BuildReply>>, reading: Reading)
    requires Selected(ctx, own, reading).Done? ==> |replies| == |Selected(ctx, own, reading).value|
    requires ctx.techSpec.None?
    ensures Build(ctx, own, replies, reading).Crashed?
  {
    if Selected(ctx, own, reading).Done? {
      var specs := Selected(ctx, own, reading).value;
      var found := FileSpecs(ctx.builder, own, ctx.techSpec).value;
      SelectMeaning(AllSpecs(ctx.builder, found), ctx.fixes, reading, specs);
      assert Prepare(ctx, specs[0], 0, reading).Crashed?;
      GenerateCrashIff(ctx, specs, replies, reading);
    }
  }

  /** In a build pass the corrected run raises exactly when the prompts
      cannot be built at all: no technical specification, or a file of the
      builder's domain without a path. As written it also raises when any
      spec lacks a path. */
  lemma BuildPassCrashIff(ctx: Context, own: Option<BuilderSpec>, replies: seq<Attempt<BuildReply>>,
                          reading: Reading, specs: seq<FileSpec>)
    requires ctx.fixes == []
    requires Selected(ctx, own, reading) == Done(specs)
    requires |replies| == |specs|
    ensures reading.Corrected? ==>
      (Build(ctx, own, replies, reading).Crashed? <==>
         ctx.techSpec.None? || DomainFileWithoutPath(ctx.builder, ctx.techSpec.value.projectStructure.files))
    ensures reading.AsWritten? ==>
      (Build(ctx, own, replies, reading).Crashed? <==>
         ctx.techSpec.None? || DomainFileWithoutPath(ctx.builder, ctx.techSpec.value.projectStructure.files)
         || !SpecsHavePaths(specs))
  {
    GenerateCrashIff(ctx, specs, replies, reading);
    var found := FileSpecs(ctx.builder, own, ctx.techSpec).value;
    SelectMeaning(AllSpecs(ctx.builder, found), ctx.fixes, reading, specs);
    assert Prepare(ctx, specs[0], 0, reading).Crashed? <==> PromptFailure(ctx, specs[0], reading).Some?;
    if !SpecsHavePaths(specs) && reading.AsWritten? {
      var k :| 0 <= k < |specs| && specs[k].path.None?;
      assert Prepare(ctx, specs[k], k, reading).Crashed?;
    }
  }

  /** When no spec is found, a build pass works through the builder's
      fallback list. */
  lemma NothingFoundUsesFallback(ctx: Context, own: Option<BuilderSpec>, reading: Reading)
    requires FileSpecs(ctx.builder, own, ctx.techSpec) == Done([])
    requires ctx.fixes == []
    ensures Selected(ctx, own, reading) == Done(FallbackSpecs(ctx.builder))
  {
  }

  /** The default paths differ from one position to the next. */
  lemma DefaultPathsDistinct(b: Builder, i: nat, j: nat)
    requires i != j
    ensures DefaultPath(b, i) != DefaultPath(b, j)
  {
    var root := match b case Backend => "backend/unknown_" case Frontend => "frontend/src/unknown_";
    var ext := match b case Backend => ".py" case Frontend => ".jsx";
    DecimalRoundTrip(i);
    DecimalRoundTrip(j);
    if DefaultPath(b, i) == DefaultPath(b, j) {
      InfixInjective(root, NatToDecimal(i), NatToDecimal(j), ext);
      assert false;
    }
  }

  /** The default paths lie under the builder's root folder. */
  lemma DefaultPathUnderRoot(b: Builder, i: nat)
    ensures StartsWith(DefaultPath(b, i), Domain(b) + "/")
  {
    var root := match b case Backend => "backend/unknown_" case Frontend => "frontend/src/unknown_";
    var ext := match b case Backend => ".py" case Frontend => ".jsx";
    var x := DefaultPath(b, i);
    assert x == root + (NatToDecimal(i) + ext);
    assert root[..|Domain(b) + "/"|] == Domain(b) + "/";
  }

  /** As written, one spec without a path makes a build pass raise
      `KeyError`, although the loop gives such a spec a default path. */
  lemma PathlessSpecCrashesAsWritten()
    ensures Build(PathlessExample(), Some(BuilderSpec([FileSpec(None, None)])),
                  [Returned(LlmOk(BuildReply("code", None, "")))], AsWritten) == Crashed("KeyError")
  {
    var ctx := PathlessExample();
    var specs := [FileSpec(None, None)];
    assert Selected(ctx, Some(BuilderSpec(specs)), AsWritten) == Done(specs);
    assert specs[..0] == [];
    assert !DomainFileWithoutPath(Backend, []);
  }

  /** Corrected, the same spec is written to the default path of its
      position. */
  lemma PathlessSpecGetsDefaultPath()
    ensures var r := Build(PathlessExample(), Some(BuilderSpec([FileSpec(None, None)])),
                           [Returned(LlmOk(BuildReply("code", None, "")))], Corrected);
      r.Done? && |r.value.files| == 1 && r.value.files[0].path == "backend/unknown_0.py"
      && r.value.files[0].content == "code"
  {
    var ctx := PathlessExample();
    var specs := [FileSpec(None, None)];
    assert Selected(ctx, Some(BuilderSpec(specs)), Corrected) == Done(specs);
    assert specs[..0] == [];
    assert !DomainFileWithoutPath(Backend, []);
    assert NatToDecimal(0) == "0";
  }

  /** A backend run with a technical specification whose project structure
      is empty, no stories and no fixes. */
  function PathlessExample(): Context {
    Context(Backend, [], Some(TechSpec(ProjectStructure([], []), "", [], "Architect Agent", 0)), [])
  }
}
