/** The container steps after a file restore (internal/backup/restore_runner.go): which
    manifest drives them, what is checked first, what is executed in which order, and
    how the report, the error and the remote history tell the same story. */
module Restore {
  import opened Sequences
  import opened Wrappers
  import opened Text
  import opened Outcomes
  import opened RestoreReport
  import GoPath
  import PathUtil
  import PackagePaths
  import Preflight
  import Remap

  // ----- data -----

  datatype Volume = Volume(originalName: string, archive: string, target: string)

  datatype Mount = Mount(source: string, target: string, reason: string)

  datatype Db = Db(engine: string, container: string, dump: string)

  datatype Manifest = Manifest(formatVersion: int, app: string, composeFile: string, volumes: seq<Volume>,
                               mounts: seq<Mount>, database: Option<Db>)

  datatype StartPolicy = Auto | Start | NoStart

  datatype Options = Options(targetPath: string, policy: StartPolicy, alias: string)

  datatype Job = Job(name: string, server: string, paths: seq<string>)

  /** The host a run acts on, and the database asset the asset store names for it, if any. */
  datatype Target = Target(name: string, databaseAsset: Option<Db>)

  /** A located container package. */
  datatype Candidate = Candidate(manifest: Manifest, packageRoot: string, dir: string)

  /** A remote command, with the arguments that reach the generated script. */
  datatype Action =
    | ListSnapshots
    | PreviewFiles
    | RestoreFiles
    | ReadManifest(path: string)
    | CheckMount(source: string)
    | Probe(input: Preflight.Input)
    | ImportVolume(name: string, archive: string)
    | ComposeUp(dir: string, project: string, composeFile: string)
    | ImportDatabase(engine: string, container: string, dump: string)
    | AutoStart(dirs: seq<string>, alias: string, database: Option<Db>)

  /** Actions that change container state on the target. */
  predicate Mutating(a: Action) {
    a.ImportVolume? || a.ComposeUp? || a.ImportDatabase? || a.AutoStart?
  }

  /** executor.Result together with the error and what the output decodes to. */
  datatype Response = Response(success: bool, exitCode: int, err: Option<Error>, manifest: Option<Manifest>,
                               lines: seq<string>)

  /** The executor contract: an error exactly when there was no success; and executors
      know nothing of the audit sentinels. */
  predicate Lawful(r: Response) {
    (r.err.None? <==> r.success) && (r.err.Some? ==> r.err.value.marks <= {ContextDone})
  }

  /** The test the runner applies to a response. */
  predicate Ok(r: Response) {
    r.err.None? && r.success
  }

  /** The remote side. Its answers are arbitrary and may depend on the whole history. */
  class Remote {
    const respond: seq<Action> -> Response
    const ps: string -> Option<seq<Preflight.Container>>
    var trace: seq<Action>

    constructor (respond: seq<Action> -> Response, ps: string -> Option<seq<Preflight.Container>>)
      ensures this.respond == respond && this.ps == ps && trace == []
    {
      this.respond, this.ps, trace := respond, ps, [];
    }

    ghost predicate AllLawful() {
      forall h :: Lawful(respond(h))
    }

    method Execute(a: Action) returns (r: Response)
      modifies this
      ensures trace == old(trace) + [a] && r == respond(trace)
    {
      trace := trace + [a];
      r := respond(trace);
    }
  }

  // ----- manifests -----

  /** NormalizeDatabaseEngine. */
  function CanonicalEngine(engine: string): Option<string> {
    var norm := Trim(ToLower(engine));
    if norm == "mysql" || norm == "mariadb" then Some("mysql")
    else if norm == "postgres" || norm == "postgresql" then Some("postgres")
    else None
  }

  predicate FieldOk(s: string) {
    !Blank(s) && !HasControlCharacter(s)
  }

  /** ContainerManifest.Validate. */
  predicate ValidManifest(m: Manifest) {
    && m.formatVersion == 1
    && FieldOk(m.app)
    && PackagePaths.Refusal(m.composeFile) == None
    && (forall i :: 0 <= i < |m.volumes| ==>
          && FieldOk(m.volumes[i].originalName)
          && PackagePaths.Refusal(m.volumes[i].archive) == None
          && FieldOk(m.volumes[i].target))
    && (forall i :: 0 <= i < |m.mounts| ==>
          FieldOk(m.mounts[i].source) && FieldOk(m.mounts[i].target) && !HasControlCharacter(m.mounts[i].reason))
    && (m.database.Some? ==>
          && CanonicalEngine(m.database.value.engine).Some?
          && FieldOk(m.database.value.container)
          && (m.database.value.dump != "" ==> PackagePaths.Refusal(m.database.value.dump) == None))
  }

  const SYSTEM_FILES: seq<string> := [
    "/var/run/docker.sock", "/run/docker.sock", "/etc/localtime", "/etc/timezone", "/etc/resolv.conf", "/etc/hosts", "/etc/hostname"]

  const SYSTEM_DIRS: seq<string> := ["/proc", "/sys", "/dev", "/run"]

  /** docker.IsSystemMount. */
  predicate IsSystemMount(source: string) {
    var c := GoPath.Clean(Slashed(source));
    c in SYSTEM_FILES || exists i | 0 <= i < |SYSTEM_DIRS| :: PathUtil.HasPathPrefix(c, SYSTEM_DIRS[i])
  }

  /** databaseContainerName. */
  function DatabaseContainer(m: Manifest, alias: string): string {
    if m.database.None? then ""
    else if alias != "" && m.database.value.container == m.app then alias
    else m.database.value.container
  }

  function ProjectName(m: Manifest, alias: string): string {
    if alias != "" then alias else m.app
  }

  function ComposeFile(m: Manifest): string {
    if m.composeFile == "" then "compose.yaml" else m.composeFile
  }

  // ----- deduplicated directories -----

  function DedupKey(p: string): string {
    GoPath.Clean(Slashed(Trim(p)))
  }

  /** dedupPaths as a function: the cleaned non-blank entries, first occurrences only. */
  function Dedup(paths: seq<string>): seq<string> {
    if paths == [] then []
    else
      var rest, p := Dedup(paths[..|paths| - 1]), paths[|paths| - 1];
      if Trim(p) == "" || DedupKey(p) in rest then rest else rest + [DedupKey(p)]
  }

  /** `x` is the cleaned form of a non-blank entry. */
  predicate Comes(paths: seq<string>, x: string) {
    exists k :: 0 <= k < |paths| && Trim(paths[k]) != "" && DedupKey(paths[k]) == x
  }

  lemma ComesLast(paths: seq<string>, x: string)
    requires paths != []
    ensures var front, p := paths[..|paths| - 1], paths[|paths| - 1];
            Comes(paths, x) <==> Comes(front, x) || (Trim(p) != "" && DedupKey(p) == x)
  {
    var front := paths[..|paths| - 1];
    assert forall k :: 0 <= k < |front| ==> front[k] == paths[k];
    if Comes(front, x) {
      var k :| 0 <= k < |front| && Trim(front[k]) != "" && DedupKey(front[k]) == x;
      assert Trim(paths[k]) != "" && DedupKey(paths[k]) == x;
    }
  }

  /** It is what it should be: exactly the cleaned non-blank inputs, */
  lemma {:induction false} DedupMeaning(paths: seq<string>, x: string)
    ensures x in Dedup(paths) <==> Comes(paths, x)
  {
    if paths != [] {
      DedupMeaning(paths[..|paths| - 1], x);
      ComesLast(paths, x);
    }
  }

  /** and none of them twice. */
  lemma {:induction false} DedupDistinct(paths: seq<string>)
    ensures forall i, j :: 0 <= i < j < |Dedup(paths)| ==> Dedup(paths)[i] != Dedup(paths)[j]
  {
    if paths != [] {
      DedupDistinct(paths[..|paths| - 1]);
    }
  }

  // ----- locating the manifest -----

  datatype Lead = Lead(path: string, dir: string)

  function ScratchManifest(dir: string): string {
    GoPath.Join(GoPath.Join(dir, ".opspulse"), "manifest.yaml")
  }

  function LegacyManifest(dir: string): string {
    GoPath.Join(dir, "manifest.yaml")
  }

  /** `path.Dir`: the cleaned part before the last slash. */
  function Dir(p: string): string {
    GoPath.Clean(UpToSlash(p))
  }

  function UpToSlash(p: string): string {
    if p == "" || p[|p| - 1] == '/' then p else UpToSlash(p[..|p| - 1])
  }

  /** The places probed for each directory, scratch location first, each path once. */
  function Leads(targetPath: string, dirs: seq<string>): seq<Lead> {
    if dirs == [] then []
    else
      var rest := Leads(targetPath, dirs[..|dirs| - 1]);
      var d := Remap.RestoredPath(targetPath, dirs[|dirs| - 1]);
      AddLead(AddLead(rest, Lead(ScratchManifest(d), d)), Lead(LegacyManifest(d), d))
  }

  function AddLead(leads: seq<Lead>, l: Lead): seq<Lead> {
    if exists k :: 0 <= k < |leads| && leads[k].path == l.path then leads else leads + [l]
  }

  function Reads(leads: seq<Lead>): (r: seq<Action>)
    ensures |r| == |leads| && forall k :: 0 <= k < |r| ==> r[k] == ReadManifest(leads[k].path)
  {
    seq(|leads|, k requires 0 <= k < |leads| => ReadManifest(leads[k].path))
  }

  /** A read that yields a manifest which decodes and validates. */
  predicate Usable(r: Response) {
    Ok(r) && r.manifest.Some? && ValidManifest(r.manifest.value)
  }

  /** The packages found when the leads are read in order, starting after history `h`. */
  function Found(respond: seq<Action> -> Response, h: seq<Action>, leads: seq<Lead>): seq<Candidate> {
    if leads == [] then []
    else
      var l, r := leads[|leads| - 1], respond(h + Reads(leads));
      Found(respond, h, leads[..|leads| - 1])
      + if Usable(r) then [Candidate(r.manifest.value, Dir(l.path), l.dir)] else []
  }

  /** Only a manifest whose app names this job, or the alias, may drive the restore. */
  predicate Named(c: Candidate, job: Job, alias: string) {
    EqualFold(c.manifest.app, job.name) || (alias != "" && EqualFold(c.manifest.app, alias))
  }

  /** The first candidate that is named. */
  function Choice(cs: seq<Candidate>, job: Job, alias: string): Option<Candidate> {
    if cs == [] then None
    else if Named(cs[0], job, alias) then Some(cs[0])
    else Choice(cs[1..], job, alias)
  }

  /** It is the first named one: none before it is. */
  lemma {:induction false} ChoiceMeaning(cs: seq<Candidate>, job: Job, alias: string) returns (k: nat)
    ensures Choice(cs, job, alias).Some? ==> k < |cs| && cs[k] == Choice(cs, job, alias).value && Named(cs[k], job, alias)
    ensures Choice(cs, job, alias).None? ==> k == |cs|
    ensures k <= |cs| && forall i :: 0 <= i < k ==> !Named(cs[i], job, alias)
  {
    k := 0;
    if cs != [] && !Named(cs[0], job, alias) {
      var rest := ChoiceMeaning(cs[1..], job, alias);
      k := rest + 1;
    }
  }

  lemma {:induction false} FoundValid(respond: seq<Action> -> Response, h: seq<Action>, leads: seq<Lead>)
    ensures forall c :: c in Found(respond, h, leads) ==> ValidManifest(c.manifest)
  {
    if leads != [] {
      FoundValid(respond, h, leads[..|leads| - 1]);
    }
  }

  // ----- the plan of a manifest-driven restore -----

  /** Where the artifacts of a package lie, none for an illegal path. */
  type Locator = string -> Option<string>

  function InPackage(root: string): Locator {
    relative =>
      match PackagePaths.ResolvePath(root, relative)
      case Resolved(p) => Some(p)
      case _ => None
  }

  function Place(at: Locator, relative: string): string {
    if at(relative).Some? then at(relative).value else ""
  }

  predicate ArchivesResolve(vs: seq<Volume>, at: Locator) {
    forall i :: 0 <= i < |vs| && vs[i].archive != "" ==> at(vs[i].archive).Some?
  }

  predicate DumpDeclared(m: Manifest) {
    m.database.Some? && m.database.value.dump != ""
  }

  predicate DumpResolves(m: Manifest, at: Locator) {
    DumpDeclared(m) ==> at(m.database.value.dump).Some?
  }

  function Imports(vs: seq<Volume>, at: Locator): seq<Action> {
    if vs == [] then []
    else
      var v := vs[|vs| - 1];
      Imports(vs[..|vs| - 1], at)
      + if v.archive == "" then [] else [ImportVolume(v.originalName, Place(at, v.archive))]
  }

  function Archives(vs: seq<Volume>, at: Locator): seq<string> {
    if vs == [] then []
    else
      var v := vs[|vs| - 1];
      Archives(vs[..|vs| - 1], at) + if v.archive == "" then [] else [Place(at, v.archive)]
  }

  /** Whether BuildImportScript accepts its arguments. */
  predicate ScriptAccepted(engine: string, container: string, dump: string) {
    && CanonicalEngine(engine).Some?
    && Trim(container) != "" && '\n' !in Trim(container) && '\r' !in Trim(container)
    && Trim(dump) != ""
  }

  function DumpImport(m: Manifest, alias: string, at: Locator): seq<Action> {
    if !DumpDeclared(m) then []
    else
      var db := m.database.value;
      var container, dump := DatabaseContainer(m, alias), Place(at, db.dump);
      if ScriptAccepted(db.engine, container, dump)
      then [ImportDatabase(CanonicalEngine(db.engine).value, Trim(container), Trim(dump))]
      else []
  }

  /** What a manifest-driven restore does to the target, in order: the volumes as listed,
      then the Compose start, then the database. */
  function Plan(c: Candidate, alias: string, at: Locator): seq<Action> {
    Imports(c.manifest.volumes, at)
    + [ComposeUp(c.dir, ProjectName(c.manifest, alias), ComposeFile(c.manifest))]
    + DumpImport(c.manifest, alias, at)
  }

  function ExpectedContainers(m: Manifest, alias: string): seq<string> {
    Dedup([m.app] + (if alias != "" then [alias] else [])
          + (if m.database.Some? then [DatabaseContainer(m, alias)] else []))
  }

  /** The dump the preflight looks at. */
  function DumpPath(m: Manifest, at: Locator): string {
    if DumpDeclared(m) then Place(at, m.database.value.dump) else ""
  }

  /** What the preflight is asked to check. */
  function CheckedInput(c: Candidate, alias: string, crossMachine: bool, at: Locator): Preflight.Input {
    Preflight.Input(
      ProjectName(c.manifest, alias),
      GoPath.Join(c.dir, ComposeFile(c.manifest)),
      Archives(c.manifest.volumes, at),
      DumpPath(c.manifest, at),
      ExpectedContainers(c.manifest, alias),
      crossMachine)
  }

  predicate Suspect(m: Mount) {
    m.reason == "system_mount" || IsSystemMount(m.source)
  }

  function MountCheck(m: Mount): seq<Action> {
    if Suspect(m) then [CheckMount(m.source)] else []
  }

  function MountChecks(mounts: seq<Mount>): seq<Action> {
    Flatten(Mapped(MountCheck, mounts))
  }

  lemma OneMoreMount(mounts: seq<Mount>, m: Mount)
    ensures MountChecks(mounts + [m]) == MountChecks(mounts) + MountCheck(m)
  {
    MappedMore(MountCheck, mounts, m);
    FlattenMore(Mapped(MountCheck, mounts), MountCheck(m));
  }

  lemma {:induction false} MountChecksLook(mounts: seq<Mount>)
    ensures forall i :: 0 <= i < |MountChecks(mounts)| ==> MountChecks(mounts)[i].CheckMount?
  {
    if mounts != [] {
      var front, m := mounts[..|mounts| - 1], mounts[|mounts| - 1];
      MountChecksLook(front);
      OneMoreMount(front, m);
      assert mounts == front + [m];
    }
  }

  // ----- the story of a manifest-driven restore -----

  /** How far it got. */
  datatype Progress =
    | ArchiveIllegal
    | DumpIllegal
    | ProbeRefused
    | ProbeFailed
    | Executed(n: nat, failed: bool)

  /** Executed after `h`, each of these actions succeeds. */
  predicate AllOk(respond: seq<Action> -> Response, h: seq<Action>, actions: seq<Action>)
    decreases |actions|
  {
    actions == [] || (AllOk(respond, h, actions[..|actions| - 1]) && Ok(respond(h + actions)))
  }

  /** `trace` continues `h` by the first `n` actions of `plan`, all of them successful
      except, if `failed`, the last; without a failure the plan is complete. */
  predicate Ran(respond: seq<Action> -> Response, h: seq<Action>, plan: seq<Action>, n: nat, failed: bool, trace: seq<Action>) {
    && n <= |plan| && trace == h + plan[..n]
    && if failed then n > 0 && AllOk(respond, h, plan[..n - 1]) && !Ok(respond(trace))
       else n == |plan| && AllOk(respond, h, plan)
  }

  /** The status of step `k` when the execution stopped after `n` actions. `stop` is the
      status a failed action gives its step. */
  function StatusAfter(m: Manifest, alias: string, at: Locator, n: nat, failed: bool, stop: StepStatus): Report {
    var v := |Imports(m.volumes, at)|;
    Report(
      StepDone,
      if failed && n <= v then stop else if v > 0 then StepDone else Skipped,
      if failed && n <= v + 1 then Blocked
      else if m.database.None? then Skipped
      else if !DumpDeclared(m) then Manual
      else if DumpImport(m, alias, at) == [] then StepFailed
      else if failed then stop
      else StepDone,
      if failed && n <= v then Blocked else if failed && n == v + 1 then stop else StepDone)
  }

  /** The error after `n` actions of the plan, the last of them answered by `r`. Volume and
      Compose errors are formatted anew and lose their cause; a database error keeps it. */
  function PlanError(c: Candidate, alias: string, at: Locator, n: nat, failed: bool, r: Response): Option<Error>
  {
    if failed then
      if n > |Imports(c.manifest.volumes, at)| + 1 && r.err.Some? then r.err else Some(PLAIN)
    else if DumpDeclared(c.manifest) && DumpImport(c.manifest, alias, at) == [] then Some(PLAIN)
    else None
  }

  /** The probe of this input, run after `h`, lets the restore go on. */
  predicate ProbePassed(remote: Remote, h: seq<Action>, input: Preflight.Input) {
    var r := remote.respond(h + [Probe(input)]);
    Ok(r) && Preflight.Passes(input, r.lines, remote.ps)
  }

  /** The part of the story from the preflight on: `checked` is the history before it. */
  predicate Checked(remote: Remote, checked: seq<Action>, input: Preflight.Input, c: Candidate, alias: string, at: Locator,
                    p: Progress, trace: seq<Action>, report: Report, err: Option<Error>)
  {
    match p
    case ProbeRefused =>
      && !Preflight.InputAccepted(input)
      && trace == checked && err == Some(Error({PreflightBlocked}, 0))
      && report == Report(StepDone, Blocked, Blocked, Blocked)
    case ProbeFailed =>
      && Preflight.InputAccepted(input) && !ProbePassed(remote, checked, input)
      && trace == checked + [Probe(input)] && err == Some(Error({PreflightBlocked}, 0))
      && report == Report(StepDone, Blocked, Blocked, Blocked)
    case Executed(n, failed) =>
      && Preflight.InputAccepted(input) && ProbePassed(remote, checked, input)
      && Ran(remote.respond, checked + [Probe(input)], Plan(c, alias, at), n, failed, trace)
      && report == StatusAfter(c.manifest, alias, at, n, failed, ClassifyExit(remote.respond(trace).exitCode))
      && err == PlanError(c, alias, at, n, failed, remote.respond(trace))
    case _ => false
  }

  /** Everything that can be said about a manifest-driven restore that started at `h`:
      what was executed, what is reported and whether there is an error. */
  predicate Story(remote: Remote, h: seq<Action>, c: Candidate, alias: string, crossMachine: bool, at: Locator,
                  p: Progress, trace: seq<Action>, report: Report, err: Option<Error>)
  {
    var m, checked := c.manifest, h + MountChecks(c.manifest.mounts);
    if p == ArchiveIllegal then
      && !ArchivesResolve(m.volumes, at)
      && trace == checked && err == Some(PLAIN) && report == Report(StepDone, StepFailed, Blocked, Blocked)
    else if p == DumpIllegal then
      && ArchivesResolve(m.volumes, at) && !DumpResolves(m, at)
      && trace == checked && err == Some(PLAIN) && report == Report(StepDone, Blocked, StepFailed, Blocked)
    else
      && ArchivesResolve(m.volumes, at) && DumpResolves(m, at)
      && Checked(remote, checked, CheckedInput(c, alias, crossMachine, at), c, alias, at, p, trace, report, err)
  }
}
