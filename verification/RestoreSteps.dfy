/** The runner's container steps (internal/backup/restore_runner.go and
    restore_preflight.go), method by method, against the vocabulary of `Restore`. */
module RestoreSteps {
  import opened Sequences
  import opened Wrappers
  import opened Text
  import opened Outcomes
  import opened RestoreReport
  import opened Restore
  import GoPath
  import Preflight
  import Remap

  method FailStep(result: RestoreResult, kind: Kind, s: StepStatus, blocked: seq<Kind>)
    requires result.Valid()
    modifies result`steps
    ensures result.Valid()
    ensures forall k :: result.View().Get(k) ==
              if k in blocked then Blocked else if k == kind then s else old(result.View()).Get(k)
  {
    result.SetStep(kind, s);
    result.BlockSteps(blocked);
  }

  lemma DedupStep(paths: seq<string>, p: string)
    ensures var before, clean := Dedup(paths), DedupKey(p);
            Dedup(paths + [p]) == if Trim(p) != "" && clean !in before then before + [clean] else before
  {
    assert (paths + [p])[..|paths|] == paths;
  }

  method DedupOne(seen: set<string>, res: seq<string>, p: string, ghost before: seq<string>)
    returns (seen': set<string>, res': seq<string>)
    requires res == Dedup(before) && forall x :: x in seen <==> x in res
    ensures res' == Dedup(before + [p]) && forall x :: x in seen' <==> x in res'
  {
    seen', res' := seen, res;
    DedupStep(before, p);
    var clean := DedupKey(p);
    if Trim(p) != "" && clean !in seen {
      seen', res' := seen + {clean}, res + [clean];
    }
  }

  method DedupPaths(paths: seq<string>) returns (res: seq<string>)
    ensures res == Dedup(paths)
  {
    var seen: set<string> := {};
    res := [];
    for i := 0 to |paths|
      invariant res == Dedup(paths[..i]) && forall x :: x in seen <==> x in res
    {
      assert paths[..i + 1] == paths[..i] + [paths[i]];
      seen, res := DedupOne(seen, res, paths[i], paths[..i]);
    }
    assert paths[..|paths|] == paths;
  }

  /** runRestorePreflight: none when the target may be touched. */
  method RunPreflight(remote: Remote, input: Preflight.Input) returns (err: Option<Error>)
    modifies remote
    ensures remote.trace == old(remote.trace) + if Preflight.InputAccepted(input) then [Probe(input)] else []
    ensures err.None? <==> Preflight.InputAccepted(input) && ProbePassed(remote, old(remote.trace), input)
  {
    if !Preflight.InputAccepted(input) {
      return Some(PLAIN);
    }
    var r := remote.Execute(Probe(input));
    if r.err.Some? || !r.success {
      return Some(if r.err.Some? then r.err.value else PLAIN);
    }
    var pass := Preflight.Judge(input, r.lines, remote.ps);
    return if pass then None else Some(PLAIN);
  }

  /** A. The system mounts, looked at. */
  method CheckMounts(remote: Remote, mounts: seq<Mount>)
    modifies remote
    ensures remote.trace == old(remote.trace) + MountChecks(mounts)
  {
    for i := 0 to |mounts|
      invariant remote.trace == old(remote.trace) + MountChecks(mounts[..i])
    {
      assert mounts[..i + 1] == mounts[..i] + [mounts[i]];
      OneMoreMount(mounts[..i], mounts[i]);
      LookAt(remote, mounts[i]);
    }
    assert mounts[..|mounts|] == mounts;
  }

  method LookAt(remote: Remote, m: Mount)
    modifies remote
    ensures remote.trace == old(remote.trace) + MountCheck(m)
  {
    if m.reason == "system_mount" || IsSystemMount(m.source) {
      var _ := remote.Execute(CheckMount(m.source));
    }
  }

  /** Resolves the archives before anything is touched; -1 when all of them do. */
  method ResolveArchives(vs: seq<Volume>, at: Locator) returns (bad: int, paths: seq<string>, archives: seq<string>)
    ensures bad == -1 <==> ArchivesResolve(vs, at)
    ensures bad == -1 ==> |paths| == |vs| && archives == Archives(vs, at)
    ensures bad == -1 ==> forall i :: 0 <= i < |vs| ==> paths[i] == if vs[i].archive == "" then "" else Place(at, vs[i].archive)
  {
    paths, archives := [], [];
    for i := 0 to |vs|
      invariant |paths| == i && archives == Archives(vs[..i], at)
      invariant forall j :: 0 <= j < i ==> paths[j] == if vs[j].archive == "" then "" else Place(at, vs[j].archive)
      invariant forall j :: 0 <= j < i && vs[j].archive != "" ==> at(vs[j].archive).Some?
    {
      assert vs[..i + 1][..i] == vs[..i];
      if vs[i].archive == "" {
        paths := paths + [""];
      } else {
        match at(vs[i].archive) {
          case Some(p) =>
            paths, archives := paths + [p], archives + [p];
          case None =>
            return i, [], [];
        }
      }
    }
    assert vs[..|vs|] == vs;
    return -1, paths, archives;
  }

  lemma {:induction false} AllOkConcat(respond: seq<Action> -> Response, h: seq<Action>, a: seq<Action>, b: seq<Action>)
    ensures AllOk(respond, h, a + b) <==> AllOk(respond, h, a) && AllOk(respond, h + a, b)
    decreases |b|
  {
    if b == [] {
      assert a + b == a;
    } else {
      var front := b[..|b| - 1];
      assert (a + b)[..|a + b| - 1] == a + front;
      assert h + (a + b) == (h + a) + b;
      AllOkConcat(respond, h, a, front);
    }
  }

  lemma RanThen(respond: seq<Action> -> Response, h: seq<Action>, a: seq<Action>, b: seq<Action>, n: nat, failed: bool, trace: seq<Action>)
    requires AllOk(respond, h, a) && Ran(respond, h + a, b, n, failed, trace)
    ensures Ran(respond, h, a + b, |a| + n, failed, trace)
  {
    assert (a + b)[..|a| + n] == a + b[..n];
    assert h + (a + b[..n]) == (h + a) + b[..n];
    if failed {
      assert (a + b)[..|a| + n - 1] == a + b[..n - 1];
      AllOkConcat(respond, h, a, b[..n - 1]);
    } else {
      AllOkConcat(respond, h, a, b);
    }
  }

  lemma RanStopped(respond: seq<Action> -> Response, h: seq<Action>, a: seq<Action>, b: seq<Action>, n: nat, trace: seq<Action>)
    requires Ran(respond, h, a, n, true, trace)
    ensures Ran(respond, h, a + b, n, true, trace)
  {
    assert (a + b)[..n] == a[..n] && (a + b)[..n - 1] == a[..n - 1];
  }

  lemma RanOne(respond: seq<Action> -> Response, h: seq<Action>, a: Action)
    ensures Ran(respond, h, [a], 1, !Ok(respond(h + [a])), h + [a])
    ensures Ok(respond(h + [a])) ==> AllOk(respond, h, [a])
  {
    assert [a][..1] == [a] && [a][..0] == [];
  }

  /** One volume; a failure is reported and blocks the later steps. */
  method ImportOneVolume(remote: Remote, result: RestoreResult, name: string, archive: string) returns (ok: bool)
    requires result.Valid() && result.View() == Report(StepDone, Skipped, Skipped, Skipped)
    modifies remote, result`steps
    ensures result.Valid() && remote.trace == old(remote.trace) + [ImportVolume(name, archive)]
    ensures ok <==> Ok(remote.respond(remote.trace))
    ensures result.View() == if ok then old(result.View())
              else Report(StepDone, ClassifyExit(remote.respond(remote.trace).exitCode), Blocked, Blocked)
  {
    var r := remote.Execute(ImportVolume(name, archive));
    if r.err.Some? || !r.success {
      FailStep(result, Volumes, ClassifyExit(r.exitCode), [Database, Compose]);
      SameReport(result.View(), Report(StepDone, ClassifyExit(r.exitCode), Blocked, Blocked));
      return false;
    }
    return true;
  }

  /** Reports are told apart by their four statuses. */
  lemma SameReport(a: Report, b: Report)
    ensures (forall k :: a.Get(k) == b.Get(k)) ==> a == b
  {
    assert a == Report(a.Get(Files), a.Get(Volumes), a.Get(Database), a.Get(Compose));
    assert b == Report(b.Get(Files), b.Get(Volumes), b.Get(Database), b.Get(Compose));
  }

  /** B. Named volumes: imported in manifest order, up to the first failure. */
  method ImportVolumes(remote: Remote, result: RestoreResult, vs: seq<Volume>, at: Locator, paths: seq<string>)
    returns (err: Option<Error>, ghost n: nat)
    requires result.Valid() && result.View() == Report(StepDone, Skipped, Skipped, Skipped)
    requires |paths| == |vs| && forall i :: 0 <= i < |vs| && vs[i].archive != "" ==> paths[i] == Place(at, vs[i].archive)
    modifies remote, result`steps
    ensures result.Valid()
    ensures err.None? ==> n == |Imports(vs, at)| && AllOk(remote.respond, old(remote.trace), Imports(vs, at))
    ensures err.None? ==> remote.trace == old(remote.trace) + Imports(vs, at)
    ensures err.None? ==> result.View() == Report(StepDone, if n > 0 then StepDone else Skipped, Skipped, Skipped)
    ensures err.Some? ==> err.value == PLAIN && Ran(remote.respond, old(remote.trace), Imports(vs, at), n, true, remote.trace)
    ensures err.Some? ==>
              result.View() == Report(StepDone, ClassifyExit(remote.respond(remote.trace).exitCode), Blocked, Blocked)
  {
    if |vs| == 0 {
      result.SetStep(Volumes, Skipped);
    }
    var restored := 0;
    ghost var h := remote.trace;
    for i := 0 to |vs|
      invariant result.Valid() && result.View() == Report(StepDone, Skipped, Skipped, Skipped)
      invariant restored == |Imports(vs[..i], at)|
      invariant remote.trace == h + Imports(vs[..i], at)
      invariant AllOk(remote.respond, h, Imports(vs[..i], at))
    {
      var ok := ImportNext(remote, result, vs, i, at, paths[i], h);
      if !ok {
        return Some(PLAIN), |Imports(vs[..i + 1], at)|;
      }
      ImportsMore(vs, i, at);
      if vs[i].archive != "" {
        restored := restored + 1;
      }
    }
    assert vs[..|vs|] == vs;
    if restored > 0 {
      result.SetStep(Volumes, StepDone);
    }
    return None, restored;
  }

  /** Volume `i`, if it has an archive. */
  method ImportNext(remote: Remote, result: RestoreResult, vs: seq<Volume>, i: nat, at: Locator, path: string, ghost h: seq<Action>)
    returns (ok: bool)
    requires i < |vs| && result.Valid() && result.View() == Report(StepDone, Skipped, Skipped, Skipped)
    requires vs[i].archive != "" ==> path == Place(at, vs[i].archive)
    requires remote.trace == h + Imports(vs[..i], at) && AllOk(remote.respond, h, Imports(vs[..i], at))
    modifies remote, result`steps
    ensures result.Valid()
    ensures ok ==> remote.trace == h + Imports(vs[..i + 1], at) && AllOk(remote.respond, h, Imports(vs[..i + 1], at))
    ensures ok ==> result.View() == Report(StepDone, Skipped, Skipped, Skipped)
    ensures !ok ==> Ran(remote.respond, h, Imports(vs, at), |Imports(vs[..i + 1], at)|, true, remote.trace)
    ensures !ok ==> result.View() == Report(StepDone, ClassifyExit(remote.respond(remote.trace).exitCode), Blocked, Blocked)
  {
    ok := true;
    ImportsMore(vs, i, at);
    if vs[i].archive != "" {
      ghost var before, a := Imports(vs[..i], at), ImportVolume(vs[i].originalName, path);
      ok := ImportOneVolume(remote, result, vs[i].originalName, path);
      AddOne(remote.respond, h, before, a, remote.trace);
      if !ok {
        ImportsPrefix(vs, i + 1, at);
        StoppedAt(remote.respond, h, before + [a], Imports(vs, at), remote.trace);
      }
    }
  }

  lemma ImportsMore(vs: seq<Volume>, i: nat, at: Locator)
    requires i < |vs|
    ensures vs[i].archive == "" ==> Imports(vs[..i + 1], at) == Imports(vs[..i], at)
    ensures vs[i].archive != "" ==>
              Imports(vs[..i + 1], at) == Imports(vs[..i], at) + [ImportVolume(vs[i].originalName, Place(at, vs[i].archive))]
  {
    assert vs[..i + 1][..i] == vs[..i];
    assert Imports(vs[..i], at) + [] == Imports(vs[..i], at);
  }

  /** The last of the first actions of a plan failed. */
  lemma StoppedAt(respond: seq<Action> -> Response, h: seq<Action>, done: seq<Action>, all: seq<Action>, trace: seq<Action>)
    requires |done| <= |all| && all == done + all[|done|..] && Ran(respond, h, done, |done|, true, trace)
    ensures Ran(respond, h, all, |done|, true, trace)
  {
    RanStopped(respond, h, done, all[|done|..], |done|, trace);
  }

  /** One more action after a successful stretch. */
  lemma AddOne(respond: seq<Action> -> Response, h: seq<Action>, before: seq<Action>, a: Action, trace: seq<Action>)
    requires AllOk(respond, h, before) && trace == (h + before) + [a]
    ensures trace == h + (before + [a])
    ensures Ok(respond(trace)) ==> AllOk(respond, h, before + [a])
    ensures !Ok(respond(trace)) ==> Ran(respond, h, before + [a], |before| + 1, true, trace)
  {
    assert trace == h + (before + [a]);
    var all := before + [a];
    assert all[..|all| - 1] == before && all[..|all|] == all;
  }

  lemma {:induction false} ImportsPrefix(vs: seq<Volume>, i: nat, at: Locator)
    requires i <= |vs|
    ensures var a, b := Imports(vs[..i], at), Imports(vs, at); |a| <= |b| && b == a + b[|a|..]
    decreases |vs| - i
  {
    if i == |vs| {
      assert vs[..i] == vs;
    } else {
      ImportsPrefix(vs, i + 1, at);
      assert vs[..i + 1][..i] == vs[..i];
      var a, m, b := Imports(vs[..i], at), Imports(vs[..i + 1], at), Imports(vs, at);
      assert m[..|a|] == a && b[..|m|] == m;
      assert b[..|a|] == m[..|a|];
    }
  }

  /** D. The database: a dump is imported, a database without one is left to the operator. */
  method ImportRestoredDatabase(remote: Remote, result: RestoreResult, m: Manifest, alias: string, at: Locator)
    returns (err: Option<Error>, ghost n: nat, ghost failed: bool)
    requires result.Valid() && DumpResolves(m, at)
    modifies remote, result`steps
    ensures result.Valid()
    ensures Ran(remote.respond, old(remote.trace), DumpImport(m, alias, at), n, failed, remote.trace)
    ensures failed ==> err == if remote.respond(remote.trace).err.Some? then remote.respond(remote.trace).err else Some(PLAIN)
    ensures !failed ==> err == if DumpDeclared(m) && DumpImport(m, alias, at) == [] then Some(PLAIN) else None
    ensures result.View() == old(result.View()).Set(Database,
              if m.database.None? then Skipped
              else if !DumpDeclared(m) then Manual
              else if DumpImport(m, alias, at) == [] then StepFailed
              else if failed then ClassifyExit(remote.respond(remote.trace).exitCode)
              else StepDone)
  {
    n, failed := 0, false;
    if m.database.None? {
      result.SetStep(Database, Skipped);
      return None, n, failed;
    }
    var db := m.database.value;
    if db.dump == "" {
      result.SetStep(Database, Manual);
      return None, n, failed;
    }
    var dumpPath := Place(at, db.dump);
    var container := DatabaseContainer(m, alias);
    if !ScriptAccepted(db.engine, container, dumpPath) {
      result.SetStep(Database, StepFailed);
      return Some(PLAIN), n, failed;
    }
    var a := ImportDatabase(CanonicalEngine(db.engine).value, Trim(container), Trim(dumpPath));
    var r := remote.Execute(a);
    RanOne(remote.respond, old(remote.trace), a);
    n, failed := 1, !Ok(r);
    if r.err.Some? || !r.success {
      result.SetStep(Database, ClassifyExit(r.exitCode));
      return Some(if r.err.Some? then r.err.value else PLAIN), n, failed;
    }
    result.SetStep(Database, StepDone);
    return None, n, failed;
  }

  /** Volumes, Compose, database: the mutating part, behind a passed preflight. */
  method ExecutePlan(remote: Remote, result: RestoreResult, c: Candidate, alias: string, at: Locator, paths: seq<string>)
    returns (err: Option<Error>, ghost n: nat, ghost failed: bool)
    requires result.Valid() && result.View() == Report(StepDone, Skipped, Skipped, Skipped)
    requires DumpResolves(c.manifest, at) && remote.AllLawful()
    requires |paths| == |c.manifest.volumes|
    requires forall i :: 0 <= i < |paths| && c.manifest.volumes[i].archive != "" ==> paths[i] == Place(at, c.manifest.volumes[i].archive)
    modifies remote, result`steps
    ensures result.Valid()
    ensures Ran(remote.respond, old(remote.trace), Plan(c, alias, at), n, failed, remote.trace)
    ensures result.View() == StatusAfter(c.manifest, alias, at, n, failed, ClassifyExit(remote.respond(remote.trace).exitCode))
    ensures err == PlanError(c, alias, at, n, failed, remote.respond(remote.trace))
  {
    ghost var h, v := remote.trace, Imports(c.manifest.volumes, at);
    err, n := ImportVolumes(remote, result, c.manifest.volumes, at, paths);
    if err.Some? {
      failed := true;
      StoppedInVolumes(remote.respond, h, c, alias, at, n, remote.trace);
    } else {
      err, n, failed := StartAndImport(remote, result, c, alias, at, h);
    }
  }

  lemma StoppedInVolumes(respond: seq<Action> -> Response, h: seq<Action>, c: Candidate, alias: string, at: Locator, n: nat, trace: seq<Action>)
    requires Ran(respond, h, Imports(c.manifest.volumes, at), n, true, trace)
    ensures Ran(respond, h, Plan(c, alias, at), n, true, trace)
  {
    var v, up := Imports(c.manifest.volumes, at), ComposeUp(c.dir, ProjectName(c.manifest, alias), ComposeFile(c.manifest));
    RanStopped(respond, h, v, [up], n, trace);
    RanStopped(respond, h, v + [up], DumpImport(c.manifest, alias, at), n, trace);
  }

  /** C and D, with the volumes in place: the Compose start, then the database. */
  method StartAndImport(remote: Remote, result: RestoreResult, c: Candidate, alias: string, at: Locator, ghost h: seq<Action>)
    returns (err: Option<Error>, ghost n: nat, ghost failed: bool)
    requires result.Valid() && DumpResolves(c.manifest, at) && remote.AllLawful()
    requires var v := Imports(c.manifest.volumes, at);
             && remote.trace == h + v && AllOk(remote.respond, h, v)
             && result.View() == Report(StepDone, if |v| > 0 then StepDone else Skipped, Skipped, Skipped)
    modifies remote, result`steps
    ensures result.Valid()
    ensures Ran(remote.respond, h, Plan(c, alias, at), n, failed, remote.trace)
    ensures result.View() == StatusAfter(c.manifest, alias, at, n, failed, ClassifyExit(remote.respond(remote.trace).exitCode))
    ensures err == PlanError(c, alias, at, n, failed, remote.respond(remote.trace))
  {
    ghost var v, dump := Imports(c.manifest.volumes, at), DumpImport(c.manifest, alias, at);
    var up := ComposeUp(c.dir, ProjectName(c.manifest, alias), ComposeFile(c.manifest));
    var ok := StartCompose(remote, result, up);
    AddOne(remote.respond, h, v, up, remote.trace);
    if ok {
      ghost var k;
      err, k, failed := ImportRestoredDatabase(remote, result, c.manifest, alias, at);
      RanThen(remote.respond, h, v + [up], dump, k, failed, remote.trace);
      n := |v| + 1 + k;
    } else {
      err, n, failed := Some(PLAIN), |v| + 1, true;
      RanStopped(remote.respond, h, v + [up], dump, n, remote.trace);
    }
  }

  method StartCompose(remote: Remote, result: RestoreResult, up: Action) returns (ok: bool)
    requires result.Valid()
    modifies remote, result`steps
    ensures result.Valid() && remote.trace == old(remote.trace) + [up]
    ensures ok <==> Ok(remote.respond(remote.trace))
    ensures result.View() == if ok then old(result.View()).(compose := StepDone)
              else old(result.View()).(database := Blocked, compose := ClassifyExit(remote.respond(remote.trace).exitCode))
  {
    var r := remote.Execute(up);
    if r.err.Some? || !r.success {
      ghost var before := result.View();
      FailStep(result, Compose, ClassifyExit(r.exitCode), [Database]);
      SameReport(result.View(), before.(database := Blocked, compose := ClassifyExit(r.exitCode)));
      return false;
    }
    result.SetStep(Compose, StepDone);
    return true;
  }

  /** Preflight, then the plan. */
  method CheckAndExecute(remote: Remote, result: RestoreResult, input: Preflight.Input, c: Candidate, alias: string, at: Locator,
                         paths: seq<string>)
    returns (err: Option<Error>, ghost p: Progress)
    requires result.Valid() && result.View() == Report(StepDone, Skipped, Skipped, Skipped)
    requires remote.AllLawful() && DumpResolves(c.manifest, at)
    requires |paths| == |c.manifest.volumes|
    requires forall i :: 0 <= i < |paths| && c.manifest.volumes[i].archive != "" ==> paths[i] == Place(at, c.manifest.volumes[i].archive)
    modifies remote, result`steps
    ensures result.Valid()
    ensures Checked(remote, old(remote.trace), input, c, alias, at, p, remote.trace, result.View(), err)
  {
    var refusal := RunPreflight(remote, input);
    if refusal.Some? {
      result.BlockSteps([Volumes, Database, Compose]);
      SameReport(result.View(), Report(StepDone, Blocked, Blocked, Blocked));
      p := if Preflight.InputAccepted(input) then ProbeFailed else ProbeRefused;
      return Some(Error({PreflightBlocked}, 0)), p;
    }
    ghost var n, failed;
    err, n, failed := ExecutePlan(remote, result, c, alias, at, paths);
    p := Executed(n, failed);
  }

  method Expected(m: Manifest, alias: string) returns (expected: seq<string>)
    ensures expected == ExpectedContainers(m, alias)
  {
    expected := [m.app];
    if alias != "" {
      expected := expected + [alias];
    }
    if m.database.Some? {
      expected := expected + [DatabaseContainer(m, alias)];
    }
    assert expected == [m.app] + (if alias != "" then [alias] else [])
                     + (if m.database.Some? then [DatabaseContainer(m, alias)] else []);
    expected := DedupPaths(expected);
  }

  /** The manifest-driven restore: mounts looked at, paths resolved, target checked, and
      only then the plan executed. */
  method DriveManifest(remote: Remote, result: RestoreResult, c: Candidate, alias: string, crossMachine: bool, at: Locator)
    returns (err: Option<Error>, ghost p: Progress)
    requires result.Valid() && result.View() == Report(StepDone, Skipped, Skipped, Skipped)
    requires remote.AllLawful()
    modifies remote, result`steps
    ensures result.Valid()
    ensures Story(remote, old(remote.trace), c, alias, crossMachine, at, p, remote.trace, result.View(), err)
  {
    var m := c.manifest;
    CheckMounts(remote, m.mounts);
    var bad, paths, archives := ResolveArchives(m.volumes, at);
    if bad != -1 {
      FailStep(result, Volumes, StepFailed, [Database, Compose]);
      SameReport(result.View(), Report(StepDone, StepFailed, Blocked, Blocked));
      return Some(PLAIN), ArchiveIllegal;
    }
    var ok, dump := ResolveDump(m, at);
    if !ok {
      FailStep(result, Database, StepFailed, [Volumes, Compose]);
      SameReport(result.View(), Report(StepDone, Blocked, StepFailed, Blocked));
      return Some(PLAIN), DumpIllegal;
    }
    var input := ToCheck(c, alias, crossMachine, at, archives, dump);
    err, p := CheckAndExecute(remote, result, input, c, alias, at, paths);
  }

  method ToCheck(c: Candidate, alias: string, crossMachine: bool, ghost at: Locator, archives: seq<string>, dump: string)
    returns (input: Preflight.Input)
    requires archives == Archives(c.manifest.volumes, at) && dump == DumpPath(c.manifest, at)
    ensures input == CheckedInput(c, alias, crossMachine, at)
  {
    var m := c.manifest;
    var expected := Expected(m, alias);
    input := Preflight.Input(ProjectName(m, alias), GoPath.Join(c.dir, ComposeFile(m)), archives, dump, expected, crossMachine);
  }

  method ResolveDump(m: Manifest, at: Locator) returns (ok: bool, dump: string)
    ensures ok == DumpResolves(m, at) && dump == DumpPath(m, at)
  {
    if m.database.None? || m.database.value.dump == "" {
      return true, "";
    }
    match at(m.database.value.dump) {
      case Some(resolved) => return true, resolved;
      case None => return false, "";
    }
  }

  // ----- finding the package -----

  /** Reads every place a manifest may lie in, each once. */
  method FindPackages(remote: Remote, targetPath: string, dirs: seq<string>) returns (found: seq<Candidate>)
    modifies remote
    ensures found == Found(remote.respond, old(remote.trace), Leads(targetPath, dirs))
    ensures remote.trace == old(remote.trace) + Reads(Leads(targetPath, dirs))
  {
    var leads: seq<Lead> := [];
    found := [];
    ghost var h := remote.trace;
    for i := 0 to |dirs|
      invariant leads == Leads(targetPath, dirs[..i])
      invariant found == Found(remote.respond, h, leads) && remote.trace == h + Reads(leads)
    {
      assert dirs[..i + 1][..i] == dirs[..i];
      var dir := Remap.RestoredPath(targetPath, dirs[i]);
      leads, found := ReadLead(remote, h, leads, found, Lead(ScratchManifest(dir), dir));
      leads, found := ReadLead(remote, h, leads, found, Lead(LegacyManifest(dir), dir));
    }
    assert dirs[..|dirs|] == dirs;
  }

  method ReadLead(remote: Remote, ghost h: seq<Action>, leads: seq<Lead>, found: seq<Candidate>, l: Lead)
    returns (leads': seq<Lead>, found': seq<Candidate>)
    requires found == Found(remote.respond, h, leads) && remote.trace == h + Reads(leads)
    modifies remote
    ensures leads' == AddLead(leads, l)
    ensures found' == Found(remote.respond, h, leads') && remote.trace == h + Reads(leads')
  {
    if exists k :: 0 <= k < |leads| && leads[k].path == l.path {
      return leads, found;
    }
    leads', found' := leads + [l], found;
    OneMoreLead(remote.respond, h, leads, l);
    var r := remote.Execute(ReadManifest(l.path));
    if r.err.None? && r.success && r.manifest.Some? && ValidManifest(r.manifest.value) {
      found' := found + [Candidate(r.manifest.value, Dir(l.path), l.dir)];
    }
  }

  /** What reading one more lead adds to the history and to the packages found. */
  lemma OneMoreLead(respond: seq<Action> -> Response, h: seq<Action>, leads: seq<Lead>, l: Lead)
    ensures var trace := (h + Reads(leads)) + [ReadManifest(l.path)];
            && h + Reads(leads + [l]) == trace
            && Found(respond, h, leads + [l]) == Found(respond, h, leads)
                 + if Usable(respond(trace)) then [Candidate(respond(trace).manifest.value, Dir(l.path), l.dir)] else []
  {
    assert (leads + [l])[..|leads|] == leads;
    assert Reads(leads + [l]) == Reads(leads) + [ReadManifest(l.path)];
    Assoc(h, Reads(leads), [ReadManifest(l.path)]);
  }

  /** The first candidate whose app is the job or the alias. */
  method FirstNamed(cs: seq<Candidate>, job: Job, alias: string) returns (r: Option<Candidate>)
    ensures r == Choice(cs, job, alias)
  {
    var rest := cs;
    while rest != []
      invariant Choice(cs, job, alias) == Choice(rest, job, alias)
      decreases |rest|
    {
      if Named(rest[0], job, alias) {
        return Some(rest[0]);
      }
      rest := rest[1..];
    }
    return None;
  }

  // ----- without a manifest -----

  function AutoStartDirs(targetPath: string, dirs: seq<string>): seq<string> {
    Dedup((if targetPath != "" && targetPath != "/" then [targetPath] else [])
          + seq(|dirs|, i requires 0 <= i < |dirs| => Remap.RestoredPath(targetPath, dirs[i])))
  }

  method PlaceAll(targetPath: string, dirs: seq<string>) returns (placed: seq<string>)
    ensures placed == seq(|dirs|, i requires 0 <= i < |dirs| => Remap.RestoredPath(targetPath, dirs[i]))
  {
    placed := [];
    for i := 0 to |dirs|
      invariant |placed| == i && forall k :: 0 <= k < i ==> placed[k] == Remap.RestoredPath(targetPath, dirs[k])
    {
      placed := placed + [Remap.RestoredPath(targetPath, dirs[i])];
    }
  }

  method CollectDirs(targetPath: string, dirs: seq<string>) returns (r: seq<string>)
    ensures r == AutoStartDirs(targetPath, dirs)
  {
    var first: seq<string> := if targetPath != "" && targetPath != "/" then [targetPath] else [];
    var placed := PlaceAll(targetPath, dirs);
    r := DedupPaths(first + placed);
  }

  /** startWithoutManifest: one generic start command. */
  method StartWithoutManifest(remote: Remote, result: RestoreResult, alias: string, composeDirs: seq<string>, asset: Option<Db>)
    returns (err: Option<Error>)
    requires result.Valid() && result.View() == Report(StepDone, Skipped, Skipped, Skipped)
    modifies remote, result`steps
    ensures result.Valid()
    ensures remote.trace == old(remote.trace) + [AutoStart(composeDirs, alias, asset)]
    ensures Started(remote.respond(remote.trace), result.View(), err)
  {
    var r := remote.Execute(AutoStart(composeDirs, alias, asset));
    if r.err.Some? {
      result.SetStep(Compose, ClassifyExit(r.exitCode));
      return r.err;
    }
    if !r.success {
      result.SetStep(Compose, ClassifyExit(r.exitCode));
      return Some(PLAIN);
    }
    result.SetStep(Volumes, Skipped);
    result.SetStep(Database, Skipped);
    result.SetStep(Compose, StepDone);
    return None;
  }

  /** The report and the error after a generic start answered `r`. */
  predicate Started(r: Response, report: Report, err: Option<Error>) {
    && err == (if Ok(r) then None else if r.err.Some? then r.err else Some(PLAIN))
    && report == Report(StepDone, Skipped, Skipped, if Ok(r) then StepDone else ClassifyExit(r.exitCode))
  }

  // ----- the decision -----

  /** What drove the container steps. */
  datatype Driver = Nobody | NoPackage | ByManifest(c: Candidate, p: Progress) | Fallback

  function SearchDirs(job: Job): seq<string> {
    Dedup(["/var/lib/opspulse/containers/" + job.name] + job.paths)
  }

  /** The policy and the scenario forbid container steps altogether. */
  predicate LeaveAlone(job: Job, opts: Options, targetServer: string) {
    opts.policy == NoStart || (opts.policy == Auto && targetServer == job.server)
  }

  /** What was done once the places for manifests had been read: `searched` is the history
      then, `choice` the package that names the job. */
  predicate SearchStory(remote: Remote, searched: seq<Action>, choice: Option<Candidate>, startDirs: seq<string>,
                        opts: Options, target: Target, crossMachine: bool,
                        d: Driver, trace: seq<Action>, report: Report, err: Option<Error>)
  {
    match d
    case Nobody => false
    case NoPackage =>
      && choice.None? && opts.policy != Start
      && trace == searched && err.None? && report == Report(StepDone, Skipped, Skipped, Skipped)
    case ByManifest(c, p) =>
      && choice == Some(c)
      && Story(remote, searched, c, opts.alias, crossMachine, InPackage(c.packageRoot), p, trace, report, err)
    case Fallback =>
      && choice.None? && opts.policy == Start
      && trace == searched + [AutoStart(startDirs, opts.alias, target.databaseAsset)]
      && Started(remote.respond(trace), report, err)
  }

  function Package(remote: Remote, h: seq<Action>, job: Job, opts: Options): Option<Candidate> {
    Choice(Found(remote.respond, h, Leads(opts.targetPath, SearchDirs(job))), job, opts.alias)
  }

  /** What the post-restore steps did, from history `h` on. */
  predicate PostStory(remote: Remote, h: seq<Action>, job: Job, opts: Options, target: Target, targetServer: string,
                      d: Driver, trace: seq<Action>, report: Report, err: Option<Error>)
  {
    if LeaveAlone(job, opts, targetServer) then
      d.Nobody? && trace == h && err.None? && report == Report(StepDone, Skipped, Skipped, Skipped)
    else
      SearchStory(remote, h + Reads(Leads(opts.targetPath, SearchDirs(job))), Package(remote, h, job, opts),
                  AutoStartDirs(opts.targetPath, SearchDirs(job)), opts, target, target.name != job.server,
                  d, trace, report, err)
  }

  /** startRestoredServices. */
  method StartRestoredServices(remote: Remote, result: RestoreResult, job: Job, opts: Options, target: Target, ghost targetServer: string)
    returns (err: Option<Error>, ghost d: Driver)
    requires result.Valid() && result.View() == Report(StepDone, Skipped, Skipped, Skipped)
    requires remote.AllLawful() && !LeaveAlone(job, opts, targetServer)
    modifies remote, result`steps
    ensures result.Valid()
    ensures PostStory(remote, old(remote.trace), job, opts, target, targetServer, d, remote.trace, result.View(), err)
  {
    var dirs := DedupPaths(["/var/lib/opspulse/containers/" + job.name] + job.paths);
    var found := FindPackages(remote, opts.targetPath, dirs);
    var choice := FirstNamed(found, job, opts.alias);
    match choice {
      case None =>
        if opts.policy != Start {
          result.SkipContainerSteps();
          return None, NoPackage;
        }
        var composeDirs := CollectDirs(opts.targetPath, dirs);
        err := StartWithoutManifest(remote, result, opts.alias, composeDirs, target.databaseAsset);
        d := Fallback;
      case Some(c) =>
        ghost var p;
        err, p := DriveManifest(remote, result, c, opts.alias, target.name != job.server, InPackage(c.packageRoot));
        d := ByManifest(c, p);
    }
  }

  /** runPostRestoreSteps: the scenario decides whether anything is started at all. */
  method RunPostRestoreSteps(remote: Remote, result: RestoreResult, job: Job, opts: Options, target: Target, targetServer: string)
    returns (err: Option<Error>, ghost d: Driver)
    requires result.Valid() && result.View() == Report(StepDone, Skipped, Skipped, Skipped)
    requires remote.AllLawful()
    modifies remote, result`steps
    ensures result.Valid()
    ensures PostStory(remote, old(remote.trace), job, opts, target, targetServer, d, remote.trace, result.View(), err)
  {
    if opts.policy == NoStart || (opts.policy == Auto && targetServer == job.server) {
      result.SkipContainerSteps();
      return None, Nobody;
    }
    err, d := StartRestoredServices(remote, result, job, opts, target, targetServer);
  }
}
