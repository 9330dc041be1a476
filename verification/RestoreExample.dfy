/** One restore in full: a package with one volume, whose import exits with 3. */
module RestoreExample {
  import opened Wrappers
  import opened Text
  import opened Outcomes
  import opened Restore
  import opened RestoreSteps
  import opened RestoreChecks
  import opened RestoreRun
  import opened RestoreExit
  import GoPath
  import PackagePaths
  import Preflight
  import Remap

  // ----- paths without control characters -----

  /** `c` is in none of the segments. */
  predicate Lacks(segs: seq<string>, c: char) {
    forall k :: 0 <= k < |segs| ==> c !in segs[k]
  }

  lemma {:induction false} SplitLacks(s: string, c: char)
    requires c !in s
    ensures Lacks(GoPath.Split(s), c)
  {
    if s != "" {
      SplitLacks(s[1..], c);
    }
  }

  lemma {:induction false} ReduceLacks(rooted: bool, stack: seq<string>, segs: seq<string>, c: char)
    requires c != '.' && Lacks(stack, c) && Lacks(segs, c)
    ensures Lacks(GoPath.Reduce(rooted, stack, segs), c)
    decreases |segs|
  {
    if segs != [] {
      ReduceLacks(rooted, GoPath.Push(rooted, stack, segs[0]), segs[1..], c);
    }
  }

  lemma {:induction false} GlueLacks(segs: seq<string>, c: char)
    requires c != '/' && Lacks(segs, c)
    ensures c !in GoPath.Glue(segs)
  {
    if |segs| > 1 {
      GlueLacks(segs[1..], c);
    }
  }

  lemma SegsLack(p: string, c: char)
    requires c != '/' && c != '.' && c !in p
    ensures Lacks(GoPath.Segs(p), c)
  {
    SplitLacks(p, c);
    ReduceLacks(GoPath.IsAbs(p), [], GoPath.Split(p), c);
  }

  lemma CleanLacks(p: string, c: char)
    requires c != '/' && c != '.' && c !in p
    ensures c !in GoPath.Clean(p)
  {
    SegsLack(p, c);
    GlueLacks(GoPath.Segs(p), c);
  }

  predicate Control(c: char) {
    c < ' ' || c == 127 as char
  }

  predicate Printable(s: string) {
    forall c :: c in s ==> !Control(c)
  }

  lemma PrintableMeans(s: string)
    ensures Printable(s) <==> !HasControlCharacter(s)
  {
    if HasControlCharacter(s) {
      var i :| 0 <= i < |s| && (s[i] < ' ' || s[i] == 127 as char);
      assert s[i] in s;
    }
  }

  lemma CleanPrintable(p: string)
    requires Printable(p)
    ensures Printable(GoPath.Clean(p))
  {
    forall c | c in GoPath.Clean(p) ensures !Control(c) {
      if Control(c) && c !in p {
        CleanLacks(p, c);
      }
    }
  }

  lemma JoinPrintable(a: string, b: string)
    requires Printable(a) && Printable(b)
    ensures Printable(GoPath.Join(a, b))
  {
    CleanPrintable(a);
    CleanPrintable(b);
    CleanPrintable(a + "/" + b);
  }

  lemma {:induction false} UpToSlashPrintable(p: string)
    requires Printable(p)
    ensures Printable(UpToSlash(p))
  {
    if p != "" && p[|p| - 1] != '/' {
      UpToSlashPrintable(p[..|p| - 1]);
    }
  }

  lemma DirPrintable(p: string)
    requires Printable(p)
    ensures Printable(Dir(p))
  {
    UpToSlashPrintable(p);
    CleanPrintable(UpToSlash(p));
  }

  lemma PlacePrintable(root: string, relative: string)
    requires Printable(root) && Printable(relative) && PackagePaths.Refusal(relative) == None
    ensures Printable(Place(InPackage(root), relative))
  {
    PackagePaths.ResolveSucceeds(root, relative);
    forall c | c in Place(InPackage(root), relative) ensures !Control(c) {
      if Control(c) {
        SegsLack(root, c);
        SplitLacks(relative, c);
        GlueLacks(GoPath.Segs(root) + GoPath.Split(relative), c);
      }
    }
  }

  lemma KeyPrintable(p: string)
    requires Printable(p)
    ensures Printable(DedupKey(p))
  {
    TrimSubset(p);
    forall c | c in Slashed(Trim(p)) ensures !Control(c) {
      var i :| 0 <= i < |Trim(p)| && Slashed(Trim(p))[i] == c;
      assert Trim(p)[i] in p;
    }
    CleanPrintable(Slashed(Trim(p)));
  }

  // ----- the search -----

  lemma OwnDirectory(name: string)
    requires Printable(name)
    ensures Printable("/var/lib/opspulse/containers/" + name)
  {
    var prefix := "/var/lib/opspulse/containers/";
    assert forall i :: 0 <= i < |prefix| ==> !Control(prefix[i]);
  }

  /** A job is looked for in at least one directory, and none has a control character. */
  lemma SearchedPrintable(job: Job)
    requires Printable(job.name) && job.paths == []
    ensures SearchDirs(job) != [] && forall k :: 0 <= k < |SearchDirs(job)| ==> Printable(SearchDirs(job)[k])
  {
    var own := "/var/lib/opspulse/containers/" + job.name;
    assert [own] + job.paths == [own];
    OwnDirectory(job.name);
    OneDirectory(own);
    KeyPrintable(own);
  }

  lemma OneDirectory(p: string)
    requires p != "" && !IsSpace(p[0])
    ensures Dedup([p]) == [DedupKey(p)]
  {
    assert [p][..0] == [];
  }

  predicate LeadPrintable(l: Lead) {
    Printable(l.path) && Printable(l.dir) && l.dir != ""
  }

  lemma PlacePrintables(dir: string)
    requires Printable(dir)
    ensures var d := Remap.RestoredPath("", dir); LeadPrintable(Lead(ScratchManifest(d), d)) && LeadPrintable(Lead(LegacyManifest(d), d))
  {
    CleanPrintable(dir);
    GoPath.CleanNotEmpty(dir);
    var d := Remap.RestoredPath("", dir);
    Names();
    JoinPrintable(d, ".opspulse");
    JoinPrintable(GoPath.Join(d, ".opspulse"), "manifest.yaml");
    JoinPrintable(d, "manifest.yaml");
  }

  lemma Names()
    ensures Printable(".opspulse") && Printable("manifest.yaml")
  {
  }

  predicate AllPrintable(leads: seq<Lead>) {
    forall k :: 0 <= k < |leads| ==> LeadPrintable(leads[k])
  }

  lemma AddLeadPrintable(leads: seq<Lead>, l: Lead)
    requires AllPrintable(leads) && LeadPrintable(l)
    ensures AllPrintable(AddLead(leads, l)) && AddLead(leads, l) != []
  {
  }

  lemma {:induction false} LeadsPrintable(dirs: seq<string>)
    requires forall k :: 0 <= k < |dirs| ==> Printable(dirs[k])
    ensures AllPrintable(Leads("", dirs))
    ensures dirs != [] ==> Leads("", dirs) != []
  {
    if dirs != [] {
      LeadsPrintable(dirs[..|dirs| - 1]);
      PlacePrintables(dirs[|dirs| - 1]);
      var before, d := Leads("", dirs[..|dirs| - 1]), Remap.RestoredPath("", dirs[|dirs| - 1]);
      AddLeadPrintable(before, Lead(ScratchManifest(d), d));
      AddLeadPrintable(AddLead(before, Lead(ScratchManifest(d), d)), Lead(LegacyManifest(d), d));
    }
  }

  /** Every manifest that is read is `m`. */
  ghost predicate Holds(respond: seq<Action> -> Response, m: Manifest) {
    forall h, path :: respond(h + [ReadManifest(path)]) == Response(true, 0, None, Some(m), [])
  }

  /** So the first of them is found. */
  lemma {:induction false} FirstLeadFound(respond: seq<Action> -> Response, h: seq<Action>, leads: seq<Lead>, m: Manifest)
    requires Holds(respond, m) && ValidManifest(m) && leads != []
    ensures var found := Found(respond, h, leads); found != [] && found[0] == Candidate(m, Dir(leads[0].path), leads[0].dir)
  {
    var front, l := leads[..|leads| - 1], leads[|leads| - 1];
    assert leads == front + [l];
    OneMoreLead(respond, h, front, l);
    if front != [] {
      FirstLeadFound(respond, h, front, m);
    }
  }

  /** So the package is one with that manifest, at a place without control characters. */
  lemma PackageFound(remote: Remote, h: seq<Action>, job: Job, opts: Options, m: Manifest) returns (c: Candidate)
    requires Holds(remote.respond, m) && ValidManifest(m) && m.app == job.name && Printable(job.name) && job.paths == []
    requires opts.targetPath == ""
    ensures Package(remote, h, job, opts) == Some(c) && c.manifest == m && Printable(c.packageRoot) && Printable(c.dir) && c.dir != ""
  {
    var leads := Leads("", SearchDirs(job));
    SearchedPrintable(job);
    LeadsPrintable(SearchDirs(job));
    FirstLeadFound(remote.respond, h, leads, m);
    var found := Found(remote.respond, h, leads);
    c := found[0];
    assert LeadPrintable(leads[0]) && Named(c, job, opts.alias);
    DirPrintable(leads[0].path);
  }

  // ----- the run -----

  function OneVolume(app: string, file: string, archive: string): Manifest {
    Manifest(1, app, file, [Volume(app, archive, app)], [], None)
  }

  lemma OneVolumeIsValid(app: string, file: string, archive: string)
    requires FieldOk(app) && PackagePaths.Refusal(file) == None && PackagePaths.Refusal(archive) == None
    ensures ValidManifest(OneVolume(app, file, archive))
  {
  }

  /** What is answered: every manifest is `m`, the probe runs to its end, and a volume import
      exits with 3. Everything else succeeds. */
  function Answer(m: Manifest, h: seq<Action>): Response {
    if h == [] then Response(true, 0, None, None, [])
    else
      match h[|h| - 1]
      case ReadManifest(_) => Response(true, 0, None, Some(m), [])
      case Probe(_) => Response(true, 0, None, None, [Preflight.END_MARKER])
      case ImportVolume(_, _) => Response(false, 3, Some(Error({}, 3)), None, [])
      case _ => Response(true, 0, None, None, [])
  }

  lemma EndPasses(input: Preflight.Input, ps: string -> Option<seq<Preflight.Container>>)
    ensures Preflight.Passes(input, [Preflight.END_MARKER], ps)
  {
    var ls := Preflight.ClassifyAll([Preflight.END_MARKER], ps);
    EndIsEnd(ps);
    assert ls == [Preflight.End];
    assert ls[..0] == [];
  }

  lemma EndIsEnd(ps: string -> Option<seq<Preflight.Container>>)
    ensures Preflight.Classify(Preflight.END_MARKER, ps) == Preflight.End
  {
    var t := Preflight.END_MARKER;
    assert t[0] == 'O' && t[|t| - 1] == 'D';
    assert Trim(t) == t;
  }

  lemma JoinIsPlace(dir: string, file: string)
    requires dir != "" && PackagePaths.Refusal(file) == None
    ensures Place(InPackage(dir), file) == GoPath.Join(dir, file)
  {
    PackagePaths.ResolveSucceeds(dir, file);
    assert Place(InPackage(dir), file) == GoPath.Clean(GoPath.Join(GoPath.Clean(dir), file));
    GoPath.JoinCleaned(dir, file);
    JoinIsClean(dir, file);
  }

  lemma JoinIsClean(dir: string, file: string)
    requires dir != ""
    ensures GoPath.Clean(GoPath.Join(dir, file)) == GoPath.Join(dir, file)
  {
    GoPath.CleanIdempotent(if file == "" then dir else dir + "/" + file);
  }

  lemma ComposeFileIsFine(dir: string, file: string)
    requires dir != "" && Printable(dir) && Printable(file) && PackagePaths.Refusal(file) == None
    ensures !Blank(GoPath.Join(dir, file)) && !HasControlCharacter(GoPath.Join(dir, file))
  {
    JoinIsPlace(dir, file);
    ResolvedNotBlank(dir, file);
    JoinPrintable(dir, file);
    PrintableMeans(GoPath.Join(dir, file));
  }

  lemma ContainerIsFine(app: string)
    requires Printable(app)
    ensures forall i :: 0 <= i < |Dedup([app])| ==> !HasControlCharacter(Dedup([app])[i])
  {
    forall i | 0 <= i < |Dedup([app])| ensures !HasControlCharacter(Dedup([app])[i]) {
      DedupMeaning([app], Dedup([app])[i]);
      KeyPrintable(app);
      PrintableMeans(DedupKey(app));
    }
  }

  lemma OneArchive(v: Volume, at: Locator)
    requires v.archive != ""
    ensures Archives([v], at) == [Place(at, v.archive)]
    ensures Imports([v], at) == [ImportVolume(v.originalName, Place(at, v.archive))]
  {
    assert [v][..0] == [];
  }

  lemma InputIsFine(c: Candidate, crossMachine: bool, app: string, file: string, archive: string)
    requires c.manifest == OneVolume(app, file, archive) && Printable(c.packageRoot) && Printable(c.dir) && c.dir != ""
    requires Printable(app) && Printable(file) && Printable(archive)
    requires PackagePaths.Refusal(file) == None && PackagePaths.Refusal(archive) == None
    ensures Preflight.InputAccepted(CheckedInput(c, "", crossMachine, InPackage(c.packageRoot)))
  {
    var at := InPackage(c.packageRoot);
    RefusesEmpty(file);
    RefusesEmpty(archive);
    ComposeFileIsFine(c.dir, file);
    OneArchive(Volume(app, archive, app), at);
    PlacePrintable(c.packageRoot, archive);
    PrintableMeans(Place(at, archive));
    PrintableMeans(app);
    ContainerIsFine(app);
    AskedOnce(c.manifest);
    assert !HasControlCharacter("");
  }

  lemma AskedOnce(m: Manifest)
    requires m.database.None?
    ensures ExpectedContainers(m, "") == Dedup([m.app])
  {
    assert [m.app] + [] + [] == [m.app];
  }

  lemma AnswerLast(m: Manifest, h: seq<Action>, a: Action)
    ensures Answer(m, h + [a]) == match a
                                  case ReadManifest(_) => Response(true, 0, None, Some(m), [])
                                  case Probe(_) => Response(true, 0, None, None, [Preflight.END_MARKER])
                                  case ImportVolume(_, _) => Response(false, 3, Some(Error({}, 3)), None, [])
                                  case _ => Response(true, 0, None, None, [])
  {
    assert (h + [a])[|h + [a]| - 1] == a;
  }

  /** The same, answer by answer. */
  ghost predicate Answers(remote: Remote, m: Manifest) {
    && remote.AllLawful() && Holds(remote.respond, m)
    && (forall h, input :: remote.respond(h + [Probe(input)]) == Response(true, 0, None, None, [Preflight.END_MARKER]))
    && (forall h, name, archive :: remote.respond(h + [ImportVolume(name, archive)]).err == Some(Error({}, 3)))
    && (forall h :: Ok(remote.respond(h + [ListSnapshots]))) && (forall h :: Ok(remote.respond(h + [RestoreFiles])))
  }

  lemma AnswersAreThese(remote: Remote, m: Manifest)
    requires forall h :: remote.respond(h) == Answer(m, h)
    ensures Answers(remote, m)
  {
    forall h, path ensures remote.respond(h + [ReadManifest(path)]) == Response(true, 0, None, Some(m), []) {
      AnswerLast(m, h, ReadManifest(path));
    }
    forall h, input ensures remote.respond(h + [Probe(input)]) == Response(true, 0, None, None, [Preflight.END_MARKER]) {
      AnswerLast(m, h, Probe(input));
    }
    forall h, name, archive ensures remote.respond(h + [ImportVolume(name, archive)]).err == Some(Error({}, 3)) {
      AnswerLast(m, h, ImportVolume(name, archive));
    }
    forall h ensures Ok(remote.respond(h + [ListSnapshots])) && Ok(remote.respond(h + [RestoreFiles])) {
      AnswerLast(m, h, ListSnapshots);
      AnswerLast(m, h, RestoreFiles);
    }
  }

  lemma AnswersPass(remote: Remote, m: Manifest, checked: seq<Action>, input: Preflight.Input)
    requires Answers(remote, m)
    ensures ProbePassed(remote, checked, input)
  {
    assert remote.respond(checked + [Probe(input)]) == Response(true, 0, None, None, [Preflight.END_MARKER]);
    EndPasses(input, remote.ps);
  }

  lemma ImportFails(remote: Remote, m: Manifest, before: seq<Action>, first: Action)
    requires Answers(remote, m) && first.ImportVolume?
    ensures remote.respond(before + [first]).err == Some(Error({}, 3))
  {
    assert first == ImportVolume(first.name, first.archive);
  }

  /** Everything `FailedVolumeExitsPlainly` asks for. */
  lemma Reached(remote: Remote, files: seq<Action>, req: Request, target: Target, app: string, file: string, archive: string)
    returns (c: Candidate, input: Preflight.Input, checked: seq<Action>)
    requires var m := OneVolume(app, file, archive); Answers(remote, m) && ValidManifest(m)
    requires Printable(app) && Printable(file) && Printable(archive)
    requires req.opts == Options("", Start, "") && req.job.name == app && req.job.paths == []
    ensures ReachesVolumes(remote, files, req, target, c, input, checked)
    ensures Imports(c.manifest.volumes, InPackage(c.packageRoot))[0].ImportVolume?
  {
    var m := OneVolume(app, file, archive);
    c := PackageFound(remote, files, req.job, Effective(req), m);
    input := CheckedInput(c, "", target.name != req.job.server, InPackage(c.packageRoot));
    checked := files + Reads(Leads(req.opts.targetPath, SearchDirs(req.job))) + MountChecks(c.manifest.mounts);
    RefusesEmpty(archive);
    OneImport(c, app, file, archive);
    InputIsFine(c, target.name != req.job.server, app, file, archive);
    AnswersPass(remote, m, checked, input);
    Reaches(remote, files, req, target, c, input, checked);
  }

  lemma OneImport(c: Candidate, app: string, file: string, archive: string)
    requires c.manifest == OneVolume(app, file, archive) && archive != ""
    ensures var imports := Imports(c.manifest.volumes, InPackage(c.packageRoot)); imports != [] && imports[0].ImportVolume?
  {
    OneArchive(Volume(app, archive, app), InPackage(c.packageRoot));
  }

  lemma Reaches(remote: Remote, files: seq<Action>, req: Request, target: Target, c: Candidate, input: Preflight.Input, checked: seq<Action>)
    requires req.opts == Options("", Start, "") && Package(remote, files, req.job, Effective(req)) == Some(c)
    requires checked == files + Reads(Leads(req.opts.targetPath, SearchDirs(req.job))) + MountChecks(c.manifest.mounts)
    requires input == CheckedInput(c, "", target.name != req.job.server, InPackage(c.packageRoot))
    requires Preflight.InputAccepted(input) && ProbePassed(remote, checked, input)
    requires Imports(c.manifest.volumes, InPackage(c.packageRoot)) != []
    ensures ReachesVolumes(remote, files, req, target, c, input, checked)
  {
  }

  /** The surroundings of the example: nothing is missing. */
  const SURROUNDINGS := Surroundings(true, None, None, (r: Response) => true, (name: string) => Some(Target(name, None)), true)

  lemma Admits(remote: Remote, m: Manifest, req: Request)
    requires Answers(remote, m) && req.opts.alias == ""
    ensures Plausible(SURROUNDINGS) && Admitted(remote.respond, [], SURROUNDINGS, req)
    ensures Ok(remote.respond([] + [ListSnapshots] + [RestoreFiles]))
  {
  }

  lemma VolumeExits(remote: Remote, req: Request, app: string, file: string, archive: string)
    returns (trace: seq<Action>)
    requires var m := OneVolume(app, file, archive); Answers(remote, m) && ValidManifest(m)
    requires Printable(app) && Printable(file) && Printable(archive)
    requires req.opts == Options("", Start, "") && req.job.name == app && req.job.paths == [] && !req.dryRun
    ensures trace != [] && trace[|trace| - 1].ImportVolume? && remote.respond(trace).err == Some(Error({}, 3))
    ensures PartialExit(remote, [], SURROUNDINGS, req, trace, 1)
  {
    var m := OneVolume(app, file, archive);
    Admits(remote, m, req);
    var c, input, checked := Reached(remote, [] + [ListSnapshots] + [RestoreFiles], req,
                                     SURROUNDINGS.resolve(TargetServer(req)).value, app, file, archive);
    var first := Imports(c.manifest.volumes, InPackage(c.packageRoot))[0];
    ImportFails(remote, m, checked + [Probe(input)], first);
    trace := checked + [Probe(input)] + [first];
    FailedVolumeExitsPlainly(remote, [], SURROUNDINGS, req, c, input, checked, trace);
  }

  lemma ExampleIsValid()
    ensures ValidManifest(OneVolume("a", "c", "d")) && Printable("a") && Printable("c") && Printable("d")
  {
    OneCharacter('a');
    PlainSegment("c");
    PlainSegment("d");
    OneVolumeIsValid("a", "c", "d");
  }

  method Answering(m: Manifest) returns (remote: Remote)
    ensures fresh(remote) && Answers(remote, m)
  {
    remote := new Remote((h: seq<Action>) => Answer(m, h), (line: string) => None);
    AnswersAreThese(remote, m);
  }

  /** A restore whose volume import exits with 3: a partial run, which exits with 1. */
  method VolumeExitsWithThree() returns (remote: Remote, req: Request, ghost trace: seq<Action>)
    ensures fresh(remote) && trace != [] && trace[|trace| - 1].ImportVolume? && remote.respond(trace).err == Some(Error({}, 3))
    ensures PartialExit(remote, [], SURROUNDINGS, req, trace, 1)
  {
    var app, file, archive := "a", "c", "d";
    ExampleIsValid();
    remote := Answering(OneVolume(app, file, archive));
    req := Request(Job(app, "s", []), Options("", Start, ""), "", false, false);
    trace := VolumeExits(remote, req, app, file, archive);
  }
}
