/** What the container steps of a restore guarantee, for every manifest, every policy and
    every sequence of remote answers. */
module RestoreLaws {
  import opened Wrappers
  import opened Outcomes
  import opened RestoreReport
  import opened Restore
  import opened RestoreSteps
  import opened RestoreChecks
  import Preflight

  // ----- report, error and history agree -----

  /** The report is in trouble exactly when there is an error, and a later step is never
      successful on top of a failed earlier one. */
  predicate Agrees(report: Report, err: Option<Error>) {
    report.files == StepDone && report.Coherent() && (report.Troubled() <==> err.Some?)
  }

  lemma TroubledIff(r: Report)
    ensures r.Troubled() <==>
              (r.files in {StepFailed, Blocked} || r.volumes in {StepFailed, Blocked}
               || r.database in {StepFailed, Blocked} || r.compose in {StepFailed, Blocked})
  {
    assert r.Get(Files) == r.files && r.Get(Volumes) == r.volumes && r.Get(Database) == r.database && r.Get(Compose) == r.compose;
  }

  lemma ExecutedAgrees(m: Manifest, alias: string, at: Locator, n: nat, failed: bool, exitCode: int, planned: nat, err: Option<Error>)
    requires planned == |Imports(m.volumes, at)| + 1 + |DumpImport(m, alias, at)|
    requires n <= planned && (failed ==> n > 0) && (!failed ==> n == planned)
    requires err.None? <==> !failed && (DumpDeclared(m) ==> DumpImport(m, alias, at) != [])
    ensures Agrees(StatusAfter(m, alias, at, n, failed, ClassifyExit(exitCode)), err)
  {
    var v, d := |Imports(m.volumes, at)|, DumpImport(m, alias, at);
    assert |d| <= 1 && (m.database.None? || !DumpDeclared(m) ==> d == []);
    TroubledIff(StatusAfter(m, alias, at, n, failed, ClassifyExit(exitCode)));
  }

  lemma PlanErrorIff(c: Candidate, alias: string, at: Locator, n: nat, failed: bool, r: Response)
    ensures PlanError(c, alias, at, n, failed, r).None? <==>
              !failed && (DumpDeclared(c.manifest) ==> DumpImport(c.manifest, alias, at) != [])
  {
  }

  lemma CheckedAgrees(remote: Remote, checked: seq<Action>, input: Preflight.Input, c: Candidate, alias: string, at: Locator,
                      p: Progress, trace: seq<Action>, report: Report, err: Option<Error>)
    requires Checked(remote, checked, input, c, alias, at, p, trace, report, err)
    ensures Agrees(report, err)
  {
    match p
    case Executed(n, failed) =>
      PlanErrorIff(c, alias, at, n, failed, remote.respond(trace));
      ExecutedAgrees(c.manifest, alias, at, n, failed, remote.respond(trace).exitCode, |Plan(c, alias, at)|, err);
    case _ =>
      TroubledIff(report);
  }

  lemma StoryAgrees(remote: Remote, h: seq<Action>, c: Candidate, alias: string, crossMachine: bool, at: Locator,
                    p: Progress, trace: seq<Action>, report: Report, err: Option<Error>)
    requires Story(remote, h, c, alias, crossMachine, at, p, trace, report, err)
    ensures Agrees(report, err)
  {
    if p == ArchiveIllegal || p == DumpIllegal {
      TroubledIff(report);
    } else {
      CheckedAgrees(remote, h + MountChecks(c.manifest.mounts), CheckedInput(c, alias, crossMachine, at), c, alias, at, p, trace, report, err);
    }
  }

  /** The error says "blocked by the preflight" exactly when that is what happened. */
  lemma BlockedIff(remote: Remote, h: seq<Action>, c: Candidate, alias: string, crossMachine: bool, at: Locator,
                   p: Progress, trace: seq<Action>, report: Report, err: Option<Error>)
    requires Story(remote, h, c, alias, crossMachine, at, p, trace, report, err) && remote.AllLawful()
    ensures err.Some? && err.value.Is(PreflightBlocked) <==> p == ProbeRefused || p == ProbeFailed
  {
    if p != ArchiveIllegal && p != DumpIllegal {
      CheckedBlocked(remote, h + MountChecks(c.manifest.mounts), CheckedInput(c, alias, crossMachine, at), c, alias, at, p, trace, report, err);
    }
  }

  lemma CheckedBlocked(remote: Remote, checked: seq<Action>, input: Preflight.Input, c: Candidate, alias: string, at: Locator,
                       p: Progress, trace: seq<Action>, report: Report, err: Option<Error>)
    requires Checked(remote, checked, input, c, alias, at, p, trace, report, err) && remote.AllLawful()
    ensures err.Some? && err.value.Is(PreflightBlocked) <==> p == ProbeRefused || p == ProbeFailed
  {
    assert Lawful(remote.respond(trace));
  }

  lemma SearchAgrees(remote: Remote, searched: seq<Action>, choice: Option<Candidate>, startDirs: seq<string>,
                     opts: Options, target: Target, crossMachine: bool,
                     d: Driver, trace: seq<Action>, report: Report, err: Option<Error>)
    requires SearchStory(remote, searched, choice, startDirs, opts, target, crossMachine, d, trace, report, err)
    ensures Agrees(report, err)
  {
    TroubledIff(report);
    match d
    case ByManifest(c, p) =>
      StoryAgrees(remote, searched, c, opts.alias, crossMachine, InPackage(c.packageRoot), p, trace, report, err);
    case _ =>
  }

  /** Main result: after a successful file restore the report, its aggregate and the
      returned error agree on every path. */
  lemma PostStoryAgrees(remote: Remote, h: seq<Action>, job: Job, opts: Options, target: Target, targetServer: string,
                        d: Driver, trace: seq<Action>, report: Report, err: Option<Error>)
    requires PostStory(remote, h, job, opts, target, targetServer, d, trace, report, err)
    ensures Agrees(report, err)
    ensures Aggregate(report, false) == if err.Some? then Partial else Success
  {
    TroubledIff(report);
    if !LeaveAlone(job, opts, targetServer) {
      var dirs := SearchDirs(job);
      SearchAgrees(remote, h + Reads(Leads(opts.targetPath, dirs)), Package(remote, h, job, opts),
                   AutoStartDirs(opts.targetPath, dirs), opts, target, target.name != job.server, d, trace, report, err);
    }
  }

  // ----- what is mutated, and when -----

  function Mutations(actions: seq<Action>): seq<Action>
    decreases |actions|
  {
    if actions == [] then []
    else Mutations(actions[..|actions| - 1]) + if Mutating(actions[|actions| - 1]) then [actions[|actions| - 1]] else []
  }

  lemma {:induction false} MutationsConcat(a: seq<Action>, b: seq<Action>)
    ensures Mutations(a + b) == Mutations(a) + Mutations(b)
    decreases |b|
  {
    if b == [] {
      assert a + b == a;
    } else {
      assert (a + b)[..|a + b| - 1] == a + b[..|b| - 1];
      MutationsConcat(a, b[..|b| - 1]);
    }
  }

  lemma {:induction false} NoneMutating(a: seq<Action>)
    requires forall i :: 0 <= i < |a| ==> !Mutating(a[i])
    ensures Mutations(a) == []
    decreases |a|
  {
    if a != [] {
      NoneMutating(a[..|a| - 1]);
    }
  }

  lemma {:induction false} AllMutating(a: seq<Action>)
    requires forall i :: 0 <= i < |a| ==> Mutating(a[i])
    ensures Mutations(a) == a
    decreases |a|
  {
    if a != [] {
      AllMutating(a[..|a| - 1]);
      assert a == a[..|a| - 1] + [a[|a| - 1]];
    }
  }

  lemma PlanMutates(c: Candidate, alias: string, at: Locator)
    ensures forall i :: 0 <= i < |Plan(c, alias, at)| ==> Mutating(Plan(c, alias, at)[i])
  {
    ImportsAreImports(c.manifest.volumes, at);
  }

  /** How many actions of the plan a progress stands for. */
  function Done(p: Progress): nat {
    if p.Executed? then p.n else 0
  }

  lemma Harmless(h: seq<Action>, looked: seq<Action>, trace: seq<Action>)
    requires trace == h + looked && forall i :: 0 <= i < |looked| ==> !Mutating(looked[i])
    ensures h <= trace && Mutations(trace[|h|..]) == []
  {
    assert trace[|h|..] == looked;
    NoneMutating(looked);
  }

  lemma ProbedMutations(h: seq<Action>, checks: seq<Action>, probe: Action, plan: seq<Action>, n: nat, trace: seq<Action>)
    requires n <= |plan| && trace == ((h + checks) + [probe]) + plan[..n]
    requires forall i :: 0 <= i < |checks| ==> !Mutating(checks[i])
    requires !Mutating(probe) && forall i :: 0 <= i < |plan| ==> Mutating(plan[i])
    ensures h <= trace && (h + checks) + [probe] <= trace && Mutations(trace[|h|..]) == plan[..n]
  {
    var looked := checks + [probe];
    assert trace[|h|..] == looked + plan[..n];
    NoneMutating(looked);
    AllMutating(plan[..n]);
    MutationsConcat(looked, plan[..n]);
  }

  /** What a manifest-driven restore mutates is a prefix of its plan, and nothing unless
      the preflight was executed before it and passed. */
  lemma StoryMutations(remote: Remote, h: seq<Action>, c: Candidate, alias: string, crossMachine: bool, at: Locator,
                       p: Progress, trace: seq<Action>, report: Report, err: Option<Error>)
    requires Story(remote, h, c, alias, crossMachine, at, p, trace, report, err)
    ensures Done(p) <= |Plan(c, alias, at)|
    ensures h <= trace && Mutations(trace[|h|..]) == Plan(c, alias, at)[..Done(p)]
    ensures Done(p) > 0 ==>
              var input, checked := CheckedInput(c, alias, crossMachine, at), h + MountChecks(c.manifest.mounts);
              checked + [Probe(input)] <= trace && ProbePassed(remote, checked, input)
  {
    var checks := MountChecks(c.manifest.mounts);
    MountChecksLook(c.manifest.mounts);
    if p == ArchiveIllegal || p == DumpIllegal {
      Harmless(h, checks, trace);
    } else {
      CheckedMutations(remote, h, checks, CheckedInput(c, alias, crossMachine, at), c, alias, at, p, trace, report, err);
    }
  }

  lemma CheckedMutations(remote: Remote, h: seq<Action>, checks: seq<Action>, input: Preflight.Input, c: Candidate, alias: string,
                         at: Locator, p: Progress, trace: seq<Action>, report: Report, err: Option<Error>)
    requires Checked(remote, h + checks, input, c, alias, at, p, trace, report, err)
    requires forall i :: 0 <= i < |checks| ==> !Mutating(checks[i])
    ensures Done(p) <= |Plan(c, alias, at)|
    ensures h <= trace && Mutations(trace[|h|..]) == Plan(c, alias, at)[..Done(p)]
    ensures Done(p) > 0 ==> (h + checks) + [Probe(input)] <= trace && ProbePassed(remote, h + checks, input)
  {
    match p
    case ProbeRefused =>
      Harmless(h, checks, trace);
    case ProbeFailed =>
      assert trace == h + (checks + [Probe(input)]);
      Harmless(h, checks + [Probe(input)], trace);
    case Executed(n, failed) =>
      PlanMutates(c, alias, at);
      ProbedMutations(h, checks, Probe(input), Plan(c, alias, at), n, trace);
    case _ =>
  }

  /** A valid package, after any harmless actions: a prefix of the plan, all of it when
      there is no error. */
  lemma PackageMutations(remote: Remote, h: seq<Action>, looked: seq<Action>, c: Candidate, alias: string, crossMachine: bool,
                         p: Progress, trace: seq<Action>, report: Report, err: Option<Error>)
    requires forall i :: 0 <= i < |looked| ==> !Mutating(looked[i])
    requires ValidManifest(c.manifest) && (alias == "" || FieldOk(alias))
    requires Story(remote, h + looked, c, alias, crossMachine, InPackage(c.packageRoot), p, trace, report, err)
    ensures h <= trace
    ensures var plan := Plan(c, alias, InPackage(c.packageRoot));
            Mutations(trace[|h|..]) <= plan && (err.None? ==> Mutations(trace[|h|..]) == plan)
  {
    StoryMutations(remote, h + looked, c, alias, crossMachine, InPackage(c.packageRoot), p, trace, report, err);
    AfterLooking(h, looked, trace);
    if err.None? {
      NoErrorIsAll(remote, h + looked, c, alias, crossMachine, p, trace, report);
    }
    IsPrefix(Mutations(trace[|h|..]), Plan(c, alias, InPackage(c.packageRoot)), Done(p));
  }

  lemma IsPrefix(done: seq<Action>, plan: seq<Action>, n: nat)
    requires n <= |plan| && done == plan[..n]
    ensures done <= plan && (n == |plan| ==> done == plan)
  {
  }

  lemma AfterLooking(h: seq<Action>, looked: seq<Action>, trace: seq<Action>)
    requires h + looked <= trace && forall i :: 0 <= i < |looked| ==> !Mutating(looked[i])
    ensures h <= trace && Mutations(trace[|h|..]) == Mutations(trace[|h + looked|..])
  {
    NoneMutating(looked);
    Rest(h, looked, trace);
    MutationsConcat(looked, trace[|h + looked|..]);
  }

  /** For a valid package no error means that the whole plan was executed. */
  lemma NoErrorIsAll(remote: Remote, h: seq<Action>, c: Candidate, alias: string, crossMachine: bool,
                     p: Progress, trace: seq<Action>, report: Report)
    requires ValidManifest(c.manifest) && (alias == "" || FieldOk(alias))
    requires Story(remote, h, c, alias, crossMachine, InPackage(c.packageRoot), p, trace, report, None)
    ensures Done(p) == |Plan(c, alias, InPackage(c.packageRoot))|
  {
    ValidManifestResolves(c.manifest, c.packageRoot);
    if DumpDeclared(c.manifest) {
      DumpAlwaysImported(c.manifest, alias, c.packageRoot);
    }
  }

  lemma Rest(h: seq<Action>, a: seq<Action>, trace: seq<Action>)
    requires h + a <= trace
    ensures h <= trace && trace[|h|..] == a + trace[|h + a|..]
  {
    assert trace == (h + a) + trace[|h + a|..];
  }

  /** What may be mutated, given what drove the container steps and how they ended: nothing
      without a driver; a prefix of the plan of a package, all of it without an error; one
      generic start, and only under --start. */
  predicate Effects(d: Driver, policy: StartPolicy, alias: string, err: Option<Error>, done: seq<Action>) {
    match d
    case Nobody => done == []
    case NoPackage => done == []
    case Fallback => policy == Start && |done| == 1 && done[0].AutoStart?
    case ByManifest(c, _) =>
      var plan := Plan(c, alias, InPackage(c.packageRoot));
      done <= plan && (err.None? ==> done == plan)
  }

  lemma SearchMutations(remote: Remote, h: seq<Action>, looked: seq<Action>, choice: Option<Candidate>, startDirs: seq<string>,
                        opts: Options, target: Target, crossMachine: bool,
                        d: Driver, trace: seq<Action>, report: Report, err: Option<Error>)
    requires SearchStory(remote, h + looked, choice, startDirs, opts, target, crossMachine, d, trace, report, err)
    requires forall i :: 0 <= i < |looked| ==> !Mutating(looked[i])
    requires choice.Some? ==> ValidManifest(choice.value.manifest)
    requires opts.alias == "" || FieldOk(opts.alias)
    ensures h <= trace && Effects(d, opts.policy, opts.alias, err, Mutations(trace[|h|..]))
    ensures d.ByManifest? ==> choice == Some(d.c)
  {
    match d
    case Nobody =>
    case NoPackage =>
      Harmless(h, looked, trace);
    case ByManifest(c, p) =>
      PackageMutations(remote, h, looked, c, opts.alias, crossMachine, p, trace, report, err);
    case Fallback =>
      OneStart(h, looked, trace);
  }

  lemma PackageIsValid(remote: Remote, h: seq<Action>, job: Job, opts: Options)
    ensures Package(remote, h, job, opts).Some? ==>
              var c := Package(remote, h, job, opts).value; ValidManifest(c.manifest) && Named(c, job, opts.alias)
  {
    var leads := Leads(opts.targetPath, SearchDirs(job));
    var _ := ChoiceMeaning(Found(remote.respond, h, leads), job, opts.alias);
    FoundValid(remote.respond, h, leads);
  }

  /** Main result on a whole post-restore phase: its effects are those, and the package that
      drives it is valid and names the job or the alias. */
  lemma PostStoryMutations(remote: Remote, h: seq<Action>, job: Job, opts: Options, target: Target, targetServer: string,
                           d: Driver, trace: seq<Action>, report: Report, err: Option<Error>)
    requires PostStory(remote, h, job, opts, target, targetServer, d, trace, report, err)
    requires opts.alias == "" || FieldOk(opts.alias)
    ensures h <= trace && Effects(d, opts.policy, opts.alias, err, Mutations(trace[|h|..]))
    ensures d.ByManifest? ==> ValidManifest(d.c.manifest) && Named(d.c, job, opts.alias)
  {
    if LeaveAlone(job, opts, targetServer) {
      assert trace[|h|..] == [];
    } else {
      DrivenMutations(remote, h, job, opts, target, targetServer, d, trace, report, err);
    }
  }

  lemma DrivenMutations(remote: Remote, h: seq<Action>, job: Job, opts: Options, target: Target, targetServer: string,
                        d: Driver, trace: seq<Action>, report: Report, err: Option<Error>)
    requires PostStory(remote, h, job, opts, target, targetServer, d, trace, report, err) && !LeaveAlone(job, opts, targetServer)
    requires opts.alias == "" || FieldOk(opts.alias)
    ensures h <= trace && Effects(d, opts.policy, opts.alias, err, Mutations(trace[|h|..]))
    ensures d.ByManifest? ==> ValidManifest(d.c.manifest) && Named(d.c, job, opts.alias)
  {
    var dirs := SearchDirs(job);
    var leads := Leads(opts.targetPath, dirs);
    PackageIsValid(remote, h, job, opts);
    ReadsHarmless(leads);
    SearchMutations(remote, h, Reads(leads), Package(remote, h, job, opts), AutoStartDirs(opts.targetPath, dirs),
                    opts, target, target.name != job.server, d, trace, report, err);
  }

  lemma ReadsHarmless(leads: seq<Lead>)
    ensures forall i :: 0 <= i < |Reads(leads)| ==> !Mutating(Reads(leads)[i])
  {
  }

  lemma OneStart(h: seq<Action>, looked: seq<Action>, trace: seq<Action>)
    requires forall i :: 0 <= i < |looked| ==> !Mutating(looked[i])
    requires |trace| == |h| + |looked| + 1 && h + looked <= trace && trace[|trace| - 1].AutoStart?
    ensures h <= trace && Mutations(trace[|h|..]) == [trace[|trace| - 1]]
  {
    var a := trace[|trace| - 1];
    Rest(h, looked, trace);
    assert trace[|h + looked|..] == [a];
    NoneMutating(looked);
    MutationsConcat(looked, [a]);
    AllMutating([a]);
  }
}
