/** The exit code of a failed restore, traced back to what was answered. */
module RestoreExit {
  import opened Wrappers
  import opened Outcomes
  import opened RestoreReport
  import opened Restore
  import opened RestoreSteps
  import opened RestoreChecks
  import opened RestoreLaws
  import opened RestoreRun
  import opened RestoreRunLaws
  import Preflight

  /** The commands whose error keeps its cause on the way up. The errors of mount checks,
      manifest reads, preflight, volume imports and the Compose start are formatted anew. */
  predicate Speaks(a: Action) {
    a.ListSnapshots? || a.PreviewFiles? || a.RestoreFiles? || a.AutoStart? || a.ImportDatabase?
  }

  /** The exit code the last command of a history failed with, if its error keeps it. */
  function LastExit(respond: seq<Action> -> Response, trace: seq<Action>): nat {
    if trace != [] && Speaks(trace[|trace| - 1]) && respond(trace).err.Some? then respond(trace).err.value.exit else 0
  }

  lemma Silent(respond: seq<Action> -> Response, h: seq<Action>, more: seq<Action>)
    requires LastExit(respond, h) == 0 && forall i :: 0 <= i < |more| ==> !Speaks(more[i])
    ensures LastExit(respond, h + more) == 0
  {
    if more == [] {
      assert h + more == h;
    } else {
      assert (h + more)[|h + more| - 1] == more[|more| - 1];
    }
  }

  /** In a plan only the database import speaks, and it comes last. */
  lemma PlanSpeaks(c: Candidate, alias: string, at: Locator, k: nat)
    requires k < |Plan(c, alias, at)|
    ensures Speaks(Plan(c, alias, at)[k]) <==> k > |Imports(c.manifest.volumes, at)|
  {
    ImportsAreImports(c.manifest.volumes, at);
  }

  lemma RanExit(remote: Remote, h: seq<Action>, c: Candidate, alias: string, at: Locator, n: nat, failed: bool, trace: seq<Action>)
    requires Ran(remote.respond, h, Plan(c, alias, at), n, failed, trace) && remote.AllLawful()
    ensures var err := PlanError(c, alias, at, n, failed, remote.respond(trace));
            err.Some? ==> err.value.exit == LastExit(remote.respond, trace)
  {
    var plan, v := Plan(c, alias, at), |Imports(c.manifest.volumes, at)|;
    var err := PlanError(c, alias, at, n, failed, remote.respond(trace));
    if err.Some? {
      LastRan(h, plan, n, trace);
      PlanSpeaks(c, alias, at, n - 1);
      assert Lawful(remote.respond(trace));
    }
  }

  lemma LastRan(h: seq<Action>, plan: seq<Action>, n: nat, trace: seq<Action>)
    requires 0 < n <= |plan| && trace == h + plan[..n]
    ensures trace != [] && trace[|trace| - 1] == plan[n - 1]
  {
  }

  lemma CheckedExit(remote: Remote, checked: seq<Action>, input: Preflight.Input, c: Candidate, alias: string, at: Locator,
                    p: Progress, trace: seq<Action>, report: Report, err: Option<Error>)
    requires Checked(remote, checked, input, c, alias, at, p, trace, report, err) && remote.AllLawful()
    requires LastExit(remote.respond, checked) == 0
    ensures err.Some? ==> err.value.exit == LastExit(remote.respond, trace)
  {
    match p
    case ProbeFailed =>
      Silent(remote.respond, checked, [Probe(input)]);
    case Executed(n, failed) =>
      RanExit(remote, checked + [Probe(input)], c, alias, at, n, failed, trace);
    case _ =>
  }

  lemma StoryExit(remote: Remote, h: seq<Action>, c: Candidate, alias: string, crossMachine: bool, at: Locator,
                  p: Progress, trace: seq<Action>, report: Report, err: Option<Error>)
    requires Story(remote, h, c, alias, crossMachine, at, p, trace, report, err) && remote.AllLawful()
    requires LastExit(remote.respond, h) == 0
    ensures err.Some? ==> err.value.exit == LastExit(remote.respond, trace)
  {
    var checks := MountChecks(c.manifest.mounts);
    MountChecksLook(c.manifest.mounts);
    Silent(remote.respond, h, checks);
    if p != ArchiveIllegal && p != DumpIllegal {
      CheckedExit(remote, h + checks, CheckedInput(c, alias, crossMachine, at), c, alias, at, p, trace, report, err);
    }
  }

  lemma SearchExit(remote: Remote, searched: seq<Action>, choice: Option<Candidate>, startDirs: seq<string>,
                   opts: Options, target: Target, crossMachine: bool,
                   d: Driver, trace: seq<Action>, report: Report, err: Option<Error>)
    requires SearchStory(remote, searched, choice, startDirs, opts, target, crossMachine, d, trace, report, err)
    requires remote.AllLawful() && LastExit(remote.respond, searched) == 0
    ensures err.Some? ==> err.value.exit == LastExit(remote.respond, trace)
  {
    match d
    case ByManifest(c, p) =>
      StoryExit(remote, searched, c, opts.alias, crossMachine, InPackage(c.packageRoot), p, trace, report, err);
    case Fallback =>
      assert Lawful(remote.respond(trace));
    case _ =>
  }

  lemma PostExit(remote: Remote, h: seq<Action>, req: Request, target: Target, trace: seq<Action>, report: Report, post: Option<Error>)
    requires Explained(remote, h, req, target, trace, report, post) && remote.AllLawful() && LastExit(remote.respond, h) == 0
    ensures post.Some? ==> post.value.exit == LastExit(remote.respond, trace)
  {
    var opts, dirs := Effective(req), SearchDirs(req.job);
    var d :| PostStory(remote, h, req.job, opts, target, TargetServer(req), d, trace, report, post);
    if !LeaveAlone(req.job, opts, TargetServer(req)) {
      var looked := Reads(Leads(opts.targetPath, dirs));
      Silent(remote.respond, h, looked);
      SearchExit(remote, h + looked, Package(remote, h, req.job, opts), AutoStartDirs(opts.targetPath, dirs),
                 opts, target, target.name != req.job.server, d, trace, report, post);
    }
  }

  /** The exit code behind a run's own error: that of a secret or a listing that could not be
      had before anything was executed, or of the last command, if its error keeps it. */
  function CauseExit(respond: seq<Action> -> Response, w: Surroundings, req: Request, trace: seq<Action>): nat {
    if Askable(w, req) then LastExit(respond, trace)
    else if !w.jobOk || (req.opts.alias != "" && !AliasOk(Alias(req))) then 0
    else if w.secrets.Some? then w.secrets.value.exit
    else w.listing.value.exit
  }

  lemma RefusedExit(remote: Remote, h: seq<Action>, w: Surroundings, req: Request)
    requires !Admitted(remote.respond, h, w, req) && remote.AllLawful()
    ensures Cause(remote.respond, h, w, req).exit == CauseExit(remote.respond, w, req, h + Questions(w, req))
  {
    if Askable(w, req) {
      var trace := h + [ListSnapshots];
      assert trace[|trace| - 1] == ListSnapshots;
      assert Lawful(remote.respond(trace));
    }
  }

  lemma WorkExit(remote: Remote, h: seq<Action>, w: Surroundings, req: Request,
                 p: Phase, trace: seq<Action>, report: Report, status: Status, stage: Stage)
    requires Attempted(remote, h, w, req, p, trace, report, status, stage) && remote.AllLawful()
    ensures Work(p).Some? ==> Work(p).value.exit == CauseExit(remote.respond, w, req, trace)
  {
    if !Admitted(remote.respond, h, w, req) {
      RefusedExit(remote, h, w, req);
    } else if p.Restored? {
      var after := h + [ListSnapshots] + [RestoreFiles];
      assert after[|after| - 1] == RestoreFiles;
      PostExit(remote, after, req, w.resolve(TargetServer(req)).value, trace, p.found, p.post);
    } else {
      assert Lawful(remote.respond(trace));
    }
  }

  /** Main result: the exit code of `ops restore run` for an attempt that returns an error. It
      is 3 for an audit gap, else the code of the culprit, else 1. */
  lemma ExitCodeIs(remote: Remote, h: seq<Action>, w: Surroundings, req: Request,
                   p: Phase, trace: seq<Action>, report: Report, status: Status, stage: Stage, a: Audit)
    requires Attempted(remote, h, w, req, p, trace, report, status, stage) && remote.AllLawful() && Plausible(w)
    requires ClosingFailed(a) ==> DatabaseError(a.closing.value)
    requires Verdict(p, status, a).Some?
    ensures var e, culprit := Verdict(p, status, a).value, CauseExit(remote.respond, w, req, trace);
            ExitCode(e) == if e.Is(RestoreUntracked) then EXIT_UNTRACKED else if culprit > 0 then culprit else 1
  {
    AttemptedConsistent(remote, h, w, req, p, trace, report, status, stage);
    UntrackedIsNoFailure(p, req.dryRun, report, status, stage, a);
    WorkExit(remote, h, w, req, p, trace, report, status, stage);
  }

  /** So a failed or partial run exits with 3 exactly when a secret, the listing, or the last
      command, being one whose error keeps its cause, failed with 3. */
  lemma ExitThreeIff(remote: Remote, h: seq<Action>, w: Surroundings, req: Request,
                     p: Phase, trace: seq<Action>, report: Report, status: Status, stage: Stage, a: Audit)
    requires Attempted(remote, h, w, req, p, trace, report, status, stage) && remote.AllLawful() && Plausible(w)
    requires ClosingFailed(a) ==> DatabaseError(a.closing.value)
    requires status in {Failed, Partial}
    ensures Verdict(p, status, a).Some?
    ensures ExitCode(Verdict(p, status, a).value) == EXIT_UNTRACKED <==> CauseExit(remote.respond, w, req, trace) == EXIT_UNTRACKED
  {
    AttemptedConsistent(remote, h, w, req, p, trace, report, status, stage);
    OutcomesAgree(p, req.dryRun, report, status, stage, a);
    ExitCodeIs(remote, h, w, req, p, trace, report, status, stage, a);
    UntrackedIsNoFailure(p, req.dryRun, report, status, stage, a);
  }

  // ----- two runs -----

  /** A run whose file restore exits with 3: failed, audited, and yet it exits like an
      unaudited success. */
  lemma FailedRunExitsLikeUntracked(remote: Remote, h: seq<Action>, w: Surroundings, req: Request)
    requires remote.AllLawful() && Plausible(w) && Admitted(remote.respond, h, w, req) && !req.dryRun
    requires remote.respond(h + [ListSnapshots] + [RestoreFiles]).err == Some(Error({}, 3))
    ensures var p, trace := FilesFailed(Error({}, 3)), h + [ListSnapshots] + [RestoreFiles];
            && Attempted(remote, h, w, req, p, trace, NOTHING_DONE, Failed, Execution)
            && !Flagged(p, Failed, Kept(None))
            && Verdict(p, Failed, Kept(None)).Some? && ExitCode(Verdict(p, Failed, Kept(None)).value) == EXIT_UNTRACKED
  {
  }

  /** Answers of which only that to the file restore is a failure, with exit code 3. */
  function OnlyFilesFail(h: seq<Action>): Response {
    if h != [] && h[|h| - 1].RestoreFiles? then Response(false, 3, Some(Error({}, 3)), None, [])
    else Response(true, 0, None, None, [])
  }

  /** Such a run: the files cannot be restored and the script exits with 3. */
  method FilesExitWithThree(remote: Remote, recorder: Recorder, w: Surroundings, req: Request)
    returns (result: RestoreResult?, err: Option<Error>)
    requires remote.AllLawful() && Plausible(w) && Admitted(remote.respond, remote.trace, w, req) && !req.dryRun
    requires remote.respond(remote.trace + [ListSnapshots] + [RestoreFiles]).err == Some(Error({}, 3))
    requires recorder.Valid() && (forall n :: recorder.fails(n).None?) && !req.allowUntracked
    modifies remote, recorder
    ensures result != null && result.status == Failed && !result.untracked
    ensures err.Some? && ExitCode(err.value) == EXIT_UNTRACKED
  {
    ghost var p, a;
    result, err, p, a := Run(remote, recorder, w, req);
  }

  /** For instance this one. */
  method FilesExitExample() returns (result: RestoreResult?, err: Option<Error>)
    ensures result != null && result.status == Failed && !result.untracked
    ensures err.Some? && ExitCode(err.value) == EXIT_UNTRACKED
  {
    var remote := new Remote(OnlyFilesFail, (line: string) => None);
    var recorder := new Recorder((n: nat) => None);
    var w := Surroundings(true, None, None, (r: Response) => true, (name: string) => Some(Target(name, None)), true);
    var req := Request(Job("a", "s", []), Options("", Auto, ""), "", false, false);
    result, err := FilesExitWithThree(remote, recorder, w, req);
  }

  /** What has to be answered, after the file restore, for a run to get as far as the first
      volume of package `c`. `checked` is the history before the preflight. */
  ghost predicate ReachesVolumes(remote: Remote, files: seq<Action>, req: Request, target: Target, c: Candidate,
                                 input: Preflight.Input, checked: seq<Action>)
  {
    && !LeaveAlone(req.job, Effective(req), TargetServer(req))
    && Package(remote, files, req.job, Effective(req)) == Some(c)
    && checked == files + Reads(Leads(req.opts.targetPath, SearchDirs(req.job))) + MountChecks(c.manifest.mounts)
    && input == CheckedInput(c, Alias(req), target.name != req.job.server, InPackage(c.packageRoot))
    && Preflight.InputAccepted(input) && ProbePassed(remote, checked, input)
    && Imports(c.manifest.volumes, InPackage(c.packageRoot)) != []
  }

  /** Its first import fails: that is the story, and the error has lost its cause. */
  lemma FirstVolumeFails(remote: Remote, files: seq<Action>, req: Request, target: Target, c: Candidate,
                         input: Preflight.Input, checked: seq<Action>, trace: seq<Action>)
    returns (report: Report)
    requires remote.AllLawful() && ReachesVolumes(remote, files, req, target, c, input, checked)
    requires trace == checked + [Probe(input)] + [Imports(c.manifest.volumes, InPackage(c.packageRoot))[0]]
    requires !Ok(remote.respond(trace))
    ensures Explained(remote, files, req, target, trace, report, Some(PLAIN))
  {
    var at := InPackage(c.packageRoot);
    report := StatusAfter(c.manifest, Alias(req), at, 1, true, ClassifyExit(remote.respond(trace).exitCode));
    PackageIsValid(remote, files, req.job, Effective(req));
    ValidManifestResolves(c.manifest, c.packageRoot);
    FirstFails(remote, checked, input, c, Alias(req), at, trace);
    Told(remote, files, req, target, c, checked, trace, report);
  }

  /** There is a partial run with this history, closed in its row, that exits with `code`. */
  ghost predicate PartialExit(remote: Remote, h: seq<Action>, w: Surroundings, req: Request, trace: seq<Action>, code: nat) {
    exists p: Phase, report ::
      && Attempted(remote, h, w, req, p, trace, report, Partial, PostRestore)
      && Verdict(p, Partial, Kept(None)).Some? && ExitCode(Verdict(p, Partial, Kept(None)).value) == code
  }

  /** A run whose first volume import exits with 3: it exits with 1. */
  lemma FailedVolumeExitsPlainly(remote: Remote, h: seq<Action>, w: Surroundings, req: Request, c: Candidate,
                                 input: Preflight.Input, checked: seq<Action>, trace: seq<Action>)
    requires remote.AllLawful() && Plausible(w) && Admitted(remote.respond, h, w, req) && !req.dryRun
    requires Ok(remote.respond(h + [ListSnapshots] + [RestoreFiles]))
    requires ReachesVolumes(remote, h + [ListSnapshots] + [RestoreFiles], req, w.resolve(TargetServer(req)).value, c, input, checked)
    requires trace == checked + [Probe(input)] + [Imports(c.manifest.volumes, InPackage(c.packageRoot))[0]]
    requires remote.respond(trace).err == Some(Error({}, 3))
    ensures PartialExit(remote, h, w, req, trace, 1)
  {
    var files, target := h + [ListSnapshots] + [RestoreFiles], w.resolve(TargetServer(req)).value;
    var report := FirstVolumeFails(remote, files, req, target, c, input, checked, trace);
    var p := Restored(report, Some(PLAIN));
    PartialRun(remote, files, req, target, trace, report);
    AfterValidation(remote, h, w, req, p, trace, report, Partial, PostRestore);
    PlainExit(report);
    assert Verdict(p, Partial, Kept(None)).Some?;
  }

  lemma PartialRun(remote: Remote, files: seq<Action>, req: Request, target: Target, trace: seq<Action>, report: Report)
    requires Explained(remote, files, req, target, trace, report, Some(PLAIN)) && remote.AllLawful() && Ok(remote.respond(files))
    ensures RestoreAttempted(remote, files, req, target, Restored(report, Some(PLAIN)), trace, report, Partial, PostRestore)
  {
    RestoredFacts(remote, files, req, target, trace, report, Some(PLAIN));
  }

  lemma AfterValidation(remote: Remote, h: seq<Action>, w: Surroundings, req: Request,
                        p: Phase, trace: seq<Action>, report: Report, status: Status, stage: Stage)
    requires Admitted(remote.respond, h, w, req) && !req.dryRun
    requires RestoreAttempted(remote, h + [ListSnapshots] + [RestoreFiles], req, w.resolve(TargetServer(req)).value,
                              p, trace, report, status, stage)
    ensures Attempted(remote, h, w, req, p, trace, report, status, stage)
  {
  }

  lemma PlainExit(report: Report)
    ensures var e := Verdict(Restored(report, Some(PLAIN)), Partial, Kept(None)); e.Some? && ExitCode(e.value) == 1
  {
  }

  lemma FirstFails(remote: Remote, checked: seq<Action>, input: Preflight.Input, c: Candidate, alias: string, at: Locator, trace: seq<Action>)
    requires remote.AllLawful() && Preflight.InputAccepted(input) && ProbePassed(remote, checked, input)
    requires Imports(c.manifest.volumes, at) != [] && trace == checked + [Probe(input)] + [Imports(c.manifest.volumes, at)[0]]
    requires !Ok(remote.respond(trace))
    ensures Checked(remote, checked, input, c, alias, at, Executed(1, true), trace,
                    StatusAfter(c.manifest, alias, at, 1, true, ClassifyExit(remote.respond(trace).exitCode)), Some(PLAIN))
  {
    var plan := Plan(c, alias, at);
    assert plan[..1] == [plan[0]] == [Imports(c.manifest.volumes, at)[0]];
    assert plan[..0] == [];
  }

  lemma Told(remote: Remote, files: seq<Action>, req: Request, target: Target, c: Candidate, checked: seq<Action>,
             trace: seq<Action>, report: Report)
    requires !LeaveAlone(req.job, Effective(req), TargetServer(req))
    requires Package(remote, files, req.job, Effective(req)) == Some(c)
    requires ArchivesResolve(c.manifest.volumes, InPackage(c.packageRoot)) && DumpResolves(c.manifest, InPackage(c.packageRoot))
    requires checked == files + Reads(Leads(req.opts.targetPath, SearchDirs(req.job))) + MountChecks(c.manifest.mounts)
    requires Checked(remote, checked, CheckedInput(c, Alias(req), target.name != req.job.server, InPackage(c.packageRoot)),
                     c, Alias(req), InPackage(c.packageRoot), Executed(1, true), trace, report, Some(PLAIN))
    ensures Explained(remote, files, req, target, trace, report, Some(PLAIN))
  {
    assert PostStory(remote, files, req.job, Effective(req), target, TargetServer(req), ByManifest(c, Executed(1, true)),
                     trace, report, Some(PLAIN));
  }
}
