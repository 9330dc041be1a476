/** What a whole restore guarantees: report, status, stage, error, exit code and the
    remote history tell the same story. */
module RestoreRunLaws {
  import opened Wrappers
  import opened Text
  import opened Outcomes
  import opened RestoreReport
  import opened Restore
  import opened RestoreSteps
  import opened RestoreLaws
  import opened RestoreRun
  import Preflight

  /** The errors of the work never carry an audit sentinel. */
  predicate OwnMarks(e: Option<Error>) {
    e.Some? ==> e.value.marks <= {ContextDone, PreflightBlocked}
  }

  lemma CheckedMarks(remote: Remote, checked: seq<Action>, input: Preflight.Input, c: Candidate, alias: string, at: Locator,
                     p: Progress, trace: seq<Action>, report: Report, err: Option<Error>)
    requires Checked(remote, checked, input, c, alias, at, p, trace, report, err) && remote.AllLawful()
    ensures OwnMarks(err)
  {
    assert Lawful(remote.respond(trace));
  }

  lemma StoryMarks(remote: Remote, h: seq<Action>, c: Candidate, alias: string, crossMachine: bool, at: Locator,
                   p: Progress, trace: seq<Action>, report: Report, err: Option<Error>)
    requires Story(remote, h, c, alias, crossMachine, at, p, trace, report, err) && remote.AllLawful()
    ensures OwnMarks(err)
  {
    if p != ArchiveIllegal && p != DumpIllegal {
      CheckedMarks(remote, h + MountChecks(c.manifest.mounts), CheckedInput(c, alias, crossMachine, at), c, alias, at, p, trace, report, err);
    }
  }

  lemma SearchMarks(remote: Remote, searched: seq<Action>, choice: Option<Candidate>, startDirs: seq<string>,
                    opts: Options, target: Target, crossMachine: bool,
                    d: Driver, trace: seq<Action>, report: Report, err: Option<Error>)
    requires SearchStory(remote, searched, choice, startDirs, opts, target, crossMachine, d, trace, report, err)
    requires remote.AllLawful()
    ensures OwnMarks(err)
  {
    match d
    case ByManifest(c, p) =>
      StoryMarks(remote, searched, c, opts.alias, crossMachine, InPackage(c.packageRoot), p, trace, report, err);
    case _ =>
  }

  lemma RestoredFacts(remote: Remote, h: seq<Action>, req: Request, target: Target, trace: seq<Action>, report: Report, post: Option<Error>)
    requires Explained(remote, h, req, target, trace, report, post) && remote.AllLawful()
    ensures OwnMarks(post) && Agrees(report, post)
    ensures Aggregate(report, false) == if post.Some? then Partial else Success
  {
    var opts, dirs := Effective(req), SearchDirs(req.job);
    var d :| PostStory(remote, h, req.job, opts, target, TargetServer(req), d, trace, report, post);
    PostStoryAgrees(remote, h, req.job, opts, target, TargetServer(req), d, trace, report, post);
    if !LeaveAlone(req.job, opts, TargetServer(req)) {
      SearchMarks(remote, h + Reads(Leads(opts.targetPath, dirs)), Package(remote, h, req.job, opts),
                  AutoStartDirs(opts.targetPath, dirs), opts, target, target.name != req.job.server, d, trace, report, post);
    }
  }

  /** Status, stage and report that belong to a phase, without the history. */
  predicate Consistent(p: Phase, dryRun: bool, report: Report, status: Status, stage: Stage) {
    match p
    case Refused(e) => report == NOTHING_DONE && status == FailureStatus(e) && stage == Validation
    case Previewed(e) =>
      && dryRun
      && report == (if e.Some? then NOTHING_DONE else FILES_ONLY)
      && status == (if e.Some? then FailureStatus(e.value) else DryRun)
      && stage == (if e.Some? then Execution else NoStage)
    case FilesFailed(e) => !dryRun && report == NOTHING_DONE && status == FailureStatus(e) && stage == Execution
    case Restored(found, post) =>
      && !dryRun && report == found && Agrees(found, post)
      && status == (if post.Some? then Partial else Success)
      && stage == if post.Some? then PostRestore else NoStage
  }

  /** Main result, first half: whatever is answered, an attempt is consistent. */
  lemma AttemptedConsistent(remote: Remote, h: seq<Action>, w: Surroundings, req: Request,
                            p: Phase, trace: seq<Action>, report: Report, status: Status, stage: Stage)
    requires Attempted(remote, h, w, req, p, trace, report, status, stage) && remote.AllLawful() && Plausible(w)
    ensures Consistent(p, req.dryRun, report, status, stage) && OwnMarks(Work(p))
  {
    if p.Restored? {
      RestoredFacts(remote, h + Questions(w, req) + [RestoreFiles], req, w.resolve(TargetServer(req)).value, trace, p.found, p.post);
    }
  }

  /** Main result, second half: status, report, stage and error say the same. */
  lemma OutcomesAgree(p: Phase, dryRun: bool, report: Report, status: Status, stage: Stage, a: Audit)
    requires Consistent(p, dryRun, report, status, stage) && OwnMarks(Work(p))
    ensures Terminal(status) && report.Coherent()
    ensures status in {Success, DryRun} <==> Work(p).None?
    ensures Verdict(p, status, a).None? <==> status in {Success, DryRun} && !Flagged(p, status, a)
    ensures status == Success ==> !dryRun && report.files == StepDone && !report.Troubled()
    ensures status == Partial <==> report.files == StepDone && report.Troubled()
    ensures status == Partial <==> stage == PostRestore
    ensures status in {Failed, Canceled} <==> report == NOTHING_DONE
    ensures status == DryRun ==> dryRun && report == FILES_ONLY
  {
    TroubledIff(report);
  }

  /** The mark "completed but not audited" never sits on a failed or partial run. */
  lemma UntrackedIsNoFailure(p: Phase, dryRun: bool, report: Report, status: Status, stage: Stage, a: Audit)
    requires Consistent(p, dryRun, report, status, stage) && OwnMarks(Work(p))
    requires ClosingFailed(a) ==> DatabaseError(a.closing.value)
    requires Verdict(p, status, a).Some?
    ensures var e := Verdict(p, status, a).value;
            && (e.Is(RestoreUntracked) ==> status in {Success, DryRun, Canceled} && Flagged(p, status, a))
            && (e.Is(RestoreUntracked) <==>
                  Work(p).None? || (ClosingFailed(a) && status == Canceled && (p.FilesFailed? || p.Restored?)))
            && (e.Is(RestoreAuditFailed) <==>
                  Work(p).Some? && ClosingFailed(a) && !(status == Canceled && (p.FilesFailed? || p.Restored?)))
  {
  }

  /** The fallbacks of `ops restore run` behind a returned error. */
  function CommandError(err: Option<Error>, status: Status, untracked: bool): Option<Error> {
    if err.Some? then err
    else if status == Failed || status == Partial then Some(PLAIN)
    else if untracked then Some(Error({RestoreUntracked}, 0))
    else None
  }

  /** They never fire: the runner's error already says everything. */
  lemma CommandAddsNothing(p: Phase, dryRun: bool, report: Report, status: Status, stage: Stage, a: Audit)
    requires Consistent(p, dryRun, report, status, stage) && OwnMarks(Work(p))
    ensures CommandError(Verdict(p, status, a), status, Flagged(p, status, a)) == Verdict(p, status, a)
  {
    OutcomesAgree(p, dryRun, report, status, stage, a);
  }

  // ----- what is mutated -----

  lemma AliasIsField(name: string)
    requires AliasOk(name)
    ensures FieldOk(name)
  {
    forall i | 0 <= i < |name| ensures !IsSpace(name[i]) && name[i] >= ' ' && name[i] != 127 as char {
      assert AliasChar(name[i]);
    }
  }

  /** What ran remotely before the container steps. */
  lemma Prelude(remote: Remote, h: seq<Action>, w: Surroundings, req: Request,
                p: Phase, trace: seq<Action>, report: Report, status: Status, stage: Stage)
    requires Attempted(remote, h, w, req, p, trace, report, status, stage)
    ensures p.Refused? ==> trace == h + Questions(w, req)
    ensures p.Previewed? <==> req.dryRun && Admitted(remote.respond, h, w, req)
    ensures p.Previewed? ==> trace == h + [ListSnapshots] + [PreviewFiles]
    ensures p.FilesFailed? ==> trace == h + [ListSnapshots] + [RestoreFiles]
    ensures p.FilesFailed? || p.Restored? ==> !req.dryRun && Admitted(remote.respond, h, w, req)
    ensures p.Restored? ==> Ok(remote.respond(h + [ListSnapshots] + [RestoreFiles]))
  {
  }

  /** Main result: no container state is touched unless the files were restored, and then
      only as the driver of the container steps allows; a valid package sees a prefix of
      its plan, all of it on success. */
  lemma RunMutations(remote: Remote, h: seq<Action>, w: Surroundings, req: Request,
                     p: Phase, trace: seq<Action>, report: Report, status: Status, stage: Stage)
    returns (d: Driver)
    requires Attempted(remote, h, w, req, p, trace, report, status, stage)
    ensures h <= trace
    ensures !p.Restored? ==> Mutations(trace[|h|..]) == []
    ensures p.Restored? && LeaveAlone(req.job, Effective(req), TargetServer(req)) ==> Mutations(trace[|h|..]) == []
    ensures p.Restored? ==> Effects(d, req.opts.policy, Alias(req), p.post, Mutations(trace[|h|..]))
    ensures p.Restored? && d.ByManifest? ==> ValidManifest(d.c.manifest) && Named(d.c, req.job, Alias(req))
  {
    d := Nobody;
    Prelude(remote, h, w, req, p, trace, report, status, stage);
    if p.Restored? {
      var files := h + [ListSnapshots, RestoreFiles];
      assert h + [ListSnapshots] + [RestoreFiles] == files;
      if Alias(req) != "" {
        AliasIsField(Alias(req));
      }
      d := StepsMutations(remote, files, req, w.resolve(TargetServer(req)).value, trace, p.found, p.post);
      SkipPrelude(h, [ListSnapshots, RestoreFiles], trace);
    } else {
      NoContainerAction(h, w, req, p, trace);
    }
  }

  /** The same of the container steps, from the restored files on. */
  lemma StepsMutations(remote: Remote, files: seq<Action>, req: Request, target: Target, trace: seq<Action>, report: Report, post: Option<Error>)
    returns (d: Driver)
    requires Explained(remote, files, req, target, trace, report, post) && (Alias(req) == "" || FieldOk(Alias(req)))
    ensures files <= trace && Effects(d, req.opts.policy, Alias(req), post, Mutations(trace[|files|..]))
    ensures LeaveAlone(req.job, Effective(req), TargetServer(req)) ==> Mutations(trace[|files|..]) == []
    ensures d.ByManifest? ==> ValidManifest(d.c.manifest) && Named(d.c, req.job, Alias(req))
  {
    d :| PostStory(remote, files, req.job, Effective(req), target, TargetServer(req), d, trace, report, post);
    PostStoryMutations(remote, files, req.job, Effective(req), target, TargetServer(req), d, trace, report, post);
  }

  lemma SkipPrelude(h: seq<Action>, before: seq<Action>, trace: seq<Action>)
    requires h + before <= trace && before == [ListSnapshots, RestoreFiles]
    ensures h <= trace && Mutations(trace[|h|..]) == Mutations(trace[|h + before|..])
  {
    AfterLooking(h, before, trace);
  }

  lemma NoContainerAction(h: seq<Action>, w: Surroundings, req: Request, p: Phase, trace: seq<Action>)
    requires || trace == h + Questions(w, req) || trace == h + [ListSnapshots] + [PreviewFiles]
             || trace == h + [ListSnapshots] + [RestoreFiles]
    ensures h <= trace && Mutations(trace[|h|..]) == []
  {
    if trace == h + Questions(w, req) {
      Harmless(h, Questions(w, req), trace);
    } else if trace == h + [ListSnapshots] + [PreviewFiles] {
      assert trace == h + [ListSnapshots, PreviewFiles];
      Harmless(h, [ListSnapshots, PreviewFiles], trace);
    } else {
      assert trace == h + [ListSnapshots, RestoreFiles];
      Harmless(h, [ListSnapshots, RestoreFiles], trace);
    }
  }
}
