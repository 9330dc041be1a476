/** A whole restore (internal/backup/restore_runner.go): the audit row, the validation,
    the preview or the file restore, the container steps, and the closing of the row. */
module RestoreRun {
  import opened Wrappers
  import opened Text
  import opened Outcomes
  import opened RestoreReport
  import opened Restore
  import opened RestoreSteps

  datatype Request = Request(job: Job, opts: Options, targetServer: string, dryRun: bool, allowUntracked: bool)

  /** What the stores and the secret resolver answer, and which listings hold the
      requested snapshot. */
  datatype Surroundings = Surroundings(
    jobOk: bool,
    secrets: Option<Error>,
    listing: Option<Error>,
    snapshotIn: Response -> bool,
    resolve: string -> Option<Target>,
    assetOk: bool)

  predicate Plausible(w: Surroundings) {
    && (w.secrets.Some? ==> w.secrets.value.marks <= {ContextDone})
    && (w.listing.Some? ==> w.listing.value.marks <= {ContextDone})
  }

  const MAX_NAME_LENGTH := 64

  predicate AliasChar(c: char) {
    'a' <= c <= 'z' || 'A' <= c <= 'Z' || '0' <= c <= '9' || c in "-_."
  }

  /** validateContainerAlias. */
  predicate AliasOk(name: string) {
    && 0 < |name| <= MAX_NAME_LENGTH
    && (forall i :: 0 <= i < |name| ==> AliasChar(name[i]))
    && (forall i :: 0 < i < |name| ==> !(name[i - 1] == '.' && name[i] == '.'))
    && name[0] !in ".-"
  }

  function TargetServer(req: Request): string {
    if req.targetServer == "" then req.job.server else req.targetServer
  }

  function Alias(req: Request): string {
    if req.opts.alias == "" then "" else Trim(req.opts.alias)
  }

  // ----- validation -----

  datatype Preparation = Ready(target: Target) | Rejected(cause: Error)

  /** The checks before the first remote command. */
  predicate Askable(w: Surroundings, req: Request) {
    w.jobOk && (req.opts.alias != "" ==> AliasOk(Alias(req))) && w.secrets.None? && w.listing.None?
  }

  function Questions(w: Surroundings, req: Request): seq<Action> {
    if Askable(w, req) then [ListSnapshots] else []
  }

  predicate Admitted(respond: seq<Action> -> Response, h: seq<Action>, w: Surroundings, req: Request) {
    && Askable(w, req)
    && Ok(respond(h + [ListSnapshots])) && w.snapshotIn(respond(h + [ListSnapshots]))
    && w.resolve(TargetServer(req)).Some? && w.assetOk
  }

  /** Why a request is not admitted: the first check that fails. */
  function Cause(respond: seq<Action> -> Response, h: seq<Action>, w: Surroundings, req: Request): Error {
    if !w.jobOk || (req.opts.alias != "" && !AliasOk(Alias(req))) then PLAIN
    else if w.secrets.Some? then w.secrets.value
    else if w.listing.Some? then w.listing.value
    else if respond(h + [ListSnapshots]).err.Some? then respond(h + [ListSnapshots]).err.value
    else PLAIN
  }

  /** Steps 0 to 4 of the runner. Nothing but the snapshot listing is asked remotely. */
  method Prepare(remote: Remote, w: Surroundings, req: Request) returns (p: Preparation)
    requires remote.AllLawful() && Plausible(w)
    modifies remote
    ensures remote.trace == old(remote.trace) + Questions(w, req)
    ensures p.Ready? <==> Admitted(remote.respond, old(remote.trace), w, req)
    ensures p.Ready? ==> w.resolve(TargetServer(req)) == Some(p.target)
    ensures p.Rejected? ==> p.cause == Cause(remote.respond, old(remote.trace), w, req)
  {
    if !w.jobOk {
      return Rejected(PLAIN);
    }
    if req.opts.alias != "" && !AliasOk(Trim(req.opts.alias)) {
      return Rejected(PLAIN);
    }
    if w.secrets.Some? {
      return Rejected(w.secrets.value);
    }
    if w.listing.Some? {
      return Rejected(w.listing.value);
    }
    var r := remote.Execute(ListSnapshots);
    if r.err.Some? {
      return Rejected(r.err.value);
    }
    if !r.success || !w.snapshotIn(r) {
      return Rejected(PLAIN);
    }
    match w.resolve(TargetServer(req)) {
      case None => return Rejected(PLAIN);
      case Some(target) => return if w.assetOk then Ready(target) else Rejected(PLAIN);
    }
  }

  // ----- how a run goes -----

  /** What came of the attempt, apart from its audit record. */
  datatype Phase =
    | Refused(cause: Error)
    | Previewed(preview: Option<Error>)
    | FilesFailed(failure: Error)
    | Restored(found: Report, post: Option<Error>)

  /** The error of the work itself. */
  function Work(p: Phase): Option<Error> {
    match p
    case Refused(e) => Some(e)
    case Previewed(e) => e
    case FilesFailed(e) => Some(e)
    case Restored(_, e) => e
  }

  /** restoreFailureStatus. */
  function FailureStatus(e: Error): Status {
    if e.Is(ContextDone) then Canceled else Failed
  }

  const NOTHING_DONE := Report(StepFailed, Blocked, Blocked, Blocked)

  const FILES_ONLY := Report(StepDone, Skipped, Skipped, Skipped)

  /** The options as the container steps see them. */
  function Effective(req: Request): Options {
    req.opts.(alias := Alias(req))
  }

  /** The container steps have a story: something drove them. */
  ghost predicate Explained(remote: Remote, h: seq<Action>, req: Request, target: Target,
                            trace: seq<Action>, report: Report, post: Option<Error>)
  {
    exists d :: PostStory(remote, h, req.job, Effective(req), target, TargetServer(req), d, trace, report, post)
  }

  /** The files, up to history `files`, and then the container steps. */
  ghost predicate RestoreAttempted(remote: Remote, files: seq<Action>, req: Request, target: Target,
                                   p: Phase, trace: seq<Action>, report: Report, status: Status, stage: Stage)
  {
    if !Ok(remote.respond(files)) then
      && p.FilesFailed? && trace == files && remote.respond(files).err == Some(p.failure)
      && report == NOTHING_DONE && status == FailureStatus(p.failure) && stage == Execution
    else
      && p.Restored?
      && Explained(remote, files, req, target, trace, p.found, p.post)
      && report == p.found && status == Aggregate(report, false)
      && stage == if p.post.Some? then PostRestore else NoStage
  }

  /** Everything remote about a run from history `h` on, with what the report says. */
  ghost predicate Attempted(remote: Remote, h: seq<Action>, w: Surroundings, req: Request,
                            p: Phase, trace: seq<Action>, report: Report, status: Status, stage: Stage)
  {
    var asked := h + Questions(w, req);
    if !Admitted(remote.respond, h, w, req) then
      && p == Refused(Cause(remote.respond, h, w, req))
      && trace == asked && report == NOTHING_DONE && status == FailureStatus(p.cause) && stage == Validation
    else if req.dryRun then
      && p.Previewed? && trace == asked + [PreviewFiles] && p.preview == remote.respond(trace).err
      && report == (if p.preview.Some? then NOTHING_DONE else FILES_ONLY)
      && status == (if p.preview.Some? then FailureStatus(p.preview.value) else DryRun)
      && stage == (if p.preview.Some? then Execution else NoStage)
    else RestoreAttempted(remote, asked + [RestoreFiles], req, w.resolve(TargetServer(req)).value, p, trace, report, status, stage)
  }

  // ----- the audit record -----

  /** No recorder; a row that could not be created; or a row, with what its closing
      write answered. */
  datatype Audit = NotKept | Gap | Kept(closing: Option<Error>)

  predicate ClosingFailed(a: Audit) {
    a.Kept? && a.closing.Some?
  }

  /** Whether the result is flagged as unaudited in the end. */
  predicate Flagged(p: Phase, status: Status, a: Audit) {
    || a.Gap?
    || (ClosingFailed(a) && !p.Refused? && Work(p).None?)
    || (ClosingFailed(a) && (p.FilesFailed? || p.Restored?) && status == Canceled)
  }

  /** The error a run returns. */
  function Verdict(p: Phase, status: Status, a: Audit): Option<Error> {
    match Work(p)
    case Some(e) =>
      if !ClosingFailed(a) then Some(e)
      else if (p.FilesFailed? || p.Restored?) && status == Canceled then Some(Joined(e, Error({RestoreUntracked}, 0)))
      else Some(Joined(e, Error({RestoreAuditFailed}, 0)))
    case None =>
      if ClosingFailed(a) then Some(Joined(Error({RestoreUntracked}, 0), a.closing.value))
      else if a.Gap? then Some(Error({RestoreUntracked}, 0))
      else None
  }

  /** While a run is under way its row, if it has one, still says so. */
  ghost predicate Open(recorder: Recorder?, id: nat, a: Audit, allowed: bool, before: map<nat, Row>)
    reads recorder
  {
    match a
    case NotKept => recorder == null && id == 0
    case Gap => recorder != null && recorder.Valid() && id == 0 && allowed && recorder.rows == before
    case Kept(closing) =>
      && recorder != null && recorder.Valid() && id > 0 && id !in before && closing.None?
      && recorder.rows == before[id := STARTED]
  }

  /** When it has ended the row holds its outcome, unless the closing write failed. */
  ghost predicate Settled(recorder: Recorder?, id: nat, a: Audit, allowed: bool, before: map<nat, Row>, row: Row)
    reads recorder
  {
    match a
    case Kept(closing) =>
      && recorder != null && recorder.Valid() && id > 0 && id !in before
      && (closing.Some? ==> DatabaseError(closing.value))
      && recorder.rows == before[id := if closing.None? then row else STARTED]
    case _ => Open(recorder, id, a, allowed, before)
  }

  /** The first lines of Run: nothing else happens unless a row was created, the gap is
      allowed, or there is no recorder. */
  method Begin(recorder: Recorder?, allowUntracked: bool) returns (id: nat, refusal: Option<Error>, ghost a: Audit)
    requires recorder != null ==> recorder.Valid()
    modifies recorder
    ensures refusal.None? ==> recorder == null || Open(recorder, id, a, allowUntracked, old(recorder.rows))
    ensures refusal.None? && recorder == null ==> Open(recorder, id, a, allowUntracked, map[])
    ensures refusal.Some? ==> recorder != null && !allowUntracked && recorder.rows == old(recorder.rows)
    ensures refusal.Some? ==> recorder.fails(old(recorder.calls) + 1).Some?
  {
    if recorder == null {
      return 0, None, NotKept;
    }
    var err;
    id, err := recorder.CreateRun(STARTED);
    if err.Some? {
      return 0, if allowUntracked then None else Some(PLAIN), Gap;
    }
    return id, None, Kept(None);
  }

  /** updateRunRecord: only a run that has a row writes one. */
  method UpdateRunRecord(recorder: Recorder?, result: RestoreResult, ghost a: Audit, ghost allowed: bool, ghost before: map<nat, Row>)
    returns (closing: Option<Error>, ghost a': Audit)
    requires Open(recorder, result.id, a, allowed, before)
    modifies recorder
    ensures Settled(recorder, result.id, a', allowed, before, Row(result.status, result.stage, false))
    ensures a' == if a.Kept? then Kept(closing) else a
    ensures closing.Some? ==> a.Kept?
  {
    closing, a' := None, a;
    if recorder != null && result.id > 0 {
      closing := recorder.UpdateRun(result.id, Row(result.status, result.stage, false));
      a' := Kept(closing);
      assert before[result.id := STARTED][result.id := Row(result.status, result.stage, false)]
          == before[result.id := Row(result.status, result.stage, false)];
    }
  }

  /** All steps of a run that failed before the files were in place. */
  method NothingRestored(result: RestoreResult, stage: Stage, e: Error)
    requires result.Valid()
    modifies result
    ensures result.Valid() && result.View() == NOTHING_DONE && result.status == FailureStatus(e) && result.stage == stage
    ensures result.id == old(result.id) && result.untracked == old(result.untracked)
  {
    result.status := if e.Is(ContextDone) then Canceled else Failed;
    result.stage := stage;
    FailStep(result, Files, StepFailed, [Volumes, Database, Compose]);
    SameReport(result.View(), NOTHING_DONE);
  }

  /** failRun. */
  method FailRun(recorder: Recorder?, result: RestoreResult, cause: Error, ghost a: Audit, ghost allowed: bool, ghost before: map<nat, Row>)
    returns (err: Option<Error>, ghost a': Audit)
    requires result.Valid() && Open(recorder, result.id, a, allowed, before) && result.untracked == a.Gap?
    modifies recorder, result
    ensures Settled(recorder, result.id, a', allowed, before, Row(result.status, result.stage, false))
    ensures result.Valid() && result.View() == NOTHING_DONE && result.status == FailureStatus(cause) && result.stage == Validation
    ensures err == Verdict(Refused(cause), result.status, a') && result.untracked == Flagged(Refused(cause), result.status, a')
  {
    NothingRestored(result, Validation, cause);
    var closing;
    closing, a' := UpdateRunRecord(recorder, result, a, allowed, before);
    err := Some(if closing.Some? then Joined(cause, Error({RestoreAuditFailed}, 0)) else cause);
  }

  /** 6. The preview. */
  method Preview(remote: Remote, result: RestoreResult) returns (work: Option<Error>)
    requires result.Valid() && result.View() == SEEDED
    modifies remote, result
    ensures remote.trace == old(remote.trace) + [PreviewFiles] && work == remote.respond(remote.trace).err
    ensures result.Valid() && result.View() == if work.Some? then NOTHING_DONE else FILES_ONLY
    ensures result.status == if work.Some? then FailureStatus(work.value) else DryRun
    ensures result.stage == if work.Some? then Execution else NoStage
    ensures result.id == old(result.id) && result.untracked == old(result.untracked)
  {
    var r := remote.Execute(PreviewFiles);
    work := r.err;
    if work.Some? {
      NothingRestored(result, Execution, work.value);
    } else {
      result.status, result.stage := DryRun, NoStage;
      result.SetStep(Files, StepDone);
      result.SkipContainerSteps();
      SameReport(result.View(), FILES_ONLY);
    }
  }

  /** The ending of a preview. */
  method ConcludePreview(recorder: Recorder?, result: RestoreResult, work: Option<Error>,
                         ghost a: Audit, ghost allowed: bool, ghost before: map<nat, Row>)
    returns (err: Option<Error>, ghost a': Audit)
    requires Open(recorder, result.id, a, allowed, before) && result.untracked == a.Gap?
    modifies recorder, result`untracked
    ensures Settled(recorder, result.id, a', allowed, before, Row(result.status, result.stage, false))
    ensures err == Verdict(Previewed(work), result.status, a')
    ensures result.untracked == Flagged(Previewed(work), result.status, a')
  {
    var closing;
    closing, a' := UpdateRunRecord(recorder, result, a, allowed, before);
    if work.Some? {
      return Some(if closing.Some? then Joined(work.value, Error({RestoreAuditFailed}, 0)) else work.value), a';
    }
    if result.untracked {
      return Some(Error({RestoreUntracked}, 0)), a';
    }
    if closing.Some? {
      result.untracked := true;
      return Some(Joined(Error({RestoreUntracked}, 0), closing.value)), a';
    }
    return None, a';
  }

  /** 7. The files. */
  method RestoreFilesOnly(remote: Remote, result: RestoreResult) returns (failure: Option<Error>)
    requires result.Valid() && result.View() == SEEDED && result.stage == NoStage && remote.AllLawful()
    modifies remote, result
    ensures remote.trace == old(remote.trace) + [RestoreFiles] && failure == remote.respond(remote.trace).err
    ensures result.Valid() && result.View() == if failure.Some? then NOTHING_DONE else FILES_ONLY
    ensures failure.Some? ==> result.status == FailureStatus(failure.value)
    ensures result.stage == if failure.Some? then Execution else NoStage
    ensures result.id == old(result.id) && result.untracked == old(result.untracked)
  {
    var r := remote.Execute(RestoreFiles);
    failure := r.err;
    if failure.None? && r.success {
      result.SetStep(Files, StepDone);
      SameReport(result.View(), FILES_ONLY);
    } else {
      NothingRestored(result, Execution, failure.value);
    }
  }

  /** The container steps after a successful file restore. */
  method ContainerSteps(remote: Remote, result: RestoreResult, req: Request, target: Target)
    returns (work: Option<Error>, ghost report: Report)
    requires result.Valid() && result.View() == FILES_ONLY && remote.AllLawful()
    modifies remote, result`steps
    ensures result.Valid() && result.View() == report
    ensures Explained(remote, old(remote.trace), req, target, remote.trace, report, work)
  {
    ghost var d;
    work, d := RunPostRestoreSteps(remote, result, req.job, Effective(req), target, TargetServer(req));
    report := result.View();
  }

  method Classify(result: RestoreResult, work: Option<Error>)
    requires result.Valid() && result.stage == NoStage
    modifies result`status, result`stage
    ensures result.Valid() && result.View() == old(result.View())
    ensures result.status == Aggregate(result.View(), false) && result.stage == if work.Some? then PostRestore else NoStage
  {
    if work.Some? {
      result.stage := PostRestore;
    }
    result.status := result.AggregateStatus(false);
  }

  /** 7 and 8. The files, then the container steps; the status follows from the report. */
  method RestoreEverything(remote: Remote, result: RestoreResult, req: Request, target: Target)
    returns (work: Option<Error>, ghost p: Phase)
    requires result.Valid() && result.View() == SEEDED && result.stage == NoStage && remote.AllLawful()
    modifies remote, result
    ensures result.Valid() && work == Work(p) && result.id == old(result.id) && result.untracked == old(result.untracked)
    ensures p.FilesFailed? || p.Restored?
    ensures RestoreAttempted(remote, old(remote.trace) + [RestoreFiles], req, target, p, remote.trace,
                             result.View(), result.status, result.stage)
  {
    work := RestoreFilesOnly(remote, result);
    if work.Some? {
      p := FilesFailed(work.value);
    } else {
      work, p := RestoreContainers(remote, result, req, target);
    }
  }

  /** 8. With the files in place. */
  method RestoreContainers(remote: Remote, result: RestoreResult, req: Request, target: Target)
    returns (work: Option<Error>, ghost p: Phase)
    requires result.Valid() && result.View() == FILES_ONLY && result.stage == NoStage && remote.AllLawful()
    requires Ok(remote.respond(remote.trace))
    modifies remote, result`steps, result`status, result`stage
    ensures result.Valid() && work == Work(p) && p.Restored?
    ensures RestoreAttempted(remote, old(remote.trace), req, target, p, remote.trace, result.View(), result.status, result.stage)
  {
    ghost var report;
    work, report := ContainerSteps(remote, result, req, target);
    p := Restored(report, work);
    Classify(result, work);
    RestoredAttempt(remote, old(remote.trace), req, target, remote.trace, report, work);
  }

  lemma RestoredAttempt(remote: Remote, files: seq<Action>, req: Request, target: Target,
                        trace: seq<Action>, report: Report, post: Option<Error>)
    requires Ok(remote.respond(files)) && Explained(remote, files, req, target, trace, report, post)
    ensures RestoreAttempted(remote, files, req, target, Restored(report, post), trace, report, Aggregate(report, false),
                             if post.Some? then PostRestore else NoStage)
  {
  }

  /** The ending of an actual restore. */
  method Conclude(recorder: Recorder?, result: RestoreResult, work: Option<Error>, ghost p: Phase,
                  ghost a: Audit, ghost allowed: bool, ghost before: map<nat, Row>)
    returns (err: Option<Error>, ghost a': Audit)
    requires Open(recorder, result.id, a, allowed, before) && result.untracked == a.Gap?
    requires (p.FilesFailed? || p.Restored?) && work == Work(p)
    modifies recorder, result`untracked
    ensures Settled(recorder, result.id, a', allowed, before, Row(result.status, result.stage, false))
    ensures err == Verdict(p, result.status, a') && result.untracked == Flagged(p, result.status, a')
  {
    var closing;
    closing, a' := UpdateRunRecord(recorder, result, a, allowed, before);
    if closing.Some? {
      if work.None? {
        result.untracked := true;
        return Some(Joined(Error({RestoreUntracked}, 0), closing.value)), a';
      }
      if result.status == Canceled {
        result.untracked := true;
        return Some(Joined(work.value, Error({RestoreUntracked}, 0))), a';
      }
      return Some(Joined(work.value, Error({RestoreAuditFailed}, 0))), a';
    }
    if result.untracked && work.None? {
      return Some(Error({RestoreUntracked}, 0)), a';
    }
    return work, a';
  }

  /** An admitted restore that is not a preview. */
  method RestoreAndConclude(remote: Remote, recorder: Recorder?, result: RestoreResult, req: Request, target: Target,
                            ghost a: Audit, ghost before: map<nat, Row>)
    returns (err: Option<Error>, ghost p: Phase, ghost a': Audit)
    requires result.Valid() && result.View() == SEEDED && result.stage == NoStage && result.untracked == a.Gap?
    requires Open(recorder, result.id, a, req.allowUntracked, before) && remote.AllLawful()
    modifies remote, recorder, result
    ensures result.Valid()
    ensures RestoreAttempted(remote, old(remote.trace) + [RestoreFiles], req, target, p, remote.trace,
                             result.View(), result.status, result.stage)
    ensures Settled(recorder, result.id, a', req.allowUntracked, before, Row(result.status, result.stage, false))
    ensures err == Verdict(p, result.status, a') && result.untracked == Flagged(p, result.status, a')
  {
    var work;
    work, p := RestoreEverything(remote, result, req, target);
    err, a' := Conclude(recorder, result, work, p, a, req.allowUntracked, before);
  }

  /** Everything between the opening and the closing of the row. */
  method Proceed(remote: Remote, recorder: Recorder?, result: RestoreResult, w: Surroundings, req: Request,
                 ghost a: Audit, ghost before: map<nat, Row>)
    returns (err: Option<Error>, ghost p: Phase, ghost a': Audit)
    requires result.Valid() && result.View() == SEEDED && result.stage == NoStage && result.untracked == a.Gap?
    requires Open(recorder, result.id, a, req.allowUntracked, before) && remote.AllLawful() && Plausible(w)
    modifies remote, recorder, result
    ensures result.Valid()
    ensures Attempted(remote, old(remote.trace), w, req, p, remote.trace, result.View(), result.status, result.stage)
    ensures Settled(recorder, result.id, a', req.allowUntracked, before, Row(result.status, result.stage, false))
    ensures err == Verdict(p, result.status, a') && result.untracked == Flagged(p, result.status, a')
  {
    var prepared := Prepare(remote, w, req);
    if prepared.Rejected? {
      p := Refused(prepared.cause);
      err, a' := FailRun(recorder, result, prepared.cause, a, req.allowUntracked, before);
    } else if req.dryRun {
      var work := Preview(remote, result);
      p := Previewed(work);
      err, a' := ConcludePreview(recorder, result, work, a, req.allowUntracked, before);
    } else {
      err, p, a' := RestoreAndConclude(remote, recorder, result, req, prepared.target, a, before);
    }
  }

  /** Run. */
  method Run(remote: Remote, recorder: Recorder?, w: Surroundings, req: Request)
    returns (result: RestoreResult?, err: Option<Error>, ghost p: Phase, ghost a: Audit)
    requires (recorder != null ==> recorder.Valid()) && remote.AllLawful() && Plausible(w)
    modifies remote, recorder
    ensures result == null ==> recorder != null && !req.allowUntracked && err.Some? && recorder.fails(old(recorder.calls) + 1).Some?
    ensures result == null ==> remote.trace == old(remote.trace) && recorder.rows == old(recorder.rows)
    ensures result != null ==> fresh(result) && result.Valid()
    ensures result != null ==>
              Attempted(remote, old(remote.trace), w, req, p, remote.trace, result.View(), result.status, result.stage)
    ensures result != null ==>
              Settled(recorder, result.id, a, req.allowUntracked, if recorder == null then map[] else old(recorder.rows),
                      Row(result.status, result.stage, false))
    ensures result != null ==> err == Verdict(p, result.status, a) && result.untracked == Flagged(p, result.status, a)
  {
    ghost var before := if recorder == null then map[] else recorder.rows;
    var id, refusal;
    id, refusal, a := Begin(recorder, req.allowUntracked);
    if refusal.Some? {
      return null, refusal, Refused(PLAIN), Gap;
    }
    result := new RestoreResult(id, recorder != null && id == 0);
    err, p, a := Proceed(remote, recorder, result, w, req, a, before);
  }
}
