/** The audit trail of backups (internal/backup/runner.go and container_runner.go): the
    row before the first remote command, the closing write, and the deferred guard of the
    container backup. */
module BackupAudit {
  import opened Wrappers
  import opened Outcomes

  /** Remote commands of a backup. Cleaning stale scratch files is best effort. */
  datatype Command =
    | Backup
    | Inspect
    | CleanStale
    | ExportVolume(name: string)
    | DumpDatabase
    | WriteCompose
    | WriteManifest
    | RemoveScratch

  /** What `docker inspect` and the local stores say about a container. */
  datatype Layout = Layout(volumes: seq<string>, database: bool, compose: bool, secretsConfirmed: bool,
                           dumpScriptOk: bool, composeOk: bool, hasBackend: bool)

  /** executor.Result, its error, and what the output decodes to. */
  datatype Answer = Answer(success: bool, err: Option<Error>, layout: Option<Layout>)

  /** The executor contract. */
  predicate Lawful(r: Answer) {
    (r.err.None? <==> r.success) && (r.err.Some? ==> r.err.value.marks <= {ContextDone})
  }

  class Host {
    const respond: seq<Command> -> Answer
    var trace: seq<Command>

    constructor (respond: seq<Command> -> Answer)
      ensures this.respond == respond && trace == []
    {
      this.respond, trace := respond, [];
    }

    ghost predicate AllLawful() {
      forall h :: Lawful(respond(h))
    }

    method Execute(c: Command) returns (r: Answer)
      modifies this
      ensures trace == old(trace) + [c] && r == respond(trace)
    {
      trace := trace + [c];
      r := respond(trace);
    }
  }

  /** storage.BackupRun, as far as the audit is concerned. */
  class BackupRun {
    var id: nat
    var status: Status
    var untracked: bool

    constructor ()
      ensures id == 0 && status == Running && !untracked
    {
      id, status, untracked := 0, Running, false;
    }

    function AsRow(): Row
      reads this
    {
      Row(status, NoStage, untracked)
    }
  }

  // ----- the life of a row -----

  /** How the row began: there is no recorder, it could not be created, or it exists. */
  datatype Tracking = NoRecorder | Lost | Recorded

  /** A run under way: nothing may be executed remotely unless this holds. */
  ghost predicate Open(recorder: Recorder?, run: BackupRun, t: Tracking, allowed: bool, before: map<nat, Row>)
    reads recorder, run
  {
    run.status == Running && HasRow(recorder, run, t, allowed, before)
  }

  /** The row as it was begun, if there is one. */
  ghost predicate HasRow(recorder: Recorder?, run: BackupRun, t: Tracking, allowed: bool, before: map<nat, Row>)
    reads recorder, run
  {
    && run.untracked == t.Lost?
    && match t
       case NoRecorder => recorder == null && run.id == 0
       case Lost => recorder != null && recorder.Valid() && allowed && run.id == 0 && recorder.rows == before
       case Recorded =>
         && recorder != null && recorder.Valid() && run.id > 0 && run.id !in before
         && recorder.rows == before[run.id := STARTED]
  }

  /** A finished run: the row holds the outcome unless the closing write failed, and that
      failure is flagged. A run without a row got one last chance to leave one. */
  ghost predicate Settled(recorder: Recorder?, run: BackupRun, t: Tracking, allowed: bool, before: map<nat, Row>, written: bool)
    reads recorder, run
  {
    && Terminal(run.status) && run.untracked == Flag(t, written)
    && match t
       case NoRecorder => recorder == null && run.id == 0 && written
       case Lost =>
         && recorder != null && recorder.Valid() && allowed
         && (if written then run.id > 0 && run.id !in before && recorder.rows == before[run.id := run.AsRow()]
             else run.id == 0 && recorder.rows == before)
       case Recorded =>
         && recorder != null && recorder.Valid() && run.id > 0 && run.id !in before
         && recorder.rows == before[run.id := if written then run.AsRow() else STARTED]
  }

  predicate Flag(t: Tracking, written: bool) {
    t.Lost? || (t.Recorded? && !written)
  }

  /** The status a finished run gets. */
  function FinalStatus(success: bool, err: Option<Error>): Status {
    if success then Success
    else if err.Some? && err.value.Is(ContextDone) then Canceled
    else Failed
  }

  /** The error finalizeRun hands on. */
  function FinalError(t: Tracking, written: bool, err: Option<Error>): Option<Error> {
    if t.Recorded? && !written && (err.None? || err.value.Is(ContextDone)) then Some(Error({Untracked}, 0)) else err
  }

  /** beginRun: fails closed. */
  method BeginRun(recorder: Recorder?, allowUntracked: bool) returns (run: BackupRun?, err: Option<Error>, ghost t: Tracking)
    requires recorder != null ==> recorder.Valid()
    modifies recorder
    ensures run == null <==> err.Some?
    ensures run != null ==> fresh(run) && Open(recorder, run, t, allowUntracked, if recorder == null then map[] else old(recorder.rows))
    ensures run == null ==> recorder != null && !allowUntracked && recorder.rows == old(recorder.rows)
    ensures run == null ==> t.Lost?
    ensures recorder != null ==> recorder.calls == old(recorder.calls) + 1 && (t.Lost? <==> recorder.fails(recorder.calls).Some?)
    ensures err.Some? ==> err.value.marks <= {ContextDone}
  {
    run := new BackupRun();
    if recorder == null {
      return run, None, NoRecorder;
    }
    var id, failure := recorder.CreateRun(run.AsRow());
    if failure.Some? {
      if !allowUntracked {
        return null, failure, Lost;
      }
      run.untracked := true;
      return run, None, Lost;
    }
    run.id := id;
    return run, None, Recorded;
  }

  /** finalizeRun. */
  method FinalizeRun(recorder: Recorder?, run: BackupRun, success: bool, err: Option<Error>,
                     ghost t: Tracking, ghost allowed: bool, ghost before: map<nat, Row>)
    returns (out: Option<Error>, ghost written: bool)
    requires Open(recorder, run, t, allowed, before)
    modifies recorder, run
    ensures Settled(recorder, run, t, allowed, before, written)
    ensures run.status == FinalStatus(success, err) && out == FinalError(t, written, err)
    ensures recorder != null ==> recorder.calls == old(recorder.calls) + 1 && (written <==> recorder.fails(recorder.calls).None?)
  {
    if success {
      run.status := Success;
    } else if err.Some? && err.value.Is(ContextDone) {
      run.status := Canceled;
    } else {
      run.status := Failed;
    }
    var wasUntracked := run.untracked;
    var failure := Persist(recorder, run, t, allowed, before);
    out, written := err, failure.None?;
    if failure.Some? && !wasUntracked && (err.None? || err.value.Is(ContextDone)) {
      out := Some(Error({Untracked}, 0));
    }
  }

  /** The closing write. A run without a row tries to leave one after all. */
  method Persist(recorder: Recorder?, run: BackupRun, ghost t: Tracking, ghost allowed: bool, ghost before: map<nat, Row>)
    returns (failure: Option<Error>)
    requires HasRow(recorder, run, t, allowed, before) && Terminal(run.status)
    modifies recorder, run`id, run`untracked
    ensures Settled(recorder, run, t, allowed, before, failure.None?)
    ensures recorder != null ==> recorder.calls == old(recorder.calls) + 1 && failure == recorder.fails(recorder.calls)
  {
    failure := None;
    if recorder != null {
      if run.id > 0 {
        failure := recorder.UpdateRun(run.id, run.AsRow());
        assert before[run.id := STARTED][run.id := run.AsRow()] == before[run.id := run.AsRow()];
      } else {
        var id;
        id, failure := recorder.CreateRun(run.AsRow());
        run.id := id;
      }
      if failure.Some? {
        run.untracked := true;
      }
    }
  }

  /** executeRun. `unready` is a secret that cannot be resolved or a script that cannot be built. */
  method ExecuteRun(host: Host, recorder: Recorder?, run: BackupRun, unready: Option<Error>,
                    ghost t: Tracking, ghost allowed: bool, ghost before: map<nat, Row>)
    returns (out: Option<Error>, ghost written: bool, ghost work: Option<Error>)
    requires Open(recorder, run, t, allowed, before) && host.AllLawful() && (unready.Some? ==> unready.value.marks <= {ContextDone})
    modifies host, recorder, run
    ensures Settled(recorder, run, t, allowed, before, written)
    ensures host.trace == old(host.trace) + if unready.Some? then [] else [Backup]
    ensures work == if unready.Some? then unready else host.respond(host.trace).err
    ensures recorder != null ==> recorder.calls == old(recorder.calls) + 1 && (written <==> recorder.fails(recorder.calls).None?)
    ensures run.status == FinalStatus(work.None?, work) && out == FinalError(t, written, work)
  {
    if unready.Some? {
      out, written := FinalizeRun(recorder, run, false, unready, t, allowed, before);
      return out, written, unready;
    }
    var r := host.Execute(Backup);
    out, written := FinalizeRun(recorder, run, r.err.None? && r.success, r.err, t, allowed, before);
    work := r.err;
  }

  /** Run: one backup job. */
  method Run(host: Host, recorder: Recorder?, allowUntracked: bool, invalid: Option<Error>, unready: Option<Error>)
    returns (run: BackupRun?, err: Option<Error>, ghost t: Tracking, ghost written: bool, ghost work: Option<Error>)
    requires (recorder != null ==> recorder.Valid()) && host.AllLawful()
    requires unready.Some? ==> unready.value.marks <= {ContextDone}
    modifies host, recorder
    ensures run == null ==> err.Some? && host.trace == old(host.trace)
    ensures run == null && recorder != null ==> recorder.rows == old(recorder.rows)
    ensures run == null <==> invalid.Some? || (recorder != null && !allowUntracked && t.Lost?)
    ensures run != null ==>
              && Settled(recorder, run, t, allowUntracked, if recorder == null then map[] else old(recorder.rows), written)
              && host.trace == old(host.trace) + (if unready.Some? then [] else [Backup])
              && work == (if unready.Some? then unready else host.respond(host.trace).err)
              && run.status == FinalStatus(work.None?, work) && err == FinalError(t, written, work)
  {
    if invalid.Some? {
      return null, invalid, NoRecorder, true, None;
    }
    ghost var before := if recorder == null then map[] else recorder.rows;
    run, err, t := BeginRun(recorder, allowUntracked);
    if err.Some? {
      return null, err, t, false, None;
    }
    err, written, work := ExecuteRun(host, recorder, run, unready, t, allowUntracked, before);
  }

  // ----- the container backup -----

  function Exports(volumes: seq<string>): (e: seq<Command>)
    ensures |e| == |volumes| && forall i :: 0 <= i < |e| ==> e[i] == ExportVolume(volumes[i])
  {
    seq(|volumes|, i requires 0 <= i < |volumes| => ExportVolume(volumes[i]))
  }

  /** The artifacts the snapshot has to contain, in the order they are made. */
  function Artifacts(l: Layout): seq<Command> {
    Exports(l.volumes) + (if l.database then [DumpDatabase] else []) + (if l.compose then [] else [WriteCompose]) + [WriteManifest]
  }

  /** Executed after `h`, each of these commands succeeds. */
  predicate AllOk(respond: seq<Command> -> Answer, h: seq<Command>, cs: seq<Command>)
    decreases |cs|
  {
    cs == [] || (AllOk(respond, h, cs[..|cs| - 1]) && respond(h + cs).success)
  }

  lemma AllOkOne(respond: seq<Command> -> Answer, h: seq<Command>, cs: seq<Command>, c: Command)
    requires AllOk(respond, h, cs) && respond((h + cs) + [c]).success
    ensures AllOk(respond, h, cs + [c])
  {
    assert (cs + [c])[..|cs + [c]| - 1] == cs;
    assert h + (cs + [c]) == (h + cs) + [c];
  }

  /** One required artifact after the `made` ones. */
  method Make(host: Host, c: Command, ghost h: seq<Command>, ghost made: seq<Command>) returns (err: Option<Error>)
    requires host.AllLawful() && host.trace == h + made && AllOk(host.respond, h, made)
    modifies host
    ensures host.trace == h + (made + [c])
    ensures err.None? ==> AllOk(host.respond, h, made + [c])
    ensures err.Some? ==> err.value == PLAIN && !host.respond(h + (made + [c])).success
  {
    var r := host.Execute(c);
    assert h + (made + [c]) == (h + made) + [c];
    if r.err.Some? || !r.success {
      return Some(PLAIN);
    }
    AllOkOne(host.respond, h, made, c);
    return None;
  }

  /** The first `n` of `all` were executed after `h`; all of them well, or all but the last. */
  predicate Stopped(respond: seq<Command> -> Answer, h: seq<Command>, all: seq<Command>, n: nat, ok: bool) {
    && n <= |all|
    && if ok then AllOk(respond, h, all[..n])
       else n > 0 && AllOk(respond, h, all[..n - 1]) && !respond(h + all[..n]).success
  }

  /** The mounts: each named volume is exported, up to the first failure. `temp` counts what
      has to be removed. */
  method ExportVolumes(host: Host, volumes: seq<string>) returns (err: Option<Error>, temp: nat, ghost n: nat)
    requires host.AllLawful()
    modifies host
    ensures err.Some? ==> err.value == PLAIN
    ensures Stopped(host.respond, old(host.trace), Exports(volumes), n, err.None?)
    ensures host.trace == old(host.trace) + Exports(volumes)[..n]
    ensures if err.None? then n == |volumes| && temp == n else temp == n - 1
  {
    ghost var h, all := host.trace, Exports(volumes);
    temp := 0;
    for i := 0 to |volumes|
      invariant temp == i && host.trace == h + all[..i] && AllOk(host.respond, h, all[..i])
    {
      assert all[..i + 1] == all[..i] + [ExportVolume(volumes[i])];
      var failure := Make(host, ExportVolume(volumes[i]), h, all[..i]);
      if failure.Some? {
        return failure, temp, i + 1;
      }
      temp := temp + 1;
    }
    return None, temp, |volumes|;
  }

  /** Where the dump, the compose file and the manifest stop short of a command: a script or
      a file that cannot be generated. */
  predicate Blocked(l: Layout, n: nat) {
    var v, d := |l.volumes|, if l.database then 1 else 0;
    || (l.database && !l.dumpScriptOk && n == v)
    || (!l.compose && !l.composeOk && n == v + d)
  }

  /** The artifacts from the `n`-th on have the volumes behind them. */
  lemma ArtifactsAt(l: Layout)
    ensures var all, v, d := Artifacts(l), |l.volumes|, if l.database then 1 else 0;
            && |all| == v + d + (if l.compose then 0 else 1) + 1 && all[..v] == Exports(l.volumes)
            && (l.database ==> all[v] == DumpDatabase)
            && (!l.compose ==> all[v + d] == WriteCompose)
            && all[|all| - 1] == WriteManifest
  {
  }

  /** The next artifact, after `n` good ones. */
  method MakeNext(host: Host, ghost l: Layout, c: Command, ghost n: nat, ghost h: seq<Command>)
    returns (err: Option<Error>)
    requires host.AllLawful() && n < |Artifacts(l)| && c == Artifacts(l)[n]
    requires host.trace == h + Artifacts(l)[..n] && AllOk(host.respond, h, Artifacts(l)[..n])
    modifies host
    ensures host.trace == h + Artifacts(l)[..n + 1] && Stopped(host.respond, h, Artifacts(l), n + 1, err.None?)
    ensures err.Some? ==> err.value == PLAIN
  {
    ghost var all := Artifacts(l);
    assert all[..n + 1] == all[..n] + [c] && all[..n + 1 - 1] == all[..n];
    err := Make(host, c, h, all[..n]);
  }

  /** An artifact that may not be wanted, or may turn out not to be generated. */
  method MakeIfWanted(host: Host, ghost l: Layout, wanted: bool, possible: bool, c: Command, ghost n: nat, ghost h: seq<Command>)
    returns (err: Option<Error>, ghost n': nat, ghost ok: bool)
    requires host.AllLawful() && n <= |Artifacts(l)| && (wanted ==> n < |Artifacts(l)| && c == Artifacts(l)[n])
    requires host.trace == h + Artifacts(l)[..n] && AllOk(host.respond, h, Artifacts(l)[..n])
    modifies host
    ensures Stopped(host.respond, h, Artifacts(l), n', ok) && host.trace == h + Artifacts(l)[..n']
    ensures err.None? <==> ok && (wanted ==> possible)
    ensures err.Some? ==> err.value == PLAIN
    ensures n' == if wanted && possible then n + 1 else n
    ensures !(wanted && possible) ==> ok
  {
    err, n', ok := None, n, true;
    if wanted {
      if !possible {
        return Some(PLAIN), n', ok;
      }
      err := MakeNext(host, l, c, n, h);
      n', ok := n + 1, err.None?;
    }
  }

  /** The dump, the compose file and the manifest, after the volumes. */
  method WriteArtifacts(host: Host, l: Layout, temp: nat, ghost h: seq<Command>)
    returns (err: Option<Error>, temp': nat, ghost n: nat, ghost ok: bool)
    requires host.AllLawful() && host.trace == h + Exports(l.volumes) && AllOk(host.respond, h, Exports(l.volumes))
    modifies host
    ensures Stopped(host.respond, h, Artifacts(l), n, ok) && host.trace == h + Artifacts(l)[..n]
    ensures n >= |l.volumes| && (n == |l.volumes| ==> ok)
    ensures err.None? <==> ok && n == |Artifacts(l)|
    ensures err.Some? ==> err.value == PLAIN && (ok ==> Blocked(l, n))
    ensures temp' == temp + if l.database then 1 else 0
  {
    temp' := temp + if l.database then 1 else 0;
    ArtifactsAt(l);
    err, n, ok := MakeIfWanted(host, l, l.database, l.dumpScriptOk, DumpDatabase, |l.volumes|, h);
    if err.None? {
      err, n, ok := MakeIfWanted(host, l, !l.compose, l.composeOk, WriteCompose, n, h);
      if err.None? {
        err, n, ok := MakeIfWanted(host, l, true, true, WriteManifest, n, h);
      }
    }
  }

  /** The container was inspected and may be backed up. */
  predicate Usable(respond: seq<Command> -> Answer, h: seq<Command>) {
    var r := respond(h + [Inspect]);
    r.success && r.layout.Some? && (r.layout.value.compose || r.layout.value.secretsConfirmed)
  }

  function LayoutOf(respond: seq<Command> -> Answer, h: seq<Command>): Layout
    requires Usable(respond, h)
  {
    respond(h + [Inspect]).layout.value
  }

  /** The history after `n` artifacts. */
  function Made(respond: seq<Command> -> Answer, h: seq<Command>, n: nat): seq<Command>
    requires Usable(respond, h) ==> n <= |Artifacts(LayoutOf(respond, h))|
  {
    if Usable(respond, h) then h + [Inspect] + [CleanStale] + Artifacts(LayoutOf(respond, h))[..n] else h + [Inspect]
  }

  /** What was executed before the snapshot: the inspection, and if it says so the artifacts,
      in order and up to the first that fails or cannot be generated. */
  predicate Assembled(respond: seq<Command> -> Answer, h: seq<Command>, n: nat, ok: bool) {
    if Usable(respond, h) then
      var l := LayoutOf(respond, h);
      && Stopped(respond, h + [Inspect] + [CleanStale], Artifacts(l), n, ok)
      && (!ok || n == |Artifacts(l)| || Blocked(l, n))
    else n == 0 && ok
  }

  /** Everything is there for the snapshot. */
  predicate Complete(respond: seq<Command> -> Answer, h: seq<Command>, n: nat, ok: bool) {
    Usable(respond, h) && ok && n == |Artifacts(LayoutOf(respond, h))| && LayoutOf(respond, h).hasBackend
  }

  /** How many archives and dumps were registered for removal: each volume exported well, and
      the dump as soon as it is about to be made. */
  function Registered(respond: seq<Command> -> Answer, h: seq<Command>, n: nat, ok: bool): nat
    requires !ok ==> n > 0
  {
    if !Usable(respond, h) then 0
    else
      var l := LayoutOf(respond, h);
      var good := if ok then n else n - 1;
      if good < |l.volumes| then good else |l.volumes| + if l.database then 1 else 0
  }

  /** The error of a container backup that stops early: only that of the inspection keeps its
      cause. */
  function EarlyError(respond: seq<Command> -> Answer, h: seq<Command>): Error {
    if respond(h + [Inspect]).err.Some? then respond(h + [Inspect]).err.value else PLAIN
  }

  /** Steps 1 to 6: what has to be there before the snapshot is taken. */
  method Assemble(host: Host) returns (err: Option<Error>, temp: nat, ghost n: nat, ghost ok: bool)
    requires host.AllLawful()
    modifies host
    ensures Assembled(host.respond, old(host.trace), n, ok) && host.trace == Made(host.respond, old(host.trace), n)
    ensures err == if Complete(host.respond, old(host.trace), n, ok) then None else Some(EarlyError(host.respond, old(host.trace)))
    ensures temp == Registered(host.respond, old(host.trace), n, ok)
  {
    ghost var h := host.trace;
    temp, n, ok := 0, 0, true;
    var r := host.Execute(Inspect);
    if r.err.Some? {
      return r.err, temp, n, ok;
    }
    if !r.success || r.layout.None? {
      return Some(PLAIN), temp, n, ok;
    }
    var l := r.layout.value;
    if !l.compose && !l.secretsConfirmed {
      return Some(PLAIN), temp, n, ok;
    }
    var _ := host.Execute(CleanStale);
    err, temp, n, ok := MakeArtifacts(host, l);
    if err.None? && !l.hasBackend {
      err := Some(PLAIN);
    }
  }

  method MakeArtifacts(host: Host, l: Layout) returns (err: Option<Error>, temp: nat, ghost n: nat, ghost ok: bool)
    requires host.AllLawful()
    modifies host
    ensures Stopped(host.respond, old(host.trace), Artifacts(l), n, ok) && host.trace == old(host.trace) + Artifacts(l)[..n]
    ensures err.None? <==> ok && n == |Artifacts(l)|
    ensures err.Some? ==> err.value == PLAIN && (ok ==> Blocked(l, n))
    ensures var good := if ok then n else n - 1;
            temp == if good < |l.volumes| then good else |l.volumes| + if l.database then 1 else 0
  {
    ghost var h := host.trace;
    err, temp, n := ExportVolumes(host, l.volumes);
    ok := err.None?;
    ArtifactsAt(l);
    ghost var all := Artifacts(l);
    assert all[..n] == Exports(l.volumes)[..n];
    if err.None? {
      assert Exports(l.volumes)[..n] == Exports(l.volumes);
      err, temp, n, ok := WriteArtifacts(host, l, temp, h);
    } else {
      assert all[..n - 1] == Exports(l.volumes)[..n - 1];
    }
  }

  /** How a container backup that never got to the snapshot is left: its row closed, but
      only if it had one. */
  ghost predicate Aborted(recorder: Recorder?, run: BackupRun, t: Tracking, allowed: bool, before: map<nat, Row>,
                          written: bool, err: Option<Error>)
    reads recorder, run
  {
    && err.Some?
    && if t.Recorded? then Settled(recorder, run, t, allowed, before, written) && run.status == FinalStatus(false, err)
       else Open(recorder, run, t, allowed, before)
  }

  /** What was executed in all: what came before the snapshot, the snapshot if everything was
      there, and at every exit the removal of what had been registered. */
  predicate Executed(respond: seq<Command> -> Answer, h: seq<Command>, n: nat, ok: bool, reached: bool, ready: bool, trace: seq<Command>) {
    && Assembled(respond, h, n, ok) && (reached <==> Complete(respond, h, n, ok))
    && trace == Made(respond, h, n) + (if reached && ready then [Backup] else [])
                + if Registered(respond, h, n, ok) > 0 then [RemoveScratch] else []
  }

  /** How a container backup is left: closed by the snapshot's own ending, or aborted. */
  ghost predicate Left(recorder: Recorder?, run: BackupRun, t: Tracking, allowed: bool, before: map<nat, Row>,
                       written: bool, reached: bool, work: Option<Error>)
    reads recorder, run
  {
    && (work.Some? ==> work.value.marks <= {ContextDone})
    && if reached then Settled(recorder, run, t, allowed, before, written) && run.status == FinalStatus(work.None?, work)
       else Aborted(recorder, run, t, allowed, before, written, work)
  }

  /** Everything behind the audit row, with the two deferred functions at the end. */
  method BackUp(host: Host, recorder: Recorder?, record: BackupRun, unready: Option<Error>,
                ghost t: Tracking, ghost allowed: bool, ghost before: map<nat, Row>)
    returns (err: Option<Error>, ghost written: bool, ghost reached: bool, ghost work: Option<Error>, ghost n: nat, ghost ok: bool)
    requires Open(recorder, record, t, allowed, before) && host.AllLawful() && (unready.Some? ==> unready.value.marks <= {ContextDone})
    modifies host, recorder, record
    ensures Left(recorder, record, t, allowed, before, written, reached, work)
    ensures err == ReportedError(reached, t, written, work)
    ensures Executed(host.respond, old(host.trace), n, ok, reached, unready.None?, host.trace)
    ensures !reached ==> work == Some(EarlyError(host.respond, old(host.trace)))
    ensures recorder != null && t.Recorded? ==> (written <==> recorder.fails(old(recorder.calls) + 1).None?)
  {
    var early, temp;
    early, temp, n, ok := Assemble(host);
    reached := early.None?;
    assert Lawful(host.respond(old(host.trace) + [Inspect]));
    err, written, work := Finish(host, recorder, record, unready, early, temp, t, allowed, before);
  }

  /** The snapshot, unless something has failed by then, and the two deferred functions. */
  method Finish(host: Host, recorder: Recorder?, record: BackupRun, unready: Option<Error>, early: Option<Error>, temp: nat,
                ghost t: Tracking, ghost allowed: bool, ghost before: map<nat, Row>)
    returns (err: Option<Error>, ghost written: bool, ghost work: Option<Error>)
    requires Open(recorder, record, t, allowed, before) && host.AllLawful() && (unready.Some? ==> unready.value.marks <= {ContextDone})
    requires early.Some? ==> early.value.marks <= {ContextDone}
    modifies host, recorder, record
    ensures Left(recorder, record, t, allowed, before, written, early.None?, work)
    ensures err == ReportedError(early.None?, t, written, work)
    ensures host.trace == old(host.trace) + (if early.None? && unready.None? then [Backup] else [])
                        + if temp > 0 then [RemoveScratch] else []
    ensures early.Some? ==> work == early
    ensures recorder != null && t.Recorded? ==> (written <==> recorder.fails(old(recorder.calls) + 1).None?)
  {
    err, written, work := early, true, early;
    if early.None? {
      err, written, work := ExecuteRun(host, recorder, record, unready, t, allowed, before);
    }
    if temp > 0 {
      var _ := host.Execute(RemoveScratch);
    }
    written := CloseEarly(recorder, record, err, t, allowed, before, early.None?, work, written);
  }

  /** The deferred guard: a row that still says "running" is closed. */
  method CloseEarly(recorder: Recorder?, record: BackupRun, err: Option<Error>, ghost t: Tracking, ghost allowed: bool,
                    ghost before: map<nat, Row>, ghost reached: bool, ghost work: Option<Error>, ghost closed: bool)
    returns (ghost written: bool)
    requires work.Some? ==> work.value.marks <= {ContextDone}
    requires if reached then Settled(recorder, record, t, allowed, before, closed) && record.status == FinalStatus(work.None?, work)
             else Open(recorder, record, t, allowed, before) && err.Some? && work == err
    modifies recorder, record
    ensures Left(recorder, record, t, allowed, before, written, reached, work)
    ensures reached ==> written == closed && (recorder != null ==> recorder.calls == old(recorder.calls))
    ensures !reached && t.Recorded? ==> (written <==> recorder.fails(old(recorder.calls) + 1).None?)
  {
    written := closed;
    if record.id != 0 && record.status == Running {
      ghost var out;
      out, written := FinalizeRun(recorder, record, false, err, t, allowed, before);
    }
  }

  /** RunContainerBackup. `reached` tells whether the snapshot was attempted, `n` how many
      artifacts were tried, `ok` whether the last of them was made. */
  method RunContainer(host: Host, recorder: Recorder?, allowUntracked: bool, invalid: Option<Error>, unready: Option<Error>)
    returns (result: BackupRun?, err: Option<Error>,
             ghost run: BackupRun?, ghost t: Tracking, ghost written: bool, ghost reached: bool, ghost work: Option<Error>,
             ghost n: nat, ghost ok: bool)
    requires (recorder != null ==> recorder.Valid()) && host.AllLawful()
    requires unready.Some? ==> unready.value.marks <= {ContextDone}
    modifies host, recorder
    ensures run == null <==> invalid.Some? || (recorder != null && !allowUntracked && recorder.fails(old(recorder.calls) + 1).Some?)
    ensures run == null ==> err.Some? && result == null && host.trace == old(host.trace)
    ensures run == null && recorder != null ==> recorder.rows == old(recorder.rows)
    ensures run != null ==>
              && Left(recorder, run, t, allowUntracked, if recorder == null then map[] else old(recorder.rows), written, reached, work)
              && err == ReportedError(reached, t, written, work) && result == if err.None? then run else null
    ensures run != null ==> Executed(host.respond, old(host.trace), n, ok, reached, unready.None?, host.trace)
    ensures run != null && !reached ==> work == Some(EarlyError(host.respond, old(host.trace)))
    ensures run != null && recorder != null ==>
              (t.Lost? <==> recorder.fails(old(recorder.calls) + 1).Some?)
              && (t.Recorded? ==> (written <==> recorder.fails(old(recorder.calls) + 2).None?))
  {
    if invalid.Some? {
      return null, invalid, null, NoRecorder, true, false, None, 0, true;
    }
    ghost var before := if recorder == null then map[] else recorder.rows;
    var record;
    record, err, t := BeginRun(recorder, allowUntracked);
    run := record;
    if err.Some? {
      return null, err, null, t, true, false, None, 0, true;
    }
    err, written, reached, work, n, ok := BackUp(host, recorder, record, unready, t, allowUntracked, before);
    result := if err.None? then record else null;
  }

  /** What the caller of a container backup is told: the closing write of an early failure
      goes unheard. */
  function ReportedError(reached: bool, t: Tracking, written: bool, work: Option<Error>): Option<Error> {
    if reached then FinalError(t, written, work) else work
  }

  // ----- laws -----

  /** Main result for a finished run: the flag is set exactly when the audit has a gap; the
      error names the gap exactly on an audited-until-now success or cancellation; a clean
      return means success, and an unaudited one only where that was accepted. */
  lemma FinishedRunSound(t: Tracking, written: bool, work: Option<Error>)
    requires work.Some? ==> work.value.marks <= {ContextDone}
    ensures Terminal(FinalStatus(work.None?, work))
    ensures FinalStatus(work.None?, work) == Success <==> work.None?
    ensures FinalError(t, written, work).None? <==> work.None? && !(t.Recorded? && !written)
    ensures FinalError(t, written, work).None? && Flag(t, written) ==> t.Lost?
    ensures FinalError(t, written, work).Some? ==>
              (FinalError(t, written, work).value.Is(Untracked) <==>
                 t.Recorded? && !written && FinalStatus(work.None?, work) in {Success, Canceled})
    ensures FinalStatus(work.None?, work) == Failed ==> FinalError(t, written, work) == work
  {
  }

  /** A failed closing write of a container backup is reported exactly when the snapshot
      was attempted and succeeded or was canceled; then with its own exit code. */
  lemma GapReportedIff(reached: bool, written: bool, work: Option<Error>)
    requires work.Some? ==> work.value.marks <= {ContextDone}
    requires !written && (!reached ==> work.Some?)
    ensures var e := ReportedError(reached, Recorded, written, work);
            && e.Some?
            && (e.value.Is(Untracked) <==> reached && (work.None? || work.value.Is(ContextDone)))
            && (e.value.Is(Untracked) ==> ExitCode(e.value) == EXIT_UNTRACKED)
  {
  }

  /** A snapshot is attempted only when every artifact was made well, in order. */
  lemma SnapshotIsComplete(respond: seq<Command> -> Answer, h: seq<Command>, n: nat, ok: bool)
    requires Assembled(respond, h, n, ok) && Complete(respond, h, n, ok)
    ensures var l := LayoutOf(respond, h);
            && Made(respond, h, n) == h + [Inspect] + [CleanStale] + Artifacts(l)
            && AllOk(respond, h + [Inspect] + [CleanStale], Artifacts(l))
  {
    assert Artifacts(LayoutOf(respond, h))[..n] == Artifacts(LayoutOf(respond, h));
  }

  /** Two runs of a container whose inspection fails, one with a recorder whose second write
      fails: the callers are told the same, and one row says "running" forever. */
  method EarlyGapInvisible(failure: Error)
    returns (a: Option<Error>, b: Option<Error>, rowsA: map<nat, Row>, rowsB: map<nat, Row>)
    requires failure.marks <= {ContextDone}
    ensures a == b == Some(failure)
    ensures exists id :: rowsA == map[id := STARTED]
    ensures exists id :: rowsB == map[id := Row(FinalStatus(false, Some(failure)), NoStage, false)]
  {
    var down := (h: seq<Command>) => Answer(false, Some(failure), None);
    var hostA := new Host(down);
    var hostB := new Host(down);
    var brittle := new Recorder(n => if n == 2 then Some(PLAIN) else None);
    var sound := new Recorder(n => None);
    ghost var run, t, written, reached, work, n, ok;
    var result;
    result, a, run, t, written, reached, work, n, ok := RunContainer(hostA, brittle, false, None, None);
    rowsA := brittle.rows;
    result, b, run, t, written, reached, work, n, ok := RunContainer(hostB, sound, false, None, None);
    rowsB := sound.rows;
  }
}
