/** The four-step report of a restore (internal/backup/restore_steps.go). */
module RestoreReport {
  import Outcomes

  datatype Kind = Files | Volumes | Database | Compose

  datatype StepStatus = StepDone | StepFailed | Skipped | Blocked | Manual

  datatype Step = Step(kind: Kind, status: StepStatus)

  /** restoreStepOrder. */
  const ORDER: seq<Kind> := [Files, Volumes, Database, Compose]

  /** A report as a value: one status per kind of step. */
  datatype Report = Report(files: StepStatus, volumes: StepStatus, database: StepStatus, compose: StepStatus) {
    function Get(k: Kind): StepStatus {
      match k
      case Files => files
      case Volumes => volumes
      case Database => database
      case Compose => compose
    }

    function Set(k: Kind, s: StepStatus): (r: Report)
      ensures forall j :: r.Get(j) == if j == k then s else Get(j)
    {
      match k
      case Files => this.(files := s)
      case Volumes => this.(volumes := s)
      case Database => this.(database := s)
      case Compose => this.(compose := s)
    }

    /** Some step failed or could not run. */
    predicate Troubled() {
      exists k :: Get(k) in {StepFailed, Blocked}
    }

    /** A later step is only ever successful on top of the earlier ones. */
    predicate Coherent() {
      && (database == StepDone ==> compose == StepDone)
      && (compose == StepDone ==> files == StepDone && volumes in {StepDone, Skipped})
    }
  }

  const SEEDED := Report(Skipped, Skipped, Skipped, Skipped)

  /** The aggregate status of a completed run. */
  function Aggregate(r: Report, dryRun: bool): Outcomes.Status {
    if dryRun then Outcomes.DryRun
    else if r.files == StepFailed then Outcomes.Failed
    else if r.Troubled() then Outcomes.Partial
    else Outcomes.Success
  }

  /** classifyStepStatus: exit code 127 means a missing prerequisite. */
  function ClassifyExit(exitCode: int): StepStatus {
    if exitCode == 127 then Blocked else StepFailed
  }

  /** The result object that the runner fills in step by step. */
  class RestoreResult {
    var steps: seq<Step>
    var id: nat
    var status: Outcomes.Status
    var stage: Outcomes.Stage
    var untracked: bool

    predicate Valid()
      reads this
    {
      |steps| == 4 && forall i :: 0 <= i < 4 ==> steps[i].kind == ORDER[i]
    }

    /** The report the steps stand for. */
    function View(): Report
      requires Valid()
      reads this
    {
      Report(steps[0].status, steps[1].status, steps[2].status, steps[3].status)
    }

    /** newRestoreReport: every step is there and skipped. */
    constructor (id: nat, untracked: bool)
      ensures Valid() && View() == SEEDED
      ensures this.id == id && this.untracked == untracked
      ensures status == Outcomes.Running && stage == Outcomes.NoStage
    {
      this.id, this.untracked := id, untracked;
      status, stage := Outcomes.Running, Outcomes.NoStage;
      steps := [];
      new;
      for i := 0 to |ORDER|
        invariant |steps| == i && forall j :: 0 <= j < i ==> steps[j] == Step(ORDER[j], Skipped)
        invariant this.id == id && this.untracked == untracked
        invariant status == Outcomes.Running && stage == Outcomes.NoStage
      {
        steps := steps + [Step(ORDER[i], Skipped)];
      }
    }

    method SetStep(kind: Kind, s: StepStatus)
      requires Valid()
      modifies this`steps
      ensures Valid() && View() == old(View()).Set(kind, s)
    {
      assert ORDER[0] == Files && ORDER[1] == Volumes && ORDER[2] == Database && ORDER[3] == Compose;
      for i := 0 to |steps|
        invariant steps == old(steps)
        invariant forall j :: 0 <= j < i ==> steps[j].kind != kind
      {
        if steps[i].kind == kind {
          steps := steps[i := Step(kind, s)];
          return;
        }
      }
    }

    /** blockSteps. */
    method BlockSteps(kinds: seq<Kind>)
      requires Valid()
      modifies this`steps
      ensures Valid()
      ensures forall k :: View().Get(k) == if k in kinds then Blocked else old(View()).Get(k)
    {
      for i := 0 to |kinds|
        invariant Valid()
        invariant forall k :: View().Get(k) == if k in kinds[..i] then Blocked else old(View()).Get(k)
      {
        SetStep(kinds[i], Blocked);
      }
      assert kinds[..|kinds|] == kinds;
    }

    /** skipContainerSteps. */
    method SkipContainerSteps()
      requires Valid()
      modifies this`steps
      ensures Valid() && View() == old(View()).(volumes := Skipped, database := Skipped, compose := Skipped)
    {
      SetStep(Volumes, Skipped);
      SetStep(Database, Skipped);
      SetStep(Compose, Skipped);
    }

    method StepStatusOf(kind: Kind) returns (s: StepStatus)
      requires Valid()
      ensures s == View().Get(kind)
    {
      assert ORDER[0] == Files && ORDER[1] == Volumes && ORDER[2] == Database && ORDER[3] == Compose;
      s := Skipped;
      for i := 0 to |steps|
        invariant forall j :: 0 <= j < i ==> steps[j].kind != kind
      {
        if steps[i].kind == kind {
          return steps[i].status;
        }
      }
    }

    /** aggregateStatus: scans the steps. */
    method AggregateStatus(dryRun: bool) returns (s: Outcomes.Status)
      requires Valid()
      ensures s == Aggregate(View(), dryRun)
    {
      if dryRun {
        return Outcomes.DryRun;
      }
      var files := StepStatusOf(Files);
      if files == StepFailed {
        return Outcomes.Failed;
      }
      for i := 0 to |steps|
        invariant forall j :: 0 <= j < i ==> steps[j].status !in {StepFailed, Blocked}
      {
        if steps[i].status == StepFailed || steps[i].status == Blocked {
          assert View().Get(ORDER[i]) == steps[i].status;
          return Outcomes.Partial;
        }
      }
      assert forall k :: View().Get(k) !in {StepFailed, Blocked};
      return Outcomes.Success;
    }
  }
}
