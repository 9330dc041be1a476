/** What is wrong with the two hosts of a migration (internal/migration/plan.go), and that the
    apply step stops at it (cmd/opspulse/docker_apply.go). */
module HostRisks {
  import opened Wrappers
  import opened Text
  import opened Sequences
  import opened Risks
  import opened Apply

  // ----- the hosts -----

  datatype Status = Good | Partly | Absent | Unclear

  datatype Finding = Finding(name: string, status: Status, detail: string)

  /** What the capability probe of a host reports. */
  datatype HostReport = HostReport(docker: Finding, restic: Finding, helper: Finding, compose: Finding,
                                   registry: Finding, disk: Finding, paths: seq<Finding>)

  /** A risk of a host belongs to no service. Its text is never empty: a fixed beginning, and
      what the probe has to add. */
  function HostRisk(code: Code, text: string, more: string): Risk {
    Risk(code, "", text + more, "")
  }

  function When(condition: bool, r: Risk): seq<Risk> {
    if condition then [r] else []
  }

  function DiskRisks(disk: Finding, full: Code, tight: string): seq<Risk> {
    match disk.status
    case Absent => [HostRisk(full, "disk full: ", disk.detail)]
    case Partly => [HostRisk(Other(tight), "disk tight: ", disk.detail)]
    case _ => []
  }

  /** sourceRisks. */
  function SourceRisks(report: Option<HostReport>, hasVolumes: bool): seq<Risk> {
    match report
    case None => [HostRisk(SourceDockerUnavailable, "no report", "")]
    case Some(r) =>
      When(r.docker.status != Good, HostRisk(SourceDockerUnavailable, "docker: ", r.docker.detail))
      + When(r.restic.status != Good, HostRisk(SourceResticMissing, "restic", ""))
      + When(hasVolumes && r.helper.status == Absent, HostRisk(SourceHelperImageMissing, "helper image", ""))
      + DiskRisks(r.disk, SourceDiskFull, "source_disk_tight")
  }

  function PathRisk(p: Finding): seq<Risk> {
    match p.status
    case Absent => [HostRisk(TargetPathUnavailable, "path: ", p.name + p.detail)]
    case Partly => [HostRisk(Other("target_path_read_only"), "path: ", p.name + p.detail)]
    case _ => []
  }

  function PathRisks(paths: seq<Finding>): seq<Risk> {
    Flatten(Mapped(PathRisk, paths))
  }

  /** What targetRisks finds. */
  function TargetRisks(server: string, report: Option<HostReport>, hasVolumes: bool): seq<Risk> {
    match report
    case None => [HostRisk(TargetDockerUnavailable, "no report: ", server)]
    case Some(r) => EngineRisks(server, r, hasVolumes) + PathRisks(r.paths)
  }

  function EngineRisks(server: string, r: HostReport, hasVolumes: bool): seq<Risk> {
    When(r.docker.status != Good, HostRisk(TargetDockerUnavailable, "docker: ", server + r.docker.detail))
    + When(r.compose.status != Good, HostRisk(TargetComposeMissing, "compose: ", server))
    + When(r.restic.status != Good, HostRisk(TargetResticMissing, "restic: ", server))
    + When(hasVolumes && r.helper.status == Absent, HostRisk(TargetHelperImageMissing, "helper image: ", server))
    + When(r.registry.status == Absent, HostRisk(Other("target_registry_unreachable"), "registry: ", server))
    + DiskRisks(r.disk, TargetDiskFull, "target_disk_tight")
  }

  /** targetRisks, with its loop over the paths. */
  method CheckTarget(server: string, report: Option<HostReport>, hasVolumes: bool) returns (risks: seq<Risk>)
    ensures risks == TargetRisks(server, report, hasVolumes)
  {
    match report {
      case None => return [HostRisk(TargetDockerUnavailable, "no report: ", server)];
      case Some(r) =>
        var paths := CollectPathRisks(r.paths);
        return EngineRisks(server, r, hasVolumes) + paths;
    }
  }

  method CollectPathRisks(paths: seq<Finding>) returns (risks: seq<Risk>)
    ensures risks == PathRisks(paths)
  {
    risks := [];
    for k := 0 to |paths|
      invariant risks == PathRisks(paths[..k])
    {
      assert paths[..k + 1] == paths[..k] + [paths[k]];
      MappedMore(PathRisk, paths[..k], paths[k]);
      FlattenMore(Mapped(PathRisk, paths[..k]), PathRisk(paths[k]));
      match paths[k].status {
        case Absent => risks := risks + [HostRisk(TargetPathUnavailable, "path: ", paths[k].name + paths[k].detail)];
        case Partly => risks := risks + [HostRisk(Other("target_path_read_only"), "path: ", paths[k].name + paths[k].detail)];
        case _ => assert PathRisk(paths[k]) == []; assert risks + [] == risks;
      }
    }
    assert paths[..|paths|] == paths;
  }

  // ----- what they have in common -----

  /** Of no service, and with a text. */
  predicate PlanWideRisk(r: Risk) {
    r.service == "" && r.detail != ""
  }

  predicate AllPlanWide(risks: seq<Risk>) {
    forall k :: 0 <= k < |risks| ==> PlanWideRisk(risks[k])
  }

  lemma {:induction false} PathsPlanWide(paths: seq<Finding>)
    ensures AllPlanWide(PathRisks(paths))
  {
    if paths != [] {
      var front, p := paths[..|paths| - 1], paths[|paths| - 1];
      PathsPlanWide(front);
      assert paths == front + [p];
      MappedMore(PathRisk, front, p);
      FlattenMore(Mapped(PathRisk, front), PathRisk(p));
    }
  }

  lemma DiskPlanWide(disk: Finding, full: Code, tight: string)
    ensures AllPlanWide(DiskRisks(disk, full, tight))
  {
  }

  lemma Together(a: seq<Risk>, b: seq<Risk>)
    requires AllPlanWide(a) && AllPlanWide(b)
    ensures AllPlanWide(a + b)
  {
  }

  lemma SourcePlanWide(report: Option<HostReport>, hasVolumes: bool)
    ensures AllPlanWide(SourceRisks(report, hasVolumes))
  {
    if report.Some? {
      DiskPlanWide(report.value.disk, SourceDiskFull, "source_disk_tight");
    }
  }

  lemma EnginePlanWide(server: string, r: HostReport, hasVolumes: bool)
    ensures AllPlanWide(EngineRisks(server, r, hasVolumes))
  {
    var a := When(r.docker.status != Good, HostRisk(TargetDockerUnavailable, "docker: ", server + r.docker.detail));
    var b := When(r.compose.status != Good, HostRisk(TargetComposeMissing, "compose: ", server));
    var c := When(r.restic.status != Good, HostRisk(TargetResticMissing, "restic: ", server));
    var d := When(hasVolumes && r.helper.status == Absent, HostRisk(TargetHelperImageMissing, "helper image: ", server));
    var e := When(r.registry.status == Absent, HostRisk(Other("target_registry_unreachable"), "registry: ", server));
    DiskPlanWide(r.disk, TargetDiskFull, "target_disk_tight");
    Together(a, b);
    Together(a + b, c);
    Together(a + b + c, d);
    Together(a + b + c + d, e);
    Together(a + b + c + d + e, DiskRisks(r.disk, TargetDiskFull, "target_disk_tight"));
  }

  lemma TargetPlanWide(server: string, report: Option<HostReport>, hasVolumes: bool)
    ensures AllPlanWide(TargetRisks(server, report, hasVolumes))
  {
    if report.Some? {
      EnginePlanWide(server, report.value, hasVolumes);
      PathsPlanWide(report.value.paths);
      Together(EngineRisks(server, report.value, hasVolumes), PathRisks(report.value.paths));
    }
  }

  // ----- the gate -----

  /** The summary of a fresh check: both hosts, then what concerns single services. */
  function Checked(source: seq<Risk>, target: seq<Risk>, others: seq<Risk>): Summary {
    Added(Added(Added(EMPTY, source), target), others)
  }

  lemma CheckedMeaning(source: seq<Risk>, target: seq<Risk>, others: seq<Risk>, q: Risk)
    ensures Contains(Checked(source, target, others).blockers, q)
       <==> Severity(q) == Blockers && (Contains(source, q) || Contains(target, q) || Contains(others, q))
  {
    var a := Added(EMPTY, source);
    var b := Added(a, target);
    var c := Added(b, others);
    AddedMeaning(EMPTY, source);
    AddedMeaning(a, target);
    AddedMeaning(b, others);
    KnownWhere(c, q);
    assert !EMPTY.Knows(q);
    assert c.Get(Blockers) == c.blockers;
  }

  predicate HasBlocker(risks: seq<Risk>) {
    exists k :: 0 <= k < |risks| && Severity(risks[k]) == Blockers
  }

  /** A blocker in the summary comes from one of the lists. */
  lemma ComesFrom(source: seq<Risk>, target: seq<Risk>, others: seq<Risk>, i: nat)
    requires i < |Checked(source, target, others).blockers|
    ensures var q := Checked(source, target, others).blockers[i];
            Severity(q) == Blockers && (Contains(source, q) || Contains(target, q) || Contains(others, q))
  {
    var blockers := Checked(source, target, others).blockers;
    assert Same(blockers[i], blockers[i]);
    CheckedMeaning(source, target, others, blockers[i]);
  }

  lemma HostBlockerIsPlanWide(source: seq<Risk>, target: seq<Risk>, others: seq<Risk>, k: nat)
    requires AllPlanWide(source + target) && k < |source + target| && Severity((source + target)[k]) == Blockers
    ensures PlanWide(Checked(source, target, others).blockers) != ""
  {
    var r, blockers := (source + target)[k], Checked(source, target, others).blockers;
    assert Same(r, r);
    assert if k < |source| then Contains(source, r) else Contains(target, r) by {
      assert k < |source| ==> source[k] == r;
      assert k >= |source| ==> target[k - |source|] == r;
    }
    CheckedMeaning(source, target, others, r);
    var i :| 0 <= i < |blockers| && Same(blockers[i], r);
    assert Trim(blockers[i].service) == "" && blockers[i].detail != "";
    PlanWideIff(blockers);
  }

  lemma PlanWideComesFromHost(source: seq<Risk>, target: seq<Risk>, others: seq<Risk>)
    requires forall k :: 0 <= k < |others| ==> Trim(others[k].service) != ""
    requires PlanWide(Checked(source, target, others).blockers) != ""
    ensures HasBlocker(source) || HasBlocker(target)
  {
    var blockers := Checked(source, target, others).blockers;
    PlanWideIff(blockers);
    var i :| 0 <= i < |blockers| && Trim(blockers[i].service) == "" && blockers[i].detail != "";
    ComesFrom(source, target, others, i);
    FromList(source, blockers[i]);
    FromList(target, blockers[i]);
  }

  lemma FromList(list: seq<Risk>, q: Risk)
    ensures Contains(list, q) && Severity(q) == Blockers ==> HasBlocker(list)
  {
    if Contains(list, q) && Severity(q) == Blockers {
      var k :| 0 <= k < |list| && Same(list[k], q);
      assert Severity(list[k]) == Severity(q);
    }
  }

  lemma StoppedIff(s: seq<Risk>, t: seq<Risk>, others: seq<Risk>)
    requires AllPlanWide(s) && AllPlanWide(t) && forall k :: 0 <= k < |others| ==> Trim(others[k].service) != ""
    ensures PlanWide(Checked(s, t, others).blockers) != "" <==> HasBlocker(s) || HasBlocker(t)
  {
    Together(s, t);
    if k :| 0 <= k < |s| && Severity(s[k]) == Blockers {
      assert (s + t)[k] == s[k];
      HostBlockerIsPlanWide(s, t, others, k);
    }
    if k :| 0 <= k < |t| && Severity(t[k]) == Blockers {
      assert (s + t)[|s| + k] == t[k];
      HostBlockerIsPlanWide(s, t, others, |s| + k);
    }
    if PlanWide(Checked(s, t, others).blockers) != "" {
      PlanWideComesFromHost(s, t, others);
    }
  }

  /** Main result: an apply is stopped as a whole exactly when something about a host is a
      blocker. What concerns a service stops that service only. */
  lemma StoppedIffHost(server: string, source: Option<HostReport>, target: Option<HostReport>, hasVolumes: bool, others: seq<Risk>)
    requires forall k :: 0 <= k < |others| ==> Trim(others[k].service) != ""
    ensures var s, t := SourceRisks(source, hasVolumes), TargetRisks(server, target, hasVolumes);
            PlanWide(Checked(s, t, others).blockers) != "" <==> HasBlocker(s) || HasBlocker(t)
  {
    SourcePlanWide(source, hasVolumes);
    TargetPlanWide(server, target, hasVolumes);
    StoppedIff(SourceRisks(source, hasVolumes), TargetRisks(server, target, hasVolumes), others);
  }

  /** The apply command, from the fresh reports to the migrations. */
  method ApplyPlan(services: seq<Service>, server: string, source: Option<HostReport>, target: Option<HostReport>, hasVolumes: bool,
                   others: seq<Risk>, dryRun: bool, confirmed: bool, migrator: Migrator) returns (e: Ending)
    requires forall k :: 0 <= k < |others| ==> Trim(others[k].service) != ""
    modifies migrator
    ensures var blocked := HasBlocker(SourceRisks(source, hasVolumes)) || HasBlocker(TargetRisks(server, target, hasVolumes));
            && (e.Ran? <==> !dryRun && confirmed && !blocked)
            && (blocked ==> migrator.migrated == old(migrator.migrated))
  {
    var summary := new RiskSummary();
    summary.Add(SourceRisks(source, hasVolumes));
    var onTarget := CheckTarget(server, target, hasVolumes);
    summary.Add(onTarget);
    summary.Add(others);
    StoppedIffHost(server, source, target, hasVolumes, others);
    e := Run(services, summary.blockers, dryRun, confirmed, migrator);
  }
}
