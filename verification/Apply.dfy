/** The apply step of a migration (cmd/opspulse/docker_apply.go) and its check for several
    services of one Compose project (internal/migration/verify.go). */
module Apply {
  import opened Text
  import opened Risks
  import Names

  datatype Service = Service(name: string, compose: bool, project: string)

  // ----- the gate -----

  /** The details of the first blocker per service; blank services block everything. */
  function Blocked(blockers: seq<Risk>): map<string, string> {
    if blockers == [] then map[]
    else
      var rest, r := Blocked(blockers[..|blockers| - 1]), blockers[|blockers| - 1];
      if Trim(r.service) == "" || r.service in rest then rest else rest[r.service := r.detail]
  }

  /** The first non-empty detail of a blocker without a service. */
  function PlanWide(blockers: seq<Risk>): string {
    if blockers == [] then ""
    else
      var before, r := PlanWide(blockers[..|blockers| - 1]), blockers[|blockers| - 1];
      if Trim(r.service) == "" && before == "" then r.detail else before
  }

  method CollectBlockers(blockers: seq<Risk>) returns (blocked: map<string, string>, planWide: string)
    ensures blocked == Blocked(blockers) && planWide == PlanWide(blockers)
  {
    blocked, planWide := map[], "";
    for i := 0 to |blockers|
      invariant blocked == Blocked(blockers[..i]) && planWide == PlanWide(blockers[..i])
    {
      assert blockers[..i + 1][..i] == blockers[..i];
      var r := blockers[i];
      if Trim(r.service) == "" {
        if planWide == "" {
          planWide := r.detail;
        }
        continue;
      }
      if r.service !in blocked {
        blocked := blocked[r.service := r.detail];
      }
    }
    assert blockers[..|blockers|] == blockers;
  }

  predicate NamesService(blockers: seq<Risk>, name: string) {
    exists i :: 0 <= i < |blockers| && blockers[i].service == name && Trim(name) != ""
  }

  lemma {:induction false} BlockedIff(blockers: seq<Risk>, name: string)
    ensures name in Blocked(blockers) <==> NamesService(blockers, name)
  {
    if blockers != [] {
      var front, k := blockers[..|blockers| - 1], |blockers| - 1;
      BlockedIff(front, name);
      assert forall i :: 0 <= i < k ==> front[i] == blockers[i];
      if NamesService(front, name) {
        var i :| 0 <= i < k && front[i].service == name;
        assert blockers[i].service == name;
      }
      if NamesService(blockers, name) {
        var i :| 0 <= i < |blockers| && blockers[i].service == name;
        assert i < k ==> front[i].service == name;
      }
    }
  }

  /** The reason given is that of the first blocker naming the service. */
  lemma {:induction false} BlockedReason(blockers: seq<Risk>, i: nat)
    requires i < |blockers| && Trim(blockers[i].service) != ""
    requires forall j :: 0 <= j < i ==> blockers[j].service != blockers[i].service
    ensures blockers[i].service in Blocked(blockers) && Blocked(blockers)[blockers[i].service] == blockers[i].detail
  {
    var front, k := blockers[..|blockers| - 1], |blockers| - 1;
    if i < k {
      assert forall j :: 0 <= j < k ==> front[j] == blockers[j];
      BlockedReason(front, i);
    } else {
      BlockedIff(front, blockers[i].service);
      assert forall j :: 0 <= j < k ==> front[j] == blockers[j];
    }
  }

  lemma {:induction false} PlanWideIff(blockers: seq<Risk>)
    ensures PlanWide(blockers) != "" <==>
              exists i :: 0 <= i < |blockers| && Trim(blockers[i].service) == "" && blockers[i].detail != ""
  {
    if blockers != [] {
      var front, k := blockers[..|blockers| - 1], |blockers| - 1;
      PlanWideIff(front);
      assert forall i :: 0 <= i < k ==> front[i] == blockers[i];
    }
  }

  /** So as long as no such blocker lacks its detail, one of them is enough to stop the plan. */
  lemma BlankBlockerStops(blockers: seq<Risk>)
    requires forall i :: 0 <= i < |blockers| && Trim(blockers[i].service) == "" ==> blockers[i].detail != ""
    ensures PlanWide(blockers) != "" <==> exists i :: 0 <= i < |blockers| && Trim(blockers[i].service) == ""
  {
    PlanWideIff(blockers);
  }

  // ----- the services -----

  datatype Result = Succeeded | FailedRun | SkippedRun(reason: string)

  datatype Outcome = Outcome(service: string, result: Result)

  /** The migrator. Whether a service succeeds is arbitrary. */
  class Migrator {
    const works: seq<Service> -> bool
    var migrated: seq<Service>

    constructor (works: seq<Service> -> bool)
      ensures this.works == works && migrated == []
    {
      this.works, migrated := works, [];
    }

    method Migrate(s: Service) returns (ok: bool)
      modifies this
      ensures migrated == old(migrated) + [s] && ok == works(migrated)
    {
      migrated := migrated + [s];
      ok := works(migrated);
    }
  }

  /** The services nothing blocks, in plan order. */
  function Unblocked(services: seq<Service>, blocked: map<string, string>): seq<Service> {
    if services == [] then []
    else
      var s := services[|services| - 1];
      Unblocked(services[..|services| - 1], blocked) + if s.name in blocked then [] else [s]
  }

  /** What happened to each service, given the migrations before `h`. */
  function Outcomes(works: seq<Service> -> bool, h: seq<Service>, services: seq<Service>, blocked: map<string, string>): seq<Outcome> {
    if services == [] then []
    else
      var s := services[|services| - 1];
      Outcomes(works, h, services[..|services| - 1], blocked)
      + [Outcome(s.name,
                 if s.name in blocked then SkippedRun(blocked[s.name])
                 else if works(h + Unblocked(services, blocked)) then Succeeded
                 else FailedRun)]
  }

  /** runDockerApplyServices: past failures, in plan order. */
  method MigrateServices(services: seq<Service>, blocked: map<string, string>, migrator: Migrator) returns (outcomes: seq<Outcome>)
    modifies migrator
    ensures migrator.migrated == old(migrator.migrated) + Unblocked(services, blocked)
    ensures outcomes == Outcomes(migrator.works, old(migrator.migrated), services, blocked)
  {
    outcomes := [];
    ghost var h := migrator.migrated;
    for i := 0 to |services|
      invariant migrator.migrated == h + Unblocked(services[..i], blocked)
      invariant outcomes == Outcomes(migrator.works, h, services[..i], blocked)
    {
      var s := services[i];
      ghost var so, done := services[..i + 1], Unblocked(services[..i], blocked);
      assert so[..i] == services[..i] && so[i] == s;
      if s.name in blocked {
        assert Unblocked(so, blocked) == done + [];
        outcomes := outcomes + [Outcome(s.name, SkippedRun(blocked[s.name]))];
        continue;
      }
      assert Unblocked(so, blocked) == done + [s];
      var ok := migrator.Migrate(s);
      assert (h + done) + [s] == h + (done + [s]);
      outcomes := outcomes + [Outcome(s.name, if ok then Succeeded else FailedRun)];
    }
    assert services[..|services|] == services;
  }

  /** How a run ends before any service is touched. */
  datatype Ending = DryRun(refused: bool) | PlanBlocked | NotConfirmed | Ran(outcomes: seq<Outcome>)

  /** From the collected risks to the outcomes. */
  method Run(services: seq<Service>, blockers: seq<Risk>, dryRun: bool, confirmed: bool, migrator: Migrator) returns (e: Ending)
    modifies migrator
    ensures e.Ran? <==> !dryRun && PlanWide(blockers) == "" && confirmed
    ensures !e.Ran? ==> migrator.migrated == old(migrator.migrated)
    ensures e.Ran? ==> migrator.migrated == old(migrator.migrated) + Unblocked(services, Blocked(blockers))
    ensures e.Ran? ==> e.outcomes == Outcomes(migrator.works, old(migrator.migrated), services, Blocked(blockers))
    ensures dryRun ==> e == DryRun(blockers != [])
  {
    var blocked, planWide := CollectBlockers(blockers);
    if dryRun {
      return DryRun(|blockers| > 0);
    }
    if planWide != "" {
      return PlanBlocked;
    }
    if !confirmed {
      return NotConfirmed;
    }
    var outcomes := MigrateServices(services, blocked, migrator);
    return Ran(outcomes);
  }

  /** One outcome per service, under its name, in plan order; skipped exactly if blocked. */
  lemma {:induction false} OutcomePerService(works: seq<Service> -> bool, h: seq<Service>, services: seq<Service>, blocked: map<string, string>,
                                             i: nat)
    requires i < |services|
    ensures var os := Outcomes(works, h, services, blocked);
            && |os| == |services| && os[i].service == services[i].name
            && (os[i].result.SkippedRun? <==> services[i].name in blocked)
            && (os[i].result.SkippedRun? ==> os[i].result.reason == blocked[services[i].name])
  {
    var front := services[..|services| - 1];
    OutcomesSize(works, h, services, blocked);
    OutcomesSize(works, h, front, blocked);
    if i < |front| {
      OutcomePerService(works, h, front, blocked, i);
    }
  }

  lemma {:induction false} OutcomesSize(works: seq<Service> -> bool, h: seq<Service>, services: seq<Service>, blocked: map<string, string>)
    ensures |Outcomes(works, h, services, blocked)| == |services|
  {
    if services != [] {
      OutcomesSize(works, h, services[..|services| - 1], blocked);
    }
  }

  lemma {:induction false} UnblockedIff(services: seq<Service>, blocked: map<string, string>, s: Service)
    ensures s in Unblocked(services, blocked) <==> s in services && s.name !in blocked
  {
    if services != [] {
      UnblockedIff(services[..|services| - 1], blocked, s);
      assert services == services[..|services| - 1] + [services[|services| - 1]];
    }
  }

  /** Main result: past the gate exactly the services that no blocker names are migrated. */
  lemma MigratedIff(services: seq<Service>, blockers: seq<Risk>, s: Service)
    ensures s in Unblocked(services, Blocked(blockers)) <==> s in services && !NamesService(blockers, s.name)
  {
    UnblockedIff(services, Blocked(blockers), s);
    BlockedIff(blockers, s.name);
  }

  // ----- several services of one project -----

  /** ApplyAlias. */
  function Alias(s: Service): string {
    var project := if s.compose then Trim(s.project) else Trim(s.name);
    if project != "" then project else Trim(s.name)
  }

  predicate Member(s: Service, project: string) {
    s.compose && s.project == project && Trim(project) != ""
  }

  function Group(services: seq<Service>, project: string): seq<string> {
    if services == [] then []
    else
      var s := services[|services| - 1];
      Group(services[..|services| - 1], project) + if Member(s, project) then [s.name] else []
  }

  /** `sort.Strings(names)` and the first of them. */
  function Least(names: seq<string>): (m: string)
    requires names != []
    ensures m in names
  {
    if |names| == 1 then names[0]
    else
      var m := Least(names[..|names| - 1]);
      if Names.Less(names[|names| - 1], m) then names[|names| - 1] else m
  }

  lemma {:induction false} LeastMeaning(names: seq<string>)
    requires names != []
    ensures forall i :: 0 <= i < |names| ==> !Names.Less(names[i], Least(names))
  {
    var k := |names| - 1;
    if k == 0 {
      Names.LessIrreflexive(names[0]);
    } else {
      var m := Least(names[..k]);
      LeastMeaning(names[..k]);
      forall i | 0 <= i < |names| ensures !Names.Less(names[i], Least(names)) {
        if i < k {
          assert names[..k][i] == names[i];
          if Names.Less(names[k], m) && Names.Less(names[i], names[k]) {
            Names.LessTransitive(names[i], names[k], m);
          }
        } else {
          Names.LessIrreflexive(names[k]);
        }
      }
    }
  }

  function Warning(project: string, names: seq<string>): Risk
    requires names != []
  {
    Risk(ApplyProjectMultiService, Least(names), project, "")
  }

  predicate Crowded(services: seq<Service>, project: string) {
    |Group(services, project)| >= 2
  }

  /** The risks are ordered by service. */
  predicate Ordered(risks: seq<Risk>) {
    forall i, j :: 0 <= i < j < |risks| ==> !Names.Less(risks[j].service, risks[i].service)
  }

  method InsertRisk(risks: seq<Risk>, r: Risk) returns (out: seq<Risk>)
    requires Ordered(risks)
    ensures Ordered(out) && multiset(out) == multiset(risks) + multiset{r}
  {
    var k := 0;
    while k < |risks| && !Names.Less(r.service, risks[k].service)
      invariant 0 <= k <= |risks|
      invariant forall i :: 0 <= i < k ==> !Names.Less(r.service, risks[i].service)
    {
      k := k + 1;
    }
    forall i | k <= i < |risks| ensures !Names.Less(risks[i].service, r.service) {
      LaterNotLess(risks, k, i, r);
    }
    OrderedAround(risks[..k], r, risks[k..]);
    assert risks == risks[..k] + risks[k..];
    out := risks[..k] + [r] + risks[k..];
  }

  lemma OrderedAround(a: seq<Risk>, r: Risk, b: seq<Risk>)
    requires Ordered(a + b)
    requires forall i :: 0 <= i < |a| ==> !Names.Less(r.service, a[i].service)
    requires forall i :: 0 <= i < |b| ==> !Names.Less(b[i].service, r.service)
    ensures Ordered(a + [r] + b) && multiset(a + [r] + b) == multiset(a + b) + multiset{r}
  {
    var all := a + [r] + b;
    forall i, j | 0 <= i < j < |all| ensures !Names.Less(all[j].service, all[i].service) {
      InOrder(a, r, b, i, j);
    }
  }

  lemma InOrder(a: seq<Risk>, r: Risk, b: seq<Risk>, i: nat, j: nat)
    requires Ordered(a + b) && i < j < |a| + 1 + |b|
    requires forall k :: 0 <= k < |a| ==> !Names.Less(r.service, a[k].service)
    requires forall k :: 0 <= k < |b| ==> !Names.Less(b[k].service, r.service)
    ensures !Names.Less((a + [r] + b)[j].service, (a + [r] + b)[i].service)
  {
    if i != |a| && j != |a| {
      var x, y := if i < |a| then i else i - 1, if j < |a| then j else j - 1;
      assert (a + b)[x] == (a + [r] + b)[i] && (a + b)[y] == (a + [r] + b)[j];
    }
  }

  lemma LaterNotLess(risks: seq<Risk>, k: nat, i: nat, r: Risk)
    requires Ordered(risks) && k <= i < |risks| && Names.Less(r.service, risks[k].service)
    ensures !Names.Less(risks[i].service, r.service)
  {
    if Names.Less(risks[i].service, r.service) {
      Names.LessTransitive(risks[i].service, r.service, risks[k].service);
      Names.LessIrreflexive(risks[k].service);
    }
  }

  lemma GroupAppend(services: seq<Service>, s: Service, p: string)
    ensures Group(services + [s], p) == Group(services, p) + if Member(s, p) then [s.name] else []
  {
    assert (services + [s])[..|services|] == services;
  }

  ghost predicate Grouped(services: seq<Service>, groups: map<string, seq<string>>) {
    forall p :: (p in groups <==> Group(services, p) != []) && (p in groups ==> groups[p] == Group(services, p))
  }

  /** One pass of the first loop. */
  method AddToGroup(ghost services: seq<Service>, groups: map<string, seq<string>>, s: Service) returns (r: map<string, seq<string>>)
    requires Grouped(services, groups)
    ensures Grouped(services + [s], r)
  {
    r := groups;
    if s.compose && Trim(s.project) != "" {
      r := groups[s.project := (if s.project in groups then groups[s.project] else []) + [s.name]];
    }
    forall p ensures (p in r <==> Group(services + [s], p) != []) && (p in r ==> r[p] == Group(services + [s], p)) {
      GroupAppend(services, s, p);
    }
  }

  /** The first loop of the batching check. */
  method GroupByProject(services: seq<Service>) returns (groups: map<string, seq<string>>)
    ensures Grouped(services, groups)
  {
    groups := map[];
    for i := 0 to |services|
      invariant Grouped(services[..i], groups)
    {
      assert services[..i + 1] == services[..i] + [services[i]];
      groups := AddToGroup(services[..i], groups, services[i]);
    }
    assert services[..|services|] == services;
  }

  /** One risk for each crowded project among `projects`, and no other. */
  ghost predicate Collected(services: seq<Service>, projects: set<string>, risks: multiset<Risk>) {
    && (forall r :: r in risks ==> r.detail in projects && Crowded(services, r.detail) && r == Warning(r.detail, Group(services, r.detail)))
    && (forall p :: p in projects && Crowded(services, p) ==> Warning(p, Group(services, p)) in risks)
    && (forall r :: risks[r] <= 1)
  }

  lemma CollectedMore(services: seq<Service>, projects: set<string>, risks: multiset<Risk>, p: string)
    requires Collected(services, projects, risks) && p !in projects
    ensures Crowded(services, p) ==> Collected(services, projects + {p}, risks + multiset{Warning(p, Group(services, p))})
    ensures !Crowded(services, p) ==> Collected(services, projects + {p}, risks)
  {
    if Crowded(services, p) {
      var w := Warning(p, Group(services, p));
      assert w.detail == p && w !in risks;
      var all := risks + multiset{w};
      assert all[w] == 1 && forall r :: r != w ==> all[r] == risks[r];
      forall q | q in projects + {p} && Crowded(services, q) ensures Warning(q, Group(services, q)) in all {
        assert q != p ==> Warning(q, Group(services, q)) in risks;
      }
    }
  }

  /** What the batching check reports, in whatever order the projects come up. */
  ghost predicate BatchingRisks(services: seq<Service>, risks: seq<Risk>) {
    && (forall r :: r in risks ==> Crowded(services, r.detail) && r == Warning(r.detail, Group(services, r.detail)))
    && (forall p :: Crowded(services, p) ==> Warning(p, Group(services, p)) in risks)
    && (forall r :: multiset(risks)[r] <= 1)
    && Ordered(risks)
  }

  lemma CollectedAll(services: seq<Service>, projects: set<string>, risks: seq<Risk>)
    requires Collected(services, projects, multiset(risks)) && Ordered(risks)
    requires forall p :: Group(services, p) != [] ==> p in projects
    ensures BatchingRisks(services, risks)
  {
    forall r | r in risks ensures Crowded(services, r.detail) && r == Warning(r.detail, Group(services, r.detail)) {
      assert r in multiset(risks);
    }
    forall p | Crowded(services, p) ensures Warning(p, Group(services, p)) in risks {
      assert p in projects && Warning(p, Group(services, p)) in multiset(risks);
    }
  }

  method CheckProject(ghost services: seq<Service>, p: string, members: seq<string>, risks: seq<Risk>, ghost seen: set<string>)
    returns (out: seq<Risk>)
    requires members == Group(services, p) && p !in seen
    requires Ordered(risks) && Collected(services, seen, multiset(risks))
    ensures Ordered(out) && Collected(services, seen + {p}, multiset(out))
  {
    CollectedMore(services, seen, multiset(risks), p);
    out := risks;
    if |members| >= 2 {
      out := InsertRisk(risks, Warning(p, members));
    }
  }

  /** The second loop: the projects in the order the map yields them. */
  method CheckProjects(ghost services: seq<Service>, groups: map<string, seq<string>>) returns (risks: seq<Risk>)
    requires forall p :: p in groups ==> groups[p] == Group(services, p)
    ensures Ordered(risks) && Collected(services, groups.Keys, multiset(risks))
  {
    risks := [];
    var rest := groups.Keys;
    ghost var seen: set<string> := {};
    assert Collected(services, seen, multiset(risks));
    while rest != {}
      invariant seen == groups.Keys - rest && rest <= groups.Keys && Ordered(risks)
      invariant Collected(services, seen, multiset(risks))
      decreases |rest|
    {
      var p :| p in rest;
      risks := CheckProject(services, p, groups[p], risks, seen);
      rest := rest - {p};
      seen := seen + {p};
    }
    assert seen == groups.Keys;
  }

  /** VerifyProjectBatching: one risk per crowded project, by service. */
  method VerifyProjectBatching(services: seq<Service>) returns (risks: seq<Risk>)
    ensures BatchingRisks(services, risks)
  {
    var groups := GroupByProject(services);
    risks := CheckProjects(services, groups);
    CollectedAll(services, groups.Keys, risks);
  }

  // ----- what the batching check prevents -----

  predicate DistinctNames(services: seq<Service>) {
    forall i, j :: 0 <= i < j < |services| ==> services[i].name != services[j].name
  }

  lemma {:induction false} GroupIff(services: seq<Service>, project: string, n: string)
    ensures n in Group(services, project) <==> exists i :: 0 <= i < |services| && services[i].name == n && Member(services[i], project)
  {
    if services != [] {
      var front, k := services[..|services| - 1], |services| - 1;
      GroupIff(front, project, n);
      assert forall i :: 0 <= i < k ==> front[i] == services[i];
      if n in Group(front, project) {
        var i :| 0 <= i < k && front[i].name == n && Member(front[i], project);
        assert services[i].name == n && Member(services[i], project);
      }
      if i :| 0 <= i < |services| && services[i].name == n && Member(services[i], project) {
        assert i < k ==> front[i].name == n && Member(front[i], project);
      }
    }
  }

  lemma {:induction false} GroupDistinct(services: seq<Service>, project: string)
    requires DistinctNames(services)
    ensures forall i, j :: 0 <= i < j < |Group(services, project)| ==> Group(services, project)[i] != Group(services, project)[j]
  {
    if services != [] {
      var front, k := services[..|services| - 1], |services| - 1;
      assert forall i :: 0 <= i < k ==> front[i] == services[i];
      GroupDistinct(front, project);
      GroupIff(front, project, services[k].name);
    }
  }

  /** With distinct names, a service is named by the check exactly if it is the least of a
      crowded project. */
  lemma NamedIff(services: seq<Service>, risks: seq<Risk>, i: nat)
    requires BatchingRisks(services, risks) && DistinctNames(services) && i < |services|
    requires Trim(services[i].name) != ""
    ensures var s := services[i];
            NamesService(risks, s.name) <==> Member(s, s.project) && Crowded(services, s.project) && s.name == Least(Group(services, s.project))
  {
    var s := services[i];
    if NamesService(risks, s.name) {
      var k :| 0 <= k < |risks| && risks[k].service == s.name;
      var p := risks[k].detail;
      assert risks[k] in risks;
      GroupIff(services, p, s.name);
      var j :| 0 <= j < |services| && services[j].name == s.name && Member(services[j], p);
      assert j == i;
    }
    if Member(s, s.project) && Crowded(services, s.project) && s.name == Least(Group(services, s.project)) {
      var w := Warning(s.project, Group(services, s.project));
      assert w in risks;
      var k :| 0 <= k < |risks| && risks[k] == w;
      assert risks[k].service == s.name;
    }
  }

  /** Two services of a project that the check lets through; both would run as one job. */
  ghost predicate RunTogether(services: seq<Service>, risks: seq<Risk>, project: string, i: nat, j: nat) {
    && i < j < |services| && Member(services[i], project) && Member(services[j], project)
    && !NamesService(risks, services[i].name) && !NamesService(risks, services[j].name)
  }

  lemma TogetherShareAlias(services: seq<Service>, risks: seq<Risk>, project: string, i: nat, j: nat)
    requires RunTogether(services, risks, project, i, j)
    ensures Alias(services[i]) == Alias(services[j]) == Trim(project)
  {
  }

  /** Main result: the check keeps two services of one project from running under one alias
      exactly when the project has fewer than three of them. */
  lemma TogetherIff(services: seq<Service>, risks: seq<Risk>, project: string)
    requires BatchingRisks(services, risks) && DistinctNames(services)
    requires forall i :: 0 <= i < |services| ==> Trim(services[i].name) != ""
    ensures (exists i, j :: RunTogether(services, risks, project, i, j)) <==> |Group(services, project)| >= 3
  {
    var g := Group(services, project);
    if i, j :| RunTogether(services, risks, project, i, j) {
      AtLeastThree(services, risks, project, i, j);
    }
    if |g| >= 3 {
      GroupDistinct(services, project);
      var m := Least(g);
      var a, b := if g[0] == m then g[1] else g[0], if g[0] == m || g[1] == m then g[2] else g[1];
      assert a != b && a in g && b in g && a != m && b != m;
      FindTwo(services, risks, project, a, b);
    }
  }

  lemma AtLeastThree(services: seq<Service>, risks: seq<Risk>, project: string, i: nat, j: nat)
    requires BatchingRisks(services, risks) && DistinctNames(services) && RunTogether(services, risks, project, i, j)
    requires Trim(services[i].name) != "" && Trim(services[j].name) != ""
    ensures |Group(services, project)| >= 3
  {
    var g := Group(services, project);
    GroupIff(services, project, services[i].name);
    GroupIff(services, project, services[j].name);
    var x :| 0 <= x < |g| && g[x] == services[i].name;
    var y :| 0 <= y < |g| && g[y] == services[j].name;
    NamedIff(services, risks, i);
    NamedIff(services, risks, j);
    var z :| 0 <= z < |g| && g[z] == Least(g);
    assert x != y && x != z && y != z;
  }

  lemma FindTwo(services: seq<Service>, risks: seq<Risk>, project: string, a: string, b: string)
    requires BatchingRisks(services, risks) && DistinctNames(services)
    requires forall i :: 0 <= i < |services| ==> Trim(services[i].name) != ""
    requires a != b && a in Group(services, project) && b in Group(services, project)
    requires a != Least(Group(services, project)) && b != Least(Group(services, project))
    ensures exists i, j :: RunTogether(services, risks, project, i, j)
  {
    GroupIff(services, project, a);
    GroupIff(services, project, b);
    var i :| 0 <= i < |services| && services[i].name == a && Member(services[i], project);
    var j :| 0 <= j < |services| && services[j].name == b && Member(services[j], project);
    NamedIff(services, risks, i);
    NamedIff(services, risks, j);
    assert RunTogether(services, risks, project, if i < j then i else j, if i < j then j else i);
  }

  // ----- several services under one alias -----

  /** Two different services that the check lets through and that would run as one job. */
  ghost predicate ShareJob(services: seq<Service>, risks: seq<Risk>, i: nat, j: nat) {
    && i < |services| && j < |services| && i != j && Alias(services[i]) == Alias(services[j])
    && !NamesService(risks, services[i].name) && !NamesService(risks, services[j].name)
  }

  predicate SameProject(a: Service, b: Service) {
    Member(a, a.project) && Member(b, a.project)
  }

  /** One alias for two services that are not the only ones of it, or not of one project. */
  predicate Clash(services: seq<Service>, i: nat, j: nat) {
    && i < |services| && j < |services| && i != j && Alias(services[i]) == Alias(services[j])
    && (SameProject(services[i], services[j]) ==>
          exists k: nat :: k < |services| && k != i && k != j && Alias(services[k]) == Alias(services[i]))
  }

  predicate NamesGiven(services: seq<Service>) {
    DistinctNames(services) && forall i :: 0 <= i < |services| ==> Trim(services[i].name) != ""
  }

  /** Someone of each service's project is let through: the service itself or, when it is the
      one the check names, another one. */
  lemma SomeoneLeft(services: seq<Service>, risks: seq<Risk>, i: nat) returns (k: nat)
    requires BatchingRisks(services, risks) && NamesGiven(services) && i < |services|
    ensures k < |services| && !NamesService(risks, services[k].name)
    ensures k == i || SameProject(services[i], services[k])
  {
    k := i;
    if NamesService(risks, services[i].name) {
      var p := services[i].project;
      var g := Group(services, p);
      NamedIff(services, risks, i);
      GroupDistinct(services, p);
      var n := if g[0] == Least(g) then g[1] else g[0];
      GroupIff(services, p, n);
      k :| 0 <= k < |services| && services[k].name == n && Member(services[k], p);
      NamedIff(services, risks, k);
    }
  }

  lemma SameProjectSameAlias(a: Service, b: Service)
    requires SameProject(a, b)
    ensures Alias(a) == Alias(b) == Trim(a.project)
  {
  }

  /** Services of two kinds under one alias: two of them are let through. */
  lemma OfTwoKinds(services: seq<Service>, risks: seq<Risk>, i: nat, j: nat) returns (x: nat, y: nat)
    requires BatchingRisks(services, risks) && NamesGiven(services)
    requires i < |services| && j < |services| && i != j && Alias(services[i]) == Alias(services[j])
    requires !SameProject(services[i], services[j])
    ensures ShareJob(services, risks, x, y)
  {
    x := SomeoneLeft(services, risks, i);
    y := SomeoneLeft(services, risks, j);
    if x != i {
      SameProjectSameAlias(services[i], services[x]);
    }
    if y != j {
      SameProjectSameAlias(services[j], services[y]);
    }
  }

  lemma GroupHas(services: seq<Service>, project: string, i: nat)
    requires i < |services| && Member(services[i], project)
    ensures services[i].name in Group(services, project)
  {
    GroupIff(services, project, services[i].name);
  }

  lemma ThreeInGroup(g: seq<string>, a: string, b: string, c: string)
    requires a in g && b in g && c in g && a != b && a != c && b != c
    ensures |g| >= 3
  {
    var x :| 0 <= x < |g| && g[x] == a;
    var y :| 0 <= y < |g| && g[y] == b;
    var z :| 0 <= z < |g| && g[z] == c;
    assert x != y && x != z && y != z;
  }

  lemma ClashShares(services: seq<Service>, risks: seq<Risk>, i: nat, j: nat) returns (x: nat, y: nat)
    requires BatchingRisks(services, risks) && NamesGiven(services) && Clash(services, i, j)
    ensures ShareJob(services, risks, x, y)
  {
    if SameProject(services[i], services[j]) {
      var k: nat :| k < |services| && k != i && k != j && Alias(services[k]) == Alias(services[i]);
      if SameProject(services[i], services[k]) {
        var p := services[i].project;
        GroupHas(services, p, i);
        GroupHas(services, p, j);
        GroupHas(services, p, k);
        ThreeInGroup(Group(services, p), services[i].name, services[j].name, services[k].name);
        TogetherIff(services, risks, p);
        x, y :| RunTogether(services, risks, p, x, y);
        TogetherShareAlias(services, risks, p, x, y);
      } else {
        x, y := OfTwoKinds(services, risks, i, k);
      }
    } else {
      x, y := OfTwoKinds(services, risks, i, j);
    }
  }

  lemma ShareClashes(services: seq<Service>, risks: seq<Risk>, i: nat, j: nat)
    requires BatchingRisks(services, risks) && NamesGiven(services) && ShareJob(services, risks, i, j)
    ensures Clash(services, i, j)
  {
    if SameProject(services[i], services[j]) {
      var p := services[i].project;
      var x, y := if i < j then i else j, if i < j then j else i;
      assert RunTogether(services, risks, p, x, y);
      TogetherIff(services, risks, p);
      ThirdMember(services, p, i, j);
    }
  }

  lemma ThirdName(g: seq<string>, a: string, b: string) returns (n: string)
    requires |g| >= 3 && g[0] != g[1] && g[0] != g[2] && g[1] != g[2]
    ensures n in g && n != a && n != b
  {
    n := if g[0] != a && g[0] != b then g[0] else if g[1] != a && g[1] != b then g[1] else g[2];
  }

  lemma ThirdMember(services: seq<Service>, p: string, i: nat, j: nat)
    requires NamesGiven(services) && |Group(services, p)| >= 3
    requires i < |services| && j < |services| && Member(services[i], p) && Member(services[j], p)
    ensures exists k: nat :: k < |services| && k != i && k != j && Alias(services[k]) == Alias(services[i])
  {
    GroupDistinct(services, p);
    var n := ThirdName(Group(services, p), services[i].name, services[j].name);
    GroupIff(services, p, n);
    var k :| 0 <= k < |services| && services[k].name == n && Member(services[k], p);
    assert Alias(services[k]) == Trim(p) == Alias(services[i]);
  }

  /** Main result, over all services and their aliases: the check keeps two services from
      running as one job exactly when services that share an alias come as the two members of
      one project and nothing else. Three of a project, a plain container named like a
      project, or two projects that differ by blanks only, get past it. */
  lemma ShareJobIff(services: seq<Service>, risks: seq<Risk>)
    requires BatchingRisks(services, risks) && NamesGiven(services)
    ensures (exists i, j :: ShareJob(services, risks, i, j)) <==> (exists i, j :: Clash(services, i, j))
  {
    if i, j :| ShareJob(services, risks, i, j) {
      ShareClashes(services, risks, i, j);
    }
    if i, j :| Clash(services, i, j) {
      var x, y := ClashShares(services, risks, i, j);
    }
  }

  lemma ThreeClash(a: Service, b: Service, c: Service)
    requires Alias(a) == Alias(b) == Alias(c)
    ensures Clash([a, b, c], 0, 1)
  {
    assert [a, b, c][2] == c;
  }

  /** Three services of a project: the check speaks up, and two of them still share a job. */
  method ThreeOfAProject() returns (services: seq<Service>, risks: seq<Risk>)
    ensures services == [Service("a", true, "p"), Service("b", true, "p"), Service("c", true, "p")]
    ensures BatchingRisks(services, risks) && exists i, j :: ShareJob(services, risks, i, j)
  {
    var a, b, c := Service("a", true, "p"), Service("b", true, "p"), Service("c", true, "p");
    services := [a, b, c];
    risks := VerifyProjectBatching(services);
    ThreeClash(a, b, c);
    assert Trim(a.name) == a.name && Trim(b.name) == b.name && Trim(c.name) == c.name;
    ShareJobIff(services, risks);
  }

  lemma OneMemberAtMost(a: Service, b: Service, p: string)
    requires !Member(b, p)
    ensures !Crowded([a, b], p)
  {
    assert [a, b][..1] == [a] && [a][..0] == [];
    assert Group([a], p) == Group([], p) + if Member(a, p) then [a.name] else [];
    assert Group([a, b], p) == Group([a], p) + [];
  }

  /** A plain container named like a project of one service: the check is silent. */
  method ContainerLikeAProject() returns (services: seq<Service>, risks: seq<Risk>)
    ensures services == [Service("web", true, "p"), Service("p", false, "")]
    ensures risks == [] && ShareJob(services, risks, 0, 1)
  {
    services := [Service("web", true, "p"), Service("p", false, "")];
    risks := VerifyProjectBatching(services);
    assert Trim("p") == "p";
    if risks != [] {
      assert risks[0] in risks;
      OneMemberAtMost(services[0], services[1], risks[0].detail);
      assert false;
    }
  }
}
