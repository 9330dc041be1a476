/** The three-way risk summary of a migration plan (internal/migration/plan.go). */
module Risks {
  /** The risk codes by severity; the remaining ones are warnings. */
  datatype Code =
    | AnalysisBlocker | SourceDockerUnavailable | SourceResticMissing | SourceHelperImageMissing | SourceDiskFull
    | TargetDockerUnavailable | TargetComposeMissing | TargetResticMissing | TargetHelperImageMissing | TargetDiskFull
    | TargetPathUnavailable | ApplySourceMissing | ApplySourceDrift | ApplyTargetContainerConflict
    | ApplyTargetProjectConflict | ApplyTargetPortConflict | ApplyTargetPathConflict | ApplyTargetImageMissing
    | ApplyProjectMultiService
    | TargetUnspecified | BackupRepository | ManualPreparation | SystemMount | HealthHttpNotConfigured
    | Other(code: string)

  datatype Risk = Risk(code: Code, service: string, detail: string, action: string)

  datatype Bucket = Blockers | Warnings | FollowUps

  /** isBlocker and isFollowUp. */
  function Severity(r: Risk): Bucket {
    match r.code
    case Other(_) => Warnings
    case TargetUnspecified => FollowUps
    case BackupRepository => FollowUps
    case ManualPreparation => FollowUps
    case SystemMount => FollowUps
    case HealthHttpNotConfigured => FollowUps
    case _ => Blockers
  }

  /** What makes two risks the same: everything but the advice. */
  predicate Same(a: Risk, b: Risk) {
    a.code == b.code && a.service == b.service && a.detail == b.detail
  }

  predicate Contains(list: seq<Risk>, r: Risk) {
    exists i :: 0 <= i < |list| && Same(list[i], r)
  }

  datatype Summary = Summary(blockers: seq<Risk>, warnings: seq<Risk>, followUps: seq<Risk>) {
    function Get(b: Bucket): seq<Risk> {
      match b
      case Blockers => blockers
      case Warnings => warnings
      case FollowUps => followUps
    }

    predicate Knows(r: Risk) {
      Contains(blockers, r) || Contains(warnings, r) || Contains(followUps, r)
    }
  }

  const EMPTY := Summary([], [], [])

  function AddOne(s: Summary, r: Risk): Summary {
    if s.Knows(r) then s
    else
      match Severity(r)
      case Blockers => s.(blockers := s.blockers + [r])
      case Warnings => s.(warnings := s.warnings + [r])
      case FollowUps => s.(followUps := s.followUps + [r])
  }

  /** Adding risks, one after the other. */
  function Added(s: Summary, risks: seq<Risk>): Summary {
    if risks == [] then s else AddOne(Added(s, risks[..|risks| - 1]), risks[|risks| - 1])
  }

  method ListContains(list: seq<Risk>, r: Risk) returns (found: bool)
    ensures found == Contains(list, r)
  {
    for i := 0 to |list|
      invariant forall j :: 0 <= j < i ==> !Same(list[j], r)
    {
      if list[i].code == r.code && list[i].service == r.service && list[i].detail == r.detail {
        assert Same(list[i], r);
        return true;
      }
    }
    return false;
  }

  class RiskSummary {
    var blockers: seq<Risk>
    var warnings: seq<Risk>
    var followUps: seq<Risk>

    function View(): Summary
      reads this
    {
      Summary(blockers, warnings, followUps)
    }

    constructor ()
      ensures View() == EMPTY
    {
      blockers, warnings, followUps := [], [], [];
    }

    /** Add. */
    method Add(risks: seq<Risk>)
      modifies this
      ensures View() == Added(old(View()), risks)
    {
      for k := 0 to |risks|
        invariant View() == Added(old(View()), risks[..k])
      {
        assert risks[..k + 1][..k] == risks[..k];
        AddRisk(risks[k]);
      }
      assert risks[..|risks|] == risks;
    }

    method AddRisk(r: Risk)
      modifies this
      ensures View() == AddOne(old(View()), r)
    {
      var known := ListContains(blockers, r);
      if known {
        return;
      }
      known := ListContains(warnings, r);
      if known {
        return;
      }
      known := ListContains(followUps, r);
      if known {
        return;
      }
      match Severity(r) {
        case Blockers => blockers := blockers + [r];
        case FollowUps => followUps := followUps + [r];
        case Warnings => warnings := warnings + [r];
      }
    }
  }

  // ----- laws -----

  /** Every bucket holds its own severity, and no risk twice. */
  predicate Clean(list: seq<Risk>, b: Bucket) {
    && (forall i :: 0 <= i < |list| ==> Severity(list[i]) == b)
    && (forall i, j :: 0 <= i < j < |list| ==> !Same(list[i], list[j]))
  }

  predicate Sound(s: Summary) {
    Clean(s.blockers, Blockers) && Clean(s.warnings, Warnings) && Clean(s.followUps, FollowUps)
  }

  lemma CleanGrows(list: seq<Risk>, b: Bucket, r: Risk)
    requires Clean(list, b) && Severity(r) == b && !Contains(list, r)
    ensures Clean(list + [r], b)
  {
  }

  /** In a sound summary a known risk is in its own bucket and in no other. */
  lemma KnownWhere(s: Summary, r: Risk)
    requires Sound(s)
    ensures s.Knows(r) <==> Contains(s.Get(Severity(r)), r)
    ensures forall b :: b != Severity(r) ==> !Contains(s.Get(b), r)
  {
    forall b | b != Severity(r) ensures !Contains(s.Get(b), r) {
      forall i | 0 <= i < |s.Get(b)| ensures !Same(s.Get(b)[i], r) {
        assert Severity(s.Get(b)[i]) == b;
      }
    }
    assert s.Get(Blockers) == s.blockers && s.Get(Warnings) == s.warnings && s.Get(FollowUps) == s.followUps;
  }

  lemma ContainsGrows(list: seq<Risk>, r: Risk, q: Risk)
    ensures Contains(list + [r], q) <==> Contains(list, q) || Same(r, q)
  {
    var all := list + [r];
    assert all[|list|] == r;
    if Contains(list, q) {
      var i :| 0 <= i < |list| && Same(list[i], q);
      assert Same(all[i], q);
    }
    if Contains(all, q) {
      var i :| 0 <= i < |all| && Same(all[i], q);
      assert i < |list| ==> Same(list[i], q);
    }
  }

  /** One addition: what is known afterwards. */
  lemma AddOneKnows(s: Summary, r: Risk, q: Risk)
    ensures AddOne(s, r).Knows(q) <==> s.Knows(q) || Same(r, q)
  {
    ContainsGrows(s.blockers, r, q);
    ContainsGrows(s.warnings, r, q);
    ContainsGrows(s.followUps, r, q);
    if s.Knows(r) && Same(r, q) {
      KnowsSame(s.blockers, r, q);
      KnowsSame(s.warnings, r, q);
      KnowsSame(s.followUps, r, q);
    }
  }

  lemma KnowsSame(list: seq<Risk>, r: Risk, q: Risk)
    requires Same(r, q)
    ensures Contains(list, r) <==> Contains(list, q)
  {
    if Contains(list, r) {
      var i :| 0 <= i < |list| && Same(list[i], r);
      assert Same(list[i], q);
    }
    if Contains(list, q) {
      var i :| 0 <= i < |list| && Same(list[i], q);
      assert Same(list[i], r);
    }
  }

  /** Main result: any sequence of additions keeps the summary sound, forgets nothing and
      invents nothing. */
  lemma {:induction false} AddedMeaning(s: Summary, risks: seq<Risk>)
    requires Sound(s)
    ensures Sound(Added(s, risks))
    ensures forall q :: Added(s, risks).Knows(q) <==> s.Knows(q) || Contains(risks, q)
    ensures forall b :: s.Get(b) <= Added(s, risks).Get(b)
  {
    if risks != [] {
      var front, r := risks[..|risks| - 1], risks[|risks| - 1];
      AddedMeaning(s, front);
      var mid := Added(s, front);
      AddOneSound(mid, r);
      forall q ensures Added(s, risks).Knows(q) <==> s.Knows(q) || Contains(risks, q) {
        AddOneKnows(mid, r, q);
        assert risks == front + [r];
        ContainsGrows(front, r, q);
      }
    }
  }

  lemma AddOneSound(s: Summary, r: Risk)
    requires Sound(s)
    ensures Sound(AddOne(s, r))
    ensures forall b :: s.Get(b) <= AddOne(s, r).Get(b)
  {
    if !s.Knows(r) {
      match Severity(r)
      case Blockers => CleanGrows(s.blockers, Blockers, r);
      case Warnings => CleanGrows(s.warnings, Warnings, r);
      case FollowUps => CleanGrows(s.followUps, FollowUps, r);
    }
  }

  /** Main result: adding what is already known, in any order and number, changes nothing. */
  lemma {:induction false} AddingKnownIsNothing(s: Summary, risks: seq<Risk>)
    requires forall i :: 0 <= i < |risks| ==> s.Knows(risks[i])
    ensures Added(s, risks) == s
  {
    if risks != [] {
      AddingKnownIsNothing(s, risks[..|risks| - 1]);
    }
  }

  /** So adding the same risks once more changes nothing. */
  lemma AddingAgain(s: Summary, risks: seq<Risk>)
    requires Sound(s)
    ensures Added(Added(s, risks), risks) == Added(s, risks)
  {
    AddedMeaning(s, risks);
    forall i | 0 <= i < |risks| ensures Added(s, risks).Knows(risks[i]) {
      assert Same(risks[i], risks[i]);
      assert Contains(risks, risks[i]);
    }
    AddingKnownIsNothing(Added(s, risks), risks);
  }

  /** Main result: in the summary of a list, a risk of the list is in the bucket of its own
      severity and in no other, and nothing else is in any bucket. */
  lemma SummaryMeaning(risks: seq<Risk>, q: Risk, b: Bucket)
    ensures Contains(Added(EMPTY, risks).Get(b), q) <==> Contains(risks, q) && b == Severity(q)
  {
    AddedMeaning(EMPTY, risks);
    KnownWhere(Added(EMPTY, risks), q);
    assert !EMPTY.Knows(q);
  }
}
