/** The package-relative paths of a container manifest (internal/docker/manifest.go):
    which are accepted, and where they resolve to under the package root. */
module PackagePaths {
  import opened Wrappers
  import opened GoPath
  import opened Substrings
  import opened Text
  import PathUtil

  datatype PathError = Required | ControlCharacter | NotRelative | DrivePrefix | NotClean

  /** validatePackageRelativePath: the reason a value is refused, if it is. */
  function Refusal(value: string): Option<PathError> {
    if Blank(value) then Some(Required)
    else if HasControlCharacter(value) then Some(ControlCharacter)
    else if HasPrefix(value, "/") || HasPrefix(value, "\\") then Some(NotRelative)
    else if |value| >= 2 && value[1] == ':' then Some(DrivePrefix)
    else
      var n := Slashed(value);
      if IsAbs(n) || Clean(n) != n || n == "." || n == ".." || HasPrefix(n, "../") || Contains(n, "/../")
      then Some(NotClean)
      else None
  }

  predicate AllOrdinary(segs: seq<string>) {
    forall k :: 0 <= k < |segs| ==> Ordinary(segs[k])
  }

  // ----- acceptance, characterised -----

  /** A relative normal form with a ".." shows it at the front. */
  lemma DotDotLeads(segs: seq<string>, i: nat)
    requires Normal(Parsed(false, segs)) && i < |segs| && segs[i] == ".."
    ensures Glue(segs) == ".." || HasPrefix(Glue(segs), "../")
  {
    assert segs[0] == "..";
    GlueUps(segs);
  }

  lemma GlueUps(segs: seq<string>)
    requires segs != [] && segs[0] == ".."
    ensures Glue(segs) == ".." || HasPrefix(Glue(segs), "../")
  {
    if |segs| > 1 {
      assert Glue(segs)[..3] == "../";
    }
  }

  lemma CleanMeansOrdinary(n: string)
    requires !IsAbs(n) && Clean(n) == n && n != "." && n != ".." && !HasPrefix(n, "../")
    ensures AllOrdinary(Split(n))
  {
    ParseNormal(n);
    var segs := Parse(n).segs;
    SplitGlueNormal(Parse(n));
    forall i | 0 <= i < |segs| ensures Ordinary(segs[i]) {
      if segs[i] == ".." {
        DotDotLeads(segs, i);
      }
    }
  }

  lemma LeadingDotDot(n: string)
    requires HasPrefix(n, "../")
    ensures Split(n)[0] == ".."
  {
    assert n == ".." + "/" + n[3..];
    SplitAtSlash("..", n[3..]);
    SplitPlain("..");
  }

  lemma OrdinaryMeansClean(n: string)
    requires AllOrdinary(Split(n))
    ensures !IsAbs(n) && Clean(n) == n && n != "." && n != ".." && !HasPrefix(n, "../") && !Contains(n, "/../")
  {
    var segs := Split(n);
    GlueSplit(n);
    SplitGlueNormal(Parsed(false, segs));
    SplitPlain(".");
    SplitPlain("..");
    if HasPrefix(n, "../") {
      LeadingDotDot(n);
    }
    if i :| 0 <= i <= |n| && At(n, i, "/../") {
      DotDotInside(n, i);
    }
  }

  lemma DotDotInside(n: string, i: nat)
    requires At(n, i, "/../")
    ensures ".." in Split(n)
  {
    var before, after := n[..i], n[i + 4..];
    assert n == before + "/" + (".." + "/" + after) by {
      assert n == before + n[i..i + 4] + after;
    }
    SplitAtSlash(before, ".." + "/" + after);
    SplitAtSlash("..", after);
    SplitPlain("..");
    assert ([".."] + Split(after))[0] == "..";
    assert Split(n)[|Split(before)|] == "..";
  }

  /** A value is accepted exactly when it is visible text without a drive prefix whose
      segments, cut at either kind of slash, are all named. */
  lemma AcceptedIff(value: string)
    ensures Refusal(value) == None <==>
            && !Blank(value) && !HasControlCharacter(value)
            && !(|value| >= 2 && value[1] == ':')
            && AllOrdinary(Split(Slashed(value)))
  {
    var n := Slashed(value);
    assert HasPrefix(value, "/") || HasPrefix(value, "\\") ==> n[0] == '/';
    if AllOrdinary(Split(n)) {
      OrdinaryMeansClean(n);
    } else if Refusal(value) == None {
      CleanMeansOrdinary(n);
    }
  }

  // ----- backslashes -----

  lemma SlashedConcat(a: string, b: string)
    ensures Slashed(a + "/" + b) == Slashed(a) + "/" + Slashed(b)
  {
  }

  /** If cutting at both kinds of slash gives named segments, so it does inside each
      segment cut at '/' only. */
  lemma {:induction false} FinerSegments(segs: seq<string>, k: nat)
    requires k < |segs| && AllOrdinary(Split(Slashed(Glue(segs))))
    ensures AllOrdinary(Split(Slashed(segs[k])))
  {
    if |segs| > 1 {
      var head, tail := Split(Slashed(segs[0])), Split(Slashed(Glue(segs[1..])));
      SlashedConcat(segs[0], Glue(segs[1..]));
      SplitAtSlash(Slashed(segs[0]), Slashed(Glue(segs[1..])));
      assert forall i :: 0 <= i < |head| ==> (head + tail)[i] == head[i];
      assert forall i :: 0 <= i < |tail| ==> (head + tail)[|head| + i] == tail[i];
      if k > 0 {
        FinerSegments(segs[1..], k - 1);
      }
    }
  }

  /** A segment that is not named stays so when slashed. */
  lemma UnnamedStays(seg: string)
    requires '/' !in seg && !Ordinary(seg)
    ensures !AllOrdinary(Split(Slashed(seg)))
  {
    assert Slashed(seg) == seg;
    SplitPlain(seg);
    assert Split(Slashed(seg))[0] == seg;
  }

  /** An accepted value has named segments even where the target shell, unlike the
      check, sees backslashes as ordinary characters. */
  lemma AcceptedSegments(value: string)
    requires Refusal(value) == None
    ensures AllOrdinary(Split(value))
  {
    AcceptedIff(value);
    var segs := Split(value);
    GlueSplit(value);
    forall k | 0 <= k < |segs| ensures Ordinary(segs[k]) {
      FinerSegments(segs, k);
      if !Ordinary(segs[k]) {
        UnnamedStays(segs[k]);
      }
    }
  }

  // ----- resolution -----

  predicate IsWithinRoot(root: string, candidate: string) {
    match Rel(root, candidate)
    case None => false
    case Some(rel) => rel != ".." && !HasPrefix(rel, "../") && !IsAbs(rel)
  }

  datatype Resolution = Resolved(path: string) | Refused(error: PathError) | Escapes

  /** ResolvePath: validate, join, and check a second time that the result is inside. */
  function ResolvePath(root: string, relative: string): Resolution {
    match Refusal(relative)
    case Some(e) => Refused(e)
    case None =>
      var cleanRoot := Clean(root);
      var resolved := Clean(Join(cleanRoot, relative));
      if IsWithinRoot(cleanRoot, resolved) then Resolved(resolved) else Escapes
  }

  lemma {:induction false} CommonOfExtension(a: seq<string>, b: seq<string>)
    ensures CommonLength(a, a + b) == |a|
  {
    if a != [] {
      assert (a + b)[1..] == a[1..] + b;
      CommonOfExtension(a[1..], b);
    }
  }

  lemma RelOfExtension(root: string, full: string, more: seq<string>)
    requires more != [] && Parse(full) == Parsed(IsAbs(root), Segs(root) + more)
    ensures Rel(root, full) == Some(Glue(more))
  {
    var b := Segs(root);
    CommonOfExtension(b, more);
    assert (b + more)[|b|..] == more && seq(0, i => "..") + more == more;
    assert |b + more| > |b|;
  }

  /** Whatever the root, an accepted path resolves to the root's segments followed by
      its own; the second check never refuses it. */
  lemma ResolveSucceeds(root: string, relative: string)
    requires Refusal(relative) == None
    ensures var target := Parsed(IsAbs(root), Segs(root) + Split(relative));
            && ResolvePath(root, relative) == Resolved(Render(target))
            && Parse(Render(target)) == target
  {
    var cleanRoot, segs := Clean(root), Split(relative);
    AcceptedSegments(relative);
    OrdinaryMeansClean(relative);
    ParseNormal(root);
    OrdinaryAppended(Parse(root), segs);
    var target := Parsed(IsAbs(root), Segs(root) + segs);
    ParseRender(target);
    CleanNotEmpty(root);
    CleanIdempotent(root);
    ParseJoin(cleanRoot, relative);
    RelOfExtension(cleanRoot, Render(target), segs);
    GlueSplit(relative);
  }

  lemma RenderExtension(front: seq<string>, more: seq<string>)
    requires more != []
    ensures "/" + Glue(front + more) == if front == [] then "/" + Glue(more) else "/" + Glue(front) + "/" + Glue(more)
  {
    if front == [] {
      assert front + more == more;
    } else {
      GlueConcat(front, more);
      Slashes(Glue(front), Glue(more));
    }
  }

  lemma Slashes(a: string, b: string)
    ensures "/" + (a + "/" + b) == "/" + a + "/" + b
  {
  }

  /** Under an absolute root: the result is the cleaned root, a slash and the path, and
      lies below the root on a path boundary. */
  lemma ResolveUnderAbsoluteRoot(root: string, relative: string)
    requires IsAbs(root) && Refusal(relative) == None
    ensures var under := if Clean(root) == "/" then "/" + relative else Clean(root) + "/" + relative;
            && ResolvePath(root, relative) == Resolved(under)
            && CleanAbs(under) && PathUtil.HasPathPrefix(under, Clean(root)) && under != Clean(root)
  {
    var front, more := Segs(root), Split(relative);
    ResolveSucceeds(root, relative);
    GlueSplit(relative);
    CleanIsCleanAbs(root);
    CleanAbsSegs(Clean(root));
    RenderExtension(front, more);
    var under := Render(Parsed(true, front + more));
    assert |front + more| > |front| && front <= front + more;
    PathUtil.HasPathPrefixIsSegmentPrefix(under, Clean(root));
  }

  /** Distinct package paths never resolve to the same file. */
  lemma ResolveInjective(root: string, a: string, b: string)
    requires Refusal(a) == None && Refusal(b) == None
    requires ResolvePath(root, a) == ResolvePath(root, b)
    ensures a == b
  {
    ResolveSucceeds(root, a);
    ResolveSucceeds(root, b);
    var x, y := Segs(root) + Split(a), Segs(root) + Split(b);
    assert x == y && x[|Segs(root)|..] == Split(a) && y[|Segs(root)|..] == Split(b);
    GlueSplit(a);
    GlueSplit(b);
  }

  /** The second check on its own: for absolute paths it is the boundary prefix test. */
  lemma WithinRootIff(root: string, candidate: string)
    requires CleanAbs(root) && CleanAbs(candidate)
    ensures IsWithinRoot(root, candidate) <==> PathUtil.HasPathPrefix(candidate, root)
  {
    PathUtil.HasPathPrefixIsSegmentPrefix(candidate, root);
    CleanAbsSegs(root);
    CleanAbsSegs(candidate);
    var b, t := Segs(root), Segs(candidate);
    if b == t {
    } else if b <= t {
      BelowRoot(root, candidate);
    } else {
      BesideRoot(root, candidate);
    }
  }

  lemma BelowRoot(root: string, candidate: string)
    requires CleanAbs(root) && CleanAbs(candidate) && Segs(root) < Segs(candidate)
    ensures IsWithinRoot(root, candidate)
  {
    var b, t := Segs(root), Segs(candidate);
    CleanAbsSegs(candidate);
    var more := t[|b|..];
    assert t == b + more;
    RelOfExtension(root, candidate, more);
    assert forall k :: 0 <= k < |more| ==> more[k] == t[|b| + k];
    SplitGlue(more);
    OrdinaryMeansClean(Glue(more));
  }

  /** The relative path to something outside goes up from the root first. */
  lemma RelOfBeside(root: string, candidate: string) returns (n: nat, down: seq<string>)
    requires CleanAbs(root) && CleanAbs(candidate) && !(Segs(root) <= Segs(candidate))
    ensures n > 0 && Rel(root, candidate) == Some(Glue(seq(n, i => "..") + down))
  {
    var b, t := Segs(root), Segs(candidate);
    var k := CommonLength(b, t);
    n, down := |b| - k, t[k..];
    CleanAbsSegs(root);
    assert b[..k] == t[..k] && b[..|b|] == b;
  }

  lemma BesideRoot(root: string, candidate: string)
    requires CleanAbs(root) && CleanAbs(candidate) && !(Segs(root) <= Segs(candidate))
    ensures !IsWithinRoot(root, candidate)
  {
    var n, down := RelOfBeside(root, candidate);
    UpsLead(n, down);
  }

  /** A path that has to go up first. */
  lemma UpsLead(n: nat, segs: seq<string>)
    requires n > 0
    ensures var rel := Glue(seq(n, i => "..") + segs); rel == ".." || HasPrefix(rel, "../")
  {
    GlueUps(seq(n, i => "..") + segs);
  }
}
