/** Path remapping for cross-machine restores (internal/backup/remap.go), the place a
    remapping restore script copies to (internal/backup/script.go) and the place the
    restore later looks at (RestoredPath, internal/backup/restore_runner.go). */
module Remap {
  import opened GoPath
  import PathUtil

  /** Cleaned, with a slash put in front when there is none. */
  function Normalize(p: string): string {
    if IsAbs(Clean(p)) then Clean(p) else "/" + Clean(p)
  }

  // ----- building the rules -----

  /** The cleaned rules, as key-target pairs. */
  function Cleaned(rules: map<string, string>): set<(string, string)> {
    set k | k in rules :: (Normalize(k), Normalize(rules[k]))
  }

  /** `out` has every cleaned key, each with the target of some pair that has it. */
  predicate Normalizes(out: map<string, string>, pairs: set<(string, string)>) {
    && (forall p :: p in pairs ==> p.0 in out)
    && (forall n :: n in out ==> (n, out[n]) in pairs)
  }

  /** NewPathRemapper: the rules are visited in an arbitrary order, later ones win. */
  method NewPathRemapper(rules: map<string, string>) returns (normalized: map<string, string>)
    ensures Normalizes(normalized, Cleaned(rules))
  {
    normalized := map[];
    var todo := rules.Keys;
    while todo != {}
      invariant todo <= rules.Keys
      invariant forall k :: k in rules && k !in todo ==> Normalize(k) in normalized
      invariant forall n :: n in normalized ==> (n, normalized[n]) in Cleaned(rules)
      decreases |todo|
    {
      var k :| k in todo;
      todo := todo - {k};
      var key, target := Normalize(k), Normalize(rules[k]);
      assert (key, target) in Cleaned(rules);
      normalized := normalized[key := target];
    }
  }

  /** No two rules clean to the same key with different targets. */
  predicate Consistent(pairs: set<(string, string)>) {
    forall p, q :: p in pairs && q in pairs && p.0 == q.0 ==> p.1 == q.1
  }

  /** The rules do not depend on map order exactly when they are consistent. */
  lemma OrderIrrelevantIff(pairs: set<(string, string)>)
    ensures Consistent(pairs) <==> forall a, b :: Normalizes(a, pairs) && Normalizes(b, pairs) ==> a == b
  {
    if !Consistent(pairs) {
      var p, q :| p in pairs && q in pairs && p.0 == q.0 && p.1 != q.1;
      var base := SomeNormalization(pairs, pairs);
      var a, b := base[p.0 := p.1], base[q.0 := q.1];
      assert Normalizes(a, pairs) && Normalizes(b, pairs) && a[p.0] != b[p.0];
    }
  }

  /** Two raw rules that clean to one key but not to one target: the result depends on the
      order. */
  lemma ClashingRules(raw: map<string, string>, k: string, l: string) returns (a: map<string, string>, b: map<string, string>)
    requires k in raw && l in raw && Normalize(k) == Normalize(l) && Normalize(raw[k]) != Normalize(raw[l])
    ensures Normalizes(a, Cleaned(raw)) && Normalizes(b, Cleaned(raw)) && a != b
  {
    assert (Normalize(k), Normalize(raw[k])) in Cleaned(raw) && (Normalize(l), Normalize(raw[l])) in Cleaned(raw);
    OrderIrrelevantIff(Cleaned(raw));
    a, b :| Normalizes(a, Cleaned(raw)) && Normalizes(b, Cleaned(raw)) && a != b;
  }

  /** For instance a key with and without a slash behind it. */
  lemma SlashedKeyClashes(name: string, x: string, y: string, raw: map<string, string>)
    returns (a: map<string, string>, b: map<string, string>)
    requires Ordinary(name) && Ordinary(x) && Ordinary(y) && x != y
    requires raw == map["/" + name := "/" + x, "/" + name + "/" := "/" + y]
    ensures Normalizes(a, Cleaned(raw)) && Normalizes(b, Cleaned(raw)) && a != b
  {
    var k, l := "/" + name, "/" + name + "/";
    CleanOne(name);
    CleanOne(x);
    CleanOne(y);
    assert |k| != |l| && ("/" + x)[1..] == x && ("/" + y)[1..] == y;
    a, b := ClashingRules(raw, k, l);
  }

  lemma OrderMatters() returns (raw: map<string, string>, a: map<string, string>, b: map<string, string>)
    ensures raw == map["/a" := "/x", "/a/" := "/y"]
    ensures Normalizes(a, Cleaned(raw)) && Normalizes(b, Cleaned(raw)) && a != b
  {
    raw := map["/a" := "/x", "/a/" := "/y"];
    assert "/" + "a" == "/a" && "/a" + "/" == "/a/" && "/" + "x" == "/x" && "/" + "y" == "/y";
    a, b := SlashedKeyClashes("a", "x", "y", raw);
  }

  lemma OneKept(name: string)
    requires Ordinary(name)
    ensures Reduce(true, [], ["", name]) == [name] && Reduce(true, [], ["", name, ""]) == [name]
  {
    assert ["", name][1..] == [name] && [name][1..] == [] && ["", name] + [""] == ["", name, ""];
    assert Push(true, [], "") == [] && Push(true, [], name) == [name] && Push(true, [name], "") == [name];
    assert Reduce(true, [], [name]) == Reduce(true, [name], []);
    ReduceConcat(true, [], ["", name], [""]);
    assert [""][1..] == [] && Reduce(true, [name], [""]) == Reduce(true, [name], []);
  }

  lemma CleanOne(name: string)
    requires Ordinary(name)
    ensures Normalize("/" + name) == "/" + name && Normalize("/" + name + "/") == "/" + name
  {
    OneKept(name);
    SplitPlain(name);
    SplitBehindSlash(name);
    SplitAtSlash("/" + name, "");
    SplitPlain("");
    assert "/" + name + "/" + "" == "/" + name + "/";
    assert Split("/" + name) == ["", name] && Split("/" + name + "/") == ["", name, ""];
  }

  lemma {:induction false} SomeNormalization(pairs: set<(string, string)>, part: set<(string, string)>)
    returns (out: map<string, string>)
    requires part <= pairs
    ensures forall p :: p in part ==> p.0 in out
    ensures forall n :: n in out ==> (n, out[n]) in pairs
    decreases |part|
  {
    out := map[];
    if part != {} {
      var p :| p in part;
      out := SomeNormalization(pairs, part - {p});
      out := out[p.0 := p.1];
    }
  }

  // ----- applying the rules -----

  /** The test of the scan: equal, or below with a slash between. */
  predicate Matches(rule: string, path: string) {
    path == rule || HasPrefix(path, rule + "/")
  }

  /** No matching rule is longer than `k`. */
  predicate Longest(rules: map<string, string>, k: string, path: string) {
    k in rules && Matches(k, path) && forall l :: l in rules && Matches(l, path) ==> |l| <= |k|
  }

  /** Ties cannot occur: two matching rules of one length are the same rule. */
  lemma MatchesUnique(k: string, l: string, path: string)
    requires Matches(k, path) && Matches(l, path) && |k| == |l|
    ensures k == l
  {
    assert k == path[..|k|] && l == path[..|l|];
  }

  predicate ByLength(keys: seq<string>) {
    forall i, j :: 0 <= i < j < |keys| ==> |keys[i]| >= |keys[j]|
  }

  /** The keys in some order of descending length, as a map walk and `sort.Slice` give. */
  method SortedPrefixes(keys: set<string>) returns (sorted: seq<string>)
    ensures ByLength(sorted) && forall k :: k in keys <==> k in sorted
  {
    sorted := [];
    var todo := keys;
    while todo != {}
      invariant todo <= keys && ByLength(sorted)
      invariant forall k :: k in sorted <==> k in keys && k !in todo
      decreases |todo|
    {
      var k :| k in todo;
      todo := todo - {k};
      sorted := Inserted(sorted, k);
    }
  }

  method Inserted(sorted: seq<string>, k: string) returns (r: seq<string>)
    requires ByLength(sorted)
    ensures ByLength(r) && forall x :: x in r <==> x == k || x in sorted
  {
    var i := 0;
    while i < |sorted| && |sorted[i]| >= |k|
      invariant 0 <= i <= |sorted|
      invariant forall j :: 0 <= j < i ==> |sorted[j]| >= |k|
    {
      i := i + 1;
    }
    PutAt(sorted, i, k);
    r := sorted[..i] + [k] + sorted[i..];
  }

  lemma PutAt(sorted: seq<string>, i: nat, k: string)
    requires ByLength(sorted) && i <= |sorted|
    requires (forall j :: 0 <= j < i ==> |sorted[j]| >= |k|) && (i < |sorted| ==> |sorted[i]| < |k|)
    ensures var r := sorted[..i] + [k] + sorted[i..]; ByLength(r) && forall x :: x in r <==> x == k || x in sorted
  {
    PutBetween(sorted[..i], k, sorted[i..]);
    assert sorted == sorted[..i] + sorted[i..];
  }

  lemma PutBetween(a: seq<string>, k: string, b: seq<string>)
    requires ByLength(a) && ByLength(b)
    requires (forall j :: 0 <= j < |a| ==> |a[j]| >= |k|) && (forall j :: 0 <= j < |b| ==> |b[j]| <= |k|)
    ensures ByLength(a + [k] + b) && forall x :: x in a + [k] + b <==> x == k || x in a + b
  {
  }

  /** What Remap does, as a relation: the identity without a match, else the move of the
      longest one. */
  ghost predicate RemapsTo(rules: map<string, string>, orig: string, r: string) {
    || ((forall k :: k in rules ==> !Matches(k, Normalize(orig))) && r == orig)
    || (exists k :: Longest(rules, k, Normalize(orig)) && r == Join(rules[k], TrimPrefix(Normalize(orig), k)))
  }

  /** Remap: the first match in the sorted keys decides. The result is that of the
      longest matching rule, whatever order map and sort produced. */
  method Remap(rules: map<string, string>, orig: string) returns (r: string)
    ensures RemapsTo(rules, orig, r)
  {
    if rules == map[] {
      return orig;
    }
    var cleanOrig := Normalize(orig);
    var prefixes := SortedPrefixes(rules.Keys);
    for i := 0 to |prefixes|
      invariant forall j :: 0 <= j < i ==> !Matches(prefixes[j], cleanOrig)
    {
      var prefix := prefixes[i];
      assert prefix in rules.Keys;
      if Matches(prefix, cleanOrig) {
        FirstIsLongest(rules, prefixes, i, cleanOrig);
        return Join(rules[prefix], TrimPrefix(cleanOrig, prefix));
      }
    }
    return orig;
  }

  /** The first match in descending order of length is a longest one. */
  lemma FirstIsLongest(rules: map<string, string>, prefixes: seq<string>, i: nat, path: string)
    requires ByLength(prefixes) && (forall k :: k in rules.Keys <==> k in prefixes)
    requires i < |prefixes| && Matches(prefixes[i], path)
    requires forall j :: 0 <= j < i ==> !Matches(prefixes[j], path)
    ensures Longest(rules, prefixes[i], path)
  {
    assert prefixes[i] in rules.Keys;
    forall l | l in rules && Matches(l, path) ensures |l| <= |prefixes[i]| {
      assert l in rules.Keys;
    }
  }

  /** Independence of map order and sort ties: there is exactly one result. */
  lemma RemapDeterministic(rules: map<string, string>, orig: string, r: string, s: string)
    requires RemapsTo(rules, orig, r) && RemapsTo(rules, orig, s)
    ensures r == s
  {
    if k :| Longest(rules, k, Normalize(orig)) && r == Join(rules[k], TrimPrefix(Normalize(orig), k)) {
      var l :| Longest(rules, l, Normalize(orig)) && s == Join(rules[l], TrimPrefix(Normalize(orig), l));
      MatchesUnique(k, l, Normalize(orig));
    }
  }

  lemma SecondCharacter(path: string)
    requires CleanAbs(path) && path != "/"
    ensures |path| >= 2 && path[1] != '/'
  {
    CleanAbsSegs(path);
    GlueStarts(Segs(path));
  }

  /** A rule for the root matches the root and nothing else, because no clean path goes
      on with a second slash. */
  lemma RootMatch(k: string, path: string)
    requires CleanAbs(k) && CleanAbs(path) && Matches(k, path)
    ensures k == "/" ==> path == "/"
  {
    if k == "/" && path != "/" {
      PrefixCharacter(path, "//", 1);
      SecondCharacter(path);
    }
  }

  lemma PrefixCharacter(s: string, p: string, i: nat)
    requires HasPrefix(s, p) && i < |p|
    ensures s[i] == p[i]
  {
  }

  /** What is left of a matched path after the rule, pushed segment by segment. */
  lemma TrimmedSegs(k: string, path: string, stack: seq<string>)
    requires CleanAbs(k) && CleanAbs(path) && Matches(k, path)
    ensures Segs(k) <= Segs(path)
    ensures Reduce(true, stack, Split(TrimPrefix(path, k))) == Reduce(true, stack, Segs(path)[|Segs(k)|..])
  {
    RootMatch(k, path);
    assert Reduce(true, stack, [""]) == stack;
    if path == k {
      assert TrimPrefix(path, k) == "" && Segs(path)[|Segs(k)|..] == [];
    } else {
      AtOrBelowIsSegmentPrefix(path, k);
      var more := Segs(path)[|Segs(k)|..];
      CleanAbsSegs(path);
      assert TrimPrefix(path, k) == "/" + Glue(more);
      ProperExtension(k, path);
      SplitRooted(more);
      ReduceConcat(true, stack, [""], more);
    }
  }

  lemma ProperExtension(k: string, path: string)
    requires CleanAbs(k) && CleanAbs(path) && k != path && Segs(k) <= Segs(path)
    ensures |Segs(k)| < |Segs(path)|
  {
    var a, b := Segs(k), Segs(path);
    assert b[..|b|] == b && b[..|a|] == a;
  }

  lemma SplitRooted(more: seq<string>)
    requires more != [] && forall i :: 0 <= i < |more| ==> '/' !in more[i]
    ensures Split("/" + Glue(more)) == [""] + more
  {
    SplitGlue(more);
    SplitBehindSlash(Glue(more));
  }

  /** Moving a clean absolute path from `k` to a clean absolute target exchanges the
      leading segments and keeps the others; so the result lies under the target. */
  lemma MoveMeaning(k: string, target: string, path: string)
    requires CleanAbs(k) && CleanAbs(target) && CleanAbs(path) && Matches(k, path)
    ensures var r := Join(target, TrimPrefix(path, k));
            && CleanAbs(r)
            && Segs(k) <= Segs(path) && Segs(r) == Segs(target) + Segs(path)[|Segs(k)|..]
            && PathUtil.HasPathPrefix(r, target)
  {
    TrimmedSegs(k, path, Segs(target));
    var more := Segs(path)[|Segs(k)|..];
    CleanAbsSegs(path);
    CleanAbsSegs(target);
    ParseNormal(target);
    assert forall i :: 0 <= i < |more| ==> more[i] == Segs(path)[|Segs(k)| + i];
    OrdinaryAppended(Parse(target), more);
    ParseJoin(target, TrimPrefix(path, k));
    var x := Parsed(true, Segs(target) + more);
    ParseRender(x);
    PathUtil.HasPathPrefixIsSegmentPrefix(Render(x), target);
  }

  /** The scan agrees with the boundary prefix test of pathutil except for a rule for
      the root, which by that test would catch every path. */
  lemma MatchesIsPrefixTestIff(k: string, path: string)
    requires CleanAbs(k) && CleanAbs(path)
    ensures (Matches(k, path) <==> PathUtil.HasPathPrefix(path, k)) <==> (k != "/" || path == "/")
  {
    PathUtil.HasPathPrefixIsSegmentPrefix(path, k);
    CleanAbsSegs(k);
    if k != "/" {
      AtOrBelowIsSegmentPrefix(path, k);
    } else if Matches(k, path) {
      RootMatch(k, path);
    }
  }

  /** Whatever the raw rules were, normalized keys and targets begin with a slash. A raw
      "../x" or "" still gives one, "/../x" or "/.", that is not a clean path. */
  lemma NormalizedAreAbsolute(raw: map<string, string>, rules: map<string, string>)
    requires Normalizes(rules, Cleaned(raw))
    ensures forall k :: k in rules ==> IsAbs(k) && IsAbs(rules[k])
  {
    forall k | k in rules ensures IsAbs(k) && IsAbs(rules[k]) {
      assert (k, rules[k]) in Cleaned(raw);
    }
  }

  /** A rule whose key is not a clean path matches no clean path. */
  lemma OnlyCleanKeysMatch(k: string, path: string)
    requires IsAbs(k) && CleanAbs(path) && Matches(k, path)
    ensures CleanAbs(k)
  {
    if k != path {
      var rest := path[|k| + 1..];
      assert path == k + "/" + rest;
      SplitAtSlash(k, rest);
      CleanAbsSegs(path);
      KeySegments(k, Segs(path), Split(rest));
    }
  }

  lemma KeySegments(k: string, segs: seq<string>, rest: seq<string>)
    requires IsAbs(k) && rest != []
    requires Split(k) + rest == if segs == [] then ["", ""] else [""] + segs
    requires forall i :: 0 <= i < |segs| ==> Ordinary(segs[i])
    ensures CleanAbs(k)
  {
    var tail := k[1..];
    assert k == "/" + tail;
    SplitBehindSlash(tail);
    var front := Split(tail);
    assert |Split(k)| >= 2 && |Split(k) + rest| >= 3;
    assert forall i :: 0 <= i < |front| ==> front[i] == Split(k)[i + 1] == (Split(k) + rest)[i + 1] == segs[i];
    OrdinaryAppended(Parsed(true, []), front);
    assert [] + front == front;
    ParseRooted(tail);
    GlueSplit(tail);
  }

  /** Moving a clean absolute path from `k` to any absolute target: the same as moving it
      to the cleaned target. */
  lemma MoveToAbsolute(k: string, target: string, path: string)
    requires CleanAbs(k) && IsAbs(target) && CleanAbs(path) && Matches(k, path)
    ensures var r := Join(target, TrimPrefix(path, k));
            && CleanAbs(r)
            && Segs(k) <= Segs(path) && Segs(r) == Segs(target) + Segs(path)[|Segs(k)|..]
            && PathUtil.HasPathPrefix(r, Clean(target))
  {
    JoinCleaned(target, TrimPrefix(path, k));
    CleanIsCleanAbs(target);
    MoveMeaning(k, Clean(target), path);
  }

  /** Main result, for any raw rules and an absolute path: unmatched paths come back as they
      are, and a matched one is relocated under the cleaned target of the longest rule. */
  lemma RemapMeaning(raw: map<string, string>, rules: map<string, string>, orig: string, r: string)
    requires Normalizes(rules, Cleaned(raw)) && IsAbs(orig) && RemapsTo(rules, orig, r)
    ensures (r == orig && forall k :: k in rules ==> !Matches(k, Clean(orig)))
         || (exists k :: Longest(rules, k, Clean(orig)) && CleanAbs(k)
               && Segs(k) <= Segs(orig) && Segs(r) == Segs(rules[k]) + Segs(orig)[|Segs(k)|..]
               && CleanAbs(r) && PathUtil.HasPathPrefix(r, Clean(rules[k])))
  {
    CleanIsCleanAbs(orig);
    NormalizedAreAbsolute(raw, rules);
    if k :| Longest(rules, k, Normalize(orig)) && r == Join(rules[k], TrimPrefix(Normalize(orig), k)) {
      OnlyCleanKeysMatch(k, Clean(orig));
      MoveToAbsolute(k, rules[k], Clean(orig));
    }
  }

  /** The rule that decides about a path, if there is one, has that very place as target. */
  ghost predicate LeavesAlone(rules: map<string, string>, path: string) {
    forall k :: Longest(rules, k, path) ==> Clean(rules[k]) == k
  }

  /** A clean absolute path is not moved exactly when the deciding rule maps to itself. */
  lemma UnmovedIff(raw: map<string, string>, rules: map<string, string>, path: string, r: string)
    requires Normalizes(rules, Cleaned(raw)) && CleanAbs(path) && RemapsTo(rules, path, r)
    ensures CleanAbs(r) && (r == path <==> LeavesAlone(rules, path))
  {
    NormalizedAreAbsolute(raw, rules);
    if k :| Longest(rules, k, path) && r == Join(rules[k], TrimPrefix(path, k)) {
      OnlyCleanKeysMatch(k, path);
      MoveToAbsolute(k, rules[k], path);
      CleanIsCleanAbs(rules[k]);
      SameLead(Segs(rules[k]), Segs(k), Segs(path));
      if Segs(rules[k]) == Segs(k) {
        SegsInjective(Clean(rules[k]), k);
        SegsInjective(r, path);
      }
      forall l | Longest(rules, l, path) ensures l == k {
        MatchesUnique(k, l, path);
      }
    }
  }

  lemma SameLead(a: seq<string>, b: seq<string>, all: seq<string>)
    requires b <= all
    ensures a + all[|b|..] == all <==> a == b
  {
    assert b + all[|b|..] == all;
    if a + all[|b|..] == all {
      assert |a| == |b| && a == (a + all[|b|..])[..|a|];
    }
  }

  // ----- where files are written and looked for -----

  /** RestoredPath: the place of an absolute path under a restore root. */
  function RestoredPath(targetRoot: string, original: string): string {
    if targetRoot == "" || targetRoot == "/" then Clean(original)
    else Join(Clean(targetRoot), TrimPrefix(Clean(original), "/"))
  }

  /** The destination the remapping restore script copies a path to. */
  function FinalTarget(targetPath: string, remapped: string): string {
    Join(if targetPath == "" then "/" else targetPath, TrimPrefix(remapped, "/"))
  }

  /** Both are the root's segments followed by the path's. */
  lemma PlacedUnderRoot(root: string, path: string)
    requires root != "" && CleanAbs(path)
    ensures Join(root, TrimPrefix(path, "/")) == Render(Parsed(IsAbs(root), Segs(root) + Segs(path)))
    ensures Parse(Join(root, TrimPrefix(path, "/"))) == Parsed(IsAbs(root), Segs(root) + Segs(path))
  {
    var trimmed := path[1..];
    CleanAbsSegs(path);
    ParseNormal(root);
    OrdinaryAppended(Parse(root), Segs(path));
    ParseRender(Parsed(IsAbs(root), Segs(root) + Segs(path)));
    ParseJoin(root, trimmed);
    assert trimmed == Glue(Segs(path));
    if Segs(path) != [] {
      SplitGlue(Segs(path));
    } else {
      assert Segs(root) + Segs(path) == Segs(root);
    }
  }

  /** Script and locator agree on every target root, provided the locator is asked for
      the remapped path. */
  lemma ScriptMeetsLocator(targetPath: string, remapped: string)
    requires CleanAbs(remapped)
    ensures FinalTarget(targetPath, remapped) == RestoredPath(targetPath, remapped)
  {
    if targetPath == "" || targetPath == "/" {
      PlacedUnderRoot("/", remapped);
      CleanAbsSegs("/");
      assert Segs("/") + Segs(remapped) == Segs(remapped);
    } else {
      JoinCleaned(targetPath, TrimPrefix(remapped, "/"));
    }
  }

  lemma RestoredSegs(targetRoot: string, path: string)
    requires CleanAbs(path)
    ensures targetRoot == "" || targetRoot == "/" ==> RestoredPath(targetRoot, path) == path
    ensures targetRoot != "" && targetRoot != "/" ==>
              Parse(RestoredPath(targetRoot, path)) == Parsed(IsAbs(targetRoot), Segs(targetRoot) + Segs(path))
  {
    if targetRoot != "" && targetRoot != "/" {
      CleanNotEmpty(targetRoot);
      CleanIdempotent(targetRoot);
      PlacedUnderRoot(Clean(targetRoot), path);
    }
  }

  /** Two places under one root are the same only for the same path. */
  lemma RestoredInjective(targetRoot: string, p: string, q: string)
    requires CleanAbs(p) && CleanAbs(q) && RestoredPath(targetRoot, p) == RestoredPath(targetRoot, q)
    ensures p == q
  {
    RestoredSegs(targetRoot, p);
    RestoredSegs(targetRoot, q);
    if targetRoot != "" && targetRoot != "/" {
      var r := Segs(targetRoot);
      assert (r + Segs(p))[|r|..] == Segs(p) && (r + Segs(q))[|r|..] == Segs(q);
      SegsInjective(p, q);
    }
  }

  /** Two places under one root, written by the script and looked at by the search, are
      the same only for the same path. */
  lemma ScriptMeetsSearch(targetPath: string, path: string, remapped: string)
    requires CleanAbs(path) && CleanAbs(remapped)
    ensures FinalTarget(targetPath, remapped) == RestoredPath(targetPath, path) <==> remapped == path
  {
    ScriptMeetsLocator(targetPath, remapped);
    if RestoredPath(targetPath, remapped) == RestoredPath(targetPath, path) {
      RestoredInjective(targetPath, remapped, path);
    }
  }

  /** Main result, end to end, for any raw rules, target root and absolute path: the script
      writes to the restored place of the remapped path; the manifest search, which asks for
      the original path, looks there exactly when the rule that decides maps to itself. */
  lemma RestoreEndToEnd(raw: map<string, string>, rules: map<string, string>, targetPath: string, p: string, r: string)
    requires Normalizes(rules, Cleaned(raw)) && IsAbs(p) && RemapsTo(rules, Clean(p), r)
    ensures CleanAbs(r) && FinalTarget(targetPath, r) == RestoredPath(targetPath, r)
    ensures FinalTarget(targetPath, r) == RestoredPath(targetPath, p) <==> LeavesAlone(rules, Clean(p))
  {
    CleanIsCleanAbs(p);
    UnmovedIff(raw, rules, Clean(p), r);
    ScriptMeetsLocator(targetPath, r);
    CleanIdempotent(p);
    assert RestoredPath(targetPath, p) == RestoredPath(targetPath, Clean(p));
    ScriptMeetsSearch(targetPath, Clean(p), r);
  }

  /** Any rule that moves a directory is a case where the search misses it. */
  lemma SearchMisses(targetPath: string, dir: string, target: string)
    requires CleanAbs(dir) && CleanAbs(target) && dir != target
    ensures var raw := map[dir := target];
            && Normalizes(raw, Cleaned(raw)) && RemapsTo(raw, dir, target)
            && FinalTarget(targetPath, target) != RestoredPath(targetPath, dir)
  {
    var raw := map[dir := target];
    assert dir in raw && (Normalize(dir), Normalize(raw[dir])) in Cleaned(raw);
    assert Longest(raw, dir, dir);
    assert TrimPrefix(dir, dir) == "";
    ScriptMeetsSearch(targetPath, dir, target);
  }

  /** Under an absolute root every restored path stays under that root. */
  lemma RestoredInsideRoot(targetRoot: string, path: string)
    requires IsAbs(targetRoot) && CleanAbs(path)
    ensures CleanAbs(RestoredPath(targetRoot, path)) && PathUtil.HasPathPrefix(RestoredPath(targetRoot, path), Clean(targetRoot))
  {
    var r := RestoredPath(targetRoot, path);
    RestoredSegs(targetRoot, path);
    CleanIsCleanAbs(targetRoot);
    if targetRoot != "/" {
      CleanNotEmpty(targetRoot);
      CleanIdempotent(targetRoot);
      PlacedUnderRoot(Clean(targetRoot), path);
      assert Segs(targetRoot) <= Segs(targetRoot) + Segs(path);
    } else {
      CleanAbsSegs("/");
    }
    PathUtil.HasPathPrefixIsSegmentPrefix(r, Clean(targetRoot));
  }
}
