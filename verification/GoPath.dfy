/** Go's lexical path functions (`path.Clean`, `path.Join`, `filepath.Rel` on Unix)
    over segment lists, and the laws the path code of the repository rests on.
    Strings are ASCII; a path is a string cut at '/'. */
module GoPath {
  import opened Sequences
  import opened Wrappers
  import opened Splitting

  // ----- strings -----

  predicate HasPrefix(s: string, p: string) {
    p <= s
  }

  function TrimPrefix(s: string, p: string): string {
    if p <= s then s[|p|..] else s
  }

  function TrimRightSlashes(s: string): string {
    if s != "" && s[|s| - 1] == '/' then TrimRightSlashes(s[..|s| - 1]) else s
  }

  // ----- segments -----

  /** `strings.Split(s, "/")`. */
  function Split(s: string): (segs: seq<string>)
    ensures segs != [] && forall k :: 0 <= k < |segs| ==> '/' !in segs[k]
  {
    SplitPieces(s, '/');
    SplitAt(s, '/')
  }

  /** `strings.Join(segs, "/")`. */
  function Glue(segs: seq<string>): string {
    if segs == [] then "" else JoinWith(segs, '/')
  }

  lemma GlueSplit(s: string)
    ensures Glue(Split(s)) == s
  {
    JoinSplit(s, '/');
  }

  lemma SplitPlain(s: string)
    requires '/' !in s
    ensures Split(s) == [s]
  {
    SplitSingle(s, '/');
  }

  /** A slash separates the segments on its two sides. */
  lemma SplitAtSlash(a: string, b: string)
    ensures Split(a + "/" + b) == Split(a) + Split(b)
  {
    SplitConcat(a, b, '/');
  }

  lemma SplitBehindSlash(s: string)
    ensures Split("/" + s) == [""] + Split(s)
  {
    assert ("/" + s)[1..] == s;
  }

  lemma SplitGlue(segs: seq<string>)
    requires segs != [] && forall k :: 0 <= k < |segs| ==> '/' !in segs[k]
    ensures Split(Glue(segs)) == segs
  {
    SplitJoin(segs, '/');
  }

  // ----- path.Clean -----

  /** A named segment: not empty, not "." and not "..". */
  predicate Ordinary(seg: string) {
    seg != "" && seg != "." && seg != ".." && '/' !in seg
  }

  function Push(rooted: bool, stack: seq<string>, seg: string): seq<string> {
    if seg == "" || seg == "." then stack
    else if seg == ".." then
      if stack != [] && stack[|stack| - 1] != ".." then stack[..|stack| - 1]
      else if rooted then stack
      else stack + [".."]
    else stack + [seg]
  }

  function Reduce(rooted: bool, stack: seq<string>, segs: seq<string>): seq<string>
    decreases |segs|
  {
    if segs == [] then stack else Reduce(rooted, Push(rooted, stack, segs[0]), segs[1..])
  }

  /** A path as `path.Clean` understands it. */
  datatype Parsed = Parsed(rooted: bool, segs: seq<string>)

  predicate IsAbs(p: string) {
    HasPrefix(p, "/")
  }

  function Parse(p: string): Parsed {
    Parsed(IsAbs(p), Reduce(IsAbs(p), [], Split(p)))
  }

  function Render(x: Parsed): string {
    if x.rooted then "/" + Glue(x.segs)
    else if x.segs == [] then "."
    else Glue(x.segs)
  }

  function Clean(p: string): string {
    Render(Parse(p))
  }

  /** `path.Join` of two elements: empty ones are ignored. */
  function Join(a: string, b: string): string {
    if a == "" && b == "" then ""
    else if a == "" then Clean(b)
    else if b == "" then Clean(a)
    else Clean(a + "/" + b)
  }

  /** The normal form: named segments, after leading ".." of a relative path. */
  predicate Normal(x: Parsed) {
    forall i :: 0 <= i < |x.segs| ==>
      || Ordinary(x.segs[i])
      || (x.segs[i] == ".." && !x.rooted && forall j :: 0 <= j < i ==> x.segs[j] == "..")
  }

  lemma {:induction false} ReduceNormal(rooted: bool, stack: seq<string>, segs: seq<string>)
    requires Normal(Parsed(rooted, stack)) && forall k :: 0 <= k < |segs| ==> '/' !in segs[k]
    ensures Normal(Parsed(rooted, Reduce(rooted, stack, segs)))
    decreases |segs|
  {
    if segs != [] {
      var next := Push(rooted, stack, segs[0]);
      assert Normal(Parsed(rooted, next)) by {
        if segs[0] == ".." && !rooted && (stack == [] || stack[|stack| - 1] == "..") {
          assert stack != [] ==> forall j :: 0 <= j < |stack| - 1 ==> stack[j] == "..";
        }
      }
      ReduceNormal(rooted, next, segs[1..]);
    }
  }

  lemma ParseNormal(p: string)
    ensures Normal(Parse(p))
  {
    ReduceNormal(IsAbs(p), [], Split(p));
  }

  lemma {:induction false} ReduceConcat(rooted: bool, stack: seq<string>, a: seq<string>, b: seq<string>)
    ensures Reduce(rooted, stack, a + b) == Reduce(rooted, Reduce(rooted, stack, a), b)
    decreases |a|
  {
    if a == [] {
      assert a + b == b;
    } else {
      assert (a + b)[1..] == a[1..] + b;
      ReduceConcat(rooted, Push(rooted, stack, a[0]), a[1..], b);
    }
  }

  /** Segments that continue a normal form are all kept. */
  lemma {:induction false} ReduceKeeps(rooted: bool, stack: seq<string>, segs: seq<string>)
    requires Normal(Parsed(rooted, stack + segs))
    ensures Reduce(rooted, stack, segs) == stack + segs
    decreases |segs|
  {
    if segs != [] {
      var all := stack + segs;
      assert all[|stack|] == segs[0];
      assert stack != [] ==> all[|stack| - 1] == stack[|stack| - 1];
      assert Push(rooted, stack, segs[0]) == stack + [segs[0]];
      assert stack + [segs[0]] + segs[1..] == all;
      ReduceKeeps(rooted, stack + [segs[0]], segs[1..]);
    } else {
      assert stack + segs == stack;
    }
  }

  lemma {:induction false} OrdinaryAppended(x: Parsed, segs: seq<string>)
    requires Normal(x) && forall k :: 0 <= k < |segs| ==> Ordinary(segs[k])
    ensures Normal(Parsed(x.rooted, x.segs + segs))
    ensures Reduce(x.rooted, x.segs, segs) == x.segs + segs
  {
    ReduceKeeps(x.rooted, x.segs, segs);
  }

  lemma GlueStarts(segs: seq<string>)
    requires segs != [] && segs[0] != ""
    ensures Glue(segs) != "" && Glue(segs)[0] == segs[0][0]
  {
  }

  lemma SplitGlueNormal(x: Parsed)
    requires Normal(x) && x.segs != []
    ensures Split(Glue(x.segs)) == x.segs && Reduce(x.rooted, [], x.segs) == x.segs
    ensures Glue(x.segs) != "" && !IsAbs(Glue(x.segs))
  {
    var segs := x.segs;
    assert forall k :: 0 <= k < |segs| ==> '/' !in segs[k] && segs[k] != "";
    SplitGlue(segs);
    assert [] + segs == segs;
    ReduceKeeps(x.rooted, [], segs);
    GlueStarts(segs);
  }

  /** A leading slash only says that the path is absolute. */
  lemma ParseRooted(s: string)
    ensures Parse("/" + s) == Parsed(true, Reduce(true, [], Split(s)))
  {
    SplitBehindSlash(s);
    ReduceConcat(true, [], [""], Split(s));
    assert Reduce(true, [], [""]) == [];
  }

  /** Rendering a normal form loses nothing. */
  lemma ParseRender(x: Parsed)
    requires Normal(x)
    ensures Parse(Render(x)) == x
  {
    if x.segs != [] {
      SplitGlueNormal(x);
    } else {
      SplitPlain("");
      SplitPlain(".");
    }
    if x.rooted {
      ParseRooted(Glue(x.segs));
    }
  }

  lemma CleanIdempotent(p: string)
    ensures Clean(Clean(p)) == Clean(p) && Parse(Clean(p)) == Parse(p) && IsAbs(Clean(p)) == IsAbs(p)
  {
    ParseNormal(p);
    ParseRender(Parse(p));
  }

  /** What stands behind a slash is pushed onto what stands before it. */
  lemma ParseJoined(a: string, b: string)
    requires a != ""
    ensures Parse(a + "/" + b) == Parsed(IsAbs(a), Reduce(IsAbs(a), Parse(a).segs, Split(b)))
  {
    SplitAtSlash(a, b);
    ReduceConcat(IsAbs(a), [], Split(a), Split(b));
    assert (a + "/" + b)[0] == a[0];
  }

  lemma ParseJoin(a: string, b: string)
    requires a != ""
    ensures Join(a, b) == Render(Parsed(IsAbs(a), Reduce(IsAbs(a), Parse(a).segs, Split(b))))
  {
    if b == "" {
      assert Reduce(IsAbs(a), Parse(a).segs, [""]) == Parse(a).segs;
    } else {
      ParseJoined(a, b);
    }
  }

  lemma CleanNotEmpty(p: string)
    ensures Clean(p) != ""
  {
    ParseNormal(p);
    if !IsAbs(p) && Parse(p).segs != [] {
      SplitGlueNormal(Parse(p));
    }
  }

  /** Only the cleaned first element matters to a join. */
  lemma JoinCleaned(a: string, b: string)
    requires a != ""
    ensures Clean(a) != "" && Join(Clean(a), b) == Join(a, b)
  {
    CleanIdempotent(a);
    CleanNotEmpty(a);
    ParseJoin(a, b);
    ParseJoin(Clean(a), b);
  }

  // ----- clean absolute paths -----

  predicate CleanAbs(p: string) {
    IsAbs(p) && Clean(p) == p
  }

  function Segs(p: string): seq<string> {
    Parse(p).segs
  }

  lemma CleanAbsSegs(p: string)
    requires CleanAbs(p)
    ensures p == "/" + Glue(Segs(p))
    ensures forall k :: 0 <= k < |Segs(p)| ==> Ordinary(Segs(p)[k])
    ensures p == "/" <==> Segs(p) == []
    ensures Segs(p) != [] ==> Split(p) == [""] + Segs(p)
  {
    ParseNormal(p);
    if Segs(p) != [] {
      SplitGlueNormal(Parse(p));
      SplitBehindSlash(Glue(Segs(p)));
    }
  }

  lemma CleanIsCleanAbs(p: string)
    requires IsAbs(p)
    ensures CleanAbs(Clean(p)) && Segs(Clean(p)) == Segs(p)
  {
    CleanIdempotent(p);
  }

  /** Clean absolute paths are determined by their segments. */
  lemma SegsInjective(p: string, q: string)
    requires CleanAbs(p) && CleanAbs(q) && Segs(p) == Segs(q)
    ensures p == q
  {
  }

  lemma {:induction false} GlueConcat(a: seq<string>, b: seq<string>)
    requires a != [] && b != []
    ensures Glue(a + b) == Glue(a) + "/" + Glue(b)
  {
    if |a| == 1 {
      assert (a + b)[1..] == b;
    } else {
      assert (a + b)[1..] == a[1..] + b;
      GlueConcat(a[1..], b);
    }
  }

  /** `k` itself or a path below it, on a segment boundary. */
  predicate AtOrBelow(p: string, k: string) {
    p == k || HasPrefix(p, k + "/")
  }

  lemma BelowExtends(p: string, k: string)
    requires CleanAbs(p) && CleanAbs(k) && k != "/" && HasPrefix(p, k + "/")
    ensures Segs(k) < Segs(p) && p[|k|..] == "/" + Glue(Segs(p)[|Segs(k)|..])
  {
    CleanAbsSegs(p);
    CleanAbsSegs(k);
    var x := p[|k| + 1..];
    assert p == k + "/" + x && p[|k|..] == "/" + x;
    SplitAtSlash(k, x);
    assert p != "/";
    Assoc([""], Segs(k), Split(x));
    assert ([""] + Segs(p))[1..] == Segs(p) && ([""] + (Segs(k) + Split(x)))[1..] == Segs(k) + Split(x);
    assert Segs(p)[|Segs(k)|..] == Split(x);
    GlueSplit(x);
  }

  lemma PrefixOfGlued(g: string, r: string)
    ensures HasPrefix("/" + (g + "/" + r), ("/" + g) + "/")
  {
    assert "/" + (g + "/" + r) == (("/" + g) + "/") + r;
  }

  lemma GluedBelow(a: seq<string>, rest: seq<string>)
    requires a != []
    ensures AtOrBelow("/" + Glue(a + rest), "/" + Glue(a))
  {
    if rest == [] {
      assert a + rest == a;
    } else {
      GlueConcat(a, rest);
      PrefixOfGlued(Glue(a), Glue(rest));
    }
  }

  lemma ExtendsBelow(p: string, k: string)
    requires CleanAbs(p) && CleanAbs(k) && k != "/" && Segs(k) <= Segs(p)
    ensures AtOrBelow(p, k)
  {
    var a, all := Segs(k), Segs(p);
    CleanAbsSegs(p);
    CleanAbsSegs(k);
    GluedBelow(a, all[|a|..]);
    assert a + all[|a|..] == all;
  }

  /** For clean absolute paths other than the root, "at or below" is the prefix order on
      segments. */
  lemma AtOrBelowIsSegmentPrefix(p: string, k: string)
    requires CleanAbs(p) && CleanAbs(k) && k != "/"
    ensures AtOrBelow(p, k) <==> Segs(k) <= Segs(p)
    ensures AtOrBelow(p, k) && p != k ==> p[|k|..] == "/" + Glue(Segs(p)[|Segs(k)|..])
  {
    if HasPrefix(p, k + "/") {
      BelowExtends(p, k);
    }
    if Segs(k) <= Segs(p) {
      ExtendsBelow(p, k);
    }
  }

  // ----- filepath.Rel -----

  function CommonLength(a: seq<string>, b: seq<string>): (n: nat)
    ensures n <= |a| && n <= |b| && a[..n] == b[..n]
    ensures n < |a| && n < |b| ==> a[n] != b[n]
  {
    if a == [] || b == [] || a[0] != b[0] then 0 else 1 + CommonLength(a[1..], b[1..])
  }

  /** The path from `base` to `targ`; none when one is absolute and the other is not,
      or when it would have to leave a leading "..". */
  function Rel(base: string, targ: string): Option<string> {
    var b, t := Parse(base), Parse(targ);
    var k := CommonLength(b.segs, t.segs);
    if b == t then Some(".")
    else if b.rooted != t.rooted then None
    else if k < |b.segs| && b.segs[k] == ".." then None
    else Some(Glue(seq(|b.segs| - k, i => "..") + t.segs[k..]))
  }
}
