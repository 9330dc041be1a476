/** The backup job names of a migration plan (internal/migration/plan.go). */
module JobNames {
  import opened Wrappers
  import opened Text

  // ----- sanitizing -----

  predicate NameChar(c: char) {
    'a' <= c <= 'z' || '0' <= c <= '9' || c == '.' || c == '_' || c == '-'
  }

  predicate Cut(c: char) {
    c == '-' || c == '.'
  }

  function Masked(s: string): (t: string)
    ensures |t| == |s| && forall i :: 0 <= i < |s| ==> t[i] == if NameChar(s[i]) then s[i] else '-'
  {
    seq(|s|, i requires 0 <= i < |s| => if NameChar(s[i]) then s[i] else '-')
  }

  /** `strings.ReplaceAll(s, "..", ".")`: one pass, left to right. */
  function Collapse(s: string): string {
    if s == "" then ""
    else if |s| >= 2 && s[0] == '.' && s[1] == '.' then "." + Collapse(s[2..])
    else [s[0]] + Collapse(s[1..])
  }

  function CutLeft(s: string): string {
    if s != "" && Cut(s[0]) then CutLeft(s[1..]) else s
  }

  function CutRight(s: string): string {
    if s != "" && Cut(s[|s| - 1]) then CutRight(s[..|s| - 1]) else s
  }

  /** `strings.Trim(s, "-.")`. */
  function TrimCut(s: string): string {
    CutRight(CutLeft(s))
  }

  /** sanitizeJobName. */
  function Sanitize(name: string): string {
    TrimCut(Collapse(Masked(ToLower(Trim(name)))))
  }

  predicate Charset(s: string) {
    forall i :: 0 <= i < |s| ==> NameChar(s[i])
  }

  /** Neither end is a separator. */
  predicate Trimmed(s: string) {
    s != "" ==> !Cut(s[0]) && !Cut(s[|s| - 1])
  }

  lemma {:induction false} CollapseCharset(s: string)
    requires Charset(s)
    ensures Charset(Collapse(s))
  {
    if s != "" {
      if |s| >= 2 && s[0] == '.' && s[1] == '.' {
        CollapseCharset(s[2..]);
      } else {
        CollapseCharset(s[1..]);
      }
    }
  }

  lemma {:induction false} CutLeftMeaning(s: string)
    ensures var t := CutLeft(s); |t| <= |s| && t == s[|s| - |t|..] && (t != "" ==> !Cut(t[0]))
    ensures forall i :: 0 <= i < |s| - |CutLeft(s)| ==> Cut(s[i])
  {
    if s != "" && Cut(s[0]) {
      var rest := s[1..];
      CutLeftMeaning(rest);
      var t := CutLeft(rest);
      assert rest[|rest| - |t|..] == s[|s| - |t|..];
      forall i | 0 <= i < |s| - |t| ensures Cut(s[i]) {
        assert i > 0 ==> rest[i - 1] == s[i];
      }
    } else {
      assert s == s[0..];
    }
  }

  lemma {:induction false} CutRightMeaning(s: string)
    ensures var t := CutRight(s); |t| <= |s| && t == s[..|t|] && (t != "" ==> !Cut(t[|t| - 1]))
    ensures forall i :: |CutRight(s)| <= i < |s| ==> Cut(s[i])
  {
    if s != "" && Cut(s[|s| - 1]) {
      CutRightMeaning(s[..|s| - 1]);
    }
  }

  /** Trimming takes exactly the separators at the ends, and nothing if a name character
      comes first. */
  lemma TrimCutMeaning(s: string)
    ensures Trimmed(TrimCut(s)) && (Charset(s) ==> Charset(TrimCut(s)))
    ensures s != "" && !Cut(s[0]) ==> TrimCut(s) != "" && TrimCut(s)[0] == s[0]
  {
    CutLeftMeaning(s);
    CutRightMeaning(CutLeft(s));
  }

  /** Main result on a single name: only the permitted characters, no separator at an end. */
  lemma SanitizeMeaning(name: string)
    ensures Charset(Sanitize(name)) && Trimmed(Sanitize(name))
  {
    var masked := Masked(ToLower(Trim(name)));
    CollapseCharset(masked);
    TrimCutMeaning(Collapse(masked));
  }

  // ----- double dots -----

  predicate TwoDots(s: string) {
    |s| >= 2 && ((s[0] == '.' && s[1] == '.') || TwoDots(s[1..]))
  }

  predicate ThreeDots(s: string) {
    |s| >= 3 && ((s[0] == '.' && s[1] == '.' && s[2] == '.') || ThreeDots(s[1..]))
  }

  lemma CollapseStart(s: string)
    ensures Collapse(s) == "" <==> s == ""
    ensures s != "" ==> Collapse(s)[0] == s[0]
  {
  }

  /** One pass leaves two dots in a row exactly where there were three. */
  lemma {:induction false} CollapseLeavesDots(s: string)
    ensures TwoDots(Collapse(s)) <==> ThreeDots(s)
  {
    if |s| >= 2 {
      var skip := if s[0] == '.' && s[1] == '.' then 2 else 1;
      CollapseLeavesDots(s[skip..]);
      CollapseStart(s[skip..]);
      var c := Collapse(s);
      assert c[1..] == Collapse(s[skip..]);
      if skip == 2 && |s| >= 3 {
        assert s[1..][1..] == s[2..];
      }
    }
  }

  /** How many characters the pass takes at once. */
  function Bite(s: string): nat {
    if |s| >= 2 && s[0] == '.' && s[1] == '.' then 2 else 1
  }

  lemma CollapseStep(s: string)
    requires s != ""
    ensures Collapse(s) == [s[0]] + Collapse(s[Bite(s)..])
  {
  }

  lemma DropFront(a: string, b: string, k: nat)
    requires k <= |a|
    ensures (a + b)[k..] == a[k..] + b
  {
  }

  lemma {:induction false} CollapseConcat(a: string, b: string)
    requires a == "" || b == "" || a[|a| - 1] != '.' || b[0] != '.'
    ensures Collapse(a + b) == Collapse(a) + Collapse(b)
  {
    if a == "" {
      assert a + b == b;
    } else {
      var k := Bite(a);
      assert Bite(a + b) == k;
      CollapseStep(a + b);
      CollapseStep(a);
      DropFront(a, b, k);
      CollapseConcat(a[k..], b);
    }
  }

  lemma {:induction false} CollapseCut(s: string)
    requires AllCut(s)
    ensures AllCut(Collapse(s))
  {
    if s != "" {
      CollapseCut(s[if |s| >= 2 && s[0] == '.' && s[1] == '.' then 2 else 1..]);
    }
  }

  lemma {:induction false} CutLeftSkips(a: string, b: string)
    requires forall i :: 0 <= i < |a| ==> Cut(a[i])
    ensures CutLeft(a + b) == CutLeft(b)
  {
    if a == "" {
      assert a + b == b;
    } else {
      assert (a + b)[1..] == a[1..] + b;
      CutLeftSkips(a[1..], b);
    }
  }

  lemma {:induction false} CutRightSkips(a: string, b: string)
    requires forall i :: 0 <= i < |b| ==> Cut(b[i])
    ensures CutRight(a + b) == CutRight(a)
    decreases |b|
  {
    if b == "" {
      assert a + b == a;
    } else {
      assert (a + b)[..|a + b| - 1] == a + b[..|b| - 1];
      CutRightSkips(a, b[..|b| - 1]);
    }
  }

  lemma {:induction false} CollapseEnd(s: string)
    requires s != "" && s[|s| - 1] != '.'
    ensures Collapse(s) != "" && Collapse(s)[|Collapse(s)| - 1] == s[|s| - 1]
  {
    assert s == s[..|s| - 1] + [s[|s| - 1]];
    CollapseConcat(s[..|s| - 1], [s[|s| - 1]]);
  }

  predicate AllCut(s: string) {
    forall i :: 0 <= i < |s| ==> Cut(s[i])
  }

  /** What trimming takes away on either side. */
  lemma TrimCutParts(s: string) returns (front: string, back: string)
    ensures s == front + (TrimCut(s) + back) && AllCut(front) && AllCut(back)
  {
    var rest := CutLeft(s);
    CutLeftMeaning(s);
    CutRightMeaning(rest);
    front, back := s[..|s| - |rest|], rest[|TrimCut(s)|..];
  }

  lemma TrimCutAway(front: string, core: string, back: string)
    requires AllCut(front) && AllCut(back) && Trimmed(core)
    ensures TrimCut(front + (core + back)) == core
  {
    CutLeftSkips(front, core + back);
    if core == "" {
      CutLeftSkips(back, "");
      assert core + back == back && back + "" == back;
    } else {
      assert CutLeft(core + back) == core + back;
      CutRightSkips(core, back);
    }
  }

  lemma CollapseTrimmed(core: string)
    requires Trimmed(core)
    ensures Trimmed(Collapse(core))
  {
    if core != "" {
      CollapseStart(core);
      CollapseEnd(core);
    }
  }

  lemma CollapseParts(front: string, core: string, back: string)
    requires AllCut(front) && AllCut(back) && Trimmed(core) && core != ""
    ensures Collapse(front + (core + back)) == Collapse(front) + (Collapse(core) + Collapse(back))
  {
    CollapseConcat(core, back);
    CollapseConcat(front, core + back);
  }

  /** Trimming and collapsing commute. */
  lemma TrimThenCollapse(s: string)
    ensures TrimCut(Collapse(s)) == Collapse(TrimCut(s))
  {
    var core := TrimCut(s);
    TrimCutMeaning(s);
    var front, back := TrimCutParts(s);
    if core == "" {
      assert front + (core + back) == front + back;
      CollapseCut(s);
      TrimCutAway(Collapse(s), "", "");
      assert Collapse(s) + ("" + "") == Collapse(s);
    } else {
      CollapseParts(front, core, back);
      CollapseCut(front);
      CollapseCut(back);
      CollapseTrimmed(core);
      TrimCutAway(Collapse(front), Collapse(core), Collapse(back));
    }
  }

  /** What lies between the separators of a masked name. */
  function Core(name: string): string {
    TrimCut(Masked(ToLower(Trim(name))))
  }

  lemma SanitizedCore(name: string)
    ensures Sanitize(name) == Collapse(Core(name))
  {
    TrimThenCollapse(Masked(ToLower(Trim(name))));
  }

  /** Main result: a sanitized name still holds two dots in a row exactly when the masked
      name, between its separators, held three. */
  lemma DotsRemainIff(name: string)
    ensures TwoDots(Sanitize(name)) <==> ThreeDots(Core(name))
  {
    SanitizedCore(name);
    CollapseLeavesDots(Core(name));
  }

  lemma MaskedPlain(s: string)
    requires Charset(s)
    ensures Masked(ToLower(s)) == s
  {
    forall i | 0 <= i < |s| ensures Masked(ToLower(s))[i] == s[i] {
      assert NameChar(s[i]) && Lower(s[i]) == s[i];
    }
  }

  lemma TrimmedStays(s: string)
    requires s != "" && Trimmed(s)
    ensures TrimCut(s) == s
  {
    TrimCutAway("", s, "");
    assert "" + (s + "") == s;
  }

  /** A name that is already of the permitted shape. */
  lemma PlainName(s: string)
    requires s != "" && Charset(s) && Trimmed(s)
    ensures Core(s) == s
  {
    assert NameChar(s[0]) && NameChar(s[|s| - 1]);
    assert Trim(s) == s;
    MaskedPlain(s);
    TrimmedStays(s);
  }

  /** The comment promises no "..": exactly the plain names with three dots in a row keep
      one, for instance this one. */
  lemma DotsRemain()
    ensures TwoDots(Sanitize("a...b"))
  {
    PlainName("a...b");
    DotsRemainIff("a...b");
    assert "a...b"[1..] == "...b";
  }

  const MAX_NAME_LENGTH := 64

  /** ValidateJobName, on names over the sanitized characters. */
  predicate ValidJobName(name: string) {
    0 < |name| <= MAX_NAME_LENGTH && !TwoDots(name) && !Cut(name[0])
  }

  /** How many pairs of dots one pass makes into one. */
  function DotPairs(s: string): nat {
    if |s| >= 2 && s[0] == '.' && s[1] == '.' then 1 + DotPairs(s[2..])
    else if s == "" then 0
    else DotPairs(s[1..])
  }

  lemma {:induction false} CollapseLength(s: string)
    ensures |Collapse(s)| + DotPairs(s) == |s|
  {
    if s != "" {
      CollapseLength(s[Bite(s)..]);
    }
  }

  /** Short enough with `pad` more characters, and without three dots in a row. */
  predicate Fine(name: string, pad: nat) {
    |Core(name)| + pad <= MAX_NAME_LENGTH + DotPairs(Core(name)) && !ThreeDots(Core(name))
  }

  /** Main result: which names are accepted by the backup engine once they are sanitized,
      for any name. The length is not limited by sanitizing, only dots make it shorter. */
  lemma AcceptedIff(name: string)
    ensures ValidJobName(Sanitize(name)) <==> Core(name) != "" && Fine(name, 0)
  {
    SanitizeMeaning(name);
    SanitizedCore(name);
    DotsRemainIff(name);
    CollapseLength(Core(name));
    CollapseStart(Core(name));
  }

  function Letters(n: nat): (s: string)
    ensures |s| == n && forall i :: 0 <= i < n ==> s[i] == 'a'
  {
    seq(n, i => 'a')
  }

  lemma {:induction false} NoDots(s: string)
    requires '.' !in s
    ensures !ThreeDots(s) && DotPairs(s) == 0
  {
    if s != "" {
      NoDots(s[1..]);
    }
  }

  /** A name of letters is accepted up to 64 of them, */
  lemma LettersAcceptedIff(n: nat)
    requires n > 0
    ensures ValidJobName(Sanitize(Letters(n))) <==> n <= MAX_NAME_LENGTH
  {
    PlainName(Letters(n));
    NoDots(Letters(n));
    AcceptedIff(Letters(n));
  }

  /** so 65 are too many, and sanitizing does not see to it. */
  lemma TooLong()
    ensures !ValidJobName(Sanitize(Letters(65)))
  {
    LettersAcceptedIff(65);
  }

  // ----- distinct names -----

  /** A selected container: its Compose service, and its own name, as far as known. */
  datatype Evidence = Evidence(service: Option<string>, container: Option<string>)

  function ContainerName(e: Evidence): string {
    if e.container.Some? then e.container.value else ""
  }

  /** The name a container would like to have. */
  function Preferred(e: Evidence): string {
    if Sanitize(Base(e)) == "" then "service" else Sanitize(Base(e))
  }

  function Base(e: Evidence): string {
    var service := if e.service.Some? then e.service.value else "";
    if Trim(service) == "" && e.container.Some? then e.container.value else service
  }

  /** The texts the two choices are sanitized from. */
  function FirstText(e: Evidence): string {
    if Sanitize(Base(e)) == "" then "service" else Base(e)
  }

  function SecondText(e: Evidence): string {
    Preferred(e) + "-" + ContainerName(e)
  }

  function SecondChoice(e: Evidence): string {
    Sanitize(SecondText(e))
  }

  function Padded(s: string, k: nat): string {
    if k == 0 then s else Padded(s, k - 1) + "-x"
  }

  predicate GoodName(s: string) {
    s != "" && Charset(s) && !Cut(s[0])
  }

  lemma ServiceIsGood()
    ensures GoodName("service")
  {
  }

  lemma PreferredIsGood(e: Evidence)
    ensures GoodName(Preferred(e))
  {
    SanitizeMeaning(Base(e));
    ServiceIsGood();
  }

  /** A name that begins well is never sanitized away. */
  lemma SanitizeKeepsStart(s: string)
    requires s != "" && NameChar(s[0]) && !Cut(s[0])
    ensures Sanitize(s) != "" && Sanitize(s)[0] == s[0]
  {
    TrimKeepsStart(s);
    var masked := Masked(ToLower(Trim(s)));
    assert masked[0] == s[0];
    CollapseStart(masked);
    TrimCutMeaning(Collapse(masked));
  }

  lemma TrimKeepsStart(s: string)
    requires s != "" && !IsSpace(s[0])
    ensures Trim(s) != "" && Trim(s)[0] == s[0]
  {
    assert TrimLeft(s) == s;
  }

  lemma SecondChoiceIsGood(e: Evidence)
    ensures GoodName(SecondChoice(e))
  {
    PreferredIsGood(e);
    var s := Preferred(e) + "-" + ContainerName(e);
    assert s[0] == Preferred(e)[0];
    SanitizeKeepsStart(s);
    SanitizeMeaning(s);
  }

  /** What name `n` is, given the names before it: the preferred one if free, otherwise the
      first free one on the second choice's list. */
  ghost predicate Chosen(e: Evidence, before: seq<string>, n: string) {
    if Preferred(e) !in before then n == Preferred(e)
    else exists k: nat :: IsFirstFree(SecondChoice(e), before, k, n)
  }

  predicate IsFirstFree(s: string, before: seq<string>, k: nat, n: string) {
    n == Padded(s, k) && n !in before && forall j :: 0 <= j < k ==> Padded(s, j) in before
  }

  ghost function AtLeast(used: set<string>, n: nat): set<string> {
    set u | u in used && |u| >= n
  }

  /** The `-x` loop. It ends because the name outgrows every used one. */
  method Pad(s: string, used: set<string>, ghost before: seq<string>) returns (name: string)
    requires GoodName(s) && forall x :: x in used <==> x in before
    ensures GoodName(name) && exists k: nat :: IsFirstFree(s, before, k, name)
  {
    name := s;
    ghost var k: nat := 0;
    while name in used
      invariant name == Padded(s, k) && GoodName(name)
      invariant forall j :: 0 <= j < k ==> Padded(s, j) in before
      decreases |AtLeast(used, |name|)|
    {
      ghost var longer := AtLeast(used, |name|);
      assert name in longer;
      name := name + "-x";
      k := k + 1;
      Shrinks(AtLeast(used, |name|), longer, Padded(s, k - 1));
    }
    assert IsFirstFree(s, before, k, name);
  }

  lemma Shrinks(a: set<string>, b: set<string>, x: string)
    requires a <= b && x in b && x !in a
    ensures |a| < |b|
  {
    assert a <= b - {x};
    Smaller(a, b - {x});
  }

  lemma {:induction false} Smaller(a: set<string>, b: set<string>)
    requires a <= b
    ensures |a| <= |b|
  {
    if a != {} {
      var x :| x in a;
      Smaller(a - {x}, b - {x});
    }
  }

  /** Each name is chosen in view of the names before it. */
  ghost predicate Named(evidences: seq<Evidence>, names: seq<string>) {
    && |names| <= |evidences|
    && (names == [] || (
          var n, front := names[|names| - 1], names[..|names| - 1];
          Named(evidences, front) && GoodName(n) && n !in front && Chosen(evidences[|names| - 1], front, n)))
  }

  /** jobNames. */
  method JobNames(evidences: seq<Evidence>) returns (names: seq<string>)
    ensures |names| == |evidences| && Named(evidences, names)
  {
    names := [];
    var used: set<string> := {};
    for i := 0 to |evidences|
      invariant |names| == i && (forall x :: x in used <==> x in names)
      invariant Named(evidences, names)
    {
      var name := PickName(evidences[i], used, names);
      assert (names + [name])[..i] == names;
      used, names := used + {name}, names + [name];
    }
  }

  lemma {:induction false} NamedAt(evidences: seq<Evidence>, names: seq<string>, i: nat)
    requires Named(evidences, names) && i < |names|
    ensures GoodName(names[i]) && names[i] !in names[..i] && Chosen(evidences[i], names[..i], names[i])
    decreases |names|
  {
    if i < |names| - 1 {
      var front := names[..|names| - 1];
      NamedAt(evidences, front, i);
      assert front[..i] == names[..i] && front[i] == names[i];
    }
  }

  /** Main result: the names are pairwise distinct, not empty, of the permitted characters
      and never begin with a separator. */
  lemma NamesAreGood(evidences: seq<Evidence>, names: seq<string>)
    requires Named(evidences, names)
    ensures forall i :: 0 <= i < |names| ==> GoodName(names[i])
    ensures forall i, j :: 0 <= i < j < |names| ==> names[i] != names[j]
  {
    forall j | 0 <= j < |names| ensures GoodName(names[j]) && names[j] !in names[..j] {
      NamedAt(evidences, names, j);
    }
    forall i, j | 0 <= i < j < |names| ensures names[i] != names[j] {
      assert names[..j][i] == names[i];
    }
  }

  method PickName(e: Evidence, used: set<string>, ghost before: seq<string>) returns (name: string)
    requires forall x :: x in used <==> x in before
    ensures GoodName(name) && name !in before && Chosen(e, before, name)
  {
    PreferredIsGood(e);
    SecondChoiceIsGood(e);
    name := Preferred(e);
    if name in used {
      name := Pad(SecondChoice(e), used, before);
    }
  }

  // ----- which of the names are accepted -----

  lemma {:induction false} TwoDotsAppend(s: string)
    ensures TwoDots(s + "-x") <==> TwoDots(s)
  {
    if s != "" {
      var t := s + "-x";
      assert t[1..] == s[1..] + "-x";
      TwoDotsAppend(s[1..]);
    } else {
      assert s + "-x" == "-x" && "-x"[1..] == "x";
    }
  }

  lemma {:induction false} PaddedMeaning(s: string, k: nat)
    requires s != ""
    ensures var p := Padded(s, k); |p| == |s| + 2 * k && p[0] == s[0] && (TwoDots(p) <==> TwoDots(s))
  {
    if k > 0 {
      PaddedMeaning(s, k - 1);
      TwoDotsAppend(Padded(s, k - 1));
    }
  }

  lemma PaddedAcceptedIff(text: string, k: nat)
    requires GoodName(Sanitize(text))
    ensures ValidJobName(Padded(Sanitize(text), k)) <==> Fine(text, 2 * k)
  {
    PaddedMeaning(Sanitize(text), k);
    SanitizedCore(text);
    DotsRemainIff(text);
    CollapseLength(Core(text));
  }

  lemma PreferredText(e: Evidence)
    ensures Preferred(e) == Sanitize(FirstText(e))
  {
    if Sanitize(Base(e)) == "" {
      PlainService();
      SanitizedCore("service");
      CollapsePlain("service");
    }
  }

  lemma PlainService()
    ensures Core("service") == "service" && '.' !in "service"
  {
    PlainName("service");
  }

  lemma {:induction false} CollapsePlain(s: string)
    requires '.' !in s
    ensures Collapse(s) == s
  {
    if s != "" {
      CollapsePlain(s[1..]);
    }
  }

  /** Main result: which of the names the backup engine accepts. A preferred name goes by its
      own text, a second choice by preferred name and container together, and every round of
      the `-x` loop takes two more characters. */
  lemma NameAcceptedIff(evidences: seq<Evidence>, names: seq<string>, i: nat) returns (k: nat)
    requires Named(evidences, names) && i < |names|
    ensures Preferred(evidences[i]) !in names[..i] ==>
              names[i] == Preferred(evidences[i]) && (ValidJobName(names[i]) <==> Fine(FirstText(evidences[i]), 0))
    ensures Preferred(evidences[i]) in names[..i] ==>
              IsFirstFree(SecondChoice(evidences[i]), names[..i], k, names[i])
              && (ValidJobName(names[i]) <==> Fine(SecondText(evidences[i]), 2 * k))
  {
    var e := evidences[i];
    NamedAt(evidences, names, i);
    k := 0;
    if Preferred(e) in names[..i] {
      k :| IsFirstFree(SecondChoice(e), names[..i], k, names[i]);
      SecondChoiceIsGood(e);
      PaddedAcceptedIff(SecondText(e), k);
    } else {
      PreferredText(e);
      PreferredIsGood(e);
      PaddedAcceptedIff(FirstText(e), 0);
    }
  }
}
