/** The read-only target check before a manifest-driven restore
    (internal/backup/restore_preflight.go). */
module Preflight {
  import opened Wrappers
  import opened Text
  import opened GoPath
  import Names

  datatype Container = Container(name: string, project: string)

  datatype Input = Input(projectName: string, composeFile: string, volumeArchives: seq<string>, databaseDump: string,
                         expectedContainers: seq<string>, crossMachine: bool)

  datatype Report = Report(errors: seq<string>, containers: seq<Container>)

  const ERROR_PREFIX := "OPSPULSE_PREFLIGHT_ERROR|"
  const END_MARKER := "OPSPULSE_PREFLIGHT_END"

  /** validateRestorePreflightInput. */
  predicate InputAccepted(input: Input) {
    && !Blank(input.composeFile)
    && !HasControlCharacter(input.projectName) && !HasControlCharacter(input.composeFile)
    && !HasControlCharacter(input.databaseDump)
    && (forall i :: 0 <= i < |input.volumeArchives| ==> !HasControlCharacter(input.volumeArchives[i]))
    && (forall i :: 0 <= i < |input.expectedContainers| ==> !HasControlCharacter(input.expectedContainers[i]))
  }

  // ----- reading the probe's output -----

  /** What one trimmed output line says. `ps` stands for the JSON decoder of the
      container list; it fails with None. */
  datatype Line = Nothing | End | Problem(text: string) | Broken | Listed(containers: seq<Container>)

  function CountBars(s: string): nat {
    if s == "" then 0 else (if s[0] == '|' then 1 else 0) + CountBars(s[1..])
  }

  function Classify(line: string, ps: string -> Option<seq<Container>>): Line {
    var t := Trim(line);
    if t == "" then Nothing
    else if t == END_MARKER then End
    else if HasPrefix(t, ERROR_PREFIX) then
      if CountBars(t) < 2 then Broken else Problem(t[|ERROR_PREFIX|..])
    else if HasPrefix(t, "{") then
      match ps(t)
      case None => Broken
      case Some(cs) => Listed(cs)
    else Nothing
  }

  function ClassifyAll(lines: seq<string>, ps: string -> Option<seq<Container>>): (ls: seq<Line>)
    ensures |ls| == |lines| && forall i :: 0 <= i < |ls| ==> ls[i] == Classify(lines[i], ps)
  {
    seq(|lines|, i requires 0 <= i < |lines| => Classify(lines[i], ps))
  }

  /** The probe ran to its end and every line could be read. */
  predicate Complete(ls: seq<Line>) {
    End in ls && Broken !in ls
  }

  /** The problems an output lists, in order. */
  function Problems(ls: seq<Line>): seq<string> {
    if ls == [] then []
    else Problems(ls[..|ls| - 1]) + if ls[|ls| - 1].Problem? then [ls[|ls| - 1].text] else []
  }

  /** The containers an output lists, in order. */
  function Containers(ls: seq<Line>): seq<Container> {
    if ls == [] then []
    else Containers(ls[..|ls| - 1]) + if ls[|ls| - 1].Listed? then ls[|ls| - 1].containers else []
  }

  /** ParseRestorePreflightOutput: a report exactly for a complete output. */
  method Parse(ls: seq<Line>) returns (r: Option<Report>)
    ensures r == if Complete(ls) then Some(Report(Problems(ls), Containers(ls))) else None
  {
    var report, sawEnd := Report([], []), false;
    for i := 0 to |ls|
      invariant report == Report(Problems(ls[..i]), Containers(ls[..i]))
      invariant sawEnd <==> End in ls[..i]
      invariant Broken !in ls[..i]
    {
      assert ls[..i + 1][..i] == ls[..i] && ls[..i + 1] == ls[..i] + [ls[i]];
      match ls[i] {
        case Nothing =>
        case End => sawEnd := true;
        case Problem(text) => report := report.(errors := report.errors + [text]);
        case Broken => return None;
        case Listed(cs) => report := report.(containers := report.containers + cs);
      }
    }
    assert ls[..|ls|] == ls;
    return if sawEnd then Some(report) else None;
  }

  // ----- conflicts -----

  /** The names whose presence on the target counts, trimmed and without blanks. */
  function Expected(names: seq<string>): set<string> {
    set i | 0 <= i < |names| && Trim(names[i]) != "" :: Trim(names[i])
  }

  /** `%q` of printable text. */
  function Quoted(s: string): string {
    "\"" + Escaped(s) + "\""
  }

  function Escaped(s: string): string {
    if s == "" then ""
    else (if s[0] == '"' || s[0] == '\\' then ['\\', s[0]] else [s[0]]) + Escaped(s[1..])
  }

  function NameTaken(name: string): string {
    "target already has container " + Quoted(name)
  }

  function ProjectTaken(project: string, name: string): string {
    "target already has Compose project " + Quoted(project) + " (container " + Quoted(name) + ")"
  }

  /** What container `c` gives rise to. */
  predicate Objection(c: Container, projectName: string, names: seq<string>, m: string) {
    || (c.name in Expected(names) && m == NameTaken(c.name))
    || (projectName != "" && c.project == projectName && m == ProjectTaken(projectName, c.name))
  }

  ghost predicate Objected(containers: seq<Container>, projectName: string, names: seq<string>, m: string) {
    exists k :: 0 <= k < |containers| && Objection(containers[k], projectName, names, m)
  }

  lemma ObjectedMore(containers: seq<Container>, c: Container, projectName: string, names: seq<string>, m: string)
    ensures Objected(containers + [c], projectName, names, m)
       <==> Objected(containers, projectName, names, m) || Objection(c, projectName, names, m)
  {
    var all := containers + [c];
    assert all[|containers|] == c;
    if Objected(containers, projectName, names, m) {
      var k :| 0 <= k < |containers| && Objection(containers[k], projectName, names, m);
      assert Objection(all[k], projectName, names, m);
    }
  }

  function Add(found: seq<string>, m: string): seq<string> {
    if m in found then found else found + [m]
  }

  lemma AddMeaning(found: seq<string>, m: string)
    ensures forall x :: x in Add(found, m) <==> x in found || x == m
  {
  }

  /** One pass of the loop. */
  method DetectIn(c: Container, projectName: string, names: seq<string>, found: seq<string>) returns (r: seq<string>)
    ensures forall m :: m in r <==> m in found || Objection(c, projectName, names, m)
  {
    r := found;
    if c.name in Expected(names) {
      AddMeaning(r, NameTaken(c.name));
      r := Add(r, NameTaken(c.name));
    }
    if projectName != "" && c.project == projectName {
      AddMeaning(r, ProjectTaken(projectName, c.name));
      r := Add(r, ProjectTaken(projectName, c.name));
    }
  }

  /** detectRestoreTargetConflicts: each conflict once, nothing else, in byte order. */
  method Detect(containers: seq<Container>, projectName: string, names: seq<string>) returns (conflicts: seq<string>)
    ensures forall m :: m in conflicts <==> Objected(containers, projectName, names, m)
    ensures Names.Sorted(conflicts)
  {
    var found: seq<string> := [];
    for i := 0 to |containers|
      invariant forall m :: m in found <==> Objected(containers[..i], projectName, names, m)
    {
      assert containers[..i + 1] == containers[..i] + [containers[i]];
      forall m ensures Objected(containers[..i + 1], projectName, names, m)
                  <==> Objected(containers[..i], projectName, names, m) || Objection(containers[i], projectName, names, m)
      {
        ObjectedMore(containers[..i], containers[i], projectName, names, m);
      }
      found := DetectIn(containers[i], projectName, names, found);
    }
    assert containers[..|containers|] == containers;
    conflicts := Names.SortedKeys(set m | m in found);
  }

  /** No container of the target stands in the way of this restore. */
  predicate Free(containers: seq<Container>, input: Input) {
    forall i :: 0 <= i < |containers| ==>
      && containers[i].name !in Expected(input.expectedContainers)
      && (input.projectName != "" ==> containers[i].project != input.projectName)
  }

  /** What it takes for an output to let the restore go on. */
  predicate Passes(input: Input, lines: seq<string>, ps: string -> Option<seq<Container>>) {
    var ls := ClassifyAll(lines, ps);
    Complete(ls) && Problems(ls) == [] && (input.crossMachine ==> Free(Containers(ls), input))
  }

  /** The verdict on the output of a probe that ran. */
  method Judge(input: Input, lines: seq<string>, ps: string -> Option<seq<Container>>) returns (pass: bool)
    ensures pass <==> Passes(input, lines, ps)
  {
    var report := Parse(ClassifyAll(lines, ps));
    if report == None || |report.value.errors| > 0 {
      return false;
    }
    if input.crossMachine {
      var conflicts := Detect(report.value.containers, input.projectName, input.expectedContainers);
      ConflictFree(report.value.containers, input, conflicts);
      if |conflicts| > 0 {
        return false;
      }
    }
    return true;
  }

  lemma ConflictFree(containers: seq<Container>, input: Input, conflicts: seq<string>)
    requires forall m :: m in conflicts <==> Objected(containers, input.projectName, input.expectedContainers, m)
    ensures conflicts == [] <==> Free(containers, input)
  {
    var names := input.expectedContainers;
    if conflicts == [] {
      forall i | 0 <= i < |containers|
        ensures containers[i].name !in Expected(names)
        ensures input.projectName != "" ==> containers[i].project != input.projectName
      {
        var c := containers[i];
        var m, n := NameTaken(c.name), ProjectTaken(input.projectName, c.name);
        assert Objection(c, input.projectName, names, m) ==> m in conflicts;
        assert Objection(c, input.projectName, names, n) ==> n in conflicts;
      }
    } else {
      assert conflicts[0] in conflicts;
    }
  }

  /** An output cut off before its end marker never passes, whatever it says. */
  lemma TruncatedNeverPasses(input: Input, lines: seq<string>, ps: string -> Option<seq<Container>>)
    requires forall i :: 0 <= i < |lines| ==> Trim(lines[i]) != END_MARKER
    ensures !Passes(input, lines, ps)
  {
    forall i | 0 <= i < |lines| ensures Classify(lines[i], ps) != End {
      assert Trim(lines[i]) != END_MARKER;
    }
  }

  /** A problem reported anywhere in the output is never outvoted by the rest of it. */
  lemma {:induction false} ProblemIsFinal(ls: seq<Line>, i: nat)
    requires i < |ls| && ls[i].Problem?
    ensures ls[i].text in Problems(ls)
    decreases |ls|
  {
    if i < |ls| - 1 {
      ProblemIsFinal(ls[..|ls| - 1], i);
    }
  }

  /** Nor is a container that is in the way. */
  lemma {:induction false} ListedIsSeen(ls: seq<Line>, i: nat, c: Container)
    requires i < |ls| && ls[i].Listed? && c in ls[i].containers
    ensures c in Containers(ls)
    decreases |ls|
  {
    if i < |ls| - 1 {
      ListedIsSeen(ls[..|ls| - 1], i, c);
    }
  }

  /** A passed check means what it says: no line of the output reports a problem or is
      unreadable, and on another machine no listed container is in the way. */
  lemma PassMeansClear(input: Input, lines: seq<string>, ps: string -> Option<seq<Container>>, i: nat)
    requires Passes(input, lines, ps) && i < |lines|
    ensures !Classify(lines[i], ps).Problem? && !Classify(lines[i], ps).Broken?
    ensures input.crossMachine && Classify(lines[i], ps).Listed? ==>
              forall c :: c in Classify(lines[i], ps).containers ==>
                c.name !in Expected(input.expectedContainers) && (input.projectName != "" ==> c.project != input.projectName)
  {
    var ls := ClassifyAll(lines, ps);
    assert ls[i] in ls;
    if ls[i].Problem? {
      ProblemIsFinal(ls, i);
    }
    if ls[i].Listed? {
      forall c | c in ls[i].containers ensures c in Containers(ls) {
        ListedIsSeen(ls, i, c);
      }
    }
  }
}
