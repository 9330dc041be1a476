/** The post-start health report (internal/capability/health.go): what the probe prints,
    line by line, and what may be concluded from it. */
module Health {
  import opened Sequences
  import opened Wrappers
  import opened Text
  import opened Splitting

  // ----- the report -----

  datatype Verdict = Passed | Broken | Manual | Skipped

  datatype Kind = Container | Ports | Database | Http

  datatype Check = Check(kind: Kind, verdict: Verdict)

  datatype Target = Target(service: string, container: string, composeProject: string, composeService: string,
                           ports: seq<string>, engine: string, url: string)

  datatype ServiceHealth = ServiceHealth(service: string, container: string, healthy: bool, checks: seq<Check>)

  // ----- lines -----

  /** The switch on the first field. */
  datatype Tag = ContainerTag | PortTag | DatabaseTag | HttpTag | UnknownTag

  const CONTAINER_WORD := "CONTAINER"
  const PORT_WORD := "PORT"
  const DATABASE_WORD := "DB"
  const HTTP_WORD := "HTTP"

  function TagOf(field: string): Tag {
    if field == CONTAINER_WORD then ContainerTag
    else if field == PORT_WORD then PortTag
    else if field == DATABASE_WORD then DatabaseTag
    else if field == HTTP_WORD then HttpTag
    else UnknownTag
  }

  /** What one line of output is taken for. */
  datatype Line = Noise | DockerState(state: string) | Record(tag: Tag, fields: seq<string>, index: nat)

  const RULE := "---"
  const DOCKER := "DOCKER="

  function Decode(raw: string, targets: nat): (l: Line)
    ensures l.Record? ==> |l.fields| >= 3 && l.index < targets
  {
    DecodeTrimmed(Trim(raw), targets)
  }

  function DecodeTrimmed(line: string, targets: nat): (l: Line)
    ensures l.Record? ==> |l.fields| >= 3 && l.index < targets
  {
    if line == "" || RULE <= line then Noise
    else if DOCKER <= line then DockerState(Trim(line[|DOCKER|..]))
    else DecodeFields(SplitAt(line, '|'), targets)
  }

  function DecodeFields(fields: seq<string>, targets: nat): (l: Line)
    ensures l.Record? ==> |l.fields| >= 3 && l.index < targets
  {
    if |fields| < 3 then Noise
    else
      match Atoi(fields[1])
      case None => Noise
      case Some(i) => if 0 <= i < targets then Record(TagOf(fields[0]), fields, i) else Noise
  }

  function Decoded(rows: seq<string>, targets: nat): seq<Line> {
    Mapped(row => Decode(row, targets), rows)
  }

  /** The lines of a probe output, decoded. */
  function Lines(raw: string, targets: nat): seq<Line> {
    Decoded(SplitAt(raw, '\n'), targets)
  }

  function Field(fields: seq<string>, i: nat): string {
    if i < |fields| then Trim(fields[i]) else ""
  }

  predicate Tagged(l: Line, tag: Tag, i: nat) {
    l.Record? && |l.fields| >= 3 && l.tag == tag && l.index == i
  }

  predicate About(l: Line, tag: Tag, i: nat, subject: string) {
    Tagged(l, tag, i) && l.fields[2] == subject
  }

  /** The last line with a property, none if there is no such line. */
  function Last(ls: seq<Line>, p: Line -> bool): Option<Line> {
    if ls == [] then None
    else if p(ls[|ls| - 1]) then Some(ls[|ls| - 1])
    else Last(ls[..|ls| - 1], p)
  }

  function DockerOf(ls: seq<Line>): string {
    match Last(ls, (l: Line) => l.DockerState?)
    case Some(l) => if l.DockerState? then l.state else ""
    case None => "unknown"
  }

  function FieldsOf(l: Option<Line>): seq<string> {
    if l.Some? && l.value.Record? then l.value.fields else []
  }

  function ContainerOf(ls: seq<Line>, i: nat): seq<string> {
    FieldsOf(Last(ls, l => Tagged(l, ContainerTag, i)))
  }

  function PortOf(ls: seq<Line>, i: nat, spec: string): string {
    Field(FieldsOf(Last(ls, l => About(l, PortTag, i, spec))), 3)
  }

  function DatabaseOf(ls: seq<Line>, i: nat, engine: string): string {
    Field(FieldsOf(Last(ls, l => About(l, DatabaseTag, i, engine))), 3)
  }

  function HttpOf(ls: seq<Line>, i: nat): seq<string> {
    FieldsOf(Last(ls, l => Tagged(l, HttpTag, i)))
  }

  // ----- the four checks -----

  function ContainerCheck(docker: string, fields: seq<string>): Verdict {
    var restarts := Atoi(Field(fields, 5));
    if docker == "missing" || docker == "stopped" then Broken
    else if docker != "running" then Manual
    else if |fields| < 7 || Field(fields, 2) == "" then Manual
    else if Field(fields, 3) == "missing" then Broken
    else if EqualFold(Field(fields, 4), "true") || Field(fields, 3) == "restarting" then Broken
    else if Field(fields, 3) != "running" then Broken
    else if restarts.Some? && restarts.value > 0 then Broken
    else Passed
  }

  function PortCheck(state: string): Verdict {
    if state == "yes" then Passed else if state == "no" then Broken else Manual
  }

  function DatabaseCheck(engine: string, state: string): Verdict {
    if engine == "" then Skipped else if state == "yes" then Passed else if state == "no" then Broken else Manual
  }

  function HttpCheck(url: string, fields: seq<string>): Verdict {
    if Trim(url) == "" then Skipped
    else if |fields| < 5 then Manual
    else if Field(fields, 4) == "tool-missing" then Manual
    else if Field(fields, 4) == "yes" then Passed
    else Broken
  }

  function PortChecks(ls: seq<Line>, i: nat, ports: seq<string>): (cs: seq<Check>)
    ensures |cs| == |ports| && forall k :: 0 <= k < |cs| ==> cs[k] == Check(Ports, PortCheck(PortOf(ls, i, ports[k])))
  {
    seq(|ports|, k requires 0 <= k < |ports| => Check(Ports, PortCheck(PortOf(ls, i, ports[k]))))
  }

  function Checks(ls: seq<Line>, i: nat, t: Target): seq<Check> {
    [Check(Container, ContainerCheck(DockerOf(ls), ContainerOf(ls, i)))]
    + PortChecks(ls, i, t.ports)
    + [Check(Database, DatabaseCheck(t.engine, DatabaseOf(ls, i, t.engine)))]
    + [Check(Http, HttpCheck(t.url, HttpOf(ls, i)))]
  }

  predicate PassesAll(checks: seq<Check>) {
    forall k :: 0 <= k < |checks| ==> checks[k].verdict.Passed? || checks[k].verdict.Skipped?
  }

  /** serviceChecksPassed. */
  method ServiceChecksPassed(checks: seq<Check>) returns (ok: bool)
    ensures ok == PassesAll(checks)
  {
    for k := 0 to |checks|
      invariant PassesAll(checks[..k])
    {
      if !checks[k].verdict.Passed? && !checks[k].verdict.Skipped? {
        return false;
      }
    }
    assert checks[..|checks|] == checks;
    return true;
  }

  function ContainerName(t: Target, fields: seq<string>): string {
    if Field(fields, 2) != "" then Field(fields, 2) else t.container
  }

  function Assessed(ls: seq<Line>, i: nat, t: Target): ServiceHealth {
    ServiceHealth(t.service, ContainerName(t, ContainerOf(ls, i)), PassesAll(Checks(ls, i, t)), Checks(ls, i, t))
  }

  // ----- the parser -----

  function At<T>(m: map<nat, seq<T>>, i: nat): seq<T> {
    if i in m then m[i] else []
  }

  function StateAt(m: map<nat, map<string, string>>, i: nat, key: string): string {
    if i in m && key in m[i] then m[i][key] else ""
  }

  /** The maps the first loop fills. */
  datatype Seen = Seen(docker: string, containers: map<nat, seq<string>>, ports: map<nat, map<string, string>>,
                       databases: map<nat, string>, https: map<nat, seq<string>>)

  function DatabaseAt(seen: Seen, i: nat): string {
    if i in seen.databases then seen.databases[i] else ""
  }

  /** What the maps hold after reading `ls`. */
  ghost predicate Holds(ls: seq<Line>, targets: seq<Target>, seen: Seen) {
    && seen.docker == DockerOf(ls)
    && (forall i: nat :: At(seen.containers, i) == ContainerOf(ls, i))
    && (forall i: nat, spec :: StateAt(seen.ports, i, spec) == PortOf(ls, i, spec))
    && (forall i: nat :: i < |targets| ==> DatabaseAt(seen, i) == DatabaseOf(ls, i, targets[i].engine))
    && (forall i: nat :: At(seen.https, i) == HttpOf(ls, i))
  }

  /** What one line changes, and that it changes nothing else. */
  ghost predicate Moved(seen: Seen, l: Line, targets: seq<Target>, r: Seen) {
    && r.docker == (if l.DockerState? then l.state else seen.docker)
    && (forall i: nat :: At(r.containers, i) == if Tagged(l, ContainerTag, i) then l.fields else At(seen.containers, i))
    && (forall i: nat, spec ::
          StateAt(r.ports, i, spec) == if About(l, PortTag, i, spec) then Field(l.fields, 3) else StateAt(seen.ports, i, spec))
    && (forall i: nat :: i < |targets| ==>
          DatabaseAt(r, i) == if About(l, DatabaseTag, i, targets[i].engine) then Field(l.fields, 3) else DatabaseAt(seen, i))
    && (forall i: nat :: At(r.https, i) == if Tagged(l, HttpTag, i) then l.fields else At(seen.https, i))
  }

  function WithPort(seen: Seen, i: nat, spec: string, state: string): Seen {
    var known := if i in seen.ports then seen.ports[i] else map[];
    seen.(ports := seen.ports[i := known[spec := state]])
  }

  lemma PortPut(seen: Seen, i: nat, spec: string, state: string)
    ensures forall j: nat, key :: StateAt(WithPort(seen, i, spec, state).ports, j, key)
                               == if j == i && key == spec then state else StateAt(seen.ports, j, key)
  {
  }

  /** The switch on a line with fields. */
  method ObserveRecord(seen: Seen, l: Line, targets: seq<Target>) returns (r: Seen)
    requires l.Record? && |l.fields| >= 3 && l.index < |targets|
    ensures r.docker == seen.docker
    ensures forall i: nat :: At(r.containers, i) == if Tagged(l, ContainerTag, i) then l.fields else At(seen.containers, i)
    ensures forall i: nat, spec ::
              StateAt(r.ports, i, spec) == if About(l, PortTag, i, spec) then Field(l.fields, 3) else StateAt(seen.ports, i, spec)
    ensures forall i: nat :: i < |targets| ==>
              DatabaseAt(r, i) == if About(l, DatabaseTag, i, targets[i].engine) then Field(l.fields, 3) else DatabaseAt(seen, i)
    ensures forall i: nat :: At(r.https, i) == if Tagged(l, HttpTag, i) then l.fields else At(seen.https, i)
  {
    var i, fields := l.index, l.fields;
    r := seen;
    match l.tag {
      case ContainerTag => r := r.(containers := r.containers[i := fields]);
      case PortTag =>
        PortPut(r, i, fields[2], Field(fields, 3));
        r := WithPort(r, i, fields[2], Field(fields, 3));
      case DatabaseTag =>
        if fields[2] == targets[i].engine {
          r := r.(databases := r.databases[i := Field(fields, 3)]);
        }
      case HttpTag => r := r.(https := r.https[i := fields]);
      case UnknownTag =>
    }
  }

  method Observe(seen: Seen, l: Line, targets: seq<Target>) returns (r: Seen)
    requires l.Record? ==> |l.fields| >= 3 && l.index < |targets|
    ensures Moved(seen, l, targets, r)
  {
    r := seen;
    match l {
      case Noise =>
      case DockerState(state) => r := r.(docker := state);
      case Record(_, _, _) => r := ObserveRecord(seen, l, targets);
    }
  }

  lemma LastStep(ls: seq<Line>, l: Line, p: Line -> bool)
    ensures Last(ls + [l], p) == if p(l) then Some(l) else Last(ls, p)
  {
    assert (ls + [l])[..|ls|] == ls;
  }

  lemma TaggedStep(ls: seq<Line>, l: Line, tag: Tag, i: nat)
    ensures FieldsOf(Last(ls + [l], x => Tagged(x, tag, i)))
         == if Tagged(l, tag, i) then l.fields else FieldsOf(Last(ls, x => Tagged(x, tag, i)))
  {
    LastStep(ls, l, x => Tagged(x, tag, i));
  }

  lemma AboutStep(ls: seq<Line>, l: Line, tag: Tag, i: nat, subject: string)
    ensures Field(FieldsOf(Last(ls + [l], x => About(x, tag, i, subject))), 3)
         == if About(l, tag, i, subject) then Field(l.fields, 3) else Field(FieldsOf(Last(ls, x => About(x, tag, i, subject))), 3)
  {
    LastStep(ls, l, x => About(x, tag, i, subject));
  }

  lemma HoldsStep(ls: seq<Line>, l: Line, targets: seq<Target>, seen: Seen, r: Seen)
    requires Holds(ls, targets, seen)
    requires Moved(seen, l, targets, r)
    ensures Holds(ls + [l], targets, r)
  {
    LastStep(ls, l, (x: Line) => x.DockerState?);
    forall i: nat ensures At(r.containers, i) == ContainerOf(ls + [l], i) && At(r.https, i) == HttpOf(ls + [l], i) {
      TaggedStep(ls, l, ContainerTag, i);
      TaggedStep(ls, l, HttpTag, i);
    }
    forall i: nat, spec ensures StateAt(r.ports, i, spec) == PortOf(ls + [l], i, spec) {
      AboutStep(ls, l, PortTag, i, spec);
    }
    forall i: nat | i < |targets| ensures DatabaseAt(r, i) == DatabaseOf(ls + [l], i, targets[i].engine) {
      AboutStep(ls, l, DatabaseTag, i, targets[i].engine);
    }
  }

  method Take(seen: Seen, l: Line, targets: seq<Target>, ghost ls: seq<Line>) returns (r: Seen)
    requires l.Record? ==> |l.fields| >= 3 && l.index < |targets|
    requires Holds(ls, targets, seen)
    ensures Holds(ls + [l], targets, r)
  {
    r := Observe(seen, l, targets);
    HoldsStep(ls, l, targets, seen, r);
  }

  /** The first loop: one line after the other into the maps. */
  method ReadLines(raw: string, targets: seq<Target>) returns (seen: Seen)
    ensures Holds(Lines(raw, |targets|), targets, seen)
  {
    seen := Seen("unknown", map[], map[], map[], map[]);
    var rows := SplitAt(raw, '\n');
    for k := 0 to |rows|
      invariant Holds(Decoded(rows[..k], |targets|), targets, seen)
    {
      assert rows[..k + 1] == rows[..k] + [rows[k]];
      MappedMore(row => Decode(row, |targets|), rows[..k], rows[k]);
      seen := Take(seen, Decode(rows[k], |targets|), targets, Decoded(rows[..k], |targets|));
    }
    assert rows[..|rows|] == rows;
  }

  method CheckPorts(seen: Seen, i: nat, ports: seq<string>, ghost ls: seq<Line>) returns (checks: seq<Check>)
    requires forall spec :: StateAt(seen.ports, i, spec) == PortOf(ls, i, spec)
    ensures checks == PortChecks(ls, i, ports)
  {
    checks := [];
    for k := 0 to |ports|
      invariant checks == PortChecks(ls, i, ports)[..k]
    {
      checks := checks + [Check(Ports, PortCheck(StateAt(seen.ports, i, ports[k])))];
    }
  }

  method Assess(seen: Seen, i: nat, targets: seq<Target>, ghost ls: seq<Line>) returns (s: ServiceHealth)
    requires Holds(ls, targets, seen) && i < |targets|
    ensures s == Assessed(ls, i, targets[i])
  {
    var t := targets[i];
    var checks := [Check(Container, ContainerCheck(seen.docker, At(seen.containers, i)))];
    var ports := CheckPorts(seen, i, t.ports, ls);
    checks := checks + ports;
    checks := checks + [Check(Database, DatabaseCheck(t.engine, DatabaseAt(seen, i)))];
    checks := checks + [Check(Http, HttpCheck(t.url, At(seen.https, i)))];
    var ok := ServiceChecksPassed(checks);
    s := ServiceHealth(t.service, ContainerName(t, At(seen.containers, i)), ok, checks);
  }

  /** One verdict per target, in order. */
  function Each<T, U>(f: (nat, T) -> U, s: seq<T>): seq<U> {
    if s == [] then [] else Each(f, s[..|s| - 1]) + [f(|s| - 1, s[|s| - 1])]
  }

  lemma {:induction false} EachAt<T, U>(f: (nat, T) -> U, s: seq<T>, i: nat)
    requires i < |s|
    ensures |Each(f, s)| == |s| && Each(f, s)[i] == f(i, s[i])
  {
    var last := |s| - 1;
    if last > 0 {
      EachAt(f, s[..last], if i < last then i else 0);
    }
  }

  function Report(ls: seq<Line>, targets: seq<Target>): seq<ServiceHealth> {
    Each((i, t) => Assessed(ls, i, t), targets)
  }

  lemma ReportAt(ls: seq<Line>, targets: seq<Target>, i: nat)
    requires i < |targets|
    ensures |Report(ls, targets)| == |targets| && Report(ls, targets)[i] == Assessed(ls, i, targets[i])
  {
    EachAt((k, t) => Assessed(ls, k, t), targets, i);
  }

  /** The verdicts agree with the checks. */
  predicate Sound(services: seq<ServiceHealth>) {
    forall i :: 0 <= i < |services| ==> services[i].healthy == PassesAll(services[i].checks)
  }

  lemma ReportIsSound(ls: seq<Line>, targets: seq<Target>)
    ensures Sound(Report(ls, targets))
  {
    forall i | 0 <= i < |Report(ls, targets)|
      ensures Report(ls, targets)[i].healthy == PassesAll(Report(ls, targets)[i].checks)
    {
      if targets != [] {
        ReportAt(ls, targets, 0);
        ReportAt(ls, targets, i);
      }
    }
  }

  /** ParseHealthOutput. */
  method ParseHealthOutput(targets: seq<Target>, raw: string) returns (services: seq<ServiceHealth>)
    ensures services == Report(Lines(raw, |targets|), targets)
    ensures Sound(services)
  {
    var seen := ReadLines(raw, targets);
    ghost var ls := Lines(raw, |targets|);
    services := [];
    for i := 0 to |targets|
      invariant services == Report(ls, targets[..i])
    {
      var service := Assess(seen, i, targets, ls);
      assert targets[..i + 1][..i] == targets[..i];
      services := services + [service];
    }
    assert targets[..|targets|] == targets;
    ReportIsSound(ls, targets);
  }

  // ----- what a healthy verdict proves -----

  /** The last line with property `p` also says `q`. */
  ghost predicate LastSays(ls: seq<Line>, p: Line -> bool, q: Line -> bool) {
    exists k :: 0 <= k < |ls| && p(ls[k]) && q(ls[k]) && forall j :: k < j < |ls| ==> !p(ls[j])
  }

  lemma {:induction false} LastSaysIff(ls: seq<Line>, p: Line -> bool, q: Line -> bool)
    ensures LastSays(ls, p, q) <==> Last(ls, p).Some? && q(Last(ls, p).value)
  {
    if ls != [] {
      var k, front := |ls| - 1, ls[..|ls| - 1];
      assert forall j :: 0 <= j < k ==> front[j] == ls[j];
      if p(ls[k]) {
        assert q(ls[k]) ==> LastSays(ls, p, q);
      } else {
        LastSaysIff(front, p, q);
        if LastSays(front, p, q) {
          var m :| 0 <= m < k && p(front[m]) && q(front[m]) && forall j :: m < j < k ==> !p(front[j]);
          assert p(ls[m]) && q(ls[m]);
        }
        if LastSays(ls, p, q) {
          var m :| 0 <= m < |ls| && p(ls[m]) && q(ls[m]) && forall j :: m < j < |ls| ==> !p(ls[j]);
          assert p(front[m]) && q(front[m]);
        }
      }
    }
  }

  predicate SaysRunning(fields: seq<string>) {
    && |fields| >= 7 && Field(fields, 2) != "" && Field(fields, 3) == "running"
    && !EqualFold(Field(fields, 4), "true")
    && !(Atoi(Field(fields, 5)).Some? && Atoi(Field(fields, 5)).value > 0)
  }

  ghost predicate PortProven(ls: seq<Line>, i: nat, spec: string) {
    LastSays(ls, l => About(l, PortTag, i, spec), l => Field(FieldsOf(Some(l)), 3) == "yes")
  }

  ghost predicate ContainerProven(ls: seq<Line>, i: nat) {
    && LastSays(ls, (l: Line) => l.DockerState?, (l: Line) => l.DockerState? && l.state == "running")
    && LastSays(ls, l => Tagged(l, ContainerTag, i), l => SaysRunning(FieldsOf(Some(l))))
  }

  ghost predicate DatabaseProven(ls: seq<Line>, i: nat, engine: string) {
    engine == "" || LastSays(ls, l => About(l, DatabaseTag, i, engine), l => Field(FieldsOf(Some(l)), 3) == "yes")
  }

  ghost predicate UrlProven(ls: seq<Line>, i: nat, url: string) {
    || Trim(url) == ""
    || LastSays(ls, l => Tagged(l, HttpTag, i), l => |FieldsOf(Some(l))| >= 5 && Field(FieldsOf(Some(l)), 4) == "yes")
  }

  lemma DockerIff(ls: seq<Line>)
    ensures DockerOf(ls) == "running" <==>
              LastSays(ls, (l: Line) => l.DockerState?, (l: Line) => l.DockerState? && l.state == "running")
  {
    LastSaysIff(ls, (l: Line) => l.DockerState?, (l: Line) => l.DockerState? && l.state == "running");
    LastHas(ls, (l: Line) => l.DockerState?);
    assert "unknown"[0] != "running"[0];
  }

  lemma {:induction false} LastHas(ls: seq<Line>, p: Line -> bool)
    ensures Last(ls, p).Some? ==> p(Last(ls, p).value)
  {
    if ls != [] {
      LastHas(ls[..|ls| - 1], p);
    }
  }

  lemma RunningOnly(docker: string, fields: seq<string>)
    ensures ContainerCheck(docker, fields).Passed? <==> docker == "running" && SaysRunning(fields)
  {
    var state := Field(fields, 3);
    assert |"missing"| == |"stopped"| == |"running"| == 7 && "missing"[0] != "running"[0] && "stopped"[0] != "running"[0];
    assert "restarting"[1] != "running"[1];
  }

  lemma ContainerIff(ls: seq<Line>, i: nat)
    ensures ContainerCheck(DockerOf(ls), ContainerOf(ls, i)).Passed? <==> ContainerProven(ls, i)
  {
    DockerIff(ls);
    LastSaysIff(ls, l => Tagged(l, ContainerTag, i), l => SaysRunning(FieldsOf(Some(l))));
    RunningOnly(DockerOf(ls), ContainerOf(ls, i));
  }

  lemma NeverSkipped(docker: string, fields: seq<string>)
    ensures !ContainerCheck(docker, fields).Skipped?
  {
  }

  lemma PortIff(ls: seq<Line>, i: nat, spec: string)
    ensures PortCheck(PortOf(ls, i, spec)).Passed? <==> PortProven(ls, i, spec)
  {
    LastSaysIff(ls, l => About(l, PortTag, i, spec), l => Field(FieldsOf(Some(l)), 3) == "yes");
  }

  lemma DatabaseIff(ls: seq<Line>, i: nat, engine: string)
    ensures DatabaseProven(ls, i, engine) <==>
              var v := DatabaseCheck(engine, DatabaseOf(ls, i, engine)); v.Passed? || v.Skipped?
  {
    LastSaysIff(ls, l => About(l, DatabaseTag, i, engine), l => Field(FieldsOf(Some(l)), 3) == "yes");
  }

  lemma UrlIff(ls: seq<Line>, i: nat, url: string)
    ensures UrlProven(ls, i, url) <==> var v := HttpCheck(url, HttpOf(ls, i)); v.Passed? || v.Skipped?
  {
    LastSaysIff(ls, l => Tagged(l, HttpTag, i), l => |FieldsOf(Some(l))| >= 5 && Field(FieldsOf(Some(l)), 4) == "yes");
    assert "yes" != "tool-missing";
  }

  /** Main result, on arbitrary text: a service is healthy exactly when the last Docker line
      and its last container line say running, and each configured port, database and URL
      has a positive last record. Whatever is missing or garbled is no evidence. */
  lemma HealthyIff(ls: seq<Line>, i: nat, t: Target)
    ensures Assessed(ls, i, t).healthy <==>
              && ContainerProven(ls, i)
              && PortsProven(ls, i, t.ports)
              && DatabaseProven(ls, i, t.engine)
              && UrlProven(ls, i, t.url)
  {
    ContainerIff(ls, i);
    PortsIff(ls, i, t.ports);
    DatabaseIff(ls, i, t.engine);
    UrlIff(ls, i, t.url);
    var a, b, c := ContainerCheck(DockerOf(ls), ContainerOf(ls, i)), DatabaseCheck(t.engine, DatabaseOf(ls, i, t.engine)),
                   HttpCheck(t.url, HttpOf(ls, i));
    PassesAllParts(Check(Container, a), PortChecks(ls, i, t.ports), Check(Database, b), Check(Http, c));
    NeverSkipped(DockerOf(ls), ContainerOf(ls, i));
    PassesOne(Check(Container, a));
    PassesOne(Check(Database, b));
    PassesOne(Check(Http, c));
  }

  lemma PassesOne(c: Check)
    ensures PassesAll([c]) <==> c.verdict.Passed? || c.verdict.Skipped?
  {
    assert [c][0] == c;
  }

  ghost predicate PortsProven(ls: seq<Line>, i: nat, ports: seq<string>) {
    forall k :: 0 <= k < |ports| ==> PortProven(ls, i, ports[k])
  }

  lemma PortsIff(ls: seq<Line>, i: nat, ports: seq<string>)
    ensures PassesAll(PortChecks(ls, i, ports)) <==> PortsProven(ls, i, ports)
  {
    var cs := PortChecks(ls, i, ports);
    forall k | 0 <= k < |ports| ensures PortProven(ls, i, ports[k]) <==> cs[k].verdict.Passed? || cs[k].verdict.Skipped? {
      PortIff(ls, i, ports[k]);
    }
  }

  lemma PassesAllParts(a: Check, ps: seq<Check>, b: Check, c: Check)
    ensures PassesAll([a] + ps + [b] + [c]) <==> PassesAll([a]) && PassesAll(ps) && PassesAll([b]) && PassesAll([c])
  {
    var all := [a] + ps + [b] + [c];
    assert all[0] == a && all[|ps| + 1] == b && all[|ps| + 2] == c;
    assert forall k :: 0 <= k < |ps| ==> all[k + 1] == ps[k];
  }

  // ----- the three lists -----

  predicate HasVerdict(s: ServiceHealth, v: Verdict) {
    exists k :: 0 <= k < |s.checks| && s.checks[k].verdict == v
  }

  predicate IsUnhealthy(s: ServiceHealth) {
    !s.healthy
  }

  predicate IsBroken(s: ServiceHealth) {
    HasVerdict(s, Broken)
  }

  predicate IsUnverified(s: ServiceHealth) {
    !HasVerdict(s, Broken) && HasVerdict(s, Manual)
  }

  function Filter(services: seq<ServiceHealth>, p: ServiceHealth -> bool): seq<ServiceHealth> {
    if services == [] then []
    else
      var s := services[|services| - 1];
      Filter(services[..|services| - 1], p) + if p(s) then [s] else []
  }

  method Unhealthy(services: seq<ServiceHealth>) returns (out: seq<ServiceHealth>)
    ensures out == Filter(services, IsUnhealthy)
  {
    out := [];
    for i := 0 to |services|
      invariant out == Filter(services[..i], IsUnhealthy)
    {
      assert services[..i + 1][..i] == services[..i];
      if !services[i].healthy {
        out := out + [services[i]];
      }
    }
    assert services[..|services|] == services;
  }

  method Failed(services: seq<ServiceHealth>) returns (out: seq<ServiceHealth>)
    ensures out == Filter(services, IsBroken)
  {
    out := [];
    for i := 0 to |services|
      invariant out == Filter(services[..i], IsBroken)
    {
      assert services[..i + 1][..i] == services[..i];
      if IsBroken(services[i]) {
        out := out + [services[i]];
      }
    }
    assert services[..|services|] == services;
  }

  method Unverified(services: seq<ServiceHealth>) returns (out: seq<ServiceHealth>)
    ensures out == Filter(services, IsUnverified)
  {
    out := [];
    for i := 0 to |services|
      invariant out == Filter(services[..i], IsUnverified)
    {
      assert services[..i + 1][..i] == services[..i];
      if IsUnverified(services[i]) {
        out := out + [services[i]];
      }
    }
    assert services[..|services|] == services;
  }

  lemma UnhealthyMeans(s: ServiceHealth)
    requires s.healthy == PassesAll(s.checks)
    ensures !s.healthy <==> IsBroken(s) || IsUnverified(s)
    ensures !(IsBroken(s) && IsUnverified(s))
  {
    if !s.healthy {
      var k :| 0 <= k < |s.checks| && !s.checks[k].verdict.Passed? && !s.checks[k].verdict.Skipped?;
      assert s.checks[k].verdict == Broken || s.checks[k].verdict == Manual;
    }
  }

  lemma {:induction false} FilterSplits(services: seq<ServiceHealth>, p: ServiceHealth -> bool, q: ServiceHealth -> bool,
                                        r: ServiceHealth -> bool)
    requires forall i :: 0 <= i < |services| ==> (p(services[i]) <==> q(services[i]) || r(services[i]))
    requires forall i :: 0 <= i < |services| ==> !(q(services[i]) && r(services[i]))
    ensures multiset(Filter(services, p)) == multiset(Filter(services, q)) + multiset(Filter(services, r))
  {
    if services != [] {
      FilterSplits(services[..|services| - 1], p, q, r);
    }
  }

  /** Main result: failed and unverified services are disjoint, and together they are
      exactly the unhealthy ones, counted as often as they are listed. */
  lemma UnhealthySplits(services: seq<ServiceHealth>)
    requires Sound(services)
    ensures multiset(Filter(services, IsUnhealthy)) == multiset(Filter(services, IsBroken)) + multiset(Filter(services, IsUnverified))
    ensures forall i :: 0 <= i < |services| ==> !(IsBroken(services[i]) && IsUnverified(services[i]))
  {
    forall i | 0 <= i < |services|
      ensures IsUnhealthy(services[i]) <==> IsBroken(services[i]) || IsUnverified(services[i])
      ensures !(IsBroken(services[i]) && IsUnverified(services[i]))
    {
      UnhealthyMeans(services[i]);
    }
    FilterSplits(services, IsUnhealthy, IsBroken, IsUnverified);
  }
}
