/** The health probe (internal/capability/health.go): which targets are probed at all, what is
    printed for them line by line, and that the parser reads every line back in place. */
module HealthProbe {
  import opened Sequences
  import opened Wrappers
  import opened Text
  import opened Splitting
  import opened Health
  import Published = Ports

  // ----- which targets are probed -----

  /** No line break and no bar. */
  predicate Unbroken(s: string) {
    '\n' !in s && '\r' !in s && '|' !in s
  }

  predicate PortAccepted(port: string) {
    var (host, protocol) := Published.SplitHealthPort(port);
    && Atoi(host).Some? && 1 <= Atoi(host).value <= 65535
    && (protocol == "tcp" || protocol == "udp")
  }

  predicate EngineAccepted(engine: string) {
    engine == "" || engine == "mysql" || engine == "postgres"
  }

  predicate UrlAccepted(url: string) {
    url == "" || (("http://" <= url || "https://" <= url) && Unbroken(url))
  }

  /** What validateHealthTarget lets through. */
  predicate Accepted(t: Target) {
    && Unbroken(t.service) && Unbroken(t.container) && Unbroken(t.composeProject) && Unbroken(t.composeService)
    && (forall k :: 0 <= k < |t.ports| ==> PortAccepted(t.ports[k]))
    && EngineAccepted(Trim(t.engine)) && UrlAccepted(Trim(t.url))
  }

  /** Both loops of validateHealthTarget. */
  method AllAre(list: seq<string>, p: string -> bool) returns (ok: bool)
    ensures ok == forall k :: 0 <= k < |list| ==> p(list[k])
  {
    for k := 0 to |list|
      invariant forall j :: 0 <= j < k ==> p(list[j])
    {
      if !p(list[k]) {
        return false;
      }
    }
    return true;
  }

  /** validateHealthTarget. */
  method ValidateTarget(t: Target) returns (ok: bool)
    ensures ok == Accepted(t)
  {
    var names := [t.service, t.container, t.composeProject, t.composeService];
    ok := AllAre(names, Unbroken);
    assert ok <==> Unbroken(names[0]) && Unbroken(names[1]) && Unbroken(names[2]) && Unbroken(names[3]);
    if !ok {
      return false;
    }
    ok := AllAre(t.ports, PortAccepted);
    return ok && EngineAccepted(Trim(t.engine)) && UrlAccepted(Trim(t.url));
  }

  // ----- what the probe prints -----

  /** What the container section of the script saw. */
  datatype ContainerSeen =
    | NotFound
    | Gone(name: string)
    | Inspected(name: string, status: string, restarting: string, restarts: string, started: string)

  /** What the probe saw of one target: a state per port, that of the database, and the
      status code and verdict for the URL. */
  datatype Sighting = Sighting(container: ContainerSeen, ports: seq<string>, database: string, code: string, verdict: string)

  function ContainerText(c: ContainerSeen): seq<string> {
    match c
    case NotFound => ["", "unknown", "unknown", "unknown", ""]
    case Gone(name) => [name, "missing", "unknown", "unknown", ""]
    case Inspected(name, status, restarting, restarts, started) => [name, status, restarting, restarts, started]
  }

  function ContainerFields(i: nat, c: ContainerSeen): seq<string> {
    ["CONTAINER", Decimal(i)] + ContainerText(c)
  }

  function HttpFields(i: nat, url: string, code: string, verdict: string): seq<string> {
    ["HTTP", Decimal(i), url, code, verdict]
  }

  /** The lines for one target, by their fields. */
  function PortRecords(i: nat, ports: seq<string>, states: seq<string>): seq<Line>
    requires |states| == |ports|
  {
    seq(|ports|, k requires 0 <= k < |ports| => Record(PortTag, ["PORT", Decimal(i), ports[k], states[k]], i))
  }

  function ContainerPart(i: nat, s: Sighting): Line {
    Record(ContainerTag, ContainerFields(i, s.container), i)
  }

  function DatabasePart(i: nat, t: Target, s: Sighting): seq<Line> {
    if t.engine == "" then [] else [Record(DatabaseTag, ["DB", Decimal(i), t.engine, s.database], i)]
  }

  function HttpPart(i: nat, t: Target, s: Sighting): seq<Line> {
    if t.url == "" then [] else [Record(HttpTag, HttpFields(i, t.url, s.code, s.verdict), i)]
  }

  function Block(i: nat, t: Target, s: Sighting): seq<Line>
    requires |s.ports| == |t.ports|
  {
    [ContainerPart(i, s)] + PortRecords(i, t.ports, s.ports) + DatabasePart(i, t, s) + HttpPart(i, t, s)
  }

  predicate Matching(targets: seq<Target>, seen: seq<Sighting>) {
    |seen| == |targets| && forall i :: 0 <= i < |targets| ==> |seen[i].ports| == |targets[i].ports|
  }

  function Records(targets: seq<Target>, seen: seq<Sighting>): seq<Line>
    requires Matching(targets, seen)
  {
    if targets == [] then []
    else
      var k := |targets| - 1;
      Records(targets[..k], seen[..k]) + Block(k, targets[k], seen[k])
  }

  /** A record as it is printed. */
  function Shown(l: Line): string {
    if l.Record? && l.fields != [] then JoinWith(l.fields, '|') else ""
  }

  function AllShown(ls: seq<Line>): seq<string> {
    Mapped(Shown, ls)
  }

  const HEAD := "---OPSPULSE-HEALTH---"
  const TAIL := "---OPSPULSE-HEALTH-END---"

  /** The output of the script, every line with its line feed. */
  function Output(docker: string, targets: seq<Target>, seen: seq<Sighting>): string
    requires Matching(targets, seen)
  {
    JoinWith(Framed(HEAD, DOCKER + docker, AllShown(Records(targets, seen)), TAIL, ""), '\n')
  }

  // ----- a printed line is read back -----

  /** A text that can stand in a field of a line. */
  predicate Fits(s: string) {
    '|' !in s && '\n' !in s && Trim(s) == s
  }

  predicate Readable(l: Line, n: nat) {
    && l.Record? && l.index < n && l.index <= MAX_INT && |l.fields| >= 3
    && l.fields[1] == Decimal(l.index) && l.tag == TagOf(l.fields[0]) && l.tag != UnknownTag
    && (forall k :: 0 <= k < |l.fields| ==> '|' !in l.fields[k])
    && Trim(l.fields[|l.fields| - 1]) == l.fields[|l.fields| - 1]
  }

  predicate WellPrinted(l: Line, n: nat) {
    Readable(l, n) && forall k :: 0 <= k < |l.fields| ==> '\n' !in l.fields[k]
  }

  lemma DecimalField(i: nat)
    requires i <= MAX_INT
    ensures Atoi(Decimal(i)) == Some(i) && '|' !in Decimal(i) && '\n' !in Decimal(i)
  {
    DecimalDigits(i);
    AtoiDecimal(i);
  }

  /** No tag is taken for noise or for the Docker line. */
  lemma TagStarts(tag: string)
    requires TagOf(tag) != UnknownTag
    ensures |tag| >= 2 && !IsSpace(tag[0]) && tag[0] != '-' && !(tag[0] == 'D' && tag[1] == 'O')
  {
  }

  lemma {:induction false} JoinKeepsOut(parts: seq<string>, sep: char, c: char)
    requires parts != [] && c != sep && forall k :: 0 <= k < |parts| ==> c !in parts[k]
    ensures c !in JoinWith(parts, sep)
  {
    if |parts| > 1 {
      JoinKeepsOut(parts[1..], sep, c);
    }
  }

  /** No such line is noise or the Docker line. */
  lemma OrdinaryLine(line: string)
    requires |line| >= 2 && line[0] != '-' && !(line[0] == 'D' && line[1] == 'O')
    ensures !(RULE <= line) && !(DOCKER <= line)
  {
    assert RULE[0] == '-' && DOCKER[0] == 'D' && DOCKER[1] == 'O';
  }

  lemma TrimSame(s: string)
    requires s != "" && !IsSpace(s[0]) && !IsSpace(s[|s| - 1])
    ensures Trim(s) == s
  {
  }

  lemma TrimmedEnd(s: string)
    requires Trim(s) == s && s != ""
    ensures !IsSpace(s[|s| - 1])
  {
  }

  /** A joined line begins as its first field does and ends tidily. */
  lemma LineEnds(fields: seq<string>)
    requires |fields| >= 2 && |fields[0]| >= 2 && !IsSpace(fields[0][0])
    requires Trim(fields[|fields| - 1]) == fields[|fields| - 1]
    ensures var line := JoinWith(fields, '|');
            |line| >= 2 && line[0] == fields[0][0] && line[1] == fields[0][1] && Trim(line) == line
  {
    var line, last := JoinWith(fields, '|'), fields[|fields| - 1];
    JoinStart(fields, '|');
    JoinEnd(fields, '|');
    if last != "" {
      TrimmedEnd(last);
    }
    TrimSame(line);
  }

  lemma FieldsRead(l: Line, n: nat)
    requires Readable(l, n)
    ensures DecodeFields(l.fields, n) == l
  {
    DecimalField(l.index);
  }

  lemma DecodeOrdinary(line: string, n: nat)
    requires |line| >= 2 && line[0] != '-' && !(line[0] == 'D' && line[1] == 'O')
    ensures DecodeTrimmed(line, n) == DecodeFields(SplitAt(line, '|'), n)
  {
    OrdinaryLine(line);
  }

  lemma Reread(l: Line, n: nat)
    requires Readable(l, n)
    ensures Decode(Shown(l), n) == l
  {
    TagStarts(l.fields[0]);
    SplitJoin(l.fields, '|');
    LineEnds(l.fields);
    DecodeOrdinary(Shown(l), n);
    FieldsRead(l, n);
  }

  lemma OneRow(l: Line, n: nat)
    requires WellPrinted(l, n)
    ensures '\n' !in Shown(l)
  {
    JoinKeepsOut(l.fields, '|', '\n');
  }

  ghost predicate AllPrinted(ls: seq<Line>, n: nat) {
    forall k :: 0 <= k < |ls| ==> WellPrinted(ls[k], n)
  }

  predicate NoBreak(row: string) {
    '\n' !in row
  }

  predicate NoBreaks(rows: seq<string>) {
    forall k :: 0 <= k < |rows| ==> NoBreak(rows[k])
  }

  lemma RereadAll(ls: seq<Line>, n: nat)
    requires AllPrinted(ls, n)
    ensures Decoded(AllShown(ls), n) == ls && NoBreaks(AllShown(ls))
  {
    var decode := row => Decode(row, n);
    forall k | 0 <= k < |ls| ensures decode(Shown(ls[k])) == ls[k] && NoBreak(Shown(ls[k])) {
      Reread(ls[k], n);
      OneRow(ls[k], n);
    }
    MappedBack(Shown, decode, ls);
    MappedAll(Shown, ls, NoBreak);
  }

  // ----- the whole output is read back -----

  predicate DockerWord(docker: string) {
    docker == "running" || docker == "stopped" || docker == "missing"
  }

  lemma DockerWordFits(docker: string)
    requires DockerWord(docker)
    ensures docker != "" && Fits(docker)
  {
  }

  lemma DockerRead(docker: string, n: nat)
    requires docker != "" && Fits(docker)
    ensures Decode(DOCKER + docker, n) == DockerState(docker) && '\n' !in DOCKER + docker
  {
    var line := DOCKER + docker;
    TrimmedEnd(docker);
    assert line[0] == 'D' && line[|line| - 1] == docker[|docker| - 1];
    TrimSame(line);
    assert RULE[0] == '-' && line[|DOCKER|..] == docker;
  }

  lemma RulesAreNoise(n: nat)
    ensures Decode(HEAD, n) == Noise && Decode(TAIL, n) == Noise && Decode("", n) == Noise
    ensures '\n' !in HEAD && '\n' !in TAIL
  {
    assert HEAD[..3] == RULE && TAIL[..3] == RULE;
    assert HEAD[0] == '-' && HEAD[|HEAD| - 1] == '-' && TAIL[0] == '-' && TAIL[|TAIL| - 1] == '-';
    TrimSame(HEAD);
    TrimSame(TAIL);
  }

  /** Two lines before and two behind. */
  function Framed<T>(a: T, b: T, middle: seq<T>, c: T, d: T): seq<T> {
    [a, b] + middle + [c] + [d]
  }

  lemma MappedPair<T, U>(f: T -> U, a: T, b: T)
    ensures Mapped(f, [a, b]) == [f(a), f(b)]
  {
    MappedMore(f, [], a);
    MappedMore(f, [a], b);
    assert [] + [a] == [a] && [a] + [b] == [a, b];
  }

  lemma FramedMapped<T, U>(f: T -> U, a: T, b: T, middle: seq<T>, c: T, d: T)
    ensures Mapped(f, Framed(a, b, middle, c, d)) == Framed(f(a), f(b), Mapped(f, middle), f(c), f(d))
  {
    var front := [a, b] + middle;
    MappedPair(f, a, b);
    MappedConcat(f, [a, b], middle);
    MappedMore(f, front, c);
    MappedMore(f, front + [c], d);
  }

  lemma FramedBreaks(a: string, b: string, rows: seq<string>, c: string, d: string)
    requires NoBreaks(rows) && NoBreak(a) && NoBreak(b) && NoBreak(c) && NoBreak(d)
    ensures NoBreaks(Framed(a, b, rows, c, d))
  {
  }

  lemma OutputRead(docker: string, targets: seq<Target>, seen: seq<Sighting>, n: nat)
    requires Matching(targets, seen) && DockerWord(docker) && AllPrinted(Records(targets, seen), n)
    ensures Lines(Output(docker, targets, seen), n) == Framed(Noise, DockerState(docker), Records(targets, seen), Noise, Noise)
  {
    var shown := AllShown(Records(targets, seen));
    DockerWordFits(docker);
    RereadAll(Records(targets, seen), n);
    RulesAreNoise(n);
    DockerRead(docker, n);
    FramedBreaks(HEAD, DOCKER + docker, shown, TAIL, "");
    SplitJoin(Framed(HEAD, DOCKER + docker, shown, TAIL, ""), '\n');
    FramedMapped(row => Decode(row, n), HEAD, DOCKER + docker, shown, TAIL, "");
  }

  // ----- which line is the last of its kind -----

  lemma {:induction false} LastConcat(a: seq<Line>, b: seq<Line>, p: Line -> bool)
    ensures Last(a + b, p) == if Last(b, p).Some? then Last(b, p) else Last(a, p)
  {
    if b == [] {
      assert a + b == a;
    } else {
      var front := b[..|b| - 1];
      assert (a + b)[..|a + b| - 1] == a + front;
      if !p(b[|b| - 1]) {
        LastConcat(a, front, p);
      }
    }
  }

  lemma {:induction false} LastNone(ls: seq<Line>, p: Line -> bool)
    requires forall k :: 0 <= k < |ls| ==> !p(ls[k])
    ensures Last(ls, p).None?
  {
    if ls != [] {
      LastNone(ls[..|ls| - 1], p);
    }
  }

  /** Nothing but records of service `i` has the property. */
  ghost predicate Concerns(p: Line -> bool, i: nat) {
    forall l :: p(l) ==> l.Record? && l.index == i
  }

  lemma BlockIndex(i: nat, t: Target, s: Sighting)
    requires |s.ports| == |t.ports|
    ensures forall k :: 0 <= k < |Block(i, t, s)| ==> Block(i, t, s)[k].Record? && Block(i, t, s)[k].index == i
  {
  }

  lemma {:induction false} RecordsBelow(targets: seq<Target>, seen: seq<Sighting>)
    requires Matching(targets, seen)
    ensures forall k :: 0 <= k < |Records(targets, seen)| ==> Records(targets, seen)[k].Record? && Records(targets, seen)[k].index < |targets|
  {
    if targets != [] {
      var k := |targets| - 1;
      RecordsBelow(targets[..k], seen[..k]);
      BlockIndex(k, targets[k], seen[k]);
    }
  }

  lemma NotInBlock(k: nat, t: Target, s: Sighting, i: nat, p: Line -> bool)
    requires |s.ports| == |t.ports| && i != k && Concerns(p, i)
    ensures Last(Block(k, t, s), p).None?
  {
    BlockIndex(k, t, s);
    LastNone(Block(k, t, s), p);
  }

  lemma NotEarlier(targets: seq<Target>, seen: seq<Sighting>, p: Line -> bool)
    requires Matching(targets, seen) && Concerns(p, |targets|)
    ensures Last(Records(targets, seen), p).None?
  {
    RecordsBelow(targets, seen);
    LastNone(Records(targets, seen), p);
  }

  lemma LastOfMore(targets: seq<Target>, seen: seq<Sighting>, p: Line -> bool)
    requires Matching(targets, seen) && targets != []
    ensures var k := |targets| - 1;
            var block, front := Last(Block(k, targets[k], seen[k]), p), Last(Records(targets[..k], seen[..k]), p);
            Last(Records(targets, seen), p) == if block.Some? then block else front
  {
    var k := |targets| - 1;
    LastConcat(Records(targets[..k], seen[..k]), Block(k, targets[k], seen[k]), p);
  }

  /** What is said of a service is said in its own block. */
  lemma {:induction false} LastInBlock(targets: seq<Target>, seen: seq<Sighting>, i: nat, p: Line -> bool)
    requires Matching(targets, seen) && i < |targets| && Concerns(p, i)
    ensures Last(Records(targets, seen), p) == Last(Block(i, targets[i], seen[i]), p)
  {
    var k := |targets| - 1;
    LastOfMore(targets, seen, p);
    if i == k {
      NotEarlier(targets[..k], seen[..k], p);
    } else {
      NotInBlock(k, targets[k], seen[k], i, p);
      LastInBlock(targets[..k], seen[..k], i, p);
    }
  }

  lemma LastInOutput(docker: string, records: seq<Line>, p: Line -> bool)
    requires forall l :: p(l) ==> l.Record?
    ensures Last(Framed(Noise, DockerState(docker), records, Noise, Noise), p) == Last(records, p)
  {
    var head, tail := [Noise, DockerState(docker)], [Noise, Noise];
    LastNone(head, p);
    LastNone(tail, p);
    LastConcat(head + records, tail, p);
    LastConcat(head, records, p);
    assert Framed(Noise, DockerState(docker), records, Noise, Noise) == head + records + tail;
  }

  lemma {:induction false} LastOnly(ls: seq<Line>, p: Line -> bool, k: nat)
    requires k < |ls| && p(ls[k]) && forall j :: k < j < |ls| ==> !p(ls[j])
    ensures Last(ls, p) == Some(ls[k])
  {
    if k < |ls| - 1 {
      LastOnly(ls[..|ls| - 1], p, k);
    }
  }

  /** A block has four parts. */
  lemma LastOfFour(a: seq<Line>, b: seq<Line>, c: seq<Line>, d: seq<Line>, p: Line -> bool)
    ensures Last(a + b + c + d, p)
         == if Last(d, p).Some? then Last(d, p)
            else if Last(c, p).Some? then Last(c, p)
            else if Last(b, p).Some? then Last(b, p)
            else Last(a, p)
  {
    LastConcat(a + b + c, d, p);
    LastConcat(a + b, c, p);
    LastConcat(a, b, p);
  }

  lemma LastOne(l: Line, p: Line -> bool)
    ensures Last([l], p) == if p(l) then Some(l) else None
  {
    assert [l][..0] == [];
  }

  /** What a part contributes. */
  lemma PartsHave(i: nat, t: Target, s: Sighting, p: Line -> bool)
    requires |s.ports| == |t.ports|
    ensures Last([ContainerPart(i, s)], p) == if p(ContainerPart(i, s)) then Some(ContainerPart(i, s)) else None
    ensures Last(DatabasePart(i, t, s), p)
         == if t.engine != "" && p(DatabasePart(i, t, s)[0]) then Some(DatabasePart(i, t, s)[0]) else None
    ensures Last(HttpPart(i, t, s), p) == if t.url != "" && p(HttpPart(i, t, s)[0]) then Some(HttpPart(i, t, s)[0]) else None
  {
    LastOne(ContainerPart(i, s), p);
    if t.engine != "" {
      LastOne(DatabasePart(i, t, s)[0], p);
    }
    if t.url != "" {
      LastOne(HttpPart(i, t, s)[0], p);
    }
  }

  lemma BlockHas(i: nat, t: Target, s: Sighting, p: Line -> bool)
    requires |s.ports| == |t.ports|
    ensures Last(Block(i, t, s), p)
         == if Last(HttpPart(i, t, s), p).Some? then Last(HttpPart(i, t, s), p)
            else if Last(DatabasePart(i, t, s), p).Some? then Last(DatabasePart(i, t, s), p)
            else if Last(PortRecords(i, t.ports, s.ports), p).Some? then Last(PortRecords(i, t.ports, s.ports), p)
            else Last([ContainerPart(i, s)], p)
  {
    LastOfFour([ContainerPart(i, s)], PortRecords(i, t.ports, s.ports), DatabasePart(i, t, s), HttpPart(i, t, s), p);
  }

  lemma BlockContainer(i: nat, t: Target, s: Sighting)
    requires |s.ports| == |t.ports|
    ensures FieldsOf(Last(Block(i, t, s), l => Tagged(l, ContainerTag, i))) == ContainerFields(i, s.container)
  {
    var p := l => Tagged(l, ContainerTag, i);
    BlockHas(i, t, s, p);
    PartsHave(i, t, s, p);
    LastNone(PortRecords(i, t.ports, s.ports), p);
  }

  predicate Distinct(list: seq<string>) {
    forall j, k :: 0 <= j < k < |list| ==> list[j] != list[k]
  }

  lemma BlockPort(i: nat, t: Target, s: Sighting, k: nat)
    requires |s.ports| == |t.ports| && k < |t.ports| && Distinct(t.ports)
    ensures FieldsOf(Last(Block(i, t, s), l => About(l, PortTag, i, t.ports[k]))) == ["PORT", Decimal(i), t.ports[k], s.ports[k]]
  {
    var p := l => About(l, PortTag, i, t.ports[k]);
    BlockHas(i, t, s, p);
    PartsHave(i, t, s, p);
    LastOnly(PortRecords(i, t.ports, s.ports), p, k);
  }

  lemma BlockDatabase(i: nat, t: Target, s: Sighting)
    requires |s.ports| == |t.ports| && t.engine != ""
    ensures FieldsOf(Last(Block(i, t, s), l => About(l, DatabaseTag, i, t.engine))) == ["DB", Decimal(i), t.engine, s.database]
  {
    var p := l => About(l, DatabaseTag, i, t.engine);
    BlockHas(i, t, s, p);
    PartsHave(i, t, s, p);
  }

  lemma BlockHttp(i: nat, t: Target, s: Sighting)
    requires |s.ports| == |t.ports| && t.url != ""
    ensures FieldsOf(Last(Block(i, t, s), l => Tagged(l, HttpTag, i))) == HttpFields(i, t.url, s.code, s.verdict)
  {
    var p := l => Tagged(l, HttpTag, i);
    BlockHas(i, t, s, p);
    PartsHave(i, t, s, p);
  }

  // ----- every line is printed so that it can be read -----

  /** A text that can stand in a line. */
  predicate Plain(s: string) {
    '|' !in s && '\n' !in s
  }

  /** The ports, the engine and the URL of a target, as they are printed. */
  predicate TargetPrints(t: Target) {
    (forall k :: 0 <= k < |t.ports| ==> Plain(t.ports[k])) && Distinct(t.ports) && Plain(t.engine) && Plain(t.url)
  }

  predicate StateWord(s: string) {
    s == "yes" || s == "no" || s == "unknown"
  }

  predicate VerdictWord(s: string) {
    s == "yes" || s == "no"
  }

  predicate ContainerPrints(c: ContainerSeen) {
    match c
    case NotFound => true
    case Gone(name) => Fits(name) && name != ""
    case Inspected(name, status, restarting, restarts, started) =>
      Fits(name) && name != "" && Fits(status) && Fits(restarting) && Fits(restarts) && Fits(started)
  }

  /** What the script can have seen: its own words, and Docker's and curl's answers on one line. */
  predicate SightingPrints(s: Sighting) {
    && ContainerPrints(s.container) && (forall k :: 0 <= k < |s.ports| ==> StateWord(s.ports[k]))
    && StateWord(s.database) && Plain(s.code) && VerdictWord(s.verdict)
  }

  lemma WordsFit()
    ensures forall s :: StateWord(s) || VerdictWord(s) ==> Fits(s)
    ensures Fits("") && Fits("unknown") && Fits("missing")
  {
  }

  lemma TagWords()
    ensures TagOf("CONTAINER") == ContainerTag && TagOf("PORT") == PortTag && TagOf("DB") == DatabaseTag && TagOf("HTTP") == HttpTag
    ensures Plain("CONTAINER") && Plain("PORT") && Plain("DB") && Plain("HTTP")
  {
  }

  predicate AllPlain(fields: seq<string>) {
    forall k :: 0 <= k < |fields| ==> Plain(fields[k])
  }

  lemma LackTogether(word: string, d: string, rest: seq<string>, c: char)
    requires c !in word && c !in d && forall k :: 0 <= k < |rest| ==> c !in rest[k]
    ensures forall k :: 0 <= k < |[word, d] + rest| ==> c !in ([word, d] + rest)[k]
  {
    forall k | 0 <= k < |[word, d] + rest| ensures c !in ([word, d] + rest)[k] {
      assert k >= 2 ==> ([word, d] + rest)[k] == rest[k - 2];
    }
  }

  lemma RecordReadable(tag: Tag, word: string, i: nat, rest: seq<string>, n: nat)
    requires i < n && i <= MAX_INT && TagOf(word) == tag && tag != UnknownTag && '|' !in word
    requires rest != [] && (forall k :: 0 <= k < |rest| ==> '|' !in rest[k]) && Fits(rest[|rest| - 1])
    ensures Readable(Record(tag, [word, Decimal(i)] + rest, i), n)
  {
    DecimalField(i);
    LackTogether(word, Decimal(i), rest, '|');
    InFrontOf(word, Decimal(i), rest);
  }

  lemma InFrontOf<T>(a: T, b: T, rest: seq<T>)
    requires rest != []
    ensures var all := [a, b] + rest; |all| >= 3 && all[0] == a && all[1] == b && all[|all| - 1] == rest[|rest| - 1]
  {
  }

  lemma RecordPrinted(tag: Tag, word: string, i: nat, rest: seq<string>, n: nat)
    requires i < n && i <= MAX_INT && TagOf(word) == tag && tag != UnknownTag && Plain(word)
    requires rest != [] && AllPlain(rest) && Fits(rest[|rest| - 1])
    ensures WellPrinted(Record(tag, [word, Decimal(i)] + rest, i), n)
  {
    assert forall k :: 0 <= k < |rest| ==> Plain(rest[k]);
    RecordReadable(tag, word, i, rest, n);
    DecimalField(i);
    LackTogether(word, Decimal(i), rest, '\n');
  }

  lemma ContainerPrinted(i: nat, s: Sighting, n: nat)
    requires i < n && i <= MAX_INT && ContainerPrints(s.container)
    ensures WellPrinted(ContainerPart(i, s), n)
  {
    WordsFit();
    TagWords();
    RecordPrinted(ContainerTag, "CONTAINER", i, ContainerText(s.container), n);
  }

  lemma DatabasePrinted(i: nat, t: Target, s: Sighting, n: nat)
    requires i < n && i <= MAX_INT && Plain(t.engine) && StateWord(s.database)
    ensures AllPrinted(DatabasePart(i, t, s), n)
  {
    WordsFit();
    TagWords();
    assert ["DB", Decimal(i), t.engine, s.database] == ["DB", Decimal(i)] + [t.engine, s.database];
    RecordPrinted(DatabaseTag, "DB", i, [t.engine, s.database], n);
  }

  lemma HttpPrinted(i: nat, t: Target, s: Sighting, n: nat)
    requires i < n && i <= MAX_INT && Plain(t.url) && Plain(s.code) && VerdictWord(s.verdict)
    ensures AllPrinted(HttpPart(i, t, s), n)
  {
    WordsFit();
    TagWords();
    assert HttpFields(i, t.url, s.code, s.verdict) == ["HTTP", Decimal(i)] + [t.url, s.code, s.verdict];
    RecordPrinted(HttpTag, "HTTP", i, [t.url, s.code, s.verdict], n);
  }

  lemma PortsPrinted(i: nat, ports: seq<string>, states: seq<string>, n: nat)
    requires i < n && i <= MAX_INT && |states| == |ports| && AllPlain(ports)
    requires forall k :: 0 <= k < |states| ==> StateWord(states[k])
    ensures AllPrinted(PortRecords(i, ports, states), n)
  {
    forall k | 0 <= k < |ports| ensures WellPrinted(PortRecords(i, ports, states)[k], n) {
      WordsFit();
      TagWords();
      assert ["PORT", Decimal(i), ports[k], states[k]] == ["PORT", Decimal(i)] + [ports[k], states[k]];
      RecordPrinted(PortTag, "PORT", i, [ports[k], states[k]], n);
    }
  }

  lemma PrintedConcat(a: seq<Line>, b: seq<Line>, n: nat)
    requires AllPrinted(a, n) && AllPrinted(b, n)
    ensures AllPrinted(a + b, n)
  {
    forall k | 0 <= k < |a + b| ensures WellPrinted((a + b)[k], n) {
      assert (a + b)[k] == if k < |a| then a[k] else b[k - |a|];
    }
  }

  lemma BlockPrinted(i: nat, t: Target, s: Sighting, n: nat)
    requires i < n && i <= MAX_INT && |s.ports| == |t.ports| && TargetPrints(t) && SightingPrints(s)
    ensures AllPrinted(Block(i, t, s), n)
  {
    ContainerPrinted(i, s, n);
    DatabasePrinted(i, t, s, n);
    HttpPrinted(i, t, s, n);
    PortsPrinted(i, t.ports, s.ports, n);
    var a, b := [ContainerPart(i, s)], PortRecords(i, t.ports, s.ports);
    PrintedConcat(a, b, n);
    PrintedConcat(a + b, DatabasePart(i, t, s), n);
    PrintedConcat(a + b + DatabasePart(i, t, s), HttpPart(i, t, s), n);
  }

  /** Everything in a probe of these targets can be printed. */
  predicate AllPrint(targets: seq<Target>, seen: seq<Sighting>) {
    && Matching(targets, seen) && |targets| <= MAX_INT
    && forall i :: 0 <= i < |targets| ==> TargetPrints(targets[i]) && SightingPrints(seen[i])
  }

  lemma {:induction false} RecordsPrinted(targets: seq<Target>, seen: seq<Sighting>, n: nat)
    requires AllPrint(targets, seen) && |targets| <= n
    ensures AllPrinted(Records(targets, seen), n)
  {
    if targets != [] {
      var k := |targets| - 1;
      RecordsPrinted(targets[..k], seen[..k], n);
      BlockPrinted(k, targets[k], seen[k], n);
      PrintedConcat(Records(targets[..k], seen[..k]), Block(k, targets[k], seen[k]), n);
    }
  }
}
