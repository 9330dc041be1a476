/** That the health report says what the probe saw, and what it makes of a missing curl
    (internal/capability/health.go). */
module HealthReport {
  import opened Sequences
  import opened Wrappers
  import opened Text
  import opened Splitting
  import opened Health
  import opened HealthProbe

  // ----- the report says what the probe saw -----

  /** The last line of a kind in the whole output is the one in the block of its service. */
  lemma LastPrinted(docker: string, targets: seq<Target>, seen: seq<Sighting>, i: nat, p: Line -> bool)
    requires AllPrint(targets, seen) && DockerWord(docker) && i < |targets| && Concerns(p, i)
    ensures Last(Lines(Output(docker, targets, seen), |targets|), p) == Last(Block(i, targets[i], seen[i]), p)
  {
    RecordsPrinted(targets, seen, |targets|);
    OutputRead(docker, targets, seen, |targets|);
    LastInOutput(docker, Records(targets, seen), p);
    LastInBlock(targets, seen, i, p);
  }

  lemma DockerInFrame(docker: string, records: seq<Line>)
    requires forall k :: 0 <= k < |records| ==> records[k].Record?
    ensures Last(Framed(Noise, DockerState(docker), records, Noise, Noise), (l: Line) => l.DockerState?) == Some(DockerState(docker))
  {
    LastOnly(Framed(Noise, DockerState(docker), records, Noise, Noise), (l: Line) => l.DockerState?, 1);
  }

  lemma DockerPrinted(docker: string, targets: seq<Target>, seen: seq<Sighting>)
    requires AllPrint(targets, seen) && DockerWord(docker)
    ensures DockerOf(Lines(Output(docker, targets, seen), |targets|)) == docker
  {
    RecordsPrinted(targets, seen, |targets|);
    OutputRead(docker, targets, seen, |targets|);
    RecordsBelow(targets, seen);
    DockerInFrame(docker, Records(targets, seen));
  }

  lemma PortInPlace(docker: string, targets: seq<Target>, seen: seq<Sighting>, i: nat, k: nat)
    requires AllPrint(targets, seen) && DockerWord(docker) && i < |targets| && k < |targets[i].ports|
    ensures PortOf(Lines(Output(docker, targets, seen), |targets|), i, targets[i].ports[k]) == seen[i].ports[k]
  {
    WordsFit();
    LastPrinted(docker, targets, seen, i, l => About(l, PortTag, i, targets[i].ports[k]));
    BlockPort(i, targets[i], seen[i], k);
  }

  /** Main result: every line the probe prints is read back in place. For each service the
      parser ends up with what was printed for it, whatever is printed for the others. */
  lemma LinesReadInPlace(docker: string, targets: seq<Target>, seen: seq<Sighting>, i: nat)
    requires AllPrint(targets, seen) && DockerWord(docker) && i < |targets|
    ensures var ls, t, s := Lines(Output(docker, targets, seen), |targets|), targets[i], seen[i];
            && DockerOf(ls) == docker
            && ContainerOf(ls, i) == ContainerFields(i, s.container)
            && (forall k :: 0 <= k < |t.ports| ==> PortOf(ls, i, t.ports[k]) == s.ports[k])
            && (t.engine != "" ==> DatabaseOf(ls, i, t.engine) == s.database)
            && (t.url != "" ==> HttpOf(ls, i) == HttpFields(i, t.url, s.code, s.verdict))
  {
    var ls, t, s := Lines(Output(docker, targets, seen), |targets|), targets[i], seen[i];
    DockerPrinted(docker, targets, seen);
    LastPrinted(docker, targets, seen, i, l => Tagged(l, ContainerTag, i));
    BlockContainer(i, t, s);
    WordsFit();
    forall k | 0 <= k < |t.ports| ensures PortOf(ls, i, t.ports[k]) == s.ports[k] {
      PortInPlace(docker, targets, seen, i, k);
    }
    if t.engine != "" {
      LastPrinted(docker, targets, seen, i, l => About(l, DatabaseTag, i, t.engine));
      BlockDatabase(i, t, s);
    }
    if t.url != "" {
      LastPrinted(docker, targets, seen, i, l => Tagged(l, HttpTag, i));
      BlockHttp(i, t, s);
    }
  }

  // ----- verdicts -----

  predicate Up(status: string, restarting: string, restarts: string) {
    status == "running" && !EqualFold(restarting, "true") && !(Atoi(restarts).Some? && Atoi(restarts).value > 0)
  }

  function SeenContainer(docker: string, c: ContainerSeen): Verdict {
    if docker != "running" then Broken
    else
      match c
      case NotFound => Manual
      case Gone(_) => Broken
      case Inspected(_, status, restarting, restarts, _) => if Up(status, restarting, restarts) then Passed else Broken
  }

  function SeenState(state: string): Verdict {
    if state == "yes" then Passed else if state == "no" then Broken else Manual
  }

  function SeenUrl(t: Target, s: Sighting): Verdict {
    if Trim(t.url) == "" then Skipped else if s.verdict == "yes" then Passed else Broken
  }

  function SeenPorts(states: seq<string>): seq<Check> {
    seq(|states|, k requires 0 <= k < |states| => Check(Ports, SeenState(states[k])))
  }

  /** The checks as the probe's own observations decide them. */
  function SeenChecks(docker: string, t: Target, s: Sighting): seq<Check> {
    [Check(Container, SeenContainer(docker, s.container))]
    + SeenPorts(s.ports)
    + [Check(Database, if t.engine == "" then Skipped else SeenState(s.database))]
    + [Check(Http, SeenUrl(t, s))]
  }

  lemma FieldIs(fields: seq<string>, k: nat, text: string)
    requires k < |fields| && fields[k] == text && Trim(text) == text
    ensures Field(fields, k) == text
  {
  }

  lemma ContainerVerdict(docker: string, fields: seq<string>, c: ContainerSeen)
    requires DockerWord(docker) && ContainerPrints(c) && |fields| == 7 && fields[2..] == ContainerText(c)
    ensures ContainerCheck(docker, fields) == SeenContainer(docker, c)
    ensures Field(fields, 2) == if c.NotFound? then "" else c.name
  {
    WordsFit();
    assert forall k :: 0 <= k < 5 ==> fields[k + 2] == fields[2..][k];
    if c.Inspected? {
      InspectedVerdict(docker, fields, c);
    } else {
      FieldIs(fields, 2, if c.NotFound? then "" else c.name);
      FieldIs(fields, 3, if c.NotFound? then "unknown" else "missing");
    }
  }

  lemma InspectedVerdict(docker: string, fields: seq<string>, c: ContainerSeen)
    requires DockerWord(docker) && ContainerPrints(c) && c.Inspected? && |fields| == 7
    requires fields[2] == c.name && fields[3] == c.status && fields[4] == c.restarting && fields[5] == c.restarts
    ensures ContainerCheck(docker, fields) == SeenContainer(docker, c) && Field(fields, 2) == c.name
  {
    FieldIs(fields, 2, c.name);
    FieldIs(fields, 3, c.status);
    FieldIs(fields, 4, c.restarting);
    FieldIs(fields, 5, c.restarts);
    RunningOnly(docker, fields);
    BrokenOtherwise(docker, fields);
  }

  /** A container with a full line is never unconfirmed under a running Docker. */
  lemma BrokenOtherwise(docker: string, fields: seq<string>)
    requires DockerWord(docker) && |fields| == 7 && Field(fields, 2) != ""
    ensures ContainerCheck(docker, fields).Passed? || ContainerCheck(docker, fields).Broken?
  {
  }

  lemma UrlVerdict(t: Target, fields: seq<string>, s: Sighting)
    requires VerdictWord(s.verdict) && (t.url != "" ==> |fields| == 5 && fields[4] == s.verdict)
    ensures HttpCheck(t.url, fields) == SeenUrl(t, s)
  {
    WordsFit();
    if Trim(t.url) != "" {
      FieldIs(fields, 4, s.verdict);
    }
  }

  function SeenService(docker: string, t: Target, s: Sighting): ServiceHealth {
    ServiceHealth(t.service, if s.container.NotFound? then t.container else s.container.name,
                  PassesAll(SeenChecks(docker, t, s)), SeenChecks(docker, t, s))
  }

  lemma SamePorts(ls: seq<Line>, i: nat, ports: seq<string>, states: seq<string>)
    requires |states| == |ports| && forall k :: 0 <= k < |ports| ==> PortOf(ls, i, ports[k]) == states[k]
    ensures PortChecks(ls, i, ports) == SeenPorts(states)
  {
    forall k | 0 <= k < |ports| ensures PortCheck(PortOf(ls, i, ports[k])) == SeenState(states[k]) {
    }
  }

  lemma SameChecks(ls: seq<Line>, i: nat, docker: string, t: Target, s: Sighting)
    requires DockerOf(ls) == docker && DockerWord(docker) && SightingPrints(s) && |s.ports| == |t.ports|
    requires ContainerOf(ls, i) == ContainerFields(i, s.container)
    requires PortChecks(ls, i, t.ports) == SeenPorts(s.ports)
    requires t.engine != "" ==> DatabaseOf(ls, i, t.engine) == s.database
    requires t.url != "" ==> HttpOf(ls, i) == HttpFields(i, t.url, s.code, s.verdict)
    ensures Checks(ls, i, t) == SeenChecks(docker, t, s)
  {
    ContainerVerdict(docker, ContainerFields(i, s.container), s.container);
    UrlVerdict(t, HttpOf(ls, i), s);
    assert DatabaseCheck(t.engine, DatabaseOf(ls, i, t.engine)) == if t.engine == "" then Skipped else SeenState(s.database);
  }

  /** Main result: for every service the report repeats what the probe saw of it, check by
      check and name included. */
  lemma ReportIsWhatWasSeen(docker: string, targets: seq<Target>, seen: seq<Sighting>, i: nat)
    requires AllPrint(targets, seen) && DockerWord(docker) && i < |targets|
    ensures var services := Report(Lines(Output(docker, targets, seen), |targets|), targets);
            |services| == |targets| && services[i] == SeenService(docker, targets[i], seen[i])
  {
    var ls, t, s := Lines(Output(docker, targets, seen), |targets|), targets[i], seen[i];
    LinesReadInPlace(docker, targets, seen, i);
    ReportAt(ls, targets, i);
    SamePorts(ls, i, t.ports, s.ports);
    SameChecks(ls, i, docker, t, s);
    ContainerVerdict(docker, ContainerOf(ls, i), s.container);
  }

  /** So a service is reported healthy exactly when everything about it was seen to be well. */
  lemma HealthyIffSeenSo(docker: string, targets: seq<Target>, seen: seq<Sighting>, i: nat)
    requires AllPrint(targets, seen) && DockerWord(docker) && i < |targets|
    ensures var services, t, s := Report(Lines(Output(docker, targets, seen), |targets|), targets), targets[i], seen[i];
            && |services| == |targets|
            && (services[i].healthy <==>
                  && docker == "running" && s.container.Inspected?
                  && Up(s.container.status, s.container.restarting, s.container.restarts)
                  && (forall k :: 0 <= k < |s.ports| ==> s.ports[k] == "yes")
                  && (t.engine == "" || s.database == "yes")
                  && (Trim(t.url) == "" || s.verdict == "yes"))
  {
    var t, s := targets[i], seen[i];
    ReportIsWhatWasSeen(docker, targets, seen, i);
    SeenWell(docker, t, s);
  }

  lemma SeenWell(docker: string, t: Target, s: Sighting)
    ensures PassesAll(SeenChecks(docker, t, s)) <==>
              && SeenContainer(docker, s.container).Passed?
              && (forall k :: 0 <= k < |s.ports| ==> s.ports[k] == "yes")
              && (t.engine == "" || s.database == "yes")
              && (Trim(t.url) == "" || s.verdict == "yes")
  {
    var a, b, c := Check(Container, SeenContainer(docker, s.container)),
                   Check(Database, if t.engine == "" then Skipped else SeenState(s.database)), Check(Http, SeenUrl(t, s));
    PassesAllParts(a, SeenPorts(s.ports), b, c);
    PassesOne(a);
    PassesOne(b);
    PassesOne(c);
    PortsSeenWell(s.ports);
  }

  lemma PortsSeenWell(states: seq<string>)
    ensures PassesAll(SeenPorts(states)) <==> forall k :: 0 <= k < |states| ==> states[k] == "yes"
  {
    forall k | 0 <= k < |states|
      ensures SeenPorts(states)[k].verdict.Passed? || SeenPorts(states)[k].verdict.Skipped? <==> states[k] == "yes"
    {
    }
  }

  // ----- the URL of a target that is let through -----

  /** A URL that is let through has no bar, blanks around it or not. */
  lemma AcceptedUrlHasNoBar(t: Target)
    requires Accepted(t)
    ensures '|' !in t.url
  {
    if '|' in t.url {
      TrimKeeps(t.url, '|');
    }
  }

  lemma HttpReadable(i: nat, url: string, code: string, verdict: string, n: nat)
    requires i < n && i <= MAX_INT && '|' !in url && '|' !in code && VerdictWord(verdict)
    ensures Readable(Record(HttpTag, HttpFields(i, url, code, verdict), i), n)
  {
    WordsFit();
    TagWords();
    assert HttpFields(i, url, code, verdict) == ["HTTP", Decimal(i)] + [url, code, verdict];
    RecordReadable(HttpTag, "HTTP", i, [url, code, verdict], n);
  }

  /** The line for the URL of a target that is let through is read in place: the verdict is
      that of the probe. So the answer "tool-missing", one field further on, is never found. */
  lemma HttpLineVerdict(i: nat, t: Target, code: string, verdict: string, n: nat)
    requires i < n && i <= MAX_INT && Accepted(t) && Trim(t.url) != ""
    requires '|' !in code && VerdictWord(verdict)
    ensures var l := Decode(JoinWith(HttpFields(i, t.url, code, verdict), '|'), n);
            Tagged(l, HttpTag, i) && HttpCheck(t.url, l.fields) == if verdict == "yes" then Passed else Broken
  {
    var l := Record(HttpTag, HttpFields(i, t.url, code, verdict), i);
    AcceptedUrlHasNoBar(t);
    HttpReadable(i, t.url, code, verdict, n);
    Reread(l, n);
    UrlVerdict(t, l.fields, Sighting(NotFound, [], "", code, verdict));
  }

  lemma LinesAround(before: string, line: string, later: string, n: nat)
    requires '\n' !in line
    ensures Lines(before + "\n" + line + "\n" + later, n) == Lines(before, n) + [Decode(line, n)] + Lines(later, n)
  {
    var decode := row => Decode(row, n);
    SplitConcat(before + "\n" + line, later, '\n');
    SplitConcat(before, line, '\n');
    SplitSingle(line, '\n');
    MappedConcat(decode, SplitAt(before, '\n') + [line], SplitAt(later, '\n'));
    MappedMore(decode, SplitAt(before, '\n'), line);
  }

  lemma BrokenUrl(ls: seq<Line>, i: nat, t: Target, l: Line)
    requires Last(ls, x => Tagged(x, HttpTag, i)) == Some(l) && Tagged(l, HttpTag, i)
    requires HttpCheck(t.url, l.fields) == Broken
    ensures IsBroken(Assessed(ls, i, t))
  {
    var cs := Checks(ls, i, t);
    assert cs[|cs| - 1] == Check(Http, Broken);
  }

  lemma LastHttpLine(before: string, line: string, later: string, targets: seq<Target>, i: nat, l: Line)
    requires i < |targets| && '\n' !in line && Decode(line, |targets|) == l && Tagged(l, HttpTag, i)
    requires HttpCheck(targets[i].url, l.fields) == Broken
    requires forall x :: x in Lines(later, |targets|) ==> !Tagged(x, HttpTag, i)
    ensures var services := Report(Lines(before + "\n" + line + "\n" + later, |targets|), targets);
            |services| == |targets| && IsBroken(services[i])
  {
    var n, p := |targets|, x => Tagged(x, HttpTag, i);
    var ls := Lines(before + "\n" + line + "\n" + later, n);
    LinesAround(before, line, later, n);
    LastNone(Lines(later, n), p);
    LastConcat(Lines(before, n) + [l], Lines(later, n), p);
    LastStep(Lines(before, n), l, p);
    BrokenUrl(ls, i, targets[i], l);
    ReportAt(ls, targets, i);
  }

  lemma OneHttpRow(i: nat, url: string, code: string, verdict: string)
    requires i <= MAX_INT && '\n' !in url && '\n' !in code && VerdictWord(verdict)
    ensures '\n' !in JoinWith(HttpFields(i, url, code, verdict), '|')
  {
    DecimalField(i);
    JoinKeepsOut(HttpFields(i, url, code, verdict), '|', '\n');
  }

  /** A last line for the URL that says "no", whatever the code, makes the service a broken
      one. `later` is what follows it. */
  lemma LastNoIsBroken(before: string, code: string, later: string, targets: seq<Target>, i: nat)
    requires i < |targets| && i <= MAX_INT && Accepted(targets[i]) && Trim(targets[i].url) != "" && '\n' !in targets[i].url
    requires Plain(code) && forall l :: l in Lines(later, |targets|) ==> !Tagged(l, HttpTag, i)
    ensures var raw := before + "\n" + JoinWith(HttpFields(i, targets[i].url, code, "no"), '|') + "\n" + later;
            var services := Report(Lines(raw, |targets|), targets);
            |services| == |targets| && IsBroken(services[i])
  {
    var line := JoinWith(HttpFields(i, targets[i].url, code, "no"), '|');
    HttpLineVerdict(i, targets[i], code, "no", |targets|);
    OneHttpRow(i, targets[i].url, code, "no");
    LastHttpLine(before, line, later, targets, i, Decode(line, |targets|));
  }

  const NO_CURL := "tool-missing"

  /** Main result: a host without curl prints this line for each service with a URL, and the
      report calls every such service broken, not unconfirmed, whatever else is printed before
      it and whatever behind it that is not about this URL. */
  lemma MissingCurlIsBroken(before: string, later: string, targets: seq<Target>, i: nat)
    requires i < |targets| && i <= MAX_INT && Accepted(targets[i]) && Trim(targets[i].url) != "" && '\n' !in targets[i].url
    requires forall l :: l in Lines(later, |targets|) ==> !Tagged(l, HttpTag, i)
    ensures var raw := before + "\n" + JoinWith(HttpFields(i, targets[i].url, NO_CURL, "no"), '|') + "\n" + later;
            var services := Report(Lines(raw, |targets|), targets);
            |services| == |targets| && IsBroken(services[i])
  {
    NoCurlIsPlain();
    LastNoIsBroken(before, NO_CURL, later, targets, i);
  }

  lemma NoCurlIsPlain()
    ensures Plain(NO_CURL)
  {
  }
}
