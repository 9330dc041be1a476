/** The health targets of a plan (internal/migration/health.go): those that are let through
    can be probed and reported without a loss. */
module HealthTargets {
  import opened Text
  import opened Splitting
  import opened Health
  import opened HealthProbe
  import opened HealthReport
  import Published = Ports
  import Names

  /** A target as HealthTargetFor makes it: trimmed, with the ports of the plan. */
  predicate Planned(t: Target, specs: seq<string>) {
    && Trim(t.engine) == t.engine && Trim(t.url) == t.url
    && Names.Sorted(t.ports) && (forall p :: p in t.ports ==> p in Published.Wanted(specs))
  }

  lemma NumberIsPlain(s: string)
    requires Atoi(s).Some?
    ensures '/' !in s && '|' !in s && '\n' !in s && (forall c :: c in s ==> !IsSpace(c)) && s != ""
  {
    var digits := if s != "" && (s[0] == '-' || s[0] == '+') then s[1..] else s;
    assert AllDigits(digits);
    forall c | c in s ensures c == '-' || c == '+' || '0' <= c <= '9' {
      var k :| 0 <= k < |s| && s[k] == c;
      assert digits == s ==> '0' <= digits[k] <= '9';
      assert digits != s && k > 0 ==> digits[k - 1] == s[k] && '0' <= digits[k - 1] <= '9';
    }
  }

  lemma {:induction false} WantedForm(specs: seq<string>, p: string)
    requires p in Published.Wanted(specs)
    ensures exists host, protocol :: p == host + "/" + protocol && Atoi(host).Some? && Trim(protocol) == protocol && ToLower(protocol) == protocol
  {
    var front, spec := specs[..|specs| - 1], specs[|specs| - 1];
    if p in Published.Wanted(front) {
      WantedForm(front, p);
    } else {
      var port := Published.PortSpec(spec).value;
      assert p == port.0 + "/" + port.1;
      SpecForm(spec);
    }
  }

  lemma LowerTwice(s: string)
    ensures ToLower(ToLower(s)) == ToLower(s)
    ensures Trim(s) == s ==> Trim(ToLower(s)) == ToLower(s)
  {
    var low := ToLower(s);
    if s != "" {
      assert IsSpace(low[0]) <==> IsSpace(s[0]);
      assert IsSpace(low[|s| - 1]) <==> IsSpace(s[|s| - 1]);
    }
  }

  lemma TcpForm()
    ensures Trim("tcp") == "tcp" && ToLower("tcp") == "tcp"
  {
  }

  lemma ProtocolForm(s: string)
    ensures var protocol := Published.ProtocolOf(s); Trim(protocol) == protocol && ToLower(protocol) == protocol
  {
    var after := Published.AfterSlash(s);
    if after.Some? {
      LowerTwice(Trim(after.value));
    } else {
      TcpForm();
    }
  }

  lemma SpecForm(spec: string)
    requires Published.PortSpec(spec).Some?
    ensures var (host, protocol) := Published.PortSpec(spec).value;
            Atoi(host).Some? && Trim(protocol) == protocol && ToLower(protocol) == protocol
  {
    ProtocolForm(Trim(spec));
  }

  lemma TrimmedAround(a: string, b: string)
    requires a != "" && !IsSpace(a[0]) && Trim(b) == b
    ensures Trim(a + "/" + b) == a + "/" + b
  {
    var s := a + "/" + b;
    if b != "" {
      TrimmedEnd(b);
    }
    assert s[0] == a[0] && s[|s| - 1] == if b == "" then '/' else b[|b| - 1];
    TrimSame(s);
  }

  lemma NumberTrims(host: string)
    requires Atoi(host).Some?
    ensures host != "" && !IsSpace(host[0]) && Trim(host) == host && '/' !in host
  {
    NumberIsPlain(host);
    assert host[0] in host && host[|host| - 1] in host;
    TrimSame(host);
  }

  lemma PortSplits(host: string, protocol: string)
    requires Atoi(host).Some? && Trim(protocol) == protocol && ToLower(protocol) == protocol
    ensures Published.SplitHealthPort(host + "/" + protocol) == (host, protocol)
  {
    NumberTrims(host);
    TrimmedAround(host, protocol);
    Published.CutAtSlash(host, protocol);
  }

  lemma AcceptedProtocol(port: string, protocol: string)
    requires PortAccepted(port) && Published.SplitHealthPort(port).1 == protocol
    ensures Plain(protocol)
  {
    assert protocol == "tcp" || protocol == "udp";
  }

  /** The ports of a plan that are let through are a number, a slash and a protocol. */
  lemma PlannedPortIsPlain(host: string, protocol: string)
    requires Atoi(host).Some? && Trim(protocol) == protocol && ToLower(protocol) == protocol
    requires PortAccepted(host + "/" + protocol)
    ensures Plain(host + "/" + protocol)
  {
    PortSplits(host, protocol);
    NumberIsPlain(host);
    AcceptedProtocol(host + "/" + protocol, protocol);
  }

  lemma SortedIsDistinct(names: seq<string>)
    requires Names.Sorted(names)
    ensures Distinct(names)
  {
    forall j, k | 0 <= j < k < |names| ensures names[j] != names[k] {
      Names.LessIrreflexive(names[j]);
    }
  }

  /** Main result: every target of a plan that is let through can be printed. */
  lemma PlannedTargetsPrint(t: Target, specs: seq<string>)
    requires Accepted(t) && Planned(t, specs)
    ensures TargetPrints(t)
  {
    forall k | 0 <= k < |t.ports| ensures Plain(t.ports[k]) {
      assert t.ports[k] in t.ports;
      WantedForm(specs, t.ports[k]);
      var host, protocol :| t.ports[k] == host + "/" + protocol && Atoi(host).Some? && Trim(protocol) == protocol && ToLower(protocol) == protocol;
      PlannedPortIsPlain(host, protocol);
    }
    SortedIsDistinct(t.ports);
    AcceptedUrlHasNoBar(t);
    assert EngineAccepted(t.engine);
  }

  /** So for the targets of any plan that are let through the report is what the probe saw. */
  lemma PlanReportIsWhatWasSeen(docker: string, targets: seq<Target>, specs: seq<seq<string>>, seen: seq<Sighting>, i: nat)
    requires Matching(targets, seen) && |specs| == |targets| <= MAX_INT && DockerWord(docker) && i < |targets|
    requires forall k :: 0 <= k < |targets| ==> Accepted(targets[k]) && Planned(targets[k], specs[k]) && SightingPrints(seen[k])
    ensures var services := Report(Lines(Output(docker, targets, seen), |targets|), targets);
            |services| == |targets| && services[i] == SeenService(docker, targets[i], seen[i])
  {
    forall k | 0 <= k < |targets| ensures TargetPrints(targets[k]) {
      PlannedTargetsPrint(targets[k], specs[k]);
    }
    ReportIsWhatWasSeen(docker, targets, seen, i);
  }
}
