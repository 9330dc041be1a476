/** Published ports on their way from the source container into the plan and on to the
    health probe (internal/docker/model.go, internal/migration/verify.go and health.go,
    internal/capability/health.go). */
module Ports {
  import opened Wrappers
  import opened Text
  import opened Splitting
  import Names

  datatype PortMapping = PortMapping(hostIp: string, hostPort: string, containerPort: string, protocol: string)

  function Suffix(protocol: string): string {
    if protocol != "" && ToLower(protocol) != "tcp" then "/" + ToLower(protocol) else ""
  }

  function HostSide(m: PortMapping): string {
    if m.hostIp != "" && m.hostIp != "0.0.0.0" && m.hostIp != "::" then m.hostIp + ":" + m.hostPort else m.hostPort
  }

  /** PortMapping.String. */
  function Printed(m: PortMapping): string {
    if m.hostPort == "" then m.containerPort + Suffix(m.protocol)
    else HostSide(m) + ":" + m.containerPort + Suffix(m.protocol)
  }

  /** The part before the first slash, and what follows it, if there is one. */
  function BeforeSlash(s: string): string {
    if s == "" || s[0] == '/' then "" else [s[0]] + BeforeSlash(s[1..])
  }

  function AfterSlash(s: string): Option<string> {
    if s == "" then None else if s[0] == '/' then Some(s[1..]) else AfterSlash(s[1..])
  }

  lemma {:induction false} CutAtSlash(a: string, b: string)
    requires '/' !in a
    ensures BeforeSlash(a + "/" + b) == a && AfterSlash(a + "/" + b) == Some(b)
    ensures BeforeSlash(a) == a && AfterSlash(a) == None
  {
    if a == "" {
      assert (a + "/" + b)[1..] == b;
    } else {
      assert (a + "/" + b)[1..] == a[1..] + "/" + b;
      CutAtSlash(a[1..], b);
      assert a == [a[0]] + a[1..];
    }
  }

  function ProtocolOf(s: string): string {
    match AfterSlash(s)
    case None => "tcp"
    case Some(p) => ToLower(Trim(p))
  }

  /** The host port in a spec without its protocol, if it has a fixed one. */
  function HostPortIn(s: string): Option<string> {
    var parts := SplitAt(s, ':');
    if |parts| < 2 || Atoi(Trim(parts[|parts| - 2])).None? then None else Some(Trim(parts[|parts| - 2]))
  }

  /** portSpec: the fixed host port and the protocol, none without a fixed host port. */
  function PortSpec(spec: string): Option<(string, string)> {
    var s := Trim(spec);
    if s == "" then None
    else
      match HostPortIn(BeforeSlash(s))
      case None => None
      case Some(port) => Some((port, ProtocolOf(s)))
  }

  // ----- round trip -----

  predicate Plain(s: string) {
    s != "" && forall i :: 0 <= i < |s| ==> s[i] != ':' && s[i] != '/' && !IsSpace(s[i])
  }

  /** A mapping as Docker reports it. */
  predicate WellFormed(m: PortMapping) {
    && (forall i :: 0 <= i < |m.hostIp| ==> m.hostIp[i] != '/' && !IsSpace(m.hostIp[i]))
    && (m.hostPort != "" ==> Plain(m.hostPort) && Atoi(m.hostPort).Some?)
    && Plain(m.containerPort)
    && (m.protocol != "" ==> Plain(m.protocol))
  }

  function Protocol(m: PortMapping): string {
    if m.protocol == "" then "tcp" else ToLower(m.protocol)
  }

  lemma LowerPlain(s: string)
    requires Plain(s)
    ensures Plain(ToLower(s)) && ToLower(ToLower(s)) == ToLower(s) && Trim(ToLower(s)) == ToLower(s)
  {
    forall i | 0 <= i < |s| ensures var c := Lower(s[i]); c != ':' && c != '/' && !IsSpace(c) && Lower(c) == c {
      assert s[i] != ':' && s[i] != '/' && !IsSpace(s[i]);
    }
    assert Plain(ToLower(s));
  }

  /** A text without slash and without blanks at its ends. */
  predicate IsFront(s: string) {
    s != "" && '/' !in s && !IsSpace(s[0]) && !IsSpace(s[|s| - 1])
  }

  lemma FrontAlone(front: string)
    requires IsFront(front)
    ensures Trim(front) == front && BeforeSlash(front) == front && ProtocolOf(front) == "tcp"
  {
    CutAtSlash(front, "");
  }

  lemma FrontWithProtocol(front: string, p: string)
    requires IsFront(front) && Plain(p) && ToLower(p) == p
    ensures var s := front + ("/" + p); Trim(s) == s && BeforeSlash(s) == front && ProtocolOf(s) == p
  {
    var s := front + "/" + p;
    assert front + ("/" + p) == s;
    CutAtSlash(front, p);
    assert s[0] == front[0] && s[|s| - 1] == p[|p| - 1];
    assert Trim(p) == p;
  }

  /** A front with the suffix for its protocol. */
  lemma SuffixRead(front: string, m: PortMapping)
    requires IsFront(front) && (m.protocol != "" ==> Plain(m.protocol))
    ensures var s := front + Suffix(m.protocol);
            && Trim(s) == s && BeforeSlash(s) == front
            && ProtocolOf(s) == Protocol(m)
  {
    if Suffix(m.protocol) == "" {
      assert front + "" == front;
      FrontAlone(front);
    } else {
      LowerPlain(m.protocol);
      FrontWithProtocol(front, ToLower(m.protocol));
    }
  }

  lemma HostSideSplit(m: PortMapping)
    requires WellFormed(m) && m.hostPort != ""
    ensures HostPortIn(HostSide(m) + ":" + m.containerPort) == Some(m.hostPort)
  {
    SplitConcat(HostSide(m), m.containerPort, ':');
    SplitSingle(m.containerPort, ':');
    SplitSingle(m.hostPort, ':');
    if HostSide(m) != m.hostPort {
      SplitConcat(m.hostIp, m.hostPort, ':');
    }
    assert Trim(m.hostPort) == m.hostPort;
  }

  lemma FrontIsClean(m: PortMapping)
    requires WellFormed(m) && m.hostPort != ""
    ensures IsFront(HostSide(m) + ":" + m.containerPort)
  {
  }

  /** Main result: what is printed for a published port is read back as its host port and
      protocol, whatever address it is bound to, IPv6 included; an unpublished port is read
      as none. */
  lemma PrintedThenRead(m: PortMapping)
    requires WellFormed(m)
    ensures PortSpec(Printed(m)) == if m.hostPort == "" then None else Some((m.hostPort, Protocol(m)))
  {
    if m.hostPort == "" {
      SuffixRead(m.containerPort, m);
      SplitSingle(m.containerPort, ':');
    } else {
      var front := HostSide(m) + ":" + m.containerPort;
      FrontIsClean(m);
      SuffixRead(front, m);
      HostSideSplit(m);
    }
  }

  // ----- the ports of the health probe -----

  function HealthPort(p: (string, string)): string {
    p.0 + "/" + p.1
  }

  /** splitHealthPort. */
  function SplitHealthPort(spec: string): (string, string) {
    var s := Trim(spec);
    match AfterSlash(s)
    case None => (s, "tcp")
    case Some(p) => (Trim(BeforeSlash(s)), ToLower(Trim(p)))
  }

  function WantedBy(spec: string): set<string> {
    match PortSpec(spec)
    case None => {}
    case Some(port) => {HealthPort(port)}
  }

  function Wanted(specs: seq<string>): set<string> {
    if specs == [] then {} else Wanted(specs[..|specs| - 1]) + WantedBy(specs[|specs| - 1])
  }

  /** HealthPorts: each fixed host port once, in byte order. */
  method HealthPorts(specs: seq<string>) returns (ports: seq<string>)
    ensures Names.Sorted(ports)
    ensures forall p :: p in ports <==> p in Wanted(specs)
  {
    var found: seq<string> := [];
    for i := 0 to |specs|
      invariant (set p | p in found) == Wanted(specs[..i])
    {
      assert specs[..i + 1][..i] == specs[..i];
      found := AppendPort(found, specs[i]);
    }
    assert specs[..|specs|] == specs;
    ports := Names.SortedKeys(set p | p in found);
  }

  method AppendPort(found: seq<string>, spec: string) returns (r: seq<string>)
    ensures (set p | p in r) == (set p | p in found) + WantedBy(spec)
  {
    r := found;
    match PortSpec(spec) {
      case None =>
      case Some(port) =>
        if HealthPort(port) !in found {
          r := found + [HealthPort(port)];
        }
    }
  }

  /** Main result, end to end: the probe looks for the host port and protocol the source
      container published. */
  lemma ProbedAsPublished(m: PortMapping)
    requires WellFormed(m) && m.hostPort != ""
    ensures PortSpec(Printed(m)).Some?
    ensures SplitHealthPort(HealthPort(PortSpec(Printed(m)).value)) == (m.hostPort, Protocol(m))
  {
    PrintedThenRead(m);
    ProtocolPlain(m);
    SplitBack(m.hostPort, Protocol(m));
  }

  lemma ProtocolPlain(m: PortMapping)
    requires WellFormed(m)
    ensures Plain(Protocol(m)) && ToLower(Protocol(m)) == Protocol(m)
  {
    if m.protocol != "" {
      LowerPlain(m.protocol);
    } else {
      assert Plain("tcp");
      assert ToLower("tcp") == "tcp";
    }
  }

  lemma PlainTrim(s: string)
    requires Plain(s)
    ensures Trim(s) == s && '/' !in s && !IsSpace(s[0]) && !IsSpace(s[|s| - 1])
  {
  }

  lemma SplitBack(port: string, protocol: string)
    requires Plain(port) && Plain(protocol) && ToLower(protocol) == protocol
    ensures SplitHealthPort(port + "/" + protocol) == (port, protocol)
  {
    PlainTrim(port);
    PlainTrim(protocol);
    CutAtSlash(port, protocol);
    TrimBetween(port, "/", protocol);
  }

  lemma TrimBetween(a: string, mid: string, b: string)
    requires a != "" && b != "" && !IsSpace(a[0]) && !IsSpace(b[|b| - 1])
    ensures Trim(a + mid + b) == a + mid + b
  {
    var s := a + mid + b;
    assert s[0] == a[0] && s[|s| - 1] == b[|b| - 1];
  }
}
