/** Filling in the defaults of a lab configuration. */
module LabConfig {
  import opened Strings
  import opened NodeList

  datatype Settings = Settings(
    sshUser: string, installDir: string, agentPort: Int64, clients: seq<Node>, servers: seq<Node>,
    accessKey: string, secretKey: string, deploy: string, warpVersion: string, openPorts: seq<Int64>)

  /** The texts that replace empty fields. */
  datatype Texts = Texts(user: string, dir: string, key: string, deploy: string, warp: string)

  const STANDARD_TEXTS := Texts("root", "/opt/stratabench", "minioadmin", "docker", "v1.1.0")

  function Default(s: string, otherwise: string): string { if s == "" then otherwise else s }

  function WithPort(n: Node, port: Int64): Node { if n.port == 0 then n.(port := port) else n }

  function WithPorts(nodes: seq<Node>, port: Int64): (out: seq<Node>)
    ensures |out| == |nodes| && forall i :: 0 <= i < |nodes| ==> out[i] == WithPort(nodes[i], port)
  {
    if nodes == [] then [] else WithPorts(nodes[..|nodes| - 1], port) + [WithPort(nodes[|nodes| - 1], port)]
  }

  function Normalized(c: Settings, d: Texts): Settings {
    var agentPort: Int64 := if c.agentPort == 0 then 7777 else c.agentPort;
    Settings(
      Default(c.sshUser, d.user), Default(c.installDir, d.dir), agentPort,
      WithPorts(c.clients, agentPort), WithPorts(c.servers, 9000),
      Default(c.accessKey, d.key), Default(c.secretKey, d.key), Default(c.deploy, d.deploy),
      Default(c.warpVersion, d.warp), if c.openPorts == [] then [agentPort, 9000, 9001] else c.openPorts)
  }

  // ----- What filling in means -----

  /** What the user gave is kept; only what is missing is replaced. */
  predicate TextFilled(given: string, got: string, text: string) {
    (given != "" ==> got == given) && (given == "" ==> got == text)
  }

  predicate PortsFilled(given: seq<Node>, got: seq<Node>, port: Int64) {
    && |got| == |given|
    && forall i :: 0 <= i < |given| ==>
         && (given[i].port != 0 ==> got[i] == given[i])
         && (given[i].port == 0 ==> got[i] == given[i].(port := port))
  }

  /** n is c with every missing field set to the standard value of that field. */
  predicate FilledIn(c: Settings, n: Settings) {
    && TextFilled(c.sshUser, n.sshUser, "root") && TextFilled(c.installDir, n.installDir, "/opt/stratabench")
    && TextFilled(c.accessKey, n.accessKey, "minioadmin") && TextFilled(c.secretKey, n.secretKey, "minioadmin")
    && TextFilled(c.deploy, n.deploy, "docker") && TextFilled(c.warpVersion, n.warpVersion, "v1.1.0")
    && (c.agentPort != 0 ==> n.agentPort == c.agentPort) && (c.agentPort == 0 ==> n.agentPort == 7777)
    && PortsFilled(c.clients, n.clients, n.agentPort) && PortsFilled(c.servers, n.servers, 9000)
    && (c.openPorts != [] ==> n.openPorts == c.openPorts)
    && (c.openPorts == [] ==> n.openPorts == [n.agentPort, 9000, 9001])
  }

  lemma NormalizedFillsIn(c: Settings)
    ensures FilledIn(c, Normalized(c, STANDARD_TEXTS))
  {
  }

  /** There is only one way to fill in. */
  lemma FilledInUnique(c: Settings, n: Settings)
    ensures FilledIn(c, n) <==> n == Normalized(c, STANDARD_TEXTS)
  {
    NormalizedFillsIn(c);
    if FilledIn(c, n) {
      var m := Normalized(c, STANDARD_TEXTS);
      assert n.clients == m.clients && n.servers == m.servers;
    }
  }

  class Config {
    var sshUser: string
    var installDir: string
    var agentPort: Int64
    var clients: seq<Node>
    var servers: seq<Node>
    var accessKey: string
    var secretKey: string
    var deploy: string
    var warpVersion: string
    var openPorts: seq<Int64>

    constructor (c: Settings)
      ensures Current() == c
    {
      sshUser, installDir, agentPort := c.sshUser, c.installDir, c.agentPort;
      clients, servers := c.clients, c.servers;
      accessKey, secretKey, deploy := c.accessKey, c.secretKey, c.deploy;
      warpVersion, openPorts := c.warpVersion, c.openPorts;
    }

    function Current(): Settings
      reads this
    {
      Settings(sshUser, installDir, agentPort, clients, servers, accessKey, secretKey, deploy, warpVersion, openPorts)
    }

    method NormalizePorts()
      modifies `agentPort, `clients, `servers
      ensures agentPort == if old(agentPort) == 0 then 7777 else old(agentPort)
      ensures clients == WithPorts(old(clients), agentPort)
      ensures servers == WithPorts(old(servers), 9000)
    {
      if agentPort == 0 {
        agentPort := 7777;
      }
      var filled := FillPorts(clients, agentPort);
      clients := filled;
      filled := FillPorts(servers, 9000);
      servers := filled;
    }

    method NormalizeTexts(d: Texts)
      modifies `sshUser, `installDir, `accessKey, `secretKey, `deploy, `warpVersion
      ensures sshUser == Default(old(sshUser), d.user) && installDir == Default(old(installDir), d.dir)
      ensures accessKey == Default(old(accessKey), d.key) && secretKey == Default(old(secretKey), d.key)
      ensures deploy == Default(old(deploy), d.deploy) && warpVersion == Default(old(warpVersion), d.warp)
    {
      sshUser, installDir := Default(sshUser, d.user), Default(installDir, d.dir);
      accessKey, secretKey := Default(accessKey, d.key), Default(secretKey, d.key);
      deploy, warpVersion := Default(deploy, d.deploy), Default(warpVersion, d.warp);
    }

    method Normalize()
      modifies this
      ensures Current() == Normalized(old(Current()), STANDARD_TEXTS)
      ensures FilledIn(old(Current()), Current())
    {
      NormalizeTexts(STANDARD_TEXTS);
      NormalizePorts();
      if |openPorts| == 0 {
        openPorts := [agentPort, 9000, 9001];
      }
      NormalizedFillsIn(old(Current()));
    }

    method ClientCsv() returns (csv: string)
      ensures csv == Join(PrintedAll(clients), ',')
    {
      csv := NodesCsv(clients);
    }

    method ServerCsv() returns (csv: string)
      ensures csv == Join(PrintedAll(servers), ',')
    {
      csv := NodesCsv(servers);
    }
  }

  method FillPorts(nodes: seq<Node>, port: Int64) returns (out: seq<Node>)
    ensures out == WithPorts(nodes, port)
  {
    out := nodes;
    for i := 0 to |nodes|
      invariant |out| == |nodes|
      invariant forall j :: 0 <= j < |nodes| ==> out[j] == if j < i then WithPort(nodes[j], port) else nodes[j]
    {
      if out[i].port == 0 {
        out := out[i := out[i].(port := port)];
      }
    }
  }

  /** Filling in defaults a second time changes nothing. */
  lemma NormalizeTwice(c: Settings, d: Texts)
    ensures Normalized(Normalized(c, d), d) == Normalized(c, d)
  {
    var n := Normalized(c, d);
    assert WithPorts(n.clients, n.agentPort) == n.clients;
    assert WithPorts(n.servers, 9000) == n.servers;
  }

  /** A host that survives a comma-separated list. */
  predicate CleanHost(n: Node) { n.host != "" && !IsSpace(n.host[0]) && ',' !in n.host }

  /** A port that is positive after filling in. */
  predicate UsablePort(n: Node, fill: Int64) { n.port > 0 || (n.port == 0 && fill > 0) }

  predicate Usable(nodes: seq<Node>, fill: Int64) {
    forall i :: 0 <= i < |nodes| ==> CleanHost(nodes[i]) && UsablePort(nodes[i], fill)
  }

  predicate ListRoundTrips(nodes: seq<Node>, defaultPort: Int64, role: string) {
    SameAddresses(Parsed(Split(Join(PrintedAll(nodes), ','), ','), defaultPort, role), nodes)
  }

  predicate ListPrintable(nodes: seq<Node>) {
    forall i :: 0 <= i < |nodes| ==> Printable(nodes[i]) && ',' !in nodes[i].host
  }

  lemma RoundTripsIfPrintable(nodes: seq<Node>, defaultPort: Int64, role: string)
    ensures ListRoundTrips(nodes, defaultPort, role) <==> ListPrintable(nodes)
  {
    RoundTripIff(nodes, defaultPort, role);
  }

  lemma FilledPrintable(nodes: seq<Node>, fill: Int64)
    ensures ListPrintable(WithPorts(nodes, fill)) <==> Usable(nodes, fill)
  {
    var filled := WithPorts(nodes, fill);
    forall i | 0 <= i < |nodes|
      ensures Printable(filled[i]) && ',' !in filled[i].host <==> CleanHost(nodes[i]) && UsablePort(nodes[i], fill)
    {
    }
  }

  lemma FilledListRoundTrips(nodes: seq<Node>, fill: Int64, defaultPort: Int64, role: string)
    ensures ListRoundTrips(WithPorts(nodes, fill), defaultPort, role) <==> Usable(nodes, fill)
  {
    RoundTripsIfPrintable(WithPorts(nodes, fill), defaultPort, role);
    FilledPrintable(nodes, fill);
  }

  /** After normalization the printed client and server lists parse back to the same addresses
      exactly when no host is empty, has a comma or starts with a space, no port was negative,
      and, for clients without a port, neither was the agent port. */
  lemma NormalizedListsRoundTripIff(c: Settings, defaultPort: Int64, role: string)
    ensures var n := Normalized(c, STANDARD_TEXTS);
      && (ListRoundTrips(n.clients, defaultPort, role) <==>
            Usable(c.clients, if c.agentPort == 0 then 7777 else c.agentPort))
      && (ListRoundTrips(n.servers, defaultPort, role) <==> Usable(c.servers, 9000))
  {
    FilledListRoundTrips(c.clients, if c.agentPort == 0 then 7777 else c.agentPort, defaultPort, role);
    FilledListRoundTrips(c.servers, 9000, defaultPort, role);
  }
}
