/** second.cc: a chain of a point-to-point link, a CSMA bus and a second
    point-to-point link, where each segment's end node is also the next
    segment's first node; a UDP echo client at one end of the chain talks to
    the echo server at the other end. */
module SecondScript {
  import opened Net
  import Params

  /** `nCsma`: the number of CSMA nodes besides the one shared with the first
      link. A fixed local in the script. */
  const NCSMA: nat := 4
  const P2P_RATE: string := "5Mbps"
  const P2P_DELAY: string := "2ms"
  const CSMA_RATE: string := "100Mbps"
  const CSMA_DELAY: string := "6560ns"
  const ECHO_PORT: nat := 15
  const SERVER_START: real := 1.0
  const CLIENT_START: real := 2.0
  const STOP: real := 30.0
  const INTERVAL: real := 1.0
  const PACKET_SIZE: nat := 1024

  /** Line 30: at most twenty packets. */
  function SanitizePackets(nPackets: uint32): (n: nat)
    ensures n <= Params.ECHO_MAX_PACKETS
    ensures nPackets <= Params.ECHO_MAX_PACKETS ==> n == nPackets
    ensures nPackets > Params.ECHO_MAX_PACKETS ==> n == Params.ECHO_MAX_PACKETS
  {
    Params.ClampAtMost(nPackets, Params.ECHO_MAX_PACKETS)
  }

  /** Everything `main` has configured when it runs the simulator; `links`
      are in creation order: first link, second link, CSMA bus. */
  datatype Setup = Setup(
    nPackets: nat,
    nodes: seq<Node>,
    p2pNodes: seq<nat>, csmaNodes: seq<nat>, p2p2Nodes: seq<nat>,
    links: seq<Link>,
    installs: seq<nat>,
    p2pInterfaces: seq<Interface>, csmaInterfaces: seq<Interface>, p2p2Interfaces: seq<Interface>,
    server: App, client: App)

  /** The bridging nodes (each in two segments) are routers, the rest hosts. */
  function RoleOf(nCsma: nat, id: nat): Role {
    if id == 1 || id == nCsma + 1 then Router else Host
  }

  function Build(nCsma: nat, nPackets: uint32): Setup {
    var np := SanitizePackets(nPackets);
    var p2pNodes := Range(0, 2);
    var csmaNodes := [p2pNodes[1]] + Range(2, nCsma + 2);
    var p2p2Nodes := [csmaNodes[nCsma]] + Range(nCsma + 2, nCsma + 3);
    var (p2pIfs, _) := Assign(SetBase(Dotted(10, 1, 1)), p2pNodes);
    var (csmaIfs, _) := Assign(SetBase(Dotted(10, 1, 2)), csmaNodes);
    var (p2p2Ifs, _) := Assign(SetBase(Dotted(10, 1, 3)), p2p2Nodes);
    Setup(
      nPackets := np,
      nodes := seq(nCsma + 3, i requires 0 <= i < nCsma + 3 => Node(i, RoleOf(nCsma, i))),
      p2pNodes := p2pNodes, csmaNodes := csmaNodes, p2p2Nodes := p2p2Nodes,
      links := [PointToPoint(p2pNodes[0], p2pNodes[1], P2P_RATE, P2P_DELAY),
                PointToPoint(p2p2Nodes[0], p2p2Nodes[1], P2P_RATE, P2P_DELAY),
                Csma(csmaNodes, CSMA_RATE, CSMA_DELAY)],
      installs := [p2pNodes[0]] + csmaNodes + [p2p2Nodes[1]],
      p2pInterfaces := p2pIfs, csmaInterfaces := csmaIfs, p2p2Interfaces := p2p2Ifs,
      server := App(EchoServer(ECHO_PORT), p2p2Nodes[1], SERVER_START, STOP),
      client := App(EchoClient(Endpoint(p2p2Ifs[1].address, ECHO_PORT), np, INTERVAL, PACKET_SIZE),
                    p2pNodes[0], CLIENT_START, STOP))
  }

  /** The script as it runs, with its four CSMA nodes. */
  function Script(nPackets: uint32): Setup {
    Build(NCSMA, nPackets)
  }

  /** The CSMA group starts with the first link's second node and has
      `nCsma + 1` members; the second link starts with its last member, so
      `csmaNodes.Get(nCsma)` is in range; the chain has `nCsma + 3` distinct
      nodes, ids in creation order. */
  lemma SharedNodes(nCsma: nat, nPackets: uint32)
    ensures var b := Build(nCsma, nPackets);
      && |b.p2pNodes| == 2 && |b.csmaNodes| == nCsma + 1 && |b.p2p2Nodes| == 2
      && b.csmaNodes[0] == b.p2pNodes[1]
      && b.p2p2Nodes[0] == b.csmaNodes[|b.csmaNodes| - 1]
      && |b.nodes| == nCsma + 3 && IdsInCreationOrder(b.nodes)
      && (forall i :: 0 <= i < |b.csmaNodes| ==> b.csmaNodes[i] < |b.nodes|)
      && b.p2pNodes[0] != b.p2p2Nodes[1]
      && Endpoints(b.links[0]) == b.p2pNodes
      && Endpoints(b.links[1]) == b.p2p2Nodes
      && Endpoints(b.links[2]) == b.csmaNodes
  {
  }

  /** Installing on the first link's first node, the CSMA group and the
      second link's second node reaches every node exactly once: the shared
      nodes are installed through the CSMA group only. */
  lemma StackOnEveryNodeOnce(nCsma: nat, nPackets: uint32)
    ensures var b := Build(nCsma, nPackets);
      InstalledExactlyOnce(b.installs, |b.nodes|)
  {
    var b := Build(nCsma, nPackets);
    var s := b.installs;
    assert s == [0] + b.csmaNodes + [nCsma + 2];
    forall i | 0 <= i < |s|
      ensures s[i] == i
    {
      if 1 <= i <= nCsma + 1 {
        assert s[i] == b.csmaNodes[i - 1];
      }
    }
    InOrderInstallsEachOnce(s);
  }

  /** 10.1.1.0 for the first link, 10.1.2.0 for the CSMA bus and 10.1.3.0
      for the second link: distinct networks, each numbering its own
      segment's nodes in container order. */
  lemma SubnetsBySegment(nCsma: nat, nPackets: uint32)
    ensures var b := Build(nCsma, nPackets);
      && AddressedIn(b.p2pInterfaces, Dotted(10, 1, 1))
      && AddressedIn(b.csmaInterfaces, Dotted(10, 1, 2))
      && AddressedIn(b.p2p2Interfaces, Dotted(10, 1, 3))
      && PairwiseDistinct([Dotted(10, 1, 1), Dotted(10, 1, 2), Dotted(10, 1, 3)])
      && |b.p2pInterfaces| == |b.p2pNodes|
      && (forall i :: 0 <= i < |b.p2pNodes| ==> b.p2pInterfaces[i].node == b.p2pNodes[i])
      && |b.csmaInterfaces| == |b.csmaNodes|
      && (forall i :: 0 <= i < |b.csmaNodes| ==> b.csmaInterfaces[i].node == b.csmaNodes[i])
      && |b.p2p2Interfaces| == |b.p2p2Nodes|
      && (forall i :: 0 <= i < |b.p2p2Nodes| ==> b.p2p2Interfaces[i].node == b.p2p2Nodes[i])
  {
  }

  /** The client on the first link's first node targets the server's own
      address on the second link, on the server's port; the server starts
      first and both stop at 30 s; the client sends at most 20 packets. */
  lemma EchoWiring(nCsma: nat, nPackets: uint32)
    ensures var b := Build(nCsma, nPackets);
      && b.server.node == b.p2p2Nodes[1] && b.server.kind == EchoServer(ECHO_PORT)
      && b.client.node == b.p2pNodes[0]
      && |b.p2p2Interfaces| == 2 && b.p2p2Interfaces[1].node == b.server.node
      && b.client.kind == EchoClient(Endpoint(b.p2p2Interfaces[1].address, b.server.kind.port),
                                     b.nPackets, INTERVAL, PACKET_SIZE)
      && b.nPackets <= Params.ECHO_MAX_PACKETS
      && b.server.start < b.client.start && b.client.stop == b.server.stop == STOP
  {
  }
}
