/** first.cc: up to five UDP echo clients, each on its own point-to-point
    link to one shared echo server (a star), each link in its own /24, the
    clients' start times jittered over a window. */
module FirstScript {
  import opened Net
  import Params
  import Decimal

  const P2P_RATE: string := "5Mbps"
  const P2P_DELAY: string := "2ms"
  const ECHO_PORT: nat := 15
  const SERVER_START: real := 1.0
  const STOP: real := 20.0
  /** The window `UniformRandomVariable::GetValue(2.0, 7.0)` draws from. */
  const JITTER_MIN: real := 2.0
  const JITTER_MAX: real := 7.0
  const INTERVAL: real := 1.0
  const PACKET_SIZE: nat := 1024

  /** Node ids, in creation order: the server first, then the clients. */
  const SERVER: nat := 0

  function ClientNode(i: nat): nat {
    1 + i
  }

  /** The counts after sanitising. */
  datatype Counts = Counts(nClients: nat, nPackets: nat)

  /** Lines 27-28: each count is clamped to at most five. */
  function Sanitize(nClients: uint32, nPackets: uint32): (c: Counts)
    ensures c.nClients <= Params.FIRST_MAX_CLIENTS && c.nPackets <= Params.FIRST_MAX_PACKETS
    ensures nClients <= Params.FIRST_MAX_CLIENTS ==> c.nClients == nClients
    ensures nClients > Params.FIRST_MAX_CLIENTS ==> c.nClients == Params.FIRST_MAX_CLIENTS
    ensures nPackets <= Params.FIRST_MAX_PACKETS ==> c.nPackets == nPackets
    ensures nPackets > Params.FIRST_MAX_PACKETS ==> c.nPackets == Params.FIRST_MAX_PACKETS
  {
    Counts(Params.ClampAtMost(nClients, Params.FIRST_MAX_CLIENTS),
           Params.ClampAtMost(nPackets, Params.FIRST_MAX_PACKETS))
  }

  /** Sanitising sanitised counts changes nothing. */
  lemma SanitizeIdempotent(nClients: uint32, nPackets: uint32)
    ensures var c := Sanitize(nClients, nPackets);
      Sanitize(c.nClients, c.nPackets) == c
  {
  }

  /** The text `"10.1." << i + 1 << ".0"` given to `SetBase` for link `i`. */
  function SubnetText(i: nat): string {
    "10.1." + Decimal.Show(i + 1) + ".0"
  }

  /** The network that text names. */
  function SubnetOf(i: nat): Ipv4Net
    requires i + 1 < 256
  {
    Dotted(10, 1, i + 1)
  }

  /** Everything `main` has configured when it runs the simulator. */
  datatype Setup = Setup(
    counts: Counts,
    nodes: seq<Node>,
    installs: seq<nat>,
    links: seq<Link>,
    interfaces: seq<seq<Interface>>,
    server: App,
    clients: seq<App>)

  /** `jitter[i]` is the start time drawn for client `i`. */
  function Build(nClients: uint32, nPackets: uint32, jitter: seq<real>): Setup
    requires |jitter| == Sanitize(nClients, nPackets).nClients
  {
    var c := Sanitize(nClients, nPackets);
    var n := c.nClients;
    var interfaces := seq(n, i requires 0 <= i < n => Assign(SetBase(SubnetOf(i)), [ClientNode(i), SERVER]).0);
    Setup(
      counts := c,
      nodes := [Node(SERVER, Host)] + seq(n, i requires 0 <= i < n => Node(ClientNode(i), Host)),
      installs := [SERVER] + Range(ClientNode(0), ClientNode(n)),
      links := seq(n, i requires 0 <= i < n => PointToPoint(ClientNode(i), SERVER, P2P_RATE, P2P_DELAY)),
      interfaces := interfaces,
      server := App(EchoServer(ECHO_PORT), SERVER, SERVER_START, STOP),
      clients := seq(n, i requires 0 <= i < n =>
                   App(EchoClient(Endpoint(interfaces[0][1].address, ECHO_PORT), c.nPackets, INTERVAL, PACKET_SIZE),
                       ClientNode(i), jitter[i], STOP)))
  }

  /** The server and `nClients` clients, ids in creation order, one stack on
      each; link `i` joins client `i` to the server, so there are exactly
      `nClients` links. */
  lemma StarTopology(nClients: uint32, nPackets: uint32, jitter: seq<real>)
    requires |jitter| == Sanitize(nClients, nPackets).nClients
    ensures var b := Build(nClients, nPackets, jitter);
      var n := b.counts.nClients;
      && |b.nodes| == n + 1 && IdsInCreationOrder(b.nodes)
      && InstalledExactlyOnce(b.installs, |b.nodes|)
      && |b.links| == n
      && (forall i :: 0 <= i < n ==> b.links[i] == PointToPoint(ClientNode(i), SERVER, P2P_RATE, P2P_DELAY))
  {
    var b := Build(nClients, nPackets, jitter);
    var n := b.counts.nClients;
    assert b.installs == Range(0, n + 1);
    RangeInstallsEachOnce(n + 1);
  }

  /** The text for link `i` is the dotted form of the network it gets. */
  lemma SubnetTextNamesNetwork(i: nat)
    requires i + 1 < 256
    ensures SubnetOf(i).number < 0x100_0000 && Text(SubnetOf(i)) == SubnetText(i)
  {
    assert Decimal.Show(10) == "10";
    assert Decimal.Show(1) == "1";
  }

  /** Distinct links get distinct subnet texts. */
  lemma SubnetTextsDistinct(i: nat, j: nat)
    requires i != j
    ensures SubnetText(i) != SubnetText(j)
  {
    if SubnetText(i) == SubnetText(j) {
      var s := SubnetText(i);
      assert s[5..|s| - 2] == Decimal.Show(i + 1);
      assert SubnetText(j)[5..|s| - 2] == Decimal.Show(j + 1);
      Decimal.ShowInjective(i + 1, j + 1);
    }
  }

  /** `interfaces` holds one container per link, in link order; link `i`'s
      interfaces are its client's then the server's, both in 10.1.(i+1).0,
      whose third octet runs 1, 2, ... and never exceeds 5. */
  lemma SubnetsPerLink(nClients: uint32, nPackets: uint32, jitter: seq<real>)
    requires |jitter| == Sanitize(nClients, nPackets).nClients
    ensures var b := Build(nClients, nPackets, jitter);
      var n := b.counts.nClients;
      && |b.interfaces| == n
      && (forall i :: 0 <= i < n ==>
            && |b.interfaces[i]| == 2
            && [b.interfaces[i][0].node, b.interfaces[i][1].node] == Endpoints(b.links[i])
            && AddressedIn(b.interfaces[i], Dotted(10, 1, i + 1))
            && ThirdOctet(b.interfaces[i][0].address.net) == i + 1 <= Params.FIRST_MAX_CLIENTS)
      && (forall i, j :: 0 <= i < j < n ==>
            b.interfaces[i][0].address.net.number < b.interfaces[j][0].address.net.number)
  {
  }

  /** Every client targets the same endpoint: the server's address on link
      0, on the server's port 15; each sends at most the sanitised count
      (never above 5) of 1024-byte packets, one per second. */
  lemma ClientsShareServer(nClients: uint32, nPackets: uint32, jitter: seq<real>)
    requires |jitter| == Sanitize(nClients, nPackets).nClients
    ensures var b := Build(nClients, nPackets, jitter);
      && b.server.node == SERVER && b.server.kind == EchoServer(ECHO_PORT)
      && |b.clients| == b.counts.nClients
      && forall i :: 0 <= i < |b.clients| ==>
           && |b.interfaces| > 0 && |b.interfaces[0]| == 2
           && b.interfaces[0][1].node == b.server.node
           && b.clients[i].node == ClientNode(i)
           && b.clients[i].kind == EchoClient(Endpoint(b.interfaces[0][1].address, b.server.kind.port),
                                              b.counts.nPackets, INTERVAL, PACKET_SIZE)
           && b.clients[i].kind.maxPackets <= Params.FIRST_MAX_PACKETS
  {
  }

  /** With every drawn start in [2.0, 7.0], each client starts after the
      server (1.0) and before both stop (20.0). */
  lemma ClientStartsInWindow(nClients: uint32, nPackets: uint32, jitter: seq<real>)
    requires |jitter| == Sanitize(nClients, nPackets).nClients
    requires forall i :: 0 <= i < |jitter| ==> JITTER_MIN <= jitter[i] <= JITTER_MAX
    ensures var b := Build(nClients, nPackets, jitter);
      forall i :: 0 <= i < |b.clients| ==>
        b.server.start < JITTER_MIN <= b.clients[i].start <= JITTER_MAX < b.clients[i].stop == b.server.stop
  {
  }
}
