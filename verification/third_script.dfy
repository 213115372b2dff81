/** third.cc: two wifi networks of `nWifi` stations each, whose access
    points are the two ends of one point-to-point link; a UDP echo client on
    the last station of network 2 talks to the echo server on the last
    station of network 1. */
module ThirdScript {
  import opened Wrappers
  import opened Net
  import Params

  const SSID1: string := "network-1"
  const SSID2: string := "network-2"
  const P2P_RATE: string := "5Mbps"
  const P2P_DELAY: string := "2ms"
  const ECHO_PORT: nat := 9
  const SERVER_START: real := 1.0
  const CLIENT_START: real := 2.0
  const APP_STOP: real := 20.0
  const SIM_STOP: real := 25.0
  const INTERVAL: real := 1.0
  const PACKET_SIZE: nat := 1024

  /** How the program ends when it refuses its arguments. */
  datatype Exit = Exit(code: nat, message: string)

  const TOO_MANY_STATIONS: Exit := Exit(1, "nWifi should be 9 or less")
  const NO_STATIONS: Exit := Exit(1, "nWifi should be 1 or more")

  /** Lines 30-34 as written: only a count above nine is refused. */
  function ValidateAsWritten(nWifi: uint32): (r: Result<uint32, Exit>)
    ensures r.Failure? <==> nWifi > Params.THIRD_MAX_WIFI
    ensures r.Failure? ==> r.error == TOO_MANY_STATIONS
    ensures r.Success? ==> r.value == nWifi
  {
    if nWifi > Params.THIRD_MAX_WIFI then Failure(TOO_MANY_STATIONS) else Success(nWifi)
  }

  /** `nWifi - 1` in `uint32_t` arithmetic: the index of the last station. */
  function StationIndex(nWifi: uint32): (k: uint32)
    ensures nWifi >= 1 ==> k + 1 == nWifi
  {
    (nWifi - 1) % 0x1_0000_0000
  }

  /** With no stations the guard lets the run through, and the index of the
      "last" station wraps to 4294967295, past the end of an empty station
      container. */
  lemma ZeroStationsPassGuard()
    ensures ValidateAsWritten(0).Success?
    ensures StationIndex(0) == 0xFFFF_FFFF
    ensures StationIndex(0) >= |Range(2, 2 + 0)|
  {
  }

  /** The check as intended: a count outside 1..9 is refused. */
  function Validate(nWifi: uint32): (r: Result<uint32, Exit>)
    ensures r.Success? <==> 1 <= nWifi <= Params.THIRD_MAX_WIFI
    ensures nWifi > Params.THIRD_MAX_WIFI ==> r == Failure(TOO_MANY_STATIONS)
    ensures r.Success? ==> r.value == nWifi && StationIndex(nWifi) < nWifi
  {
    if nWifi > Params.THIRD_MAX_WIFI then Failure(TOO_MANY_STATIONS)
    else if nWifi == 0 then Failure(NO_STATIONS)
    else Success(nWifi)
  }

  /** The wifi MAC each device is configured with. */
  datatype WifiMac = StaMac(ssid: string, activeProbing: bool) | ApMac(ssid: string)

  datatype WifiNetDevice = WifiNetDevice(node: nat, mac: WifiMac)

  /** Everything `main` has configured when it runs the simulator; `links`
      are the point-to-point link, then network 1, then network 2. */
  datatype Setup = Setup(
    nWifi: nat, nPackets: nat,
    nodes: seq<Node>,
    p2pNodes: seq<nat>, wifiStaNodes1: seq<nat>, wifiStaNodes2: seq<nat>,
    wifiApNode1: nat, wifiApNode2: nat,
    links: seq<Link>,
    staDevices1: seq<WifiNetDevice>, apDevices1: seq<WifiNetDevice>,
    staDevices2: seq<WifiNetDevice>, apDevices2: seq<WifiNetDevice>,
    installs: seq<nat>,
    p2pInterfaces: seq<Interface>,
    staInterfaces1: seq<Interface>, apInterfaces1: seq<Interface>,
    staInterfaces2: seq<Interface>, apInterfaces2: seq<Interface>,
    server: App, client: App,
    stop: real)

  /** `WifiHelper::Install` with one MAC configuration for every node. */
  function WifiDevices(nodes: seq<nat>, mac: WifiMac): (devs: seq<WifiNetDevice>)
    ensures |devs| == |nodes|
    ensures forall i :: 0 <= i < |nodes| ==> devs[i] == WifiNetDevice(nodes[i], mac)
  {
    seq(|nodes|, i requires 0 <= i < |nodes| => WifiNetDevice(nodes[i], mac))
  }

  function Build(nWifi: uint32, nPackets: nat): Setup
    requires 1 <= nWifi <= Params.THIRD_MAX_WIFI
  {
    var n := nWifi as nat;
    var last := StationIndex(nWifi) as nat;
    var p2pNodes := Range(0, 2);
    var sta1 := Range(2, 2 + n);
    var sta2 := Range(2 + n, 2 + 2 * n);
    var ap1 := p2pNodes[0];
    var ap2 := p2pNodes[1];
    var (p2pIfs, _) := Assign(SetBase(Dotted(10, 1, 1)), p2pNodes);
    var (staIfs1, al1) := Assign(SetBase(Dotted(10, 1, 2)), sta1);
    var (apIfs1, _) := Assign(al1, [ap1]);
    var (staIfs2, al2) := Assign(SetBase(Dotted(10, 1, 3)), sta2);
    var (apIfs2, _) := Assign(al2, [ap2]);
    Setup(
      nWifi := n, nPackets := nPackets,
      nodes := seq(2 + 2 * n, i requires 0 <= i < 2 + 2 * n => Node(i, if i < 2 then AccessPoint else Station)),
      p2pNodes := p2pNodes, wifiStaNodes1 := sta1, wifiStaNodes2 := sta2,
      wifiApNode1 := ap1, wifiApNode2 := ap2,
      links := [PointToPoint(p2pNodes[0], p2pNodes[1], P2P_RATE, P2P_DELAY),
                Wifi(SSID1, sta1, ap1), Wifi(SSID2, sta2, ap2)],
      staDevices1 := WifiDevices(sta1, StaMac(SSID1, false)),
      apDevices1 := WifiDevices([ap1], ApMac(SSID1)),
      staDevices2 := WifiDevices(sta2, StaMac(SSID2, false)),
      apDevices2 := WifiDevices([ap2], ApMac(SSID2)),
      installs := [ap1] + [ap2] + sta1 + sta2,
      p2pInterfaces := p2pIfs,
      staInterfaces1 := staIfs1, apInterfaces1 := apIfs1,
      staInterfaces2 := staIfs2, apInterfaces2 := apIfs2,
      server := App(EchoServer(ECHO_PORT), sta1[last], SERVER_START, APP_STOP),
      client := App(EchoClient(Endpoint(staIfs1[last].address, ECHO_PORT), nPackets, INTERVAL, PACKET_SIZE),
                    sta2[last], CLIENT_START, APP_STOP),
      stop := SIM_STOP)
  }

  /** The whole script: refuse a station count outside 1..9 before creating
      any node, clamp `nPackets` to 20, then build. */
  function Configure(nWifi: uint32, nPackets: uint32): (r: Result<Setup, Exit>)
    ensures r.Failure? <==> nWifi == 0 || nWifi > Params.THIRD_MAX_WIFI
    ensures nWifi > Params.THIRD_MAX_WIFI ==> r == Failure(TOO_MANY_STATIONS)
    ensures r.Success? ==> r.value.nWifi == nWifi && r.value.nPackets <= Params.ECHO_MAX_PACKETS
    ensures r.Success? && nPackets <= Params.ECHO_MAX_PACKETS ==> r.value.nPackets == nPackets
    ensures r.Success? && nPackets > Params.ECHO_MAX_PACKETS ==> r.value.nPackets == Params.ECHO_MAX_PACKETS
  {
    match Validate(nWifi)
    case Failure(e) => Failure(e)
    case Success(n) => Success(Build(n, Params.ClampAtMost(nPackets, Params.ECHO_MAX_PACKETS)))
  }

  /** Two wifi networks of `nWifi` stations plus one access point each; the
      access points are exactly the two ends of the point-to-point link;
      `2 + 2 * nWifi` nodes, ids in creation order. */
  lemma TwoWifiNetworks(nWifi: uint32, nPackets: nat)
    requires 1 <= nWifi <= Params.THIRD_MAX_WIFI
    ensures var b := Build(nWifi, nPackets);
      && |b.wifiStaNodes1| == |b.wifiStaNodes2| == b.nWifi
      && b.links[1] == Wifi(SSID1, b.wifiStaNodes1, b.wifiApNode1)
      && b.links[2] == Wifi(SSID2, b.wifiStaNodes2, b.wifiApNode2)
      && Endpoints(b.links[0]) == [b.wifiApNode1, b.wifiApNode2] == b.p2pNodes
      && |b.nodes| == 2 + 2 * b.nWifi && IdsInCreationOrder(b.nodes)
      && (forall i :: 0 <= i < b.nWifi ==>
            b.nodes[b.wifiStaNodes1[i]].role == Station && b.nodes[b.wifiStaNodes2[i]].role == Station)
      && b.nodes[b.wifiApNode1].role == AccessPoint && b.nodes[b.wifiApNode2].role == AccessPoint
  {
  }

  /** The four installs reach every node exactly once. */
  lemma StackOnEveryNodeOnce(nWifi: uint32, nPackets: nat)
    requires 1 <= nWifi <= Params.THIRD_MAX_WIFI
    ensures var b := Build(nWifi, nPackets);
      InstalledExactlyOnce(b.installs, |b.nodes|)
  {
    var b := Build(nWifi, nPackets);
    var n := nWifi as nat;
    var s := b.installs;
    assert s == [0, 1] + b.wifiStaNodes1 + b.wifiStaNodes2;
    forall i | 0 <= i < |s|
      ensures s[i] == i
    {
      if 2 <= i < 2 + n {
        assert s[i] == b.wifiStaNodes1[i - 2];
      } else if 2 + n <= i {
        assert s[i] == b.wifiStaNodes2[i - 2 - n];
      }
    }
    InOrderInstallsEachOnce(s);
  }

  /** One wifi network's addressing: `Assign` of the stations after
      `SetBase(net)`, then of the access point. Stations keep their order
      and are numbered before the access point, no host twice. */
  lemma StationsThenAccessPoint(net: Ipv4Net, sta: seq<nat>, ap: nat)
    ensures var r := Assign(SetBase(net), sta);
      var a := Assign(r.1, [ap]).0;
      && AddressedIn(r.0 + a, net)
      && |a| == 1 && a[0].node == ap
      && |r.0| == |sta|
      && (forall i :: 0 <= i < |sta| ==> r.0[i].node == sta[i] && r.0[i].address.host < a[0].address.host)
  {
    var r := Assign(SetBase(net), sta);
    var all := r.0 + Assign(r.1, [ap]).0;
    assert forall i :: 0 <= i < |all| ==> all[i].address.host == 1 + i;
  }

  /** 10.1.1.0 for the point-to-point link, 10.1.2.0 for network 1 and
      10.1.3.0 for network 2; within each wifi network the stations are
      numbered first and the access point after them, no host twice. */
  lemma SubnetOrder(nWifi: uint32, nPackets: nat)
    requires 1 <= nWifi <= Params.THIRD_MAX_WIFI
    ensures var b := Build(nWifi, nPackets);
      && AddressedIn(b.p2pInterfaces, Dotted(10, 1, 1))
      && AddressedIn(b.staInterfaces1 + b.apInterfaces1, Dotted(10, 1, 2))
      && AddressedIn(b.staInterfaces2 + b.apInterfaces2, Dotted(10, 1, 3))
      && PairwiseDistinct([Dotted(10, 1, 1), Dotted(10, 1, 2), Dotted(10, 1, 3)])
      && |b.apInterfaces1| == 1 && b.apInterfaces1[0].node == b.wifiApNode1
      && |b.apInterfaces2| == 1 && b.apInterfaces2[0].node == b.wifiApNode2
      && |b.staInterfaces1| == |b.staInterfaces2| == b.nWifi
      && (forall i :: 0 <= i < b.nWifi ==>
            && b.staInterfaces1[i].node == b.wifiStaNodes1[i]
            && b.staInterfaces2[i].node == b.wifiStaNodes2[i]
            && b.staInterfaces1[i].address.host < b.apInterfaces1[0].address.host
            && b.staInterfaces2[i].address.host < b.apInterfaces2[0].address.host)
  {
    var n := nWifi as nat;
    var b := Build(nWifi, nPackets);
    var r1 := Assign(SetBase(Dotted(10, 1, 2)), Range(2, 2 + n));
    var r2 := Assign(SetBase(Dotted(10, 1, 3)), Range(2 + n, 2 + 2 * n));
    assert b.wifiApNode1 == 0 && b.wifiApNode2 == 1;
    assert b.staInterfaces1 == r1.0;
    assert b.apInterfaces1 == Assign(r1.1, [0]).0;
    assert b.staInterfaces2 == r2.0;
    assert b.apInterfaces2 == Assign(r2.1, [1]).0;
    StationsThenAccessPoint(Dotted(10, 1, 2), Range(2, 2 + n), 0);
    StationsThenAccessPoint(Dotted(10, 1, 3), Range(2 + n, 2 + 2 * n), 1);
  }

  /** The server runs on the last station of network 1; the client, on the
      last station of network 2, targets that station's own address on the
      server's port 9. */
  lemma EchoWiring(nWifi: uint32, nPackets: nat)
    requires 1 <= nWifi <= Params.THIRD_MAX_WIFI
    ensures var b := Build(nWifi, nPackets);
      var last := b.nWifi - 1;
      && b.server.node == b.wifiStaNodes1[last] && b.server.kind == EchoServer(ECHO_PORT)
      && b.client.node == b.wifiStaNodes2[last]
      && b.staInterfaces1[last].node == b.server.node
      && b.client.kind == EchoClient(Endpoint(b.staInterfaces1[last].address, b.server.kind.port),
                                     b.nPackets, INTERVAL, PACKET_SIZE)
  {
  }

  /** Server over [1, 20], client over [2, 20]: the server is up first, and
      the simulation's stop at 25 s comes after both applications stop. */
  lemma Schedule(nWifi: uint32, nPackets: nat)
    requires 1 <= nWifi <= Params.THIRD_MAX_WIFI
    ensures var b := Build(nWifi, nPackets);
      && b.server.start < b.client.start < b.client.stop
      && b.server.stop == b.client.stop <= b.stop
  {
  }

  /** Every station MAC and the access point MAC of a network carry that
      network's SSID, the stations without active probing; the two SSIDs
      differ. */
  lemma SsidsPerNetwork(nWifi: uint32, nPackets: nat)
    requires 1 <= nWifi <= Params.THIRD_MAX_WIFI
    ensures var b := Build(nWifi, nPackets);
      && (forall i :: 0 <= i < |b.staDevices1| ==> b.staDevices1[i].mac == StaMac(SSID1, false))
      && (forall i :: 0 <= i < |b.staDevices2| ==> b.staDevices2[i].mac == StaMac(SSID2, false))
      && b.apDevices1 == [WifiNetDevice(b.wifiApNode1, ApMac(SSID1))]
      && b.apDevices2 == [WifiNetDevice(b.wifiApNode2, ApMac(SSID2))]
      && SSID1 != SSID2
  {
    assert SSID1[8] != SSID2[8];
  }
}
