/** tcp-variants-comparison-1-b.cc: `nFlows` bulk TCP flows from one source
    through the same R1 – R2 bottleneck, each to its own destination behind
    R2, with the aggregate goodput reported at the end. */
module TcpVariants1b {
  import opened Wrappers
  import opened Net
  import Strings
  import Transport
  import ErrorInjector
  import Goodput

  const FAST_RATE: string := "100Mbps"
  const FAST_DELAY: string := "0.01ms"
  /** `port`: sink `i` listens on `port + i`. */
  const BASE_PORT: nat := 50000
  const MAX_BYTES: nat := 0
  const SEND_SIZE: nat := 400
  const SINK_START: real := 0.0

  /** Node ids, in creation order: `src`, `router1`, `router2`, then `dst`. */
  const SOURCE: nat := 0
  const R1: nat := 1
  const R2: nat := 2

  /** `dst.Get(i)`. */
  function Dst(i: nat): nat {
    3 + i
  }

  /** `sim_stop`: a fixed value in the script, not a command-line option. */
  const SIM_STOP: real := 20.0

  /** The script's settings. All but `simStop` are command-line values,
      already parsed, and `nFlows` is a `uint16_t`; `simStop` is the
      script's fixed `SIM_STOP`, kept as a parameter. */
  datatype Options = Options(
    transport: string, dataRate: string, delay: string, errorRate: real,
    nFlows: uint16, simStop: real)

  /** The nodes, the stack installs and the links, in creation order. */
  datatype Topology = Topology(nodes: seq<Node>, installs: seq<nat>, links: seq<Link>)

  /** The device containers of the first link, the bottleneck and each
      access link. */
  datatype Devices = Devices(devSrcR1: seq<Device>, devR1R2: seq<Device>, devR2DstVec: seq<seq<Device>>)

  /** The interface containers `Assign` returns for those links. */
  datatype Interfaces = Interfaces(
    ifSrcR1: seq<Interface>, ifR1R2: seq<Interface>, ifR2DstVec: seq<seq<Interface>>)

  /** The applications of the flow loop, flow `i` at index `i`. */
  datatype Flows = Flows(sinks: seq<App>, senders: seq<App>)

  /** Everything `main` has configured when it runs the simulator. */
  datatype Setup = Setup(
    protocol: string, topology: Topology, devices: Devices, interfaces: Interfaces, flows: Flows,
    stop: real)

  /** `port + i` is computed in 32 bits and narrowed to the 16-bit port of
      `InetSocketAddress`. */
  function SinkPort(i: nat): uint16 {
    (BASE_PORT + i) % 0x1_0000
  }

  /** The loop at lines 78-83: before each access link a fresh network, from
      which R2's device gets host 1 and the destination's device host 2. */
  function AssignAccessLinks(al: Allocator, r2: nat, dsts: seq<nat>): (r: seq<seq<Interface>>)
    ensures |r| == |dsts|
    ensures forall i :: 0 <= i < |dsts| ==>
              r[i] == [Interface(r2, Address(Ipv4Net(al.net.number + 1 + i), 1)),
                       Interface(dsts[i], Address(Ipv4Net(al.net.number + 1 + i), 2))]
    decreases |dsts|
  {
    if |dsts| == 0 then []
    else
      var (ifs, al') := Assign(NewNetwork(al), [r2, dsts[0]]);
      [ifs] + AssignAccessLinks(al', r2, dsts[1..])
  }

  /** `dst.Create(nFlows)`: the destinations, after the source and routers. */
  function DstNodes(n: nat): (r: seq<Node>)
    ensures |r| == n && forall i :: 0 <= i < n ==> r[i] == Node(Dst(i), Destination)
  {
    seq(n, i requires 0 <= i < n => Node(Dst(i), Destination))
  }

  /** The loop at lines 68-70: one access link from R2 to each destination. */
  function AccessLinks(n: nat): (r: seq<Link>)
    ensures |r| == n && forall i :: 0 <= i < n ==> r[i] == PointToPoint(R2, Dst(i), FAST_RATE, FAST_DELAY)
  {
    seq(n, i requires 0 <= i < n => PointToPoint(R2, Dst(i), FAST_RATE, FAST_DELAY))
  }

  /** Lines 43-58 and 63-70 for `n` flows: the nodes, `InstallAll`, and the
      links source–R1, R1–R2 (the bottleneck) and R2–destination `i`. */
  function MakeTopology(n: nat, dataRate: string, delay: string): Topology {
    Topology(
      nodes := [Node(SOURCE, Source), Node(R1, Router), Node(R2, Router)] + DstNodes(n),
      installs := Range(0, Dst(n)),
      links := [PointToPoint(SOURCE, R1, FAST_RATE, FAST_DELAY), PointToPoint(R1, R2, dataRate, delay)]
               + AccessLinks(n))
  }

  /** The access links' device containers, `devR2DstVec`. */
  function AccessDevices(n: nat): (r: seq<seq<Device>>)
    ensures |r| == n && forall i :: 0 <= i < n ==> r[i] == PointToPointDevices(R2, Dst(i))
  {
    seq(n, i requires 0 <= i < n => PointToPointDevices(R2, Dst(i)))
  }

  /** Lines 60-70: the devices, with the error model on the bottleneck's. */
  function MakeDevices(n: nat, errorRate: real): Devices {
    Devices(
      PointToPointDevices(SOURCE, R1),
      ErrorInjector.AttachReceiveErrorModelUnchecked(PointToPointDevices(R1, R2), RateErrorModel(errorRate)),
      AccessDevices(n))
  }

  /** Lines 72-83: 10.1.1.0 for the first link, the next network for the
      bottleneck, a fresh network for each access link. */
  function MakeInterfaces(n: nat): (ifs: Interfaces)
    ensures |ifs.ifR2DstVec| == n && forall i :: 0 <= i < n ==> |ifs.ifR2DstVec[i]| == 2
  {
    var (ifSrcR1, al1) := Assign(SetBase(Dotted(10, 1, 1)), [SOURCE, R1]);
    var (ifR1R2, al2) := Assign(NewNetwork(al1), [R1, R2]);
    Interfaces(ifSrcR1, ifR1R2, AssignAccessLinks(al2, R2, Range(Dst(0), Dst(n))))
  }

  /** `sinkAddr` of flow `i`: the destination's address on its access link
      (`GetAddress(1)`) and port `port + i`. */
  function SinkEndpoints(ifs: seq<seq<Interface>>): (r: seq<Endpoint>)
    requires forall i :: 0 <= i < |ifs| ==> |ifs[i]| == 2
    ensures |r| == |ifs| && forall i :: 0 <= i < |ifs| ==> r[i] == Endpoint(ifs[i][1].address, SinkPort(i))
  {
    seq(|ifs|, i requires 0 <= i < |ifs| => Endpoint(ifs[i][1].address, SinkPort(i)))
  }

  /** The sink of flow `i`, on destination `i`, listening on `eps[i]`. */
  function Sinks(eps: seq<Endpoint>, simStop: real): (r: seq<App>)
    ensures |r| == |eps|
    ensures forall i :: 0 <= i < |eps| ==> r[i] == App(PacketSink(eps[i]), Dst(i), SINK_START, simStop)
  {
    seq(|eps|, i requires 0 <= i < |eps| => App(PacketSink(eps[i]), Dst(i), SINK_START, simStop))
  }

  /** The sender of flow `i`, on the source, sending to `eps[i]`. */
  function Senders(eps: seq<Endpoint>, simStop: real): (r: seq<App>)
    ensures |r| == |eps|
    ensures forall i :: 0 <= i < |eps| ==>
              r[i] == App(BulkSend(eps[i], MAX_BYTES, SEND_SIZE), SOURCE, Goodput.SENDER_START, simStop)
  {
    seq(|eps|, i requires 0 <= i < |eps| =>
      App(BulkSend(eps[i], MAX_BYTES, SEND_SIZE), SOURCE, Goodput.SENDER_START, simStop))
  }

  /** Lines 86-105: a sink and a sender per flow. */
  function MakeFlows(ifs: Interfaces, simStop: real): Flows
    requires forall i :: 0 <= i < |ifs.ifR2DstVec| ==> |ifs.ifR2DstVec[i]| == 2
  {
    var eps := SinkEndpoints(ifs.ifR2DstVec);
    Flows(Sinks(eps, simStop), Senders(eps, simStop))
  }

  /** The whole configuration; the lemmas below state its properties part by
      part, on the functions it is assembled from. */
  function Build(o: Options): Setup {
    var n := o.nFlows as nat;
    Setup(
      protocol := Transport.Normalize(o.transport),
      topology := MakeTopology(n, o.dataRate, o.delay),
      devices := MakeDevices(n, o.errorRate),
      interfaces := MakeInterfaces(n),
      flows := MakeFlows(MakeInterfaces(n), o.simStop),
      stop := o.simStop)
  }

  /** The selected variant is always a qualified ns-3 type name. */
  lemma ProtocolIsQualified(o: Options)
    ensures Strings.Contains(Build(o).protocol, Transport.NS3_PREFIX)
    ensures Strings.Contains(o.transport, Transport.NS3_PREFIX) ==> Build(o).protocol == o.transport
  {
  }

  /** One source, two routers and `nFlows` destinations, ids in creation
      order, one stack on each; `2 + nFlows` links: source–R1, the
      bottleneck R1–R2, then link `2 + i` from R2 to destination `i`. */
  lemma DumbbellTopology(n: uint16, dataRate: string, delay: string)
    ensures var t := MakeTopology(n, dataRate, delay);
      && |t.nodes| == 3 + n && IdsInCreationOrder(t.nodes)
      && t.nodes[SOURCE].role == Source && t.nodes[R1].role == Router && t.nodes[R2].role == Router
      && (forall i :: 0 <= i < n ==> t.nodes[Dst(i)].role == Destination)
      && InstalledExactlyOnce(t.installs, |t.nodes|)
      && |t.links| == 2 + n
      && t.links[0] == PointToPoint(SOURCE, R1, FAST_RATE, FAST_DELAY)
      && t.links[1] == PointToPoint(R1, R2, dataRate, delay)
      && (forall i :: 0 <= i < n ==> Endpoints(t.links[2 + i]) == [R2, Dst(i)])
  {
    var t := MakeTopology(n, dataRate, delay);
    forall i | 0 <= i < |t.nodes|
      ensures t.nodes[i].id == i
    {
      if i >= 3 {
        assert t.nodes[i] == DstNodes(n)[i - 3];
      }
    }
    forall i | 0 <= i < n
      ensures Endpoints(t.links[2 + i]) == [R2, Dst(i)]
    {
      assert t.links[2 + i] == AccessLinks(n)[i];
    }
    RangeInstallsEachOnce(Dst(n));
  }

  /** The R1–R2 link is the only one between the source side {source, R1}
      and the destination side {R2, destinations}, and every sender sits on
      the source: all flows contend for the one bottleneck. */
  lemma FlowsShareBottleneck(n: uint16, dataRate: string, delay: string, simStop: real)
    ensures var t := MakeTopology(n, dataRate, delay);
      forall k :: 0 <= k < |t.links| ==>
        var e := Endpoints(t.links[k]);
        (e[0] <= R1 < e[1] || e[1] <= R1 < e[0]) <==> k == 1
    ensures var f := MakeFlows(MakeInterfaces(n), simStop);
      forall i :: 0 <= i < |f.senders| ==> f.senders[i].node == SOURCE
  {
    var t := MakeTopology(n, dataRate, delay);
    forall k | 2 <= k < |t.links|
      ensures Endpoints(t.links[k]) == [R2, Dst(k - 2)]
    {
      assert t.links[k] == AccessLinks(n)[k - 2];
    }
  }

  /** Both bottleneck devices carry the error model; no device of an access
      link does. */
  lemma ErrorModelOnBottleneckOnly(n: uint16, errorRate: real)
    ensures var d := MakeDevices(n, errorRate);
      && |d.devR1R2| == 2 && d.devR1R2[0].node == R1 && d.devR1R2[1].node == R2
      && (forall i :: 0 <= i < 2 ==> d.devR1R2[i].receiveErrorModel == Some(RateErrorModel(errorRate)))
      && (forall i :: 0 <= i < |d.devSrcR1| ==> d.devSrcR1[i].receiveErrorModel == None)
      && |d.devR2DstVec| == n
      && (forall i, j :: 0 <= i < |d.devR2DstVec| && 0 <= j < |d.devR2DstVec[i]| ==>
            d.devR2DstVec[i][j].receiveErrorModel == None)
  {
  }

  /** The networks of the links, in addressing order. */
  function Subnets(ifs: Interfaces): (nets: seq<Ipv4Net>)
    requires |ifs.ifSrcR1| > 0 && |ifs.ifR1R2| > 0
    requires forall i :: 0 <= i < |ifs.ifR2DstVec| ==> |ifs.ifR2DstVec[i]| > 0
    ensures |nets| == 2 + |ifs.ifR2DstVec|
    ensures nets[0] == ifs.ifSrcR1[0].address.net && nets[1] == ifs.ifR1R2[0].address.net
    ensures forall i :: 0 <= i < |ifs.ifR2DstVec| ==> nets[2 + i] == ifs.ifR2DstVec[i][0].address.net
  {
    [ifs.ifSrcR1[0].address.net, ifs.ifR1R2[0].address.net]
      + seq(|ifs.ifR2DstVec|, i requires 0 <= i < |ifs.ifR2DstVec| => ifs.ifR2DstVec[i][0].address.net)
  }

  /** The addresses `Assign` hands out: 10.1.1.1 and .2 on the first link,
      10.1.2.1 and .2 on the bottleneck, and on access link `i` host 1 for R2
      and host 2 for destination `i` in the network `i + 2` after 10.1.1.0. */
  lemma InterfaceLayout(n: uint16)
    ensures var ifs := MakeInterfaces(n);
      var base := Dotted(10, 1, 1).number;
      && ifs.ifSrcR1 == [Interface(SOURCE, Address(Ipv4Net(base), 1)), Interface(R1, Address(Ipv4Net(base), 2))]
      && ifs.ifR1R2 == [Interface(R1, Address(Ipv4Net(base + 1), 1)), Interface(R2, Address(Ipv4Net(base + 1), 2))]
      && |ifs.ifR2DstVec| == n
      && forall i :: 0 <= i < |ifs.ifR2DstVec| ==>
           ifs.ifR2DstVec[i] == [Interface(R2, Address(Ipv4Net(base + 2 + i), 1)),
                                 Interface(Dst(i), Address(Ipv4Net(base + 2 + i), 2))]
  {
  }

  /** One /24 per link, in link order, counting up from 10.1.1.0: the
      `2 + nFlows` networks are pairwise distinct. */
  lemma SubnetsOnePerLink(n: uint16, dataRate: string, delay: string)
    ensures var ifs := MakeInterfaces(n);
      |ifs.ifSrcR1| == 2 && |ifs.ifR1R2| == 2
    ensures var nets := Subnets(MakeInterfaces(n));
      && |nets| == |MakeTopology(n, dataRate, delay).links|
      && (forall k :: 0 <= k < |nets| ==> nets[k].number == Dotted(10, 1, 1).number + k)
      && StrictlyIncreasing(nets) && PairwiseDistinct(nets)
  {
    var ifs := MakeInterfaces(n);
    var base := Dotted(10, 1, 1).number;
    InterfaceLayout(n);
    var nets := Subnets(ifs);
    forall k | 0 <= k < |nets|
      ensures nets[k].number == base + k
    {
      if k >= 2 {
        assert nets[k] == ifs.ifR2DstVec[k - 2][0].address.net;
      }
    }
    IncreasingNetsAreDistinct(nets);
  }

  /** The first link's and the bottleneck's interfaces go to their own
      endpoints, in device order, on distinct hosts of their own networks. */
  lemma InterfacesOnOwnLinks(n: uint16, dataRate: string, delay: string)
    ensures var ifs := MakeInterfaces(n);
      |ifs.ifSrcR1| == 2 && |ifs.ifR1R2| == 2
    ensures var ifs := MakeInterfaces(n);
      var links := MakeTopology(n, dataRate, delay).links;
      var nets := Subnets(ifs);
      && |links| == |nets|
      && AddressedIn(ifs.ifSrcR1, nets[0]) && AddressedIn(ifs.ifR1R2, nets[1])
      && [ifs.ifSrcR1[0].node, ifs.ifSrcR1[1].node] == Endpoints(links[0])
      && [ifs.ifR1R2[0].node, ifs.ifR1R2[1].node] == Endpoints(links[1])
  {
    var base := Dotted(10, 1, 1).number;
    InterfaceLayout(n);
    PairAddressedIn(SOURCE, R1, Ipv4Net(base), 1, 2);
    PairAddressedIn(R1, R2, Ipv4Net(base + 1), 1, 2);
  }

  /** Access link `i`: its interfaces are R2's and destination `i`'s, the
      link's endpoints in device order, on distinct hosts of the link's own
      network. */
  lemma AccessLinkInterfaces(n: uint16, dataRate: string, delay: string, i: nat)
    requires i < n
    ensures var ifs := MakeInterfaces(n);
      var links := MakeTopology(n, dataRate, delay).links;
      && |links| == 2 + n
      && AddressedIn(ifs.ifR2DstVec[i], Subnets(ifs)[2 + i])
      && [ifs.ifR2DstVec[i][0].node, ifs.ifR2DstVec[i][1].node] == Endpoints(links[2 + i])
  {
    var ifs := MakeInterfaces(n);
    var links := MakeTopology(n, dataRate, delay).links;
    var base := Dotted(10, 1, 1).number;
    InterfaceLayout(n);
    PairAddressedIn(R2, Dst(i), Ipv4Net(base + 2 + i), 1, 2);
    assert links[2 + i] == AccessLinks(n)[i];
  }

  /** Sink `i` runs on destination `i` and listens on that destination's own
      address on access link `i`, port `SinkPort(i)`; sender `i` runs on the
      source and targets exactly that endpoint. Every sink opens at 0.0,
      before its sender starts at 1.0, and both close at `sim_stop`. */
  lemma FlowWiring(n: uint16, simStop: real)
    ensures var ifs := MakeInterfaces(n);
      var f := MakeFlows(ifs, simStop);
      && |f.sinks| == |f.senders| == |ifs.ifR2DstVec| == n
      && forall i :: 0 <= i < |f.sinks| ==>
           && f.sinks[i].node == Dst(i) == ifs.ifR2DstVec[i][1].node
           && f.sinks[i].kind == PacketSink(Endpoint(ifs.ifR2DstVec[i][1].address, SinkPort(i)))
           && f.senders[i].node == SOURCE
           && f.senders[i].kind.BulkSend? && f.senders[i].kind.remote == f.sinks[i].kind.local
           && f.senders[i].kind.maxBytes == MAX_BYTES && f.senders[i].kind.sendSize == SEND_SIZE
           && f.sinks[i].start < f.senders[i].start == Goodput.SENDER_START
           && f.sinks[i].stop == f.senders[i].stop == simStop
  {
    InterfaceLayout(n);
  }

  /** The port arithmetic: `50000 + i` until it passes 65535, then it wraps
      to `i - 15536`. */
  lemma SinkPortValue(i: nat)
    requires i < 0x1_0000
    ensures SinkPort(i) == if i < 15536 then BASE_PORT + i else i - 15536
  {
  }

  /** Sink ports are pairwise distinct: at most 65535 flows fit one 16-bit
      port space even after the wrap. */
  lemma SinkPortsDistinct(n: uint16, simStop: real)
    ensures var f := MakeFlows(MakeInterfaces(n), simStop);
      forall i, j :: 0 <= i < j < |f.sinks| ==> f.sinks[i].kind.local.port != f.sinks[j].kind.local.port
  {
    var ifs := MakeInterfaces(n);
    var f := MakeFlows(ifs, simStop);
    var eps := SinkEndpoints(ifs.ifR2DstVec);
    assert forall i :: 0 <= i < |f.sinks| ==> f.sinks[i].kind.local.port == eps[i].port == SinkPort(i);
    forall i, j | 0 <= i < j < |f.sinks|
      ensures SinkPort(i) != SinkPort(j)
    {
      SinkPortValue(i);
      SinkPortValue(j);
    }
  }

  // -------------------------------------------------------------- goodput

  /** The report of lines 110-123, given the sink counters after the run:
      the aggregate goodput over one counter per installed sink. */
  function Report(f: Flows, simStop: real, rx: seq<nat>): (total: real)
    requires |rx| == |f.sinks| && simStop != Goodput.SENDER_START
    ensures total * (simStop - Goodput.SENDER_START) == Goodput.Sum(rx) as real * 8.0
    ensures simStop > Goodput.SENDER_START ==> total >= 0.0
  {
    Goodput.SumGoodputForms(rx, simStop);
    Goodput.SumGoodput(rx, simStop)
  }

  /** The flows `Build` installs have one sink per flow, so `nFlows`
      counters are exactly what the report takes, and it reports their
      total bits over the active time. */
  lemma ReportCoversEveryFlow(n: uint16, simStop: real, rx: seq<nat>)
    requires |rx| == n as nat && simStop != Goodput.SENDER_START
    ensures |MakeFlows(MakeInterfaces(n), simStop).sinks| == |rx|
    ensures Report(MakeFlows(MakeInterfaces(n), simStop), simStop, rx)
            == Goodput.Sum(rx) as real * 8.0 / (simStop - Goodput.SENDER_START)
  {
    Goodput.SumGoodputForms(rx, simStop);
  }
}
