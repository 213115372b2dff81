/** The entities the five scripts build: nodes, links and their devices,
    /24 networks and the interfaces an address helper hands out, the stack
    installation order, and the applications with their schedules. */
module Net {
  import opened Wrappers
  import Decimal

  type uint16 = x: nat | x < 0x1_0000
  type uint32 = x: nat | x < 0x1_0000_0000

  // ---------------------------------------------------------------- nodes

  datatype Role = Source | Router | Destination | Host | AccessPoint | Station

  /** A node; its id is its position in the global node list, since ns-3
      numbers nodes in creation order. */
  datatype Node = Node(id: nat, role: Role)

  predicate IdsInCreationOrder(nodes: seq<Node>) {
    forall i :: 0 <= i < |nodes| ==> nodes[i].id == i
  }

  /** The ids `lo, lo + 1, ..., hi - 1`, as a `NodeContainer::Create` of
      `hi - lo` nodes yields when `lo` nodes exist already. */
  function Range(lo: nat, hi: nat): (r: seq<nat>)
    requires lo <= hi
    ensures |r| == hi - lo
    ensures forall i :: 0 <= i < |r| ==> r[i] == lo + i
    decreases hi - lo
  {
    if lo == hi then [] else [lo] + Range(lo + 1, hi)
  }

  /** The stack went onto every node below `n` exactly once and onto nothing
      else. */
  predicate InstalledExactlyOnce(installs: seq<nat>, n: nat) {
    && (forall i :: 0 <= i < |installs| ==> installs[i] < n)
    && (forall v: nat | v < n :: v in installs)
    && (forall i, j :: 0 <= i < j < |installs| ==> installs[i] != installs[j])
  }

  /** Installing on the node ids in creation order covers each node once. */
  lemma InOrderInstallsEachOnce(installs: seq<nat>)
    requires forall i :: 0 <= i < |installs| ==> installs[i] == i
    ensures InstalledExactlyOnce(installs, |installs|)
  {
    forall v: nat | v < |installs|
      ensures v in installs
    {
      assert installs[v] == v;
    }
  }

  lemma RangeInstallsEachOnce(n: nat)
    ensures InstalledExactlyOnce(Range(0, n), n)
  {
    InOrderInstallsEachOnce(Range(0, n));
  }

  // --------------------------------------------------- links and devices

  /** A channel as the scripts create it; the endpoints are listed in the
      order the helper creates their devices. */
  datatype Link =
    | PointToPoint(a: nat, b: nat, dataRate: string, delay: string)
    | Csma(members: seq<nat>, dataRate: string, delay: string)
    | Wifi(ssid: string, stations: seq<nat>, ap: nat)

  function Endpoints(l: Link): seq<nat> {
    match l
    case PointToPoint(a, b, _, _) => [a, b]
    case Csma(members, _, _) => members
    case Wifi(_, stations, ap) => stations + [ap]
  }

  /** A `RateErrorModel` with its `ErrorRate` attribute set to `errorRate`;
      its other attributes keep ns-3's defaults. */
  datatype ErrorModel = RateErrorModel(errorRate: real)

  /** The tag that replaces the runtime `DynamicCast<PointToPointNetDevice>`. */
  datatype DeviceKind = PointToPointDevice | CsmaDevice | WifiDevice

  /** A network device on one node, with its receive error model if any. */
  datatype Device = Device(node: nat, kind: DeviceKind, receiveErrorModel: Option<ErrorModel>)

  /** `PointToPointHelper::Install(a, b)`: one device on each end, `a`'s first. */
  function PointToPointDevices(a: nat, b: nat): (devs: seq<Device>)
    ensures |devs| == 2 && devs[0].node == a && devs[1].node == b
    ensures forall i :: 0 <= i < 2 ==> devs[i].kind == PointToPointDevice && devs[i].receiveErrorModel == None
  {
    [Device(a, PointToPointDevice, None), Device(b, PointToPointDevice, None)]
  }

  // ------------------------------------------------------------ addresses

  /** A /24 IPv4 network (mask 255.255.255.0), named by its network number:
      the 32-bit network address without its 8 host bits. */
  datatype Ipv4Net = Ipv4Net(number: nat)

  /** Appending an octet `r` to `q` can be undone by dividing by 256. */
  lemma OctetSplit(q: nat, r: nat)
    requires r < 256
    ensures (q * 256 + r) / 256 == q && (q * 256 + r) % 256 == r
  {
  }

  /** The network a.b.c.0/24. */
  function Dotted(a: nat, b: nat, c: nat): (n: Ipv4Net)
    requires a < 256 && b < 256 && c < 256
    ensures n.number / 256 / 256 == a && n.number / 256 % 256 == b && n.number % 256 == c
  {
    OctetSplit(a * 256 + b, c);
    OctetSplit(a, b);
    Ipv4Net((a * 256 + b) * 256 + c)
  }

  /** The third octet of a network's address. */
  function ThirdOctet(n: Ipv4Net): nat {
    n.number % 256
  }

  /** The dotted-quad text "a.b.c.0" of a network inside the IPv4 space. */
  function Text(n: Ipv4Net): string
    requires n.number < 0x100_0000
  {
    Decimal.Show(n.number / 256 / 256) + "." + Decimal.Show(n.number / 256 % 256) + "."
      + Decimal.Show(n.number % 256) + ".0"
  }

  /** A host address: a network and the host number within it. */
  datatype Address = Address(net: Ipv4Net, host: nat)

  /** The address one node received on one of its devices. */
  datatype Interface = Interface(node: nat, address: Address)

  /** The part of `Ipv4AddressHelper` the scripts rely on: the current
      network and the next host number to hand out in it. */
  datatype Allocator = Allocator(net: Ipv4Net, nextHost: nat)

  /** `SetBase(net, "255.255.255.0")`: hosts are numbered again from 1.
      Every script passes that same /24 mask, so it is not a parameter. */
  function SetBase(net: Ipv4Net): (al: Allocator)
    ensures al.net == net && al.nextHost == 1
  {
    Allocator(net, 1)
  }

  /** `NewNetwork()`: the next /24, hosts numbered again from 1. */
  function NewNetwork(al: Allocator): (al': Allocator)
    ensures al'.net.number == al.net.number + 1 && al'.nextHost == 1
  {
    Allocator(Ipv4Net(al.net.number + 1), 1)
  }

  /** `k` calls of `NewNetwork()`. */
  function NewNetworks(al: Allocator, k: nat): Allocator
    decreases k
  {
    if k == 0 then al else NewNetwork(NewNetworks(al, k - 1))
  }

  /** After `SetBase(base)` and `k` calls of `NewNetwork()`, the helper is in
      the network `k` after `base` with its host numbering restarted. */
  lemma {:induction false} NewNetworksAfterSetBase(base: Ipv4Net, k: nat)
    ensures NewNetworks(SetBase(base), k) == Allocator(Ipv4Net(base.number + k), 1)
    decreases k
  {
    if k > 0 {
      NewNetworksAfterSetBase(base, k - 1);
    }
  }

  /** `Assign` of `m` devices after `SetBase(base)` and `k` calls of
      `NewNetwork()`: the devices get hosts 1..m of the network `k` after
      `base`, in device order, and the next host is `m + 1`. */
  lemma AssignAfterNewNetworks(base: Ipv4Net, k: nat, nodes: seq<nat>)
    ensures var r := Assign(NewNetworks(SetBase(base), k), nodes);
      && (forall i :: 0 <= i < |nodes| ==>
            r.0[i] == Interface(nodes[i], Address(Ipv4Net(base.number + k), 1 + i)))
      && r.1 == Allocator(Ipv4Net(base.number + k), 1 + |nodes|)
  {
    NewNetworksAfterSetBase(base, k);
  }

  /** `Assign(devices)`: one address per device, in device order, from the
      current network, with consecutive host numbers. */
  function Assign(al: Allocator, nodes: seq<nat>): (r: (seq<Interface>, Allocator))
    ensures |r.0| == |nodes|
    ensures forall i :: 0 <= i < |nodes| ==> r.0[i] == Interface(nodes[i], Address(al.net, al.nextHost + i))
    ensures r.1 == Allocator(al.net, al.nextHost + |nodes|)
    decreases |nodes|
  {
    if |nodes| == 0 then ([], al)
    else
      var (rest, al') := Assign(Allocator(al.net, al.nextHost + 1), nodes[1..]);
      ([Interface(nodes[0], Address(al.net, al.nextHost))] + rest, al')
  }

  predicate PairwiseDistinct(nets: seq<Ipv4Net>) {
    forall i, j :: 0 <= i < j < |nets| ==> nets[i] != nets[j]
  }

  predicate StrictlyIncreasing(nets: seq<Ipv4Net>) {
    forall i, j :: 0 <= i < j < |nets| ==> nets[i].number < nets[j].number
  }

  lemma IncreasingNetsAreDistinct(nets: seq<Ipv4Net>)
    requires StrictlyIncreasing(nets)
    ensures PairwiseDistinct(nets)
  {
  }

  /** The interfaces of one `Assign` call: every interface is in `net`, and
      no host number is handed out twice. */
  predicate AddressedIn(ifs: seq<Interface>, net: Ipv4Net) {
    && (forall i :: 0 <= i < |ifs| ==> ifs[i].address.net == net)
    && (forall i, j :: 0 <= i < j < |ifs| ==> ifs[i].address != ifs[j].address)
  }

  /** The two interfaces of a point-to-point link, on distinct hosts of one
      network. */
  lemma PairAddressedIn(a: nat, b: nat, net: Ipv4Net, h1: nat, h2: nat)
    requires h1 != h2
    ensures AddressedIn([Interface(a, Address(net, h1)), Interface(b, Address(net, h2))], net)
  {
  }

  lemma AssignAddressesDistinctHosts(al: Allocator, nodes: seq<nat>)
    ensures AddressedIn(Assign(al, nodes).0, al.net)
  {
  }

  // --------------------------------------------------------- applications

  datatype Endpoint = Endpoint(address: Address, port: nat)

  datatype AppKind =
    | PacketSink(local: Endpoint)
    | BulkSend(remote: Endpoint, maxBytes: nat, sendSize: nat)
    | EchoServer(port: nat)
    | EchoClient(remote: Endpoint, maxPackets: nat, interval: real, packetSize: nat)

  /** An application installed on `node`, active from `start` to `stop`
      (seconds of simulated time). */
  datatype App = App(kind: AppKind, node: nat, start: real, stop: real)
}
