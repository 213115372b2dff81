/** tcp-variants-comparison-1-a.cc: one bulk TCP flow across a three-link
    chain source – R1 – R2 – destination whose middle link is the lossy
    bottleneck, with the source's congestion window traced to a file. */
module TcpVariants1a {
  import opened Wrappers
  import opened Net
  import Strings
  import Transport
  import CwndTrace
  import ContextPath
  import Decimal
  import ErrorInjector
  import Goodput

  const FAST_RATE: string := "100Mbps"
  const FAST_DELAY: string := "0.01ms"
  const SINK_PORT: nat := 50000
  /** `data_mbytes = 0`: the sender has no byte limit. */
  const MAX_BYTES: nat := 0
  /** `mtu_bytes`: the sender's segment size. */
  const SEND_SIZE: nat := 400
  const SINK_START: real := 0.0
  const TRACE_START: real := 1.01

  /** Node ids, in creation order (`nodes.Create(4)`). */
  const SOURCE: nat := 0
  const R1: nat := 1
  const R2: nat := 2
  const DST: nat := 3

  /** `sim_stop`: a fixed value in the script, not a command-line option. */
  const SIM_STOP: real := 20.0

  /** The script's settings. All but `simStop` are command-line values,
      already parsed; `simStop` is the script's fixed `SIM_STOP`, kept as a
      parameter. */
  datatype Options = Options(
    transport: string, dataRate: string, delay: string, errorRate: real,
    prefix: string, tracing: bool, simStop: real)

  /** The `TraceCwnd` call scheduled when tracing is on. */
  datatype TraceStart = TraceStart(at: real, file: string, node: nat)

  /** Everything `main` has configured when it stops the simulator. */
  datatype Setup = Setup(
    protocol: string,
    nodes: seq<Node>,
    installs: seq<nat>,
    links: seq<Link>,
    devSrcR1: seq<Device>, devR1R2: seq<Device>, devR2Dst: seq<Device>,
    ifSrcR1: seq<Interface>, ifR1R2: seq<Interface>, ifR2Dst: seq<Interface>,
    sink: App, sender: App,
    tracer: CwndTrace.Tracer,
    traceStart: Option<TraceStart>,
    stop: real)

  function Build(o: Options): Setup {
    var em := RateErrorModel(o.errorRate);
    var (ifSrcR1, al1) := Assign(SetBase(Dotted(10, 1, 1)), [SOURCE, R1]);
    var (ifR1R2, al2) := Assign(NewNetwork(al1), [R1, R2]);
    var (ifR2Dst, _) := Assign(NewNetwork(al2), [R2, DST]);
    var sinkAddress := Endpoint(ifR2Dst[1].address, SINK_PORT);
    Setup(
      protocol := Transport.Normalize(o.transport),
      nodes := [Node(SOURCE, Source), Node(R1, Router), Node(R2, Router), Node(DST, Destination)],
      installs := Range(0, 4),
      links := [PointToPoint(SOURCE, R1, FAST_RATE, FAST_DELAY),
                PointToPoint(R1, R2, o.dataRate, o.delay),
                PointToPoint(R2, DST, FAST_RATE, FAST_DELAY)],
      devSrcR1 := PointToPointDevices(SOURCE, R1),
      devR1R2 := ErrorInjector.AttachReceiveErrorModel(PointToPointDevices(R1, R2), em),
      devR2Dst := PointToPointDevices(R2, DST),
      ifSrcR1 := ifSrcR1, ifR1R2 := ifR1R2, ifR2Dst := ifR2Dst,
      sink := App(PacketSink(sinkAddress), DST, SINK_START, o.simStop),
      sender := App(BulkSend(sinkAddress, MAX_BYTES, SEND_SIZE), SOURCE, Goodput.SENDER_START, o.simStop),
      tracer := if o.tracing then CwndTrace.Arm(CwndTrace.Fresh, SOURCE) else CwndTrace.Fresh,
      traceStart := if o.tracing then Some(TraceStart(TRACE_START, o.prefix + "-flow0-cwnd.data", SOURCE))
                    else None,
      stop := o.simStop)
  }

  /** The selected variant is always a qualified ns-3 type name. */
  lemma ProtocolIsQualified(o: Options)
    ensures Strings.Contains(Build(o).protocol, Transport.NS3_PREFIX)
    ensures Strings.Contains(o.transport, Transport.NS3_PREFIX) ==> Build(o).protocol == o.transport
  {
  }

  /** Four nodes, ids in creation order, one stack on each (`InstallAll`),
      and three links in a chain whose middle one carries the bottleneck
      rate and delay. */
  lemma ChainTopology(o: Options)
    ensures var b := Build(o);
      && |b.nodes| == 4 && IdsInCreationOrder(b.nodes)
      && InstalledExactlyOnce(b.installs, |b.nodes|)
      && |b.links| == 3
      && (forall i :: 0 <= i < 3 ==> Endpoints(b.links[i]) == [i, i + 1])
      && b.links[1] == PointToPoint(R1, R2, o.dataRate, o.delay)
  {
    RangeInstallsEachOnce(4);
  }

  /** Both bottleneck devices receive the error model with the configured
      rate; the devices of the two access links have none. */
  lemma ErrorModelOnBottleneckOnly(o: Options)
    ensures var b := Build(o);
      && |b.devR1R2| == 2 && b.devR1R2[0].node == R1 && b.devR1R2[1].node == R2
      && (forall i :: 0 <= i < 2 ==> b.devR1R2[i].receiveErrorModel == Some(RateErrorModel(o.errorRate)))
      && (forall i :: 0 <= i < |b.devSrcR1| ==> b.devSrcR1[i].receiveErrorModel == None)
      && (forall i :: 0 <= i < |b.devR2Dst| ==> b.devR2Dst[i].receiveErrorModel == None)
  {
  }

  /** One /24 per link in creation order, 10.1.1.0, 10.1.2.0 and 10.1.3.0,
      each handing its addresses to that link's endpoints in device order. */
  lemma SubnetsInLinkOrder(o: Options)
    ensures var b := Build(o);
      var nets := [b.ifSrcR1[0].address.net, b.ifR1R2[0].address.net, b.ifR2Dst[0].address.net];
      && nets == [Dotted(10, 1, 1), Dotted(10, 1, 2), Dotted(10, 1, 3)]
      && StrictlyIncreasing(nets) && PairwiseDistinct(nets)
      && AddressedIn(b.ifSrcR1, nets[0]) && AddressedIn(b.ifR1R2, nets[1]) && AddressedIn(b.ifR2Dst, nets[2])
      && [b.ifSrcR1[0].node, b.ifSrcR1[1].node] == Endpoints(b.links[0])
      && [b.ifR1R2[0].node, b.ifR1R2[1].node] == Endpoints(b.links[1])
      && [b.ifR2Dst[0].node, b.ifR2Dst[1].node] == Endpoints(b.links[2])
  {
  }

  /** The sink listens on the destination's own address on the last link,
      port 50000; the sender on the source targets exactly that endpoint.
      The sink opens before the sender starts, both close at `sim_stop`, and
      the trace attaches after the sender has started. */
  lemma FlowWiring(o: Options)
    ensures var b := Build(o);
      && b.sink.node == DST && b.sink.kind.PacketSink?
      && b.sink.kind.local == Endpoint(b.ifR2Dst[1].address, SINK_PORT)
      && b.ifR2Dst[1].node == b.sink.node
      && b.sender.node == SOURCE && b.sender.kind.BulkSend?
      && b.sender.kind.remote == b.sink.kind.local
      && b.sender.kind.maxBytes == MAX_BYTES && b.sender.kind.sendSize == SEND_SIZE
      && b.sink.start < b.sender.start == Goodput.SENDER_START
      && b.sink.stop == b.sender.stop == b.stop == o.simStop
      && (b.traceStart.Some? ==> b.sender.start < b.traceStart.value.at)
  {
  }

  // ------------------------------------------------------------- tracing

  /** The context ns-3 passes for socket `socket` of the path connected in
      `TraceCwnd`. */
  function CwndContext(socket: nat): string {
    ContextPath.NodeListPath(SOURCE, "$ns3::TcpL4Protocol/SocketList/" + Decimal.Show(socket) + "/CongestionWindow")
  }

  /** Every context of the connected path names the source node, whichever
      socket changed its window. */
  lemma CwndContextNamesSource(socket: nat)
    ensures ContextPath.Parsable(CwndContext(socket))
    ensures ContextPath.NodeIdFromContext(CwndContext(socket)) == SOURCE
  {
    ContextPath.NodeListPathRoundTrip(SOURCE, "$ns3::TcpL4Protocol/SocketList/" + Decimal.Show(socket) + "/CongestionWindow");
  }

  /** A window change of one of the source's sockets. */
  datatype CwndChange = CwndChange(socket: nat, now: real, oldval: nat, newval: nat)

  function AsNotifications(cs: seq<CwndChange>): (evs: seq<CwndTrace.Notification>)
    ensures |evs| == |cs|
    ensures forall i :: 0 <= i < |cs| ==>
              evs[i].context == CwndContext(cs[i].socket) && evs[i].now == cs[i].now
  {
    seq(|cs|, i requires 0 <= i < |cs| =>
      CwndTrace.Notification(CwndContext(cs[i].socket), cs[i].now, cs[i].oldval, cs[i].newval))
  }

  /** The tracer as the program leaves it: no `Simulator::Run` is ever
      called, so the `TraceCwnd` scheduled at 1.01 s never runs. No stream
      is opened, no window change is delivered, and the flag raised in
      `main` stays pending. */
  function TracerAsWritten(b: Setup): CwndTrace.Tracer {
    b.tracer
  }

  /** As written, no trace file is ever written: the source has no stream,
      and its first-record flag is pending exactly when tracing was asked
      for. */
  lemma TraceWithoutRunIsAbsent(o: Options)
    ensures var t := TracerAsWritten(Build(o));
      && SOURCE !in t.streams && |t.streams| == 0
      && (CwndTrace.AwaitsFirst(t, SOURCE) <==> o.tracing)
  {
  }

  /** The trace of the intended program, which runs the simulation: with
      tracing on, the file `TraceCwnd` opens collects the changes of every
      socket of the source in one stream: one record per change plus the
      leading synthetic record at time 0.0, in time order, provided the
      changes arrive in time order. */
  lemma SourceTraceStartsAtZero(o: Options, cs: seq<CwndChange>)
    requires o.tracing
    requires forall i :: 0 <= i < |cs| ==> 0.0 <= cs[i].now
    requires forall i, j :: 0 <= i < j < |cs| ==> cs[i].now <= cs[j].now
    ensures var b := Build(o);
      var t := CwndTrace.Open(b.tracer, b.traceStart.value.node);
      && CwndTrace.AllDeliverable(t, AsNotifications(cs))
      && var s := CwndTrace.Replay(t, AsNotifications(cs)).streams[SOURCE];
      && |s| == (if |cs| == 0 then 0 else |cs| + 1)
      && CwndTrace.TimesNondecreasing(s)
      && (|s| > 0 ==> s[0].time == 0.0)
  {
    var evs := AsNotifications(cs);
    var t := CwndTrace.Open(CwndTrace.Arm(CwndTrace.Fresh, SOURCE), SOURCE);
    forall i | 0 <= i < |evs|
      ensures ContextPath.Parsable(evs[i].context)
      ensures ContextPath.NodeIdFromContext(evs[i].context) == SOURCE
    {
      CwndContextNamesSource(cs[i].socket);
    }
    CwndTrace.CountForAllNamed(evs, SOURCE);
    CwndTrace.ArmedTraceStartsAtZero(CwndTrace.Fresh, SOURCE, evs);
  }

  // -------------------------------------------------------------- goodput

  /** The sink counters as the report loop finds them: no `Simulator::Run`
      comes between `Simulator::Stop` and the loop, so no event has run and
      the one sink still holds its initial count of 0 bytes. */
  function CountersWithoutRun(b: Setup): (rx: seq<nat>)
    ensures |rx| == 1
  {
    [0]
  }

  /** The report as written: goodput of the counters read without a run. */
  function ReportAsWritten(b: Setup): seq<real>
    requires b.stop != Goodput.SENDER_START
  {
    Goodput.PerFlowGoodput(CountersWithoutRun(b), b.stop)
  }

  /** As written, every flow reports 0 bps, whatever the configuration. */
  lemma ReportWithoutRunIsZero(o: Options)
    requires o.simStop != Goodput.SENDER_START
    ensures var r := ReportAsWritten(Build(o));
      |r| == 1 && r[0] == 0.0
  {
    Goodput.ZeroBytesZeroGoodput(o.simStop);
  }

  /** The report as intended: goodput of the counters after running to
      `sim_stop`, one per sink. */
  function Report(b: Setup, rx: seq<nat>): (gs: seq<real>)
    requires |rx| == 1 && b.stop != Goodput.SENDER_START
    ensures |gs| == 1
    ensures gs[0] * (b.stop - Goodput.SENDER_START) == rx[0] as real * 8.0
  {
    Goodput.PerFlowGoodput(rx, b.stop)
  }

  /** The intended report tells delivery apart from silence: it is positive
      exactly when the sink received bytes. */
  lemma ReportCountsDeliveredBytes(o: Options, rx: seq<nat>)
    requires |rx| == 1 && o.simStop > Goodput.SENDER_START
    ensures Report(Build(o), rx)[0] > 0.0 <==> rx[0] > 0
  {
    var g := Report(Build(o), rx)[0];
    var d := o.simStop - Goodput.SENDER_START;
    assert g * d == rx[0] as real * 8.0;
    if rx[0] > 0 {
      assert g > 0.0;
    } else {
      assert g * d == 0.0;
    }
  }
}
