# ns-3 experiment scripts: a verified model

The repository is five ns-3 experiment scripts: `first.cc`, `second.cc`,
`third.cc`, `tcp-variants-comparison-1-a.cc` and
`tcp-variants-comparison-1-b.cc`. Most of each script configures the
simulator. This project models the deterministic logic inside that
configuration and proves properties of it:

- the congestion-window tracer of 1-a. It parses the node id out of a
  `/NodeList/<id>/...` context path (`GetNodeIdFromContext`). It keeps one
  trace stream per node (`cWndStream`) and a "first notification pending"
  flag per node (`firstCwnd`). On the first notification it writes a
  synthetic `(0.0, oldval)` record, then `(now, newval)` on every
  notification;
- the qualification of the congestion-control variant name with `ns3::`;
- clamping of the command-line counts, and third.cc's refusal of more than
  nine stations;
- each script's topology: nodes in creation order, links in creation order,
  one stack per node, and the /24 network of each link or segment;
- the bottleneck error model (1-a, 1-b);
- the wiring of sinks, servers, senders and clients: which node runs what,
  which address and port each sender targets, and how start and stop times
  relate;
- the goodput reduction: per sink `rx * 8 / (sim_stop - 1.0)`, and their sum.

Modules, one per file:

| file | module | models |
|---|---|---|
| wrappers.dfy | `Wrappers` | `Option`, `Result` |
| decimal.dfy | `Decimal` | decimal digit strings: `std::stoul` on digits, `operator<<` of a number |
| strings.dfy | `Strings` | `find_first_of` and `find` with their defining properties |
| context_path.dfy | `ContextPath` | `GetNodeIdFromContext` |
| cwnd_trace.dfy | `CwndTrace` | `firstCwnd`/`cWndStream`, `TraceCwnd`, `CwndTracer` and sequences of notifications |
| transport.dfy | `Transport` | the `ns3::` qualification of the variant name |
| params.dfy | `Params` | the count ceilings and the clamp |
| net.dfy | `Net` | nodes, links, devices, /24 networks, `Ipv4AddressHelper`, applications |
| error_injector.dfy | `ErrorInjector` | the receive-error-model loops |
| goodput.dfy | `Goodput` | per-sink goodput and the aggregate |
| tcp_variants_1a.dfy | `TcpVariants1a` | tcp-variants-comparison-1-a.cc |
| tcp_variants_1b.dfy | `TcpVariants1b` | tcp-variants-comparison-1-b.cc |
| first_script.dfy | `FirstScript` | first.cc |
| second_script.dfy | `SecondScript` | second.cc |
| third_script.dfy | `ThirdScript` | third.cc |

Each script module has a `Build` function. It maps the parsed command-line
values to a `Setup` record that holds what `main` has configured before the
simulator runs. Its lemmas state the script's properties about `Build`.

Conventions:

- Node ids are positions in ns-3's global node list, which numbers nodes in
  creation order. Each script runs in a fresh process, so ids start at 0.
- A /24 network is named by its network number: the address without its 8
  host bits. `NewNetwork` yields the next number.
- An `Assign` call hands out consecutive host numbers in device order. The
  numbers start at 1 after `SetBase`, and a later `Assign` continues where
  the previous one stopped.
- The model follows the code as written:
  - traces are keyed by node id only, so all sockets of one node share one
    stream;
  - `nFlows` has no upper bound;
  - third.cc refuses `nWifi > 9`; it does not clamp it;
  - second.cc creates its links in the order p2p, p2p2, CSMA but addresses
    them in the order p2p, CSMA, p2p2;
  - no script checks that an application stops after it starts.
- The exceptions are the defects under "## Findings". There the as-written
  behaviour has its own members, and the rest of the model uses the
  corrected one.

## Model

| member | source | states |
|---|---|---|
| `Strings.FindFirstOf` | tcp-variants-comparison-1-a.cc:23-24 | the result is the first index at or after `from` that holds the character; none exactly when no such index exists |
| `Strings.Find` | tcp-variants-comparison-1-a.cc:73 | the result is the first occurrence of the pattern at or after `from`; none exactly when it occurs nowhere there |
| `Strings.FindFailsIffAbsent` | tcp-variants-comparison-1-a.cc:73 | `find` returns npos if and only if the name does not contain the pattern |
| `Decimal.Show` | tcp-variants-comparison-1-a.cc:43 | a rendered id is a non-empty digit string with no leading zero |
| `Decimal.ValueOfShow` | tcp-variants-comparison-1-a.cc:25 | reading the digits of `n` back, as `stoul` does, gives `n` |
| `Decimal.ShowInjective` | first.cc:56-57 | distinct numbers are written as distinct digit strings |
| `ContextPath.NodeIdFromContext` | tcp-variants-comparison-1-a.cc:21-26 | the id is narrowed to the `uint32_t` range |
| `ContextPath.SegmentBetweenSlashes` | tcp-variants-comparison-1-a.cc:23-25 | the extracted text is exactly the text between the second and third '/', whatever comes before or after |
| `ContextPath.SegmentRunsToEnd` | tcp-variants-comparison-1-a.cc:24-25 | with no third '/', the extracted text runs from the second '/' to the end |
| `ContextPath.NodeIdIsSegmentValue` | tcp-variants-comparison-1-a.cc:21-26 | the id is the decimal value of that segment modulo 2^32 |
| `ContextPath.NodeIdIgnoresRest` | tcp-variants-comparison-1-a.cc:23-25 | two contexts that agree up to the third '/' yield the same id |
| `ContextPath.NodeListPathRoundTrip` | tcp-variants-comparison-1-a.cc:21-25 | `"/NodeList/" + dec(k) + "/" + rest` parses to `k` for every 32-bit `k` |
| `CwndTrace.Arm` | tcp-variants-comparison-1-a.cc:139-140 | raising a node's flag leaves every stream and every other flag as it was |
| `CwndTrace.Open` | tcp-variants-comparison-1-a.cc:39-42 | the node's stream exists and is empty afterwards; other streams and all flags are unchanged |
| `CwndTrace.CwndTracer` | tcp-variants-comparison-1-a.cc:28-37 | a pending node gets `(0.0, oldval)` then `(now, newval)`, any other node only `(now, newval)`; its flag ends false (inserted when missing); other nodes' streams and flags are unchanged; no flag is ever raised |
| `CwndTrace.Replay` | tcp-variants-comparison-1-a.cc:28-37 | a sequence of notifications keeps the set of open streams |
| `CwndTrace.StepKeepsStreamReady` | tcp-variants-comparison-1-a.cc:30-36 | one notification no earlier than any record keeps the stream ordered; it only appends, by 2, 1 or 0 records, and the pending record leads |
| `CwndTrace.ReplayGrowsStream` | tcp-variants-comparison-1-a.cc:30-36 | notifications in time order only append to a stream, keep it ordered, and add one record per notification for its node plus the leading time-0 record when it was pending |
| `CwndTrace.ArmedTraceStartsAtZero` | tcp-variants-comparison-1-a.cc:139-144 | a node armed before its file is opened gets a trace that starts at 0.0, is time-ordered, and holds one record more than its notifications |
| `Transport.Normalize` | tcp-variants-comparison-1-a.cc:73-74 | the result contains `ns3::`; a name that already contains it anywhere is unchanged; any other name gets the prefix |
| `Transport.NormalizeIdempotent` | tcp-variants-comparison-1-b.cc:37-38 | normalising twice equals normalising once |
| `Transport.NormalizeKeepsName` | tcp-variants-comparison-1-b.cc:37-38 | the given name is always the tail of the result |
| `Params.ClampAtMost` | first.cc:27-28 | the result is the smaller of the count and its ceiling |
| `Params.ClampKeepsSmallValues` | second.cc:30 | a count within the ceiling is unchanged; a larger one becomes the ceiling |
| `Params.ClampIdempotent` | third.cc:35 | clamping twice equals clamping once |
| `Net.Range` | tcp-variants-comparison-1-b.cc:43-47 | `Create` numbers the new nodes consecutively after the existing ones |
| `Net.RangeInstallsEachOnce` | tcp-variants-comparison-1-a.cc:92-93 | installing on all nodes in creation order reaches each node exactly once |
| `Net.Dotted` | first.cc:58 | the network a.b.c.0 gives back its three octets |
| `Net.NewNetworksAfterSetBase` | tcp-variants-comparison-1-b.cc:72-83 | after `SetBase(base)` and `k` calls of `NewNetwork`, the helper is in the `k`-th network after `base`, with hosts numbered again from 1 |
| `Net.AssignAfterNewNetworks` | tcp-variants-comparison-1-b.cc:72-83 | an `Assign` of `m` devices there gives them hosts 1..m of that network in device order, and the helper continues at host `m + 1` |
| `Net.Assign` | tcp-variants-comparison-1-a.cc:108 | one interface per device, in device order, in the current network, with consecutive hosts; the helper continues after them |
| `Net.AssignAddressesDistinctHosts` | third.cc:125-127 | one `Assign` never hands out an address twice |
| `ErrorInjector.AttachReceiveErrorModel` | tcp-variants-comparison-1-a.cc:99-104 | every point-to-point device gets the error model; any other device is left untouched; nodes and kinds are unchanged |
| `ErrorInjector.AttachReceiveErrorModelUnchecked` | tcp-variants-comparison-1-b.cc:65-66 | with no null check every device must be point-to-point, and then every device gets the error model |
| `Goodput.FlowGoodput` | tcp-variants-comparison-1-a.cc:159-161 | goodput times the active time `sim_stop - 1.0` is the received bits |
| `Goodput.ZeroBytesZeroGoodput` | tcp-variants-comparison-1-a.cc:159-161 | a sink with no bytes reports exactly 0 |
| `Goodput.GoodputMonotone` | tcp-variants-comparison-1-a.cc:161 | for a positive active time goodput is non-negative and monotone in the bytes received |
| `Goodput.PerFlowGoodput` | tcp-variants-comparison-1-a.cc:154-165 | one goodput per sink, in sink order, each its bits over the active time |
| `Goodput.SumIgnoresIdleSinks` | tcp-variants-comparison-1-b.cc:110-119 | dropping every sink that received nothing, wherever it sits among the others, leaves the byte total unchanged |
| `Goodput.SumGoodputIgnoresIdleSinks` | tcp-variants-comparison-1-b.cc:110-119 | the goodputs of the active sinks alone add up to the same aggregate as those of all sinks |
| `Goodput.SumGoodputIsTotalBits` | tcp-variants-comparison-1-b.cc:110-119 | adding up the sinks' goodputs one by one amounts to 8 times their total bytes over the active time |
| `Goodput.SumGoodputForms` | tcp-variants-comparison-1-b.cc:110-119 | the sum of goodputs is the total bits divided once by the active time, and non-negative when the active time is positive |
| `Goodput.AggregateGoodput` | tcp-variants-comparison-1-b.cc:110-119 | the accumulated total is `8 * Σ rx / (sim_stop - 1.0)`, non-negative for a positive active time |
| `TcpVariants1a.ProtocolIsQualified` | tcp-variants-comparison-1-a.cc:73-75 | the variant handed to the type lookup is always `ns3::`-qualified |
| `TcpVariants1a.ChainTopology` | tcp-variants-comparison-1-a.cc:77-97 | four nodes in creation order, each with one stack; three links forming the chain 0-1-2-3; the middle link has the bottleneck rate and delay |
| `TcpVariants1a.ErrorModelOnBottleneckOnly` | tcp-variants-comparison-1-a.cc:88-104 | both R1-R2 devices carry the configured error model; no access-link device does |
| `TcpVariants1a.SubnetsInLinkOrder` | tcp-variants-comparison-1-a.cc:106-114 | the links get 10.1.1.0, 10.1.2.0 and 10.1.3.0 in creation order, pairwise distinct, each addressing its own endpoints |
| `TcpVariants1a.FlowWiring` | tcp-variants-comparison-1-a.cc:118-145 | the sink listens on the destination's own address at port 50000; the sender on the source targets that endpoint; sink start < sender start < trace start; both stop at `sim_stop` |
| `TcpVariants1a.CwndContextNamesSource` | tcp-variants-comparison-1-a.cc:43-44 | every context of the connected path parses to the source node, whatever the socket |
| `TcpVariants1a.TraceWithoutRunIsAbsent` | tcp-variants-comparison-1-a.cc:137-168 | as written, with no `Simulator::Run`, the scheduled `TraceCwnd` never runs: the source has no trace stream at all, and its first-record flag stays pending exactly when tracing is on |
| `TcpVariants1a.SourceTraceStartsAtZero` | tcp-variants-comparison-1-a.cc:137-145 | in the corrected program, which runs the simulation: all of the source's sockets share one stream, which starts at 0.0, is time-ordered and has one record per change plus one |
| `TcpVariants1a.ReportWithoutRunIsZero` | tcp-variants-comparison-1-a.cc:152-165 | as written, the only flow reports 0 bps for every configuration |
| `TcpVariants1a.Report` | tcp-variants-comparison-1-a.cc:154-165 | the intended report has one goodput, the post-run bits over the active time |
| `TcpVariants1a.ReportCountsDeliveredBytes` | tcp-variants-comparison-1-a.cc:159-161 | the intended report is positive exactly when the sink received bytes |
| `TcpVariants1b.ProtocolIsQualified` | tcp-variants-comparison-1-b.cc:37-40 | the variant handed to the type lookup is always `ns3::`-qualified |
| `TcpVariants1b.AssignAccessLinks` | tcp-variants-comparison-1-b.cc:78-83 | access link `i` gets the `(i+1)`-th network after the bottleneck's, R2 as host 1 and destination `i` as host 2 |
| `TcpVariants1b.DumbbellTopology` | tcp-variants-comparison-1-b.cc:43-70 | 1 source, 2 routers and `nFlows` destinations with ids in creation order, each with exactly one stack; `2 + nFlows` links: source–R1 at 100Mbps/0.01ms, R1–R2 at the given rate and delay, and link `2 + i` joining R2 to destination `i` |
| `TcpVariants1b.FlowsShareBottleneck` | tcp-variants-comparison-1-b.cc:63-101 | R1-R2 is the only link between the source side and the destination side, and every sender is on the source |
| `TcpVariants1b.ErrorModelOnBottleneckOnly` | tcp-variants-comparison-1-b.cc:60-70 | both R1-R2 devices carry the error model; no device of any other link does |
| `TcpVariants1b.InterfaceLayout` | tcp-variants-comparison-1-b.cc:72-83 | the exact addresses: 10.1.1.1/.2 for source and R1, 10.1.2.1/.2 for R1 and R2, and on access link `i` host 1 for R2 and host 2 for destination `i` in the `(i+2)`-th network after 10.1.1.0 |
| `TcpVariants1b.SubnetsOnePerLink` | tcp-variants-comparison-1-b.cc:72-83 | as many networks as links, network `k` being the `k`-th after 10.1.1.0, strictly increasing and so pairwise distinct |
| `TcpVariants1b.InterfacesOnOwnLinks` | tcp-variants-comparison-1-b.cc:72-76 | the first link's and the bottleneck's two interfaces are that link's endpoints in device order, on distinct hosts of that link's own network |
| `TcpVariants1b.AccessLinkInterfaces` | tcp-variants-comparison-1-b.cc:78-83 | access link `i`'s two interfaces are R2 and destination `i`, the link's endpoints in device order, on distinct hosts of that link's own network |
| `TcpVariants1b.FlowWiring` | tcp-variants-comparison-1-b.cc:86-105 | sink `i` is on destination `i` at that node's own address on link `2 + i` and port `SinkPort(i)`; sender `i` is on the source and targets that endpoint; sinks open at 0.0 before senders at 1.0; all stop at `sim_stop` |
| `TcpVariants1b.SinkPortValue` | tcp-variants-comparison-1-b.cc:86-91 | the port is `50000 + i` until it passes 65535, then it wraps to `i - 15536` |
| `TcpVariants1b.SinkPortsDistinct` | tcp-variants-comparison-1-b.cc:89-91 | the sink ports are pairwise distinct for every `uint16_t` flow count |
| `TcpVariants1b.Report` | tcp-variants-comparison-1-b.cc:110-119 | given one counter per installed sink, the aggregate times the active time is 8 times the total bytes, and it is non-negative for a positive active time |
| `TcpVariants1b.ReportCoversEveryFlow` | tcp-variants-comparison-1-b.cc:86-119 | the configuration installs exactly `nFlows` sinks, so `nFlows` counters are what the report takes, and it reports their total bits divided once by the active time |
| `FirstScript.Sanitize` | first.cc:26-28 | both counts end at most 5; a count within 5 is unchanged; a larger one becomes 5 |
| `FirstScript.SanitizeIdempotent` | first.cc:27-28 | sanitising sanitised counts changes nothing |
| `FirstScript.StarTopology` | first.cc:34-54 | the server and `nClients` clients, each with one stack; exactly `nClients` links, link `i` joining client `i` to the server |
| `FirstScript.SubnetTextNamesNetwork` | first.cc:56-58 | the text `"10.1." + dec(i+1) + ".0"` is the dotted form of the network link `i` gets |
| `FirstScript.SubnetTextsDistinct` | first.cc:56-58 | distinct links get distinct subnet texts |
| `FirstScript.SubnetsPerLink` | first.cc:48-61 | one interface container per link, in link order, in 10.1.(i+1).0; third octets strictly increasing and at most 5 |
| `FirstScript.ClientsShareServer` | first.cc:67-84 | every client targets the server's address on link 0 at the server's port 15, with at most 5 packets of 1024 bytes, 1 s apart |
| `FirstScript.ClientStartsInWindow` | first.cc:70-90 | for draws in [2.0, 7.0] (a superset of the generator's [2.0, 7.0)), every client starts in that window, after the server's 1.0 and before the common stop at 20.0 |
| `SecondScript.SanitizePackets` | second.cc:30 | at most 20 packets; a count within 20 is unchanged |
| `SecondScript.SharedNodes` | second.cc:38-60 | `csmaNodes[0]` is `p2pNodes[1]`; `p2p2Nodes[0]` is the last of the `nCsma + 1` CSMA nodes; `nCsma + 3` nodes in creation order; the links join exactly these groups |
| `SecondScript.StackOnEveryNodeOnce` | second.cc:63-66 | the three installs reach every node exactly once, including the shared ones |
| `SecondScript.SubnetsBySegment` | second.cc:69-78 | 10.1.1.0, 10.1.2.0 and 10.1.3.0 go to the first link, the CSMA bus and the second link, distinct, each numbering its own group's nodes |
| `SecondScript.EchoWiring` | second.cc:80-93 | the client on `p2pNodes[0]` targets the server's own address on the second link at port 15; the server starts at 1.0 before the client at 2.0; both stop at 30.0 |
| `ThirdScript.ValidateAsWritten` | third.cc:30-34 | as written, a count is refused exactly when it exceeds 9, with exit code 1 |
| `ThirdScript.StationIndex` | third.cc:134 | `nWifi - 1` in `uint32_t` is one below `nWifi` when `nWifi >= 1` |
| `ThirdScript.ZeroStationsPassGuard` | third.cc:30-34 | `nWifi = 0` passes the guard and the station index wraps to 4294967295, outside the empty station container |
| `ThirdScript.Validate` | third.cc:30-34 | a count is accepted exactly when it lies in 1..9, and then the station index is in range |
| `ThirdScript.Configure` | third.cc:30-35 | the corrected script of the third.cc Findings row, built on `ThirdScript.Validate`: a refused count yields no setup at all; otherwise `nPackets` is kept when at most 20 and becomes exactly 20 when larger, and the station count is kept |
| `ThirdScript.TwoWifiNetworks` | third.cc:43-94 | two networks of `nWifi` stations plus one AP each; the APs are exactly the two p2p nodes; `2 + 2 * nWifi` nodes in creation order |
| `ThirdScript.StackOnEveryNodeOnce` | third.cc:115-119 | the four installs reach every node exactly once |
| `ThirdScript.StationsThenAccessPoint` | third.cc:125-127 | in one wifi network, assigning the stations after `SetBase` and then the access point keeps the stations in order, numbers every station below the access point, and hands out no host twice |
| `ThirdScript.SubnetOrder` | third.cc:121-131 | 10.1.1.0 for the p2p link, then 10.1.2.0 and 10.1.3.0 for the two networks; within each network the stations are numbered before the AP, no host twice |
| `ThirdScript.EchoWiring` | third.cc:133-145 | the server is on station `nWifi - 1` of network 1; the client, on station `nWifi - 1` of network 2, targets that station's own address on port 9 |
| `ThirdScript.Schedule` | third.cc:133-149 | the server starts before the client, the client starts before it stops, both stop together, and not after the simulation stop |
| `ThirdScript.SsidsPerNetwork` | third.cc:63-94 | each network's station MACs and AP MAC share its SSID, stations without active probing; the two SSIDs differ |

## Findings

| source | as written | input that shows it | evidently intended | confidence | as-written member | corrected member |
|---|---|---|---|---|---|---|
| third.cc:30-34 | only `nWifi > 9` is refused, while `nWifi - 1` at lines 134 and 138 and 143 is computed in `uint32_t` | `nWifi = 0`: the guard passes, and the index wraps to 4294967295 in station containers that hold no node | refuse any `nWifi` outside 1..9 | not executed | `ThirdScript.ZeroStationsPassGuard` | `ThirdScript.Validate` |
| tcp-variants-comparison-1-a.cc:152-165 | the goodput loop reads the sink counters right after `Simulator::Stop`, and no `Simulator::Run` is called anywhere in the file | any options, for example the defaults: the one flow reports 0 bps | run the simulation before the report, as tcp-variants-comparison-1-b.cc does at line 108 | not executed | `TcpVariants1a.ReportWithoutRunIsZero` | `TcpVariants1a.ReportCountsDeliveredBytes` |
| tcp-variants-comparison-1-a.cc:137-145 | `TraceCwnd` is only scheduled at 1.01 s, and with no `Simulator::Run` (the file goes from `Simulator::Stop` at line 152 to `Simulator::Destroy` at line 168) no scheduled event ever fires | tracing on, any other options: no `-flow0-cwnd.data` stream is opened and no window change is recorded | run the simulation, so that the trace file collects the source's window changes | not executed | `TcpVariants1a.TraceWithoutRunIsAbsent` | `TcpVariants1a.SourceTraceStartsAtZero` |

## Left out

- The ns-3 engine is left out, because these are foreign calls: the event
  queue, `Simulator::Run`/`Stop`/`Now`/`Schedule`, TCP/UDP behaviour,
  `Config::Connect`, `Config::SetDefault`, and `TypeId::LookupByName`, which
  is fatal on an unknown name. The simulated time of a notification is an
  input, and variant names are opaque strings.
- Route computation (`Ipv4GlobalRoutingHelper::PopulateRoutingTables`) is
  simulator-internal.
- Received-byte counts are inputs to the goodput reduction. They are the
  outcome of a run, which this code does not determine. So are loss
  effects and bounds such as "goodput at most the bottleneck rate".
- Times and goodput are `real`. Double rounding, `GetSeconds()` formatting,
  the `/ 1e6` scaling and the text of the stdout lines are not modelled.
  A division by zero at `sim_stop = 1.0` is excluded by precondition.
- `sim_stop` is the fixed 20.0 of tcp-variants-comparison-1-a.cc and
  tcp-variants-comparison-1-b.cc, not a command-line option. The model
  takes it as the parameter `simStop`; `SIM_STOP` is the scripts' value.
  So the precondition `sim_stop != 1.0` guards a value the scripts as
  written never take.
- The client start times of first.cc are an input sequence. Each value is
  assumed to lie in [2.0, 7.0]. That is a superset of the half-open
  [2.0, 7.0) that `UniformRandomVariable` draws from; the generator itself
  is not modelled.
- `Ipv4AddressHelper` internals are not modelled: 32-bit address
  arithmetic, the duplicate-address and overflow checks, and the parsing of
  the text passed to `SetBase`. first.cc's text is related to the network
  it names by `FirstScript.SubnetTextNamesNetwork`.
- `std::stoul` is modelled only on a non-empty run of decimal digits within
  `unsigned long`. Leading blanks, signs, trailing non-digits, the
  `invalid_argument`/`out_of_range` exceptions and a context with no '/'
  after index 0 are outside the precondition.
- A notification for a node without a trace stream is excluded by
  precondition: the source dereferences a null stream there.
- File and pcap output are not modelled: `AsciiTraceHelper` (a new trace
  file is an empty stream), `EnablePcap*`. Neither are logging,
  `Time::SetResolution` or `CommandLine` parsing. The model starts from
  parsed values.
- Wifi PHY/MAC (`YansWifi*`, `MinstrelHtWifiManager`) and mobility
  (third.cc:96-113) are physical-layer configuration with nothing to state.
  Only the SSID and MAC type of each device are kept.
- Data rates and delays are opaque strings.
- tcp-variants-comparison-1-a.cc parses `nFlows` and has a `pcap` flag, but
  its wiring never uses `nFlows` and `pcap` is always false; the model has
  neither.
- The `DynamicCast<PacketSink>` check in both reduction loops is not
  modelled, because every application in those containers is made by
  `PacketSinkHelper`, so the cast cannot fail.
- second.cc's `nCsma` is the constant 4 in the script. The model takes it
  as a parameter; `SecondScript.Script` is the instance with 4.
- `ContextPath.NodeIdFromContext`: its own contract states only the
  `uint32_t` bound. The value it returns is stated by
  `ContextPath.NodeIdIsSegmentValue` and `ContextPath.NodeListPathRoundTrip`.
- `ThirdScript.Configure`: built on the corrected `Validate`. third.cc as
  written accepts `nWifi = 0` (see `ThirdScript.ZeroStationsPassGuard`), and
  its only message is the one for `nWifi > 9`. The refusal of 0, with its
  message "nWifi should be 1 or more", belongs to the corrected script.
- `TcpVariants1a.SourceTraceStartsAtZero`: describes the run the intended
  program makes. As written no trace is ever recorded; that is stated by
  `TcpVariants1a.TraceWithoutRunIsAbsent`.
