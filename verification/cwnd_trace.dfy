/** The congestion-window tracer of tcp-variants-comparison-1-a.cc: one
    trace stream per node id (`cWndStream`) and a per-node "first
    notification pending" flag (`firstCwnd`), updated by `CwndTracer` on
    every window change the simulator reports. */
module CwndTrace {
  import ContextPath

  /** One line of a trace file: simulated time in seconds, window in bytes. */
  datatype Record = Record(time: real, cwnd: nat)

  /** The tracer's state for one run. A node without a stream has no open
      trace file; a node missing from `first` reads as `false`, because
      `std::map::operator[]` inserts a default-initialised flag. */
  datatype Tracer = Tracer(streams: map<nat, seq<Record>>, first: map<nat, bool>)

  /** The state before `main` touches either map. */
  const Fresh: Tracer := Tracer(map[], map[])

  predicate AwaitsFirst(t: Tracer, node: nat) {
    node in t.first && t.first[node]
  }

  /** `firstCwnd[srcId] = true`, done when tracing is switched on. */
  function Arm(t: Tracer, node: nat): (t': Tracer)
    ensures AwaitsFirst(t', node)
    ensures t'.streams == t.streams
    ensures forall k :: k != node ==> (k in t'.first <==> k in t.first)
    ensures forall k :: k in t.first && k != node ==> t'.first[k] == t.first[k]
  {
    t.(first := t.first[node := true])
  }

  /** `TraceCwnd`: `cWndStream[nodeId]` becomes a freshly created (empty)
      trace file; the flags are left alone. */
  function Open(t: Tracer, node: nat): (t': Tracer)
    ensures t'.streams.Keys == t.streams.Keys + {node}
    ensures t'.streams[node] == []
    ensures forall k :: k in t.streams && k != node ==> t'.streams[k] == t.streams[k]
    ensures t'.first == t.first
  {
    t.(streams := t.streams[node := []])
  }

  /** The notifications `CwndTracer` accepts: a context the parser reads and
      a node whose stream exists (a missing stream is a null dereference). */
  predicate Deliverable(t: Tracer, context: string) {
    ContextPath.Parsable(context) && ContextPath.NodeIdFromContext(context) in t.streams
  }

  /** `CwndTracer(context, oldval, newval)` at simulated time `now`. */
  function CwndTracer(t: Tracer, context: string, now: real, oldval: nat, newval: nat): (t': Tracer)
    requires Deliverable(t, context)
    ensures var node := ContextPath.NodeIdFromContext(context);
      && t'.streams.Keys == t.streams.Keys
      && (AwaitsFirst(t, node) ==>
            t'.streams[node] == t.streams[node] + [Record(0.0, oldval), Record(now, newval)])
      && (!AwaitsFirst(t, node) ==> t'.streams[node] == t.streams[node] + [Record(now, newval)])
      && (forall k :: k in t.streams && k != node ==> t'.streams[k] == t.streams[k])
      && t'.first.Keys == t.first.Keys + {node}
      && !AwaitsFirst(t', node)
      && (forall k :: k in t.first && k != node ==> t'.first[k] == t.first[k])
    // No flag is ever raised by a notification.
    ensures forall k :: AwaitsFirst(t', k) ==> AwaitsFirst(t, k)
  {
    var node := ContextPath.NodeIdFromContext(context);
    var before := t.streams[node];
    var head := if AwaitsFirst(t, node) then before + [Record(0.0, oldval)] else before;
    Tracer(t.streams[node := head + [Record(now, newval)]], t.first[node := false])
  }

  /** One window-change notification as the simulator delivers it. */
  datatype Notification = Notification(context: string, now: real, oldval: nat, newval: nat)

  predicate AllDeliverable(t: Tracer, evs: seq<Notification>) {
    forall i :: 0 <= i < |evs| ==> Deliverable(t, evs[i].context)
  }

  /** The tracer after the notifications `evs`, in delivery order. */
  function Replay(t: Tracer, evs: seq<Notification>): (t': Tracer)
    requires AllDeliverable(t, evs)
    ensures t'.streams.Keys == t.streams.Keys
    decreases |evs|
  {
    if |evs| == 0 then t
    else
      var e := evs[0];
      var t1 := CwndTracer(t, e.context, e.now, e.oldval, e.newval);
      assert AllDeliverable(t1, evs[1..]) by {
        forall i | 0 <= i < |evs[1..]|
          ensures Deliverable(t1, evs[1..][i].context)
        {
          assert Deliverable(t, evs[i + 1].context);
        }
      }
      Replay(t1, evs[1..])
  }

  /** How many of the notifications name `node`. */
  function CountFor(evs: seq<Notification>, node: nat): nat
    requires forall i :: 0 <= i < |evs| ==> ContextPath.Parsable(evs[i].context)
    decreases |evs|
  {
    if |evs| == 0 then 0
    else (if ContextPath.NodeIdFromContext(evs[0].context) == node then 1 else 0) + CountFor(evs[1..], node)
  }

  /** When every notification names `node`, all of them count for it. */
  lemma {:induction false} CountForAllNamed(evs: seq<Notification>, node: nat)
    requires forall i :: 0 <= i < |evs| ==> ContextPath.Parsable(evs[i].context)
    requires forall i :: 0 <= i < |evs| ==> ContextPath.NodeIdFromContext(evs[i].context) == node
    ensures CountFor(evs, node) == |evs|
    decreases |evs|
  {
    if |evs| > 0 {
      CountForAllNamed(evs[1..], node);
    }
  }

  predicate TimesNondecreasing(s: seq<Record>) {
    forall i, j :: 0 <= i < j < |s| ==> s[i].time <= s[j].time
  }

  predicate NowsNondecreasing(evs: seq<Notification>) {
    forall i, j :: 0 <= i < j < |evs| ==> evs[i].now <= evs[j].now
  }

  /** The shape every traced stream keeps: ordered, nothing later than
      `since`, and still empty while its first notification is pending. */
  predicate StreamReady(t: Tracer, node: nat, since: real) {
    && node in t.streams
    && TimesNondecreasing(t.streams[node])
    && (forall k :: 0 <= k < |t.streams[node]| ==> t.streams[node][k].time <= since)
    && (AwaitsFirst(t, node) ==> t.streams[node] == [])
  }

  /** One notification at time `now >= since >= 0` keeps the shape, only
      appends to the stream, and appends to it only when it names it. */
  lemma StepKeepsStreamReady(t: Tracer, node: nat, e: Notification, since: real)
    requires Deliverable(t, e.context)
    requires 0.0 <= since <= e.now
    requires StreamReady(t, node, since)
    ensures var t' := CwndTracer(t, e.context, e.now, e.oldval, e.newval);
      var named := ContextPath.NodeIdFromContext(e.context) == node;
      && StreamReady(t', node, e.now)
      && t.streams[node] <= t'.streams[node]
      && |t'.streams[node]| == |t.streams[node]|
           + (if named then (if AwaitsFirst(t, node) then 2 else 1) else 0)
      && AwaitsFirst(t', node) == (AwaitsFirst(t, node) && !named)
      && (AwaitsFirst(t, node) && named ==> t'.streams[node][0].time == 0.0)
  {
  }

  /** Replaying notifications that arrive in time order, no earlier than
      `since`, onto a stream of that shape: the stream only grows at its end,
      stays ordered, gains one record per notification for its node plus the
      synthetic time-0 record when its first notification was pending, and
      that record leads. */
  lemma {:induction false} ReplayGrowsStream(t: Tracer, node: nat, evs: seq<Notification>, since: real)
    requires AllDeliverable(t, evs)
    requires 0.0 <= since
    requires forall i :: 0 <= i < |evs| ==> since <= evs[i].now
    requires NowsNondecreasing(evs)
    requires StreamReady(t, node, since)
    ensures var s := Replay(t, evs).streams[node];
      && t.streams[node] <= s
      && TimesNondecreasing(s)
      && |s| == |t.streams[node]| + CountFor(evs, node)
                + (if AwaitsFirst(t, node) && CountFor(evs, node) > 0 then 1 else 0)
      && (AwaitsFirst(t, node) && CountFor(evs, node) > 0 ==> s[0].time == 0.0)
    decreases |evs|
  {
    if |evs| > 0 {
      var e := evs[0];
      var t1 := CwndTracer(t, e.context, e.now, e.oldval, e.newval);
      var rest := evs[1..];
      assert AllDeliverable(t1, rest) by {
        forall i | 0 <= i < |rest|
          ensures Deliverable(t1, rest[i].context)
        {
          assert Deliverable(t, evs[i + 1].context);
        }
      }
      assert Replay(t, evs) == Replay(t1, rest);
      StepKeepsStreamReady(t, node, e, since);
      assert forall i :: 0 <= i < |rest| ==> e.now <= rest[i].now;
      ReplayGrowsStream(t1, node, rest, e.now);
    }
  }

  /** The trace of a node whose flag is raised before its file is opened (the
      order of tcp-variants-comparison-1-a.cc: flag in `main`, file in the
      scheduled `TraceCwnd`): for notifications at times 0 or later in time
      order, the stream is empty until its node is notified, then starts with
      the synthetic record at time 0.0, has one record more than it was
      notified, and its times never decrease. */
  lemma ArmedTraceStartsAtZero(t: Tracer, node: nat, evs: seq<Notification>)
    requires AllDeliverable(Open(Arm(t, node), node), evs)
    requires forall i :: 0 <= i < |evs| ==> 0.0 <= evs[i].now
    requires NowsNondecreasing(evs)
    ensures var s := Replay(Open(Arm(t, node), node), evs).streams[node];
      && TimesNondecreasing(s)
      && |s| == (if CountFor(evs, node) == 0 then 0 else CountFor(evs, node) + 1)
      && (|s| > 0 ==> s[0].time == 0.0)
  {
    ReplayGrowsStream(Open(Arm(t, node), node), node, evs, 0.0);
  }
}
