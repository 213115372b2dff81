/** Attaching the bottleneck's loss model to its devices
    (tcp-variants-comparison-1-a.cc and -1-b.cc). */
module ErrorInjector {
  import opened Wrappers
  import opened Net

  /** The loop over a device container: each point-to-point device gets `em`
      as its receive error model; a device of any other kind (a failed cast)
      is passed over untouched. */
  function AttachReceiveErrorModel(devs: seq<Device>, em: ErrorModel): (out: seq<Device>)
    ensures |out| == |devs|
    ensures forall i :: 0 <= i < |devs| ==> out[i].node == devs[i].node && out[i].kind == devs[i].kind
    ensures forall i :: 0 <= i < |devs| && devs[i].kind == PointToPointDevice ==>
              out[i].receiveErrorModel == Some(em)
    ensures forall i :: 0 <= i < |devs| && devs[i].kind != PointToPointDevice ==> out[i] == devs[i]
    decreases |devs|
  {
    if |devs| == 0 then []
    else
      var d := devs[0];
      var d' := if d.kind == PointToPointDevice then d.(receiveErrorModel := Some(em)) else d;
      [d'] + AttachReceiveErrorModel(devs[1..], em)
  }

  /** The same loop without the null check (tcp-variants-comparison-1-b.cc):
      a device that is not point-to-point would be dereferenced as null, so
      every device must be one; then every device gets `em`. */
  function AttachReceiveErrorModelUnchecked(devs: seq<Device>, em: ErrorModel): (out: seq<Device>)
    requires forall i :: 0 <= i < |devs| ==> devs[i].kind == PointToPointDevice
    ensures |out| == |devs|
    ensures forall i :: 0 <= i < |devs| ==> out[i] == devs[i].(receiveErrorModel := Some(em))
  {
    AttachReceiveErrorModel(devs, em)
  }
}
