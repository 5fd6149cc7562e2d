/** The WebUSB side of the controllers, seen from the outside: the calls they
    issue, in order, and the success or failure each call reports. The browser's
    transport is not modelled; an operation receives the answers its device
    calls will get as a sequence of replies (the oracle), and emits the commands
    it issues. */
module Usb {
  import opened Optional

  /** An unsigned 8-bit value, as stored in a `Uint8Array`. */
  type Byte = x: int | 0 <= x < 256

  /** A (vendor id, product id) pair offered to `navigator.usb.requestDevice`. */
  datatype Filter = Filter(vendorId: int, productId: int)

  /** A USB device as the controllers see it: an identity, and whether it already
      reports an active configuration (`device.configuration !== null`) when the
      controller looks after opening it. */
  datatype Device = Device(id: nat, hasConfiguration: bool)

  /** `getPairedDevice`: the first device the browser already has access to,
      or nothing when there is none. */
  function FirstPaired(paired: seq<Device>): (d: Option<Device>)
    ensures d.None? <==> |paired| == 0
    ensures d.Some? ==> d.value == paired[0]
  {
    if |paired| == 0 then None else Some(paired[0])
  }

  /** The setup fields of a `controlTransferOut` call. */
  datatype Setup = Setup(requestType: string, recipient: string, request: int, value: int, index: int)

  /** One call the controllers make into WebUSB, in the order they make it. */
  datatype Command =
    | RequestDevice(filters: seq<Filter>)
    | GetDevices
    | Open
    | SelectConfiguration(configurationValue: int)
    | ClaimInterface(interfaceNumber: int)
    | ControlTransferOut(setup: Setup)
    | TransferOut(endpoint: int, data: seq<Byte>)
    | TransferIn(endpoint: int, length: int)
    | Close

  /** The Arduino Leonardo ETH, the one board every file but controller.js accepts. */
  const LeonardoEth := Filter(0x2a03, 0x8040)

  /** SET_CONTROL_LINE_STATE, a request of the USB CDC PSTN subclass (section
      6.3.12 of the USB CDC PSTN Subclass specification, revision 1.2). */
  const SetControlLineState := 0x22

  /** Line-state values: DTR raised ("host present") and lowered. */
  const HostPresent := 0x01
  const HostAbsent := 0x00

  /** The interface the controllers claim and address their control requests to. */
  const DmxInterface := 2

  /** Bulk endpoints: universes go out on 4, the WebUsbConnection reads from 5. */
  const OutEndpoint := 4
  const InEndpoint := 5

  /** A class request to interface 2 setting the line state to `value`. */
  function LineState(value: int): (s: Setup)
    ensures s.requestType == "class" && s.recipient == "interface"
    ensures s.request == 0x22 && s.value == value && s.index == 0x02
  {
    Setup("class", "interface", SetControlLineState, value, DmxInterface)
  }

  /** The answer to one device call. */
  datatype Reply = Ok | Fail

  /** The answer the `i`-th device call of an operation gets; calls beyond the
      end of the oracle succeed. */
  function Answer(replies: seq<Reply>, i: nat): Reply
  {
    if i < |replies| then replies[i] else Ok
  }

  /** Every one of the first `n` device calls succeeds. */
  predicate AllOk(replies: seq<Reply>, n: int)
  {
    forall i: nat :: i < n ==> Answer(replies, i) == Ok
  }

  /** `issued` is what a promise chain over `steps` issues: a prefix of the steps
      ending at the first call that failed, or all of them. */
  predicate Executed(steps: seq<Command>, replies: seq<Reply>, issued: seq<Command>)
  {
    && |issued| <= |steps|
    && issued == steps[..|issued|]
    && (|steps| > 0 ==> |issued| > 0)
    && AllOk(replies, |issued| - 1)
    && (|issued| < |steps| ==> Answer(replies, |issued| - 1) == Fail)
  }

  /** What a chain of device calls issued, and whether all of them succeeded. */
  datatype Run = Run(issued: seq<Command>, ok: bool)

  /** The replies left for the calls after the first one. */
  function Later(replies: seq<Reply>): (t: seq<Reply>)
    ensures forall i: nat :: Answer(t, i) == Answer(replies, i + 1)
  {
    if |replies| == 0 then [] else replies[1..]
  }

  /** The first `n + 1` calls succeed exactly when the first does and the `n`
      after it do. */
  lemma AllOkLater(replies: seq<Reply>, n: int)
    ensures AllOk(replies, n + 1) <==> (n < 0 || Answer(replies, 0) == Ok) && AllOk(Later(replies), n)
  {
    if AllOk(replies, n + 1) {
      forall i: nat | i < n ensures Answer(Later(replies), i) == Ok {
        assert Answer(replies, i + 1) == Ok;
      }
    }
    if (n < 0 || Answer(replies, 0) == Ok) && AllOk(Later(replies), n) {
      forall i: nat | i < n + 1 ensures Answer(replies, i) == Ok {
        if i > 0 {
          assert Answer(Later(replies), i - 1) == Ok;
        }
      }
    }
  }

  /** A `.then` chain of device calls: each step is issued only if every step
      before it succeeded, and the chain fails with the first failing step. */
  function Chain(steps: seq<Command>, replies: seq<Reply>): (r: Run)
    ensures Executed(steps, replies, r.issued)
    ensures r.ok <==> AllOk(replies, |steps|)
    decreases |steps|
  {
    if |steps| == 0 then Run([], true)
    else if Answer(replies, 0) == Fail then Run([steps[0]], false)
    else
      var rest := Chain(steps[1..], Later(replies));
      AllOkLater(replies, |rest.issued| - 1);
      AllOkLater(replies, |steps| - 1);
      Run([steps[0]] + rest.issued, rest.ok)
  }

  /** The contract of `Chain` pins its trace down: two traces that both satisfy
      `Executed` for the same steps and replies are the same trace. */
  lemma ExecutedIsUnique(steps: seq<Command>, replies: seq<Reply>, a: seq<Command>, b: seq<Command>)
    requires Executed(steps, replies, a) && Executed(steps, replies, b)
    ensures a == b
  {
  }

  /** When every step succeeds, every step is issued. */
  lemma ExecutedAllOk(steps: seq<Command>, replies: seq<Reply>, issued: seq<Command>)
    requires Executed(steps, replies, issued) && AllOk(replies, |steps|)
    ensures issued == steps
  {
  }

  /** When step `i` is the first to fail, steps `0..i` are issued and nothing after. */
  lemma ExecutedFirstFailure(steps: seq<Command>, replies: seq<Reply>, issued: seq<Command>, i: nat)
    requires Executed(steps, replies, issued)
    requires i < |steps| && AllOk(replies, i) && Answer(replies, i) == Fail
    ensures issued == steps[..i + 1]
  {
  }

  /** The handshake `connect` runs on an opened device: open, choose
      configuration 1 only if the device has none, claim interface 2, then tell
      the device the host is present. */
  function ConnectSteps(d: Device): (steps: seq<Command>)
    ensures |steps| >= 3
    ensures steps[0] == Open
    ensures steps[|steps| - 1] == ControlTransferOut(LineState(HostPresent))
    ensures SelectConfiguration(1) in steps <==> !d.hasConfiguration
    ensures d.hasConfiguration ==> steps == [Open, ClaimInterface(2), ControlTransferOut(LineState(0x01))]
    ensures !d.hasConfiguration ==>
              steps == [Open, SelectConfiguration(1), ClaimInterface(2), ControlTransferOut(LineState(0x01))]
  {
    [Open]
    + (if d.hasConfiguration then [] else [SelectConfiguration(1)])
    + [ClaimInterface(DmxInterface), ControlTransferOut(LineState(HostPresent))]
  }

  /** The calls `connect` issues on a bound device: the handshake, stopped at
      the first failing call. */
  function ConnectRun(d: Device, replies: seq<Reply>): (issued: seq<Command>)
    ensures Executed(ConnectSteps(d), replies, issued)
  {
    Chain(ConnectSteps(d), replies).issued
  }

  /** The teardown every `disconnect` runs: a line-state request, then `close`. */
  function DisconnectSteps(value: int): seq<Command>
  {
    [ControlTransferOut(LineState(value)), Close]
  }

  /** A `disconnect` on a bound device: the line-state request with `value`,
      then `close` only if that request succeeded; the run succeeds iff both do. */
  function DisconnectRun(value: int, replies: seq<Reply>): (r: Run)
    ensures Executed([ControlTransferOut(LineState(value)), Close], replies, r.issued)
    ensures Close in r.issued <==> Answer(replies, 0) == Ok
    ensures r.ok <==> AllOk(replies, 2)
  {
    var run := Chain(DisconnectSteps(value), replies);
    assert run.issued == [ControlTransferOut(LineState(value))] || run.issued == DisconnectSteps(value);
    run
  }

  /** ECMAScript's ToUint8 on an integer: the value modulo 256, never negative. */
  function ToUint8(x: int): (b: Byte)
    ensures (b - x) % 256 == 0
    ensures 0 <= x < 256 ==> b == x
  {
    x % 256
  }

  /** `Uint8Array.from(data)` for an array of integers: one byte per element,
      in order, each element taken modulo 256. */
  function ToBuffer(data: seq<int>): (b: seq<Byte>)
    ensures |b| == |data|
    ensures forall i :: 0 <= i < |data| ==> b[i] == ToUint8(data[i])
    decreases |data|
  {
    if |data| == 0 then [] else [ToUint8(data[0])] + ToBuffer(data[1..])
  }

  /** Levels already in 0..255 reach the buffer unchanged. */
  lemma {:induction false} ToBufferKeepsBytes(data: seq<int>)
    requires forall i :: 0 <= i < |data| ==> 0 <= data[i] < 256
    ensures ToBuffer(data) == data
  {
    var b := ToBuffer(data);
    assert forall i :: 0 <= i < |data| ==> b[i] == data[i];
  }

  /** Why an operation failed. */
  datatype Failure =
    | NotConnected     // an explicit guard in the code found no device
    | MissingDevice    // a method was called on a null/undefined device (TypeError)
    | TransportFailure // a device call reported failure
    | NoDeviceSelected // the device chooser was dismissed
    | InvalidValueType // an update value was neither an integer nor an array

  /** How an operation ended: its promise resolved or rejected, it threw before
      returning a promise, or it returned nothing at all. */
  datatype Settled = Resolved | Rejected(reason: Failure) | Thrown(reason: Failure) | Returned

  /** An operation's effect: the object's new fields, the calls it issued, and
      how it ended. */
  datatype Step<S> = Step(session: S, trace: seq<Command>, result: Settled)

  /** The promise a chain of device calls returns when nothing catches it. */
  function Propagated(run: Run): (s: Settled)
    ensures s == Resolved || s == Rejected(TransportFailure)
    ensures s == Resolved <==> run.ok
  {
    if run.ok then Resolved else Rejected(TransportFailure)
  }
}
