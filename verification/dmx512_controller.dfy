/** The `WebUsbDmx512Controller` class of the documentation site: the same
    pairing and handshake as `Controller`, no universe of its own, no guards on
    a missing device, and a `send` that pads its data to a full universe. */
module Dmx512Controller {
  import opened Optional
  import opened Usb
  import opened JsArray
  import Universe

  /** The controller's fields: the device (absent while `null` or `undefined`)
      and the filters offered when pairing. */
  datatype Session = Session(device: Option<Device>, filters: seq<Filter>)

  /** The constructor: no device; the supplied filters, or the Leonardo ETH alone. */
  function Create(filters: Option<seq<Filter>>): (s: Session)
    ensures s.device == None
    ensures filters.Some? ==> s.filters == filters.value
    ensures filters.None? ==> s.filters == [Filter(0x2a03, 0x8040)]
  {
    Session(None, filters.Or([LeonardoEth]))
  }

  /** `enable`: the chosen device becomes the controller's device; a dismissed
      chooser rejects and changes nothing. */
  function Enable(s: Session, chosen: Option<Device>): (r: Step<Session>)
    ensures r.trace == [RequestDevice(s.filters)]
    ensures r.session.filters == s.filters
    ensures chosen.Some? ==> r.session.device == chosen && r.result == Resolved
    ensures chosen.None? ==> r.session == s && r.result == Rejected(NoDeviceSelected)
  {
    match chosen
    case Some(d) => Step(s.(device := Some(d)), [RequestDevice(s.filters)], Resolved)
    case None => Step(s, [RequestDevice(s.filters)], Rejected(NoDeviceSelected))
  }

  /** `connect`: the same chain as `Controller.Connect`, failures logged and
      swallowed; with no device, `this.device.open()` throws a TypeError. */
  function Connect(s: Session, replies: seq<Reply>): (r: Step<Session>)
    ensures r.session == s
    ensures s.device.None? ==> r.trace == [] && r.result == Thrown(MissingDevice)
    ensures s.device.Some? ==> r.result == Resolved && Executed(ConnectSteps(s.device.value), replies, r.trace)
  {
    match s.device
    case None => Step(s, [], Thrown(MissingDevice))
    case Some(d) => Step(s, ConnectRun(d, replies), Resolved)
  }

  /** `autoconnect`: the first paired device replaces the controller's device
      and `connect` runs with no empty-list check, so with no paired device the
      TypeError thrown inside the `.then` callback rejects the promise. */
  function AutoConnect(s: Session, paired: seq<Device>, replies: seq<Reply>): (r: Step<Session>)
    ensures r.session == s.(device := FirstPaired(paired))
    ensures |r.trace| >= 1 && r.trace[0] == GetDevices
    ensures |paired| == 0 ==> r.trace == [GetDevices] && r.result == Rejected(MissingDevice)
    ensures |paired| > 0 ==> r.result == Resolved && Executed(ConnectSteps(paired[0]), replies, r.trace[1..])
  {
    var s' := s.(device := FirstPaired(paired));
    var c := Connect(s', replies);
    match c.result
    case Thrown(reason) => Step(s', [GetDevices] + c.trace, Rejected(reason))
    case _ => Step(s', [GetDevices] + c.trace, c.result)
  }

  /** `data.concat(new Array(512).fill(0).slice(data.length, 512))`: short data
      is followed by zeros up to 512 slots; data of 512 slots or more is left
      as it is, because the slice is then empty. */
  function Pad(data: seq<int>): (r: seq<int>)
    ensures |data| < Universe.Channels ==>
              && |r| == Universe.Channels && r[..|data|] == data
              && forall i :: |data| <= i < Universe.Channels ==> r[i] == 0
    ensures |data| >= Universe.Channels ==> r == data
  {
    var zeros := Universe.Zeros(Universe.Channels);
    var tail := Slice(zeros, |data|, Universe.Channels);
    assert |data| >= Universe.Channels ==> tail == [];
    data + tail
  }

  /** `send`: the padded data, as bytes, in one bulk transfer on endpoint 4;
      with no device the call throws a TypeError and nothing is transferred. */
  function Send(s: Session, data: seq<int>, replies: seq<Reply>): (r: Step<Session>)
    ensures r.session == s
    ensures s.device.None? ==> r.trace == [] && r.result == Thrown(MissingDevice)
    ensures s.device.Some? ==> r.trace == [TransferOut(4, ToBuffer(Pad(data)))]
    ensures s.device.Some? ==> |r.trace[0].data| == Max(|data|, 512)
    ensures s.device.Some? ==> (r.result == Resolved <==> Answer(replies, 0) == Ok)
    ensures s.device.Some? && r.result != Resolved ==> r.result == Rejected(TransportFailure)
  {
    match s.device
    case None => Step(s, [], Thrown(MissingDevice))
    case Some(_) =>
      var out := TransferOut(OutEndpoint, ToBuffer(Pad(data)));
      Step(s, [out], Propagated(Chain([out], replies)))
  }

  /** A short universe goes out as exactly 512 bytes: its levels, then zeros. */
  lemma SendPadsShortData(s: Session, data: seq<int>, replies: seq<Reply>)
    requires s.device.Some? && |data| < 512
    requires forall i :: 0 <= i < |data| ==> 0 <= data[i] < 256
    ensures var buffer := Send(s, data, replies).trace[0].data;
            && |buffer| == 512 && buffer[..|data|] == data
            && forall i :: |data| <= i < 512 ==> buffer[i] == 0
  {
    var padded := Pad(data);
    forall i | 0 <= i < |padded| ensures 0 <= padded[i] < 256 {
      if i < |data| {
        assert padded[i] == padded[..|data|][i];
      }
    }
    ToBufferKeepsBytes(padded);
  }

  /** `disconnect`: the line-state request with value 0x01, as written, then
      `close` only if it succeeded; with no device the call throws. */
  function Disconnect(s: Session, replies: seq<Reply>): (r: Step<Session>)
    ensures r.session == s
    ensures s.device.None? ==> r.trace == [] && r.result == Thrown(MissingDevice)
    ensures s.device.Some? ==> Executed([ControlTransferOut(LineState(0x01)), Close], replies, r.trace)
    ensures s.device.Some? ==> (Close in r.trace <==> Answer(replies, 0) == Ok)
    ensures s.device.Some? ==> (r.result == Resolved <==> AllOk(replies, 2))
    ensures s.device.Some? && r.result != Resolved ==> r.result == Rejected(TransportFailure)
  {
    match s.device
    case None => Step(s, [], Thrown(MissingDevice))
    case Some(_) =>
      var run := DisconnectRun(HostPresent, replies);
      Step(s, run.issued, Propagated(run))
  }
}
