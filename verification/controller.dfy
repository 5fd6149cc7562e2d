/** The `Controller` class of controller.js and its variant Controller.js. The
    two differ only in the default filter list and in error message wording,
    which is not modelled; every operation below is shared. */
module Controller {
  import opened Optional
  import opened Usb
  import Universe

  /** The controller's fields: the selected device (absent while `undefined`),
      the filters offered when pairing, and the DMX512 universe. */
  datatype Session = Session(device: Option<Device>, filters: seq<Filter>, universe: seq<int>)

  /** Constructor arguments; an absent field is one the caller left out (or gave
      a falsy value for). */
  datatype Args = Args(device: Option<Device>, filters: Option<seq<Filter>>, universe: Option<seq<int>>)

  /** The default filters of controller.js: Leonardo (0x2341, 0x8036) and
      Leonardo ETH (0x2a03, 0x8040). */
  const LeonardoFilters := [Filter(0x2341, 0x8036), LeonardoEth]

  /** The constructor, given the default filters of the variant. */
  function New(args: Args, defaults: seq<Filter>): (s: Session)
    ensures s.device == args.device
    ensures args.filters.Some? ==> s.filters == args.filters.value
    ensures args.filters.None? ==> s.filters == defaults
    ensures args.universe.Some? ==> s.universe == args.universe.value
    ensures args.universe.None? ==>
              |s.universe| == Universe.Channels && forall i :: 0 <= i < |s.universe| ==> s.universe[i] == 0
  {
    Session(args.device, args.filters.Or(defaults), Universe.Create(args.universe))
  }

  /** `new Controller(args)` in controller.js. */
  function Create(args: Args): (s: Session)
    ensures s.device == args.device
    ensures args.filters.None? ==> s.filters == [Filter(0x2341, 0x8036), Filter(0x2a03, 0x8040)]
    ensures args.filters.Some? ==> s.filters == args.filters.value
    ensures args.universe.Some? ==> s.universe == args.universe.value
    ensures args.universe.None? ==> s.universe == Universe.Zeros(512)
  {
    New(args, LeonardoFilters)
  }

  /** `new Controller(args)` in Controller.js: one default filter, the Leonardo ETH. */
  function CreateEth(args: Args): (s: Session)
    ensures s.device == args.device
    ensures args.filters.None? ==> s.filters == [Filter(0x2a03, 0x8040)]
    ensures args.filters.Some? ==> s.filters == args.filters.value
    ensures args.universe.Some? ==> s.universe == args.universe.value
    ensures args.universe.None? ==> s.universe == Universe.Zeros(512)
  {
    New(args, [LeonardoEth])
  }

  /** With no arguments the device is undefined and the universe is 512 zeros;
      supplied fields are kept as they are (the constructor tests). */
  lemma DefaultsAndSuppliedArgs(d: Device)
    ensures Create(Args(None, None, None)).device == None
    ensures |Create(Args(None, None, None)).universe| == 512
    ensures var s := Create(Args(Some(d), Some([]), Some(Universe.Zeros(512)[0 := 1])));
            s.filters == [] && s.universe[0] == 1 && s.device == Some(d)
  {
  }

  /** `enable`: ask the browser to choose a device matching the filters; the
      chosen device (if any) becomes the controller's device. A dismissed
      chooser rejects and leaves the device as it was. */
  function Enable(s: Session, chosen: Option<Device>): (r: Step<Session>)
    ensures r.trace == [RequestDevice(s.filters)]
    ensures r.session.filters == s.filters && r.session.universe == s.universe
    ensures chosen.Some? ==> r.session.device == chosen && r.result == Resolved
    ensures chosen.None? ==> r.session == s && r.result == Rejected(NoDeviceSelected)
  {
    match chosen
    case Some(d) => Step(s.(device := Some(d)), [RequestDevice(s.filters)], Resolved)
    case None => Step(s, [RequestDevice(s.filters)], Rejected(NoDeviceSelected))
  }

  /** `connect`: the open / configure / claim / line-state chain on the bound
      device. A failure stops the chain and is logged, so the promise resolves
      either way; with no device, `this.device.open()` throws a TypeError. */
  function Connect(s: Session, replies: seq<Reply>): (r: Step<Session>)
    ensures r.session == s
    ensures s.device.None? ==> r.trace == [] && r.result == Thrown(MissingDevice)
    ensures s.device.Some? ==> r.result == Resolved && Executed(ConnectSteps(s.device.value), replies, r.trace)
  {
    match s.device
    case None => Step(s, [], Thrown(MissingDevice))
    case Some(d) => Step(s, ConnectRun(d, replies), Resolved)
  }

  /** `autoConnect`: the first paired device always replaces the controller's
      device; with none the promise rejects before any device call, otherwise
      it resolves with `connect`. */
  function AutoConnect(s: Session, paired: seq<Device>, replies: seq<Reply>): (r: Step<Session>)
    ensures r.session == s.(device := FirstPaired(paired))
    ensures |r.trace| >= 1 && r.trace[0] == GetDevices
    ensures |paired| == 0 ==> r.trace == [GetDevices] && r.result == Rejected(NotConnected)
    ensures |paired| > 0 ==> r.result == Resolved && Executed(ConnectSteps(paired[0]), replies, r.trace[1..])
  {
    var s' := s.(device := FirstPaired(paired));
    match s'.device
    case None => Step(s', [GetDevices], Rejected(NotConnected))
    case Some(_) =>
      var c := Connect(s', replies);
      Step(s', [GetDevices] + c.trace, c.result)
  }

  /** `send`: with no device the promise rejects and nothing is transferred;
      otherwise the whole of `data`, converted to bytes, goes out in one bulk
      transfer on endpoint 4 and the promise follows that transfer. */
  function Send(s: Session, data: seq<int>, replies: seq<Reply>): (r: Step<Session>)
    ensures r.session == s
    ensures s.device.None? ==> r.trace == [] && r.result == Rejected(NotConnected)
    ensures s.device.Some? ==>
              && |r.trace| == 1 && r.trace[0].TransferOut? && r.trace[0].endpoint == 4
              && |r.trace[0].data| == |data|
              && (forall i :: 0 <= i < |data| ==> r.trace[0].data[i] == data[i] % 256)
    ensures s.device.Some? ==> (r.result == Resolved <==> Answer(replies, 0) == Ok)
    ensures s.device.Some? && r.result != Resolved ==> r.result == Rejected(TransportFailure)
  {
    match s.device
    case None => Step(s, [], Rejected(NotConnected))
    case Some(_) => Step(s, [TransferOut(OutEndpoint, ToBuffer(data))], Propagated(Chain([TransferOut(OutEndpoint, ToBuffer(data))], replies)))
  }

  /** `updateUniverse`: splice the value into the universe and send the whole
      universe; a value that is neither an integer nor an array rejects with no
      change and no transfer. The mutation stays even when the send rejects. */
  function UpdateUniverse(s: Session, channel: int, value: Universe.Value, replies: seq<Reply>): (r: Step<Session>)
    ensures r.session.device == s.device && r.session.filters == s.filters
    ensures value.Other? ==> r.session == s && r.trace == [] && r.result == Rejected(InvalidValueType)
    ensures !value.Other? ==> Universe.Write(s.universe, channel, value) == Some(r.session.universe)
    ensures !value.Other? && s.device.None? ==> r.trace == [] && r.result == Rejected(NotConnected)
    ensures !value.Other? && s.device.Some? ==>
              && r.trace == [TransferOut(4, ToBuffer(r.session.universe))]
              && (r.result == Resolved <==> Answer(replies, 0) == Ok)
              && (r.result != Resolved ==> r.result == Rejected(TransportFailure))
  {
    match Universe.Write(s.universe, channel, value)
    case None => Step(s, [], Rejected(InvalidValueType))
    case Some(u) =>
      var sent := Send(s.(universe := u), u, replies);
      Step(s.(universe := u), sent.trace, sent.result)
  }

  /** `disconnect`: the line-state request, sent with value 0x01 as the code
      has it (not 0x00), then `close` only if that request succeeded. The
      device field is left bound. */
  function Disconnect(s: Session, replies: seq<Reply>): (r: Step<Session>)
    ensures r.session == s
    ensures s.device.None? ==> r.trace == [] && r.result == Thrown(MissingDevice)
    ensures s.device.Some? ==> Executed([ControlTransferOut(LineState(0x01)), Close], replies, r.trace)
    ensures s.device.Some? ==> (Close in r.trace <==> Answer(replies, 0) == Ok)
    ensures s.device.Some? ==> (r.result == Resolved <==> AllOk(replies, 2))
    ensures s.device.Some? && r.result != Resolved ==> r.result == Rejected(TransportFailure)
  {
    match s.device
    case None => Step(s, [], Thrown(MissingDevice))
    case Some(_) =>
      var run := DisconnectRun(HostPresent, replies);
      Step(s, run.issued, Propagated(run))
  }

  /** An integer aimed at a channel in 1..512 replaces exactly that slot of a
      512-slot universe. */
  lemma UpdateSingleChannel(s: Session, channel: int, level: int, replies: seq<Reply>)
    requires |s.universe| == Universe.Channels && 1 <= channel <= Universe.Channels
    ensures var r := UpdateUniverse(s, channel, Universe.Single(level), replies);
            && r.session.universe == s.universe[channel - 1 := level]
            && |r.session.universe| == Universe.Channels
  {
  }

  /** An array whose run ends by channel 512 overwrites that run, in order, and
      keeps every other slot and the length. */
  lemma UpdateChannelRange(s: Session, channel: int, levels: seq<int>, replies: seq<Reply>)
    requires |s.universe| == Universe.Channels
    requires 1 <= channel && channel - 1 + |levels| <= Universe.Channels
    ensures var r := UpdateUniverse(s, channel, Universe.Multi(levels), replies);
            Universe.Overwrites(s.universe, channel - 1, levels, r.session.universe)
  {
  }

  /** With a device that has no configuration and every call succeeding,
      `connect` issues exactly open, selectConfiguration(1), claimInterface(2)
      and the host-present request, in that order. */
  lemma ConnectUnconfigured(s: Session, replies: seq<Reply>)
    requires s.device.Some? && !s.device.value.hasConfiguration && AllOk(replies, 4)
    ensures Connect(s, replies).trace
            == [Open, SelectConfiguration(1), ClaimInterface(2),
                ControlTransferOut(Setup("class", "interface", 0x22, 0x01, 0x02))]
  {
    ExecutedAllOk(ConnectSteps(s.device.value), replies, Connect(s, replies).trace);
  }

  /** When `open` fails nothing else is issued and the error is swallowed. */
  lemma ConnectOpenFails(s: Session, replies: seq<Reply>)
    requires s.device.Some? && Answer(replies, 0) == Fail
    ensures Connect(s, replies).trace == [Open]
    ensures Connect(s, replies).result == Resolved
  {
    ExecutedFirstFailure(ConnectSteps(s.device.value), replies, Connect(s, replies).trace, 0);
  }

  /** `disconnect` leaves the device bound, so a later `send` still issues a
      transfer instead of rejecting with no device. */
  lemma SendAfterDisconnect(s: Session, data: seq<int>, replies: seq<Reply>, later: seq<Reply>)
    requires s.device.Some?
    ensures var d := Disconnect(s, replies);
            && d.session.device == s.device
            && |Send(d.session, data, later).trace| == 1
            && Send(d.session, data, later).trace[0].TransferOut?
  {
  }

  /** From a fresh Controller.js controller: pair a device, connect, then set channels 1..3 to
      (255, 0, 0). The transfer carries all 512 slots: the three levels followed
      by 509 zeros. */
  lemma RedOnChannelOne(d: Device, connectReplies: seq<Reply>, sendReplies: seq<Reply>)
    ensures var s0 := CreateEth(Args(None, None, None));
            var s1 := Enable(s0, Some(d)).session;
            var s2 := Connect(s1, connectReplies).session;
            var r := UpdateUniverse(s2, 1, Universe.Multi([255, 0, 0]), sendReplies);
            && |r.trace| == 1 && r.trace[0].endpoint == 4
            && |r.trace[0].data| == 512
            && r.trace[0].data[..3] == [255, 0, 0]
            && forall i :: 3 <= i < 512 ==> r.trace[0].data[i] == 0
  {
    var s0 := CreateEth(Args(None, None, None));
    assert s0.universe == Universe.Zeros(512);
    var s1 := Enable(s0, Some(d)).session;
    assert s1.device == Some(d) && s1.universe == s0.universe;
    var s2 := Connect(s1, connectReplies).session;
    assert s2 == s1;
    UpdateChannelRange(s2, 1, [255, 0, 0], sendReplies);
    var r := UpdateUniverse(s2, 1, Universe.Multi([255, 0, 0]), sendReplies);
    var u := r.session.universe;
    assert r.trace == [TransferOut(4, ToBuffer(u))];
    var data := ToBuffer(u);
    assert data[..3] == [data[0], data[1], data[2]];
  }
}
