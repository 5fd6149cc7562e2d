/** The `WebUsbConnection` class of the documentation site: `enable` pairs and
    runs the whole handshake itself (ending with a read on endpoint 5), logs
    any failure and returns nothing; `disconnect` and `send` refuse a missing
    device by throwing. */
module Connection {
  import opened Optional
  import opened Usb

  /** The connection's one field: the device, absent while `null`. */
  datatype Session = Session(device: Option<Device>)

  /** The constructor: no device. */
  function Create(): (s: Session)
    ensures s.device.None?
  {
    Session(None)
  }

  /** The chain `enable` runs on the chosen device: the `connect` handshake,
      then a 512-byte read on endpoint 5. */
  function EnableSteps(d: Device): seq<Command>
  {
    ConnectSteps(d) + [TransferIn(InEndpoint, 512)]
  }

  /** `enable`: request a device with the Leonardo ETH filter; a chosen device
      is stored and then opened, configured if needed, claimed, told the host is
      present and read from, each call only if the one before succeeded. Every
      failure, a dismissed chooser included, is logged; nothing is returned. */
  function Enable(s: Session, chosen: Option<Device>, replies: seq<Reply>): (r: Step<Session>)
    ensures r.result == Returned
    ensures |r.trace| >= 1 && r.trace[0] == RequestDevice([Filter(0x2a03, 0x8040)])
    ensures chosen.None? ==> r.session == s && r.trace == [RequestDevice([Filter(0x2a03, 0x8040)])]
    ensures chosen.Some? ==>
              r.session.device == chosen
              && Executed(ConnectSteps(chosen.value) + [TransferIn(5, 512)], replies, r.trace[1..])
  {
    var request := RequestDevice([LeonardoEth]);
    match chosen
    case None => Step(s, [request], Returned)
    case Some(d) => Step(Session(Some(d)), [request] + Chain(EnableSteps(d), replies).issued, Returned)
  }

  /** With every call succeeding, `enable` on an unconfigured device issues the
      whole chain in order, ending with the read of 512 bytes on endpoint 5. */
  lemma EnableFullChain(d: Device, replies: seq<Reply>)
    requires !d.hasConfiguration && AllOk(replies, 5)
    ensures Enable(Create(), Some(d), replies).trace
            == [RequestDevice([Filter(0x2a03, 0x8040)]), Open, SelectConfiguration(1), ClaimInterface(2),
                ControlTransferOut(Setup("class", "interface", 0x22, 0x01, 0x02)), TransferIn(5, 512)]
  {
    var r := Enable(Create(), Some(d), replies);
    ExecutedAllOk(EnableSteps(d), replies, r.trace[1..]);
  }

  /** A failed `claimInterface` on a configured device stops the chain: no
      line-state request and no read follow it. */
  lemma EnableStopsAtClaim(d: Device, replies: seq<Reply>)
    requires d.hasConfiguration && AllOk(replies, 1) && Answer(replies, 1) == Fail
    ensures Enable(Create(), Some(d), replies).trace
            == [RequestDevice([Filter(0x2a03, 0x8040)]), Open, ClaimInterface(2)]
  {
    var r := Enable(Create(), Some(d), replies);
    ExecutedFirstFailure(EnableSteps(d), replies, r.trace[1..], 1);
  }

  /** `disconnect`: with no device it throws before any call; otherwise the
      line-state request with value 0x00 (host absent), then `close` only if
      that request succeeded. The device field is left as it is. */
  function Disconnect(s: Session, replies: seq<Reply>): (r: Step<Session>)
    ensures r.session == s
    ensures s.device.None? ==> r.trace == [] && r.result == Thrown(NotConnected)
    ensures s.device.Some? ==> Executed([ControlTransferOut(LineState(0x00)), Close], replies, r.trace)
    ensures s.device.Some? ==> (Close in r.trace <==> Answer(replies, 0) == Ok)
    ensures s.device.Some? ==> (r.result == Resolved <==> AllOk(replies, 2))
    ensures s.device.Some? && r.result != Resolved ==> r.result == Rejected(TransportFailure)
  {
    match s.device
    case None => Step(s, [], Thrown(NotConnected))
    case Some(_) =>
      var run := DisconnectRun(HostAbsent, replies);
      Step(s, run.issued, Propagated(run))
  }

  /** `send`: with no device it throws before any call; otherwise `data` goes
      out unchanged in one bulk transfer on endpoint 4. */
  function Send(s: Session, data: seq<Byte>, replies: seq<Reply>): (r: Step<Session>)
    ensures r.session == s
    ensures s.device.None? ==> r.trace == [] && r.result == Thrown(NotConnected)
    ensures s.device.Some? ==> r.trace == [TransferOut(4, data)]
    ensures s.device.Some? ==> (r.result == Resolved <==> Answer(replies, 0) == Ok)
    ensures s.device.Some? && r.result != Resolved ==> r.result == Rejected(TransportFailure)
  {
    match s.device
    case None => Step(s, [], Thrown(NotConnected))
    case Some(_) =>
      var out := TransferOut(OutEndpoint, data);
      Step(s, [out], Propagated(Chain([out], replies)))
  }
}
