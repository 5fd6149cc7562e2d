# WebUSB DMX512 controller — Dafny model

This project models the core of `webusb-dmx512-controller`. That JavaScript library lets a browser page pair with an
Arduino acting as a DMX512 bridge, hold a 512-channel lighting universe, and push that universe to the board over
WebUSB. Four near-duplicate classes make up the core:

- `Controller` in controller.js and its variant Controller.js. The two differ only in the default filter list and in
  the text of their error messages (for example the `autoConnect` rejection), which the model does not keep.
- `WebUsbDmx512Universe`, `WebUsbDmx512Controller` and `WebUsbConnection` under docs/.

Each class becomes a Dafny module of immutable datatypes. Each method becomes a pure function from (fields, oracle) to
(new fields, issued WebUSB calls, how the call settled):

| module | file | models |
|---|---|---|
| `JsArray` | js_array.dfy | `Array.prototype.splice` (negative start, clamped start and delete count) and `slice` |
| `Universe` | universe.dfy | the channel array, the splice-based write shared by every update, `WebUsbDmx512Universe` |
| `Usb` | usb.dfy | WebUSB commands, the reply oracle, the abort-on-first-failure `.then` chain, `Uint8Array.from` |
| `Controller` | controller.dfy | `Controller` (controller.js, Controller.js) |
| `Dmx512Controller` | dmx512_controller.dfy | `WebUsbDmx512Controller` |
| `Connection` | connection.dfy | `WebUsbConnection` |

The browser transport is an oracle. An operation receives the answers its device calls get, as a `seq<Reply>` of
`Ok`/`Fail`; the i-th call gets the i-th reply, and calls beyond the end succeed. The answers of `navigator.usb` calls
are parameters: `chosen: Option<Device>` is the result of `requestDevice` (`None` means the chooser was dismissed), and
`paired: seq<Device>` is the result of `getDevices`. Every call the code issues is recorded in the trace, in order.
`Settled` says how the operation ended:

- `Resolved` or `Rejected(f)`: the returned promise resolved or rejected.
- `Thrown(f)`: the call threw before returning a promise, as in a TypeError from `null.open()` or an explicit `throw`.
- `Returned`: the call returned nothing (`WebUsbConnection.enable`).

JavaScript's `null` and `undefined` device are both `None`; every guard in the code ends the same way for both.

Behaviour of the code worth knowing, all of it modelled as written:

- The code does no bounds checking. `splice` appends past the end, so a write past channel 512 lengthens the array
  (`Universe.WritePastEndGrows`). A channel of 0 or below counts back from the end: channel 0 writes slot 511
  (`Universe.NonPositiveChannelCountsFromEnd`).
- For channel >= 1 and a value writing k >= 1 slots, a 512-slot universe keeps 512 slots iff c-1+k <= 512
  (`Universe.LengthStaysIff`). Channel 0 with an integer also keeps the length, and an empty array changes nothing at
  any channel (`Universe.EmptyArrayLeavesUniverse`). The condition for every channel and value is
  `SpliceStart(len, c-1) + k <= len` (`Universe.Write`).
- `connect` never reports a handshake failure. The `.catch(console.log)` swallows it and the promise resolves.
- `disconnect` in controller.js, Controller.js and docs/WebUsbDmx512Controller.js sends line-state value 0x01, not 0x00.
  Only docs/WebUsbConnection.js sends 0x00.
- No `disconnect` clears the device field. A `send` after `disconnect` still issues a transfer
  (`Controller.SendAfterDisconnect`).
- `send` checks only that a device is bound, not that it was connected. docs/WebUsbDmx512Controller.js checks nothing;
  there a missing device is a TypeError.
- controller.js has two default filters; Controller.js and the docs files have one. tests/controller.test.js expects
  seven; the model follows the code.

## Model

| member | source | states |
|---|---|---|
| JsArray.Splice | docs/WebUsbDmx512Universe.js:13-15 | splice keeps the prefix before the normalised start, puts the items there in order, and shifts the suffix after the clamped deleted run |
| JsArray.SpliceKeepsLength | docs/WebUsbDmx512Universe.js:15 | replacing as many elements as are inserted keeps the length iff the run fits before the end |
| JsArray.Slice | docs/WebUsbDmx512Controller.js:81 | slice clamps both bounds to the length and is empty when begin is at or past the end |
| Universe.Write | docs/WebUsbDmx512Universe.js:10-17 | an update refuses exactly the non-integer non-array values; an integer at channel 1..len replaces slot c-1 only; an in-range array overwrites its run in order and nothing else; the length is kept iff the run fits; slots before the start never change |
| Universe.Create | docs/WebUsbDmx512Universe.js:2-4 | the supplied universe is used as given, otherwise 512 zeros |
| Universe.Update | docs/WebUsbDmx512Universe.js:6-23 | update resolves with the updated universe itself; an invalid value rejects and leaves the universe unmodified |
| Universe.WriteOverwritesRun | controller.js:200-205 | for any channel, an accepted value whose run fits overwrites exactly that run at the splice start |
| Universe.LengthStaysIff | docs/WebUsbDmx512Universe.js:15 | for channel >= 1 and a value writing at least one slot, 512 slots stay 512 iff channel-1+k <= 512 |
| Universe.WritePastEndGrows | docs/WebUsbDmx512Universe.js:14-15 | past channel 512 the levels are appended in order at the clamped start, the slots before it are kept, and the array grows |
| Universe.NonPositiveChannelCountsFromEnd | controller.js:200-203 | channel 0 or below writes slot len+channel-1, counted from the end |
| Universe.EmptyArrayLeavesUniverse | docs/WebUsbDmx512Universe.js:14-15 | an empty array leaves the universe unchanged at any channel |
| Universe.ChannelsFiveToSeven | controller.js:192-194 | update(5, [255, 0, 20]) sets channels 5, 6, 7 and leaves every other channel at 0 |
| Usb.FirstPaired | controller.js:70-76 | getPairedDevice gives the first paired device, or none iff the list is empty |
| Usb.Chain | controller.js:124-151 | a .then chain issues a prefix of its steps ending at the first failure (or all of them), and succeeds iff every step succeeds |
| Usb.ConnectSteps | controller.js:122-151 | the handshake is open, selectConfiguration(1) iff the device has no configuration, claimInterface(2), then control request 0x22 value 0x01 index 2 |
| Usb.ConnectRun | docs/WebUsbDmx512Controller.js:42-74 | on a bound device, connect issues the handshake up to and including the first failing call |
| Usb.DisconnectRun | docs/WebUsbConnection.js:58-66 | disconnect issues the line-state request, then close only if that succeeded, and succeeds iff both succeed |
| Usb.ToUint8 | controller.js:175 | a typed-array byte is the integer modulo 256 |
| Usb.ToBuffer | controller.js:175 | Uint8Array.from gives one byte per element, in order, each modulo 256 |
| Usb.ToBufferKeepsBytes | Controller.js:138 | levels already in 0..255 reach the buffer unchanged |
| Controller.New | controller.js:21-35 | the constructor keeps a supplied device, filters and universe verbatim; otherwise no device, the default filters and 512 zeros |
| Controller.Create | controller.js:26-31 | controller.js defaults to the two filters (0x2341, 0x8036) and (0x2a03, 0x8040) |
| Controller.CreateEth | Controller.js:8-20 | Controller.js defaults to the one filter (0x2a03, 0x8040), no device and 512 zeros |
| Controller.DefaultsAndSuppliedArgs | tests/controller.test.js:3-30 | the default device is undefined and the universe has 512 slots; supplied filters, universe and device are kept |
| Controller.Enable | controller.js:55-63 | enable requests a device with the controller's filters; a chosen device is stored, a dismissed chooser rejects and changes nothing |
| Controller.Connect | controller.js:122-154 | connect issues the handshake in order, stops at the first failure, and always resolves; with no device it throws before any call |
| Controller.AutoConnect | controller.js:91-110 | autoConnect stores the first paired device or undefined; with none it rejects after getDevices alone, otherwise it runs connect |
| Controller.Send | controller.js:165-182 | with no device send rejects and transfers nothing; otherwise it issues exactly one transfer on endpoint 4 with one byte per element, and follows that transfer |
| Controller.UpdateUniverse | controller.js:196-214 | an invalid value rejects with no change and no transfer; otherwise the universe is mutated and the whole universe is sent; with no device it rejects but the mutation stays |
| Controller.Disconnect | controller.js:227-246 | disconnect sends request 0x22 value 0x01 index 2, then close only if that succeeded; the device stays bound |
| Controller.UpdateSingleChannel | Controller.js:158-162 | an integer at channel 1..512 replaces exactly slot channel-1, and the length stays 512 |
| Controller.UpdateChannelRange | Controller.js:163-164 | an array ending by channel 512 overwrites its run in order and keeps the other slots and the length |
| Controller.ConnectUnconfigured | Controller.js:86-115 | with every call succeeding on an unconfigured device, connect issues exactly open, selectConfiguration(1), claimInterface(2), control(0x22, 0x01, 2) |
| Controller.ConnectOpenFails | Controller.js:86-117 | a failed open stops the chain after open and the error is swallowed |
| Controller.SendAfterDisconnect | Controller.js:182-201 | after disconnect the device is still bound, so send still issues a transfer |
| Controller.RedOnChannelOne | Controller.js:155-173 | after enable and connect, updateUniverse(1, [255, 0, 0]) transfers all 512 slots: 255, 0, 0 and then zeros |
| Dmx512Controller.Create | docs/WebUsbDmx512Controller.js:2-11 | the device starts null; the filters are the supplied ones, or else the one pair (0x2a03, 0x8040) |
| Dmx512Controller.Enable | docs/WebUsbDmx512Controller.js:18-25 | a chosen device is stored, a dismissed chooser rejects and changes nothing |
| Dmx512Controller.Connect | docs/WebUsbDmx512Controller.js:42-74 | the same ordered handshake, with abort on first failure, always resolving; with no device it throws |
| Dmx512Controller.AutoConnect | docs/WebUsbDmx512Controller.js:27-40 | devices[0] is stored and connect runs unconditionally; an empty list rejects with the TypeError and issues no device call |
| Dmx512Controller.Pad | docs/WebUsbDmx512Controller.js:80-81 | data shorter than 512 is followed by zeros up to exactly 512; longer data is unchanged |
| Dmx512Controller.Send | docs/WebUsbDmx512Controller.js:79-88 | one transfer on endpoint 4 of the padded data, max(len, 512) bytes long; with no device it throws and transfers nothing |
| Dmx512Controller.SendPadsShortData | docs/WebUsbDmx512Controller.js:80-87 | a short universe of byte levels goes out as 512 bytes: its levels, then zeros |
| Dmx512Controller.Disconnect | docs/WebUsbDmx512Controller.js:93-112 | request 0x22 value 0x01 index 2, then close only if that succeeded |
| Connection.Create | docs/WebUsbConnection.js:2-4 | the device starts null |
| Connection.Enable | docs/WebUsbConnection.js:6-52 | enable requests with the one filter (0x2a03, 0x8040), stores the chosen device, and runs handshake then transferIn(5, 512) with abort on first failure; it returns nothing and reports no failure |
| Connection.EnableFullChain | docs/WebUsbConnection.js:6-42 | with every call succeeding on an unconfigured device, the trace is requestDevice, open, selectConfiguration(1), claimInterface(2), control(0x22, 0x01, 2), transferIn(5, 512) |
| Connection.EnableStopsAtClaim | docs/WebUsbConnection.js:29-51 | a failed claimInterface stops the chain: no control request and no read follow |
| Connection.Disconnect | docs/WebUsbConnection.js:54-67 | with no device it throws before any call; otherwise request 0x22 value 0x00 index 2, then close only if that succeeded |
| Connection.Send | docs/WebUsbConnection.js:69-75 | with no device it throws before any call; otherwise one transfer of the data, unchanged, on endpoint 4 |

## Left out

- The WebUSB transport (`navigator.usb` and the device methods) is a browser API. It is the reply oracle and the
  `chosen`/`paired` parameters. A rejection of `getDevices` itself is not modelled.
- Promise timing and concurrent callers. Each operation is one sequential function, and callers run one at a time.
- `console.log` output and the `TextDecoder` logging of the bytes `transferIn` returns. A logged error is "swallowed,
  operation resolves".
- Error message texts. The model keeps only the kind of failure.
- `device.configuration` can change when the device is opened. The model treats it as a fixed device attribute read
  where the code reads it, after `open`.
- JavaScript values outside the model's types are not modelled: fractional or NaN channels, arrays holding
  non-integers, and a `send` argument that is not an array. Every update value that is neither an integer nor an array
  is the single case `Other`.
- Object identity is not modelled. `update` resolves with the same array object, and the model returns an equal value.
- Calling `new WebUsbDmx512Controller()` or `new WebUsbDmx512Universe()` without arguments throws. The model always
  passes an arguments record.
- Controller.DefaultsAndSuppliedArgs: does not state the test's seven-filter expectations. controller.js has two
  default filters, stated by Controller.Create.
- The demo pages, the docs index page and the webpack configurations are UI and build glue.
