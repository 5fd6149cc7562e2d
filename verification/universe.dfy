/** The DMX512 universe: an array of channel levels, channel `c` stored at index
    `c - 1`, updated by `splice` as `WebUsbDmx512Universe.update` and
    `Controller.updateUniverse` do it. Nothing here checks bounds: a write past
    the last channel lengthens the array, and a channel of 0 or below counts
    back from the end. */
module Universe {
  import opened Optional
  import opened JsArray

  /** Channels in one DMX512 universe. */
  const Channels := 512

  /** The `value` argument of an update: an integer, an array of integers, or
      anything else (a fractional number, a string, `undefined`, ...). */
  datatype Value = Single(level: int) | Multi(levels: seq<int>) | Other

  /** Number of slots a value writes (and deletes) when it is accepted. */
  function Width(value: Value): nat
  {
    match value
    case Single(_) => 1
    case Multi(levels) => |levels|
    case Other => 0
  }

  /** `new Array(n).fill(0)`. */
  function Zeros(n: nat): (r: seq<int>)
    ensures |r| == n
    ensures forall i :: 0 <= i < n ==> r[i] == 0
  {
    seq(n, _ => 0)
  }

  /** `u` after `levels` has been written over consecutive slots starting at
      index `at`, with every other slot and the length unchanged. */
  ghost predicate Overwrites(u: seq<int>, at: int, levels: seq<int>, r: seq<int>)
  {
    && |r| == |u|
    && 0 <= at && at + |levels| <= |u|
    && (forall j :: 0 <= j < |levels| ==> r[at + j] == levels[j])
    && (forall i :: 0 <= i < |u| && !(at <= i < at + |levels|) ==> r[i] == u[i])
  }

  /** The mutation shared by `WebUsbDmx512Universe.update` and
      `Controller.updateUniverse`: a 1-based channel
      becomes the splice start `channel - 1`; an integer replaces one slot, an
      array replaces as many slots as it has elements, and any other value is
      refused (`None`) with nothing written. */
  function Write(u: seq<int>, channel: int, value: Value): (r: Option<seq<int>>)
    ensures r.None? <==> value.Other?
    ensures r.Some? ==>
              (|r.value| == |u| <==> SpliceStart(|u|, channel - 1) + Width(value) <= |u|)
    ensures r.Some? ==> SpliceStart(|u|, channel - 1) <= |r.value|
    ensures r.Some? ==>
              forall i :: 0 <= i < SpliceStart(|u|, channel - 1) ==> r.value[i] == u[i]
    ensures value.Single? && 1 <= channel <= |u| ==> r == Some(u[channel - 1 := value.level])
    ensures value.Multi? && 1 <= channel && channel - 1 + |value.levels| <= |u| ==>
              r.Some? && Overwrites(u, channel - 1, value.levels, r.value)
  {
    match value
    case Single(level) =>
      var w := Splice(u, channel - 1, 1, [level]);
      assert 1 <= channel <= |u| ==> w == u[channel - 1 := level];
      Some(w)
    case Multi(levels) => Some(Splice(u, channel - 1, |levels|, levels))
    case Other => None
  }

  /** What `update` settles with: the updated array itself, or a rejection. */
  datatype UpdateResult = Resolved(snapshot: seq<int>) | Rejected

  /** The universe object after an update, with how the returned promise settled. */
  datatype Updated = Updated(universe: seq<int>, result: UpdateResult)

  /** The `WebUsbDmx512Universe` constructor: the supplied array, used as it is,
      or 512 zeros. */
  function Create(supplied: Option<seq<int>>): (u: seq<int>)
    ensures supplied.Some? ==> u == supplied.value
    ensures supplied.None? ==> |u| == Channels && forall i :: 0 <= i < Channels ==> u[i] == 0
  {
    supplied.Or(Zeros(Channels))
  }

  /** `WebUsbDmx512Universe.update`: a pure in-memory mutation that resolves with
      the universe array itself, or rejects and leaves the array as it was. */
  function Update(u: seq<int>, channel: int, value: Value): (r: Updated)
    ensures r.result.Rejected? <==> value.Other?
    ensures r.result.Rejected? ==> r.universe == u
    ensures r.result.Resolved? ==>
              r.result.snapshot == r.universe && Write(u, channel, value) == Some(r.universe)
  {
    match Write(u, channel, value)
    case Some(w) => Updated(w, Resolved(w))
    case None => Updated(u, Rejected)
  }

  /** For a channel in 1..512 and a value that writes at least one slot, a
      512-slot universe keeps its length exactly when the written run ends at or
      before channel 512. */
  lemma LengthStaysIff(u: seq<int>, channel: int, value: Value)
    requires |u| == Channels && 1 <= channel
    requires Width(value) >= 1
    ensures Write(u, channel, value).Some?
    ensures |Write(u, channel, value).value| == Channels <==> channel - 1 + Width(value) <= Channels
  {
    var s := SpliceStart(|u|, channel - 1);
    if channel - 1 <= Channels {
      assert s == channel - 1;
    } else {
      assert s == Channels;
    }
  }

  /** The levels a value writes: one for an integer, all of them for an array. */
  function Levels(value: Value): (levels: seq<int>)
    ensures |levels| == Width(value)
  {
    match value
    case Single(level) => [level]
    case Multi(levels) => levels
    case Other => []
  }

  /** An accepted value is spliced in at `channel - 1`, deleting as many slots
      as it writes. */
  lemma WriteIsSplice(u: seq<int>, channel: int, value: Value)
    requires !value.Other?
    ensures Write(u, channel, value) == Some(Splice(u, channel - 1, Width(value), Levels(value)))
  {
  }

  /** Whatever the channel, an accepted value whose run fits before the end of
      the array overwrites that run at the splice start, in order, and nothing
      else: the other slots and the length stay as they were. */
  lemma WriteOverwritesRun(u: seq<int>, channel: int, value: Value)
    requires !value.Other?
    requires SpliceStart(|u|, channel - 1) + Width(value) <= |u|
    ensures Write(u, channel, value).Some?
    ensures Overwrites(u, SpliceStart(|u|, channel - 1), Levels(value), Write(u, channel, value).value)
  {
    var s := SpliceStart(|u|, channel - 1);
    var levels := Levels(value);
    assert SpliceDeleteCount(|u|, s, |levels|) == |levels|;
    WriteIsSplice(u, channel, value);
  }

  /** A write that runs past channel 512 lengthens the array: the levels land,
      in order, at the clamped start, the slots before it are kept, and nothing
      of the old array follows them. */
  lemma WritePastEndGrows(u: seq<int>, channel: int, value: Value)
    requires 1 <= channel && Width(value) >= 1
    requires channel - 1 + Width(value) > |u|
    ensures Write(u, channel, value).Some?
    ensures |Write(u, channel, value).value| == Min(channel - 1, |u|) + Width(value) > |u|
    ensures Write(u, channel, value).value[..Min(channel - 1, |u|)] == u[..Min(channel - 1, |u|)]
    ensures Write(u, channel, value).value[Min(channel - 1, |u|)..] == Levels(value)
  {
    var s := Min(channel - 1, |u|);
    var levels := Levels(value);
    assert SpliceStart(|u|, channel - 1) == s;
    assert SpliceDeleteCount(|u|, s, |levels|) == |u| - s;
    WriteIsSplice(u, channel, value);
    var r := Splice(u, channel - 1, |levels|, levels);
    assert r == u[..s] + levels + u[|u|..];
    assert r == u[..s] + levels;
  }

  /** A channel of 0 or below counts back from the end: channel 0 writes the
      last slot, channel -1 the one before it, and the length is kept. */
  lemma NonPositiveChannelCountsFromEnd(u: seq<int>, channel: int, level: int)
    requires channel <= 0 && 0 <= |u| + channel - 1
    ensures Write(u, channel, Single(level)) == Some(u[|u| + channel - 1 := level])
  {
    var r := Write(u, channel, Single(level)).value;
    var k := |u| + channel - 1;
    assert SpliceStart(|u|, channel - 1) == k;
    assert r == u[k := level];
  }

  /** An empty array deletes nothing and inserts nothing, wherever it is aimed. */
  lemma EmptyArrayLeavesUniverse(u: seq<int>, channel: int)
    ensures Write(u, channel, Multi([])) == Some(u)
  {
    var r := Write(u, channel, Multi([])).value;
    assert r == u;
  }

  /** The documented example: `update(5, [255, 0, 20])` sets channels 5, 6 and 7
      of a zeroed universe and nothing else. */
  lemma ChannelsFiveToSeven()
    ensures Update(Zeros(Channels), 5, Multi([255, 0, 20])).result.Resolved?
    ensures var u := Update(Zeros(Channels), 5, Multi([255, 0, 20])).universe;
            && |u| == Channels && u[4] == 255 && u[5] == 0 && u[6] == 20
            && forall i :: 0 <= i < Channels && !(4 <= i < 7) ==> u[i] == 0
  {
    var r := Write(Zeros(Channels), 5, Multi([255, 0, 20]));
    assert Overwrites(Zeros(Channels), 4, [255, 0, 20], r.value);
  }
}
