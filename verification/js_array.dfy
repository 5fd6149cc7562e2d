/** The two `Array.prototype` operations the controllers rely on, `splice` and
    `slice`, with the index normalisation ECMAScript gives them. */
module JsArray {

  function Min(a: int, b: int): int { if a <= b then a else b }

  function Max(a: int, b: int): int { if a <= b then b else a }

  /** Where `splice(start, ...)` begins on an array of length `len`: a negative
      start counts back from the end and stops at 0, any other start is clamped
      to the length. */
  function SpliceStart(len: nat, start: int): (s: nat)
    ensures s <= len
  {
    if start < 0 then Max(len + start, 0) else Min(start, len)
  }

  /** How many elements `splice` removes from position `s`: the requested count,
      floored at 0 and clamped to what is left after `s`. */
  function SpliceDeleteCount(len: nat, s: nat, deleteCount: int): (d: nat)
    requires s <= len
    ensures s + d <= len
  {
    Min(Max(deleteCount, 0), len - s)
  }

  /** The array `splice(start, deleteCount, ...items)` leaves behind: the prefix
      before the start is kept, the removed run is replaced by `items` in order,
      and the remaining suffix follows, shifted by the change in length. */
  function Splice<T>(a: seq<T>, start: int, deleteCount: int, items: seq<T>): (r: seq<T>)
    ensures var s := SpliceStart(|a|, start);
            var d := SpliceDeleteCount(|a|, s, deleteCount);
            && |r| == |a| - d + |items|
            && (forall i :: 0 <= i < s ==> r[i] == a[i])
            && (forall j :: 0 <= j < |items| ==> r[s + j] == items[j])
            && (forall i :: s + d <= i < |a| ==> r[i - d + |items|] == a[i])
  {
    var s := SpliceStart(|a|, start);
    var d := SpliceDeleteCount(|a|, s, deleteCount);
    a[..s] + items + a[s + d..]
  }

  /** Replacing exactly as many elements as are inserted keeps the length if and
      only if the whole run fits before the end of the array. */
  lemma SpliceKeepsLength<T>(a: seq<T>, start: int, items: seq<T>)
    ensures |Splice(a, start, |items|, items)| == |a|
        <==> SpliceStart(|a|, start) + |items| <= |a|
  {
  }

  /** `slice(begin, end)` for non-negative bounds: both are clamped to the
      length, and an empty array results when the clamped begin is not before
      the clamped end. */
  function Slice<T>(a: seq<T>, begin: nat, end: nat): (r: seq<T>)
    ensures |r| == Max(Min(end, |a|) - Min(begin, |a|), 0)
    ensures forall i :: 0 <= i < |r| ==> r[i] == a[begin + i]
  {
    var b := Min(begin, |a|);
    var e := Min(end, |a|);
    if b < e then a[b..e] else []
  }
}
