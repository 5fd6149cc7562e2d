/** An optional value: stands in for JavaScript's `null`/`undefined` wherever the
    controllers keep "a device, or nothing". */
module Optional {

  datatype Option<T> = None | Some(value: T) {

    /** JavaScript's `x || fallback` on a field that is either given or left
        out: the given value, otherwise the fallback. */
    function Or(fallback: T): (r: T)
      ensures Some? ==> r == value
      ensures None? ==> r == fallback
    {
      if Some? then value else fallback
    }
  }
}
