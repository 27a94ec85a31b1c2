/**
 * One browser local-storage key holding a JSON record, seen through the
 * lenient parse the storefront applies to it: the key may be missing, hold
 * text that does not parse, or hold a parsed value.
 */
module Storage {
  import opened Wrappers

  datatype Cell<T> = Missing | Unparseable | Parsed(value: T) {

    /** The lenient read: anything but a parsed record reads as `None`, never as an error. */
    function Get(): (r: Option<T>)
      ensures r.Some? <==> Parsed?
      ensures r.Some? ==> r.value == value
    {
      if Parsed? then Some(value) else None
    }
  }
}
