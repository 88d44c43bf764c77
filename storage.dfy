/** The browser's local storage as the storefront reads it back: a key is
    absent, or holds a text that is empty, parses as JSON to a value of the
    expected shape, or fails to parse. */
module Storage {
  import opened Wrappers

  datatype Entry<T> = Parsed(value: T) | Unparsable | Blank

  /** The value a loader adopts from a key: the parsed value when the key
      holds a parsable non-empty text, and `default` otherwise. */
  function Restore<T>(slot: Option<Entry<T>>, default: T): (r: T)
    ensures (slot.Some? && slot.value.Parsed?) ==> r == slot.value.value
    ensures !(slot.Some? && slot.value.Parsed?) ==> r == default
  {
    match slot
    case Some(Parsed(v)) => v
    case _ => default
  }
}
