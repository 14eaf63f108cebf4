/**
 * One key of the device's key-value store. The value is kept already
 * decoded (the JSON text and its parsing are outside the model); a read or a
 * write that fails is an explicit `ok == false` outcome that changes nothing.
 */
module Storage {
  import opened Wrappers

  class Slot<T> {
    const key: string
    /** `None` when the key has never been written. */
    var contents: Option<seq<T>>

    constructor (key: string, contents: Option<seq<T>>)
      ensures this.key == key && this.contents == contents
    {
      this.key := key;
      this.contents := contents;
    }

    /** `getItem(key)`: the stored value, or nothing when the key is absent or
        the read fails. */
    method Read(ok: bool) returns (r: Option<seq<T>>)
      ensures r.Some? <==> ok && contents.Some?
      ensures r.Some? ==> r.value == contents.value
    {
      r := if ok then contents else None;
    }

    /** `setItem(key, value)`: overwrites the slot, unless the write fails. */
    method Write(value: seq<T>, ok: bool)
      modifies this
      ensures contents == if ok then Some(value) else old(contents)
    {
      if ok {
        contents := Some(value);
      }
    }
  }
}
