/** The progress queue between the scan thread and the controller: an
    unbounded FIFO of status events with a non-blocking `get` (the
    `queue.Queue` of app.py, lines 42, 157, 182 and the `put` calls in
    `check_all_sockets`). */
module Channels {
  import opened Events

  datatype Option<T> = None | Some(value: T)

  class Channel {
    /** Events put and not yet taken, oldest first. */
    var items: seq<Event>

    constructor ()
      ensures items == []
    {
      items := [];
    }

    method Put(e: Event)
      modifies this
      ensures items == old(items) + [e]
    {
      items := items + [e];
    }

    /** `get(0)`: the oldest event, or `None` where Python raises `Empty`. */
    method Get() returns (r: Option<Event>)
      modifies this
      ensures old(items) == [] ==> r == None && items == []
      ensures old(items) != [] ==> r == Some(old(items)[0]) && items == old(items)[1..]
    {
      if items == [] {
        r := None;
      } else {
        r := Some(items[0]);
        items := items[1..];
      }
    }
  }
}
