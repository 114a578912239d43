/** The event vocabulary exchanged between the host and the hosted module
    (dev-client-lib/src/host_api.rs), and the host's pending-event queue that
    backs the `poll_events` callback (the `EVENTS` deque of dev-client/src/main.rs). */
module HostApi {
  import opened Wrappers

  /** The four arrow keys the hosted module tracks. */
  datatype Key = Up | Down | Left | Right

  /** A domain input event. */
  datatype Event = ClearInputs | KeyPressed(key: Key) | KeyReleased(key: Key)

  /** The queue of events waiting to be polled by the hosted module. */
  class EventQueue {
    var items: seq<Event>

    constructor ()
      ensures items == []
    {
      items := [];
    }

    /** `poll_events`: removes and returns the front event, or None when the queue is empty. */
    method PollEvents() returns (e: Option<Event>)
      modifies this
      ensures old(items) == [] ==> e == None && items == []
      ensures old(items) != [] ==> e == Some(old(items)[0]) && items == old(items)[1..]
    {
      if items == [] {
        e := None;
      } else {
        e := Some(items[0]);
        items := items[1..];
      }
    }

    /** `push_back`: appends an event at the back of the queue. */
    method PushBack(e: Event)
      modifies this
      ensures items == old(items) + [e]
    {
      items := items + [e];
    }

    /** `clear`: discards every queued event. */
    method Clear()
      modifies this
      ensures items == []
    {
      items := [];
    }
  }
}
