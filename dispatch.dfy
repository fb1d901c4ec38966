/**
 * The main-thread dispatcher that routers enqueue work on. Only its queue
 * of pending actions is modelled: actions are appended in order and run
 * later, outside the operations that enqueue them.
 */
module Dispatch {
  class Dispatcher<A> {
    var queue: seq<A>

    constructor ()
      ensures queue == []
    {
      queue := [];
    }

    /** Appends one pending action at the back of the queue. */
    method Enqueue(action: A)
      modifies this`queue
      ensures queue == old(queue) + [action]
    {
      queue := queue + [action];
    }
  }
}
