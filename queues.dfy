/**
 * Python's `queue.Queue` as used by the generated feature bases: producers
 * `put` values at the back; the server framework takes them from the front.
 */
module Queues {

  class Queue<T> {
    /** The values waiting in the queue, oldest first. */
    var items: seq<T>

    constructor ()
      ensures items == []
    {
      items := [];
    }

    /** `Queue.put`: append at the back. */
    method Put(x: T)
      modifies this
      ensures items == old(items) + [x]
    {
      items := items + [x];
    }

    /** `Queue.get` once the queue holds a value: take the oldest one. */
    method Get() returns (x: T)
      requires items != []
      modifies this
      ensures x == old(items)[0] && items == old(items)[1..]
    {
      x := items[0];
      items := items[1..];
    }
  }
}
