/**
 * `AnalogOutChannelControllerBase`: the generated base of the analog output
 * feature keeps one producer queue for the `Value` property; an update goes
 * to the queue a subscription handed out, or to the producer queue.
 */
module AnalogOut {
  import Queues

  class AnalogOutChannelControllerBase {
    /** `_Value_producer_queue` */
    var producerQueue: Queues.Queue<real>

    /** `__init__`: a fresh, empty producer queue. */
    constructor ()
      ensures fresh(producerQueue) && producerQueue.items == []
    {
      producerQueue := new Queues.Queue<real>();
    }

    /**
     * `update_Value(Value, queue)`: a given queue (every `Queue` object is
     * truthy) receives the value at its back; without one, the producer
     * queue does.
     */
    method UpdateValue(value: real, queue: Queues.Queue?<real>)
      modifies if queue == null then producerQueue else queue
      ensures producerQueue == old(producerQueue)
      ensures queue == null ==> producerQueue.items == old(producerQueue.items) + [value]
      ensures queue != null ==> queue.items == old(queue.items) + [value]
      ensures queue != null && queue != producerQueue ==> producerQueue.items == old(producerQueue.items)
    {
      if queue != null {
        queue.Put(value);
      } else {
        producerQueue.Put(value);
      }
    }

    /** The default `Value_on_subscription` hands out no queue, so updates go to the producer queue. */
    method ValueOnSubscription() returns (queue: Queues.Queue?<real>)
      ensures queue == null
    {
      queue := null;
    }
  }

  /** Two updates without a queue come out of a fresh producer queue in the order they were made. */
  method UpdatesComeOutInOrder(a: real, b: real) returns (first: real, second: real)
    ensures first == a && second == b
  {
    var base := new AnalogOutChannelControllerBase();
    base.UpdateValue(a, null);
    base.UpdateValue(b, null);
    first := base.producerQueue.Get();
    second := base.producerQueue.Get();
  }
}
