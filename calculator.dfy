/**
 * The part of the angles-to-detection node that keeps state between
 * frames: the inference queue and the last-seen timestamp, updated in place
 * by each call, with the options fixed when the node is opened.
 */
module Calculator {
  import opened Majority
  import opened Classification
  import opened Stabilization

  class Stabilizer {
    var queue: seq<Entry>
    var lastSeen: real
    const options: Options

    /** The abstract value of the node's mutable state. */
    ghost function Snapshot(): State
      reads this
    {
      State(queue, lastSeen)
    }

    /** The queue bound that every call keeps. */
    ghost predicate Valid()
      reads this
    {
      Bounded(options, Snapshot())
    }

    /** Opening the node: empty queue, timestamp zero. */
    constructor (options: Options)
      ensures this.options == options
      ensures Snapshot() == Initial && Valid()
    {
      this.options := options;
      queue := [];
      lastSeen := 0.0;
    }

    /** Append the inference, clear the queue on time-out, record the
        timestamp, and once the queue is full drop its front and replace the
        inference by the majority vote over the remaining entries. */
    method MostFrequent(currentInference: Entry, currGestureTime: real) returns (out: Entry)
      requires options.queueSize > 1
      modifies this
      ensures Outcome(Snapshot(), out) == Stabilize(options, old(Snapshot()), currentInference, currGestureTime)
      ensures old(Valid()) ==> Valid()
    {
      queue := queue + [currentInference];
      if options.queueTimeOut.Some? && lastSeen != 0.0 {
        if currGestureTime - lastSeen >= options.queueTimeOut.value {
          queue := [];
        }
      }
      lastSeen := currGestureTime;
      out := currentInference;
      if |queue| >= options.queueSize {
        queue := queue[1..];
        out := MajorityVote(queue);
      }
    }

    /** One frame: pick the strongest score from `init`, then stabilise it
        when queueSize exceeds 1; otherwise nothing in the node changes. */
    method Process(scores: seq<real>, init: Entry, t: real) returns (out: Entry)
      modifies this
      ensures Outcome(Snapshot(), out) == Step(options, old(Snapshot()), Strongest(scores, init), t)
      ensures options.queueSize <= 1 ==> out == Strongest(scores, init) && unchanged(this)
      ensures old(Valid()) ==> Valid()
    {
      out := ArgMax(scores, init);
      if options.queueSize > 1 {
        out := MostFrequent(out, t);
      }
    }
  }
}
