/**
 * The label stabiliser as a state transition: a FIFO queue of inferences
 * and the timestamp of the previous call, a time-out that clears the queue,
 * eviction of the oldest entry once the queue is full, and the majority vote
 * over what remains.
 */
module Stabilization {
  import opened Wrappers
  import opened Majority

  /** Node options: the queue size and the optional time-out in seconds. */
  datatype Options = Options(queueSize: int, queueTimeOut: Option<real>)

  /** The stabiliser's state between calls. */
  datatype State = State(queue: seq<Entry>, lastSeen: real)

  /** The state after one call and the inference it emits. */
  datatype Outcome = Outcome(state: State, out: Entry)

  /** The state of a freshly opened node: an empty queue, timestamp zero. */
  const Initial: State := State([], 0.0)

  /** The time-out fires only when one is configured, the previous timestamp
      is nonzero, and the gap to the current timestamp reaches it. */
  predicate TimedOut(opts: Options, lastSeen: real, t: real)
  {
    opts.queueTimeOut.Some? && lastSeen != 0.0 && t - lastSeen >= opts.queueTimeOut.value
  }

  /** Between calls the queue holds fewer than queueSize entries (it is
      empty when stabilisation is disabled). */
  predicate Bounded(opts: Options, s: State)
  {
    |s.queue| < opts.queueSize || s.queue == []
  }

  /** One call of the stabiliser: append, clear on time-out, record the
      timestamp, and once the queue reaches queueSize drop its front and
      vote over the rest. */
  function Stabilize(opts: Options, s: State, e: Entry, t: real): (o: Outcome)
    requires opts.queueSize > 1
    ensures o.state.lastSeen == t
    ensures TimedOut(opts, s.lastSeen, t) ==> o.state.queue == [] && o.out == e
    ensures !TimedOut(opts, s.lastSeen, t) && |s.queue| + 1 < opts.queueSize ==>
              o.state.queue == s.queue + [e] && o.out == e
    ensures !TimedOut(opts, s.lastSeen, t) && |s.queue| + 1 >= opts.queueSize ==>
              o.state.queue == s.queue[1..] + [e] &&
              o.state.queue != [] && o.out == Vote(o.state.queue)
    ensures Bounded(opts, s) ==> Bounded(opts, o.state)
  {
    var appended := s.queue + [e];
    var queue := if TimedOut(opts, s.lastSeen, t) then [] else appended;
    if |queue| >= opts.queueSize then
      var window := queue[1..];
      Outcome(State(window, t), Vote(window))
    else
      Outcome(State(queue, t), e)
  }

  /** The node's gate: the stabiliser runs only when queueSize exceeds 1;
      otherwise the inference passes through and the state is untouched. */
  function Step(opts: Options, s: State, e: Entry, t: real): (o: Outcome)
    ensures opts.queueSize <= 1 ==> o == Outcome(s, e)
    ensures Bounded(opts, s) ==> Bounded(opts, o.state)
  {
    if opts.queueSize > 1 then Stabilize(opts, s, e, t) else Outcome(s, e)
  }

  /** A full-queue call emits the most frequent label of the new window,
      the first label to reach that count, with the mean of its scores. */
  lemma FullQueueVotes(opts: Options, s: State, e: Entry, t: real)
    requires opts.queueSize > 1 && Bounded(opts, s)
    requires !TimedOut(opts, s.lastSeen, t) && |s.queue| + 1 >= opts.queueSize
    ensures |s.queue| + 1 == opts.queueSize
    ensures var o := Stabilize(opts, s, e, t);
            |o.state.queue| == opts.queueSize - 1 &&
            IsWinner(o.state.queue, o.out.labelId) &&
            o.out.score == SumScores(o.state.queue, o.out.labelId) / (Count(o.state.queue, o.out.labelId) as real)
  {
    VoteIsWinner(Stabilize(opts, s, e, t).state.queue);
  }

  /** A previous timestamp of zero behaves as if no time-out were
      configured, so it never clears the queue: the queue ends the call
      non-empty. */
  lemma ZeroTimestampNeverResets(opts: Options, s: State, e: Entry, t: real)
    requires opts.queueSize > 1 && s.lastSeen == 0.0
    ensures Stabilize(opts, s, e, t) == Stabilize(opts.(queueTimeOut := None), s, e, t)
    ensures Stabilize(opts, s, e, t).state.queue != []
  {
  }

  /** One observation of the stream: the inference and its timestamp in seconds. */
  datatype Observation = Observation(entry: Entry, t: real)

  /** The state after a stream and the inferences emitted for it. */
  datatype Run = Run(state: State, outs: seq<Entry>)

  /** Feeding a stream through the node, one call per observation. */
  function Feed(opts: Options, s: State, obs: seq<Observation>): (r: Run)
    ensures |r.outs| == |obs|
    decreases |obs|
  {
    if obs == [] then Run(s, [])
    else
      var o := Step(opts, s, obs[0].entry, obs[0].t);
      var rest := Feed(opts, o.state, obs[1..]);
      Run(rest.state, [o.out] + rest.outs)
  }

  /** With queueSize at most 1 every inference passes through unchanged and
      the state is never touched. */
  lemma {:induction false} DisabledPassesThrough(opts: Options, s: State, obs: seq<Observation>)
    requires opts.queueSize <= 1
    ensures Feed(opts, s, obs).state == s
    ensures forall i :: 0 <= i < |obs| ==> Feed(opts, s, obs).outs[i] == obs[i].entry
    decreases |obs|
  {
    if obs != [] {
      DisabledPassesThrough(opts, s, obs[1..]);
      var r := Feed(opts, s, obs);
      forall i | 0 <= i < |obs| ensures r.outs[i] == obs[i].entry {
        if i > 0 {
          assert r.outs[i] == Feed(opts, s, obs[1..]).outs[i - 1];
        }
      }
    }
  }

  /** The queue bound holds after every call of a stream. */
  lemma {:induction false} BoundedAlongStream(opts: Options, s: State, obs: seq<Observation>)
    requires Bounded(opts, s)
    ensures Bounded(opts, Feed(opts, s, obs).state)
    decreases |obs|
  {
    if obs != [] {
      BoundedAlongStream(opts, Step(opts, s, obs[0].entry, obs[0].t).state, obs[1..]);
    }
  }

  /** While the queue cannot yet fill up, every inference passes through
      unchanged: in particular a stream from the initial state that is
      shorter than queueSize. */
  lemma {:induction false} ShortStreamPassesThrough(opts: Options, s: State, obs: seq<Observation>)
    requires |s.queue| + |obs| < opts.queueSize
    ensures forall i :: 0 <= i < |obs| ==> Feed(opts, s, obs).outs[i] == obs[i].entry
    decreases |obs|
  {
    if obs != [] {
      var o := Step(opts, s, obs[0].entry, obs[0].t);
      assert |o.state.queue| <= |s.queue| + 1;
      ShortStreamPassesThrough(opts, o.state, obs[1..]);
      var r := Feed(opts, s, obs);
      forall i | 0 <= i < |obs| ensures r.outs[i] == obs[i].entry {
        if i > 0 {
          assert r.outs[i] == Feed(opts, o.state, obs[1..]).outs[i - 1];
        }
      }
    }
  }

  /** Two entries with different labels tie at count 1; the earlier one
      keeps the record, with its own score. */
  lemma PairTieKeepsFirst(x: Entry, y: Entry)
    requires x.labelId != y.labelId
    ensures Vote([x, y]) == x
  {
    var w := [x, y];
    assert w[..|w| - 1] == [x] && [x][..0] == [];
    assert Scan(w).best == Record(x.labelId, 1);
  }

  /** queueSize 3, no time-out, inferences (label 1, 0.5), (1, 0.7),
      (2, 0.9), (1, 0.6) at times 0, 1, 2, 3: the first two pass through;
      the third votes over [(1, 0.7), (2, 0.9)] and keeps label 1; the
      fourth votes over [(2, 0.9), (1, 0.6)], where label 2 reaches count 1
      first and label 1's equal count does not displace it. */
  lemma WorkedTrace()
    ensures Feed(Options(3, None), Initial,
                 [Observation(Entry(0.5, 1), 0.0), Observation(Entry(0.7, 1), 1.0),
                  Observation(Entry(0.9, 2), 2.0), Observation(Entry(0.6, 1), 3.0)]).outs
            == [Entry(0.5, 1), Entry(0.7, 1), Entry(0.7, 1), Entry(0.9, 2)]
  {
    var opts := Options(3, None);
    var a, b, c, d := Entry(0.5, 1), Entry(0.7, 1), Entry(0.9, 2), Entry(0.6, 1);
    var o1, o2, o3, o4 := Observation(a, 0.0), Observation(b, 1.0), Observation(c, 2.0), Observation(d, 3.0);
    var s1, s2, s3, s4 := State([a], 0.0), State([a, b], 1.0), State([b, c], 2.0), State([c, d], 3.0);
    TraceSteps();
    FeedOne(opts, s3, o4);
    FeedCons(opts, s2, o3, [o4]);
    FeedCons(opts, s1, o2, [o3, o4]);
    FeedCons(opts, Initial, o1, [o2, o3, o4]);
  }

  /** The four calls of the worked trace, one at a time. */
  lemma TraceSteps()
    ensures var opts := Options(3, None);
            var a, b, c, d := Entry(0.5, 1), Entry(0.7, 1), Entry(0.9, 2), Entry(0.6, 1);
            Step(opts, Initial, a, 0.0) == Outcome(State([a], 0.0), a) &&
            Step(opts, State([a], 0.0), b, 1.0) == Outcome(State([a, b], 1.0), b) &&
            Step(opts, State([a, b], 1.0), c, 2.0) == Outcome(State([b, c], 2.0), b) &&
            Step(opts, State([b, c], 2.0), d, 3.0) == Outcome(State([c, d], 3.0), c)
  {
    var a, b, c, d := Entry(0.5, 1), Entry(0.7, 1), Entry(0.9, 2), Entry(0.6, 1);
    PairTieKeepsFirst(b, c);
    PairTieKeepsFirst(c, d);
    assert [a, b][1..] + [c] == [b, c];
    assert [b, c][1..] + [d] == [c, d];
  }

  /** Feeding a one-observation stream is one call. */
  lemma FeedOne(opts: Options, s: State, o: Observation)
    ensures Feed(opts, s, [o]) ==
            Run(Step(opts, s, o.entry, o.t).state, [Step(opts, s, o.entry, o.t).out])
  {
    assert [o][1..] == [];
  }

  /** Feeding a stream is one call followed by feeding the rest. */
  lemma FeedCons(opts: Options, s: State, o: Observation, rest: seq<Observation>)
    ensures var step := Step(opts, s, o.entry, o.t);
            Feed(opts, s, [o] + rest) ==
            Run(Feed(opts, step.state, rest).state, [step.out] + Feed(opts, step.state, rest).outs)
  {
    assert ([o] + rest)[1..] == rest;
  }
}
