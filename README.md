# Label stabiliser of the angles-to-detection node

The angles-to-detection node turns a classifier's score vector into one
inference per frame. It picks the first index holding the greatest score,
if that score exceeds the initial one; otherwise it keeps the initial
inference. When the `queue_size` option exceeds 1, it then smooths the
result with a majority vote over a trailing FIFO queue of recent inferences.

A call of the stabiliser (`mostFrequent`) does four things in order:

1. It appends the inference to the queue.
2. It clears the whole queue if a time-out is configured, the previous
   timestamp is nonzero, and the gap is at least the time-out. The new
   inference is cleared too.
3. It records the current timestamp.
4. If the queue has reached `queue_size`, it drops the front entry. It then
   rebuilds a per-label `{count, sum of scores}` map over the remaining
   entries, in arrival order. The record changes only on a strictly greater
   count. The inference becomes the record label with the mean of its scores.

Because the front is dropped before the vote, the vote runs over
`queue_size - 1` entries. Between calls the queue holds at most
`queue_size - 1` entries.

Modules:

- `Majority` (majority.dfy): the entry type; label counts and score sums;
  the voting loop as a pure scan (`Scan`, `Vote`) and as a loop over a map
  (`MajorityVote`); lemmas on the winner.
- `Classification` (classification.dfy): the argmax over the score vector,
  as a specification function (`Strongest`) and as a loop (`ArgMax`).
- `Stabilization` (stabilization.dfy): one call as a state transition
  (`Stabilize`); the `queue_size > 1` gate (`Step`); streams of calls
  (`Feed`) with lemmas over whole streams.
- `Calculator` (calculator.dfy): the node's mutable state as a class
  `Stabilizer`. Its fields are `queue` and `lastSeen`. `MostFrequent` and
  `Process` update those fields in place and are proved against
  `Stabilize` and `Step`.
- `Wrappers` (wrappers.dfy): `Option`, for the optional time-out.

Scores and timestamps are exact `real` values. Labels are `int`.

With `queue_size` 3, no time-out and inputs (1, 0.5), (1, 0.7), (2, 0.9),
(1, 0.6), the code drops the front before voting. The outputs are therefore
(1, 0.5), (1, 0.7), (1, 0.7), (2, 0.9). A vote over the whole queue would
instead give (1, 0.6) and (1, 0.65) for the last two.
`Stabilization.WorkedTrace` proves the former.

The code's order of append and time-out clear is kept as written: a call
that times out also discards its own inference. A previous timestamp of
exactly zero counts as "never seen".

## Model

| member | source | states |
|---|---|---|
| `Majority.Scan` | mediapipe/calculators/util/angles_to_detection_calculator.cc:163-192 | after scanning a window from an empty map, the map holds exactly the labels of the window, each with its true count and score sum; for a non-empty window the record label is in the map with the record count ≥ 1 |
| `Majority.Vote` | mediapipe/calculators/util/angles_to_detection_calculator.cc:207-209 | the voted label occurs in the window, and the voted score is the sum of that label's scores divided by its count, a positive count |
| `Majority.ScanRecord` | mediapipe/calculators/util/angles_to_detection_calculator.cc:194-197 | the record after the scan has the maximal count, and no label reaches that count in an earlier prefix than the record label |
| `Majority.VoteIsWinner` | mediapipe/calculators/util/angles_to_detection_calculator.cc:180-209 | the voted label is most frequent in the window and is the first label to reach that count in arrival order (tie-break by the strict `>`) |
| `Majority.WinnerIsUnique` | mediapipe/calculators/util/angles_to_detection_calculator.cc:194-197 | over a non-empty window at most one label is most frequent and first to reach its count, so the tie-break determines the result |
| `Majority.VoteStrictMajority` | mediapipe/calculators/util/angles_to_detection_calculator.cc:180-209 | a label that strictly outnumbers every other label in the window is the voted label |
| `Majority.MajorityVote` | mediapipe/calculators/util/angles_to_detection_calculator.cc:180-211 | the loop over a mutable label map and record returns exactly the vote of the window |
| `Classification.StrongestIsFirstMaximum` | mediapipe/calculators/util/angles_to_detection_calculator.cc:114-119 | no score exceeds the result. If some score exceeds the initial inference, the label is the first index holding the maximal score and every earlier score is strictly smaller. Otherwise the initial inference is returned unchanged |
| `Classification.ArgMax` | mediapipe/calculators/util/angles_to_detection_calculator.cc:111-119 | the in-place loop over the score vector returns the inference of `Strongest` |
| `Stabilization.Stabilize` | mediapipe/calculators/util/angles_to_detection_calculator.cc:166-213 | the timestamp is always recorded. A time-out leaves the queue empty and the inference raw. Below capacity the queue grows by the inference and the inference is raw. At capacity the queue is the old queue without its front plus the inference (FIFO), it is non-empty, and the output is its vote. The queue bound is kept |
| `Stabilization.Step` | mediapipe/calculators/util/angles_to_detection_calculator.cc:121-122 | with `queue_size` ≤ 1 the state is untouched and the inference passes through; the queue bound is kept either way |
| `Stabilization.FullQueueVotes` | mediapipe/calculators/util/angles_to_detection_calculator.cc:177-209 | on a bounded queue, the queue before a full-queue call held `queue_size - 1` entries, the new queue holds `queue_size - 1` entries, and the call emits a winner of that window with the mean of its scores |
| `Stabilization.ZeroTimestampNeverResets` | mediapipe/calculators/util/angles_to_detection_calculator.cc:168-173 | a previous timestamp of zero behaves as if no time-out were configured, so it never clears the queue: the queue ends the call non-empty |
| `Stabilization.DisabledPassesThrough` | mediapipe/calculators/util/angles_to_detection_calculator.cc:121-122 | over any stream with `queue_size` ≤ 1 every output equals its input and the state never changes |
| `Stabilization.BoundedAlongStream` | mediapipe/calculators/util/angles_to_detection_calculator.cc:166-178 | if the queue holds fewer than `queue_size` entries before a stream, it still does after it |
| `Stabilization.ShortStreamPassesThrough` | mediapipe/calculators/util/angles_to_detection_calculator.cc:166-177 | while queue length plus remaining stream length stays below `queue_size`, every output equals its input (e.g. any stream shorter than `queue_size` from the initial state) |
| `Stabilization.PairTieKeepsFirst` | mediapipe/calculators/util/angles_to_detection_calculator.cc:194-197 | in a two-entry window with different labels both reach count 1, and the earlier entry wins with its own score: a later equal count does not displace the record |
| `Stabilization.WorkedTrace` | mediapipe/calculators/util/angles_to_detection_calculator.cc:150-213 | `queue_size` 3, no time-out, inputs (1, 0.5), (1, 0.7), (2, 0.9), (1, 0.6) give outputs (1, 0.5), (1, 0.7), (1, 0.7), (2, 0.9) |
| `Calculator.Stabilizer.constructor` | mediapipe/calculators/util/angles_to_detection_calculator.cc:69-70 | a new node has an empty queue and a zero last-seen timestamp, which satisfies the queue bound |
| `Calculator.Stabilizer.MostFrequent` | mediapipe/calculators/util/angles_to_detection_calculator.cc:150-213 | the in-place update of queue and timestamp, and the returned inference, are those of `Stabilize` on the old state; the queue bound is preserved |
| `Calculator.Stabilizer.Process` | mediapipe/calculators/util/angles_to_detection_calculator.cc:111-122 | the argmax followed by the gate: state and output are those of `Step` on the strongest inference; with `queue_size` ≤ 1 nothing in the node changes |

## Left out

- Tensor access, the `Detection` and `LocationData` output with its fixed bounding box, and the output stream (lines 104-108, 125-147): host-framework I/O. The score vector is a parameter of `Process`.
- `GetContract`, `Open`, reading the options and node registration (lines 76-98): host-framework glue. The options are a constructor parameter.
- mediapipe/util/resource_util_android.cc is not part of this model: it is asset and file I/O only.
- Floating-point rounding of the score sum, the mean and the timestamp gap, and NaN comparisons: scores and timestamps are exact reals.
- The uninitialised `currentInference` (line 111) and `startingGestureTime` (line 70): replaced by the explicit `init` parameter and an initial timestamp of zero.
- `Calculator.Stabilizer.MostFrequent`: requires `queue_size > 1`, which its only caller checks. The model does not cover the comparison of the queue length with a negative `queue_size` after conversion to an unsigned size.
- 32-bit overflow of the per-label counts: counts are unbounded, and a window never holds more entries than `queue_size`.
- The `Process` timestamp is the input timestamp in seconds, supplied as a parameter.
