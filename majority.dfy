/**
 * The majority vote that the stabiliser runs over its window: a per-label
 * map of occurrence counts and score sums, rebuilt from empty on every call,
 * and a record of the label whose count first became strictly greatest.
 */
module Majority {

  /** One classifier result: its confidence score and its class label. */
  datatype Entry = Entry(score: real, labelId: int)

  /** What the vote keeps per label: occurrences so far and the sum of their scores. */
  datatype Attr = Attr(count: nat, sumScores: real)

  /** The label currently holding the record, and its count. */
  datatype Record = Record(labelId: int, count: nat)

  /** The state of the voting loop: the per-label map and the record. */
  datatype Tally = Tally(attrs: map<int, Attr>, best: Record)

  /** Number of entries of `w` that carry label `l`. */
  function Count(w: seq<Entry>, l: int): (n: nat)
    ensures n <= |w|
  {
    if w == [] then 0
    else Count(w[..|w| - 1], l) + (if w[|w| - 1].labelId == l then 1 else 0)
  }

  /** Sum of the scores of the entries of `w` that carry label `l`. */
  function SumScores(w: seq<Entry>, l: int): (s: real)
    ensures Count(w, l) == 0 ==> s == 0.0
  {
    if w == [] then 0.0
    else SumScores(w[..|w| - 1], l) + (if w[|w| - 1].labelId == l then w[|w| - 1].score else 0.0)
  }

  /** One iteration of the voting loop: count the entry, then let its label
      take the record only if its count is now strictly greater. */
  function Visit(t: Tally, e: Entry): Tally
  {
    var attrs :=
      if e.labelId in t.attrs
      then t.attrs[e.labelId := Attr(t.attrs[e.labelId].count + 1, t.attrs[e.labelId].sumScores + e.score)]
      else t.attrs[e.labelId := Attr(1, e.score)];
    var best :=
      if attrs[e.labelId].count > t.best.count then Record(e.labelId, attrs[e.labelId].count) else t.best;
    Tally(attrs, best)
  }

  /** The loop state after visiting the entries of `w` in arrival order,
      starting from an empty map and a zero record. The map holds exactly
      the labels of `w`, each with its true count and score sum. */
  function Scan(w: seq<Entry>): (t: Tally)
    ensures forall l :: l in t.attrs <==> Count(w, l) > 0
    ensures forall l :: l in t.attrs ==> t.attrs[l] == Attr(Count(w, l), SumScores(w, l))
    ensures w == [] ==> t.best == Record(0, 0)
    ensures w != [] ==> t.best.labelId in t.attrs && t.best.count == t.attrs[t.best.labelId].count >= 1
  {
    if w == [] then Tally(map[], Record(0, 0))
    else Visit(Scan(w[..|w| - 1]), w[|w| - 1])
  }

  /** The stabilised inference of a non-empty window: the record label and
      the mean of that label's scores. */
  function Vote(w: seq<Entry>): (r: Entry)
    requires w != []
    ensures Count(w, r.labelId) >= 1
    ensures r.score == SumScores(w, r.labelId) / (Count(w, r.labelId) as real)
  {
    var t := Scan(w);
    Entry(t.attrs[t.best.labelId].sumScores / (t.best.count as real), t.best.labelId)
  }

  /** `l` wins the vote over `w`: no label occurs more often, and whenever a
      prefix of `w` already holds that many entries of some label, it already
      holds that many of `l` (no other label reaches the top count first). */
  ghost predicate IsWinner(w: seq<Entry>, l: int)
  {
    (forall k :: Count(w, k) <= Count(w, l)) &&
    (forall n, k :: 0 <= n <= |w| && Count(w[..n], k) >= Count(w, l) ==> Count(w[..n], l) >= Count(w, l))
  }

  /** A prefix never holds more entries of a label than the whole sequence. */
  lemma {:induction false} CountPrefix(w: seq<Entry>, n: nat, l: int)
    requires n <= |w|
    ensures Count(w[..n], l) <= Count(w, l)
  {
    if n < |w| {
      var p := w[..|w| - 1];
      assert p[..n] == w[..n];
      CountPrefix(p, n, l);
    } else {
      assert w[..n] == w;
    }
  }

  /** The record after a scan holds the most frequent label, and that label
      reached its count no later than any other label did. */
  lemma {:induction false} ScanRecord(w: seq<Entry>)
    ensures forall k :: Count(w, k) <= Scan(w).best.count
    ensures forall n, k :: 0 <= n <= |w| && Count(w[..n], k) >= Scan(w).best.count ==>
              Count(w[..n], Scan(w).best.labelId) >= Scan(w).best.count
  {
    if w != [] {
      var p, x := w[..|w| - 1], w[|w| - 1];
      var tp, t := Scan(p), Scan(w);
      ScanRecord(p);
      assert w[..|w|] == w;
      var c := Count(w, x.labelId);
      assert c == Count(p, x.labelId) + 1;
      forall k ensures Count(w, k) <= t.best.count {
        if k != x.labelId {
          assert Count(w, k) == Count(p, k);
        }
      }
      forall n, k | 0 <= n <= |w| && Count(w[..n], k) >= t.best.count
        ensures Count(w[..n], t.best.labelId) >= t.best.count
      {
        if n <= |p| {
          assert w[..n] == p[..n];
          CountPrefix(p, n, k);
          if c <= tp.best.count {
            assert t.best == tp.best;
          }
        }
      }
    }
  }

  /** The voted label wins the vote in the sense of IsWinner. */
  lemma VoteIsWinner(w: seq<Entry>)
    requires w != []
    ensures IsWinner(w, Vote(w).labelId)
  {
    ScanRecord(w);
  }

  /** At most one label wins the vote over a non-empty window, so the
      tie-break leaves no choice open. */
  lemma WinnerIsUnique(w: seq<Entry>, a: int, b: int)
    requires w != []
    requires IsWinner(w, a) && IsWinner(w, b)
    ensures a == b
  {
    var m := Count(w, a);
    assert w[..1] == [w[0]] && [w[0]][..0] == [];
    CountPrefix(w, 1, w[0].labelId);
    assert w[..|w|] == w;
    // the first prefix that holds m entries of a
    var n := 0;
    while Count(w[..n], a) < m
      invariant 0 <= n <= |w|
      invariant n > 0 ==> Count(w[..n - 1], a) < m
      decreases |w| - n
    {
      n := n + 1;
    }
    assert w[..n][..n - 1] == w[..n - 1];
    // b reached m by prefix n but not by prefix n - 1, and so did a:
    // the entry at n - 1 carries both labels
    assert Count(w[..n], b) >= m;
    assert Count(w[..n - 1], b) < m;
    assert w[n - 1].labelId == a && w[n - 1].labelId == b;
  }

  /** A label that strictly outnumbers every other label in the window is the one voted. */
  lemma VoteStrictMajority(w: seq<Entry>, l: int)
    requires w != []
    requires forall k :: k != l ==> Count(w, k) < Count(w, l)
    ensures Vote(w).labelId == l
  {
    VoteIsWinner(w);
  }

  /** The voting loop as the stabiliser runs it: a mutable map from label to
      count and score sum, and a record replaced only on a strictly greater count. */
  method MajorityVote(window: seq<Entry>) returns (r: Entry)
    requires window != []
    ensures r == Vote(window)
  {
    var trackInferences: map<int, Attr> := map[];
    var highest := Record(0, 0);
    for i := 0 to |window|
      invariant Tally(trackInferences, highest) == Scan(window[..i])
    {
      var c := window[i];
      assert window[..i + 1][..i] == window[..i];
      if c.labelId !in trackInferences {
        trackInferences := trackInferences[c.labelId := Attr(1, c.score)];
      } else {
        var a := trackInferences[c.labelId];
        trackInferences := trackInferences[c.labelId := Attr(a.count + 1, a.sumScores + c.score)];
      }
      if trackInferences[c.labelId].count > highest.count {
        highest := Record(c.labelId, trackInferences[c.labelId].count);
      }
    }
    assert window[..|window|] == window;
    r := Entry(trackInferences[highest.labelId].sumScores / (highest.count as real), highest.labelId);
  }
}
