/**
 * Turning the classifier's score vector into one inference: the first
 * index holding the greatest score, if that score exceeds the score of the
 * initial inference; otherwise the initial inference.
 */
module Classification {
  import opened Majority

  /** The inference after scanning `scores` in index order from `init`:
      each score strictly greater than the best so far replaces it and
      makes its index the label. */
  function Strongest(scores: seq<real>, init: Entry): Entry
  {
    if scores == [] then init
    else
      var b := Strongest(scores[..|scores| - 1], init);
      if scores[|scores| - 1] > b.score then Entry(scores[|scores| - 1], |scores| - 1) else b
  }

  /** The scan yields the first maximal score: no score exceeds it; when
      some score exceeds the initial one, the label is the index of a score
      equal to the result and every earlier score is strictly smaller; when
      none does, the initial inference comes back unchanged. */
  lemma {:induction false} StrongestIsFirstMaximum(scores: seq<real>, init: Entry)
    ensures Strongest(scores, init).score >= init.score
    ensures forall j :: 0 <= j < |scores| ==> scores[j] <= Strongest(scores, init).score
    ensures (forall j :: 0 <= j < |scores| ==> scores[j] <= init.score) ==> Strongest(scores, init) == init
    ensures (exists j :: 0 <= j < |scores| && scores[j] > init.score) ==>
              var r := Strongest(scores, init);
              0 <= r.labelId < |scores| && scores[r.labelId] == r.score &&
              forall j :: 0 <= j < r.labelId ==> scores[j] < r.score
  {
    if scores != [] {
      var p := scores[..|scores| - 1];
      StrongestIsFirstMaximum(p, init);
      var b := Strongest(p, init);
      if scores[|scores| - 1] <= b.score && exists j :: 0 <= j < |scores| && scores[j] > init.score {
        var j :| 0 <= j < |scores| && scores[j] > init.score;
        if j < |p| {
          assert p[j] == scores[j];
        } else {
          // the last score exceeds init but not b, so b already moved off init
          assert b != init;
        }
      }
    }
  }

  /** The loop over the score vector, updating the inference in place. */
  method ArgMax(scores: seq<real>, init: Entry) returns (current: Entry)
    ensures current == Strongest(scores, init)
  {
    current := init;
    for i := 0 to |scores|
      invariant current == Strongest(scores[..i], init)
    {
      assert scores[..i + 1][..i] == scores[..i];
      if scores[i] > current.score {
        current := Entry(scores[i], i);
      }
    }
    assert scores[..|scores|] == scores;
  }
}
