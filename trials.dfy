/** Single coin flips: how one uniform draw becomes heads or tails, and how many
    heads a batch of draws holds. */
module Trials {

  /** One face of the coin; the session stores it as the string "H" or "T". */
  datatype Outcome = Heads | Tails

  /** Probability of heads of the fair coin. */
  const PHeads: real := 0.5

  /** Number of draws made by the "Flip 100 times" button. */
  const BatchSize: nat := 100

  /** A value the generator can return: a real in the half-open interval [0, 1). */
  type Draw = r: real | 0.0 <= r < 1.0 witness 0.0

  /** A draw is heads exactly when it lies strictly below PHeads. */
  function Classify(d: Draw): (o: Outcome)
    ensures o == Heads <==> d < PHeads
    ensures o == Tails <==> PHeads <= d
  {
    if d < PHeads then Heads else Tails
  }

  /** The boundary draw 0.5 is tails, the smallest draw is heads. */
  lemma ClassifyBoundary()
    ensures Classify(0.5) == Tails
    ensures Classify(0.0) == Heads
    ensures forall d: Draw :: Classify(d) == Heads <==> d < 0.5
  {
  }

  /** The threshold is symmetric: mirroring a draw about 0.5 swaps its face, except at
      the boundary 0.5 itself and at 0, whose mirror 1 is not a draw. */
  lemma ClassifyMirror(d: Draw)
    requires 0.0 < d && d != 0.5
    ensures Classify(1.0 - d) != Classify(d)
  {
  }

  /** The number of heads among the draws, the `sum()` of the boolean array of
      comparisons with PHeads. */
  function CountHeads(ds: seq<Draw>): (n: nat)
    ensures n <= |ds|
  {
    if ds == [] then 0
    else (if Classify(ds[0]) == Heads then 1 else 0) + CountHeads(ds[1..])
  }

  /** The number of tails among the draws, counted independently of CountHeads. */
  function CountTails(ds: seq<Draw>): (n: nat)
    ensures n <= |ds|
  {
    if ds == [] then 0
    else (if Classify(ds[0]) == Tails then 1 else 0) + CountTails(ds[1..])
  }

  /** Every draw is either heads or tails, so the two counts add up to the batch size. */
  lemma {:induction false} HeadsTailsPartition(ds: seq<Draw>)
    ensures CountHeads(ds) + CountTails(ds) == |ds|
  {
    if ds != [] {
      HeadsTailsPartition(ds[1..]);
    }
  }

  /** A batch holds no heads exactly when every draw in it is tails. */
  lemma {:induction false} NoHeadsIffAllTails(ds: seq<Draw>)
    ensures CountHeads(ds) == 0 <==> forall i :: 0 <= i < |ds| ==> Classify(ds[i]) == Tails
  {
    if ds != [] {
      NoHeadsIffAllTails(ds[1..]);
      assert forall i :: 1 <= i < |ds| ==> ds[i] == ds[1..][i - 1];
    }
  }
}
