/** The session counters of the coin-flip demo: the four session fields, the three
    buttons that change them, and the observed proportions shown beside the charts. */
module Simulation {
  import opened Trials

  /** The value of the session fields heads_count, tails_count, total_flips and
      last_flip. */
  datatype Tally = Tally(heads: nat, tails: nat, total: nat, last: Outcome)

  /** The invariant every button keeps: the two counters add up to the total. */
  predicate Consistent(t: Tally)
  {
    t.heads + t.tails == t.total
  }

  /** The state a new session starts in, and the one Reset returns to. */
  function Initial(): Tally
  {
    Tally(0, 0, 0, Tails)
  }

  /** The initial state has no flips, stores tails, and satisfies the invariant. */
  lemma InitialState()
    ensures Initial().heads == 0 && Initial().tails == 0 && Initial().total == 0
    ensures Initial().last == Tails
    ensures Consistent(Initial())
    ensures Observed(Initial()) == (0.0, 0.0)
  {
  }

  /** "Flip the Coin": one draw goes into exactly one counter and becomes the stored face. */
  function AfterFlip(t: Tally, d: Draw): (r: Tally)
    ensures r.total == t.total + 1
    ensures (r.heads == t.heads + 1 && r.tails == t.tails)
         || (r.heads == t.heads && r.tails == t.tails + 1)
    ensures r.last == Heads <==> r.heads == t.heads + 1
    ensures r.last == Heads <==> d < PHeads
    ensures Consistent(t) ==> Consistent(r)
  {
    if Classify(d) == Heads then Tally(t.heads + 1, t.tails, t.total + 1, Heads)
    else Tally(t.heads, t.tails + 1, t.total + 1, Tails)
  }

  /** "Flip 100 times": heads grows by the heads in the batch, tails by 100 minus that,
      the total by 100, and the stored face is that of the final draw. */
  function AfterHundred(t: Tally, ds: seq<Draw>): (r: Tally)
    requires |ds| == BatchSize
    ensures r.heads == t.heads + CountHeads(ds)
    ensures r.tails == t.tails + CountTails(ds)
    ensures r.total == t.total + |ds|
    ensures r.last == Classify(ds[|ds| - 1])
    ensures Consistent(t) ==> Consistent(r)
  {
    HeadsTailsPartition(ds);
    var h := CountHeads(ds);
    Tally(t.heads + h, t.tails + (BatchSize - h), t.total + BatchSize, Classify(ds[BatchSize - 1]))
  }

  /** Reference for a batch: the same draws fed to "Flip the Coin" one after another. */
  function FlipEach(t: Tally, ds: seq<Draw>): Tally
    decreases |ds|
  {
    if ds == [] then t else FlipEach(AfterFlip(t, ds[0]), ds[1..])
  }

  /** Flipping a non-empty batch one draw at a time adds its heads, its tails and its
      length, and leaves the face of its final draw. */
  lemma {:induction false} FlipEachCounts(t: Tally, ds: seq<Draw>)
    requires |ds| > 0
    ensures FlipEach(t, ds)
         == Tally(t.heads + CountHeads(ds), t.tails + CountTails(ds), t.total + |ds|,
                  Classify(ds[|ds| - 1]))
    decreases |ds|
  {
    if |ds| > 1 {
      FlipEachCounts(AfterFlip(t, ds[0]), ds[1..]);
    }
  }

  /** The vectorised 100-flip update agrees with 100 single flips of the same draws. */
  lemma HundredIsHundredSingles(t: Tally, ds: seq<Draw>)
    requires |ds| == BatchSize
    ensures AfterHundred(t, ds) == FlipEach(t, ds)
  {
    FlipEachCounts(t, ds);
  }

  /** A button press in one script run, with the draws the generator supplied. */
  datatype Action =
    | FlipOnePressed(d: Draw)
    | Flip100Pressed(ds: seq<Draw>)
    | ResetPressed

  /** The generator always hands the 100-flip button exactly 100 draws. */
  predicate WellFormed(a: Action)
  {
    a.Flip100Pressed? ==> |a.ds| == BatchSize
  }

  predicate AllWellFormed(acts: seq<Action>)
  {
    forall i :: 0 <= i < |acts| ==> WellFormed(acts[i])
  }

  /** The effect of one button on the session fields: a flip never lowers a counter and
      raises the total, a reset goes back to the initial state, and every button keeps
      heads + tails == total. */
  function Apply(t: Tally, a: Action): (r: Tally)
    requires WellFormed(a)
    ensures a.ResetPressed? ==> r == Initial()
    ensures !a.ResetPressed? ==> t.heads <= r.heads && t.tails <= r.tails && t.total < r.total
    ensures Consistent(t) ==> Consistent(r)
  {
    match a
    case FlipOnePressed(d) => AfterFlip(t, d)
    case Flip100Pressed(ds) => AfterHundred(t, ds)
    case ResetPressed => Initial()
  }

  /** The session fields after a sequence of button presses, in order. */
  function Run(t: Tally, acts: seq<Action>): Tally
    requires AllWellFormed(acts)
    decreases |acts|
  {
    if acts == [] then t else Run(Apply(t, acts[0]), acts[1..])
  }

  /** Running a single press is applying it. */
  lemma RunSingle(t: Tally, a: Action)
    requires WellFormed(a)
    ensures AllWellFormed([a])
    ensures Run(t, [a]) == Apply(t, a)
  {
    assert [a][1..] == [];
    assert Run(t, [a]) == Run(Apply(t, a), []);
  }

  /** Running two sequences of presses one after the other is running their concatenation. */
  lemma {:induction false} RunAppend(t: Tally, a: seq<Action>, b: seq<Action>)
    requires AllWellFormed(a) && AllWellFormed(b)
    ensures AllWellFormed(a + b)
    ensures Run(t, a + b) == Run(Run(t, a), b)
    decreases |a|
  {
    assert forall i :: 0 <= i < |a + b| ==> (a + b)[i] == if i < |a| then a[i] else b[i - |a|];
    if a == [] {
      assert a + b == b;
    } else {
      assert (a + b)[0] == a[0];
      assert (a + b)[1..] == a[1..] + b;
      assert AllWellFormed(a[1..]);
      RunAppend(Apply(t, a[0]), a[1..], b);
    }
  }

  /** heads + tails == total holds after any sequence of presses that starts from a state
      where it holds. */
  lemma {:induction false} RunKeepsConsistent(t: Tally, acts: seq<Action>)
    requires AllWellFormed(acts) && Consistent(t)
    ensures Consistent(Run(t, acts))
    decreases |acts|
  {
    if acts != [] {
      assert AllWellFormed(acts[1..]);
      RunKeepsConsistent(Apply(t, acts[0]), acts[1..]);
    }
  }

  /** Between resets no counter ever decreases, and the total grows with every flip. */
  lemma {:induction false} RunMonotone(t: Tally, acts: seq<Action>)
    requires AllWellFormed(acts)
    requires forall i :: 0 <= i < |acts| ==> !acts[i].ResetPressed?
    ensures t.heads <= Run(t, acts).heads
    ensures t.tails <= Run(t, acts).tails
    ensures t.total <= Run(t, acts).total
    ensures acts != [] ==> t.total < Run(t, acts).total
    decreases |acts|
  {
    if acts != [] {
      assert AllWellFormed(acts[1..]);
      RunMonotone(Apply(t, acts[0]), acts[1..]);
    }
  }

  /** Whatever came before a reset is forgotten: the presses after it act on the initial
      state. */
  lemma ResetForgets(t: Tally, before: seq<Action>, after: seq<Action>)
    requires AllWellFormed(before) && AllWellFormed(after)
    ensures AllWellFormed(before + [ResetPressed] + after)
    ensures Run(t, before + [ResetPressed] + after) == Run(Initial(), after)
  {
    RunSingle(Run(t, before), ResetPressed);
    RunAppend(t, before, [ResetPressed]);
    RunAppend(t, before + [ResetPressed], after);
  }

  /** Reset returns to the initial state, and pressing it twice leaves the same state as
      pressing it once. */
  lemma ResetIdempotent(t: Tally)
    ensures Apply(t, ResetPressed) == Initial()
    ensures Apply(Apply(t, ResetPressed), ResetPressed) == Apply(t, ResetPressed)
  {
  }

  /** The presses one script run handles, in the order its code tests them: "Flip the
      Coin", then "Flip 100 times", then reset. */
  function PassActions(flipOne: bool, d: Draw, flip100: bool, ds: seq<Draw>, reset: bool)
    : (acts: seq<Action>)
    requires flip100 ==> |ds| == BatchSize
    ensures AllWellFormed(acts)
    ensures |acts| == (if flipOne then 1 else 0) + (if flip100 then 1 else 0) + (if reset then 1 else 0)
    ensures flipOne ==> acts[0] == FlipOnePressed(d)
    ensures flip100 ==> acts[if flipOne then 1 else 0] == Flip100Pressed(ds)
    ensures reset ==> acts[|acts| - 1] == ResetPressed
    ensures !reset ==> forall i :: 0 <= i < |acts| ==> !acts[i].ResetPressed?
  {
    (if flipOne then [FlipOnePressed(d)] else [])
    + (if flip100 then [Flip100Pressed(ds)] else [])
    + (if reset then [ResetPressed] else [])
  }

  /** A pass in which reset was pressed ends in the initial state, whatever was flipped
      before it in the same pass. */
  lemma PassWithReset(t: Tally, flipOne: bool, d: Draw, flip100: bool, ds: seq<Draw>)
    requires flip100 ==> |ds| == BatchSize
    ensures Run(t, PassActions(flipOne, d, flip100, ds, true)) == Initial()
  {
    var acts := PassActions(flipOne, d, flip100, ds, true);
    var before := acts[..|acts| - 1];
    assert acts == before + [ResetPressed] + [];
    assert AllWellFormed(before);
    ResetForgets(t, before, []);
  }

  /** One pass is the three branches in the order the code tests them: flip once if that
      button was pressed, then flip 100 times if that one was, then reset if that one was. */
  lemma PassSteps(t: Tally, flipOne: bool, d: Draw, flip100: bool, ds: seq<Draw>, reset: bool)
    requires flip100 ==> |ds| == BatchSize
    ensures Run(t, PassActions(flipOne, d, flip100, ds, reset))
         == var t1 := if flipOne then AfterFlip(t, d) else t;
            var t2 := if flip100 then AfterHundred(t1, ds) else t1;
            if reset then Initial() else t2
  {
    var one: seq<Action> := if flipOne then [FlipOnePressed(d)] else [];
    var hundred: seq<Action> := if flip100 then [Flip100Pressed(ds)] else [];
    var clear: seq<Action> := if reset then [ResetPressed] else [];
    var t1 := if flipOne then AfterFlip(t, d) else t;
    var t2 := if flip100 then AfterHundred(t1, ds) else t1;
    if flipOne { RunSingle(t, FlipOnePressed(d)); }
    assert Run(t, one) == t1;
    if flip100 { RunSingle(t1, Flip100Pressed(ds)); }
    assert Run(t1, hundred) == t2;
    if reset { RunSingle(t2, ResetPressed); }
    assert Run(t2, clear) == if reset then Initial() else t2;
    RunAppend(t, one, hundred);
    RunAppend(t, one + hundred, clear);
    assert PassActions(flipOne, d, flip100, ds, reset) == one + hundred + clear;
  }

  /** The divisor of the proportion displays: the total when positive, otherwise 1. */
  function Divisor(total: nat): (n: nat)
    ensures n > 0
    ensures total > 0 ==> n == total
  {
    if total > 0 then total else 1
  }

  /** The observed proportions of heads and of tails drawn in the frequency chart. */
  function Observed(t: Tally): (p: (real, real))
    ensures t.total > 0 ==> p.0 * t.total as real == t.heads as real
    ensures t.total > 0 ==> p.1 * t.total as real == t.tails as real
    ensures t.total == 0 ==> p == (t.heads as real, t.tails as real)
  {
    var n := Divisor(t.total) as real;
    assert t.total == 0 ==> n == 1.0;
    (t.heads as real / n, t.tails as real / n)
  }

  /** The percentages printed in the summary, written with max(1, total_flips). */
  function Summary(t: Tally): (p: (real, real))
    ensures p == Observed(t)
  {
    var n := if 1 >= t.total then 1 else t.total;
    (t.heads as real / n as real, t.tails as real / n as real)
  }

  /** A share of a positive whole that is at most the whole lies in [0, 1]. */
  lemma FractionInUnit(x: real, n: real)
    requires 0.0 <= x <= n && n > 0.0
    ensures 0.0 <= x / n <= 1.0
  {
  }

  /** Two parts that make up a positive whole have shares adding up to 1. */
  lemma FractionsSum(x: real, y: real, n: real)
    requires x + y == n && n > 0.0
    ensures x / n + y / n == 1.0
  {
  }

  /** With no flips yet both proportions are 0. */
  lemma ObservedAtZero(t: Tally)
    requires Consistent(t) && t.total == 0
    ensures Observed(t) == (0.0, 0.0)
  {
    assert t.heads == 0 && t.tails == 0 && Divisor(t.total) == 1;
  }

  /** With at least one flip both proportions lie in [0, 1] and add up to 1. */
  lemma ObservedIsDistribution(t: Tally)
    requires Consistent(t) && t.total > 0
    ensures 0.0 <= Observed(t).0 <= 1.0
    ensures 0.0 <= Observed(t).1 <= 1.0
    ensures Observed(t).0 + Observed(t).1 == 1.0
  {
    var h, k, n := t.heads as real, t.tails as real, t.total as real;
    assert Observed(t) == (h / n, k / n);
    FractionInUnit(h, n);
    FractionInUnit(k, n);
    FractionsSum(h, k, n);
  }

  /** For a consistent state, both proportion facts at once: (0, 0) with no flips, and a
      distribution over heads and tails otherwise. */
  lemma ObservedOfConsistent(t: Tally)
    ensures Consistent(t) && t.total == 0 ==> Observed(t) == (0.0, 0.0)
    ensures Consistent(t) && t.total > 0 ==>
              0.0 <= Observed(t).0 <= 1.0 && 0.0 <= Observed(t).1 <= 1.0
              && Observed(t).0 + Observed(t).1 == 1.0
  {
    if Consistent(t) && t.total == 0 {
      ObservedAtZero(t);
    } else if Consistent(t) {
      ObservedIsDistribution(t);
    }
  }

  /** A first flip with draw 0.3 stores heads with one flip counted. */
  lemma FirstFlipScenario()
    ensures AfterFlip(Initial(), 0.3) == Tally(1, 0, 1, Heads)
  {
    assert Classify(0.3) == Heads;
  }

  /** A batch of 100 draws that are all exactly 0.5 is 100 tails. */
  lemma AllBoundaryBatch(t: Tally, ds: seq<Draw>)
    requires |ds| == BatchSize
    requires forall i :: 0 <= i < |ds| ==> ds[i] == 0.5
    ensures AfterHundred(t, ds) == Tally(t.heads, t.tails + 100, t.total + 100, Tails)
  {
    assert forall i :: 0 <= i < |ds| ==> Classify(ds[i]) == Tails;
    NoHeadsIffAllTails(ds);
  }

  /** Three heads and seven tails display as 0.3 and 0.7. */
  lemma ThreeSevenScenario(last: Outcome)
    ensures Observed(Tally(3, 7, 10, last)) == (0.3, 0.7)
  {
  }

  /** The session state object: its fields are the session fields the script updates
      in place. */
  class Session {
    var heads: nat
    var tails: nat
    var total: nat
    var last: Outcome

    /** The fields as a value. */
    function State(): Tally
      reads this
    {
      Tally(heads, tails, total, last)
    }

    ghost predicate Valid()
      reads this
    {
      Consistent(State())
    }

    /** The observed proportions of the current session. */
    function Proportions(): (r: (real, real))
      reads this
      ensures r == Observed(State())
      ensures heads + tails == total && total == 0 ==> r == (0.0, 0.0)
      ensures heads + tails == total && total > 0 ==>
                0.0 <= r.0 <= 1.0 && 0.0 <= r.1 <= 1.0 && r.0 + r.1 == 1.0
    {
      ObservedOfConsistent(State());
      Observed(State())
    }

    /** A fresh session: every field at its initial value. */
    constructor ()
      ensures Valid() && State() == Initial()
    {
      heads, tails, total, last := 0, 0, 0, Tails;
    }

    /** "Flip the Coin" with the draw the generator returned. */
    method FlipOne(d: Draw)
      requires Valid()
      modifies this
      ensures Valid() && State() == AfterFlip(old(State()), d)
    {
      var flip := d < PHeads;
      if flip {
        heads := heads + 1;
        last := Heads;
      } else {
        tails := tails + 1;
        last := Tails;
      }
      total := total + 1;
    }

    /** "Flip 100 times" with the 100 draws the generator returned. */
    method Flip100(ds: seq<Draw>)
      requires Valid() && |ds| == BatchSize
      modifies this
      ensures Valid() && State() == AfterHundred(old(State()), ds)
    {
      var sum := CountHeads(ds);
      heads := heads + sum;
      tails := tails + (100 - sum);
      total := total + 100;
      last := if Classify(ds[|ds| - 1]) == Heads then Heads else Tails;
    }

    /** The reset button. */
    method Reset()
      requires Valid()
      modifies this
      ensures Valid() && State() == Initial()
    {
      heads := 0;
      tails := 0;
      total := 0;
      last := Tails;
    }

    /** One run of the script: the flip-once branch, the flip-100 branch and the reset
        branch, each taken when its button was pressed, in that order. */
    method Rerun(flipOne: bool, d: Draw, flip100: bool, ds: seq<Draw>, reset: bool)
      requires Valid() && (flip100 ==> |ds| == BatchSize)
      modifies this
      ensures Valid() && State() == Run(old(State()), PassActions(flipOne, d, flip100, ds, reset))
    {
      ghost var t0 := State();
      if flipOne {
        FlipOne(d);
      }
      ghost var t1 := State();
      assert t1 == if flipOne then AfterFlip(t0, d) else t0;
      if flip100 {
        Flip100(ds);
      }
      ghost var t2 := State();
      assert t2 == if flip100 then AfterHundred(t1, ds) else t1;
      if reset {
        Reset();
      }
      assert State() == if reset then Initial() else t2;
      PassSteps(t0, flipOne, d, flip100, ds, reset);
    }
  }
}
