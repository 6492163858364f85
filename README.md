# Coin-flip counter model

A Dafny model of the session counters of the coin-flip teaching demo in
`ruang_sampel.py`. The demo is a Streamlit page with three buttons. "Flip the Coin"
makes one random draw. "Flip 100 times" makes one hundred. "Reset Simulation" clears
the counts. Four session fields hold the counts: `heads_count`, `tails_count`,
`total_flips`, and `last_flip`, the stored face of the latest flip. The page also shows
the observed proportions of heads and tails, in the frequency chart and in the summary
text.

The project has two modules:

- `Trials` (trials.dfy) covers single flips. A `Draw` is a real in [0, 1), the value
  the generator returns. `Classify` turns a draw into `Heads` exactly when it is
  strictly below `PHeads = 0.5`. `CountHeads` stands for the `sum()` of the boolean
  array of 100 comparisons. `CountTails` counts tails separately; `HeadsTailsPartition` proves the two counts
  add up to the batch size.
- `Simulation` (session.dfy) covers the session state. `Tally` is the value of the
  four fields, and `Consistent` is the invariant `heads + tails == total`. The pure
  transitions are `Initial`, `AfterFlip` and `AfterHundred`, and reset is a press that
  returns to `Initial`. `Action` and `Run` describe a sequence of button presses.
  `Observed` and `Summary` are the two proportion displays. The class `Session`
  holds the four fields and updates them in place, the way the script does. Its
  methods are `FlipOne`, `Flip100`, `Reset`, and `Rerun`, which is one pass of the
  script: the flip-once branch, then the flip-100 branch, then the reset branch, in
  the order the code tests them. Each method is proved against its pure transition.

The outcome strings `"H"` and `"T"` are the datatype values `Heads` and `Tails`.
Counts are unbounded naturals. Proportions are exact real divisions.

## Model

| member | source | states |
|---|---|---|
| Trials.Classify | ruang_sampel.py:74 | a draw is heads exactly when it is below `PHeads`, and tails exactly when it is at or above it |
| Trials.ClassifyBoundary | ruang_sampel.py:74 | a draw is heads iff it is strictly below 0.5, so the draw 0.5 is tails and 0 is heads |
| Trials.ClassifyMirror | ruang_sampel.py:49 | the 0.5 threshold is symmetric: mirroring a draw about 0.5 swaps its face, except at 0 and 0.5 |
| Trials.CountHeads | ruang_sampel.py:84-85 | a batch holds at most as many heads as it has draws |
| Trials.CountTails | ruang_sampel.py:86 | a batch holds at most as many tails as it has draws |
| Trials.HeadsTailsPartition | ruang_sampel.py:84-86 | heads plus tails in a batch is its length, so `100 - sum` is the number of tails |
| Trials.NoHeadsIffAllTails | ruang_sampel.py:84-85 | a batch has no heads exactly when every draw in it is tails |
| Simulation.InitialState | ruang_sampel.py:20-27 | a new session has all three counts at 0, stores tails, satisfies the invariant and shows proportions 0 and 0 |
| Simulation.AfterFlip | ruang_sampel.py:73-81 | one flip adds 1 to the total and 1 to exactly one counter; the face is heads iff heads grew, iff the draw is below 0.5; the invariant is kept |
| Simulation.AfterHundred | ruang_sampel.py:83-88 | a batch adds its heads to heads, its tails to tails and 100 to the total; the face is that of the final draw; the invariant is kept |
| Simulation.FlipEachCounts | ruang_sampel.py:73-81 | flipping a non-empty batch one draw at a time adds its heads, its tails and its length, and leaves its final face |
| Simulation.HundredIsHundredSingles | ruang_sampel.py:83-88 | the vectorised 100-flip update equals 100 single flips of the same draws |
| Simulation.Apply | ruang_sampel.py:73-140 | a flip button never lowers a counter and raises the total, the reset button gives the initial state, and every button keeps `heads + tails == total` |
| Simulation.RunKeepsConsistent | ruang_sampel.py:73-140 | any sequence of presses keeps `heads + tails == total` |
| Simulation.RunMonotone | ruang_sampel.py:73-88 | between resets no count decreases, and the total strictly grows with each flip press |
| Simulation.ResetForgets | ruang_sampel.py:136-140 | after a reset the session is what the later presses make of the initial state |
| Simulation.ResetIdempotent | ruang_sampel.py:136-140 | reset yields the initial state, and resetting twice equals resetting once |
| Simulation.PassActions | ruang_sampel.py:73-140 | one script pass holds one press per pressed button, each well formed: flip-once first, flip-100 right after it, reset last, and no reset unless that button was pressed |
| Simulation.PassSteps | ruang_sampel.py:73-140 | running a pass's presses is the three branches in code order: flip once if pressed, then flip 100 times if pressed, then reset if pressed |
| Simulation.PassWithReset | ruang_sampel.py:136-140 | a pass in which reset was pressed ends in the initial state, whatever it flipped before |
| Simulation.Divisor | ruang_sampel.py:95 | the divisor is never zero and is the total whenever the total is positive |
| Simulation.Observed | ruang_sampel.py:95-97 | with flips, each proportion times the total gives back its count; with none, the counts are divided by 1 |
| Simulation.Summary | ruang_sampel.py:132-133 | the summary percentages, with divisor `max(1, total)`, equal the chart proportions |
| Simulation.ObservedAtZero | ruang_sampel.py:95-97 | with no flips both observed proportions are 0 |
| Simulation.ObservedIsDistribution | ruang_sampel.py:95-97 | with at least one flip both proportions lie in [0, 1] and add up to 1 |
| Simulation.FirstFlipScenario | ruang_sampel.py:73-81 | a first flip with draw 0.3 gives one head, no tails, one flip, face heads |
| Simulation.AllBoundaryBatch | ruang_sampel.py:83-88 | 100 draws of exactly 0.5 add 100 tails and no heads, and show tails |
| Simulation.ThreeSevenScenario | ruang_sampel.py:95-97 | three heads and seven tails display as 0.3 and 0.7 |
| Simulation.Session.Proportions | ruang_sampel.py:95-97 | the proportions are heads/total and tails/total (divisor 1 at zero flips); for a consistent session they are 0 and 0 with no flips, and otherwise lie in [0, 1] and add up to 1 |
| Simulation.Session.constructor | ruang_sampel.py:20-27 | a new session object holds the initial state and satisfies the invariant |
| Simulation.Session.FlipOne | ruang_sampel.py:73-81 | the in-place flip-once update moves the fields exactly as `AfterFlip` does |
| Simulation.Session.Flip100 | ruang_sampel.py:83-88 | the in-place flip-100 update moves the fields exactly as `AfterHundred` does |
| Simulation.Session.Reset | ruang_sampel.py:136-140 | the in-place reset makes the fields equal to the initial state |
| Simulation.Session.Rerun | ruang_sampel.py:73-140 | one script pass runs flip-once, then flip-100, then reset, exactly as `Run` does on those presses |

## Left out

- Page setup, the markdown and HTML text, the coin picture and the button widgets are
  not modelled. They are presentation only. Which buttons were pressed is a parameter
  of `Rerun`.
- `st.rerun()` after a reset and the framework's keeping of session state across runs
  are not modelled. They are framework behaviour; the state is a single `Session`
  object.
- The two matplotlib bar charts and the constant theoretical array `[0.5, 0.5]` are not
  modelled. They are rendering only.
- The random generator `np.random.default_rng()` is replaced by inputs. Each flip
  method takes its draws as arguments of type `Draw`, and a batch always has exactly
  100 of them, as `rng.random(100)` returns.
- Float formatting (`:.2f`, `:.2%`) and IEEE rounding in the proportion divisions are
  not modelled. Proportions are exact reals.
- The script initialises each of the four session keys separately, only when that key
  is missing. The model starts all four together in the `Session` constructor, because
  a session with only some keys set cannot arise from the script.
- The coin picture lags the stored face by one press. The script draws it from
  `last_flip` at lines 61-69, before the flip branches at 73-88 update it, and only
  reset reruns the script. So after a flip the picture still shows the previous face,
  while the charts and the summary already show the new counts. The model tracks the
  stored face `last` only.
- After a batch the counters hold NumPy fixed-width integers. The model uses unbounded
  naturals, since no reachable session comes near their limit.
- At zero flips the code divides by 1, so a consistent session shows (0, 0)
  (`ObservedAtZero`). The probability is fixed at 0.5 and a batch always has 100
  draws, so there is no error path and no empty batch to model.
