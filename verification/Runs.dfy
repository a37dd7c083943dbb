/** Runs of a state machine: what every step keeps, every run keeps. */
module Runs {
  function After<S, C>(step: (S, C) -> S, s: S, run: seq<C>): S
    decreases |run|
  {
    if run == [] then s else After(step, step(s, run[0]), run[1..])
  }

  /** The gains of the single steps, added up. */
  function Total<S, C>(step: (S, C) -> S, gain: (S, C) -> int, s: S, run: seq<C>): int
    decreases |run|
  {
    if run == [] then 0 else gain(s, run[0]) + Total(step, gain, step(s, run[0]), run[1..])
  }

  /** What every legal step keeps holds after every run of legal calls. */
  lemma {:induction false} RunInvariant<S(!new), C(!new)>(step: (S, C) -> S, legal: C -> bool, inv: S -> bool, s: S,
      run: seq<C>)
    requires forall t, c :: inv(t) && legal(c) ==> inv(step(t, c))
    requires inv(s) && forall i :: 0 <= i < |run| ==> legal(run[i])
    ensures inv(After(step, s, run))
    decreases |run|
  {
    if run != [] {
      assert inv(step(s, run[0]));
      RunInvariant(step, legal, inv, step(s, run[0]), run[1..]);
    }
  }

  /** An invariant of every legal step holds after every run of legal calls, and a measure that
      each such step raises by its gain is raised by the run's total. */
  lemma {:induction false} RunKeeps<S(!new), C(!new)>(step: (S, C) -> S, legal: C -> bool, inv: S -> bool,
      measure: S -> int, gain: (S, C) -> int, s: S, run: seq<C>)
    requires forall t, c :: inv(t) && legal(c) ==> inv(step(t, c)) && measure(step(t, c)) == measure(t) + gain(t, c)
    requires inv(s) && forall i :: 0 <= i < |run| ==> legal(run[i])
    ensures inv(After(step, s, run))
    ensures measure(After(step, s, run)) == measure(s) + Total(step, gain, s, run)
    decreases |run|
  {
    if run != [] {
      assert inv(step(s, run[0])) && measure(step(s, run[0])) == measure(s) + gain(s, run[0]);
      RunKeeps(step, legal, inv, measure, gain, step(s, run[0]), run[1..]);
    }
  }

  lemma {:induction false} AfterSplit<S, C>(step: (S, C) -> S, s: S, run: seq<C>, i: nat, j: nat)
    requires i <= j <= |run|
    ensures After(step, s, run[..j]) == After(step, After(step, s, run[..i]), run[i..j])
    decreases i
  {
    if i == 0 {
      assert run[..0] == [] && run[0..j] == run[..j];
    } else {
      AfterSplit(step, step(s, run[0]), run[1..], i - 1, j - 1);
      assert run[..j][1..] == run[1..][..j - 1] && run[..i][1..] == run[1..][..i - 1];
      assert run[i..j] == run[1..][i - 1..j - 1];
    }
  }

  lemma AfterNext<S, C>(step: (S, C) -> S, s: S, run: seq<C>, i: nat)
    requires i < |run|
    ensures After(step, s, run[..i + 1]) == step(After(step, s, run[..i]), run[i])
  {
    AfterSplit(step, s, run, i, i + 1);
    var one := run[i..i + 1];
    assert one[0] == run[i] && one[1..] == [];
  }

  lemma {:induction false} TotalIsNat<S(!new), C(!new)>(step: (S, C) -> S, gain: (S, C) -> int, s: S, run: seq<C>)
    requires forall t, c :: gain(t, c) >= 0
    ensures Total(step, gain, s, run) >= 0
    decreases |run|
  {
    if run != [] { TotalIsNat(step, gain, step(s, run[0]), run[1..]); }
  }

  /** A positive total has a step with a positive gain. */
  lemma {:induction false} SomeGain<S, C>(step: (S, C) -> S, gain: (S, C) -> int, s: S, run: seq<C>) returns (k: nat)
    requires Total(step, gain, s, run) > 0
    ensures k < |run| && gain(After(step, s, run[..k]), run[k]) > 0
    decreases |run|
  {
    if gain(s, run[0]) > 0 {
      assert run[..0] == [];
      k := 0;
    } else {
      k := SomeGain(step, gain, step(s, run[0]), run[1..]);
      k := k + 1;
      assert run[..k][1..] == run[1..][..k - 1];
    }
  }

  /** The same between two positions of a run. */
  lemma GainBetween<S, C>(step: (S, C) -> S, gain: (S, C) -> int, s: S, run: seq<C>, i: nat, j: nat) returns (k: nat)
    requires i <= j <= |run| && Total(step, gain, After(step, s, run[..i]), run[i..j]) > 0
    ensures i <= k < j && gain(After(step, s, run[..k]), run[k]) > 0
  {
    var between := run[i..j];
    var at := SomeGain(step, gain, After(step, s, run[..i]), between);
    k := i + at;
    AfterSplit(step, s, run, i, k);
    assert between[..at] == run[i..k];
  }

  /** When no step lowers the measure, it has risen by step i's gain whenever a later step j starts. */
  lemma LaterIsMore<S(!new), C(!new)>(step: (S, C) -> S, inv: S -> bool, measure: S -> int, gain: (S, C) -> int,
      s: S, run: seq<C>, i: nat, j: nat)
    requires forall t, c :: inv(t) ==> inv(step(t, c)) && measure(step(t, c)) == measure(t) + gain(t, c)
    requires forall t, c :: gain(t, c) >= 0
    requires inv(s) && i < j <= |run|
    ensures inv(After(step, s, run[..i])) && inv(After(step, s, run[..j]))
    ensures measure(After(step, s, run[..i])) + gain(After(step, s, run[..i]), run[i]) <=
      measure(After(step, s, run[..j]))
  {
    var legal := (c: C) => true;
    RunKeeps(step, legal, inv, measure, gain, s, run[..i]);
    AfterNext(step, s, run, i);
    AfterSplit(step, s, run, i + 1, j);
    RunKeeps(step, legal, inv, measure, gain, After(step, s, run[..i + 1]), run[i + 1..j]);
    TotalIsNat(step, gain, After(step, s, run[..i + 1]), run[i + 1..j]);
  }

  /** When every step of one machine is, through `image`, a step of another, so is every run. */
  lemma {:induction false} RunSimulates<S(!new), T, C(!new)>(step: (S, C) -> S, other: (T, C) -> T, image: S -> T, s: S,
      run: seq<C>)
    requires forall t, c :: other(image(t), c) == image(step(t, c))
    ensures After(other, image(s), run) == image(After(step, s, run))
    decreases |run|
  {
    if run != [] {
      assert other(image(s), run[0]) == image(step(s, run[0]));
      RunSimulates(step, other, image, step(s, run[0]), run[1..]);
    }
  }

  /** And so are the totals, when the gains agree through `image`. */
  lemma {:induction false} RunGainsAlike<S(!new), T, C(!new)>(step: (S, C) -> S, other: (T, C) -> T, image: S -> T,
      gain: (S, C) -> int, otherGain: (T, C) -> int, s: S, run: seq<C>)
    requires forall t, c :: other(image(t), c) == image(step(t, c))
    requires forall t, c :: otherGain(image(t), c) == gain(t, c)
    ensures Total(other, otherGain, image(s), run) == Total(step, gain, s, run)
    decreases |run|
  {
    if run != [] {
      assert other(image(s), run[0]) == image(step(s, run[0])) && otherGain(image(s), run[0]) == gain(s, run[0]);
      RunGainsAlike(step, other, image, gain, otherGain, step(s, run[0]), run[1..]);
    }
  }

  /** One turn of a loop that works a run off from the front. */
  lemma AfterRest<S, C>(step: (S, C) -> S, s: S, run: seq<C>, i: nat)
    requires i < |run|
    ensures After(step, s, run[i..]) == After(step, step(s, run[i]), run[i + 1..])
  {
    assert run[i..][0] == run[i] && run[i..][1..] == run[i + 1..];
  }
}
