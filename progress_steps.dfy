/** The counting loops the two client components run to animate their progress bars:
    `for (let i = lo; i <= hi; i += step)`, recorded as the sequence of values `i` takes. */
module ProgressSteps {

  /** How many times the body of `for (let i = lo; i <= hi; i += step)` runs. */
  function Count(lo: int, hi: int, step: nat): nat
    requires step > 0
    decreases if lo <= hi then hi - lo + 1 else 0
  {
    if lo > hi then 0 else 1 + Count(lo + step, hi, step)
  }

  /** The values of `i` in `for (let i = lo; i <= hi; i += step)`: lo, lo + step, and so
      on, for as many turns as the loop takes. */
  function Steps(lo: int, hi: int, step: nat): (s: seq<int>)
    requires step > 0
    ensures |s| == Count(lo, hi, step)
  {
    seq(Count(lo, hi, step), k requires 0 <= k => lo + k * step)
  }

  /** The loop's first value, then the values of the loop that starts one step later. */
  lemma StepsCons(lo: int, hi: int, step: nat)
    requires step > 0 && lo <= hi
    ensures Steps(lo, hi, step) == [lo] + Steps(lo + step, hi, step)
  {
    var s, rest := Steps(lo, hi, step), Steps(lo + step, hi, step);
    forall k | 1 <= k < |s| ensures s[k] == rest[k - 1] {
      assert lo + k * step == lo + step + (k - 1) * step;
    }
  }

  /** A loop that does not start takes no values. */
  lemma StepsNone(lo: int, hi: int, step: nat)
    requires step > 0 && lo > hi
    ensures Steps(lo, hi, step) == []
  {
  }

  /** Every value lies in [lo, hi] and each is `step` above the one before. */
  lemma {:induction false} StepsShape(lo: int, hi: int, step: nat)
    requires step > 0
    ensures forall i :: 0 <= i < |Steps(lo, hi, step)| ==> lo <= Steps(lo, hi, step)[i] <= hi
    ensures forall i :: 0 <= i < |Steps(lo, hi, step)| - 1 ==>
              Steps(lo, hi, step)[i + 1] == Steps(lo, hi, step)[i] + step
    decreases if lo <= hi then hi - lo + 1 else 0
  {
    if lo <= hi {
      var s := Steps(lo, hi, step);
      var rest := Steps(lo + step, hi, step);
      StepsShape(lo + step, hi, step);
      StepsCons(lo, hi, step);
      forall i | 0 <= i < |s| ensures lo <= s[i] <= hi {
        if i > 0 {
          assert s[i] == rest[i - 1];
        }
      }
      forall i | 0 <= i < |s| - 1 ensures s[i + 1] == s[i] + step {
        assert s[i + 1] == lo + (i + 1) * step;
      }
    }
  }

  /** When `hi` is `n` steps above `lo`, the loop takes `n + 1` values and ends at `hi`. */
  lemma {:induction false} StepsEnd(lo: int, hi: int, step: nat, n: nat)
    requires step > 0 && hi == lo + n * step
    ensures |Steps(lo, hi, step)| == n + 1
    ensures Steps(lo, hi, step)[n] == hi
    decreases n
  {
    assert Count(lo, hi, step) == 1 + Count(lo + step, hi, step);
    if n > 0 {
      assert hi == (lo + step) + (n - 1) * step;
      StepsEnd(lo + step, hi, step, n - 1);
    }
  }

  /** A run of values that never goes down. */
  predicate NonDecreasing(s: seq<int>) {
    forall i, j :: 0 <= i <= j < |s| ==> s[i] <= s[j]
  }

  /** The counting loop never goes down. */
  lemma StepsNonDecreasing(lo: int, hi: int, step: nat)
    requires step > 0
    ensures NonDecreasing(Steps(lo, hi, step))
  {
    var s := Steps(lo, hi, step);
    StepsShape(lo, hi, step);
    forall i, j | 0 <= i <= j < |s| ensures s[i] <= s[j] {
      StepsUp(s, step, i, j);
    }
  }

  /** Along a run that rises by `step` at each position, later values are not smaller. */
  lemma {:induction false} StepsUp(s: seq<int>, step: nat, i: nat, j: nat)
    requires i <= j < |s|
    requires forall k :: 0 <= k < |s| - 1 ==> s[k + 1] == s[k] + step
    ensures s[i] <= s[j]
    decreases j - i
  {
    if i < j {
      StepsUp(s, step, i, j - 1);
    }
  }

  /** Two runs that never go down, joined where the first ends no higher than the second
      starts, never go down. */
  lemma NonDecreasingJoin(a: seq<int>, b: seq<int>)
    requires NonDecreasing(a) && NonDecreasing(b)
    requires a != [] && b != [] ==> a[|a| - 1] <= b[0]
    ensures NonDecreasing(a + b)
  {
    var s := a + b;
    forall i, j | 0 <= i <= j < |s| ensures s[i] <= s[j] {
      if i < |a| && |a| <= j {
        assert s[i] <= a[|a| - 1] && b[0] <= s[j];
      }
    }
  }

  /** Moving one value from the pending run to the trace. */
  lemma Shift<T>(log: seq<T>, x: T, rest: seq<T>)
    ensures log + [x] + rest == log + ([x] + rest)
  {
  }

  /** The last value of a trace extended by a non-empty run is the run's last value. */
  lemma LastOfAppend<T>(log: seq<T>, run: seq<T>)
    requires run != []
    ensures (log + run)[|log + run| - 1] == run[|run| - 1]
  {
  }
}
