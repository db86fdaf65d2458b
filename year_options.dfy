/**
 * The year lists offered by the pickers: `Array.from({length: n}, (_, i) =>
 * currentYear - i)`. The current year is a parameter, since reading the
 * clock is outside the model.
 */
module YearOptions {

  /** The `n` years counting down from `currentYear`. */
  function DescendingYears(currentYear: int, n: nat): (r: seq<int>)
    ensures |r| == n
    ensures forall i :: 0 <= i < n ==> r[i] == currentYear - i
  {
    seq(n, i => currentYear - i)
  }

  /** `useYearOptions()`: the last 20 years, newest first. */
  function LastTwentyYears(currentYear: int): (r: seq<int>)
    ensures |r| == 20
  {
    DescendingYears(currentYear, 20)
  }

  /** The list opens with the current year, closes 19 years earlier and
      drops by exactly one at each step. */
  lemma LastTwentyYearsShape(currentYear: int)
    ensures var r := LastTwentyYears(currentYear);
      r[0] == currentYear && r[19] == currentYear - 19 &&
      (forall i :: 0 <= i < 19 ==> r[i + 1] == r[i] - 1)
  {
  }

  /** The years descend strictly, so none repeats. */
  lemma DescendingYearsStrict(currentYear: int, n: nat)
    ensures var r := DescendingYears(currentYear, n);
      forall i, j :: 0 <= i < j < n ==> r[i] > r[j]
  {
  }

  /** A year is offered exactly when it is among the last `n` years. */
  lemma DescendingYearsMembers(currentYear: int, n: nat, y: int)
    ensures y in DescendingYears(currentYear, n) <==> currentYear - n < y <= currentYear
  {
    var r := DescendingYears(currentYear, n);
    if currentYear - n < y <= currentYear {
      assert r[currentYear - y] == y;
    }
  }
}
