/**
 * The personal dashboard: the latest calculation, the average footprint and the number of
 * calculations, computed from the user's record list once it has loaded.
 */
module Dashboard {
  import opened Records
  import opened Wrappers

  /** `hasData`: the list holds at least one record. */
  predicate HasData(rs: seq<Record>)
    ensures HasData(rs) <==> rs != []
  {
    |rs| > 0
  }

  /** `lastCalculation`: the first record when there is one, `null` otherwise. */
  function LastCalculation(rs: seq<Record>): (last: Option<Record>)
    ensures last.Some? <==> HasData(rs)
    ensures last.Some? ==> last.value == rs[0]
  {
    if HasData(rs) then Some(rs[0]) else None
  }

  /** `averageFootprint`: the mean total when there is data, 0 otherwise; never a division by zero. */
  function AverageFootprint(rs: seq<Record>): (avg: real)
    ensures !HasData(rs) ==> avg == 0.0
    ensures avg * (|rs| as real) == SumTotals(rs)
  {
    if HasData(rs) then SumTotals(rs) / (|rs| as real) else 0.0
  }

  /** `calculationCount`: the length of the list, 0 included. */
  function CalculationCount(rs: seq<Record>): (n: nat)
    ensures n == 0 <==> !HasData(rs)
    ensures LastCalculation(rs).Some? ==> n >= 1
  {
    |rs|
  }

  /** What the page shows: the spinner, the welcome card, or the three statistics. */
  datatype View =
    | Spinner
    | Welcome
    | Panel(lastCalculation: Record, averageFootprint: real, calculationCount: nat)

  /** The page: the spinner while loading, then the welcome card or the statistics. */
  function Render(loading: bool, rs: seq<Record>): (v: View)
    ensures loading <==> v == Spinner
    ensures v == Welcome <==> !loading && !HasData(rs)
    ensures v.Panel? ==> LastCalculation(rs) == Some(v.lastCalculation)
    ensures v.Panel? ==> v.averageFootprint * (|rs| as real) == SumTotals(rs)
    ensures v.Panel? ==> v.calculationCount == |rs| && |rs| > 0
  {
    if loading then Spinner
    else if !HasData(rs) then Welcome
    else Panel(LastCalculation(rs).value, AverageFootprint(rs), CalculationCount(rs))
  }

  /** With the list served newest first, the last calculation is the most recent one. */
  lemma LastIsMostRecent(rs: seq<Record>)
    requires NewestFirst(rs) && HasData(rs)
    ensures forall i :: 0 <= i < |rs| ==> rs[i].date <= LastCalculation(rs).value.date
  {
  }

  /** The average lies between the smallest and the largest total. */
  lemma AverageWithinExtremes(rs: seq<Record>)
    requires HasData(rs)
    ensures MinTotal(rs) <= AverageFootprint(rs) <= MaxTotal(rs)
  {
    assert AverageFootprint(rs) == Mean(rs);
    MeanBetweenExtremes(rs);
  }

  /** With no negative total, the average is not negative; with no data it is exactly 0. */
  lemma AverageNonNegative(rs: seq<Record>)
    requires forall i :: 0 <= i < |rs| ==> 0.0 <= rs[i].totalFootprint
    ensures 0.0 <= AverageFootprint(rs)
    ensures !HasData(rs) ==> AverageFootprint(rs) == 0.0
  {
    if HasData(rs) {
      assert AverageFootprint(rs) == Mean(rs);
      MeanNonNegative(rs);
    }
  }
}
