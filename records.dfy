/**
 * The stored footprint record (the `CarbonData` schema) and the sums, extremes and means
 * that the dashboard, the analytics page and the community statistics are built from.
 */
module Records {

  /** The four life domains, in the key order of the calculator form and of the record. */
  datatype Category = Transport | Energy | Food | Consumption

  const CategoryOrder: seq<Category> := [Transport, Energy, Food, Consumption]

  /** The `categories` sub-document: one number per category. */
  datatype Breakdown = Breakdown(transport: real, energy: real, food: real, consumption: real)
  {
    function Get(c: Category): real {
      match c
      case Transport => transport
      case Energy => energy
      case Food => food
      case Consumption => consumption
    }

    /** The four category values added together. */
    function Sum(): real {
      transport + energy + food + consumption
    }
  }

  /** One saved calculation; `date` is the creation instant as a timestamp. */
  datatype Record = Record(
    user: string,
    totalFootprint: real,
    categories: Breakdown,
    recommendations: seq<string>,
    date: int)

  /** The order in which a user's records are served: most recent first. */
  ghost predicate NewestFirst(rs: seq<Record>) {
    forall i, j :: 0 <= i < j < |rs| ==> rs[j].date <= rs[i].date
  }

  /** The sum of `totalFootprint`, folded from the left as `reduce((acc, item) => acc + ..., 0)` does. */
  function SumTotals(rs: seq<Record>): (s: real)
    ensures |rs| == 1 ==> s == rs[0].totalFootprint
  {
    if rs == [] then 0.0 else SumTotals(rs[..|rs| - 1]) + rs[|rs| - 1].totalFootprint
  }

  /** The smallest `totalFootprint` of a non-empty list. */
  function MinTotal(rs: seq<Record>): (m: real)
    requires rs != []
    ensures forall i :: 0 <= i < |rs| ==> m <= rs[i].totalFootprint
    ensures exists i :: 0 <= i < |rs| && rs[i].totalFootprint == m
  {
    if |rs| == 1 then rs[0].totalFootprint
    else
      var p := MinTotal(rs[..|rs| - 1]);
      var x := rs[|rs| - 1].totalFootprint;
      if x < p then x else p
  }

  /** The largest `totalFootprint` of a non-empty list. */
  function MaxTotal(rs: seq<Record>): (m: real)
    requires rs != []
    ensures forall i :: 0 <= i < |rs| ==> rs[i].totalFootprint <= m
    ensures exists i :: 0 <= i < |rs| && rs[i].totalFootprint == m
  {
    if |rs| == 1 then rs[0].totalFootprint
    else
      var p := MaxTotal(rs[..|rs| - 1]);
      var x := rs[|rs| - 1].totalFootprint;
      if x > p then x else p
  }

  /** The arithmetic mean of `totalFootprint` over a non-empty list. */
  function Mean(rs: seq<Record>): (m: real)
    requires rs != []
    ensures m * (|rs| as real) == SumTotals(rs)
  {
    SumTotals(rs) / (|rs| as real)
  }

  /** Bounds on every total bound the sum: n * lo <= sum <= n * hi. */
  lemma {:induction false} SumTotalsBetween(rs: seq<Record>, lo: real, hi: real)
    requires forall i :: 0 <= i < |rs| ==> lo <= rs[i].totalFootprint <= hi
    ensures (|rs| as real) * lo <= SumTotals(rs) <= (|rs| as real) * hi
  {
    if rs != [] {
      var init := rs[..|rs| - 1];
      assert forall i :: 0 <= i < |init| ==> init[i] == rs[i];
      SumTotalsBetween(init, lo, hi);
      var n, x := |init| as real, rs[|rs| - 1].totalFootprint;
      assert SumTotals(rs) == SumTotals(init) + x;
      assert n * lo + lo == (n + 1.0) * lo && n * hi + hi == (n + 1.0) * hi;
    }
  }

  /** Bounds on every total bound the mean. */
  lemma MeanWithin(rs: seq<Record>, lo: real, hi: real)
    requires rs != []
    requires forall i :: 0 <= i < |rs| ==> lo <= rs[i].totalFootprint <= hi
    ensures lo <= Mean(rs) <= hi
  {
    SumTotalsBetween(rs, lo, hi);
    var n, m, s := |rs| as real, Mean(rs), SumTotals(rs);
    assert n * m == s;
    Cancel(n, lo, m);
    Cancel(n, m, hi);
  }

  /** The mean lies between the smallest and the largest total. */
  lemma MeanBetweenExtremes(rs: seq<Record>)
    requires rs != []
    ensures MinTotal(rs) <= Mean(rs) <= MaxTotal(rs)
  {
    MeanWithin(rs, MinTotal(rs), MaxTotal(rs));
  }

  /** Dividing both sides of n * a <= n * b by a positive n. */
  lemma Cancel(n: real, a: real, b: real)
    requires 0.0 < n && n * a <= n * b
    ensures a <= b
  {
  }

  /** With no negative total, the mean is not negative. */
  lemma MeanNonNegative(rs: seq<Record>)
    requires rs != []
    requires forall i :: 0 <= i < |rs| ==> 0.0 <= rs[i].totalFootprint
    ensures 0.0 <= Mean(rs)
  {
    MeanBetweenExtremes(rs);
  }

  /** The sum of totals reads nothing but the totals, position by position. */
  lemma {:induction false} SumTotalsOnlyReadsTotals(a: seq<Record>, b: seq<Record>)
    requires |a| == |b|
    requires forall i :: 0 <= i < |a| ==> a[i].totalFootprint == b[i].totalFootprint
    ensures SumTotals(a) == SumTotals(b)
  {
    if a != [] {
      var a', b' := a[..|a| - 1], b[..|b| - 1];
      assert forall i :: 0 <= i < |a'| ==> a'[i] == a[i] && b'[i] == b[i];
      SumTotalsOnlyReadsTotals(a', b');
    }
  }
}
