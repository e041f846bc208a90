/**
 * The analytics page: the user's average against the community's, the trend series (the
 * records mapped to chart points, then reversed) and the per-category distribution.
 */
module Analytics {
  import opened Records
  import Community
  import Dashboard

  // ---------------------------------------------------------------------------------------
  // Averages
  // ---------------------------------------------------------------------------------------

  /** `userAverage`: Σ totalFootprint / count, only ever computed for a non-empty list. */
  function UserAverage(rs: seq<Record>): (avg: real)
    requires rs != []
    ensures avg * (|rs| as real) == SumTotals(rs)
  {
    Mean(rs)
  }

  /** The user's average lies between their smallest and their largest total. */
  lemma UserAverageWithinExtremes(rs: seq<Record>)
    requires rs != []
    ensures MinTotal(rs) <= UserAverage(rs) <= MaxTotal(rs)
  {
    MeanBetweenExtremes(rs);
  }

  /** One bar of the comparison chart. */
  datatype Bar = Bar(name: string, valor: real)

  /** `comparisonData`: the user's bar, then the community's bar. */
  function ComparisonData(rs: seq<Record>, community: Community.Stats): (bars: seq<Bar>)
    requires rs != []
    ensures |bars| == 2
    ensures bars[0] == Bar("Sua Média", UserAverage(rs))
    ensures bars[1] == Bar("Média da Comunidade", community.averageFootprint)
  {
    [Bar("Sua Média", UserAverage(rs)), Bar("Média da Comunidade", community.averageFootprint)]
  }

  /** For the same non-empty data, the dashboard shows the same average as this page. */
  lemma SameAverageAsDashboard(rs: seq<Record>)
    requires rs != []
    ensures Dashboard.AverageFootprint(rs) == UserAverage(rs)
  {
    Cancel2(|rs| as real, Dashboard.AverageFootprint(rs), UserAverage(rs), SumTotals(rs));
  }

  /** Two numbers that give the same product with a positive factor are equal. */
  lemma Cancel2(n: real, a: real, b: real, p: real)
    requires 0.0 < n && a * n == p && b * n == p
    ensures a == b
  {
    Cancel(n, a, b);
    Cancel(n, b, a);
  }

  // ---------------------------------------------------------------------------------------
  // Trend series
  // ---------------------------------------------------------------------------------------

  /**
   * One point of the trend chart: the record's date (its display formatting is not modelled),
   * its total, and the four category values spread in.
   */
  datatype TrendPoint = TrendPoint(date: int, total: real, transport: real, energy: real, food: real, consumption: real)

  function ToPoint(r: Record): (p: TrendPoint)
    ensures p.date == r.date && p.total == r.totalFootprint
    ensures p.transport == r.categories.Get(Transport) && p.energy == r.categories.Get(Energy)
    ensures p.food == r.categories.Get(Food) && p.consumption == r.categories.Get(Consumption)
  {
    TrendPoint(r.date, r.totalFootprint, r.categories.transport, r.categories.energy,
      r.categories.food, r.categories.consumption)
  }

  /** `carbonData.map(...)`: one point per record, position by position. */
  function Points(rs: seq<Record>): (ps: seq<TrendPoint>)
    ensures |ps| == |rs|
    ensures forall i :: 0 <= i < |rs| ==> ps[i] == ToPoint(rs[i])
  {
    if rs == [] then [] else [ToPoint(rs[0])] + Points(rs[1..])
  }

  /** `Array.prototype.reverse` on a fresh array. */
  function Reverse<T>(s: seq<T>): (r: seq<T>)
    ensures |r| == |s|
    ensures s != [] ==> r[0] == s[|s| - 1] && r[|r| - 1] == s[0]
  {
    if s == [] then [] else Reverse(s[1..]) + [s[0]]
  }

  /** Reversal keeps the length and sends position i to position n - 1 - i. */
  lemma {:induction false} ReverseAt<T>(s: seq<T>)
    ensures |Reverse(s)| == |s|
    ensures forall i :: 0 <= i < |s| ==> Reverse(s)[i] == s[|s| - 1 - i]
  {
    if s != [] {
      ReverseAt(s[1..]);
    }
  }

  /** Reversing twice gives back the original list. */
  lemma ReverseReverse<T>(s: seq<T>)
    ensures Reverse(Reverse(s)) == s
  {
    ReverseAt(s);
    ReverseAt(Reverse(s));
  }

  /** `formattedData`: the points, oldest last in the input, reversed. */
  function FormattedData(rs: seq<Record>): (ps: seq<TrendPoint>)
    ensures |ps| == |rs|
    ensures forall i :: 0 <= i < |rs| ==> ps[i] == ToPoint(rs[|rs| - 1 - i])
  {
    ReverseAt(Points(rs));
    Reverse(Points(rs))
  }

  /** Each point carries its record's total and category values unchanged. */
  lemma PointCopiesRecord(rs: seq<Record>, i: int)
    requires 0 <= i < |rs|
    ensures var p, r := FormattedData(rs)[i], rs[|rs| - 1 - i];
      && p.total == r.totalFootprint && p.date == r.date
      && p.transport == r.categories.transport && p.energy == r.categories.energy
      && p.food == r.categories.food && p.consumption == r.categories.consumption
  {
  }

  /** With the list served newest first, the trend runs oldest first. */
  lemma TrendOldestFirst(rs: seq<Record>)
    requires NewestFirst(rs)
    ensures forall i, j :: 0 <= i < j < |rs| ==> FormattedData(rs)[i].date <= FormattedData(rs)[j].date
  {
    var ps := FormattedData(rs);
    forall i, j | 0 <= i < j < |rs|
      ensures ps[i].date <= ps[j].date
    {
      assert ps[i].date == rs[|rs| - 1 - i].date && ps[j].date == rs[|rs| - 1 - j].date;
    }
  }

  // ---------------------------------------------------------------------------------------
  // Category distribution
  // ---------------------------------------------------------------------------------------

  /** One slice of the distribution chart. */
  datatype Slice = Slice(name: string, value: real)

  /** The display names; the record's four keys always have one. */
  function Label(c: Category): (name: string)
    ensures name != []
  {
    match c
    case Transport => "Transporte"
    case Energy => "Energia"
    case Food => "Alimentação"
    case Consumption => "Consumo"
  }

  /** Different categories get different display names. */
  lemma LabelsDistinct(c: Category, d: Category)
    requires c != d
    ensures Label(c) != Label(d)
  {
  }

  /** Σ of one category over all records, folded from the left as `reduce` does. */
  function CategorySum(rs: seq<Record>, c: Category): (s: real)
    ensures |rs| == 1 ==> s == rs[0].categories.Get(c)
  {
    if rs == [] then 0.0 else CategorySum(rs[..|rs| - 1], c) + rs[|rs| - 1].categories.Get(c)
  }

  /** `categoryDistribution`: one slice per category key of the first record, in key order. */
  function CategoryDistribution(rs: seq<Record>): (slices: seq<Slice>)
    requires rs != []
    ensures |slices| == |CategoryOrder|
    ensures forall k :: 0 <= k < |slices| ==>
              slices[k] == Slice(Label(CategoryOrder[k]), CategorySum(rs, CategoryOrder[k]))
  {
    Slices(rs, CategoryOrder)
  }

  /** The slices for the keys `keys`, in their order. */
  function Slices(rs: seq<Record>, keys: seq<Category>): (slices: seq<Slice>)
    ensures |slices| == |keys|
    ensures forall k :: 0 <= k < |keys| ==> slices[k] == Slice(Label(keys[k]), CategorySum(rs, keys[k]))
  {
    if keys == [] then [] else [Slice(Label(keys[0]), CategorySum(rs, keys[0]))] + Slices(rs, keys[1..])
  }

  /** Σ over the records of their four category values added together. */
  function BreakdownSum(rs: seq<Record>): real {
    if rs == [] then 0.0 else BreakdownSum(rs[..|rs| - 1]) + rs[|rs| - 1].categories.Sum()
  }

  /** The four category sums add up to the sum of every record's categories. */
  lemma {:induction false} CategorySumsAddUp(rs: seq<Record>)
    ensures CategorySum(rs, Transport) + CategorySum(rs, Energy) + CategorySum(rs, Food)
          + CategorySum(rs, Consumption) == BreakdownSum(rs)
  {
    if rs != [] {
      CategorySumsAddUp(rs[..|rs| - 1]);
    }
  }

  /** The slice values add up to the sum of every record's categories. */
  lemma DistributionAddsUp(rs: seq<Record>)
    requires rs != []
    ensures var d := CategoryDistribution(rs);
      d[0].value + d[1].value + d[2].value + d[3].value == BreakdownSum(rs)
  {
    CategorySumsAddUp(rs);
  }

  /** A category sum over records whose values in it are all non-negative is non-negative. */
  lemma {:induction false} CategorySumNonNegative(rs: seq<Record>, c: Category)
    requires forall i :: 0 <= i < |rs| ==> 0.0 <= rs[i].categories.Get(c)
    ensures 0.0 <= CategorySum(rs, c)
  {
    if rs != [] {
      var init := rs[..|rs| - 1];
      assert forall i :: 0 <= i < |init| ==> init[i] == rs[i];
      CategorySumNonNegative(init, c);
    }
  }

  /** Every slice is non-negative when the records' category values are. */
  lemma DistributionNonNegative(rs: seq<Record>)
    requires rs != []
    requires forall i, c :: 0 <= i < |rs| ==> 0.0 <= rs[i].categories.Get(c)
    ensures forall k :: 0 <= k < |CategoryOrder| ==> 0.0 <= CategoryDistribution(rs)[k].value
  {
    forall c {
      CategorySumNonNegative(rs, c);
    }
  }

  /**
   * The slices are sums, not averages: n records with the same breakdown give n times each of
   * its values.
   */
  lemma {:induction false} CategorySumOfRepeats(rs: seq<Record>, b: Breakdown, c: Category)
    requires forall i :: 0 <= i < |rs| ==> rs[i].categories == b
    ensures CategorySum(rs, c) == (|rs| as real) * b.Get(c)
  {
    if rs != [] {
      var init := rs[..|rs| - 1];
      assert forall i :: 0 <= i < |init| ==> init[i] == rs[i];
      CategorySumOfRepeats(init, b, c);
    }
  }

  // ---------------------------------------------------------------------------------------
  // The page
  // ---------------------------------------------------------------------------------------

  /** What the page shows: the spinner, the no-data card, or the three charts. */
  datatype View =
    | Spinner
    | NoData
    | Charts(comparison: seq<Bar>, trend: seq<TrendPoint>, distribution: seq<Slice>)

  /** The page: no statistic is computed unless loading is over and there is a record. */
  function Render(loading: bool, rs: seq<Record>, community: Community.Stats): (v: View)
    ensures loading <==> v == Spinner
    ensures v == NoData <==> !loading && rs == []
    ensures v.Charts? ==> rs != [] && v.comparison == ComparisonData(rs, community)
    ensures v.Charts? ==> v.trend == FormattedData(rs) && v.distribution == CategoryDistribution(rs)
  {
    if loading then Spinner
    else if rs == [] then NoData
    else Charts(ComparisonData(rs, community), FormattedData(rs), CategoryDistribution(rs))
  }
}
