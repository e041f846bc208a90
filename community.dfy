/**
 * The community statistics route: one global group over every stored record, its mean total
 * and its count, with an explicit zero answer when nothing is stored yet.
 */
module Community {
  import opened Records
  import opened Wrappers

  /** The body the route answers with. */
  datatype Stats = Stats(averageFootprint: real, totalCalculations: nat)

  /** One output document of the `$group` stage: `_id` is `null`, so there is no grouping key. */
  datatype Group = Group(averageFootprint: real, totalCalculations: nat)

  /**
   * The aggregation `[{ $group: { _id: null, averageFootprint: { $avg: ... }, totalCalculations: { $sum: 1 } } }]`:
   * no document gives no group; otherwise every document falls into the one group.
   */
  function GroupAll(all: seq<Record>): (groups: seq<Group>)
    ensures all == [] <==> groups == []
    ensures |groups| <= 1
    ensures groups != [] ==> groups[0].totalCalculations == |all|
    ensures groups != [] ==> groups[0].averageFootprint * (|all| as real) == SumTotals(all)
  {
    if all == [] then [] else [Group(Mean(all), |all|)]
  }

  /** The statistics: the group's figures, or zeros when the aggregation returned no group. */
  function CommunityStats(all: seq<Record>): (s: Stats)
    ensures all == [] ==> s == Stats(0.0, 0)
    ensures s.totalCalculations == |all|
    ensures s.averageFootprint * (|all| as real) == SumTotals(all)
  {
    var stats := GroupAll(all);
    if |stats| > 0 then Stats(stats[0].averageFootprint, stats[0].totalCalculations)
    else Stats(0.0, 0)
  }

  /** The HTTP answer: the statistics as JSON, or status 500 with the fixed text. */
  datatype Response = Json(stats: Stats) | ServerError(status: int, body: string)

  const ServerErrorText := "Erro no servidor"

  /**
   * The `/stats` handler. `stored` is what the database hands the aggregation, or `None` when
   * the aggregation throws.
   */
  function StatsHandler(stored: Option<seq<Record>>): (r: Response)
    ensures stored.None? <==> r == ServerError(500, ServerErrorText)
    ensures stored.Some? ==> r == Json(CommunityStats(stored.value))
  {
    match stored
    case None => ServerError(500, ServerErrorText)
    case Some(all) => Json(CommunityStats(all))
  }

  /** Over a non-empty store, the community average lies between the smallest and the largest total. */
  lemma AverageWithinExtremes(all: seq<Record>)
    requires all != []
    ensures MinTotal(all) <= CommunityStats(all).averageFootprint <= MaxTotal(all)
  {
    assert CommunityStats(all).averageFootprint == Mean(all);
    MeanBetweenExtremes(all);
  }

  /**
   * The aggregate is global: it reads nothing but the totals, so the owners of the records (or
   * any other field) make no difference.
   */
  lemma OnlyTotalsMatter(a: seq<Record>, b: seq<Record>)
    requires |a| == |b|
    requires forall i :: 0 <= i < |a| ==> a[i].totalFootprint == b[i].totalFootprint
    ensures CommunityStats(a) == CommunityStats(b)
  {
    SumTotalsOnlyReadsTotals(a, b);
  }
}
