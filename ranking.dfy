/** The ranked lists the two dashboards show: top run scorers, power hitters
    and recommended openers on the batting side; best economy, top wicket
    takers and control bowlers on the bowling side. Each is a selection
    followed by `sort_values`, some cut with `head`. pandas sorts with an
    unstable quicksort, so nothing here says how ties are ordered. */
module Ranking {
  import opened Base
  import opened Rows
  import opened Seqs
  import opened Grouping
  import opened Batting
  import opened Bowling

  // ---------------------------------------------------------------------
  // Orders used by `sort_values`.

  /** Descending runs. */
  predicate RunsAtLeast(a: PlayerRuns, b: PlayerRuns) { a.runs >= b.runs }

  /** Descending strike rate; a missing strike rate (NaN) goes last. */
  predicate StrikeRateAtLeast(a: BattingSummary, b: BattingSummary)
  {
    match (a.strikeRate, b.strikeRate)
    case (_, None) => true
    case (None, Some(_)) => false
    case (Some(x), Some(y)) => x >= y
  }

  /** Ascending economy. */
  predicate EconomyAtMost(a: BowlingSummary, b: BowlingSummary) { a.economy <= b.economy }

  /** Descending wickets. */
  predicate WicketsAtLeast(a: BowlingSummary, b: BowlingSummary) { a.wickets >= b.wickets }

  /** Descending maidens. */
  predicate MaidensAtLeast(a: BowlingSummary, b: BowlingSummary) { a.maidens >= b.maidens }

  lemma RunsOrder()
    ensures TotalPreorder(RunsAtLeast)
  {
  }

  lemma StrikeRateOrder()
    ensures TotalPreorder(StrikeRateAtLeast)
  {
  }

  lemma EconomyOrder()
    ensures TotalPreorder(EconomyAtMost)
  {
  }

  lemma WicketsOrder()
    ensures TotalPreorder(WicketsAtLeast)
  {
  }

  lemma MaidensOrder()
    ensures TotalPreorder(MaidensAtLeast)
  {
  }

  // ---------------------------------------------------------------------
  // Batting.

  /** One player's runs summed over the view, as the top-scorers chart reads them. */
  datatype PlayerRuns = PlayerRuns(player: string, runs: int)

  function RunTotalsFor(keys: seq<string>, data: seq<BattingRow>): (totals: seq<PlayerRuns>)
    ensures |totals| == |keys|
    ensures forall i :: 0 <= i < |keys| ==>
      totals[i].player == keys[i] && totals[i].runs == Total(Group(data, BatterName, keys[i]), Batting.RunsOf)
  {
    if keys == [] then []
    else
      var mine := Group(data, BatterName, keys[0]);
      [PlayerRuns(keys[0], Total(mine, Batting.RunsOf))] + RunTotalsFor(keys[1..], data)
  }

  /** The runs of every player of the view, summed over all the player's
      rows of the view (rows of players who did not bat included). */
  function RunTotals(data: seq<BattingRow>): (totals: seq<PlayerRuns>)
    ensures |totals| == |GroupKeys(data, BatterName)|
  {
    RunTotalsFor(GroupKeys(data, BatterName), data)
  }

  /** `top_runs`: the five highest run totals of the view. They are five
      players of the view (all of them when there are fewer), highest
      first, and no player left out scored more than any player shown. */
  function TopRunScorers(data: seq<BattingRow>): (top: seq<PlayerRuns>)
    ensures |top| == Min(5, |GroupKeys(data, BatterName)|)
    ensures SortedBy(top, RunsAtLeast)
    ensures multiset(top) <= multiset(RunTotals(data))
    ensures forall y, x :: y in top && x in multiset(RunTotals(data)) - multiset(top) ==> RunsAtLeast(y, x)
  {
    RunsOrder();
    TopK(RunTotals(data), RunsAtLeast, 5);
    Take(SortBy(RunTotals(data), RunsAtLeast), 5)
  }

  /** Each run total is the player's runs summed over the player's rows of
      the view, and every player of the view has one. */
  lemma RunTotalsArePerPlayer(data: seq<BattingRow>)
    ensures forall t :: t in RunTotals(data) ==>
      t.runs == Total(Group(data, BatterName, t.player), Batting.RunsOf)
    ensures forall r :: r in data ==> exists t :: t in RunTotals(data) && t.player == r.player
  {
    var keys := GroupKeys(data, BatterName);
    var totals := RunTotals(data);
    KeysCoverRows(data, BatterName);
    forall r | r in data ensures exists t :: t in totals && t.player == r.player {
      var i :| 0 <= i < |keys| && keys[i] == r.player;
      assert totals[i] in totals;
    }
  }

  function InView(names: seq<string>): BattingSummary -> bool
  {
    (a: BattingSummary) => a.player in names
  }

  /** `plot_data`: the rows of `agg` whose player appears in the view. */
  function PlotData(agg: seq<BattingSummary>, data: seq<BattingRow>): (plot: seq<BattingSummary>)
    ensures forall a :: a in plot ==> a in agg && exists r :: r in data && r.player == a.player
  {
    var names := Names(data, BatterName);
    var plot := Filter(agg, InView(names));
    assert forall a :: a in plot ==> a.player in names;
    plot
  }

  /** A row of `agg` is plotted exactly when its player has a row in the
      view. */
  lemma PlotDataSelects(agg: seq<BattingSummary>, data: seq<BattingRow>, a: BattingSummary)
    requires a in agg
    ensures a in PlotData(agg, data) <==> exists r :: r in data && r.player == a.player
  {
    if exists r :: r in data && r.player == a.player {
      var r :| r in data && r.player == a.player;
      var i :| 0 <= i < |data| && data[i] == r;
      assert Names(data, BatterName)[i] == a.player;
      FilterKeeps(agg, InView(Names(data, BatterName)), a);
    }
  }

  /** The power-hitter threshold: at least this many fours and sixes per
      innings. */
  const PowerHitterBoundaries: real := 3.0

  /** The opener threshold: a strike rate above this. */
  const OpenerStrikeRate: real := 100.0

  predicate IsPowerHitter(a: BattingSummary) { a.boundariesPerInnings >= PowerHitterBoundaries }

  predicate IsOpener(a: BattingSummary) { a.strikeRate.Some? && a.strikeRate.value > OpenerStrikeRate }

  /** The selected rows, each as often as it is plotted, in descending
      strike-rate order. */
  lemma {:induction false} SelectedBySpeed(plot: seq<BattingSummary>, keep: BattingSummary -> bool)
    ensures var r := SortBy(Filter(plot, keep), StrikeRateAtLeast);
      && SortedBy(r, StrikeRateAtLeast)
      && forall a :: multiset(r)[a] == if keep(a) then multiset(plot)[a] else 0
  {
    StrikeRateOrder();
    SortBySorted(Filter(plot, keep), StrikeRateAtLeast);
    forall a ensures multiset(SortBy(Filter(plot, keep), StrikeRateAtLeast))[a] == if keep(a) then multiset(plot)[a] else 0 {
      FilterCount(plot, keep, a);
    }
  }

  /** `power_hitters`: exactly the plotted players averaging at least three
      fours and sixes an innings, each as often as plotted, fastest scorers
      first. */
  function PowerHitters(plot: seq<BattingSummary>): (hitters: seq<BattingSummary>)
    ensures SortedBy(hitters, StrikeRateAtLeast)
    ensures forall a :: multiset(hitters)[a] == if a.boundariesPerInnings >= 3.0 then multiset(plot)[a] else 0
  {
    SelectedBySpeed(plot, IsPowerHitter);
    SortBy(Filter(plot, IsPowerHitter), StrikeRateAtLeast)
  }

  /** `openers`: exactly the plotted players with a strike rate above 100,
      each as often as plotted, fastest first; a player with no balls faced
      is never one. */
  function Openers(plot: seq<BattingSummary>): (openers: seq<BattingSummary>)
    ensures SortedBy(openers, StrikeRateAtLeast)
    ensures forall a ::
      multiset(openers)[a] == if a.strikeRate.Some? && a.strikeRate.value > 100.0 then multiset(plot)[a] else 0
  {
    SelectedBySpeed(plot, IsOpener);
    SortBy(Filter(plot, IsOpener), StrikeRateAtLeast)
  }

  // ---------------------------------------------------------------------
  // Bowling.

  /** How many bowlers `best_economy` and `top_wickets` keep. */
  const BestEconomyCount: nat := 7
  const TopWicketsCount: nat := 5

  /** `best_economy`: seven bowlers (all when there are fewer), most
      economical first, none more expensive than any bowler left out. */
  function BestEconomy(aggs: seq<BowlingSummary>): (best: seq<BowlingSummary>)
    ensures |best| == Min(7, |aggs|)
    ensures SortedBy(best, EconomyAtMost)
    ensures multiset(best) <= multiset(aggs)
    ensures forall y, x :: y in best && x in multiset(aggs) - multiset(best) ==> EconomyAtMost(y, x)
  {
    EconomyOrder();
    TopK(aggs, EconomyAtMost, BestEconomyCount);
    Take(SortBy(aggs, EconomyAtMost), BestEconomyCount)
  }

  /** `top_wickets`: five bowlers (all when there are fewer), most wickets
      first, none with fewer wickets than a bowler left out. */
  function TopWickets(aggs: seq<BowlingSummary>): (top: seq<BowlingSummary>)
    ensures |top| == Min(5, |aggs|)
    ensures SortedBy(top, WicketsAtLeast)
    ensures multiset(top) <= multiset(aggs)
    ensures forall y, x :: y in top && x in multiset(aggs) - multiset(top) ==> WicketsAtLeast(y, x)
  {
    WicketsOrder();
    TopK(aggs, WicketsAtLeast, TopWicketsCount);
    Take(SortBy(aggs, WicketsAtLeast), TopWicketsCount)
  }

  /** The maidens chart: every bowler once, most maidens first. */
  function ControlBowlers(aggs: seq<BowlingSummary>): (r: seq<BowlingSummary>)
    ensures SortedBy(r, MaidensAtLeast)
    ensures multiset(r) == multiset(aggs)
  {
    MaidensOrder();
    SortBySorted(aggs, MaidensAtLeast);
    SortBy(aggs, MaidensAtLeast)
  }
}
