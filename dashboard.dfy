/** One run of the dashboard script: the batting dashboard (the season
    aggregate, the two format tabs and the dismissal breakdown) and the
    bowling dashboard. The selectbox choices are parameters; the charts and
    tables they feed are the records returned. */
module Dashboard {
  import opened Base
  import opened Rows
  import opened Seqs
  import opened Normaliser
  import opened Batting
  import opened Bowling
  import opened Dismissals
  import opened Ranking
  import opened Views

  /** What `render_batting_tab` shows for one format. */
  datatype BattingTab = BattingTab(
    rows: seq<BattingRow>,
    topRuns: seq<PlayerRuns>,
    plot: seq<BattingSummary>,
    powerHitters: seq<BattingSummary>,
    openers: seq<BattingSummary>)

  /** `render_batting_tab(data, format_name)`: narrows `data` to the selected
      opponent and then to the selected player, then ranks. The scatter and
      the two lists are drawn from the season-wide `agg`, restricted to the
      players left in the view. */
  method RenderBattingTab(data: seq<BattingRow>, agg: seq<BattingSummary>, opponent: string, player: string)
    returns (tab: BattingTab)
    ensures tab.rows == Filter(data, Selected(opponent, player))
    ensures tab.topRuns == TopRunScorers(tab.rows)
    ensures tab.plot == PlotData(agg, tab.rows)
    ensures tab.powerHitters == PowerHitters(tab.plot)
    ensures tab.openers == Openers(tab.plot)
  {
    SelectionInSteps(data, opponent, player);
    var rows := data;
    if opponent != All {
      rows := Filter(rows, OpponentIs(opponent));
    }
    if player != All {
      rows := Filter(rows, PlayerIs(player));
    }
    var topRuns := TopRunScorers(rows);
    var plot := PlotData(agg, rows);
    tab := BattingTab(rows, topRuns, plot, PowerHitters(plot), Openers(plot));
  }

  /** The batting dashboard: one tab per format and the breakdown of the
      selected player's dismissals. */
  datatype BattingDashboardView = BattingDashboardView(
    agg: seq<BattingSummary>,
    proT20: BattingTab,
    pro40: BattingTab,
    breakdown: map<DismissalKind, nat>)

  /** The batting dashboard over the loaded table. `agg` is computed once
      from every format, so both tabs plot season-wide figures. */
  method RenderBattingDashboard(
    table: seq<BattingRow>,
    opponent20: string, player20: string,
    opponent40: string, player40: string,
    breakdownPlayer: string)
    returns (view: BattingDashboardView)
    ensures view.agg == AggregateBatting(table)
    ensures view.proT20.rows == Filter(FormatRows(table, ProT20), Selected(opponent20, player20))
    ensures view.pro40.rows == Filter(FormatRows(table, Pro40), Selected(opponent40, player40))
    ensures view.proT20.topRuns == TopRunScorers(view.proT20.rows)
    ensures view.proT20.plot == PlotData(view.agg, view.proT20.rows)
    ensures view.proT20.powerHitters == PowerHitters(view.proT20.plot)
    ensures view.proT20.openers == Openers(view.proT20.plot)
    ensures view.pro40.topRuns == TopRunScorers(view.pro40.rows)
    ensures view.pro40.plot == PlotData(view.agg, view.pro40.rows)
    ensures view.pro40.powerHitters == PowerHitters(view.pro40.plot)
    ensures view.pro40.openers == Openers(view.pro40.plot)
    ensures forall a :: a in view.proT20.plot ==> a in view.agg
    ensures forall a :: a in view.pro40.plot ==> a in view.agg
    ensures view.breakdown == Breakdown(table, breakdownPlayer)
  {
    var agg := AggregateBatting(table);
    var tab20 := RenderBattingTab(FormatRows(table, ProT20), agg, opponent20, player20);
    var tab40 := RenderBattingTab(FormatRows(table, Pro40), agg, opponent40, player40);
    view := BattingDashboardView(agg, tab20, tab40, Breakdown(table, breakdownPlayer));
  }

  /** What the bowling dashboard shows. */
  datatype BowlingTab = BowlingTab(
    summaries: seq<BowlingSummary>,
    bestEconomy: seq<BowlingSummary>,
    topWickets: seq<BowlingSummary>,
    controlBowlers: seq<BowlingSummary>)

  /** The bowling view `filtered_bowl`: the loaded table itself when both
      selections are "All", otherwise a new table of the rows that pass
      them, in table order. */
  method SelectBowlingRows(bowling: array<BowlingRow>, opponent: string, player: string)
    returns (filtered: array<BowlingRow>)
    ensures filtered[..] == Filter(bowling[..], BowlingSelected(opponent, player))
    ensures opponent == All && player == All ==> filtered == bowling
    ensures !(opponent == All && player == All) ==> fresh(filtered)
  {
    BowlingSelectionInSteps(bowling[..], opponent, player);
    filtered := bowling;
    if opponent != All {
      var rows := Filter(filtered[..], BowlingOpponentIs(opponent));
      filtered := new BowlingRow[|rows|](i requires 0 <= i < |rows| => rows[i]);
      assert filtered[..] == rows;
    }
    if player != All {
      var rows := Filter(filtered[..], BowlingPlayerIs(player));
      filtered := new BowlingRow[|rows|](i requires 0 <= i < |rows| => rows[i]);
      assert filtered[..] == rows;
    }
  }

  /** Aggregating the view after its "Economy" column is written gives the
      aggregate of the view as selected. */
  lemma AggregateAfterEconomyWrite(selected: seq<BowlingRow>, written: seq<BowlingRow>)
    requires |written| == |selected|
    requires forall i :: 0 <= i < |selected| ==> written[i] == WithEconomy(selected[i])
    ensures AggregateBowling(written) == AggregateBowling(selected)
  {
    forall i | 0 <= i < |selected| ensures WithoutEconomy(selected[i]) == WithoutEconomy(written[i]) {
      assert written[i] == WithEconomy(selected[i]);
    }
    AggregateIgnoresRowEconomy(selected, written);
  }

  /** The bowling dashboard: nothing but a warning for an empty table;
      otherwise the rows of the selected opponent and player, their
      "Economy" column written again, aggregated and ranked. With both
      selections at "All" the view is the loaded table itself, so the
      column is written into it; any other selection writes into a copy.
      Over a loaded table the write changes nothing, since the column it
      writes agrees with the one loading wrote. */
  method RenderBowlingTab(bowling: array<BowlingRow>, opponent: string, player: string)
    returns (tab: Option<BowlingTab>)
    modifies bowling
    ensures tab.None? <==> bowling.Length == 0
    ensures opponent == All && player == All ==>
      forall i :: 0 <= i < bowling.Length ==> bowling[i] == WithEconomy(old(bowling[i]))
    ensures !(opponent == All && player == All) ==> bowling[..] == old(bowling[..])
    ensures (forall i :: 0 <= i < bowling.Length ==> EconomyLoaded(old(bowling[i]))) ==>
      bowling[..] == old(bowling[..])
    ensures tab.Some? ==>
      var summaries := AggregateBowling(Filter(old(bowling[..]), BowlingSelected(opponent, player)));
      && tab.value.summaries == summaries
      && tab.value.bestEconomy == BestEconomy(summaries)
      && tab.value.topWickets == TopWickets(summaries)
      && tab.value.controlBowlers == ControlBowlers(summaries)
  {
    if bowling.Length == 0 {
      return None;
    }
    var filtered := SelectBowlingRows(bowling, opponent, player);
    ghost var selected := filtered[..];
    WriteEconomyColumn(filtered);
    AggregateAfterEconomyWrite(selected, filtered[..]);
    forall i | 0 <= i < bowling.Length && EconomyLoaded(old(bowling[i])) {
      EconomyRewriteIsIdentity(old(bowling[i]));
    }
    var summaries := AggregateBowling(filtered[..]);
    tab := Some(BowlingTab(summaries, BestEconomy(summaries), TopWickets(summaries), ControlBowlers(summaries)));
  }
}
