# Huskies cricket dashboard: the statistics pipeline

A Dafny model of the statistics that the Huskies Cricket Club player
dashboard (`app.py`) computes from its two tables, batting and bowling, and
proofs about them.

The batting side covers these steps:

- loading adds two columns, "Not Out" and "Innings Played";
- the season aggregate `agg` groups the rows with an innings played by
  player name, then derives average, strike rate, fours and sixes per
  innings, and impact score;
- each format tab (ProT20, Pro40) selects rows by tournament, narrows
  them by the opponent and player selectboxes, and ranks: the top five run
  scorers, the power hitters and the recommended openers;
- `classify_dismissal` gives each dismissal one of six labels, and the
  breakdown counts the labels over one player's dismissals.

The bowling side covers these steps:

- loading adds the "Economy" column;
- the dashboard selects rows by opponent and player and writes the
  economy column again;
- `agg_bowling` groups the rows by player and derives the economy;
- the ranked lists are the best economy (seven), the top wicket takers
  (five) and the bowlers ordered by maidens.

Modules, in dependency order:

- `Base`: nullable cells, ASCII lower-casing, substring search.
- `Seqs`: boolean-mask selection, column sums, `head`, and sorting by an
  order with its top-k property.
- `Grouping`: group keys (distinct names, sorted the way pandas sorts
  them) and groups, with the proof that groups partition a table.
- `Rows`: the row records of the two tables.
- `Metrics`: the derived-metric formulas with their zero-denominator
  stand-ins, which are named constants.
- `Normaliser`: the columns loading adds, written into an array row by
  row.
- `Dismissals`: the classifier and the breakdown.
- `Batting` and `Bowling`: the two aggregates.
- `Views`: the format and selectbox selections.
- `Ranking`: the ranked lists.
- `Dashboard`: one run of each dashboard, with the selectbox choices as
  parameters.

Cells that pandas coerces are `Option`s, and a sum reads a missing cell as
0. Overs are held as integer tenths, so "3.4" is 34. pandas adds overs as
decimals, so the sums agree, and economy is `runs * 10 / tenths` exactly.

Some behaviour of `app.py` is easy to misread; the model follows the code:

- "Matches" in `agg` counts only rows with an innings played and a date
  (app.py:47-48). Rows marked "DNB" are not counted.
- `agg` is computed once over the whole batting table (app.py:47), not per
  format tab or per selection. Each tab plots the season-wide figures of
  the players left in its view (app.py:85).
- The sorts are pandas' default quicksort, which is not stable. No lemma
  here says how ties are ordered.
- The power-hitter heading says "> 3" (app.py:105), but the code keeps
  players with at least 3 fours and sixes per innings (app.py:106). The
  model keeps "at least 3".

## Model

| member | source | states |
|---|---|---|
| Base.Lower | app.py:130 | lower-casing keeps the length and maps every character on its own |
| Base.ContainsAt | app.py:131-139 | Python's `pat in s` holds exactly when `pat` occurs at some position of `s` |
| Normaliser.NotOutFlag | app.py:10 | "Not Out" is missing exactly when the dismissal is missing, and true exactly when the lower-cased dismissal has "not out" at some position |
| Normaliser.InningsPlayedFlag | app.py:11 | "Innings Played" is 0 or 1, and 0 exactly for the case-sensitive text "DNB" (a missing dismissal gives 1) |
| Normaliser.DidNotBatIsNotNotOut | app.py:10-11 | a row with no innings played is never flagged not out |
| Normaliser.LoadBatting | app.py:9-16 | after loading, every row of the array holds both added columns as the flags define them, with every other cell unchanged |
| Normaliser.RowEconomy | app.py:26 | a row's economy is missing exactly when its runs or overs are, and otherwise is runs per over, with a tenth of an over standing in for none |
| Normaliser.LoadBowling | app.py:26 | after loading, every row's "Economy" cell agrees with its runs and overs, with every other cell unchanged |
| Normaliser.WriteEconomyColumn | app.py:183 | writing the column sets each row's economy from its own runs and overs and changes nothing else |
| Normaliser.EconomyRewriteIsIdentity | app.py:183 | writing the column again over a loaded row changes nothing |
| Metrics.EffectiveOvers | app.py:195 | the overs economy divides by are never zero, and equal the overs whenever those are not zero |
| Metrics.Economy | app.py:195 | economy times overs is ten times the runs conceded, and with no overs bowled economy is ten times the runs |
| Metrics.Average | app.py:58 | average times dismissals is the runs, and with no dismissals the average is the runs |
| Metrics.StrikeRate | app.py:59 | a strike rate exists exactly when balls were faced, and then it times the balls is a hundred times the runs |
| Metrics.BoundariesPerInnings | app.py:60 | fours and sixes per innings, times the innings, is the fours plus sixes |
| Metrics.ImpactScore | app.py:61 | the impact score is never below the runs when the boundary counts are not negative, and equals the runs exactly when the fours and sixes add no points |
| Batting.Summarise | app.py:47-61 | a player's aggregate row: innings equals the number of rows, at least 1; not outs and matches lie between 0 and the innings; average, fours and sixes per innings, and strike rate (when balls were faced) satisfy their formulas; the impact score is the runs plus two per four and three per six |
| Batting.AggregateBatting | app.py:47-61 | one aggregate row per group key, in key order, and every row is well formed (at least one innings, bounded not outs and matches, average consistent with runs) |
| Batting.SummaryFacts | app.py:47-56 | each aggregate row's innings, matches (rows with a date), runs, balls, fours, sixes, dots and not outs are the counts and sums over that player's rows with an innings played |
| Batting.AggregatePlayers | app.py:47 | the players of `agg` are exactly the players with an innings played, each once, in ascending name order |
| Batting.DidNotBatRowsIgnored | app.py:47 | inserting rows with no innings played anywhere in the table leaves `agg` unchanged |
| Batting.AggregateConservesTotals | app.py:47-56 | the runs in `agg` add up to the runs of all rows with an innings played, and its innings add up to their number |
| Batting.ImpactIsSumOfInnings | app.py:61 | a player's impact score is the sum over the player's innings of runs plus two per four plus three per six |
| Bowling.SummariseBowler | app.py:186-195 | a bowler's matches lie between 0 and the bowler's number of rows, and economy times overs is ten times the runs conceded (ten times the runs with no overs) |
| Bowling.AggregateBowling | app.py:186-193 | one aggregate row per group key, in key order |
| Bowling.BowlingPlayers | app.py:186 | the players of `agg_bowling` are exactly the players of the view, each once, in ascending name order |
| Bowling.BowlingSummaryFacts | app.py:186-195 | each row's matches are the bowler's rows with a date; its overs, wickets, runs conceded, maidens and dots are the sums over that bowler's rows; its economy follows from them |
| Bowling.BowlingConservesTotals | app.py:186-193 | the wickets and runs conceded in `agg_bowling` add up to those of the view |
| Bowling.AggregateIgnoresRowEconomy | app.py:183-193 | two views that differ only in their "Economy" cells have the same aggregate |
| Grouping.GroupKeys | app.py:47 | the group keys are the table's names, each exactly once, in ascending code-point order |
| Grouping.Group | app.py:47 | a group holds exactly the rows with its key, and every key of the table has a non-empty group |
| Grouping.GroupsPartition | app.py:47 | summed over all groups, any column adds up to its total over the table |
| Dismissals.ClassifyFirstMatch | app.py:129-141 | each label is given exactly when its rule matches and no earlier rule does |
| Dismissals.CatchIsNeverBowled | app.py:135-140 | text with "c." in it is never labelled Bowled, and the caught-behind marker always contains "c." |
| Dismissals.ClassifyCatchAndBowl | app.py:137-140 | "c.b.Smith" is labelled Caught, not Bowled |
| Dismissals.ClassifyCaughtBehindExample | app.py:135-136 | "c.†jones b.lee" is labelled Caught Behind |
| Dismissals.Classify | app.py:129-141 | a dismissal is Run Out exactly when its lower-cased text contains "runout"; a Bowled dismissal has "b." and no "c."; a missing dismissal reads as "nan" and is labelled Other |
| Dismissals.ClassifyIgnoresCase | app.py:130 | the label of a text is the label of its lower-cased text |
| Dismissals.DismissalRows | app.py:124-127 | the breakdown reads exactly the selected player's rows whose lower-cased dismissal is neither "dnb" nor "not out", each as often as it is in the table |
| Dismissals.CountSumIsLength | app.py:143 | every row gets exactly one label, so the six label counts add up to the number of rows |
| Dismissals.Breakdown | app.py:143-145 | every listed label has a positive count, at most the number of selected rows |
| Dismissals.BreakdownCounts | app.py:143-145 | for every label, the breakdown shows the number of selected rows that get that label |
| Dismissals.BreakdownLabels | app.py:144 | a label is listed exactly when some selected row gets it |
| Dismissals.BreakdownTotals | app.py:144 | the counts of the breakdown add up to the number of selected rows |
| Views.FormatRows | app.py:114 | a format tab keeps only table rows whose tournament is present and contains the format name |
| Views.FormatRowsSelect | app.py:114-118 | a table row is in a format tab exactly when its tournament is present and contains the format name |
| Views.FormatRowsIdempotent | app.py:114-118 | selecting a format tab from its own rows gives the same rows |
| Views.SelectionInSteps | app.py:71-77 | narrowing by opponent and then by player, skipping "All", selects exactly the rows that pass both selections, in table order |
| Views.SelectedRows | app.py:71-77 | a row is in the view exactly when it is in the table, against the chosen opponent (a missing opponent never matches) and the chosen player's |
| Views.SelectionCommutes | app.py:71-77 | the two selections commute, and applying a selection twice is applying it once |
| Views.BowlingSelectionInSteps | app.py:160-169 | the bowling view's step-by-step narrowing selects exactly the rows that pass both selections, in table order |
| Views.BowlingSelectedRows | app.py:160-169 | a bowling row is in the view exactly when it is in the table and passes both selections |
| Ranking.TopRunScorers | app.py:81 | the top run scorers are min(5, players) of the view's run totals, highest first, and none has fewer runs than a player left out |
| Ranking.RunTotalsArePerPlayer | app.py:81 | each run total sums the player's rows of the view, and every player of the view has one |
| Ranking.PlotData | app.py:85 | plotted rows are rows of `agg` whose player appears in the view |
| Ranking.PlotDataSelects | app.py:85 | a row of `agg` is plotted exactly when its player appears in the view |
| Ranking.PowerHitters | app.py:106 | the power hitters are exactly the plotted rows with at least 3 fours and sixes per innings, each as often as plotted, in descending strike rate with missing rates last |
| Ranking.Openers | app.py:110 | the openers are exactly the plotted rows with a strike rate above 100, each as often as plotted, in descending strike rate |
| Ranking.BestEconomy | app.py:198 | the best-economy list holds min(7, bowlers) bowlers, lowest economy first, none dearer than a bowler left out |
| Ranking.TopWickets | app.py:199 | the top wicket takers are min(5, bowlers) bowlers, most wickets first, none with fewer wickets than a bowler left out |
| Ranking.ControlBowlers | app.py:219 | the maidens chart shows every bowler exactly once, most maidens first |
| Dashboard.RenderBattingTab | app.py:65-111 | the tab's rows are the format rows that pass both selections; its top scorers, plot data, power hitters and openers are the ranked lists over those rows and the season-wide `agg` |
| Dashboard.RenderBattingDashboard | app.py:45-148 | `agg` is computed once over the whole table; each format tab's rows are the format rows that pass its selections; each tab's top scorers, plot data, power hitters and openers are the ranked lists over its rows and that same `agg`; the breakdown is the selected player's |
| Dashboard.SelectBowlingRows | app.py:160-169 | the bowling view holds exactly the rows that pass both selections, in table order; it is the loaded table itself when both are "All" and a new table otherwise |
| Dashboard.AggregateAfterEconomyWrite | app.py:183-186 | aggregating the view after its "Economy" column is written gives the aggregate of the view as selected |
| Dashboard.RenderBowlingTab | app.py:153-199 | an empty table gives no dashboard. With both selections "All", the economy column is written into the loaded table itself; otherwise the table is untouched. Over a loaded table it is untouched either way. The aggregate and the three lists are those of the selected rows |

## Left out

- `scraper.py` is not part of this model. The dashboard only reads the
  CSV files it writes.
- Streamlit and plotly rendering is left out: page setup, tabs, charts,
  `st.dataframe`, and the debugging `print`. The records the dashboard
  methods return stand for what is drawn.
- `@st.cache_data` is left out, because a cached table is modelled as the
  table itself.
- CSV reading and the `to_datetime` / `to_numeric` coercions are left out.
  Rows arrive with typed cells, and a failed parse is `None`. The second
  round of coercions in the bowling view (lines 172-176) changes nothing
  on typed cells, so it is not modelled.
- Overs with more than one decimal digit are not represented, because
  overs are tenths.
- Dates are opaque integers. Only "is the date present" matters to the
  statistics.
- The selectbox option lists (lines 69, 74, 123, 160, 167) are left out.
  Each choice is a parameter; a choice that matches no row gives an
  empty view.
- The boundary melt (line 95) is left out, because it is a reshaping for
  a chart.
- The runs timeline (line 100) is left out.
- `value_counts` sorts its output by count. The breakdown is a map from
  label to count, so that output order is not modelled.
- Base.Lower: lower-casing covers the ASCII letters only, not Unicode
  case mapping.
- Metrics.StrikeRate: with no balls faced, pandas gives inf (runs > 0)
  or NaN (no runs). The model gives `None` for both. So a player with runs
  and no balls is never an opener here, but would be one in pandas, where
  that player would also sort first.
- Ranking.PowerHitters: "Avg 4s+6s" is floating point in pandas and an
  exact real here, so rounding at the threshold of 3 is not modelled.
- Ranking.TopRunScorers: how ties are ordered is not stated, because
  pandas' quicksort does not promise an order. The same holds for every
  ranked list.
- Grouping.GroupKeys: this is code-point order for names. pandas sorts
  group keys the same way for plain strings; a missing player name
  (NaN), which pandas would drop from the groups, is not modelled.
- Normaliser.NotOutFlag: when every cell of the Dismissal column is empty,
  pandas reads it as a float column and `.str` raises, which stops the
  program. The model treats each cell on its own and gives `None` flags.
- Views.FormatRows: likewise, an all-empty Tournament column makes `.str`
  raise. The model gives empty format tabs.
- Dismissals.DismissalRows: likewise, an all-empty Dismissal column makes
  `.str` raise. The model gives the player's rows with a missing
  dismissal, so the breakdown counts them as Other.
