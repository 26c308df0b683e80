/** The season-wide batting aggregate `agg`: the innings-played rows grouped
    by exact player name, the counting columns summed, and the derived
    metrics computed from the sums. */
module Batting {
  import opened Base
  import opened Rows
  import opened Seqs
  import opened Grouping
  import opened Metrics

  /** One row of `agg`. */
  datatype BattingSummary = BattingSummary(
    player: string,
    matches: int,
    innings: int,
    runs: int,
    balls: int,
    fours: int,
    sixes: int,
    dots: int,
    notOuts: int,
    average: real,
    strikeRate: Option<real>,
    boundariesPerInnings: real,
    impactScore: int)

  /** The rows with an innings played, the only ones `agg` reads. */
  predicate Played(r: BattingRow) { r.inningsPlayed == 1 }

  /** The columns the aggregate sums, as pandas reads them. */
  function Dated(r: BattingRow): int { if r.date.Some? then 1 else 0 }
  function InningsOf(r: BattingRow): int { r.inningsPlayed }
  function RunsOf(r: BattingRow): int { Val(r.runs) }
  function BallsOf(r: BattingRow): int { Val(r.balls) }
  function FoursOf(r: BattingRow): int { Val(r.fours) }
  function SixesOf(r: BattingRow): int { Val(r.sixes) }
  function DotsOf(r: BattingRow): int { Val(r.dots) }
  function NotOutOf(r: BattingRow): int { if r.notOut == Some(true) then 1 else 0 }

  /** What every row of `agg` satisfies: at least one innings, no more not
      outs or matches than innings, and the average is the runs per
      dismissal, or the runs themselves when the player was never out. */
  predicate WellFormed(a: BattingSummary)
  {
    && a.innings >= 1
    && 0 <= a.notOuts <= a.innings
    && 0 <= a.matches <= a.innings
    && (a.notOuts == a.innings ==> a.average == a.runs as real)
    && (a.innings > a.notOuts ==> a.average * ((a.innings - a.notOuts) as real) == a.runs as real)
  }

  /** The aggregate row of `player` from that player's innings-played rows:
      "Matches" counts the rows with a date, the other counters are sums,
      and the four derived columns follow. */
  function Summarise(player: string, rows: seq<BattingRow>): (s: BattingSummary)
    requires rows != []
    requires forall r :: r in rows ==> Played(r)
    ensures s.player == player
    ensures s.innings == |rows| >= 1
    ensures 0 <= s.notOuts <= s.innings
    ensures 0 <= s.matches <= s.innings
    ensures s.innings - s.notOuts >= 1 ==>
      s.average * ((s.innings - s.notOuts) as real) == s.runs as real
    ensures s.notOuts == s.innings ==> s.average == s.runs as real
    ensures s.boundariesPerInnings * (s.innings as real) == (s.fours + s.sixes) as real
    ensures s.strikeRate.Some? <==> s.balls != 0
    ensures s.balls != 0 ==> s.strikeRate.value * (s.balls as real) == (s.runs * 100) as real
    ensures s.impactScore == s.runs + 2 * s.fours + 3 * s.sixes
    ensures WellFormed(s)
  {
    var innings := Total(rows, InningsOf);
    var notOuts := Total(rows, NotOutOf);
    var matches := Total(rows, Dated);
    assert forall r :: r in rows ==> Played(r) && InningsOf(r) == 1;
    TotalOfOnes(rows, InningsOf);
    TotalOfFlags(rows, NotOutOf);
    TotalOfFlags(rows, Dated);
    var runs := Total(rows, RunsOf);
    var balls := Total(rows, BallsOf);
    var fours := Total(rows, FoursOf);
    var sixes := Total(rows, SixesOf);
    BattingSummary(
      player, matches, innings, runs, balls, fours, sixes, Total(rows, DotsOf), notOuts,
      Average(runs, innings, notOuts),
      StrikeRate(runs, balls),
      BoundariesPerInnings(fours, sixes, innings),
      ImpactScore(runs, fours, sixes))
  }

  /** The aggregate rows for `keys`, each from that player's rows of `played`. */
  function SummariesFor(keys: seq<string>, played: seq<BattingRow>): (aggs: seq<BattingSummary>)
    requires forall r :: r in played ==> Played(r)
    requires forall k :: k in keys ==> k in Names(played, BatterName)
    ensures |aggs| == |keys|
    ensures forall i :: 0 <= i < |aggs| ==> aggs[i].player == keys[i] && WellFormed(aggs[i])
  {
    if keys == [] then []
    else
      var mine := Group(played, BatterName, keys[0]);
      assert mine != [] && forall r :: r in mine ==> Played(r);
      var first := Summarise(keys[0], mine);
      var rest := SummariesFor(keys[1..], played);
      assert forall i :: 1 <= i <= |rest| ==> ([first] + rest)[i] == rest[i - 1];
      [first] + rest
  }

  /** `agg` over the innings-played rows. */
  function SummariesOfPlayed(played: seq<BattingRow>): (aggs: seq<BattingSummary>)
    requires forall r :: r in played ==> Played(r)
    ensures |aggs| == |GroupKeys(played, BatterName)|
    ensures forall i :: 0 <= i < |aggs| ==> aggs[i].player == GroupKeys(played, BatterName)[i]
    ensures forall a :: a in aggs ==> WellFormed(a)
  {
    SummariesFor(GroupKeys(played, BatterName), played)
  }

  /** `agg`: one row per player who batted, players in name order. */
  function AggregateBatting(table: seq<BattingRow>): (aggs: seq<BattingSummary>)
    ensures |aggs| == |GroupKeys(Filter(table, Played), BatterName)|
    ensures forall i :: 0 <= i < |aggs| ==> aggs[i].player == GroupKeys(Filter(table, Played), BatterName)[i]
    ensures forall a :: a in aggs ==> WellFormed(a)
  {
    SummariesOfPlayed(Filter(table, Played))
  }

  lemma {:induction false} SummaryAt(keys: seq<string>, played: seq<BattingRow>, i: int)
    requires forall r :: r in played ==> Played(r)
    requires forall k :: k in keys ==> k in Names(played, BatterName)
    requires 0 <= i < |keys|
    ensures SummariesFor(keys, played)[i] == Summarise(keys[i], Group(played, BatterName, keys[i]))
  {
    if i > 0 {
      SummaryAt(keys[1..], played, i - 1);
    }
  }

  /** Each row of `agg` sums that player's innings-played rows: its runs,
      balls, fours, sixes and dots are the sums of the rows, its innings
      their number, its matches the number of them with a date, its not outs
      the number of them flagged not out. */
  lemma SummaryFacts(table: seq<BattingRow>, i: int)
    requires 0 <= i < |AggregateBatting(table)|
    ensures var a := AggregateBatting(table)[i];
      var mine := Group(Filter(table, Played), BatterName, a.player);
      && a.innings == |mine|
      && a.runs == Total(mine, RunsOf)
      && a.balls == Total(mine, BallsOf)
      && a.fours == Total(mine, FoursOf)
      && a.sixes == Total(mine, SixesOf)
      && a.dots == Total(mine, DotsOf)
      && a.matches == Total(mine, Dated)
      && a.notOuts == |Filter(mine, NotOut)|
  {
    var played := Filter(table, Played);
    var keys := GroupKeys(played, BatterName);
    SummaryAt(keys, played, i);
    var mine := Group(played, BatterName, keys[i]);
    FlagsCount(mine);
  }

  /** The mask of rows flagged not out. */
  predicate NotOut(r: BattingRow) { r.notOut == Some(true) }

  lemma {:induction false} FlagsCount(rows: seq<BattingRow>)
    ensures Total(rows, NotOutOf) == |Filter(rows, NotOut)|
  {
    if rows != [] {
      FlagsCount(rows[1..]);
    }
  }

  /** The players of `agg` are exactly the players with an innings played,
      each once, in name order. */
  lemma AggregatePlayers(table: seq<BattingRow>)
    ensures var players := Names(AggregateBatting(table), (a: BattingSummary) => a.player);
      && NoDup(players)
      && SortedBy(players, NameAtMost)
      && forall p :: p in players <==> exists r :: r in table && Played(r) && r.player == p
  {
    var played := Filter(table, Played);
    var keys := GroupKeys(played, BatterName);
    var players := Names(AggregateBatting(table), (a: BattingSummary) => a.player);
    assert players == keys;
    forall p ensures p in players <==> exists r :: r in table && Played(r) && r.player == p {
      if p in players {
        var i :| 0 <= i < |played| && Names(played, BatterName)[i] == p;
        assert played[i] in played;
      }
      if exists r :: r in table && Played(r) && r.player == p {
        var r :| r in table && Played(r) && r.player == p;
        FilterKeeps(table, Played, r);
        KeysCoverRows(played, BatterName);
      }
    }
  }

  /** Rows of players who did not bat change nothing in `agg`, wherever they
      stand in the table. */
  lemma DidNotBatRowsIgnored(before: seq<BattingRow>, dnb: seq<BattingRow>, after: seq<BattingRow>)
    requires forall r :: r in dnb ==> r.inningsPlayed == 0
    ensures AggregateBatting(before + dnb + after) == AggregateBatting(before + after)
  {
    PlayedRowsIgnoreDidNotBat(before, dnb, after);
  }

  lemma PlayedRowsIgnoreDidNotBat(before: seq<BattingRow>, dnb: seq<BattingRow>, after: seq<BattingRow>)
    requires forall r :: r in dnb ==> r.inningsPlayed == 0
    ensures Filter(before + dnb + after, Played) == Filter(before + after, Played)
  {
    assert forall x :: x in dnb ==> !Played(x);
    FilterNone(dnb, Played);
    FilterAppend(before, dnb, Played);
    var kept := Filter(before, Played);
    assert kept + [] == kept;
    FilterAppend(before + dnb, after, Played);
    FilterAppend(before, after, Played);
  }

  function SummaryRuns(a: BattingSummary): int { a.runs }
  function SummaryInnings(a: BattingSummary): int { a.innings }

  lemma {:induction false} SummariesTotals(keys: seq<string>, played: seq<BattingRow>)
    requires forall r :: r in played ==> Played(r)
    requires forall k :: k in keys ==> k in Names(played, BatterName)
    ensures Total(SummariesFor(keys, played), SummaryRuns) == PerKeyTotal(keys, played, BatterName, RunsOf)
    ensures Total(SummariesFor(keys, played), SummaryInnings) == PerKeyTotal(keys, played, BatterName, InningsOf)
  {
    if keys != [] {
      SummariesTotals(keys[1..], played);
    }
  }

  /** Every innings played is counted in exactly one player's row: the runs
      of `agg` add up to the runs of all innings-played rows, and its innings
      to their number. */
  lemma AggregateConservesTotals(table: seq<BattingRow>)
    ensures Total(AggregateBatting(table), SummaryRuns) == Total(Filter(table, Played), RunsOf)
    ensures Total(AggregateBatting(table), SummaryInnings) == |Filter(table, Played)|
  {
    var played := Filter(table, Played);
    var keys := GroupKeys(played, BatterName);
    SummariesTotals(keys, played);
    KeysCoverRows(played, BatterName);
    GroupsPartition(keys, played, BatterName, RunsOf);
    GroupsPartition(keys, played, BatterName, InningsOf);
    TotalOfOnes(played, InningsOf);
  }

  /** The impact score of one innings. */
  function InningsImpact(r: BattingRow): int
  {
    ImpactScore(RunsOf(r), FoursOf(r), SixesOf(r))
  }

  function RunsAndFours(r: BattingRow): int { RunsOf(r) + 2 * FoursOf(r) }

  /** A player's impact score is the sum of the impact scores of that
      player's innings: two extra points per four and three per six, summed
      over the season. */
  lemma ImpactIsSumOfInnings(player: string, rows: seq<BattingRow>)
    requires rows != []
    requires forall r :: r in rows ==> Played(r)
    ensures Summarise(player, rows).impactScore == Total(rows, InningsImpact)
  {
    TotalLinear(rows, RunsOf, FoursOf, RunsAndFours, 2);
    TotalLinear(rows, RunsAndFours, SixesOf, InningsImpact, 3);
  }
}
