/** The bowling aggregate `agg_bowling`: the rows of the bowling view grouped
    by exact player name, the counting columns summed, and the aggregate
    economy computed from the sums. */
module Bowling {
  import opened Base
  import opened Rows
  import opened Seqs
  import opened Grouping
  import opened Metrics

  /** One row of `agg_bowling`; overs in tenths. */
  datatype BowlingSummary = BowlingSummary(
    player: string,
    matches: int,
    overs: int,
    wickets: int,
    runsConceded: int,
    maidens: int,
    dots: int,
    economy: real)

  /** The columns the aggregate sums, as pandas reads them. */
  function Dated(r: BowlingRow): int { if r.date.Some? then 1 else 0 }
  function OversOf(r: BowlingRow): int { Val(r.overs) }
  function WicketsOf(r: BowlingRow): int { Val(r.wickets) }
  function RunsOf(r: BowlingRow): int { Val(r.runs) }
  function MaidensOf(r: BowlingRow): int { Val(r.maidens) }
  function DotsOf(r: BowlingRow): int { Val(r.dots) }

  /** The aggregate row of `player` from that player's rows: "Matches"
      counts the rows with a date, the other counters are sums, and the
      economy is the runs conceded per over bowled. */
  function SummariseBowler(player: string, rows: seq<BowlingRow>): (s: BowlingSummary)
    ensures s.player == player
    ensures 0 <= s.matches <= |rows|
    ensures s.overs != 0 ==> s.economy * (s.overs as real) == (s.runsConceded * 10) as real
    ensures s.overs == 0 ==> s.economy == (s.runsConceded * 10) as real
  {
    TotalOfFlags(rows, Dated);
    var overs := Total(rows, OversOf);
    var runs := Total(rows, RunsOf);
    BowlingSummary(
      player, Total(rows, Dated), overs, Total(rows, WicketsOf), runs,
      Total(rows, MaidensOf), Total(rows, DotsOf), Economy(runs, overs))
  }

  /** The aggregate rows for `keys`, each from that player's rows. */
  function BowlersFor(keys: seq<string>, rows: seq<BowlingRow>): (aggs: seq<BowlingSummary>)
    ensures |aggs| == |keys|
    ensures forall i :: 0 <= i < |aggs| ==> aggs[i].player == keys[i]
  {
    if keys == [] then []
    else [SummariseBowler(keys[0], Group(rows, BowlerName, keys[0]))] + BowlersFor(keys[1..], rows)
  }

  /** `agg_bowling`: one row per player of the view, players in name order. */
  function AggregateBowling(rows: seq<BowlingRow>): (aggs: seq<BowlingSummary>)
    ensures |aggs| == |GroupKeys(rows, BowlerName)|
    ensures forall i :: 0 <= i < |aggs| ==> aggs[i].player == GroupKeys(rows, BowlerName)[i]
  {
    BowlersFor(GroupKeys(rows, BowlerName), rows)
  }

  /** The players of `agg_bowling` are exactly the players of the view,
      each once, in name order. */
  lemma BowlingPlayers(rows: seq<BowlingRow>)
    ensures var players := Names(AggregateBowling(rows), (a: BowlingSummary) => a.player);
      && NoDup(players)
      && SortedBy(players, NameAtMost)
      && forall p :: p in players <==> exists r :: r in rows && r.player == p
  {
    var keys := GroupKeys(rows, BowlerName);
    var players := Names(AggregateBowling(rows), (a: BowlingSummary) => a.player);
    assert players == keys;
    forall p ensures p in players <==> exists r :: r in rows && r.player == p {
      if p in players {
        var i :| 0 <= i < |rows| && Names(rows, BowlerName)[i] == p;
        assert rows[i] in rows;
      }
      if exists r :: r in rows && r.player == p {
        KeysCoverRows(rows, BowlerName);
      }
    }
  }

  /** Each row of `agg_bowling` sums that bowler's rows: its matches are
      the number of them with a date (no more than their number), its overs,
      wickets, runs conceded, maidens and dots the sums of the rows, and its
      economy the one those runs and overs give, with a tenth of an over
      standing in for none. */
  lemma BowlingSummaryFacts(rows: seq<BowlingRow>, i: int)
    requires 0 <= i < |AggregateBowling(rows)|
    ensures var a := AggregateBowling(rows)[i];
      var mine := Group(rows, BowlerName, a.player);
      && a.matches == Total(mine, Dated)
      && 0 <= a.matches <= |mine|
      && a.overs == Total(mine, OversOf)
      && a.wickets == Total(mine, WicketsOf)
      && a.runsConceded == Total(mine, RunsOf)
      && a.maidens == Total(mine, MaidensOf)
      && a.dots == Total(mine, DotsOf)
      && a.economy == Economy(a.runsConceded, a.overs)
  {
    BowlerAt(GroupKeys(rows, BowlerName), rows, i);
  }

  lemma {:induction false} BowlerAt(keys: seq<string>, rows: seq<BowlingRow>, i: int)
    requires 0 <= i < |keys|
    ensures BowlersFor(keys, rows)[i] == SummariseBowler(keys[i], Group(rows, BowlerName, keys[i]))
  {
    if i > 0 {
      BowlerAt(keys[1..], rows, i - 1);
    }
  }

  function SummaryWickets(a: BowlingSummary): int { a.wickets }
  function SummaryRuns(a: BowlingSummary): int { a.runsConceded }

  lemma {:induction false} BowlersTotals(keys: seq<string>, rows: seq<BowlingRow>)
    ensures Total(BowlersFor(keys, rows), SummaryWickets) == PerKeyTotal(keys, rows, BowlerName, WicketsOf)
    ensures Total(BowlersFor(keys, rows), SummaryRuns) == PerKeyTotal(keys, rows, BowlerName, RunsOf)
  {
    if keys != [] {
      BowlersTotals(keys[1..], rows);
    }
  }

  /** Every row of the view is counted for exactly one bowler: the wickets
      and runs conceded of `agg_bowling` add up to those of the view. */
  lemma BowlingConservesTotals(rows: seq<BowlingRow>)
    ensures Total(AggregateBowling(rows), SummaryWickets) == Total(rows, WicketsOf)
    ensures Total(AggregateBowling(rows), SummaryRuns) == Total(rows, RunsOf)
  {
    var keys := GroupKeys(rows, BowlerName);
    BowlersTotals(keys, rows);
    KeysCoverRows(rows, BowlerName);
    GroupsPartition(keys, rows, BowlerName, WicketsOf);
    GroupsPartition(keys, rows, BowlerName, RunsOf);
  }

  /** A row with its "Economy" cell blanked. */
  function WithoutEconomy(r: BowlingRow): BowlingRow { r.(economy := None) }

  /** Two tables that differ at most in their "Economy" cells. */
  predicate SameButEconomy(a: seq<BowlingRow>, b: seq<BowlingRow>)
  {
    |a| == |b| && forall i :: 0 <= i < |a| ==> WithoutEconomy(a[i]) == WithoutEconomy(b[i])
  }

  lemma {:induction false} TotalsIgnoreEconomy(a: seq<BowlingRow>, b: seq<BowlingRow>)
    requires SameButEconomy(a, b)
    ensures Total(a, Dated) == Total(b, Dated)
    ensures Total(a, OversOf) == Total(b, OversOf)
    ensures Total(a, WicketsOf) == Total(b, WicketsOf)
    ensures Total(a, RunsOf) == Total(b, RunsOf)
    ensures Total(a, MaidensOf) == Total(b, MaidensOf)
    ensures Total(a, DotsOf) == Total(b, DotsOf)
  {
    if a != [] {
      assert WithoutEconomy(a[0]) == WithoutEconomy(b[0]);
      TotalsIgnoreEconomy(a[1..], b[1..]);
    }
  }

  lemma {:induction false} GroupIgnoresEconomy(a: seq<BowlingRow>, b: seq<BowlingRow>, k: string)
    requires SameButEconomy(a, b)
    ensures SameButEconomy(Group(a, BowlerName, k), Group(b, BowlerName, k))
  {
    if a != [] {
      assert WithoutEconomy(a[0]) == WithoutEconomy(b[0]);
      GroupIgnoresEconomy(a[1..], b[1..], k);
      var ga := Group(a[1..], BowlerName, k);
      var gb := Group(b[1..], BowlerName, k);
      if a[0].player == k {
        assert Group(a, BowlerName, k) == [a[0]] + ga;
        assert Group(b, BowlerName, k) == [b[0]] + gb;
      } else {
        assert Group(a, BowlerName, k) == ga;
        assert Group(b, BowlerName, k) == gb;
      }
    }
  }

  lemma {:induction false} BowlersIgnoreEconomy(keys: seq<string>, a: seq<BowlingRow>, b: seq<BowlingRow>)
    requires SameButEconomy(a, b)
    ensures BowlersFor(keys, a) == BowlersFor(keys, b)
  {
    if keys != [] {
      GroupIgnoresEconomy(a, b, keys[0]);
      TotalsIgnoreEconomy(Group(a, BowlerName, keys[0]), Group(b, BowlerName, keys[0]));
      BowlersIgnoreEconomy(keys[1..], a, b);
    }
  }

  /** `agg_bowling` reads no row's "Economy" cell: rewriting that column
      before aggregating, as the bowling view does, changes nothing. */
  lemma AggregateIgnoresRowEconomy(a: seq<BowlingRow>, b: seq<BowlingRow>)
    requires SameButEconomy(a, b)
    ensures AggregateBowling(a) == AggregateBowling(b)
  {
    assert Names(a, BowlerName) == Names(b, BowlerName) by {
      forall i | 0 <= i < |a| ensures a[i].player == b[i].player {
        assert WithoutEconomy(a[i]) == WithoutEconomy(b[i]);
      }
    }
    BowlersIgnoreEconomy(GroupKeys(a, BowlerName), a, b);
  }
}
