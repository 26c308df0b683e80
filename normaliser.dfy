/** Loading the two tables: the columns `load_batting_data` and
    `load_bowling_data` add, each written row by row into the table. */
module Normaliser {
  import opened Base
  import opened Rows
  import opened Metrics

  /** "Not Out": the lower-cased dismissal contains "not out". A missing
      dismissal leaves the flag missing, as pandas string methods do. */
  function NotOutFlag(dismissal: Option<string>): (f: Option<bool>)
    ensures f.None? <==> dismissal.None?
    ensures f == Some(true) ==>
      dismissal.Some? && exists i: nat :: OccursAt(Lower(dismissal.value), "not out", i)
    ensures dismissal.Some? && (exists i: nat :: OccursAt(Lower(dismissal.value), "not out", i)) ==> f == Some(true)
  {
    if dismissal.None? then None
    else
      var low := Lower(dismissal.value);
      ContainsAt(low, "not out");
      assert Contains(low, "not out") <==> exists i: nat :: OccursAt(low, "not out", i);
      Some(Contains(low, "not out"))
  }

  /** "Innings Played": 0 for the exact, case-sensitive text "DNB" and 1 for
      anything else, a missing dismissal included. */
  function InningsPlayedFlag(dismissal: Option<string>): (n: int)
    ensures n == 0 || n == 1
    ensures n == 0 <==> dismissal == Some(DidNotBat)
  {
    if dismissal == Some(DidNotBat) then 0 else 1
  }

  /** A player who did not bat is never counted as not out. */
  lemma DidNotBatIsNotNotOut(dismissal: Option<string>)
    requires InningsPlayedFlag(dismissal) == 0
    ensures NotOutFlag(dismissal) == Some(false)
  {
    var d := Lower(DidNotBat);
    assert d == "dnb";
    forall i: nat ensures !OccursAt(d, "not out", i) {
    }
  }

  /** A batting row once both added columns are written. */
  predicate BattingLoaded(r: BattingRow)
  {
    r.notOut == NotOutFlag(r.dismissal) && r.inningsPlayed == InningsPlayedFlag(r.dismissal)
  }

  /** The row with both added columns written; every other cell unchanged. */
  function WithBattingFlags(r: BattingRow): (l: BattingRow)
    ensures BattingLoaded(l)
    ensures l.(notOut := r.notOut, inningsPlayed := r.inningsPlayed) == r
  {
    r.(notOut := NotOutFlag(r.dismissal), inningsPlayed := InningsPlayedFlag(r.dismissal))
  }

  /** The row once the "Not Out" column is written. */
  function WithNotOut(r: BattingRow): BattingRow
  {
    r.(notOut := NotOutFlag(r.dismissal))
  }

  /** The row once the "Innings Played" column is written. */
  function WithInningsPlayed(r: BattingRow): BattingRow
  {
    r.(inningsPlayed := InningsPlayedFlag(r.dismissal))
  }

  /** `load_batting_data`: writes the "Not Out" column, then the "Innings
      Played" column, into every row. */
  method LoadBatting(table: array<BattingRow>)
    modifies table
    ensures forall i :: 0 <= i < table.Length ==> table[i] == WithBattingFlags(old(table[i]))
  {
    var i := 0;
    while i < table.Length
      invariant 0 <= i <= table.Length
      invariant forall j :: 0 <= j < i ==> table[j] == WithNotOut(old(table[j]))
      invariant forall j :: i <= j < table.Length ==> table[j] == old(table[j])
    {
      table[i] := WithNotOut(table[i]);
      i := i + 1;
    }
    i := 0;
    while i < table.Length
      invariant 0 <= i <= table.Length
      invariant forall j :: 0 <= j < i ==> table[j] == WithInningsPlayed(WithNotOut(old(table[j])))
      invariant forall j :: i <= j < table.Length ==> table[j] == WithNotOut(old(table[j]))
    {
      table[i] := WithInningsPlayed(table[i]);
      i := i + 1;
    }
    assert forall j :: 0 <= j < table.Length ==>
      WithInningsPlayed(WithNotOut(old(table[j]))) == WithBattingFlags(old(table[j]));
  }

  /** "Economy" of one row, runs over overs, a tenth of an over standing in for none: missing when
      either cell is missing, as NaN is in pandas arithmetic. */
  function RowEconomy(runs: Option<int>, overs: Option<int>): (e: Option<real>)
    ensures e.Some? <==> runs.Some? && overs.Some?
    ensures e.Some? && overs.value != 0 ==> e.value * (overs.value as real) == (runs.value * 10) as real
    ensures e.Some? && overs.value == 0 ==> e.value == (runs.value * 10) as real
  {
    if runs.Some? && overs.Some? then Some(Economy(runs.value, overs.value)) else None
  }

  /** A bowling row whose "Economy" cell agrees with its runs and overs. */
  predicate EconomyLoaded(r: BowlingRow)
  {
    r.economy == RowEconomy(r.runs, r.overs)
  }

  function WithEconomy(r: BowlingRow): (l: BowlingRow)
    ensures EconomyLoaded(l)
    ensures l.(economy := r.economy) == r
  {
    r.(economy := RowEconomy(r.runs, r.overs))
  }

  /** Writing the "Economy" column into a row that already has it changes
      nothing: the column loading writes and the one the bowling view writes
      again agree. */
  lemma EconomyRewriteIsIdentity(r: BowlingRow)
    requires EconomyLoaded(r)
    ensures WithEconomy(r) == r
  {
  }

  /** Writes the "Economy" column row by row, runs over overs with a tenth
      of an over for none;
      used by `load_bowling_data` and again by the bowling view. */
  method WriteEconomyColumn(table: array<BowlingRow>)
    modifies table
    ensures forall i :: 0 <= i < table.Length ==> table[i] == WithEconomy(old(table[i]))
  {
    var i := 0;
    while i < table.Length
      invariant 0 <= i <= table.Length
      invariant forall j :: 0 <= j < i ==> table[j] == WithEconomy(old(table[j]))
      invariant forall j :: i <= j < table.Length ==> table[j] == old(table[j])
    {
      table[i] := WithEconomy(table[i]);
      i := i + 1;
    }
  }

  /** `load_bowling_data`: adds the "Economy" column. */
  method LoadBowling(table: array<BowlingRow>)
    modifies table
    ensures forall i :: 0 <= i < table.Length ==> table[i] == WithEconomy(old(table[i]))
    ensures forall i :: 0 <= i < table.Length ==> EconomyLoaded(table[i])
  {
    WriteEconomyColumn(table);
  }
}
