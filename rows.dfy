/** The two tables the dashboard loads, one record per row. Cells pandas
    coerces with `errors="coerce"` are `Option`s: `None` is the missing value
    a failed parse leaves. The text parsing itself is not modelled; rows
    arrive with their cells already typed. */
module Rows {
  import opened Base

  /** The dismissal text of a player who did not bat. */
  const DidNotBat: string := "DNB"

  /** The selectbox entry that switches a filter off. */
  const All: string := "All"

  /** One row of the batting table: one player in one match. The last two
      cells are the "Not Out" and "Innings Played" columns that loading adds;
      before loading they hold whatever the record was built with. */
  datatype BattingRow = BattingRow(
    player: string,
    date: Option<int>,
    opponent: Option<string>,
    tournament: Option<string>,
    dismissal: Option<string>,
    runs: Option<int>,
    balls: Option<int>,
    fours: Option<int>,
    sixes: Option<int>,
    dots: Option<int>,
    notOut: Option<bool>,
    inningsPlayed: int)

  /** One row of the bowling table. Overs are held in tenths, the decimal
      digits pandas reads ("3.4" is 34), so every sum and ratio is exact. The
      last cell is the "Economy" column that loading adds. */
  datatype BowlingRow = BowlingRow(
    player: string,
    date: Option<int>,
    opponent: Option<string>,
    overs: Option<int>,
    wickets: Option<int>,
    runs: Option<int>,
    maidens: Option<int>,
    dots: Option<int>,
    economy: Option<real>)

  function BatterName(r: BattingRow): string { r.player }

  function BowlerName(r: BowlingRow): string { r.player }
}
