/** The row selections the dashboard makes before it aggregates or ranks:
    the format tabs of the batting dashboard and the opponent and player
    selectboxes of both dashboards. */
module Views {
  import opened Base
  import opened Rows
  import opened Seqs

  /** The two format tabs of the batting dashboard. */
  const ProT20: string := "ProT20"
  const Pro40: string := "Pro40"

  /** The tournament text contains the format name; a missing tournament
      is never in a format. */
  function InFormat(fmt: string): BattingRow -> bool
  {
    (r: BattingRow) => r.tournament.Some? && Contains(r.tournament.value, fmt)
  }

  /** The rows of one format tab (`prot20_df`, `pro40_df`). */
  function FormatRows(table: seq<BattingRow>, fmt: string): (rows: seq<BattingRow>)
    ensures forall r :: r in rows ==> r in table && r.tournament.Some?
    ensures forall r :: r in rows ==> exists i: nat :: OccursAt(r.tournament.value, fmt, i)
  {
    var rows := Filter(table, InFormat(fmt));
    forall r | r in rows ensures exists i: nat :: OccursAt(r.tournament.value, fmt, i) {
      ContainsAt(r.tournament.value, fmt);
    }
    rows
  }

  /** A row is in a format tab exactly when its tournament names the
      format somewhere in its text. */
  lemma FormatRowsSelect(table: seq<BattingRow>, fmt: string, r: BattingRow)
    requires r in table
    ensures r in FormatRows(table, fmt) <==>
      r.tournament.Some? && exists i: nat :: OccursAt(r.tournament.value, fmt, i)
  {
    if r.tournament.Some? {
      ContainsAt(r.tournament.value, fmt);
      if Contains(r.tournament.value, fmt) {
        FilterKeeps(table, InFormat(fmt), r);
      }
    }
  }

  /** Selecting a format tab from its own rows changes nothing. */
  lemma FormatRowsIdempotent(table: seq<BattingRow>, fmt: string)
    ensures FormatRows(FormatRows(table, fmt), fmt) == FormatRows(table, fmt)
  {
    FilterIdempotent(table, InFormat(fmt));
  }

  // ---------------------------------------------------------------------
  // Batting selectboxes: exact match on the opponent and on the player
  // name.

  function OpponentIs(opponent: string): BattingRow -> bool
  {
    (r: BattingRow) => r.opponent == Some(opponent)
  }

  function PlayerIs(player: string): BattingRow -> bool
  {
    (r: BattingRow) => r.player == player
  }

  /** The batting rows both selectboxes let through, "All" letting every
      row through. */
  function Selected(opponent: string, player: string): BattingRow -> bool
  {
    (r: BattingRow) =>
      (opponent == All || r.opponent == Some(opponent)) && (player == All || r.player == player)
  }

  /** Filtering by opponent and then by player keeps exactly the rows of
      the table that satisfy both selections, in table order. */
  lemma SelectionInSteps(rows: seq<BattingRow>, opponent: string, player: string)
    ensures opponent != All && player != All ==>
      Filter(Filter(rows, OpponentIs(opponent)), PlayerIs(player)) == Filter(rows, Selected(opponent, player))
    ensures opponent != All && player == All ==>
      Filter(rows, OpponentIs(opponent)) == Filter(rows, Selected(opponent, player))
    ensures opponent == All && player != All ==>
      Filter(rows, PlayerIs(player)) == Filter(rows, Selected(opponent, player))
    ensures opponent == All && player == All ==>
      rows == Filter(rows, Selected(opponent, player))
  {
    if opponent != All && player != All {
      FilterFilter(rows, OpponentIs(opponent), PlayerIs(player), Selected(opponent, player));
    } else if opponent != All {
      SameMask(rows, OpponentIs(opponent), Selected(opponent, player));
    } else if player != All {
      SameMask(rows, PlayerIs(player), Selected(opponent, player));
    } else {
      FilterAll(rows, Selected(opponent, player));
    }
  }

  /** A row is in the view exactly when it is in the table, it is against
      the selected opponent (a missing opponent matches none), and it is
      the selected player's. */
  lemma SelectedRows(rows: seq<BattingRow>, opponent: string, player: string, r: BattingRow)
    ensures r in Filter(rows, Selected(opponent, player)) <==>
      && r in rows
      && (opponent == All || r.opponent == Some(opponent))
      && (player == All || r.player == player)
  {
    if r in rows && Selected(opponent, player)(r) {
      FilterKeeps(rows, Selected(opponent, player), r);
    }
  }

  /** The order of the two selections does not matter, and applying the
      same selection twice changes nothing. */
  lemma SelectionCommutes(rows: seq<BattingRow>, opponent: string, player: string)
    ensures Filter(Filter(rows, OpponentIs(opponent)), PlayerIs(player))
         == Filter(Filter(rows, PlayerIs(player)), OpponentIs(opponent))
    ensures Filter(Filter(rows, Selected(opponent, player)), Selected(opponent, player))
         == Filter(rows, Selected(opponent, player))
  {
    FilterCommute(rows, OpponentIs(opponent), PlayerIs(player));
    FilterIdempotent(rows, Selected(opponent, player));
  }

  // ---------------------------------------------------------------------
  // Bowling selectboxes.

  function BowlingOpponentIs(opponent: string): BowlingRow -> bool
  {
    (r: BowlingRow) => r.opponent == Some(opponent)
  }

  function BowlingPlayerIs(player: string): BowlingRow -> bool
  {
    (r: BowlingRow) => r.player == player
  }

  function BowlingSelected(opponent: string, player: string): BowlingRow -> bool
  {
    (r: BowlingRow) =>
      (opponent == All || r.opponent == Some(opponent)) && (player == All || r.player == player)
  }

  /** The bowling rows of the selected opponent and player, in table order. */
  lemma BowlingSelectionInSteps(rows: seq<BowlingRow>, opponent: string, player: string)
    ensures opponent != All && player != All ==>
      Filter(Filter(rows, BowlingOpponentIs(opponent)), BowlingPlayerIs(player))
        == Filter(rows, BowlingSelected(opponent, player))
    ensures opponent != All && player == All ==>
      Filter(rows, BowlingOpponentIs(opponent)) == Filter(rows, BowlingSelected(opponent, player))
    ensures opponent == All && player != All ==>
      Filter(rows, BowlingPlayerIs(player)) == Filter(rows, BowlingSelected(opponent, player))
    ensures opponent == All && player == All ==>
      rows == Filter(rows, BowlingSelected(opponent, player))
  {
    if opponent != All && player != All {
      FilterFilter(rows, BowlingOpponentIs(opponent), BowlingPlayerIs(player), BowlingSelected(opponent, player));
    } else if opponent != All {
      SameMask(rows, BowlingOpponentIs(opponent), BowlingSelected(opponent, player));
    } else if player != All {
      SameMask(rows, BowlingPlayerIs(player), BowlingSelected(opponent, player));
    } else {
      FilterAll(rows, BowlingSelected(opponent, player));
    }
  }

  /** A bowling row is in the view exactly when it is in the table and
      matches both selections. */
  lemma BowlingSelectedRows(rows: seq<BowlingRow>, opponent: string, player: string, r: BowlingRow)
    ensures r in Filter(rows, BowlingSelected(opponent, player)) <==>
      && r in rows
      && (opponent == All || r.opponent == Some(opponent))
      && (player == All || r.player == player)
  {
    if r in rows && BowlingSelected(opponent, player)(r) {
      FilterKeeps(rows, BowlingSelected(opponent, player), r);
    }
  }
}
