/** `classify_dismissal` and the per-player dismissal breakdown it feeds. */
module Dismissals {
  import opened Base
  import opened Rows
  import opened Seqs

  /** The six labels of the breakdown. */
  datatype DismissalKind = RunOut | Lbw | CaughtBehind | Caught | Bowled | Other

  /** The caught-behind marker: "c." followed by a dagger. */
  const CaughtBehindMarker: string := "c.†"

  /** `str(dismissal).lower()`: a missing cell prints as "nan". */
  function DismissalText(dismissal: Option<string>): string
  {
    match dismissal
    case None => "nan"
    case Some(d) => Lower(d)
  }

  /** The rule chain on lower-cased text: the first rule that matches wins. */
  function ClassifyText(d: string): DismissalKind
  {
    if Contains(d, "runout") then RunOut
    else if Contains(d, "lbw") then Lbw
    else if Contains(d, CaughtBehindMarker) then CaughtBehind
    else if Contains(d, "c.") then Caught
    else if Contains(d, "b.") && !Contains(d, "c.") then Bowled
    else Other
  }

  /** `classify_dismissal(dismissal)`: the rule chain on the lower-cased
      text. A run out is recognised wherever "runout" stands, a bowled
      dismissal never has a catch in it, and a missing dismissal, read as
      "nan", matches no rule. */
  function Classify(dismissal: Option<string>): (k: DismissalKind)
    ensures k == RunOut <==> Contains(DismissalText(dismissal), "runout")
    ensures k == Bowled ==>
      Contains(DismissalText(dismissal), "b.") && !Contains(DismissalText(dismissal), "c.")
    ensures dismissal.None? ==> k == Other
  {
    if dismissal.None? then
      MissingCharExcludes("nan", "runout", 0);
      MissingCharExcludes("nan", "lbw", 0);
      MissingCharExcludes("nan", "c.", 0);
      MissingCharExcludes("nan", "b.", 0);
      ClassifyText(DismissalText(dismissal))
    else
      ClassifyText(DismissalText(dismissal))
  }

  /** The label does not depend on letter case: `classify_dismissal` lowers
      the text before any rule looks at it. */
  lemma ClassifyIgnoresCase(d: string)
    ensures Classify(Some(d)) == Classify(Some(Lower(d)))
  {
    LowerIdempotent(d);
  }

  /** Each label is given exactly when its own rule matches and no earlier
      rule does. */
  lemma ClassifyFirstMatch(d: string)
    ensures ClassifyText(d) == RunOut <==> Contains(d, "runout")
    ensures ClassifyText(d) == Lbw <==> !Contains(d, "runout") && Contains(d, "lbw")
    ensures ClassifyText(d) == CaughtBehind <==>
      !Contains(d, "runout") && !Contains(d, "lbw") && Contains(d, CaughtBehindMarker)
    ensures ClassifyText(d) == Caught <==>
      !Contains(d, "runout") && !Contains(d, "lbw") && !Contains(d, CaughtBehindMarker) && Contains(d, "c.")
    ensures ClassifyText(d) == Bowled <==>
      !Contains(d, "runout") && !Contains(d, "lbw") && !Contains(d, "c.") && Contains(d, "b.")
    ensures ClassifyText(d) == Other <==>
      !Contains(d, "runout") && !Contains(d, "lbw") && !Contains(d, "c.") && !Contains(d, "b.")
  {
    if Contains(d, CaughtBehindMarker) {
      ContainsPrefixOfPattern(d, CaughtBehindMarker, "c.");
    }
  }

  /** A text with a catch in it ("c.") is never labelled Bowled, whatever
      else it holds; every text with the caught-behind marker has a catch in
      it, so the caught-behind rule must come before the caught rule. */
  lemma CatchIsNeverBowled(d: string)
    ensures Contains(d, "c.") ==> ClassifyText(d) != Bowled
    ensures Contains(d, CaughtBehindMarker) ==> Contains(d, "c.")
  {
    if Contains(d, CaughtBehindMarker) {
      ContainsPrefixOfPattern(d, CaughtBehindMarker, "c.");
    }
  }

  lemma CatchAndBowlText(d: string)
    requires d == "c.b.smith"
    ensures ClassifyText(d) == Caught
  {
    MissingCharExcludes(d, "runout", 0);
    MissingCharExcludes(d, "lbw", 0);
    MissingCharExcludes(d, CaughtBehindMarker, 2);
    assert "c." <= d;
  }

  /** "c.b.Smith" holds both "c." and "b." and is labelled Caught, not
      Bowled. */
  lemma ClassifyCatchAndBowl()
    ensures Classify(Some("c.b.Smith")) == Caught
  {
    var d := DismissalText(Some("c.b.Smith"));
    assert d == "c.b.smith";
    CatchAndBowlText(d);
  }

  /** "c.†jones b.lee" (the lower-cased "c.†Jones b.Lee") is labelled
      Caught Behind. */
  lemma ClassifyCaughtBehindExample(d: string)
    requires d == "c.†jones b.lee"
    ensures ClassifyText(d) == CaughtBehind
  {
    MissingCharExcludes(d, "runout", 0);
    MissingCharExcludes(d, "lbw", 2);
    assert CaughtBehindMarker <= d;
  }

  /** Rows the breakdown leaves out: the lower-cased dismissal is exactly
      "dnb" or "not out". A missing dismissal is not left out. */
  predicate NotADismissal(dismissal: Option<string>)
  {
    dismissal.Some? && (Lower(dismissal.value) == "dnb" || Lower(dismissal.value) == "not out")
  }

  function DismissalOf(player: string): BattingRow -> bool
  {
    (r: BattingRow) => r.player == player && !NotADismissal(r.dismissal)
  }

  /** `dismissal_data`: the selected player's rows that record a dismissal. */
  function DismissalRows(table: seq<BattingRow>, player: string): (rows: seq<BattingRow>)
    ensures forall r :: r in rows ==> r in table && r.player == player && !NotADismissal(r.dismissal)
    ensures forall r ::
      multiset(rows)[r] == if r.player == player && !NotADismissal(r.dismissal) then multiset(table)[r] else 0
  {
    var rows := Filter(table, DismissalOf(player));
    forall r ensures multiset(rows)[r] == (if DismissalOf(player)(r) then multiset(table)[r] else 0) {
      FilterCount(table, DismissalOf(player), r);
    }
    rows
  }

  function ClassifiedAs(kind: DismissalKind): BattingRow -> bool
  {
    (r: BattingRow) => Classify(r.dismissal) == kind
  }

  /** How many of `rows` get the label `kind`. */
  function KindCount(rows: seq<BattingRow>, kind: DismissalKind): nat
  {
    |Filter(rows, ClassifiedAs(kind))|
  }

  /** `value_counts()` of the labels: each label that occurs, with how often. */
  function Breakdown(table: seq<BattingRow>, player: string): (counts: map<DismissalKind, nat>)
    ensures forall k :: k in counts ==> 0 < counts[k] <= |DismissalRows(table, player)|
  {
    var rows := DismissalRows(table, player);
    map k | k in {RunOut, Lbw, CaughtBehind, Caught, Bowled, Other} && KindCount(rows, k) > 0 :: KindCount(rows, k)
  }

  function CountSum(rows: seq<BattingRow>): nat
  {
    KindCount(rows, RunOut) + KindCount(rows, Lbw) + KindCount(rows, CaughtBehind)
      + KindCount(rows, Caught) + KindCount(rows, Bowled) + KindCount(rows, Other)
  }

  /** Every row gets exactly one label, so the label counts add up to the
      number of rows. */
  lemma {:induction false} CountSumIsLength(rows: seq<BattingRow>)
    ensures CountSum(rows) == |rows|
  {
    if rows != [] {
      CountSumIsLength(rows[1..]);
    }
  }

  /** The count the breakdown shows for a label; 0 when it is not listed. */
  function Shown(counts: map<DismissalKind, nat>, k: DismissalKind): nat
  {
    if k in counts then counts[k] else 0
  }

  /** The breakdown shows, for every label, how many selected rows get it. */
  lemma BreakdownCounts(table: seq<BattingRow>, player: string, k: DismissalKind)
    ensures Shown(Breakdown(table, player), k) == KindCount(DismissalRows(table, player), k)
  {
    assert k in {RunOut, Lbw, CaughtBehind, Caught, Bowled, Other};
  }

  /** The breakdown lists a label exactly when some selected row gets it. */
  lemma BreakdownLabels(table: seq<BattingRow>, player: string, k: DismissalKind)
    ensures k in Breakdown(table, player) <==>
      exists r :: r in DismissalRows(table, player) && Classify(r.dismissal) == k
  {
    var rows := DismissalRows(table, player);
    var labelled := Filter(rows, ClassifiedAs(k));
    BreakdownCounts(table, player, k);
    if labelled != [] {
      assert labelled[0] in labelled;
      assert labelled[0] in rows && Classify(labelled[0].dismissal) == k;
    }
    if exists r :: r in rows && Classify(r.dismissal) == k {
      var r :| r in rows && Classify(r.dismissal) == k;
      FilterKeeps(rows, ClassifiedAs(k), r);
    }
  }

  /** The counts of the breakdown add up to the number of selected rows. */
  lemma BreakdownTotals(table: seq<BattingRow>, player: string)
    ensures var counts := Breakdown(table, player);
      Shown(counts, RunOut) + Shown(counts, Lbw) + Shown(counts, CaughtBehind)
        + Shown(counts, Caught) + Shown(counts, Bowled) + Shown(counts, Other)
      == |DismissalRows(table, player)|
  {
    CountSumIsLength(DismissalRows(table, player));
    BreakdownCounts(table, player, RunOut);
    BreakdownCounts(table, player, Lbw);
    BreakdownCounts(table, player, CaughtBehind);
    BreakdownCounts(table, player, Caught);
    BreakdownCounts(table, player, Bowled);
    BreakdownCounts(table, player, Other);
  }
}
