/** The derived-metric formulas, each with the substitution the dashboard
    makes for a zero denominator. */
module Metrics {
  import opened Base

  /** `.replace(0, 0.1)` on overs: one tenth of an over stands in for none. */
  const ZeroOversStandIn: int := 1

  /** `.replace(0, 1)` on the dismissals denominator of the average. */
  const ZeroDismissalsStandIn: int := 1

  /** The overs, in tenths, that economy divides by. */
  function EffectiveOvers(tenths: int): (t: int)
    ensures t != 0
    ensures tenths != 0 ==> t == tenths
  {
    if tenths == 0 then ZeroOversStandIn else tenths
  }

  /** Runs conceded per over, with the overs given in tenths and a tenth of
      an over standing in for none. */
  function Economy(runs: int, oversTenths: int): (e: real)
    ensures oversTenths != 0 ==> e * (oversTenths as real) == (runs * 10) as real
    ensures oversTenths == 0 ==> e == (runs * 10) as real
  {
    (runs * 10) as real / (EffectiveOvers(oversTenths) as real)
  }

  /** The batting average: runs per dismissal, one dismissal standing in
      for none. */
  function Average(runs: int, innings: int, notOuts: int): (a: real)
    ensures innings - notOuts != 0 ==> a * ((innings - notOuts) as real) == runs as real
    ensures innings == notOuts ==> a == runs as real
  {
    var dismissals := innings - notOuts;
    runs as real / ((if dismissals == 0 then ZeroDismissalsStandIn else dismissals) as real)
  }

  /** Runs per hundred balls. With no balls faced pandas yields inf or NaN,
      which this model keeps apart as `None`. */
  function StrikeRate(runs: int, balls: int): (sr: Option<real>)
    ensures sr.Some? <==> balls != 0
    ensures balls != 0 ==> sr.value * (balls as real) == (runs * 100) as real
  {
    if balls == 0 then None else Some((runs * 100) as real / (balls as real))
  }

  /** Fours and sixes per innings ("Avg 4s+6s"). */
  function BoundariesPerInnings(fours: int, sixes: int, innings: int): (b: real)
    requires innings != 0
    ensures b * (innings as real) == (fours + sixes) as real
  {
    (fours + sixes) as real / (innings as real)
  }

  /** Runs, plus two for every four and three for every six: never below
      the runs, and the runs alone without boundaries. */
  function ImpactScore(runs: int, fours: int, sixes: int): (score: int)
    ensures fours >= 0 && sixes >= 0 ==> score >= runs
    ensures score == runs <==> 2 * fours + 3 * sixes == 0
  {
    runs + 2 * fours + 3 * sixes
  }
}
