/**
 The battery level a device keeps in its storage: LOW, MEDIUM or HIGH, moved up
 or down by one step per round by two random draws, and pinned to HIGH at the
 source.
 */
module Battery {

  const Low: int := 0
  const Medium: int := 1
  const High: int := 2

  /**
   One round of the battery switch. `increase` is the outcome of the first draw
   (at most INCREASE_BATTERY_PROB); `decrease` that of the second draw (at most
   DECREASE_BATTERY_PROB), which only matters when the first one failed.
   */
  function BatteryStep(level: int, increase: bool, decrease: bool): (r: int)
    ensures r == level + 1 <==> increase && (level == Low || level == Medium)
    ensures r == level - 1 <==> !increase && decrease && (level == Medium || level == High)
    ensures r == level || r == level + 1 || r == level - 1
    ensures increase ==> r >= level
    ensures !increase ==> r <= level
    ensures level != Low && level != Medium && level != High ==> r == level
    ensures Low <= level <= High ==> Low <= r <= High
  {
    if increase then
      (if level == Medium then High else if level == Low then Medium else level)
    else if decrease then
      (if level == High then Medium else if level == Medium then Low else level)
    else level
  }

  /** The battery level at the end of `MAIN`'s battery logic: the step, then HIGH at the source. */
  function BatteryRound(level: int, increase: bool, decrease: bool, source: bool): (r: int)
    ensures source ==> r == High
    ensures !source ==> r == BatteryStep(level, increase, decrease)
  {
    if source then High else BatteryStep(level, increase, decrease)
  }

  /** The draws of one round. */
  datatype Draws = Draws(increase: bool, decrease: bool)

  /** The level after one round per entry of `draws`, oldest first. */
  function BatteryRun(level: int, draws: seq<Draws>, source: bool): int
    decreases |draws|
  {
    if draws == [] then level
    else
      var last := draws[|draws| - 1];
      BatteryRound(BatteryRun(level, draws[..|draws| - 1], source), last.increase, last.decrease, source)
  }

  /** Starting from a valid level, the level stays LOW, MEDIUM or HIGH forever. */
  lemma {:induction false} BatteryRunStaysInRange(level: int, draws: seq<Draws>, source: bool)
    requires Low <= level <= High
    ensures Low <= BatteryRun(level, draws, source) <= High
    decreases |draws|
  {
    if draws != [] {
      BatteryRunStaysInRange(level, draws[..|draws| - 1], source);
    }
  }

  /** Over k rounds the level moves by at most k steps. */
  lemma {:induction false} BatteryRunMovesSlowly(level: int, draws: seq<Draws>)
    ensures level - |draws| <= BatteryRun(level, draws, false) <= level + |draws|
    decreases |draws|
  {
    if draws != [] {
      BatteryRunMovesSlowly(level, draws[..|draws| - 1]);
    }
  }

  /** Increase draws alone charge a LOW battery to HIGH within two rounds and keep it there. */
  lemma {:induction false} BatteryRunCharges(level: int, draws: seq<Draws>)
    requires Low <= level <= High
    requires forall i :: 0 <= i < |draws| ==> draws[i].increase
    ensures BatteryRun(level, draws, false) == if level + |draws| >= High then High else level + |draws|
    decreases |draws|
  {
    if draws != [] {
      BatteryRunCharges(level, draws[..|draws| - 1]);
    }
  }
}
