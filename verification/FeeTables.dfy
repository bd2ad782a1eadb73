/** The working tables of consecutive days fit together. */
module FeeTables {
  import opened FeeTariff

  /** The last zone of a day is the zone with which the next day's tables begin, and the rate type expected after
      it is that of the zone that follows there; without a day cut-off it ends where that zone starts, and
      with one at midnight. */
  lemma TablesOverlap(week: Week, n: int)
    requires Load(week, n).Loaded? && Load(week, n + 1).Loaded?
    ensures var d, e, last := Load(week, n).day, Load(week, n + 1).day, |Load(week, n).day.zones| - 1;
            && e.zones[0] == d.zones[last] && e.times[0] == d.times[last]
            && e.zones[1].rateType == d.types[last + 1]
            && d.times[last + 1] == if week(n).dayCutoff == 1 then (n + 1) * MINUTES else e.times[1]
  {
  }

  /** The rate types are those of the zones. */
  lemma TypesOfZones(week: Week, n: int, k: nat)
    requires Load(week, n).Loaded? && k < |Load(week, n).day.zones|
    ensures Load(week, n).day.types[k] == Load(week, n).day.zones[k].rateType
  {
  }
}
