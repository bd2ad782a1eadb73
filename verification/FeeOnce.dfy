/** First-free periods that a site grants once a stay. */
module FeeOnce {
  import opened FeeTariff
  import opened FeeTheorems
  import opened FeeMonotone
  import opened FeeFirstFree
  import opened FeeLimits

  /** One zone round the clock with first-free periods, granted once and carried past the end of a zone. */
  ghost predicate OnceFree(week: Week, p: Paras, z: Zone) {
    && OneZone(week, z) && z.rate > 0.0 && p.firstHourMode == 1 && (forall n :: NoCutoff(week, n))
    && z.free1 > 0 && z.free2 >= 0 && z.free3 >= 0 && p.firstHour > 0 && AddsNotNegative(z, p)
  }

  predicate NoCutoff(week: Week, n: int) { week(n).zoneCutoff == 0 }

  /** Without a cut-off and with one zone after the other the periods run on past the end of the zone; if
      they do, they are marked as granted. */
  lemma PeriodsRunOn(z: Zone, p: Paras, zoneEnd: int, pt: int, ct: int)
    requires z.free1 > 0 && z.free2 >= 0 && z.free3 >= 0 && p.firstHour > 0 && p.firstHourMode == 1 && pt < zoneEnd
    ensures var f := FirstFree(z, p, 0, zoneEnd, 1, pt, ct, false);
            && f.done == (ct - pt <= PeriodsLength(z, p)) && f.fee == PeriodSum(z, p, ct - pt)
            && (!f.done ==> f.pt == pt + PeriodsLength(z, p) && (f.pt < zoneEnd || f.freed))
  {
    if zoneEnd - pt <= z.free1 {
      if p.firstHour <= 1 { } else if p.firstHour <= 2 { }
    } else {
      if p.firstHour <= 1 { } else if p.firstHour <= 2 { }
    }
  }

  /** Periods that do not end the stay are marked as granted exactly where the site grants them once and they have
      reached the end of their zone or all three are in use. */
  lemma MarkedExactly(z: Zone, p: Paras, cutoff: int, zoneEnd: int, nextType: int, pt: int, ct: int, freed: bool)
    requires z.free1 > 0 && z.free2 >= 0 && z.free3 >= 0 && pt < zoneEnd
    ensures var f := FirstFree(z, p, cutoff, zoneEnd, nextType, pt, ct, freed);
            if f.done then f.freed == freed
            else f.freed <==> freed || (p.firstHourMode == 1 && (zoneEnd <= f.pt || p.firstHour >= 3))
  {
    if zoneEnd - pt <= z.free1 {
      if p.firstHour <= 1 || cutoff != 0 { } else if p.firstHour <= 2 { }
    } else {
      if p.firstHour <= 1 { } else if p.firstHour <= 2 { }
    }
  }

  predicate Fresh(c: Cursor) { c.dayFee == c.charge == 0.0 && !c.freed }

  /** A stay that is over within its periods costs their additions. */
  lemma EndsEarly(s: Stay, d: Day, z: Zone, zoneEnd: int, c: Cursor)
    requires OneRateTables(d, z) && d.zoneCutoff == 0 && z.block > 0 && z.allowance <= 0 && Fresh(c) && c.pt < zoneEnd
    requires z.free1 > 0 && z.free2 >= 0 && z.free3 >= 0 && s.p.firstHour > 0 && s.p.firstHourMode == 1
    requires AddsNotNegative(z, s.p) && s.ct - c.pt <= PeriodsLength(z, s.p)
    ensures var r := HourlyPass(s, d, z, zoneEnd, 1, c); r.Leave? && Finish(d, r.c) == PeriodSum(z, s.p, s.ct - c.pt)
  {
    hide FirstFree, HourRun;
    PeriodsRunOn(z, s.p, zoneEnd, c.pt, s.ct);
  }

  /** A stay that outlasts them has been charged their additions and is due the blocks after them. */
  lemma GoesOn(s: Stay, d: Day, z: Zone, zoneEnd: int, c: Cursor)
    requires OneRateTables(d, z) && d.zoneCutoff == 0 && z.block > 0 && z.rate > 0.0 && z.zoneMax <= 0.0 && z.allowance <= 0
    requires Fresh(c) && c.curMin <= 0.0 && c.curMax <= 0.0 && c.pt < zoneEnd && c.noGrace
    requires z.free1 > 0 && z.free2 >= 0 && z.free3 >= 0 && s.p.firstHour > 0 && s.p.firstHourMode == 1
    requires AddsNotNegative(z, s.p) && s.ct - c.pt > PeriodsLength(z, s.p)
    ensures var r := HourlyPass(s, d, z, zoneEnd, 1, c);
            && r.Bottom? && r.c.dayFee >= 0.0 && r.c.noGrace && FreeIsOver(z, s.p, r.c)
            && r.c.charge + r.c.dayFee + (if s.ct <= r.c.pt then 0.0 else Due(z, r.c.pt, s.ct))
               == AddTotal(z, s.p) + Due(z, c.pt + PeriodsLength(z, s.p), s.ct)
  {
    hide FirstFree, HourRun, Due;
    var f := FirstFree(z, s.p, 0, zoneEnd, 1, c.pt, s.ct, false);
    PeriodsRunOn(z, s.p, zoneEnd, c.pt, s.ct);
    BlocksAfter(z, f.pt, zoneEnd, s.ct, c.Charged(), f.fee);
    var run := HourRun(z, f.pt, zoneEnd, s.ct, c.Charged(), f.fee);
    SettledSum(d, c.(pt := run.0, freed := f.freed), run.1);
  }

  lemma BlocksAfter(z: Zone, pt: int, zoneEnd: int, ct: int, charged: bool, fee: real)
    requires z.block > 0 && z.rate > 0.0 && z.zoneMax <= 0.0 && z.allowance <= 0 && pt < ct && fee >= 0.0
    ensures var r := HourRun(z, pt, zoneEnd, ct, charged, fee);
            && r.1 >= 0.0 && (pt < zoneEnd ==> r.1 > 0.0) && (pt >= zoneEnd ==> r.0 == pt)
            && r.1 + (if ct <= r.0 then 0.0 else Due(z, r.0, ct)) == fee + Due(z, pt, ct)
  {
    if pt < zoneEnd {
      HourRunBlocks(z, pt, zoneEnd, ct, charged, fee);
      HourRunGrows(z, pt + z.block, zoneEnd, ct, charged, fee + z.rate);
    }
  }

  lemma SettledSum(d: Day, c: Cursor, fee: real)
    requires d.dayMin <= 0.0 && d.dayMax <= 0.0 && c.curMin <= 0.0 && c.curMax <= 0.0 && c.dayFee == c.charge == 0.0
    requires fee >= 0.0
    ensures var r := Settle(d, c, fee);
            && r.charge + r.dayFee == fee && r.dayFee >= 0.0 && r.charge >= 0.0 && r.pt == c.pt
            && r.freed == c.freed && r.noGrace == c.noGrace && (fee > 0.0 ==> r.Charged())
  {
  }

  lemma OnceLoads(week: Week, p: Paras, z: Zone, n: int)
    requires OnceFree(week, p, z)
    ensures var l := Load(week, n);
            && l.Loaded? && OneRateTables(l.day, z) && l.day.zoneCutoff == 0 && l.day.types == [1, 1, 1]
  {
    OneRateLoads(week, z, n);
    assert OneRateDay(week, z, n - 1) && OneRateDay(week, z, n) && OneRateDay(week, z, n + 1) && NoCutoff(week, n);
    var d := Load(week, n).day;
    assert d.types[0] == 1 && d.types[1] == 1 && d.types[2] == 1;
  }

  lemma FirstPassIs(s: Stay, d: Day, entry: nat, z: Zone)
    requires OneRateTables(d, z) && d.types == [1, 1, 1] && DayFits(d, entry / 60 / MINUTES, s.p) && z.rateType == 1
    requires OnDay(s, Start(entry, true))
    ensures var k := ZoneAt(d, entry / 60);
            OnePass(s, d, Start(entry, true)) == HourlyPass(s, d, z, d.times[k+1], 1, InZone(Start(entry, true), z))
  {
    hide HourlyPass;
    var k := ZoneAt(d, entry / 60);
    assert d.zones[k] == z && d.types[k+1] == 1;
    assert ZoneFits(d.zones[k], d.times[k+1], entry / 60 / MINUTES, d.zoneCutoff, d.types[k+1], s.p);
  }

  /** What m minutes cost. */
  function FeeOnce(z: Zone, p: Paras, m: nat): real
    requires z.block > 0
  {
    if m <= PeriodsLength(z, p) then PeriodSum(z, p, m)
    else AddTotal(z, p) + Times(FeeTheorems.Blocks(m - PeriodsLength(z, p), z.block), z.rate)
  }

  /** Over any number of days, periods granted once are charged once, at the beginning: a stay within them costs
      the additions of those begun, and a longer one all of them and every block begun after them. */
  lemma GrantedOnce(week: Week, p: Paras, tz: int, z: Zone, entry: nat, pay: nat)
    requires OnceFree(week, p, z) && Fits(week, p) && entry <= pay
    ensures z.block > 0 && RawFee(week, p, tz, entry, pay, true) == Fee(FeeOnce(z, p, (pay - entry + 59) / 60))
  {
    hide Load, Walk, Onward, HourlyPass, OnePass, Finish, PeriodSum, AddTotal;
    var s := Stay(week, p, entry / 60, PayMinute(entry, pay), tz);
    var c := Start(entry, true);
    StayRoundsUp(entry, pay);
    OnceLoads(week, p, z, c.pd);
    assert DayOk(week, p, c.pd);
    var d := Load(week, c.pd).day;
    FirstPassIs(s, d, entry, z);
    WalkUnfolds(s, c, d);
    var k := ZoneAt(d, c.pt);
    assert d.zones[k] == z && ZoneFits(z, d.times[k+1], c.pd, d.zoneCutoff, d.types[k+1], p);
    if s.ct - c.pt <= PeriodsLength(z, p) {
      EndsEarly(s, d, z, d.times[k+1], InZone(c, z));
    } else {
      GoesOn(s, d, z, d.times[k+1], InZone(c, z));
      var r := OnePass(s, d, c);
      if r.c.pt < s.ct { OneRateWalk(s, r.c, z); } else { FinishSum(d, r.c, z); }
    }
  }

  lemma FinishSum(d: Day, c: Cursor, z: Zone)
    requires OneRateTables(d, z) && c.dayFee >= 0.0
    ensures Finish(d, c) == c.charge + c.dayFee
  {
  }

  // ---- periods granted in every zone ----

  const HALF_FREE := Zone(1, 100.0, 720, 0.0, 0.0, 0, 720, 10.0, 0, 0.0, 0, 0.0, 0)

  function HalfFreeDay(n: int): DayTariff { AllDay(HALF_FREE, 0.0) }

  function Site(mode: int): Paras { Paras(mode, 1, 0, 0, 0) }

  lemma HalfFreeLoads(n: int, p: Paras)
    ensures Load(HalfFreeDay, n).Loaded? && AllDayTables(Load(HalfFreeDay, n).day, n, HALF_FREE, 0.0)
    ensures DayOk(HalfFreeDay, p, n)
  {
    AllDayLoads(HalfFreeDay, n, HALF_FREE, 0.0, 0.0, 0.0);
  }

  const NEXT_DAY := Cursor(2880, 2, 0.0, 110.0, true, false, 0, 0.0, 0.0)

  lemma HalfFreePasses(s: Stay, d: Day, e: Day)
    requires s.ct == 2910 && s.p == Site(0)
    requires AllDayTables(d, 1, HALF_FREE, 0.0) && DayFits(d, 1, s.p)
    requires AllDayTables(e, 2, HALF_FREE, 0.0) && DayFits(e, 2, s.p)
    ensures OnePass(s, d, Start(86400, true)) == Bottom(NEXT_DAY)
    ensures OnePass(s, e, NEXT_DAY) == Leave(NEXT_DAY.(pt := 3600, dayFee := 10.0))
  {
    assert ZoneAt(d, 1440) == 1 && ZoneAt(e, 2880) == 1;
    assert HourRun(HALF_FREE, 2160, 2880, 2910, false, 10.0) == (2880, 110.0);
  }

  /** A site that grants its periods in every zone grants them again on the second day: 24 hours and a half cost
      120 there, and 210 where they are granted once. */
  lemma GrantedEachDay()
    ensures Fits(HalfFreeDay, Site(0)) && Fits(HalfFreeDay, Site(1))
    ensures RawFee(HalfFreeDay, Site(0), 0, 86400, 174600, true) == Fee(120.0)
    ensures RawFee(HalfFreeDay, Site(1), 0, 86400, 174600, true) == Fee(210.0)
  {
    hide Load, Walk, Onward, OnePass, DayFits;
    forall n, p ensures DayOk(HalfFreeDay, p, n) { HalfFreeLoads(n, p); }
    HalfFreeLoads(1, Site(0));
    HalfFreeLoads(2, Site(0));
    var d, e := Load(HalfFreeDay, 1).day, Load(HalfFreeDay, 2).day;
    var s := Stay(HalfFreeDay, Site(0), 1440, 2910, 0);
    HalfFreePasses(s, d, e);
    WalkUnfolds(s, Start(86400, true), d);
    WalkUnfolds(s, NEXT_DAY, e);
    OnceThere();
  }

  lemma OnceThere()
    requires Fits(HalfFreeDay, Site(1))
    ensures RawFee(HalfFreeDay, Site(1), 0, 86400, 174600, true) == Fee(210.0)
  {
    hide Load, Walk, Onward, Fits;
    forall n ensures OneRateDay(HalfFreeDay, HALF_FREE, n) && NoCutoff(HalfFreeDay, n) { }
    GrantedOnce(HalfFreeDay, Site(1), 0, HALF_FREE, 86400, 174600);
    assert FeeTheorems.Blocks(750, 720) == 1 + FeeTheorems.Blocks(30, 720);
    assert Times(2, 100.0) == 100.0 + Times(1, 100.0) && Times(1, 100.0) == 100.0 + Times(0, 100.0);
  }
}
