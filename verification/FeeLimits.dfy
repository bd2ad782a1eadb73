/** Where the fee is not monotone: stays for which paying later costs less. */
module FeeLimits {
  import opened FeeTariff

  const HOURLY := Zone(1, 100.0, 60, 0.0, 0.0, 0, 0, 0.0, 0, 0.0, 0, 0.0, 0)

  /** One zone from midnight to midnight. */
  function AllDay(z: Zone, whole: real): DayTariff {
    DayTariff([Slot(0, 0, z)], whole, whole, 0, 0)
  }

  function NoParas(firstHour: int): Paras { Paras(0, firstHour, 0, 0, 0) }

  /** The tables of an all-day zone. */
  predicate AllDayTables(d: Day, n: int, z: Zone, whole: real) {
    && d.zones == [z, z] && d.times == [(n - 1) * MINUTES, n * MINUTES, (n + 1) * MINUTES]
    && d.types == [z.rateType, z.rateType, z.rateType] && d.zoneCutoff == 0
    && d.dayMin == d.dayMax == 0.0 && d.block24 == (whole > 0.0)
    && d.fee24 == (if whole > 0.0 then whole.Floor else 0)
  }

  lemma AllDayLoads(week: Week, n: int, z: Zone, before: real, whole: real, after: real)
    requires week(n - 1) == AllDay(z, before) && week(n) == AllDay(z, whole) && week(n + 1) == AllDay(z, after)
    requires whole >= 0.0
    ensures Load(week, n).Loaded? && AllDayTables(Load(week, n).day, n, z, whole)
  {
    assert MaxZone(week(n - 1).slots) == MaxZone(week(n).slots) == 1;
    var d := DayTables(week, n);
    assert d.zones == [z, z];
    assert d.times == [(n - 1) * MINUTES, n * MINUTES, (n + 1) * MINUTES];
    assert d.types == [z.rateType, z.rateType, z.rateType];
  }

  // ---- 24-hour days followed by other days ----

  /** Days up to day 1 in 24-hour mode at 1000, hourly days after it. */
  function MixedDay(n: int): DayTariff { AllDay(HOURLY, MixedWhole(n)) }

  function MixedWhole(n: int): real { if n <= 1 then 1000.0 else 0.0 }

  lemma MixedLoads(n: int)
    ensures Load(MixedDay, n).Loaded? && AllDayTables(Load(MixedDay, n).day, n, HOURLY, MixedWhole(n))
    ensures DayOk(MixedDay, NoParas(0), n)
  {
    AllDayLoads(MixedDay, n, HOURLY, MixedWhole(n - 1), MixedWhole(n), MixedWhole(n + 1));
  }

  lemma MixedFits()
    ensures Fits(MixedDay, NoParas(0))
  {
    forall n ensures DayOk(MixedDay, NoParas(0), n) { MixedLoads(n); }
  }

  const AFTER_BLOCK := Cursor(2880, 2, 0.0, 0.0, true, false, 1000, 0.0, 0.0)

  lemma FirstMixedPass(s: Stay, d: Day)
    requires s.ct == 2880 || s.ct == 2881
    requires s.tz == 0 && AllDayTables(d, 1, HOURLY, 1000.0) && DayFits(d, 1, s.p)
    ensures OnePass(s, d, Start(86400, false)) == Bottom(AFTER_BLOCK)
  {
    assert d.fee24 == 1000;
  }

  lemma SecondMixedPass(s: Stay, d: Day)
    requires s.ct == 2881 && AllDayTables(d, 2, HOURLY, 0.0) && DayFits(d, 2, s.p)
    ensures OnePass(s, d, AFTER_BLOCK) == Bottom(AFTER_BLOCK.(pt := 2940, dayFee := 100.0))
  {
    assert ZoneAt(d, 2880) == 1;
  }

  lemma MixedWalk(ct: int)
    requires Fits(MixedDay, NoParas(0)) && (ct == 2880 || ct == 2881)
    ensures Walk(Stay(MixedDay, NoParas(0), 1440, ct, 0), Start(86400, false)) ==
            Fee(if ct == 2880 then 1000.0 else 100.0)
  {
    var s := Stay(MixedDay, NoParas(0), 1440, ct, 0);
    MixedLoads(1);
    var d := Load(MixedDay, 1).day;
    FirstMixedPass(s, d);
    WalkUnfolds(s, Start(86400, false), d);
    if ct == 2881 {
      MixedLoads(2);
      var e := Load(MixedDay, 2).day;
      SecondMixedPass(s, e);
      WalkUnfolds(s, AFTER_BLOCK, e);
    }
  }

  /** Mixing 24-hour days with other days loses the blocks already charged: parking from midnight of
      day 1 costs 1000 for exactly 24 hours, and 100 for one minute more. */
  lemma MixedDaysCanCostLess()
    ensures Fits(MixedDay, NoParas(0))
    ensures RawFee(MixedDay, NoParas(0), 0, 86400, 172800, false) == Fee(1000.0)
    ensures RawFee(MixedDay, NoParas(0), 0, 86400, 172860, false) == Fee(100.0)
  {
    MixedFits();
    MixedWalk(2880);
    MixedWalk(2881);
  }

  // ---- a first period dearer than the zone cap ----

  const DEAR_START := HOURLY.(zoneMax := 300.0, free1 := 60, add1 := 500.0)

  function DearDay(n: int): DayTariff { AllDay(DEAR_START, 0.0) }

  lemma DearLoads(n: int)
    ensures Load(DearDay, n).Loaded? && AllDayTables(Load(DearDay, n).day, n, DEAR_START, 0.0)
    ensures DayOk(DearDay, NoParas(1), n)
  {
    AllDayLoads(DearDay, n, DEAR_START, 0.0, 0.0, 0.0);
  }

  lemma DearWalk(ct: int)
    requires Fits(DearDay, NoParas(1)) && (ct == 1470 || ct == 1530)
    ensures Walk(Stay(DearDay, NoParas(1), 1440, ct, 0), Start(86400, false)) ==
            Fee(if ct == 1470 then 500.0 else 300.0)
  {
    var s := Stay(DearDay, NoParas(1), 1440, ct, 0);
    DearLoads(1);
    var d := Load(DearDay, 1).day;
    DearPass(s, d);
    WalkUnfolds(s, Start(86400, false), d);
  }

  lemma DearPass(s: Stay, d: Day)
    requires s.ct == 1470 || s.ct == 1530
    requires s.p == NoParas(1) && AllDayTables(d, 1, DEAR_START, 0.0) && DayFits(d, 1, s.p)
    ensures var r := OnePass(s, d, Start(86400, false));
            && (s.ct == 1470 ==> r.Leave? && r.c.charge == 0.0 && r.c.dayFee == 500.0)
            && (s.ct == 1530 ==> r.Bottom? && r.c.pt == 2880 && r.c.charge == 300.0 && r.c.dayFee == 0.0)
  {
    assert ZoneAt(d, 1440) == 1;
    assert HourRun(DEAR_START, 1500, 2880, s.ct, false, 500.0) == (2880, 600.0);
  }

  /** A first period dearer than the zone cap is capped only once the stay goes past it:
      half an hour costs 500, an hour and a half 300. */
  lemma FirstFreeCanCostLess()
    ensures Fits(DearDay, NoParas(1))
    ensures RawFee(DearDay, NoParas(1), 0, 86400, 88200, false) == Fee(500.0)
    ensures RawFee(DearDay, NoParas(1), 0, 86400, 91800, false) == Fee(300.0)
  {
    forall n ensures DayOk(DearDay, NoParas(1), n) { DearLoads(n); }
    DearWalk(1470);
    DearWalk(1530);
  }
}
