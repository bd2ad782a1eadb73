/** Allowances with which a longer stay can cost less. */
module FeeAllowances {
  import opened FeeTariff
  import opened FeeMonotone
  import FeeLater

  /** Three zones that start at three minutes of the day, the same every day. */
  datatype Plan = Plan(at1: int, at2: int, at3: int, z1: Zone, z2: Zone, z3: Zone, cutoff: int)
  {
    function Tariff(n: int): DayTariff {
      DayTariff([Slot(at1, at2, z1), Slot(at2, at3, z2), Slot(at3, at1, z3)], 0.0, 0.0, cutoff, 0)
    }

    /** The working tables of day n. */
    function Tables(n: int): Day {
      Day([z3, z1, z2, z3],
          [(n - 1) * MINUTES + at3, n * MINUTES + at1, n * MINUTES + at2, n * MINUTES + at3, (n + 1) * MINUTES + at1],
          [z3.rateType, z1.rateType, z2.rateType, z3.rateType, z1.rateType], 0.0, 0.0, cutoff, false, 0)
    }

    lemma Loads(n: int)
      requires at1 < at2 < at3
      ensures Load(Tariff, n) == Loaded(Tables(n))
    {
      var slots := Tariff(n).slots;
      assert slots[0].end != at1 && slots[1].end != at1 && slots[2].end == at1;
      assert MaxZone(slots) == 3 && Tariff(n - 1).slots == slots;
      var d := DayTables(Tariff, n);
      assert d.zones == Tables(n).zones;
      assert d.times == Tables(n).times;
      assert d.types == Tables(n).types;
    }

    /** No step leaves the next day. */
    lemma PlanFits(p: Paras)
      requires 0 <= at1 < at2 < at3 < MINUTES && p.firstHour == 0
      requires forall n :: DayFits(Tables(n), n, p)
      ensures Fits(Tariff, p)
    {
      forall n ensures DayOk(Tariff, p, n) {
        Loads(n);
        assert DayFits(Tables(n), n, p);
      }
    }
  }

  function Hourly(rate: real, block: int, low: real, high: real, allowance: int): Zone {
    Zone(1, rate, block, low, high, 0, 0, 0.0, 0, 0.0, 0, 0.0, allowance)
  }

  /** A pass from c to e ends the stay, or the stay goes on from e. */
  lemma PassTo(s: Stay, d: Day, c: Cursor, e: Cursor)
    requires Fits(s.week, s.p) && OnDay(s, c) && Load(s.week, c.pd) == Loaded(d) && DayFits(d, c.pd, s.p)
    ensures OnePass(s, d, c) == Bottom(e) && s.ct <= e.pt ==> Walk(s, c) == Fee(Finish(d, e))
    ensures OnePass(s, d, c) == Bottom(e) && e.pt < s.ct ==> OnDay(s, e) && Walk(s, c) == Walk(s, e)
  {
    hide Load, Walk, Onward, OnePass, Finish;
    WalkUnfolds(s, c, d);
  }

  // ---- the allowance of a zone that has a maximum, without cut-off ----

  const WAIVING :=
    Plan(0, 1020, 1410, Hourly(20.0, 120, 0.0, 5.0, 10), Hourly(1.0, 60, 2.0, 3.0, 300), Hourly(2.0, 400, 2.0, 0.0, 90), 0)

  const NO_SITE := Paras(0, 0, 0, 0, 0)

  lemma WaivingFits()
    ensures Fits(WAIVING.Tariff, NO_SITE) && DayFits(WAIVING.Tables(1), 1, NO_SITE) && DayFits(WAIVING.Tables(2), 2, NO_SITE)
  {
    forall n ensures DayFits(WAIVING.Tables(n), n, NO_SITE) { }
    WAIVING.PlanFits(NO_SITE);
  }

  function WaivingStay(m: int): Stay { Stay(WAIVING.Tariff, NO_SITE, 2520, 2520 + m, 0) }

  /** 420 minutes: the evening's allowance waives its third block, which runs past midnight. */
  lemma WaivingShort(d: Day, e: Day)
    requires d == WAIVING.Tables(1) && e == WAIVING.Tables(2) && DayFits(d, 1, NO_SITE) && DayFits(e, 2, NO_SITE)
    ensures var s := WaivingStay(420);
            var c := Cursor(2880, 2, 0.0, 2.0, true, false, 0, 2.0, 3.0);
            && OnePass(s, d, Start(151200, false)) == Bottom(c)
            && OnePass(s, e, c) == Bottom(c.(pt := 3900, dayFee := 5.0, curMin := 0.0, curMax := 5.0))
  {
    assert ZoneAt(d, 2520) == 2 && ZoneAt(e, 2880) == 1;
    var z := WAIVING.z2;
    assert HourRun(z, 2820, 2850, 2940, false, 2.0) == (2880, 2.0);
    assert HourRun(z, 2700, 2850, 2940, false, 2.0) == (2880, 2.0);
    assert HourRun(z, 2580, 2850, 2940, false, 1.0) == (2880, 2.0);
    assert HourRun(z, 2520, 2850, 2940, false, 0.0) == (2880, 2.0);
  }

  /** 425 minutes: the third block is charged, reaches the zone's maximum and ends the zone before midnight. */
  lemma WaivingLong(d: Day)
    requires d == WAIVING.Tables(1) && DayFits(d, 1, NO_SITE)
    ensures var s := WaivingStay(425);
            var c := Cursor(2850, 1, 3.0, 0.0, true, false, 0, 2.0, 3.0);
            && OnePass(s, d, Start(151200, false)) == Bottom(c)
            && OnePass(s, d, c) == Bottom(c.(pt := 3250, pd := 2, charge := 5.0, dayFee := 0.0, curMax := 0.0))
  {
    assert ZoneAt(d, 2520) == 2 && ZoneAt(d, 2850) == 3;
    var z := WAIVING.z2;
    assert HourRun(z, 2640, 2850, 2945, false, 2.0) == (2850, 3.0);
    assert HourRun(z, 2580, 2850, 2945, false, 1.0) == (2850, 3.0);
    assert HourRun(z, 2520, 2850, 2945, false, 0.0) == (2850, 3.0);
    assert HourRun(WAIVING.z3, 2850, 2880, 2945, true, 0.0) == (3250, 2.0);
  }

  /** From 18:00, 420 minutes cost 7 and 425 minutes cost 5. */
  lemma AllowanceCanCostLess()
    ensures Fits(WAIVING.Tariff, NO_SITE)
    ensures RawFee(WAIVING.Tariff, NO_SITE, 0, 151200, 176400, false) == Fee(7.0)
    ensures RawFee(WAIVING.Tariff, NO_SITE, 0, 151200, 176700, false) == Fee(5.0)
  {
    hide Load, Walk, Onward, OnePass, Fits, DayFits;
    WaivingFits();
    WAIVING.Loads(1);
    WAIVING.Loads(2);
    var d, e := WAIVING.Tables(1), WAIVING.Tables(2);
    WaivingShort(d, e);
    WaivingLong(d);
    var c := Cursor(2880, 2, 0.0, 2.0, true, false, 0, 2.0, 3.0);
    PassTo(WaivingStay(420), d, Start(151200, false), c);
    PassTo(WaivingStay(420), e, c, c.(pt := 3900, dayFee := 5.0, curMin := 0.0, curMax := 5.0));
    var c' := Cursor(2850, 1, 3.0, 0.0, true, false, 0, 2.0, 3.0);
    PassTo(WaivingStay(425), d, Start(151200, false), c');
    PassTo(WaivingStay(425), d, c', c'.(pt := 3250, pd := 2, charge := 5.0, dayFee := 0.0, curMax := 0.0));
  }

  // ---- the allowance for running on from an hourly zone into a per-entry zone ----

  const CARRYING :=
    Plan(600, 660, 690, Zone(2, 0.0, 0, 0.0, 0.0, 0, 0, 0.0, 0, 0.0, 0, 0.0, 0),
         Hourly(10.0, 60, 0.0, 5.0, 0), Hourly(5.0, 240, 2.0, 0.0, 0), 1)

  const CARRYING_SITE := Paras(0, 0, 400, 240, 0)

  lemma CarryingFits()
    ensures Fits(CARRYING.Tariff, CARRYING_SITE) && DayFits(CARRYING.Tables(1), 1, CARRYING_SITE)
  {
    forall n ensures DayFits(CARRYING.Tables(n), n, CARRYING_SITE) { }
    CARRYING.PlanFits(CARRYING_SITE);
  }

  function CarryingStay(m: int): Stay { Stay(CARRYING.Tariff, CARRYING_SITE, 1875, 1875 + m, 0) }

  /** 400 minutes: the night's block runs on past the per-entry zone, and two more zones charge. */
  lemma CarryingShort(d: Day)
    requires d == CARRYING.Tables(1) && DayFits(d, 1, CARRYING_SITE)
    ensures var s := CarryingStay(400);
            var c := Cursor(2115, 1, 5.0, 0.0, true, false, 0, 2.0, 0.0);
            var c2 := c.(pt := 2130, dayFee := 10.0, curMin := 0.0, curMax := 5.0);
            && OnePass(s, d, Start(112500, false)) == Bottom(c)
            && OnePass(s, d, c) == Bottom(c2)
            && OnePass(s, d, c2) == Bottom(c.(pt := 2370, dayFee := 15.0))
  {
    assert ZoneAt(d, 1875) == 0 && ZoneAt(d, 2115) == 2 && ZoneAt(d, 2130) == 3;
    assert HourRun(CARRYING.z3, 1875, 2040, 2275, false, 0.0) == (2115, 5.0);
    assert HourRun(CARRYING.z2, 2115, 2130, 2275, true, 0.0) == (2130, 10.0);
    assert HourRun(CARRYING.z3, 2130, 3480, 2275, true, 0.0) == (2370, 5.0);
  }

  /** 405 minutes: the block is cut back, and the per-entry zone with its own allowance outlasts the stay. */
  lemma CarryingLong(d: Day)
    requires d == CARRYING.Tables(1) && DayFits(d, 1, CARRYING_SITE)
    ensures var s := CarryingStay(405);
            var c := Cursor(2040, 1, 5.0, 0.0, true, false, 0, 2.0, 0.0);
            && OnePass(s, d, Start(112500, false)) == Bottom(c)
            && OnePass(s, d, c) == Bottom(c.(pt := 2280, curMin := 0.0))
  {
    assert ZoneAt(d, 1875) == 0 && ZoneAt(d, 2040) == 1;
    assert HourRun(CARRYING.z3, 1875, 2040, 2280, false, 0.0) == (2115, 5.0);
  }

  /** From 07:15, 400 minutes cost 15 and 405 minutes cost 5. */
  lemma CarryingOnCanCostLess()
    ensures Fits(CARRYING.Tariff, CARRYING_SITE)
    ensures RawFee(CARRYING.Tariff, CARRYING_SITE, 0, 112500, 136500, false) == Fee(15.0)
    ensures RawFee(CARRYING.Tariff, CARRYING_SITE, 0, 112500, 136800, false) == Fee(5.0)
  {
    hide Load, Walk, Onward, OnePass, Fits, DayFits;
    CarryingFits();
    CARRYING.Loads(1);
    var d := CARRYING.Tables(1);
    CarryingShort(d);
    CarryingLong(d);
    var s, t := CarryingStay(400), CarryingStay(405);
    var c := Cursor(2115, 1, 5.0, 0.0, true, false, 0, 2.0, 0.0);
    var c2 := c.(pt := 2130, dayFee := 10.0, curMin := 0.0, curMax := 5.0);
    PassTo(s, d, Start(112500, false), c);
    PassTo(s, d, c, c2);
    PassTo(s, d, c2, c.(pt := 2370, dayFee := 15.0));
    var c' := Cursor(2040, 1, 5.0, 0.0, true, false, 0, 2.0, 0.0);
    PassTo(t, d, Start(112500, false), c');
    PassTo(t, d, c', c'.(pt := 2280, curMin := 0.0));
  }

  /** The fee of this tariff falls only from a payment within the site's 400 minutes to one beyond them. */
  lemma CarryingFallsOnlyAcross(tz: int, entry: nat, pay: nat, pay': nat, noGrace: bool)
    requires Fits(CARRYING.Tariff, CARRYING_SITE) && pay <= pay'
    ensures var a, b := ParkingFee(CARRYING.Tariff, CARRYING_SITE, tz, entry, pay, noGrace),
                        ParkingFee(CARRYING.Tariff, CARRYING_SITE, tz, entry, pay', noGrace);
            a.Fee? && b.Fee? && b.amount < a.amount ==>
              PayMinute(entry, pay) - entry / 60 <= 400 < PayMinute(entry, pay') - entry / 60
  {
    hide Load, Walk, Onward, Fits;
    forall n ensures PlainAt(CARRYING.Tariff, CARRYING_SITE, false, 0, n) { CARRYING.Loads(n); }
    FeeLater.PayMinuteMono(entry, pay, pay');
    if FeeLater.AlikeStays(CARRYING.Tariff, CARRYING_SITE, entry, pay, pay') {
      FeeLater.LaterNeverCheaper(CARRYING.Tariff, CARRYING_SITE, tz, entry, pay, pay', noGrace);
    }
  }
}
