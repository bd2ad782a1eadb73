/** What the minimum of a day guarantees. */
module FeeMinimum {
  import opened FeeTariff
  import opened FeeTheorems
  import opened FeeMonotone
  import opened FeeWholeDay
  import FeeMixed

  // ---- the tariffs ----

  /** No day is in 24-hour mode, and none costs less than low once anything is charged on it. */
  ghost predicate DailyMin(week: Week, low: real) { forall n :: MinDay(week, low, n) }

  predicate MinDay(week: Week, low: real, n: int) {
    var t := week(n);
    0.0 < low <= t.dayMin && t.dayMin != t.dayMax && (t.dayMax <= 0.0 || t.dayMin <= t.dayMax)
  }

  predicate MinTables(d: Day, low: real) {
    0.0 < low <= d.dayMin && (d.dayMax <= 0.0 || d.dayMin <= d.dayMax) && !d.block24
  }

  lemma MinLoads(s: Stay, c: Cursor, low: real, d: Day)
    requires Fits(s.week, s.p) && DailyMin(s.week, low) && FeeMixed.NonNegativeWeek(s.week)
    requires Load(s.week, c.pd) == Loaded(d)
    ensures DayFits(d, c.pd, s.p) && MinTables(d, low) && NonNegativeTables(d)
  {
    assert DayOk(s.week, s.p, c.pd) && MinDay(s.week, low, c.pd) && FeeMixed.NonNegativeAt(s.week, c.pd);
  }

  // ---- one pass ----

  /** A cursor closes a day for at least the minimum, or leaves the charge alone. */
  predicate Closes(c: Cursor, r: Cursor, low: real) {
    r.dayFee >= 0.0 && (if r.pd == c.pd then r.charge == c.charge else r.dayFee == 0.0 && r.charge >= c.charge + low)
  }

  lemma SettleCloses(d: Day, c: Cursor, from: Cursor, fee: real, low: real)
    requires MinTables(d, low) && c.dayFee >= 0.0 && fee >= 0.0 && from.pd == c.pd && from.charge == c.charge
    ensures Closes(from, Settle(d, c, fee), low)
    ensures fee > 0.0 && Settle(d, c, fee).pd == c.pd ==> Settle(d, c, fee).dayFee > 0.0
  {
  }

  lemma HourlyCloses(s: Stay, d: Day, z: Zone, zoneEnd: int, nextType: int, c: Cursor, low: real)
    requires z.block >= 0 && z.free1 >= 0 && z.free2 >= 0 && z.free3 >= 0 && c.pt < zoneEnd
    requires NonNegativeZone(z) && MinTables(d, low) && c.dayFee >= 0.0
    ensures var r := HourlyPass(s, d, z, zoneEnd, nextType, c);
            if r.Return? then r.out.Error? else Closes(c, r.c, low) && (r.Leave? ==> r.c.pd == c.pd)
  {
    hide FirstFree, HourRun, Settle, CutBack;
    var f := FreeOrNot(s, d, z, zoneEnd, nextType, c);
    if z.block > 0 {
      HourRunGrows(z, f.pt, zoneEnd, s.ct, c.Charged(), f.fee);
      var run := HourRun(z, f.pt, zoneEnd, s.ct, c.Charged(), f.fee);
      var e := c.(pt := CutBack(s, d.zoneCutoff, nextType, zoneEnd, run.0), freed := f.freed);
      SettleCloses(d, e, c, run.1, low);
    }
  }

  function FreeOrNot(s: Stay, d: Day, z: Zone, zoneEnd: int, nextType: int, c: Cursor): Free
    requires z.free1 >= 0 && z.free2 >= 0 && z.free3 >= 0 && c.pt < zoneEnd
  {
    if FreeApplies(z, s.p, c) then FirstFree(z, s.p, d.zoneCutoff, zoneEnd, nextType, c.pt, s.ct, c.freed)
    else Free(c.pt, 0.0, false, c.freed)
  }

  lemma EntryCloses(s: Stay, d: Day, z: Zone, zoneEnd: int, c: Cursor, low: real)
    requires NonNegativeZone(z) && MinTables(d, low) && c.dayFee >= 0.0
    ensures var r := EntryPass(s, d, z, zoneEnd, c); Closes(c, r.c, low)
    ensures var r := EntryPass(s, d, z, zoneEnd, c);
            z.rate > 0.0 && z.allowance <= 0 && r.c.pd == c.pd ==> r.c.dayFee > 0.0
  {
    hide Settle;
    var fee := if z.allowance > 0 && c.Charged() && s.ct - c.pt <= z.allowance then 0.0 else z.rate;
    SettleCloses(d, c.(pt := EntryEnd(s.p, zoneEnd, c.pt)), c, fee, low);
  }

  lemma PassCloses(s: Stay, d: Day, c: Cursor, low: real)
    requires |d.zones| >= 2 && |d.times| == |d.types| == |d.zones| + 1
    requires OnDay(s, c) && DayFits(d, c.pd, s.p) && MinTables(d, low) && NonNegativeTables(d) && c.dayFee >= 0.0
    ensures var r := OnePass(s, d, c);
            if r.Return? then r.out.Error? || (r.out == Fee(0.0) && !c.noGrace)
            else Closes(c, r.c, low) && (r.Leave? ==> r.c.pd == c.pd) && r.c.noGrace
  {
    hide HourlyPass, EntryPass;
    var k := ZoneAt(d, c.pt);
    var z := d.zones[k];
    assert NonNegativeZone(z) && ZoneFits(z, d.times[k+1], c.pd, d.zoneCutoff, d.types[k+1], s.p);
    var c1 := c.(noGrace := true, curMin := z.zoneMin, curMax := z.zoneMax);
    if z.rateType == 1 {
      HourlyCloses(s, d, z, d.times[k+1], d.types[k+1], c1, low);
      HourlyKeepsGrace(s, d, z, d.times[k+1], d.types[k+1], c1);
    } else if z.rateType == 2 {
      EntryCloses(s, d, z, d.times[k+1], c1, low);
      EntryKeepsGrace(s, d, z, d.times[k+1], c1);
    }
  }

  lemma HourlyKeepsGrace(s: Stay, d: Day, z: Zone, zoneEnd: int, nextType: int, c: Cursor)
    requires z.block >= 0 && z.free1 >= 0 && z.free2 >= 0 && z.free3 >= 0 && c.pt < zoneEnd
    ensures var r := HourlyPass(s, d, z, zoneEnd, nextType, c); !r.Return? ==> r.c.noGrace == c.noGrace
  {
    hide HourlyCharge;
  }

  lemma EntryKeepsGrace(s: Stay, d: Day, z: Zone, zoneEnd: int, c: Cursor)
    ensures EntryPass(s, d, z, zoneEnd, c).Bottom? && EntryPass(s, d, z, zoneEnd, c).c.noGrace == c.noGrace
  {
  }

  lemma FinishAtLeast(d: Day, c: Cursor, low: real)
    requires MinTables(d, low) && c.dayFee >= 0.0
    ensures Finish(d, c) >= c.charge + if c.dayFee > 0.0 then low else 0.0
    ensures c.dayFee == 0.0 ==> Finish(d, c) == c.charge
  {
  }

  // ---- a fee is nothing or at least the minimum ----

  predicate NothingOr(low: real, x: real) { x == 0.0 || x >= low }

  lemma {:induction false} WalkNothingOr(s: Stay, c: Cursor, low: real)
    requires Fits(s.week, s.p) && OnDay(s, c) && DailyMin(s.week, low) && FeeMixed.NonNegativeWeek(s.week)
    requires c.dayFee >= 0.0 && NothingOr(low, c.charge)
    ensures Walk(s, c).Fee? ==> NothingOr(low, Walk(s, c).amount)
    decreases s.ct - c.pt
  {
    hide Load, Walk, Onward, Fits, OnePass, Finish, DailyMin;
    WalkLoads(s, c);
    var l := Load(s.week, c.pd);
    if l.Loaded? {
      MinLoads(s, c, low, l.day);
      PassCloses(s, l.day, c, low);
      WalkUnfolds(s, c, l.day);
      var r := OnePass(s, l.day, c);
      if !r.Return? { FinishAtLeast(l.day, r.c, low); }
      if r.Bottom? && r.c.pt < s.ct { WalkNothingOr(s, r.c, low); }
    }
  }

  /** Whatever zones, periods and allowances a stay meets, it costs nothing or at least one day's minimum. */
  lemma NothingOrTheMinimum(week: Week, p: Paras, tz: int, entry: nat, pay: nat, noGrace: bool, low: real)
    requires Fits(week, p) && DailyMin(week, low) && FeeMixed.NonNegativeWeek(week)
    ensures var o := RawFee(week, p, tz, entry, pay, noGrace); o.Fee? ==> NothingOr(low, o.amount)
  {
    hide Load, Walk, Onward, Fits, DailyMin;
    if entry / 60 <= pay / 60 {
      WalkNothingOr(Stay(week, p, entry / 60, PayMinute(entry, pay), tz), Start(entry, noGrace), low);
    }
  }

  // ---- every day is charged at least its minimum ----

  /** Every zone charges: positive rates, no allowance, no first-free period in use. */
  ghost predicate AlwaysCharges(week: Week, p: Paras) { forall n :: ChargesAt(week, p, n) }

  predicate ChargesAt(week: Week, p: Paras, n: int) {
    var l := Load(week, n);
    l.Loaded? ==> ChargingTables(l.day, p)
  }

  predicate ChargingTables(d: Day, p: Paras) { forall k | 0 <= k < |d.zones| :: Charging(d.zones[k], p) }

  predicate Charging(z: Zone, p: Paras) { z.rate > 0.0 && z.allowance <= 0 && (z.free1 <= 0 || p.firstHour <= 0) }

  /** A pass that does not close the day leaves something charged on it. */
  lemma PassCharges(s: Stay, d: Day, c: Cursor, low: real)
    requires |d.zones| >= 2 && |d.times| == |d.types| == |d.zones| + 1
    requires OnDay(s, c) && DayFits(d, c.pd, s.p) && MinTables(d, low) && NonNegativeTables(d) && c.dayFee >= 0.0
    requires ChargingTables(d, s.p)
    ensures var r := OnePass(s, d, c); !r.Leave? && (r.Bottom? && r.c.pd == c.pd ==> r.c.dayFee > 0.0)
  {
    hide HourlyPass, EntryPass;
    var k := ZoneAt(d, c.pt);
    var z := d.zones[k];
    assert Charging(z, s.p) && NonNegativeZone(z);
    assert ZoneFits(z, d.times[k+1], c.pd, d.zoneCutoff, d.types[k+1], s.p);
    var c1 := c.(noGrace := true, curMin := z.zoneMin, curMax := z.zoneMax);
    if z.rateType == 1 {
      HourlyCharges(s, d, z, d.times[k+1], d.types[k+1], c1, low);
    } else if z.rateType == 2 {
      EntryCloses(s, d, z, d.times[k+1], c1, low);
      EntryKeepsGrace(s, d, z, d.times[k+1], c1);
    }
  }

  lemma HourlyCharges(s: Stay, d: Day, z: Zone, zoneEnd: int, nextType: int, c: Cursor, low: real)
    requires z.block >= 0 && z.free1 >= 0 && z.free2 >= 0 && z.free3 >= 0 && c.pt < zoneEnd
    requires Charging(z, s.p) && MinTables(d, low) && c.dayFee >= 0.0
    ensures var r := HourlyPass(s, d, z, zoneEnd, nextType, c);
            !r.Leave? && (r.Bottom? && r.c.pd == c.pd ==> r.c.dayFee > 0.0)
  {
    hide Settle, CutBack;
    if z.block > 0 {
      HourRunCharges(z, c.pt, zoneEnd, s.ct, c.Charged());
      var run := HourRun(z, c.pt, zoneEnd, s.ct, c.Charged(), 0.0);
      SettleCloses(d, c.(pt := CutBack(s, d.zoneCutoff, nextType, zoneEnd, run.0)), c, run.1, low);
    }
  }

  lemma HourRunCharges(z: Zone, pt: int, zoneEnd: int, ct: int, charged: bool)
    requires z.block > 0 && z.rate > 0.0 && z.allowance <= 0 && pt < zoneEnd
    ensures HourRun(z, pt, zoneEnd, ct, charged, 0.0).1 >= z.rate
  {
    HourRunGrows(z, pt + z.block, zoneEnd, ct, charged, z.rate);
  }

  /** The midnights from day pd on before the last charged minute. */
  function Midnights(s: Stay, pd: int): int { (s.ct - 1) / MINUTES - pd }

  function AtLeastOne(n: int): nat { if n < 1 then 1 else n }

  lemma OneMore(n: int, low: real)
    requires low > 0.0
    ensures low + Times(AtLeastOne(n - 1), low) >= Times(AtLeastOne(n), low)
  {
    if n > 1 { assert Times(n, low) == low + Times(n - 1, low); }
    assert Times(1, low) == low + Times(0, low);
  }

  lemma LastMidnight(s: Stay, c: Cursor, r: Cursor)
    requires s.ct <= r.pt && r.pd == r.pt / MINUTES && r.pd <= c.pd + 1
    ensures Midnights(s, c.pd) <= 1
  {
    SameOrLaterDay(s.ct - 1, r.pt);
  }

  lemma {:induction false} WalkAtLeast(s: Stay, c: Cursor, low: real)
    requires Fits(s.week, s.p) && OnDay(s, c) && DailyMin(s.week, low) && FeeMixed.NonNegativeWeek(s.week)
    requires AlwaysCharges(s.week, s.p) && c.dayFee >= 0.0 && c.noGrace
    ensures Walk(s, c).Fee? ==> Walk(s, c).amount >= c.charge + Times(AtLeastOne(Midnights(s, c.pd)), low)
    decreases s.ct - c.pt
  {
    hide Load, Walk, Onward, Fits, OnePass, Finish, DailyMin, Times;
    WalkLoads(s, c);
    var l := Load(s.week, c.pd);
    if l.Loaded? {
      MinLoads(s, c, low, l.day);
      assert ChargesAt(s.week, s.p, c.pd);
      PassCloses(s, l.day, c, low);
      PassCharges(s, l.day, c, low);
      WalkUnfolds(s, c, l.day);
      var r := OnePass(s, l.day, c);
      if r.Bottom? {
        FinishAtLeast(l.day, r.c, low);
        if r.c.pt < s.ct {
          WalkAtLeast(s, r.c, low);
          OneMore(Midnights(s, c.pd), low);
        } else {
          LastMidnight(s, c, r.c);
          OnceIs(low);
        }
      }
    }
  }

  lemma OnceIs(low: real)
    ensures Times(1, low) == low
  {
    assert Times(1, low) == low + Times(0, low);
  }

  /** The other side of the daily cap: without grace, a stay costs at least one day's minimum for each midnight
      it passes, and never less than one. */
  lemma DayMinBound(week: Week, p: Paras, tz: int, entry: nat, pay: nat, low: real)
    requires Fits(week, p) && DailyMin(week, low) && FeeMixed.NonNegativeWeek(week) && AlwaysCharges(week, p)
    requires entry / 60 <= pay / 60
    ensures var o := RawFee(week, p, tz, entry, pay, true);
            var nights := (PayMinute(entry, pay) - 1) / MINUTES - entry / 60 / MINUTES;
            o.Fee? ==> o.amount >= AtLeastOne(nights) as real * low
  {
    hide Load, Walk, Onward, Fits, DailyMin;
    var s := Stay(week, p, entry / 60, PayMinute(entry, pay), tz);
    WalkAtLeast(s, Start(entry, true), low);
    TimesIsProduct(AtLeastOne(Midnights(s, entry / 60 / MINUTES)), low);
  }
}
