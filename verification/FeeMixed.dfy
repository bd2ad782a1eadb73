/** Weeks that mix days in 24-hour mode with other days: what becomes of the blocks already charged. */
module FeeMixed {
  import opened FeeTariff
  import opened FeeMonotone
  import opened FeeWholeDay

  /** Whether a day is in 24-hour mode: its minimum and maximum are one positive amount. */
  predicate IsWhole(t: DayTariff) { t.dayMin == t.dayMax && t.dayMin > 0.0 }

  lemma LoadedMode(week: Week, n: int)
    requires Load(week, n).Loaded?
    ensures Load(week, n).day.block24 == IsWhole(week(n)) && Load(week, n).day.fee24 >= 0
  {
  }

  /** Whether the calculation from a cursor ends on a day in 24-hour mode. */
  function EndsWhole(s: Stay, c: Cursor): bool
    requires Fits(s.week, s.p) && OnDay(s, c)
    decreases s.ct - c.pt
  {
    var l := Load(s.week, c.pd);
    if l.Failed? then false
    else
      assert DayOk(s.week, s.p, c.pd);
      var r := OnePass(s, l.day, c);
      if r.Bottom? && r.c.pt < s.ct then EndsWhole(s, r.c) else !r.Return? && l.day.block24
  }

  // ---- the blocks of a cursor ----

  function Shifted(c: Cursor, q: int): Cursor { c.(charges24 := c.charges24 + q) }

  function Plus(o: Outcome, q: real): Outcome { if o.Fee? then Fee(o.amount + q) else o }

  lemma SettleShifted(d: Day, c: Cursor, fee: real, q: int)
    ensures Settle(d, Shifted(c, q), fee) == Shifted(Settle(d, c, fee), q)
  {
  }

  lemma ChargeShifted(s: Stay, cutoff: int, z: Zone, zoneEnd: int, nextType: int, c: Cursor, q: int)
    requires z.block >= 0 && z.free1 >= 0 && z.free2 >= 0 && z.free3 >= 0 && c.pt < zoneEnd
    ensures HourlyCharge(s, cutoff, z, zoneEnd, nextType, Shifted(c, q))
         == HourlyCharge(s, cutoff, z, zoneEnd, nextType, c)
  {
    hide FirstFree, HourRun;
  }

  lemma HourlyShifted(s: Stay, d: Day, z: Zone, zoneEnd: int, nextType: int, c: Cursor, q: int)
    requires z.block >= 0 && z.free1 >= 0 && z.free2 >= 0 && z.free3 >= 0 && c.pt < zoneEnd
    ensures SamePass(HourlyPass(s, d, z, zoneEnd, nextType, c), HourlyPass(s, d, z, zoneEnd, nextType, Shifted(c, q)), q)
    ensures var r := HourlyPass(s, d, z, zoneEnd, nextType, c); if r.Return? then r.out.Error? else r.c.noGrace == c.noGrace
  {
    hide HourlyCharge;
    ChargeShifted(s, d.zoneCutoff, z, zoneEnd, nextType, c, q);
    var h := HourlyCharge(s, d.zoneCutoff, z, zoneEnd, nextType, c);
    if h.Blocks? { SettleShifted(d, c.(pt := h.pt, freed := h.freed), h.fee, q); }
  }

  /** The same pass but for the blocks of its cursor. */
  predicate SamePass(r: Pass, t: Pass, q: int) {
    match r
    case Return(_) => t == r
    case Leave(e) => t == Leave(Shifted(e, q))
    case Bottom(e) => t == Bottom(Shifted(e, q))
  }

  lemma EntryShifted(s: Stay, d: Day, z: Zone, zoneEnd: int, c: Cursor, q: int)
    ensures SamePass(EntryPass(s, d, z, zoneEnd, c), EntryPass(s, d, z, zoneEnd, Shifted(c, q)), q)
    ensures var r := EntryPass(s, d, z, zoneEnd, c); r.Bottom? && r.c.noGrace == c.noGrace
  {
    var fee := if z.allowance > 0 && c.Charged() && s.ct - c.pt <= z.allowance then 0.0 else z.rate;
    SettleShifted(d, c.(pt := EntryEnd(s.p, zoneEnd, c.pt)), fee, q);
  }

  /** No branch of a pass looks at the blocks charged so far. */
  lemma PassShifted(s: Stay, d: Day, c: Cursor, q: int)
    requires |d.zones| >= 2 && |d.times| == |d.types| == |d.zones| + 1
    requires OnDay(s, c) && DayFits(d, c.pd, s.p)
    ensures SamePass(OnePass(s, d, c), OnePass(s, d, Shifted(c, q)), q)
    ensures var r := OnePass(s, d, c); if r.Return? then r.out.Error? || !c.noGrace else r.c.noGrace
  {
    hide HourlyPass, EntryPass;
    var k := ZoneAt(d, c.pt);
    var z := d.zones[k];
    assert ZoneFits(z, d.times[k+1], c.pd, d.zoneCutoff, d.types[k+1], s.p);
    var c1 := c.(noGrace := true, curMin := z.zoneMin, curMax := z.zoneMax);
    if z.rateType == 1 {
      HourlyShifted(s, d, z, d.times[k+1], d.types[k+1], c1, q);
    } else {
      EntryShifted(s, d, z, d.times[k+1], c1, q);
    }
  }

  /** Only the end does, and only on a day in 24-hour mode. */
  lemma FinishShifted(d: Day, c: Cursor, q: int)
    ensures Finish(d, Shifted(c, q)) == Finish(d, c) + if d.block24 then q as real else 0.0
  {
  }

  /** Blocks charged before a cursor count in full if the calculation ends on a day in 24-hour mode,
      and not at all otherwise. */
  lemma {:induction false} BlocksCount(s: Stay, c: Cursor, q: int)
    requires Fits(s.week, s.p) && OnDay(s, c)
    ensures Walk(s, Shifted(c, q)) == Plus(Walk(s, c), if EndsWhole(s, c) then q as real else 0.0)
    decreases s.ct - c.pt
  {
    hide Load, Walk, Onward, Fits, OnePass;
    WalkLoads(s, c);
    WalkLoads(s, Shifted(c, q));
    var l := Load(s.week, c.pd);
    if l.Loaded? {
      DayIsOk(s, c.pd);
      PassShifted(s, l.day, c, q);
      WalkUnfolds(s, c, l.day);
      WalkUnfolds(s, Shifted(c, q), l.day);
      var r := OnePass(s, l.day, c);
      if r.Bottom? && r.c.pt < s.ct {
        BlocksCount(s, r.c, q);
      } else if !r.Return? {
        FinishShifted(l.day, r.c, q);
      }
    }
  }

  lemma DayIsOk(s: Stay, pd: int)
    requires Fits(s.week, s.p) && Load(s.week, pd).Loaded?
    ensures DayFits(Load(s.week, pd).day, pd, s.p)
  {
    assert DayOk(s.week, s.p, pd);
  }

  // ---- where the calculation ends ----

  /** All the days from one to another are in one mode. */
  ghost predicate OneMode(week: Week, from: int, to: int, whole: bool) {
    forall k :: from <= k <= to ==> IsWhole(week(k)) == whole
  }

  lemma {:induction false} EndsInMode(s: Stay, c: Cursor, whole: bool)
    requires Fits(s.week, s.p) && OnDay(s, c) && c.pt < s.ct && OneMode(s.week, c.pd, (s.ct - 1) / MINUTES, whole)
    requires Walk(s, c).Fee? && (whole ==> c.noGrace)
    ensures EndsWhole(s, c) == whole
    decreases s.ct - c.pt
  {
    hide Load, Walk, Onward, Fits, OnePass;
    WalkLoads(s, c);
    var l := Load(s.week, c.pd);
    SameOrLaterDay(c.pt, s.ct - 1);
    DayIsOk(s, c.pd);
    LoadedMode(s.week, c.pd);
    WalkUnfolds(s, c, l.day);
    var r := OnePass(s, l.day, c);
    if r.Bottom? && r.c.pt < s.ct {
      SameOrLaterDay(c.pt, r.c.pt);
      PassShifted(s, l.day, c, 0);
      EndsInMode(s, r.c, whole);
    } else {
      PassShifted(s, l.day, c, 0);
    }
  }

  /** Followed only by days that are not in 24-hour mode, no block counts, however many were charged. */
  lemma BlocksAreDropped(s: Stay, c: Cursor, q: int)
    requires Fits(s.week, s.p) && OnDay(s, c) && c.pt < s.ct && OneMode(s.week, c.pd, (s.ct - 1) / MINUTES, false)
    ensures Walk(s, c.(charges24 := q)) == Walk(s, c)
  {
    hide Load, Walk, Onward, Fits, OnePass, EndsWhole;
    BlocksCount(s, c, q - c.charges24);
    if Walk(s, c).Fee? { EndsInMode(s, c, false); }
  }

  // ---- no amount is negative ----

  ghost predicate NonNegativeWeek(week: Week) { forall n :: NonNegativeAt(week, n) }

  predicate NonNegativeAt(week: Week, n: int) {
    var l := Load(week, n);
    l.Loaded? ==> NonNegativeTables(l.day)
  }

  lemma PassNotNegative(s: Stay, d: Day, c: Cursor)
    requires |d.zones| >= 2 && |d.times| == |d.types| == |d.zones| + 1
    requires OnDay(s, c) && DayFits(d, c.pd, s.p) && InOrder(c, c) && c.charges24 >= 0
    requires NonNegativeTables(d) && (d.block24 ==> d.fee24 >= 0)
    ensures var r := OnePass(s, d, c);
            if r.Return? then r.out.Error? || r.out == Fee(0.0)
            else InOrder(r.c, r.c) && r.c.charges24 >= 0 && Finish(d, r.c) >= 0.0
  {
    hide HourlyPass, EntryPass, FirstFree, HourRun;
    if d.block24 && !BlocksOver(s, c.pt) {
      SettleInOrder(d, c.(charges24 := c.charges24 + d.fee24, pt := c.pt + MINUTES, noGrace := true));
    } else {
      ZonePassInOrder(s, d, c);
    }
    var r := OnePass(s, d, c);
    if !r.Return? { FinishInOrder(d, r.c); }
  }

  lemma SettleInOrder(d: Day, c: Cursor)
    requires InOrder(c, c)
    ensures InOrder(Settle(d, c, 0.0), c)
  {
  }

  lemma FinishInOrder(d: Day, c: Cursor)
    requires InOrder(c, c) && c.charges24 >= 0 && (d.block24 ==> d.fee24 >= 0)
    ensures Finish(d, c) >= 0.0
  {
  }

  lemma {:induction false} WalkNotNegative(s: Stay, c: Cursor)
    requires Fits(s.week, s.p) && OnDay(s, c) && NonNegativeWeek(s.week) && InOrder(c, c) && c.charges24 >= 0
    ensures Walk(s, c).Fee? ==> Walk(s, c).amount >= 0.0
    decreases s.ct - c.pt
  {
    hide Load, Walk, Onward, Fits, OnePass, Finish;
    WalkLoads(s, c);
    var l := Load(s.week, c.pd);
    if l.Loaded? {
      DayIsOk(s, c.pd);
      LoadedMode(s.week, c.pd);
      assert NonNegativeAt(s.week, c.pd);
      PassNotNegative(s, l.day, c);
      WalkUnfolds(s, c, l.day);
      var r := OnePass(s, l.day, c);
      if r.Bottom? && r.c.pt < s.ct { WalkNotNegative(s, r.c); }
    }
  }

  // ---- stays of whole blocks, and stays that run on ----

  /** The cursor at the end of the last block, with nothing charged. */
  function Rest(c: Cursor, b: nat): Cursor { Skip(c, b, 0) }

  lemma SkipIsShifted(c: Cursor, b: nat, fee: nat)
    ensures Skip(c, b, fee) == Shifted(Rest(c, b), b * fee)
  {
    RepeatIsProduct(b, fee);
    RepeatIsProduct(b, 0);
  }

  /** The blocks of 24-hour days, followed by any days: a stay of whole blocks costs the blocks, and one
      that runs on costs the rest, with the blocks if it ends on a day in 24-hour mode and without
      them if it does not. */
  lemma BlocksThenRest(s: Stay, c: Cursor, fee: nat, b: nat)
    requires Fits(s.week, s.p) && OnDay(s, c) && WholeDays(s.week, fee, c.pd, b) && Clear(c) && c.charges24 == 0
    requires 0 < b <= BlocksLeft(s, c.pt)
    ensures var e := Rest(c, b);
            if s.ct <= e.pt then Walk(s, c) == Fee((b * fee) as real)
            else OnDay(s, e) && Walk(s, c) == Plus(Walk(s, e), if EndsWhole(s, e) then (b * fee) as real else 0.0)
  {
    hide Load, Walk, Onward, Fits, OnePass, EndsWhole, WholeAt;
    BlocksFirst(s, c, fee, b);
    SkipIsShifted(c, b, fee);
    RepeatIsProduct(b, fee);
    RepeatIsProduct(b, 0);
    var e := Rest(c, b);
    if e.pt < s.ct { BlocksCount(s, e, b * fee); }
  }

  /** A stay that runs on past b blocks, for however long and whatever days follow, costs less than the
      blocks exactly when it ends on a day that is not in 24-hour mode and the rest, taken alone, is
      cheaper than the blocks. */
  lemma RunningOnCostsLess(s: Stay, c: Cursor, fee: nat, b: nat)
    requires Fits(s.week, s.p) && OnDay(s, c) && WholeDays(s.week, fee, c.pd, b) && Clear(c) && c.charges24 == 0
    requires 0 < b <= BlocksLeft(s, c.pt) && NonNegativeWeek(s.week) && Rest(c, b).pt < s.ct && Walk(s, c).Fee?
    ensures var e := Rest(c, b);
            && OnDay(s, e) && Walk(s, e).Fee?
            && (Walk(s, c).amount < (b * fee) as real <==>
                !EndsWhole(s, e) && Walk(s, e).amount < (b * fee) as real)
  {
    hide Load, Walk, Onward, Fits, OnePass, EndsWhole, WholeAt;
    BlocksThenRest(s, c, fee, b);
    RepeatIsProduct(b, 0);
    WalkNotNegative(s, Rest(c, b));
  }

  // ---- the same for entry and payment times ----

  /** The minute at which b whole blocks of a stay end. */
  function BlocksEnd(entry: nat, b: nat): nat { entry / 60 + b * MINUTES }

  lemma RestIsAStart(entry: nat, noGrace: bool, b: nat)
    ensures Rest(Start(entry, noGrace), b) == Start(entry + b * 86400, true)
    ensures Rest(Start(entry, noGrace), b).pt == BlocksEnd(entry, b)
  {
    RepeatIsProduct(b, 0);
    LaterByDays(entry, b);
  }

  lemma {:induction false} LaterByDays(entry: nat, b: nat)
    ensures (entry + b * 86400) / 60 == entry / 60 + b * MINUTES
    ensures (entry / 60 + b * MINUTES) / MINUTES == entry / 60 / MINUTES + b
  {
    if b > 0 {
      LaterByDays(entry, b - 1);
      assert entry + b * 86400 == entry + (b - 1) * 86400 + 60 * MINUTES;
      assert entry / 60 + b * MINUTES == entry / 60 + (b - 1) * MINUTES + MINUTES;
    }
  }

  /** A stay of at least b blocks, of which the first b begin on days in 24-hour mode at one charge. */
  ghost predicate BlockStay(week: Week, tz: int, fee: nat, entry: nat, pay: nat, b: nat) {
    && entry / 60 <= pay / 60 && 0 < b <= StayBlocks(tz, entry, pay)
    && WholeDays(week, fee, entry / 60 / MINUTES, b)
  }

  /** A stay that has not run on past the last of these blocks costs the blocks. */
  lemma WholeBlocksCost(week: Week, p: Paras, tz: int, fee: nat, entry: nat, pay: nat, noGrace: bool, b: nat)
    requires Fits(week, p) && BlockStay(week, tz, fee, entry, pay, b) && PayMinute(entry, pay) <= BlocksEnd(entry, b)
    ensures RawFee(week, p, tz, entry, pay, noGrace) == Fee((b * fee) as real)
  {
    hide Load, Walk, Onward, Fits, WholeAt;
    var s := Stay(week, p, entry / 60, PayMinute(entry, pay), tz);
    BlocksThenRest(s, Start(entry, noGrace), fee, b);
    RestIsAStart(entry, noGrace, b);
  }

  /** Of two stays that begin with b blocks on 24-hour days, one that has not run on past them and one that
      has, for however long and whatever days follow, the longer costs less exactly when its calculation
      ends on a day that is not in 24-hour mode and the rest of it, taken alone, is cheaper than the
      blocks. */
  lemma LongerCostsLessExactly(week: Week, p: Paras, tz: int, fee: nat, entry: nat, pay: nat, pay': nat,
                               noGrace: bool, b: nat)
    requires Fits(week, p) && NonNegativeWeek(week)
    requires BlockStay(week, tz, fee, entry, pay, b) && PayMinute(entry, pay) <= BlocksEnd(entry, b)
    requires BlockStay(week, tz, fee, entry, pay', b) && BlocksEnd(entry, b) < PayMinute(entry, pay')
    requires RawFee(week, p, tz, entry, pay', noGrace).Fee?
    ensures var s := Stay(week, p, entry / 60, PayMinute(entry, pay'), tz);
            var e := Start(entry + b * 86400, true);
            var short, long := RawFee(week, p, tz, entry, pay, noGrace), RawFee(week, p, tz, entry, pay', noGrace);
            && OnDay(s, e) && Walk(s, e).Fee? && short == Fee((b * fee) as real)
            && (long.amount < short.amount <==> !EndsWhole(s, e) && Walk(s, e).amount < short.amount)
  {
    hide Load, Walk, Onward, Fits, EndsWhole, WholeAt, NonNegativeAt;
    WholeBlocksCost(week, p, tz, fee, entry, pay, noGrace, b);
    var s := Stay(week, p, entry / 60, PayMinute(entry, pay'), tz);
    RestIsAStart(entry, noGrace, b);
    RunningOnCostsLess(s, Start(entry, noGrace), fee, b);
  }

  /** When the days from the end of the blocks to payment are all in one mode, any of them tells in which
      mode the calculation ends. */
  lemma LongerCostsLessInOneMode(week: Week, p: Paras, tz: int, fee: nat, entry: nat, pay: nat, pay': nat,
                                 noGrace: bool, b: nat, whole: bool)
    requires Fits(week, p) && NonNegativeWeek(week)
    requires BlockStay(week, tz, fee, entry, pay, b) && PayMinute(entry, pay) <= BlocksEnd(entry, b)
    requires BlockStay(week, tz, fee, entry, pay', b) && BlocksEnd(entry, b) < PayMinute(entry, pay')
    requires OneMode(week, BlocksEnd(entry, b) / MINUTES, (PayMinute(entry, pay') - 1) / MINUTES, whole)
    requires RawFee(week, p, tz, entry, pay', noGrace).Fee?
    ensures var s := Stay(week, p, entry / 60, PayMinute(entry, pay'), tz);
            var alone := Walk(s, Start(entry + b * 86400, true));
            var short, long := RawFee(week, p, tz, entry, pay, noGrace), RawFee(week, p, tz, entry, pay', noGrace);
            && alone.Fee? && short.Fee?
            && (long.amount < short.amount <==> !whole && alone.amount < short.amount)
  {
    hide Load, Walk, Onward, Fits, EndsWhole, WholeAt, NonNegativeAt;
    LongerCostsLessExactly(week, p, tz, fee, entry, pay, pay', noGrace, b);
    RestIsAStart(entry, noGrace, b);
    EndsInMode(Stay(week, p, entry / 60, PayMinute(entry, pay'), tz), Start(entry + b * 86400, true), whole);
  }
}
