/** Tariffs that charge every whole 24 hours at one price. */
module FeeWholeDay {
  import opened FeeTariff
  import opened FeeMonotone

  predicate NonNegativeZone(z: Zone) {
    z.rate >= 0.0 && z.add1 >= 0.0 && z.add2 >= 0.0 && z.add3 >= 0.0
  }

  /** A day in 24-hour mode; the engine keeps only the whole part of the charge. */
  predicate WholeDay(t: DayTariff, fee: nat) {
    && t.dayMin == t.dayMax > 0.0 && t.dayMin.Floor == fee
    && forall i | 0 <= i < |t.slots| :: NonNegativeZone(t.slots[i].zone)
  }

  ghost predicate WholeWeek(week: Week, fee: nat) {
    forall n :: WholeAt(week, fee, n)
  }

  predicate WholeAt(week: Week, fee: nat, n: int) {
    WholeDay(week(n), fee) && Load(week, n).Loaded?
  }

  /** n days from one day on are in 24-hour mode. */
  ghost predicate WholeDays(week: Week, fee: nat, from: int, n: nat) {
    forall k :: from <= k < from + n ==> WholeAt(week, fee, k)
  }

  predicate BlockTables(d: Day, fee: nat) { d.block24 && d.fee24 == fee && d.dayMin == d.dayMax == 0.0 }

  predicate NonNegativeTables(d: Day) { forall k | 0 <= k < |d.zones| :: NonNegativeZone(d.zones[k]) }

  /** A day in 24-hour mode charges blocks, whatever the days beside it are. */
  lemma BlockLoads(week: Week, fee: nat, pd: int)
    requires WholeAt(week, fee, pd)
    ensures Load(week, pd).Loaded? && BlockTables(Load(week, pd).day, fee)
  {
  }

  lemma WholeLoads(week: Week, fee: nat, pd: int)
    requires WholeWeek(week, fee)
    ensures Load(week, pd).Loaded? && BlockTables(Load(week, pd).day, fee) && NonNegativeTables(Load(week, pd).day)
  {
    assert WholeAt(week, fee, pd - 1) && WholeAt(week, fee, pd);
    var d := Load(week, pd).day;
    forall k | 0 <= k < |d.zones| ensures NonNegativeZone(d.zones[k]) {
      assert d.zones[k] == if k == 0 then week(pd - 1).slots[MaxZone(week(pd - 1).slots) - 1].zone
                           else week(pd).slots[k - 1].zone;
    }
  }

  function BlocksLeft(s: Stay, pt: int): int { HourDiff(pt, s.ct, s.tz) / 24 }

  lemma OneBlockLess(s: Stay, pt: int)
    ensures BlocksLeft(s, pt + MINUTES) == BlocksLeft(s, pt) - 1
    ensures BlocksLeft(s, pt) > 1 ==> pt + MINUTES < s.ct
  {
    var x := pt - s.tz;
    assert pt + MINUTES - s.tz == x + 60 * 24;
    assert (x + 60 * 24) / 60 == x / 60 + 24;
    var h := HourDiff(pt, s.ct, s.tz);
    assert (h - 24) / 24 == h / 24 - 1;
  }

  /** The charge for b whole blocks. */
  function Repeat(b: nat, fee: nat): nat {
    if b == 0 then 0 else fee + Repeat(b - 1, fee)
  }

  lemma {:induction false} RepeatIsProduct(b: nat, fee: nat)
    ensures Repeat(b, fee) == b * fee
  {
    if b > 0 {
      RepeatIsProduct(b - 1, fee);
      assert (b - 1) * fee + fee == b * fee;
    }
  }

  /** Nothing but 24-hour blocks has been charged. */
  predicate Clear(c: Cursor) { c.dayFee == c.charge == c.curMin == c.curMax == 0.0 }

  function Skip(c: Cursor, b: nat, fee: nat): Cursor {
    c.(pt := c.pt + b * MINUTES, pd := c.pd + b, charges24 := c.charges24 + Repeat(b, fee), noGrace := true)
  }

  lemma BlockPass(s: Stay, d: Day, c: Cursor, fee: nat)
    requires |d.zones| >= 2 && |d.times| == |d.types| == |d.zones| + 1
    requires OnDay(s, c) && DayFits(d, c.pd, s.p) && BlockTables(d, fee) && Clear(c) && BlocksLeft(s, c.pt) > 0
    ensures OnePass(s, d, c) == Bottom(Skip(c, 1, fee))
  {
    assert (c.pt + MINUTES) / MINUTES == c.pt / MINUTES + 1;
    assert Repeat(1, fee) == fee + Repeat(0, fee);
  }

  lemma SkipTwice(c: Cursor, b: nat, fee: nat)
    ensures Skip(Skip(c, 1, fee), b, fee) == Skip(c, b + 1, fee)
  {
    assert Repeat(1, fee) == fee + Repeat(0, fee);
  }

  lemma BlockStep(s: Stay, c: Cursor, fee: nat)
    requires Fits(s.week, s.p) && OnDay(s, c) && WholeAt(s.week, fee, c.pd) && Clear(c) && BlocksLeft(s, c.pt) > 0
    ensures var c' := Skip(c, 1, fee);
            if s.ct <= c'.pt then Walk(s, c) == Fee(c'.charges24 as real)
            else OnDay(s, c') && Walk(s, c) == Walk(s, c')
  {
    hide Load, Walk, Onward, OnePass;
    BlockLoads(s.week, fee, c.pd);
    assert DayOk(s.week, s.p, c.pd);
    var d := Load(s.week, c.pd).day;
    BlockPass(s, d, c, fee);
    WalkUnfolds(s, c, d);
    assert (c.pt + MINUTES) / MINUTES == c.pt / MINUTES + 1;
  }

  /** As long as 24-hour blocks are left and the days they begin on are in 24-hour mode, they are
      charged, each once, before any zone is looked at. */
  lemma {:induction false} BlocksFirst(s: Stay, c: Cursor, fee: nat, b: nat)
    requires Fits(s.week, s.p) && OnDay(s, c) && WholeDays(s.week, fee, c.pd, b) && Clear(c)
    requires 0 < b <= BlocksLeft(s, c.pt)
    ensures var c' := Skip(c, b, fee);
            if s.ct <= c'.pt then Walk(s, c) == Fee(c'.charges24 as real)
            else OnDay(s, c') && Walk(s, c) == Walk(s, c')
    decreases b
  {
    hide Load, Walk, Onward, Fits, WholeAt;
    assert WholeAt(s.week, fee, c.pd);
    BlockStep(s, c, fee);
    if b > 1 {
      OneBlockLess(s, c.pt);
      BlocksFirst(s, Skip(c, 1, fee), fee, b - 1);
      SkipTwice(c, b - 1, fee);
    }
  }

  predicate InOrder(c: Cursor, from: Cursor) {
    c.dayFee >= 0.0 && c.charge >= 0.0 && c.charges24 == from.charges24
  }

  lemma HourlyInOrder(s: Stay, d: Day, z: Zone, zoneEnd: int, nextType: int, c: Cursor)
    requires z.block >= 0 && z.free1 >= 0 && z.free2 >= 0 && z.free3 >= 0 && c.pt < zoneEnd
    requires NonNegativeZone(z) && InOrder(c, c)
    ensures var r := HourlyPass(s, d, z, zoneEnd, nextType, c);
            if r.Return? then r.out.Error? else InOrder(r.c, c)
  {
    hide FirstFree, HourRun;
    if z.block > 0 {
      var f := if FreeApplies(z, s.p, c)
               then FirstFree(z, s.p, d.zoneCutoff, zoneEnd, nextType, c.pt, s.ct, c.freed)
               else Free(c.pt, 0.0, false, c.freed);
      HourRunGrows(z, f.pt, zoneEnd, s.ct, c.Charged(), f.fee);
    }
  }

  lemma ZonePassInOrder(s: Stay, d: Day, c: Cursor)
    requires |d.zones| >= 2 && |d.times| == |d.types| == |d.zones| + 1
    requires OnDay(s, c) && DayFits(d, c.pd, s.p) && (!d.block24 || BlocksOver(s, c.pt)) && InOrder(c, c)
    requires NonNegativeTables(d)
    ensures var r := OnePass(s, d, c);
            if r.Return? then r.out.Error? || (r.out == Fee(0.0) && !c.noGrace) else InOrder(r.c, c)
  {
    var k := ZoneAt(d, c.pt);
    var z := d.zones[k];
    assert NonNegativeZone(z) && ZoneFits(z, d.times[k+1], c.pd, d.zoneCutoff, d.types[k+1], s.p);
    if z.rateType == 1 {
      HourlyInOrder(s, d, z, d.times[k+1], d.types[k+1],
                    c.(noGrace := true, curMin := z.zoneMin, curMax := z.zoneMax));
    }
  }

  predicate Between(low: int, o: Outcome, high: int) {
    o.Fee? ==> low as real <= o.amount <= high as real
  }

  lemma RestStep(s: Stay, c: Cursor, fee: nat) returns (d: Day, r: Pass)
    requires Fits(s.week, s.p) && OnDay(s, c) && WholeWeek(s.week, fee) && BlocksOver(s, c.pt) && InOrder(c, c)
    ensures d.block24 && d.fee24 == fee && d.dayMin == d.dayMax == 0.0 && Follows(s, d, c, r)
    ensures if r.Return? then r.out.Error? || (r.out == Fee(0.0) && !c.noGrace) else InOrder(r.c, c)
    ensures r.Bottom? ==> r.c.noGrace
  {
    hide Load, Walk, Onward, OnePass;
    WholeLoads(s.week, fee, c.pd);
    assert DayOk(s.week, s.p, c.pd);
    d := Load(s.week, c.pd).day;
    ZonePassInOrder(s, d, c);
    WalkUnfolds(s, c, d);
    r := OnePass(s, d, c);
  }

  /** Once no block is left, what remains costs no more than one block. */
  lemma {:induction false} RestOfDay(s: Stay, c: Cursor, fee: nat)
    requires Fits(s.week, s.p) && OnDay(s, c) && WholeWeek(s.week, fee)
    requires BlocksOver(s, c.pt) && InOrder(c, c) && (!c.noGrace ==> c.charges24 == 0)
    ensures Between(c.charges24, Walk(s, c), c.charges24 + fee)
    decreases s.ct - c.pt
  {
    hide Load, Walk, Onward, Fits;
    var d, r := RestStep(s, c, fee);
    if r.Bottom? && r.c.pt < s.ct {
      BlocksStayOver(s, c.pt, r.c.pt);
      RestOfDay(s, r.c, fee);
    }
  }

  lemma BlocksNotNegative(s: Stay, pt: int)
    requires pt <= s.ct
    ensures BlocksLeft(s, pt) >= 0
  {
    assert (pt - s.tz) / 60 <= (s.ct - s.tz) / 60;
  }

  lemma {:induction false} BlocksAllSkipped(s: Stay, pt: int, b: nat)
    ensures BlocksLeft(s, pt + b * MINUTES) == BlocksLeft(s, pt) - b
    decreases b
  {
    if b > 0 {
      OneBlockLess(s, pt);
      BlocksAllSkipped(s, pt + MINUTES, b - 1);
      assert pt + MINUTES + (b - 1) * MINUTES == pt + b * MINUTES;
    }
  }

  lemma WholeWalk(s: Stay, c: Cursor, fee: nat, b: nat)
    requires Fits(s.week, s.p) && OnDay(s, c) && WholeWeek(s.week, fee)
    requires Clear(c) && c.charges24 == 0 && BlocksLeft(s, c.pt) == b
    ensures Between(Repeat(b, fee), Walk(s, c), Repeat(b + 1, fee))
  {
    hide Load, Walk, Onward, Fits, WholeAt;
    if b == 0 {
      RestOfDay(s, c, fee);
    } else {
      BlocksFirst(s, c, fee, b);
      var c' := Skip(c, b, fee);
      if c'.pt < s.ct {
        BlocksAllSkipped(s, c.pt, b);
        RestOfDay(s, c', fee);
      }
    }
  }

  /** The number of whole 24-hour blocks of a stay, on the clock of UTC. */
  function StayBlocks(tz: int, entry: nat, pay: nat): (b: nat)
    requires entry / 60 <= pay / 60
  {
    var a, e := (entry / 60 - tz) / 60, (PayMinute(entry, pay) - tz) / 60;
    assert a <= e;
    (e - a) / 24
  }

  /** With B whole 24-hour blocks the charge lies between B and B + 1 times the whole-day charge. */
  lemma WholeDayBound(week: Week, p: Paras, tz: int, fee: nat, entry: nat, pay: nat, noGrace: bool)
    requires Fits(week, p) && WholeWeek(week, fee) && entry / 60 <= pay / 60
    ensures var b := StayBlocks(tz, entry, pay);
            Between(b * fee, RawFee(week, p, tz, entry, pay, noGrace), (b + 1) * fee)
  {
    hide Load, Walk, Onward, Fits;
    var s := Stay(week, p, entry / 60, PayMinute(entry, pay), tz);
    var b := StayBlocks(tz, entry, pay);
    WholeWalk(s, Start(entry, noGrace), fee, b);
    RepeatIsProduct(b, fee);
    RepeatIsProduct(b + 1, fee);
  }
}
