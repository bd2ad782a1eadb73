/** What every fee calculation satisfies, for every tariff of the stated shape and every stay. */
module FeeTheorems {
  import opened FeeTariff

  // ---- n equal amounts ----

  function Times(n: nat, x: real): (r: real)
    ensures x >= 0.0 ==> r >= 0.0
    ensures x >= 0.0 && n > 0 ==> r >= x
  {
    if n == 0 then 0.0 else x + Times(n - 1, x)
  }

  lemma {:induction false} TimesIsProduct(n: nat, x: real)
    ensures Times(n, x) == n as real * x
  {
    if n > 0 {
      TimesIsProduct(n - 1, x);
      assert n as real == (n - 1) as real + 1.0;
    }
  }

  // ---- the daily cap ----

  ghost predicate DailyCap(week: Week, cap: real) {
    forall n :: CappedDay(week, cap, n)
  }

  predicate CappedDay(week: Week, cap: real, n: int) {
    0.0 < week(n).dayMax <= cap && week(n).dayMin != week(n).dayMax
  }

  /** A pass closes at most one day, for at most its cap. */
  lemma CapPass(s: Stay, d: Day, c: Cursor, cap: real)
    requires |d.zones| >= 2 && |d.times| == |d.types| == |d.zones| + 1
    requires OnDay(s, c) && DayFits(d, c.pd, s.p)
    requires 0.0 < d.dayMax <= cap && !d.block24
    ensures match OnePass(s, d, c)
            case Return(o) => o.Error? || (o == Fee(0.0) && !c.noGrace)
            case Leave(c') => c'.charge == c.charge
            case Bottom(c') => if c'.pd == c.pd then c'.charge == c.charge
                               else c'.dayFee == 0.0 && c'.charge <= c.charge + cap
  {
  }

  lemma CapFinish(d: Day, c: Cursor, cap: real)
    requires 0.0 < d.dayMax <= cap && !d.block24
    ensures Finish(d, c) <= c.charge + (if c.dayFee == 0.0 then 0.0 else cap)
  {
  }

  lemma CapLoads(s: Stay, c: Cursor, cap: real, d: Day)
    requires Fits(s.week, s.p) && DailyCap(s.week, cap) && Load(s.week, c.pd) == Loaded(d)
    ensures DayFits(d, c.pd, s.p) && 0.0 < d.dayMax <= cap && !d.block24
  {
    assert DayOk(s.week, s.p, c.pd) && CappedDay(s.week, cap, c.pd);
  }

  predicate AtMost(o: Outcome, high: real) { o.Fee? ==> o.amount <= high }

  /** One pass of a capped tariff: the calculation ends within one more day's cap, or goes on from a
      later cursor that has closed at most one day. */
  lemma CapStep(s: Stay, c: Cursor, cap: real) returns (next: Cursor)
    requires Fits(s.week, s.p) && OnDay(s, c) && DailyCap(s.week, cap) && cap > 0.0 && (!c.noGrace ==> c.charge >= 0.0)
    ensures || AtMost(Walk(s, c), c.charge + cap)
            || (&& c.pt < next.pt < s.ct && OnDay(s, next) && c.pd <= next.pd && Walk(s, c) == Walk(s, next)
                && next.noGrace && next.charge <= c.charge + if next.pd == c.pd then 0.0 else cap)
  {
    next := c;
    var load := Load(s.week, c.pd);
    if load.Loaded? {
      CapLoads(s, c, cap, load.day);
      CapPass(s, load.day, c, cap);
      WalkUnfolds(s, c, load.day);
      var r := OnePass(s, load.day, c);
      if !r.Return? {
        CapFinish(load.day, r.c, cap);
        next := r.c;
      }
    }
  }

  /** With n days left from its own day on, no calculation exceeds what is charged by more than n caps. */
  lemma {:induction false} CapWalk(s: Stay, c: Cursor, cap: real, n: nat)
    requires Fits(s.week, s.p) && OnDay(s, c) && DailyCap(s.week, cap) && cap > 0.0
    requires n > 0 && DaysLeft(s, c.pd) <= n
    requires !c.noGrace ==> c.charge >= 0.0
    ensures AtMost(Walk(s, c), c.charge + Times(n, cap))
    decreases s.ct - c.pt
  {
    hide Load, Walk, Onward, Fits, DailyCap;

    var next := CapStep(s, c, cap);
    if !AtMost(Walk(s, c), c.charge + cap) {
      LastDayCounts(s, next.pt);
      if next.pd == c.pd {
        CapWalk(s, next, cap, n);
      } else {
        CapWalk(s, next, cap, n - 1);
      }
    }
  }

  /** The days from pd to the one in which the last charged minute lies. */
  function DaysLeft(s: Stay, pd: int): int { (s.ct - 1) / MINUTES - pd + 1 }

  lemma LastDayCounts(s: Stay, pt: int)
    requires pt < s.ct
    ensures DaysLeft(s, pt / MINUTES) > 0
  {
  }

  /** The number of calendar days a stay touches. */
  function DaysTouched(entry: nat, pay: nat): nat
    requires entry <= pay
  {
    pay / 60 / MINUTES - entry / 60 / MINUTES + 1
  }

  /** Each calendar day is charged at most once and at most its cap. */
  lemma DayCapBound(week: Week, p: Paras, tz: int, entry: nat, pay: nat, noGrace: bool, cap: real)
    requires Fits(week, p) && DailyCap(week, cap) && entry <= pay
    ensures var o := RawFee(week, p, tz, entry, pay, noGrace);
            AtMost(o, DaysTouched(entry, pay) as real * cap)
  {
    hide Load, Walk, Onward, Fits;
    TimesIsProduct(DaysTouched(entry, pay), cap);
    var s := Stay(week, p, entry / 60, PayMinute(entry, pay), tz);
    assert CappedDay(week, cap, 0);
    CapWalk(s, Start(entry, noGrace), cap, DaysTouched(entry, pay));
  }

  // ---- one hourly rate round the clock ----

  ghost predicate OneRate(week: Week, p: Paras, z: Zone) {
    OneZone(week, z) && (z.free1 <= 0 || p.firstHour <= 0)
  }

  /** The same zone all day and every day, without limits and allowance. */
  ghost predicate OneZone(week: Week, z: Zone) {
    && z.rateType == 1 && z.block > 0 && z.rate >= 0.0
    && z.zoneMin <= 0.0 && z.zoneMax <= 0.0 && z.allowance <= 0
    && forall n :: OneRateDay(week, z, n)
  }

  /** From this cursor on no first-free period applies: there are none, or they are over. */
  predicate FreeIsOver(z: Zone, p: Paras, c: Cursor) {
    || z.free1 <= 0 || p.firstHour <= 0 || c.freed
    || (p.firstHourMode != 0 && z.rate > 0.0 && c.charge >= 0.0 && c.Charged())
  }

  predicate OneRateDay(week: Week, z: Zone, n: int) {
    var t := week(n);
    && |t.slots| == 1 && t.slots[0].start == t.slots[0].end && t.slots[0].zone == z
    && t.dayMin <= 0.0 && t.dayMax <= 0.0 && t.zoneCutoff != 1
  }

  /** The blocks begun in m minutes: never none. */
  function Blocks(m: nat, b: nat): (n: nat)
    requires b > 0
    ensures n >= 1
    decreases m
  {
    if m <= b then 1 else 1 + Blocks(m - b, b)
  }

  lemma MultipleReaches(b: int, x: int)
    requires b > 0 && x > 0
    ensures b * x >= b
  {
  }

  /** A number is a multiple and a remainder in one way only. */
  lemma OneQuotient(b: int, q: int, r: int, k: int, m: int)
    requires b > 0 && 0 <= r < b && 0 <= m < b && b * q + r == b * k + m
    ensures q == k
  {
    assert b * (k - q) == b * k - b * q && b * (q - k) == b * q - b * k;
    if k > q { MultipleReaches(b, k - q); } else if q > k { MultipleReaches(b, q - k); }
  }

  lemma QuotientIs(n: int, b: int, q: int, r: int)
    requires b > 0 && n == b * q + r && 0 <= r < b
    ensures n / b == q
  {
    OneQuotient(b, q, r, n / b, n % b);
  }

  lemma QuotientStep(n: int, b: int)
    requires b > 0
    ensures (n + b) / b == n / b + 1
  {
    assert n + b == b * (n / b + 1) + n % b;
    QuotientIs(n + b, b, n / b + 1, n % b);
  }

  /** Blocks is the quotient rounded up, and one for no minute at all. */
  lemma {:induction false} BlocksIsCeiling(m: nat, b: nat)
    requires b > 0
    ensures Blocks(m, b) == if m == 0 then 1 else (m + b - 1) / b
    decreases m
  {
    if m > b {
      BlocksIsCeiling(m - b, b);
      QuotientStep(m - 1, b);
    } else if m > 0 {
      QuotientIs(m + b - 1, b, 1, m - 1);
    }
  }

  /** Leaving the zone early or late, the blocks charged and the blocks still due add up. */
  lemma {:induction false} HourRunBlocks(z: Zone, pt: int, zoneEnd: int, ct: int, charged: bool, fee: real)
    requires z.block > 0 && z.rate >= 0.0 && z.zoneMax <= 0.0 && z.allowance <= 0
    requires pt < zoneEnd && pt <= ct
    ensures HourRun(z, pt, zoneEnd, ct, charged, fee).1 >= fee
    ensures var r := HourRun(z, pt, zoneEnd, ct, charged, fee);
            if ct <= r.0 then r.1 == fee + Times(Blocks(ct - pt, z.block), z.rate)
            else r.1 + Times(Blocks(ct - r.0, z.block), z.rate)
                 == fee + Times(Blocks(ct - pt, z.block), z.rate)
    decreases zoneEnd - pt
  {
    var q := pt + z.block;
    assert Times(1, z.rate) == z.rate + Times(0, z.rate);
    if q < ct && q < zoneEnd {
      HourRunBlocks(z, q, zoneEnd, ct, charged, fee + z.rate);
    }
  }

  predicate OneRateTables(d: Day, z: Zone) {
    && |d.zones| == 2 && |d.times| == |d.types| == 3 && d.zones[0] == z && d.zones[1] == z
    && d.dayMin <= 0.0 && d.dayMax <= 0.0 && !d.block24 && d.zoneCutoff != 1
  }

  lemma OneRateLoads(week: Week, z: Zone, pd: int)
    requires OneZone(week, z)
    ensures var l := Load(week, pd); l.Loaded? && OneRateTables(l.day, z)
  {
    assert OneRateDay(week, z, pd - 1) && OneRateDay(week, z, pd) && OneRateDay(week, z, pd + 1);
    assert MaxZone(week(pd - 1).slots) == 1 && MaxZone(week(pd).slots) == 1;
  }

  /** What a charge still due at pt comes to. */
  function Due(z: Zone, pt: int, ct: int): real
    requires z.block > 0 && pt <= ct
  {
    Times(Blocks(ct - pt, z.block), z.rate)
  }

  lemma OneRateHourly(s: Stay, d: Day, c: Cursor, z: Zone, zoneEnd: int, nextType: int)
    requires z.block > 0 && z.rate >= 0.0 && z.zoneMax <= 0.0 && z.allowance <= 0 && c.curMin <= 0.0 && c.curMax <= 0.0
    requires z.free1 >= 0 && z.free2 >= 0 && z.free3 >= 0 && FreeIsOver(z, s.p, c)
    requires OneRateTables(d, z) && c.pt < zoneEnd && c.pt <= s.ct && c.dayFee >= 0.0
    ensures var r := HourlyPass(s, d, z, zoneEnd, nextType, c);
            r.Bottom? && r.c.dayFee >= 0.0 && r.c.noGrace == c.noGrace && FreeIsOver(z, s.p, r.c) &&
            c.charge + c.dayFee + Due(z, c.pt, s.ct) ==
              r.c.charge + r.c.dayFee + (if s.ct <= r.c.pt then 0.0 else Due(z, r.c.pt, s.ct))
  {
    hide FirstFree, HourRun;
    HourRunBlocks(z, c.pt, zoneEnd, s.ct, c.Charged(), 0.0);
  }

  lemma OneRatePass(s: Stay, d: Day, c: Cursor, z: Zone)
    requires z.rateType == 1 && z.block > 0 && z.rate >= 0.0 && z.zoneMin <= 0.0 && z.zoneMax <= 0.0 && z.allowance <= 0
    requires FreeIsOver(z, s.p, c)
    requires OneRateTables(d, z) && OnDay(s, c) && DayFits(d, c.pd, s.p) && c.dayFee >= 0.0
    ensures var graced := !c.noGrace && z.grace > 0 && s.ct - c.pt <= z.grace;
            match OnePass(s, d, c)
            case Return(o) => graced && o == Fee(0.0)
            case Leave(_) => false
            case Bottom(c') =>
              && !graced && c'.dayFee >= 0.0 && c'.noGrace && FreeIsOver(z, s.p, c')
              && c.charge + c.dayFee + Due(z, c.pt, s.ct) ==
                   c'.charge + c'.dayFee + (if s.ct <= c'.pt then 0.0 else Due(z, c'.pt, s.ct))
  {
    var k := ZoneAt(d, c.pt);
    assert d.zones[k] == z && ZoneFits(d.zones[k], d.times[k+1], c.pd, d.zoneCutoff, d.types[k+1], s.p);
    var c1 := c.(noGrace := true, curMin := z.zoneMin, curMax := z.zoneMax);
    OneRateHourly(s, d, c1, z, d.times[k+1], d.types[k+1]);
  }

  lemma OneRateStep(s: Stay, c: Cursor, z: Zone) returns (d: Day, r: Pass)
    requires OneZone(s.week, z) && FreeIsOver(z, s.p, c) && Fits(s.week, s.p) && OnDay(s, c) && c.dayFee >= 0.0
    ensures d.dayMin <= 0.0 && d.dayMax <= 0.0 && !d.block24 && Follows(s, d, c, r)
    ensures var graced := !c.noGrace && z.grace > 0 && s.ct - c.pt <= z.grace;
            match r
            case Return(o) => graced && o == Fee(0.0)
            case Leave(_) => false
            case Bottom(c') =>
              && !graced && c'.dayFee >= 0.0 && c'.noGrace && FreeIsOver(z, s.p, c')
              && c.charge + c.dayFee + Due(z, c.pt, s.ct) ==
                   c'.charge + c'.dayFee + (if s.ct <= c'.pt then 0.0 else Due(z, c'.pt, s.ct))
  {
    OneRateLoads(s.week, z, c.pd);
    assert DayOk(s.week, s.p, c.pd);
    d := Load(s.week, c.pd).day;
    OneRatePass(s, d, c, z);
    WalkUnfolds(s, c, d);
    r := OnePass(s, d, c);
  }

  lemma {:induction false} OneRateWalk(s: Stay, c: Cursor, z: Zone)
    requires OneZone(s.week, z) && FreeIsOver(z, s.p, c) && Fits(s.week, s.p) && OnDay(s, c)
    requires c.dayFee >= 0.0
    ensures Walk(s, c) ==
            if !c.noGrace && z.grace > 0 && s.ct - c.pt <= z.grace then Fee(0.0)
            else Fee(c.charge + c.dayFee + Due(z, c.pt, s.ct))
    decreases s.ct - c.pt
  {
    var d, r := OneRateStep(s, c, z);
    if r.Bottom? && r.c.pt < s.ct { OneRateWalk(s, r.c, z); }
  }

  lemma OneRateStay(s: Stay, entry: nat, noGrace: bool, z: Zone, m: nat)
    requires OneRate(s.week, s.p, z) && Fits(s.week, s.p) && s.ct == entry / 60 + m
    ensures Walk(s, Start(entry, noGrace)) ==
            if !noGrace && z.grace > 0 && m <= z.grace then Fee(0.0)
            else Fee(Times(Blocks(m, z.block), z.rate))
  {
    OneRateWalk(s, Start(entry, noGrace), z);
  }

  /** The minutes charged are the stay rounded up to whole minutes. */
  lemma StayRoundsUp(entry: nat, pay: nat)
    requires entry <= pay
    ensures PayMinute(entry, pay) - entry / 60 == (pay - entry + 59) / 60
  {
    var a, r, b, q := entry / 60, entry % 60, pay / 60, pay % 60;
    assert pay - entry + 59 == 60 * (b - a) + (q - r + 59);
  }

  /** Over any number of days and midnights, one hourly rate charges every block begun in the stay
      rounded up to minutes, and at least one, unless the whole stay is within grace. */
  lemma OneRateClosedForm(week: Week, p: Paras, tz: int, z: Zone, entry: nat, pay: nat, noGrace: bool)
    requires OneRate(week, p, z) && Fits(week, p) && entry <= pay
    ensures var m := (pay - entry + 59) / 60;
            RawFee(week, p, tz, entry, pay, noGrace) ==
            if !noGrace && 0 < z.grace && m <= z.grace then Fee(0.0)
            else if m == 0 then Fee(z.rate)
            else Fee(((m + z.block - 1) / z.block) as real * z.rate)
  {
    hide Load, Walk, Onward, Fits, OneRate;
    StayRoundsUp(entry, pay);
    var m := (pay - entry + 59) / 60;
    OneRateStay(Stay(week, p, entry / 60, PayMinute(entry, pay), tz), entry, noGrace, z, m);
    BlockIsPositive(week, p, z);
    BlocksIsCeiling(m, z.block);
    TimesIsProduct(Blocks(m, z.block), z.rate);
  }

  lemma BlockIsPositive(week: Week, p: Paras, z: Zone)
    requires OneRate(week, p, z)
    ensures z.block > 0
  {
  }
}
