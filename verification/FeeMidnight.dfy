/** Tariffs that are cut off at midnight: the fee of a stay is the sum of the fees of its parts. */
module FeeMidnight {
  import opened FeeTariff
  import opened FeeMonotone
  import opened FeeMixed

  // ---- the tariffs ----

  /** A zone whose charge depends on nothing before it. */
  predicate PlainCharge(z: Zone, p: Paras) { z.allowance <= 0 && (z.free1 <= 0 || p.firstHour <= 0) }

  /** A day cut off at midnight and at the end of each zone. */
  predicate CutDay(t: DayTariff, p: Paras) {
    && t.dayCutoff == 1 && t.zoneCutoff == 1 && !IsWhole(t)
    && forall i | 0 <= i < |t.slots| :: 0 <= t.slots[i].start <= MINUTES && PlainCharge(t.slots[i].zone, p)
  }

  predicate CutAt(week: Week, p: Paras, n: int) { CutDay(week(n), p) }

  /** Every day is cut off, and no allowance of the site carries a stay past a cut. */
  ghost predicate CutWeek(week: Week, p: Paras) {
    p.peAllowance <= 0 && p.hr2PEAllowance <= 0 && forall n :: CutAt(week, p, n)
  }

  predicate CutTables(d: Day, pd: int, p: Paras) {
    && d.zoneCutoff == 1 && !d.block24
    && (forall k | 0 <= k < |d.times| :: d.times[k] <= (pd + 1) * MINUTES)
    && (forall k | 0 <= k < |d.zones| :: PlainCharge(d.zones[k], p))
  }

  lemma CutLoads(week: Week, p: Paras, n: int)
    requires CutWeek(week, p) && Load(week, n).Loaded?
    ensures CutTables(Load(week, n).day, n, p)
  {
    assert CutAt(week, p, n - 1) && CutAt(week, p, n) && CutAt(week, p, n + 1);
    var d, b, m := Load(week, n).day, MaxZone(week(n - 1).slots), MaxZone(week(n).slots);
    var before, today := week(n - 1).slots[b-1], week(n).slots;
    forall k | 0 <= k < |d.times| ensures d.times[k] <= (n + 1) * MINUTES {
      assert k == 0 ==> d.times[k] == (n - 1) * MINUTES + before.start;
      assert 0 < k <= m ==> d.times[k] == n * MINUTES + today[k-1].start;
    }
    forall k | 0 <= k < |d.zones| ensures PlainCharge(d.zones[k], p) {
      assert d.zones[k] == if k == 0 then before.zone else today[k-1].zone;
    }
  }

  // ---- a cut zone ends where it should ----

  /** Stays that outlast a zone are charged alike by it. */
  lemma {:induction false} HourRunAlike(z: Zone, pt: int, zoneEnd: int, ct: int, ct': int, charged: bool, charged': bool, fee: real)
    requires z.block > 0 && z.allowance <= 0 && zoneEnd <= ct && zoneEnd <= ct'
    ensures HourRun(z, pt, zoneEnd, ct, charged, fee) == HourRun(z, pt, zoneEnd, ct', charged', fee)
    ensures HourRun(z, pt, zoneEnd, ct, charged, fee).0 >= zoneEnd
    decreases if pt < zoneEnd then zoneEnd - pt else 0
  {
    if pt < zoneEnd { HourRunAlike(z, pt + z.block, zoneEnd, ct, ct', charged, charged', fee + z.rate); }
  }

  /** What is charged before does not matter to a stay, whether it outlasts the zone or not. */
  lemma {:induction false} HourRunUncharged(z: Zone, pt: int, zoneEnd: int, ct: int, charged: bool, charged': bool, fee: real)
    requires z.block > 0 && z.allowance <= 0
    ensures HourRun(z, pt, zoneEnd, ct, charged, fee) == HourRun(z, pt, zoneEnd, ct, charged', fee)
    decreases if pt < zoneEnd then zoneEnd - pt else 0
  {
    if pt < zoneEnd { HourRunUncharged(z, pt + z.block, zoneEnd, ct, charged, charged', fee + z.rate); }
  }

  predicate CutSite(p: Paras) { p.peAllowance <= 0 && p.hr2PEAllowance <= 0 }

  /** A stay that lasts at least to the next midnight is charged by each zone up to its end. */
  lemma HourlyCut(s: Stay, ct': int, d: Day, z: Zone, zoneEnd: int, nextType: int, c: Cursor)
    requires z.block >= 0 && z.free1 >= 0 && z.free2 >= 0 && z.free3 >= 0 && c.pt < zoneEnd <= s.ct && zoneEnd <= ct'
    requires d.zoneCutoff == 1 && PlainCharge(z, s.p) && CutSite(s.p)
    ensures var r := HourlyPass(s, d, z, zoneEnd, nextType, c);
            && r == HourlyPass(s.(ct := ct'), d, z, zoneEnd, nextType, c)
            && (r.Return? ==> r.out.Error?) && !r.Leave? && (r.Bottom? ==> r.c.pt == zoneEnd && r.c.noGrace == c.noGrace)
  {
    hide HourRun;
    if z.block > 0 { HourRunAlike(z, c.pt, zoneEnd, s.ct, ct', c.Charged(), c.Charged(), 0.0); }
  }

  lemma PassCut(s: Stay, ct': int, d: Day, c: Cursor)
    requires |d.zones| >= 2 && |d.times| == |d.types| == |d.zones| + 1
    requires OnDay(s, c) && DayFits(d, c.pd, s.p) && CutTables(d, c.pd, s.p) && CutSite(s.p) && c.noGrace
    requires (c.pd + 1) * MINUTES <= s.ct <= ct'
    ensures var r := OnePass(s, d, c);
            && r == OnePass(s.(ct := ct'), d, c) && (r.Return? ==> r.out.Error?) && !r.Leave?
            && (r.Bottom? ==> r.c.pt <= (c.pd + 1) * MINUTES && r.c.noGrace)
  {
    hide HourlyPass;
    var k := ZoneAt(d, c.pt);
    var z := d.zones[k];
    assert PlainCharge(z, s.p) && ZoneFits(z, d.times[k+1], c.pd, d.zoneCutoff, d.types[k+1], s.p);
    if z.rateType == 1 {
      HourlyCut(s, ct', d, z, d.times[k+1], d.types[k+1], c.(noGrace := true, curMin := z.zoneMin, curMax := z.zoneMax));
    }
  }

  // ---- what was charged before is only added ----

  /** The same cursor but for x charged before, and for what the next pass sets anew. */
  predicate Before(a: Cursor, b: Cursor, x: real) {
    a == b.(charge := b.charge + x, curMin := a.curMin, curMax := a.curMax, freed := a.freed, charges24 := a.charges24)
  }

  lemma SettleBefore(d: Day, a: Cursor, b: Cursor, x: real, fee: real)
    requires Before(a, b, x) && a.curMin == b.curMin && a.curMax == b.curMax
    ensures Before(Settle(d, a, fee), Settle(d, b, fee), x)
  {
  }

  predicate PassBefore(r: Pass, t: Pass, x: real) {
    match r
    case Return(o) => t == r && o.Error?
    case Leave(_) => false
    case Bottom(a) => t.Bottom? && a.noGrace && Before(a, t.c, x)
  }

  lemma HourlyBefore(s: Stay, e: int, d: Day, z: Zone, zoneEnd: int, nextType: int, a: Cursor, b: Cursor, x: real)
    requires z.block >= 0 && z.free1 >= 0 && z.free2 >= 0 && z.free3 >= 0 && a.pt < zoneEnd
    requires PlainCharge(z, s.p) && CutSite(s.p) && Before(a, b, x) && a.curMin == b.curMin && a.curMax == b.curMax && a.noGrace
    ensures PassBefore(HourlyPass(s, d, z, zoneEnd, nextType, a), HourlyPass(s.(entry := e), d, z, zoneEnd, nextType, b), x)
  {
    hide HourRun, Settle;
    if z.block > 0 {
      HourRunUncharged(z, a.pt, zoneEnd, s.ct, a.Charged(), b.Charged(), 0.0);
      var run := HourRun(z, a.pt, zoneEnd, s.ct, a.Charged(), 0.0);
      var pt := CutBack(s, d.zoneCutoff, nextType, zoneEnd, run.0);
      SettleBefore(d, a.(pt := pt), b.(pt := pt), x, run.1);
      SettleNoGrace(d, a.(pt := pt), run.1);
    }
  }

  lemma SettleNoGrace(d: Day, c: Cursor, fee: real)
    ensures Settle(d, c, fee).noGrace == c.noGrace
  {
  }

  lemma OnePassBefore(s: Stay, e: int, d: Day, a: Cursor, b: Cursor, x: real)
    requires |d.zones| >= 2 && |d.times| == |d.types| == |d.zones| + 1
    requires OnDay(s, a) && DayFits(d, a.pd, s.p) && CutTables(d, a.pd, s.p) && CutSite(s.p)
    requires Before(a, b, x) && a.noGrace
    ensures PassBefore(OnePass(s, d, a), OnePass(s.(entry := e), d, b), x)
  {
    hide HourlyPass, Settle;
    var k := ZoneAt(d, a.pt);
    var z, zoneEnd := d.zones[k], d.times[k+1];
    assert PlainCharge(z, s.p) && ZoneFits(z, zoneEnd, a.pd, d.zoneCutoff, d.types[k+1], s.p);
    var a1 := a.(noGrace := true, curMin := z.zoneMin, curMax := z.zoneMax);
    var b1 := b.(noGrace := true, curMin := z.zoneMin, curMax := z.zoneMax);
    if z.rateType == 1 {
      HourlyBefore(s, e, d, z, zoneEnd, d.types[k+1], a1, b1, x);
    } else if z.rateType == 2 {
      SettleBefore(d, a1.(pt := zoneEnd), b1.(pt := zoneEnd), x, z.rate);
      SettleNoGrace(d, a1.(pt := zoneEnd), z.rate);
    }
  }

  lemma FinishBefore(d: Day, a: Cursor, b: Cursor, x: real)
    requires Before(a, b, x) && !d.block24
    ensures Finish(d, a) == Finish(d, b) + x
  {
  }

  lemma {:induction false} WalkBefore(s: Stay, e: int, a: Cursor, b: Cursor, x: real)
    requires Fits(s.week, s.p) && OnDay(s, a) && CutWeek(s.week, s.p) && Before(a, b, x) && a.noGrace
    ensures Walk(s, a) == Plus(Walk(s.(entry := e), b), x)
    decreases s.ct - a.pt
  {
    hide Load, Walk, Onward, Fits, OnePass, Finish, Settle;
    var t := s.(entry := e);
    WalkLoads(s, a);
    WalkLoads(t, b);
    var l := Load(s.week, a.pd);
    if l.Loaded? {
      CutLoads(s.week, s.p, a.pd);
      DayIsOk(s, a.pd);
      OnePassBefore(s, e, l.day, a, b, x);
      WalkUnfolds(s, a, l.day);
      WalkUnfolds(t, b, l.day);
      var r, q := OnePass(s, l.day, a), OnePass(t, l.day, b);
      if r.Bottom? {
        FinishBefore(l.day, r.c, q.c, x);
        if r.c.pt < s.ct { WalkBefore(s, e, r.c, q.c, x); }
      }
    }
  }

  // ---- the sum ----

  /** The first error, or the sum of two fees. */
  function Summed(o: Outcome, q: Outcome): Outcome {
    if o.Error? then o else Plus(q, o.amount)
  }

  lemma NextMidnight(pt: int, m: int)
    requires pt < m * MINUTES
    ensures (pt / MINUTES + 1) * MINUTES <= m * MINUTES
  {
  }

  lemma DayIsOver(d: Day, c: Cursor, m: nat)
    requires c.pt == m * MINUTES && c.pd == m && c.noGrace && !d.block24 && c.dayFee == 0.0
    ensures Finish(d, c) == c.charge && Before(c, Start(m * 86400, true), c.charge)
  {
    assert m * 86400 / 60 == m * MINUTES;
  }

  lemma {:induction false} WalkSplits(s: Stay, ct': int, c: Cursor, m: nat)
    requires Fits(s.week, s.p) && OnDay(s, c) && CutWeek(s.week, s.p) && c.noGrace
    requires c.pt < s.ct == m * MINUTES < ct'
    ensures Walk(s.(ct := ct'), c)
         == Summed(Walk(s, c), Walk(Stay(s.week, s.p, s.ct, ct', s.tz), Start(m * 86400, true)))
    decreases s.ct - c.pt
  {
    hide Load, Walk, Onward, Fits, OnePass, Finish, Settle;
    var t := s.(ct := ct');
    WalkLoads(s, c);
    WalkLoads(t, c);
    var l := Load(s.week, c.pd);
    assert m * 86400 / 60 == m * MINUTES;
    if l.Loaded? {
      CutLoads(s.week, s.p, c.pd);
      DayIsOk(s, c.pd);
      NextMidnight(c.pt, m);
      PassCut(s, ct', l.day, c);
      WalkUnfolds(s, c, l.day);
      WalkUnfolds(t, c, l.day);
      var r := OnePass(s, l.day, c);
      if r.Bottom? {
        if r.c.pt < s.ct {
          WalkSplits(s, ct', r.c, m);
        } else {
          DayIsOver(l.day, r.c, m);
          WalkBefore(t, s.ct, r.c, Start(m * 86400, true), r.c.charge);
        }
      }
    }
  }

  /** Under a tariff cut off at midnight a stay costs as much as its two parts before and after any midnight
      in it, whatever zones, caps and minima the days have, in seconds that round to the same minute. */
  lemma MidnightSplits(week: Week, p: Paras, tz: int, entry: nat, m: nat, pay: nat)
    requires Fits(week, p) && CutWeek(week, p)
    requires entry < m * 86400 < pay && m * MINUTES < PayMinute(entry, pay) == PayMinute(m * 86400, pay)
    ensures RawFee(week, p, tz, entry, pay, true)
         == Summed(RawFee(week, p, tz, entry, m * 86400, true), RawFee(week, p, tz, m * 86400, pay, true))
  {
    hide Load, Walk, Onward, Fits;
    assert m * 86400 / 60 == m * MINUTES && m * 86400 % 60 == 0;
    WalkSplits(Stay(week, p, entry / 60, m * MINUTES, tz), PayMinute(entry, pay), Start(entry, true), m);
  }
}
