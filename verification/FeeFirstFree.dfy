/** When a first-free period makes a longer stay cheaper. */
module FeeFirstFree {
  import opened FeeTariff
  import opened FeeMonotone
  import FeeLater
  import FeeLimits

  // ---- period by period ----

  function Length(z: Zone, i: nat): int { if i == 1 then z.free1 else if i == 2 then z.free2 else z.free3 }

  function Addition(z: Zone, i: nat): real { if i == 1 then z.add1 else if i == 2 then z.add2 else z.add3 }

  /** The periods from the i-th on, one after the other: each adds its addition and runs its length, or to the
      end of the zone where there is a cut-off.  They are over with the stay, after the last one in use,
      and where a zone ends with a cut-off or before a per-entry zone. */
  function Grant(z: Zone, p: Paras, cutoff: int, zoneEnd: int, nextType: int, pt: int, ct: int, fee: real, i: nat): (int, real, bool)
    requires 1 <= i <= 3
    decreases 3 - i
  {
    var ends := zoneEnd - pt <= Length(z, i);
    var q := if ends && cutoff == 1 then zoneEnd else pt + Length(z, i);
    var f := fee + Addition(z, i);
    if ct <= q then (q, f, true)
    else if i == 3 || p.firstHour <= i || (ends && (cutoff != 0 || nextType == 2)) then (q, f, false)
    else Grant(z, p, cutoff, zoneEnd, nextType, q, ct, f, i + 1)
  }

  predicate Granted(z: Zone, p: Paras, cutoff: int, zoneEnd: int, nextType: int, pt: int, ct: int, freed: bool)
    requires z.free1 > 0 && z.free2 >= 0 && z.free3 >= 0 && pt < zoneEnd
  {
    var f := FirstFree(z, p, cutoff, zoneEnd, nextType, pt, ct, freed);
    (f.pt, f.fee, f.done) == Grant(z, p, cutoff, zoneEnd, nextType, pt, ct, 0.0, 1)
  }

  lemma EndsInFirst(z: Zone, p: Paras, cutoff: int, zoneEnd: int, nextType: int, pt: int, ct: int, freed: bool)
    requires z.free1 > 0 && z.free2 >= 0 && z.free3 >= 0 && p.firstHour > 0 && pt < zoneEnd
    requires zoneEnd - pt <= z.free1
    ensures Granted(z, p, cutoff, zoneEnd, nextType, pt, ct, freed)
  {
    if p.firstHour <= 1 || cutoff != 0 { } else if p.firstHour <= 2 { }
  }

  lemma EndsInSecond(z: Zone, p: Paras, cutoff: int, zoneEnd: int, nextType: int, pt: int, ct: int, freed: bool)
    requires z.free1 > 0 && z.free2 >= 0 && z.free3 >= 0 && p.firstHour > 0 && pt < zoneEnd
    requires z.free1 < zoneEnd - pt <= z.free1 + z.free2
    ensures Granted(z, p, cutoff, zoneEnd, nextType, pt, ct, freed)
  {
    if p.firstHour <= 1 { } else if p.firstHour <= 2 || cutoff != 0 { }
  }

  lemma EndsLater(z: Zone, p: Paras, cutoff: int, zoneEnd: int, nextType: int, pt: int, ct: int, freed: bool)
    requires z.free1 > 0 && z.free2 >= 0 && z.free3 >= 0 && p.firstHour > 0 && pt < zoneEnd
    requires z.free1 + z.free2 < zoneEnd - pt
    ensures Granted(z, p, cutoff, zoneEnd, nextType, pt, ct, freed)
  {
    if p.firstHour <= 1 { } else if p.firstHour <= 2 { }
  }

  /** The engine's nested branches grant the periods one by one. */
  lemma PeriodByPeriod(z: Zone, p: Paras, cutoff: int, zoneEnd: int, nextType: int, pt: int, ct: int, freed: bool)
    requires z.free1 > 0 && z.free2 >= 0 && z.free3 >= 0 && p.firstHour > 0 && pt < zoneEnd
    ensures Granted(z, p, cutoff, zoneEnd, nextType, pt, ct, freed)
  {
    hide Granted;
    if zoneEnd - pt <= z.free1 {
      EndsInFirst(z, p, cutoff, zoneEnd, nextType, pt, ct, freed);
    } else if zoneEnd - pt <= z.free1 + z.free2 {
      EndsInSecond(z, p, cutoff, zoneEnd, nextType, pt, ct, freed);
    } else {
      EndsLater(z, p, cutoff, zoneEnd, nextType, pt, ct, freed);
    }
  }

  // ---- when a longer stay is cheaper ----

  /** The length of the first-free periods the site uses. */
  function PeriodsLength(z: Zone, p: Paras): int {
    z.free1 + (if p.firstHour >= 2 then z.free2 else 0) + (if p.firstHour >= 3 then z.free3 else 0)
  }

  /** The additions of the periods begun in m minutes. */
  function PeriodSum(z: Zone, p: Paras, m: int): real {
    if m <= z.free1 || p.firstHour <= 1 then z.add1
    else if m <= z.free1 + z.free2 || p.firstHour <= 2 then z.add1 + z.add2
    else z.add1 + z.add2 + z.add3
  }

  /** A zone fee within the limits of its day. */
  function Limited(d: Day, fee: real): real { if fee > 0.0 then DayTotal(d, fee) else 0.0 }

  /** Periods that end inside the zone: the stay ends in them exactly when it is no longer than they are. */
  lemma PeriodsInside(z: Zone, p: Paras, cutoff: int, zoneEnd: int, nextType: int, pt: int, ct: int)
    requires z.free1 > 0 && z.free2 >= 0 && z.free3 >= 0 && p.firstHour > 0 && pt + PeriodsLength(z, p) < zoneEnd
    ensures var f := FirstFree(z, p, cutoff, zoneEnd, nextType, pt, ct, false);
            && f.done == (ct - pt <= PeriodsLength(z, p))
            && f.fee == PeriodSum(z, p, ct - pt)
            && (!f.done ==> f.pt == pt + PeriodsLength(z, p))
  {
  }

  /** An hourly zone with first-free periods, in force when a stay begins on an ordinary day. */
  predicate FreeZone(d: Day, k: nat, pt: int, p: Paras)
    requires |d.times| == |d.zones| + 1
  {
    && !d.block24 && k < |d.zones| && pt < d.times[k+1]
    && var z := d.zones[k];
       && z.rateType == 1 && z.block > 0 && z.rate >= 0.0
       && z.free1 > 0 && z.free2 >= 0 && z.free3 >= 0 && p.firstHour > 0 && AddsNotNegative(z, p)
       && pt + PeriodsLength(z, p) < d.times[k+1]
  }

  /** The cursor at which the zone is charged. */
  function InZone(c: Cursor, z: Zone): Cursor { c.(noGrace := true, curMin := z.zoneMin, curMax := z.zoneMax) }

  predicate Uncharged(c: Cursor) { c.dayFee == c.charge == 0.0 && !c.freed && c.charges24 == 0 }

  /** The shorter stay ends in its periods, at the sum of their additions. */
  lemma EndsInPeriods(s: Stay, d: Day, k: nat, c: Cursor)
    requires |d.times| == |d.types| == |d.zones| + 1 && FreeZone(d, k, c.pt, s.p) && Uncharged(c)
    requires s.ct - c.pt <= PeriodsLength(d.zones[k], s.p)
    ensures var z := d.zones[k];
            var r := HourlyPass(s, d, z, d.times[k+1], d.types[k+1], InZone(c, z));
            r.Leave? && Finish(d, r.c) == Limited(d, PeriodSum(z, s.p, s.ct - c.pt))
  {
    hide FirstFree, HourRun;
    PeriodsInside(d.zones[k], s.p, d.zoneCutoff, d.times[k+1], d.types[k+1], c.pt, s.ct);
  }

  /** The longer stay is charged blocks on top of all the additions, up to the zone's maximum. */
  lemma EndsAfterPeriods(s: Stay, d: Day, k: nat, c: Cursor, short: real)
    requires |d.times| == |d.types| == |d.zones| + 1 && FreeZone(d, k, c.pt, s.p) && Uncharged(c)
    requires PeriodsLength(d.zones[k], s.p) < s.ct - c.pt && s.ct <= d.times[k+1]
    requires 0.0 <= short <= AddTotal(d.zones[k], s.p)
    ensures var z := d.zones[k];
            var r := HourlyPass(s, d, z, d.times[k+1], d.types[k+1], InZone(c, z));
            && r.Bottom? && s.ct <= r.c.pt
            && (z.zoneMax <= 0.0 || short <= z.zoneMax ==> Limited(d, short) <= Finish(d, r.c))
            && (z.zoneMax > 0.0 && short > z.zoneMax ==> Finish(d, r.c) == Limited(d, z.zoneMax))
  {
    hide FirstFree, HourRun, CutBack;
    var z, zoneEnd, nt := d.zones[k], d.times[k+1], d.types[k+1];
    PeriodsInside(z, s.p, d.zoneCutoff, zoneEnd, nt, c.pt, s.ct);
    var f := FirstFree(z, s.p, d.zoneCutoff, zoneEnd, nt, c.pt, s.ct, false);
    var run := HourRun(z, f.pt, zoneEnd, s.ct, false, f.fee);
    HourRunGrows(z, f.pt, zoneEnd, s.ct, false, f.fee);
    CutBackStays(s, d.zoneCutoff, nt, zoneEnd, run.0);
    var e := InZone(c, z).(pt := CutBack(s, d.zoneCutoff, nt, zoneEnd, run.0), freed := f.freed);
    SettledTotal(d, e, run.1);
    if z.zoneMax <= 0.0 || short <= z.zoneMax {
      FreeWithinMaximum(d, e.(dayFee := 0.0), e, short, run.1);
    } else {
      CappedAtOnce(z, f.pt, zoneEnd, s.ct, f.fee);
    }
  }

  lemma CutBackStays(s: Stay, cutoff: int, nextType: int, zoneEnd: int, pt: int)
    requires pt >= zoneEnd || s.ct <= pt
    requires s.ct <= zoneEnd
    ensures s.ct <= CutBack(s, cutoff, nextType, zoneEnd, pt)
  {
  }

  /** A zone fee past the maximum stops at the first block. */
  lemma CappedAtOnce(z: Zone, pt: int, zoneEnd: int, ct: int, fee: real)
    requires z.block > 0 && z.rate >= 0.0 && z.zoneMax > 0.0 && fee > z.zoneMax && pt < zoneEnd
    ensures var run := HourRun(z, pt, zoneEnd, ct, false, fee); run.0 == zoneEnd && run.1 > z.zoneMax
  {
  }

  /** The zone in which a stay begins. */
  ghost predicate Begins(week: Week, p: Paras, entry: nat, d: Day, k: nat) {
    && Load(week, entry / 60 / MINUTES) == Loaded(d)
    && |d.zones| >= 2 && |d.times| == |d.types| == |d.zones| + 1
    && entry / 60 < d.times[|d.times|-1] && k == ZoneAt(d, entry / 60)
    && FreeZone(d, k, entry / 60, p)
  }

  predicate BeyondGrace(z: Zone, m: int, noGrace: bool) { noGrace || z.grace <= 0 || z.grace < m }

  /** The first pass of such a stay is charged by its zone. */
  lemma FirstPass(s: Stay, entry: nat, noGrace: bool, d: Day, k: nat)
    requires Fits(s.week, s.p) && Begins(s.week, s.p, entry, d, k) && entry / 60 <= s.ct
    requires BeyondGrace(d.zones[k], s.ct - entry / 60, noGrace)
    ensures OnDay(s, Start(entry, noGrace))
    ensures Follows(s, d, Start(entry, noGrace),
                    HourlyPass(s, d, d.zones[k], d.times[k+1], d.types[k+1], InZone(Start(entry, noGrace), d.zones[k])))
  {
    hide Load, Walk, Onward, HourlyPass;
    assert DayOk(s.week, s.p, entry / 60 / MINUTES);
    WalkUnfolds(s, Start(entry, noGrace), d);
    assert ZoneFits(d.zones[k], d.times[k+1], entry / 60 / MINUTES, d.zoneCutoff, d.types[k+1], s.p);
  }

  /** Two stays that begin in one zone, the shorter ending within its first-free periods and the longer
      after them, both before the zone ends: the longer costs no less exactly when the additions the
      shorter has paid, within the limits of the day, come to no more than the zone's maximum does. */
  lemma FirstFreeFallsExactly(week: Week, p: Paras, tz: int, entry: nat, pay: nat, pay': nat, noGrace: bool, d: Day, k: nat)
    requires Fits(week, p) && Begins(week, p, entry, d, k) && entry <= pay <= pay'
    requires PayMinute(entry, pay) - entry / 60 <= PeriodsLength(d.zones[k], p) < PayMinute(entry, pay') - entry / 60
    requires PayMinute(entry, pay') <= d.times[k+1]
    requires BeyondGrace(d.zones[k], PayMinute(entry, pay) - entry / 60, noGrace)
    ensures var z := d.zones[k];
            var sum := PeriodSum(z, p, PayMinute(entry, pay) - entry / 60);
            var short, long := RawFee(week, p, tz, entry, pay, noGrace), RawFee(week, p, tz, entry, pay', noGrace);
            && short == Fee(Limited(d, sum)) && long.Fee?
            && (short.amount <= long.amount <==> z.zoneMax <= 0.0 || Limited(d, sum) <= Limited(d, z.zoneMax))
            && (d.dayMin <= 0.0 && d.dayMax <= 0.0 ==>
                  (short.amount <= long.amount <==> z.zoneMax <= 0.0 || sum <= z.zoneMax))
  {
    hide Load, Walk, Onward, Fits, OnePass, HourlyPass, Finish;
    var z := d.zones[k];
    var s := Stay(week, p, entry / 60, PayMinute(entry, pay), tz);
    var t := s.(ct := PayMinute(entry, pay'));
    var c := Start(entry, noGrace);
    var sum := PeriodSum(z, p, s.ct - c.pt);
    FirstPass(s, entry, noGrace, d, k);
    FirstPass(t, entry, noGrace, d, k);
    EndsInPeriods(s, d, k, c);
    EndsAfterPeriods(t, d, k, c, sum);
    LimitedMono(d, sum, z.zoneMax);
  }

  lemma LimitedMono(d: Day, x: real, y: real)
    requires x >= 0.0
    ensures x <= y ==> Limited(d, x) <= Limited(d, y)
    ensures d.dayMin <= 0.0 && d.dayMax <= 0.0 && y >= 0.0 ==> Limited(d, x) == x && Limited(d, y) == y
  {
    if x <= y { DayTotalMono(d, x, y); }
  }

  // ---- the same for a tariff ----

  /** One zone round the clock, the same every day, with first-free periods shorter than a day. */
  ghost predicate OneFreeZone(week: Week, p: Paras, z: Zone) {
    && (forall n :: AllDayAt(week, z, n)) && Fits(week, p)
    && z.rateType == 1 && z.block > 0 && z.rate >= 0.0 && InStep(z, 0, 1, p)
    && p.firstHour > 0 && z.free1 > 0 && AddsNotNegative(z, p) && PeriodsLength(z, p) < MINUTES
    && (p.firstHour >= 2 ==> z.free2 > 0) && (p.firstHour >= 3 ==> z.free3 > 0) && z.free2 >= 0 && z.free3 >= 0
  }

  predicate AllDayAt(week: Week, z: Zone, n: int) { week(n) == FeeLimits.AllDay(z, 0.0) }

  /** Whatever the entry, no later payment costs less than an earlier one. */
  ghost predicate NeverFalls(week: Week, p: Paras, tz: int)
    requires Fits(week, p)
  {
    forall entry: nat, pay: nat, pay': nat, noGrace: bool | entry <= pay <= pay' :: NoLess(week, p, tz, entry, pay, pay', noGrace)
  }

  predicate NoLess(week: Week, p: Paras, tz: int, entry: nat, pay: nat, pay': nat, noGrace: bool)
    requires Fits(week, p)
  {
    var a, b := RawFee(week, p, tz, entry, pay, noGrace), RawFee(week, p, tz, entry, pay', noGrace);
    b.Fee? ==> a.Fee? && a.amount <= b.amount
  }

  lemma OneZoneLoads(week: Week, p: Paras, z: Zone, n: int)
    requires OneFreeZone(week, p, z)
    ensures Load(week, n).Loaded? && FeeLimits.AllDayTables(Load(week, n).day, n, z, 0.0)
  {
    assert AllDayAt(week, z, n - 1) && AllDayAt(week, z, n) && AllDayAt(week, z, n + 1);
    FeeLimits.AllDayLoads(week, n, z, 0.0, 0.0, 0.0);
  }

  lemma OneZoneIsPlain(week: Week, p: Paras, z: Zone)
    requires OneFreeZone(week, p, z) && FreeFits(z, p)
    ensures PlainWeek(week, p, false, 0) && NeverRunsOn(week, p)
  {
    hide Load, Fits;
    forall n ensures PlainAt(week, p, false, 0, n) { OneZoneLoads(week, p, z, n); }
    forall n ensures StopsAt(week, p, n) { OneZoneLoads(week, p, z, n); }
  }

  lemma AlwaysMono(week: Week, p: Paras, tz: int, z: Zone)
    requires OneFreeZone(week, p, z) && FreeFits(z, p)
    ensures NeverFalls(week, p, tz)
  {
    hide Load, Walk, Onward, Fits;
    OneZoneIsPlain(week, p, z);
    forall entry: nat, pay: nat, pay': nat, noGrace: bool | entry <= pay <= pay'
      ensures NoLess(week, p, tz, entry, pay, pay', noGrace)
    {
      FeeLater.PayMinuteMono(entry, pay, pay');
      FeeLater.RawFeeMono(Stay(week, p, entry / 60, PayMinute(entry, pay), tz), PayMinute(entry, pay'), entry, noGrace);
    }
  }

  /** From midnight, one minute more than all the periods. */
  lemma FallsAtOnce(week: Week, p: Paras, tz: int, z: Zone)
    requires OneFreeZone(week, p, z) && !FreeFits(z, p)
    ensures !NeverFalls(week, p, tz)
  {
    hide Load, Walk, Onward, Fits, RawFee, Limited;
    OneZoneLoads(week, p, z, 0);
    var d := Load(week, 0).day;
    var m := PeriodsLength(z, p);
    assert ZoneAt(d, 0) == 1;
    FirstFreeFallsExactly(week, p, tz, 0, 60 * m, 60 * m + 60, true, d, 1);
    assert !NoLess(week, p, tz, 0, 60 * m, 60 * m + 60, true);
  }

  /** Such a tariff never charges a later payment less exactly when the additions of all the periods the
      site uses fit under the zone's maximum. */
  lemma NeverFallsExactly(week: Week, p: Paras, tz: int, z: Zone)
    requires OneFreeZone(week, p, z)
    ensures NeverFalls(week, p, tz) <==> FreeFits(z, p)
  {
    if FreeFits(z, p) {
      AlwaysMono(week, p, tz, z);
    } else {
      FallsAtOnce(week, p, tz, z);
    }
  }
}
