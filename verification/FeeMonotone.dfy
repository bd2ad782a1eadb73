/** Paying later never costs less. */
module FeeMonotone {
  import opened FeeTariff

  // ---- the tariffs ----

  /** The additions of all the first-free periods the site uses. */
  function AddTotal(z: Zone, p: Paras): real {
    z.add1 + (if p.firstHour >= 2 then z.add2 else 0.0) + (if p.firstHour >= 3 then z.add3 else 0.0)
  }

  predicate AddsNotNegative(z: Zone, p: Paras) {
    z.add1 >= 0.0 && (p.firstHour >= 2 ==> z.add2 >= 0.0) && (p.firstHour >= 3 ==> z.add3 >= 0.0)
  }

  /** First-free periods add no negative amount, and together no more than the zone may cost. */
  predicate FreeFits(z: Zone, p: Paras) {
    AddsNotNegative(z, p) && (z.zoneMax <= 0.0 || AddTotal(z, p) <= z.zoneMax)
  }

  /** A cut-off zone before a per-entry zone: a stay no longer than the site's allowance runs on past its end,
      and a longer one does not. */
  predicate RunsOn(z: Zone, cutoff: int, nextType: int, p: Paras) {
    z.rateType == 1 && p.hr2PEAllowance > 0 && cutoff == 1 && nextType == 2
  }

  /** In such a zone two stays pass the same points until the shorter one ends: an allowance comes
      with no maximum, or with a cut-off at the zone's end. */
  predicate InStep(z: Zone, cutoff: int, nextType: int, p: Paras) {
    z.allowance <= 0 || z.zoneMax <= 0.0 || (cutoff == 1 && !RunsOn(z, cutoff, nextType, p))
  }

  predicate PlainZone(z: Zone, cutoff: int, nextType: int, p: Paras) {
    && z.rate >= 0.0
    && (z.rateType == 1 ==>
          && (z.free1 <= 0 || p.firstHour <= 0 || FreeFits(z, p))
          && InStep(z, cutoff, nextType, p))
  }

  /** Plain zones, and either no 24-hour blocks, or blocks at one charge. */
  predicate PlainTables(d: Day, p: Paras, whole: bool, fee: int)
    requires |d.types| == |d.zones| + 1
  {
    && (forall k | 0 <= k < |d.zones| :: PlainZone(d.zones[k], d.zoneCutoff, d.types[k+1], p))
    && d.block24 == whole && (whole ==> d.fee24 == fee >= 0)
  }

  ghost predicate PlainWeek(week: Week, p: Paras, whole: bool, fee: int) {
    forall n :: PlainAt(week, p, whole, fee, n)
  }

  predicate PlainAt(week: Week, p: Paras, whole: bool, fee: int, n: int) {
    var l := Load(week, n);
    l.Loaded? ==> PlainTables(l.day, p, whole, fee)
  }

  /** Two payments on the same side of the site's allowance for running on. */
  predicate SameSide(s: Stay, ct': int) {
    s.ct - s.entry <= s.p.hr2PEAllowance <==> ct' - s.entry <= s.p.hr2PEAllowance
  }

  ghost predicate NeverRunsOn(week: Week, p: Paras) { forall n :: StopsAt(week, p, n) }

  predicate StopsAt(week: Week, p: Paras, n: int) {
    var l := Load(week, n);
    l.Loaded? ==> forall k | 0 <= k < |l.day.zones| :: !RunsOn(l.day.zones[k], l.day.zoneCutoff, l.day.types[k+1], p)
  }

  /** Both stays run on past the end of a zone, or neither does. */
  ghost predicate Alike(s: Stay, ct': int) { SameSide(s, ct') || NeverRunsOn(s.week, s.p) }

  predicate NonNegative(c: Cursor) {
    c.dayFee >= 0.0 && c.charge >= 0.0 &&
    (!c.noGrace ==> c.dayFee == c.charge == 0.0 && c.charges24 == 0)
  }

  /** No whole 24-hour block is left to charge from pt. */
  predicate BlocksOver(s: Stay, pt: int) { HourDiff(pt, s.ct, s.tz) / 24 <= 0 }

  // ---- totals ----

  /** What the zones come to at a cursor, the open day included. */
  function Total(d: Day, c: Cursor): real {
    if c.dayFee > 0.0 then c.charge + DayTotal(d, c.dayFee) else c.charge
  }

  lemma FinishFollowsTotal(d: Day, a: Cursor, b: Cursor)
    requires Total(d, a) <= Total(d, b) && a.charges24 == b.charges24
    ensures Finish(d, a) <= Finish(d, b)
  {
  }

  lemma DayTotalMono(d: Day, x: real, y: real)
    requires 0.0 <= x <= y
    ensures 0.0 <= DayTotal(d, x) <= DayTotal(d, y)
    ensures x > 0.0 ==> DayTotal(d, x) > 0.0
  {
  }

  /** A zone's fee within its minimum and maximum. */
  function ZoneTotal(low: real, high: real, fee: real): real { ClampHigh(high, ClampLow(low, fee)) }

  /** After the zone's maximum is applied, y is no less than x. */
  predicate NoDearer(high: real, x: real, y: real) { x <= y || (high > 0.0 && high <= y) }

  lemma ZoneTotalMono(low: real, high: real, x: real, y: real)
    requires 0.0 <= x && 0.0 <= y && NoDearer(high, x, y)
    ensures 0.0 <= ZoneTotal(low, high, x) <= ZoneTotal(low, high, y)
    ensures x > 0.0 ==> ZoneTotal(low, high, x) > 0.0
    ensures y > 0.0 ==> ZoneTotal(low, high, y) > 0.0
  {
  }

  // ---- two stays at one point ----

  /** At the same point of the same day, the second stay has been charged no less; they differ only
      once something has been charged. */
  predicate Level(a: Cursor, b: Cursor) {
    && a == b.(dayFee := a.dayFee, charge := a.charge)
    && a.dayFee <= b.dayFee && a.charge <= b.charge && (a == b || (a.Charged() && b.Charged()))
  }

  lemma LevelTotal(d: Day, a: Cursor, b: Cursor)
    requires Level(a, b) && NonNegative(a)
    ensures Total(d, a) <= Total(d, b)
  {
    DayTotalMono(d, a.dayFee, b.dayFee);
  }

  lemma SettleKeeps(d: Day, c: Cursor, fee: real)
    requires NonNegative(c) && fee >= 0.0 && c.noGrace
    ensures var r := Settle(d, c, fee);
            && NonNegative(r) && Total(d, c) <= Total(d, r) && r.charges24 == c.charges24 && r.noGrace && r.pt == c.pt
            && (c.Charged() || fee > 0.0 ==> r.Charged())
  {
    var x := c.dayFee + ZoneTotal(c.curMin, c.curMax, fee);
    ZoneTotalMono(c.curMin, c.curMax, fee, fee);
    DayTotalMono(d, c.dayFee, x);
  }

  lemma SettleLevel(d: Day, a: Cursor, b: Cursor, fee: real, fee': real)
    requires Level(a, b) && NonNegative(a) && a.noGrace
    requires 0.0 <= fee && 0.0 <= fee' && NoDearer(a.curMax, fee, fee')
    requires (a == b && fee == fee') || a.Charged() || (fee > 0.0 && fee' > 0.0)
    ensures Level(Settle(d, a, fee), Settle(d, b, fee'))
  {
    ZoneTotalMono(a.curMin, a.curMax, fee, fee');
    SettleKeeps(d, a, fee);
    SettleKeeps(d, b, fee');
    DayTotalMono(d, a.dayFee + ZoneTotal(a.curMin, a.curMax, fee), b.dayFee + ZoneTotal(b.curMin, b.curMax, fee'));
  }

  /** The second stay settles at a point no earlier. */
  lemma SettleAhead(d: Day, a: Cursor, b: Cursor, fee: real, fee': real)
    requires Level(a, b.(pt := a.pt)) && a.pt <= b.pt && NonNegative(a)
    requires 0.0 <= fee && 0.0 <= fee' && NoDearer(a.curMax, fee, fee')
    ensures Total(d, Settle(d, a, fee)) <= Total(d, Settle(d, b, fee'))
  {
    ZoneTotalMono(a.curMin, a.curMax, fee, fee');
    SameOrLaterDay(a.pt, b.pt);
    SettledTotal(d, a, fee);
    SettledTotal(d, b, fee');
    DayTotalMono(d, DayFeeAfter(a, fee), DayFeeAfter(b, fee'));
  }

  /** The day's fee with a zone's fee added. */
  function DayFeeAfter(c: Cursor, fee: real): real { c.dayFee + ZoneTotal(c.curMin, c.curMax, fee) }

  /** Whether the day is closed or left open, settling adds the day's fee within its limits. */
  lemma SettledTotal(d: Day, c: Cursor, fee: real)
    requires DayFeeAfter(c, fee) >= 0.0
    ensures Total(d, Settle(d, c, fee)) ==
            c.charge + if DayFeeAfter(c, fee) > 0.0 || c.pt / MINUTES > c.pd then DayTotal(d, DayFeeAfter(c, fee)) else 0.0
  {
  }

  lemma SameOrLaterDay(a: int, b: int)
    requires a <= b
    ensures a / MINUTES <= b / MINUTES
  {
  }

  // ---- one hourly zone, two stays ----

  lemma {:induction false} HourRunGrows(z: Zone, pt: int, zoneEnd: int, ct: int, charged: bool, fee: real)
    requires z.block > 0 && z.rate >= 0.0 && fee >= 0.0
    ensures var r := HourRun(z, pt, zoneEnd, ct, charged, fee);
            r.1 >= fee && (r.0 >= zoneEnd || ct <= r.0)
    decreases if pt < zoneEnd then zoneEnd - pt else 0
  {
    if pt < zoneEnd {
      HourRunGrows(z, pt + z.block, zoneEnd, ct, charged, fee);
      HourRunGrows(z, pt + z.block, zoneEnd, ct, charged, fee + z.rate);
    }
  }

  /** Where the runs of two stays through a zone leave them: at the same point, or the shorter has
      ended, or both are past the zone's end. */
  predicate RunsTogether(z: Zone, zoneEnd: int, ct: int, x: int, y: int) {
    x == y || (ct <= x <= y) || (z.allowance > 0 && z.zoneMax > 0.0 && zoneEnd <= x && zoneEnd <= y)
  }

  lemma {:induction false} HourRunLevel(z: Zone, pt: int, zoneEnd: int, ct: int, ct': int, charged: bool, f: real, g: real)
    requires z.block > 0 && z.rate >= 0.0 && ct <= ct' && 0.0 <= f <= g
    requires f == g || (z.allowance > 0 && (charged || f > 0.0))
    ensures var x, y := HourRun(z, pt, zoneEnd, ct, charged, f), HourRun(z, pt, zoneEnd, ct', charged, g);
            && f <= x.1 && g <= y.1 && NoDearer(z.zoneMax, x.1, y.1)
            && (ct <= x.0 < zoneEnd || x.1 == y.1 || charged || (x.1 > 0.0 && y.1 > 0.0))
            && RunsTogether(z, zoneEnd, ct, x.0, y.0)
    decreases if pt < zoneEnd then zoneEnd - pt else 0
  {
    if pt < zoneEnd {
      var q := pt + z.block;
      var f1, g1 := BlockFee(z, ct - pt, charged, f), BlockFee(z, ct' - pt, charged, g);
      if z.zoneMax > 0.0 && g1 >= z.zoneMax {
        HourRunGrows(z, q, zoneEnd, ct, charged, f1);
      } else if ct <= q {
        HourRunGrows(z, q, zoneEnd, ct', charged, g1);
      } else {
        HourRunLevel(z, q, zoneEnd, ct, ct', charged, f1, g1);
      }
    }
  }

  /** The first-free periods of two stays: the shorter ends in them no later and no dearer, or both
      go through them alike. */
  lemma FirstFreeLevel(z: Zone, p: Paras, cutoff: int, zoneEnd: int, nextType: int, pt: int, ct: int, ct': int, freed: bool)
    requires z.free1 > 0 && z.free2 >= 0 && z.free3 >= 0 && pt < zoneEnd && ct <= ct' && AddsNotNegative(z, p)
    ensures var f := FirstFree(z, p, cutoff, zoneEnd, nextType, pt, ct, freed);
            var g := FirstFree(z, p, cutoff, zoneEnd, nextType, pt, ct', freed);
            0.0 <= f.fee <= g.fee <= AddTotal(z, p) && f.pt <= g.pt && (f == g || f.done)
  {
    if zoneEnd - pt <= z.free1 {
      if p.firstHour <= 1 || cutoff != 0 { } else if p.firstHour <= 2 { }
    } else {
      if p.firstHour <= 1 { } else if p.firstHour <= 2 { }
    }
  }

  // ---- one pass, two stays ----

  lemma HourlyPassGrows(s: Stay, d: Day, z: Zone, zoneEnd: int, nextType: int, c: Cursor)
    requires HourlyZone(z, zoneEnd, c) && PlainZone(z, d.zoneCutoff, nextType, s.p) && NonNegative(c) && c.noGrace
    ensures var r := HourlyPass(s, d, z, zoneEnd, nextType, c); !r.Return? && Grows(d, c, r)
  {
    hide FirstFree, HourRun;
    var f := FreeStart(s, d, z, zoneEnd, nextType, c);
    if FreeApplies(z, s.p, c) {
      FirstFreeLevel(z, s.p, d.zoneCutoff, zoneEnd, nextType, c.pt, s.ct, s.ct, c.freed);
    }
    HourRunGrows(z, f.pt, zoneEnd, s.ct, c.Charged(), f.fee);
    var run := HourRun(z, f.pt, zoneEnd, s.ct, c.Charged(), f.fee);
    SettleKeeps(d, c.(pt := CutBack(s, d.zoneCutoff, nextType, zoneEnd, run.0), freed := f.freed), run.1);
    DayTotalMono(d, c.dayFee, c.dayFee + f.fee);
  }

  /** What an hourly pass asks of its zone and cursor. */
  predicate HourlyZone(z: Zone, zoneEnd: int, c: Cursor) {
    z.rateType == 1 && z.block > 0 && z.free1 >= 0 && z.free2 >= 0 && z.free3 >= 0 && c.pt < zoneEnd
  }

  /** Where the blocks of an hourly zone begin. */
  function FreeStart(s: Stay, d: Day, z: Zone, zoneEnd: int, nextType: int, c: Cursor): Free
    requires HourlyZone(z, zoneEnd, c)
  {
    if FreeApplies(z, s.p, c) then FirstFree(z, s.p, d.zoneCutoff, zoneEnd, nextType, c.pt, s.ct, c.freed)
    else Free(c.pt, 0.0, false, c.freed)
  }

  /** A pass that does not return keeps the cursor's amounts and takes nothing back. */
  predicate Grows(d: Day, c: Cursor, r: Pass) {
    !r.Return? ==> NonNegative(r.c) && Total(d, c) <= Total(d, r.c) && r.c.charges24 == c.charges24 && r.c.noGrace
  }

  /** How the passes of two stays compare: they leave the stays level, or the shorter one has ended. */
  predicate PassLevel(d: Day, ct: int, a: Pass, b: Pass) {
    && !a.Return? && !b.Return? && NonNegative(a.c)
    && ( || (a.Bottom? && b.Bottom? && Level(a.c, b.c))
         || ((a.Leave? || ct <= a.c.pt) && Total(d, a.c) <= Total(d, b.c) && a.c.charges24 == b.c.charges24))
  }

  lemma HourlyPassLevel(s: Stay, ct': int, d: Day, z: Zone, zoneEnd: int, nextType: int, a: Cursor, b: Cursor)
    requires HourlyZone(z, zoneEnd, a) && PlainZone(z, d.zoneCutoff, nextType, s.p) && s.ct <= ct'
    requires RunsOn(z, d.zoneCutoff, nextType, s.p) ==> SameSide(s, ct')
    requires Level(a, b) && NonNegative(a) && NonNegative(b) && a.noGrace && a.curMin == z.zoneMin && a.curMax == z.zoneMax
    ensures PassLevel(d, s.ct, HourlyPass(s, d, z, zoneEnd, nextType, a),
                      HourlyPass(s.(ct := ct'), d, z, zoneEnd, nextType, b))
  {
    hide FirstFree, HourRun;
    var t := s.(ct := ct');
    HourlyPassGrows(t, d, z, zoneEnd, nextType, b);
    LevelTotal(d, a, b);
    if !(z.allowance > 0 && a.Charged() && s.ct - a.pt <= z.allowance) {
      var f, g := FreeStart(s, d, z, zoneEnd, nextType, a), FreeStart(t, d, z, zoneEnd, nextType, b);
      if FreeApplies(z, s.p, a) {
        FirstFreeLevel(z, s.p, d.zoneCutoff, zoneEnd, nextType, a.pt, s.ct, ct', a.freed);
      }
      if f.done {
        EndsInFree(s, ct', d, z, zoneEnd, nextType, a, b);
      } else {
        BlocksLevel(s, ct', d, z, zoneEnd, nextType, a, b, f);
      }
    }
  }

  /** The shorter stay ends in a first-free period. */
  lemma EndsInFree(s: Stay, ct': int, d: Day, z: Zone, zoneEnd: int, nextType: int, a: Cursor, b: Cursor)
    requires HourlyZone(z, zoneEnd, a) && PlainZone(z, d.zoneCutoff, nextType, s.p) && s.ct <= ct'
    requires Level(a, b) && NonNegative(a) && NonNegative(b) && a.curMin == z.zoneMin && a.curMax == z.zoneMax
    requires FreeApplies(z, s.p, a) && FreeStart(s, d, z, zoneEnd, nextType, a).done
    requires !(z.allowance > 0 && b.Charged() && ct' - b.pt <= z.allowance)
    ensures var q := HourlyPass(s.(ct := ct'), d, z, zoneEnd, nextType, b);
            && !q.Return? && q.c.charges24 == b.charges24
            && Total(d, a.(dayFee := a.dayFee + FreeStart(s, d, z, zoneEnd, nextType, a).fee)) <= Total(d, q.c)
  {
    hide FirstFree, HourRun, CutBack, DayTotal;
    var t := s.(ct := ct');
    var f, g := FreeStart(s, d, z, zoneEnd, nextType, a), FreeStart(t, d, z, zoneEnd, nextType, b);
    FirstFreeLevel(z, s.p, d.zoneCutoff, zoneEnd, nextType, a.pt, s.ct, ct', a.freed);
    if g.done {
      DayTotalMono(d, a.dayFee + f.fee, b.dayFee + g.fee);
    } else {
      HourRunGrows(z, g.pt, zoneEnd, ct', b.Charged(), g.fee);
      var run := HourRun(z, g.pt, zoneEnd, ct', b.Charged(), g.fee);
      var c := b.(pt := CutBack(t, d.zoneCutoff, nextType, zoneEnd, run.0), freed := g.freed);
      FreeWithinMaximum(d, a, c, f.fee, run.1);
    }
  }

  /** Additions that the zone's maximum leaves whole are no dearer than the zone itself. */
  lemma FreeWithinMaximum(d: Day, a: Cursor, c: Cursor, free: real, fee: real)
    requires 0.0 <= a.dayFee <= c.dayFee && 0.0 <= a.charge <= c.charge && 0.0 <= free <= fee
    requires c.curMax <= 0.0 || free <= c.curMax
    ensures Total(d, a.(dayFee := a.dayFee + free)) <= Total(d, Settle(d, c, fee))
  {
    ZoneTotalMono(c.curMin, c.curMax, fee, fee);
    SettledTotal(d, c, fee);
    DayTotalMono(d, a.dayFee + free, DayFeeAfter(c, fee));
  }

  /** Both stays are charged blocks from the same point on. */
  lemma BlocksLevel(s: Stay, ct': int, d: Day, z: Zone, zoneEnd: int, nextType: int, a: Cursor, b: Cursor, f: Free)
    requires HourlyZone(z, zoneEnd, a) && PlainZone(z, d.zoneCutoff, nextType, s.p) && s.ct <= ct'
    requires RunsOn(z, d.zoneCutoff, nextType, s.p) ==> SameSide(s, ct')
    requires Level(a, b) && NonNegative(a) && NonNegative(b) && a.noGrace && a.curMin == z.zoneMin && a.curMax == z.zoneMax
    requires f.fee >= 0.0
    ensures var run := HourRun(z, f.pt, zoneEnd, s.ct, a.Charged(), f.fee);
            var run' := HourRun(z, f.pt, zoneEnd, ct', b.Charged(), f.fee);
            PassLevel(d, s.ct,
              Bottom(Settle(d, a.(pt := CutBack(s, d.zoneCutoff, nextType, zoneEnd, run.0), freed := f.freed), run.1)),
              Bottom(Settle(d, b.(pt := CutBack(s.(ct := ct'), d.zoneCutoff, nextType, zoneEnd, run'.0),
                                  freed := f.freed), run'.1)))
  {
    hide FirstFree, HourRun;
    HourRunLevel(z, f.pt, zoneEnd, s.ct, ct', a.Charged(), f.fee, f.fee);
    var run := HourRun(z, f.pt, zoneEnd, s.ct, a.Charged(), f.fee);
    var run' := HourRun(z, f.pt, zoneEnd, ct', b.Charged(), f.fee);
    var c := a.(pt := CutBack(s, d.zoneCutoff, nextType, zoneEnd, run.0), freed := f.freed);
    var c' := b.(pt := CutBack(s.(ct := ct'), d.zoneCutoff, nextType, zoneEnd, run'.0), freed := f.freed);
    SettleKeeps(d, c, run.1);
    SettleKeeps(d, c', run'.1);
    if s.ct <= c.pt { SettleAhead(d, c, c', run.1, run'.1); } else { SettleLevel(d, c, c', run.1, run'.1); }
  }

  lemma EntryPassLevel(s: Stay, ct': int, d: Day, z: Zone, zoneEnd: int, a: Cursor, b: Cursor)
    requires z.rate >= 0.0 && s.ct <= ct' && Level(a, b) && NonNegative(a) && NonNegative(b) && a.noGrace
    ensures PassLevel(d, s.ct, EntryPass(s, d, z, zoneEnd, a), EntryPass(s.(ct := ct'), d, z, zoneEnd, b))
    ensures Grows(d, b, EntryPass(s.(ct := ct'), d, z, zoneEnd, b))
  {
    var p := EntryEnd(s.p, zoneEnd, a.pt);
    var fee := if z.allowance > 0 && a.Charged() && s.ct - a.pt <= z.allowance then 0.0 else z.rate;
    var fee' := if z.allowance > 0 && b.Charged() && ct' - b.pt <= z.allowance then 0.0 else z.rate;
    SettleLevel(d, a.(pt := p), b.(pt := p), fee, fee');
    SettleKeeps(d, b.(pt := p), fee');
  }

  /** The passes of two stays from level cursors, when no 24-hour block is left: a malformed zone, the
      shorter stay within grace, or passes that compare. */
  predicate PassesCompare(d: Day, ct: int, b: Cursor, r: Pass, q: Pass) {
    || (q.Return? && q.out.Error?)
    || (r == Return(Fee(0.0)) && !b.noGrace && (q == r || !q.Return?))
    || PassLevel(d, ct, r, q)
  }

  lemma NoBlock(s: Stay, d: Day, z: Zone, zoneEnd: int, nextType: int, c: Cursor)
    requires z.block == 0 && z.free1 >= 0 && z.free2 >= 0 && z.free3 >= 0 && c.pt < zoneEnd
    ensures HourlyPass(s, d, z, zoneEnd, nextType, c) == Return(Error(-3))
  {
  }

  lemma OnePassLevel(s: Stay, ct': int, d: Day, a: Cursor, b: Cursor, whole: bool, fee: int)
    requires |d.zones| >= 2 && |d.times| == |d.types| == |d.zones| + 1
    requires OnDay(s, a) && s.ct <= ct' && DayFits(d, a.pd, s.p) && PlainTables(d, s.p, whole, fee)
    requires SameSide(s, ct') || forall k | 0 <= k < |d.zones| :: !RunsOn(d.zones[k], d.zoneCutoff, d.types[k+1], s.p)
    requires Level(a, b) && NonNegative(a) && NonNegative(b)
    requires whole ==> BlocksOver(s, a.pt) && BlocksOver(s.(ct := ct'), a.pt)
    ensures var r, q := OnePass(s, d, a), OnePass(s.(ct := ct'), d, b);
            PassesCompare(d, s.ct, b, r, q) && Grows(d, b, q)
  {
    hide HourlyPass, EntryPass;
    var k := ZoneAt(d, a.pt);
    var z := d.zones[k];
    assert PlainZone(z, d.zoneCutoff, d.types[k+1], s.p) && ZoneFits(z, d.times[k+1], a.pd, d.zoneCutoff, d.types[k+1], s.p);
    var a1 := a.(noGrace := true, curMin := z.zoneMin, curMax := z.zoneMax);
    var b1 := b.(noGrace := true, curMin := z.zoneMin, curMax := z.zoneMax);
    if z.rateType == 1 && z.block > 0 {
      HourlyPassLevel(s, ct', d, z, d.times[k+1], d.types[k+1], a1, b1);
      HourlyPassGrows(s.(ct := ct'), d, z, d.times[k+1], d.types[k+1], b1);
    } else if z.rateType == 1 {
      NoBlock(s.(ct := ct'), d, z, d.times[k+1], d.types[k+1], b1);
    } else if z.rateType == 2 {
      EntryPassLevel(s, ct', d, z, d.times[k+1], a1, b1);
    }
  }

  // ---- whole walks ----

  lemma BlocksStayOver(s: Stay, pt: int, pt': int)
    requires BlocksOver(s, pt) && pt <= pt'
    ensures BlocksOver(s, pt')
  {
    assert (pt - s.tz) / 60 <= (pt' - s.tz) / 60;
  }

  /** After a pass has settled its day, the next day's tables give the same total so far. */
  lemma FinishAgrees(d: Day, e: Day, c: Cursor)
    requires d.block24 == e.block24 && (d.block24 ==> d.fee24 == e.fee24)
    requires d == e || c.dayFee == 0.0
    ensures Finish(d, c) == Finish(e, c)
  {
  }

  ghost predicate MonoContext(s: Stay, c: Cursor, whole: bool, fee: int) {
    && Fits(s.week, s.p) && OnDay(s, c) && PlainWeek(s.week, s.p, whole, fee)
    && NonNegative(c) && (whole ==> BlocksOver(s, c.pt))
  }

  /** One pass of two stays from level cursors, and what the loop makes of each. */
  lemma PassesFollow(s: Stay, ct': int, a: Cursor, b: Cursor, d: Day, whole: bool, fee: int) returns (r: Pass, q: Pass)
    requires s.ct <= ct' && Level(a, b) && MonoContext(s, a, whole, fee) && MonoContext(s.(ct := ct'), b, whole, fee)
    requires Alike(s, ct')
    requires Load(s.week, a.pd) == Loaded(d)
    ensures Follows(s, d, a, r) && Follows(s.(ct := ct'), d, b, q)
    ensures PassesCompare(d, s.ct, b, r, q) && Grows(d, b, q)
    ensures d.block24 == whole && (whole ==> d.fee24 == fee >= 0)
    ensures q.Bottom? ==> q.c.pd == b.pd || q.c.dayFee == 0.0
  {
    hide Load, Walk, Onward, OnePass;
    assert DayOk(s.week, s.p, a.pd) && PlainAt(s.week, s.p, whole, fee, a.pd);
    assert NeverRunsOn(s.week, s.p) ==> StopsAt(s.week, s.p, a.pd);
    OnePassLevel(s, ct', d, a, b, whole, fee);
    WalkUnfolds(s, a, d);
    WalkUnfolds(s.(ct := ct'), b, d);
    r, q := OnePass(s, d, a), OnePass(s.(ct := ct'), d, b);
  }

  /** The longer stay is in its context again where its next pass begins. */
  lemma NextContext(s: Stay, c: Cursor, next: Cursor, whole: bool, fee: int)
    requires MonoContext(s, c, whole, fee) && NonNegative(next) && OnDay(s, next) && c.pt <= next.pt
    ensures MonoContext(s, next, whole, fee)
  {
    if whole { BlocksStayOver(s, c.pt, next.pt); }
  }

  /** A walk never ends below what has been charged at its start. */
  lemma {:induction false} WalkGrows(s: Stay, c: Cursor, d: Day, whole: bool, fee: int)
    requires MonoContext(s, c, whole, fee) && Load(s.week, c.pd) == Loaded(d)
    ensures Walk(s, c).Fee? ==> Finish(d, c) <= Walk(s, c).amount
    decreases s.ct - c.pt, 0
  {
    hide Load, Walk, Onward, Fits;
    var _, r := PassesFollow(s, s.ct, c, c, d, whole, fee);
    if !r.Return? { FinishFollowsTotal(d, c, r.c); }
    if r.Bottom? && r.c.pt < s.ct {
      NextContext(s, c, r.c, whole, fee);
      GrowsFrom(s, d, r.c, whole, fee);
    }
  }

  /** The same from a cursor whose day may still have to be loaded. */
  lemma {:induction false} GrowsFrom(s: Stay, d: Day, c: Cursor, whole: bool, fee: int)
    requires MonoContext(s, c, whole, fee) && d.block24 == whole && (whole ==> d.fee24 == fee)
    requires Load(s.week, c.pd) == Loaded(d) || c.dayFee == 0.0
    ensures Walk(s, c).Fee? ==> Finish(d, c) <= Walk(s, c).amount
    decreases s.ct - c.pt, 1
  {
    hide Load, Walk, Onward, Fits;
    WalkLoads(s, c);
    var l := Load(s.week, c.pd);
    if l.Loaded? {
      assert PlainAt(s.week, s.p, whole, fee, c.pd);
      WalkGrows(s, c, l.day, whole, fee);
      FinishAgrees(d, l.day, c);
    }
  }

  /** From level cursors the longer stay never ends cheaper, and if it can be charged so can the shorter. */
  lemma {:induction false} WalkMono(s: Stay, ct': int, a: Cursor, b: Cursor, whole: bool, fee: int)
    requires s.ct <= ct' && Level(a, b) && MonoContext(s, a, whole, fee) && MonoContext(s.(ct := ct'), b, whole, fee)
    requires Alike(s, ct')
    requires Walk(s.(ct := ct'), b).Fee?
    ensures Walk(s, a).Fee? && Walk(s, a).amount <= Walk(s.(ct := ct'), b).amount
    decreases s.ct - a.pt
  {
    hide Load, Walk, Onward, Fits;
    var t := s.(ct := ct');
    WalkLoads(t, b);
    var d := Load(s.week, a.pd).day;
    var r, q := PassesFollow(s, ct', a, b, d, whole, fee);
    if r.Return? {
      WalkGrows(t, b, d, whole, fee);
    } else {
      if r.Bottom? && q.Bottom? && Level(r.c, q.c) { LevelTotal(d, r.c, q.c); }
      if q.Bottom? && q.c.pt < ct' { NextContext(t, b, q.c, whole, fee); }
      if r.Bottom? && r.c.pt < s.ct {
        NextContext(s, a, r.c, whole, fee);
        WalkMono(s, ct', r.c, q.c, whole, fee);
      } else {
        FinishFollowsTotal(d, r.c, q.c);
        if q.Bottom? && q.c.pt < ct' { GrowsFrom(t, d, q.c, whole, fee); }
      }
    }
  }
}
