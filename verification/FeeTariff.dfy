/** The tariff tables of the parking-fee engine and the meaning of one fee calculation.
    Times are whole local minutes counted from 1 January 1970: the engine only ever looks at its
    cursor through minute, hour and day differences (see Calendar.MinutesSuffice).  Money is exact. */
module FeeTariff {

  /** One charging zone of a day; rate type 1 charges per block of minutes, 2 per entry. */
  datatype Zone = Zone(rateType: int, rate: real, block: int, zoneMin: real, zoneMax: real, grace: int,
                       free1: int, add1: real, free2: int, add2: real, free3: int, add3: real,
                       allowance: int)

  /** A zone with the minutes of the day at which it starts and ends. */
  datatype Slot = Slot(start: int, end: int, zone: Zone)

  datatype DayTariff = DayTariff(slots: seq<Slot>, dayMin: real, dayMax: real,
                                 zoneCutoff: int, dayCutoff: int)

  /** The site parameters the engine reads. */
  datatype Paras = Paras(firstHourMode: int, firstHour: int, hr2PEAllowance: int,
                         peAllowance: int, feeMode: int)

  datatype Outcome = Fee(amount: real) | Error(code: int)

  /** The working tables for one day: zone 0 is the last zone of the day before, and
      times[k] <= t < times[k+1] while zone k is in force. */
  datatype Day = Day(zones: seq<Zone>, times: seq<int>, types: seq<int>,
                     dayMin: real, dayMax: real, zoneCutoff: int, block24: bool, fee24: int)

  datatype LoadResult = Loaded(day: Day) | Failed(code: int)

  const MINUTES := 1440

  /** The tariff of every calendar day, by day number. */
  type Week = int -> DayTariff

  ghost predicate IsMaxZone(slots: seq<Slot>, k: int)
    requires slots != []
  {
    if k == 0 then forall j | 0 <= j < |slots| :: slots[j].end != slots[0].start
    else 1 <= k <= |slots| && slots[k-1].end == slots[0].start &&
         forall j | 0 <= j < k - 1 :: slots[j].end != slots[0].start
  }

  function MaxZoneFrom(slots: seq<Slot>, k: nat): (r: nat)
    requires 1 <= k <= |slots| + 1 && slots != []
    requires forall j | 0 <= j < k - 1 :: slots[j].end != slots[0].start
    ensures IsMaxZone(slots, r)
    decreases |slots| - k + 1
  {
    if k > |slots| then 0
    else if slots[k-1].end == slots[0].start then k
    else MaxZoneFrom(slots, k + 1)
  }

  /** The number of zones of a day: the first zone that ends when the first zone starts. */
  function MaxZone(slots: seq<Slot>): (r: nat)
    requires slots != []
    ensures IsMaxZone(slots, r)
  {
    MaxZoneFrom(slots, 1)
  }

  /** What loading a day must produce, row by row. */
  function DayTables(week: Week, pd: int): (d: Day)
    requires week(pd - 1).slots != [] && MaxZone(week(pd - 1).slots) > 0
    requires week(pd).slots != [] && MaxZone(week(pd).slots) > 0
    requires week(pd + 1).slots != []
    ensures |d.zones| == MaxZone(week(pd).slots) + 1
    ensures |d.times| == |d.types| == |d.zones| + 1
  {
    var before, today, after := week(pd - 1), week(pd), week(pd + 1);
    var b, m := MaxZone(before.slots), MaxZone(today.slots);
    var zones := [before.slots[b-1].zone] + seq(m, i requires 0 <= i < m => today.slots[i].zone);
    var starts := seq(m, i requires 0 <= i < m => pd * MINUTES + today.slots[i].start);
    var next := (pd + 1) * MINUTES + (if today.dayCutoff == 1 then 0 else after.slots[0].start);
    var whole := today.dayMin == today.dayMax && today.dayMin > 0.0;
    Day(zones,
        [(pd - 1) * MINUTES + before.slots[b-1].start] + starts + [next],
        seq(m + 1, i requires 0 <= i < m + 1 => zones[i].rateType) + [after.slots[0].zone.rateType],
        if whole then 0.0 else today.dayMin, if whole then 0.0 else today.dayMax,
        today.zoneCutoff, whole, if whole then today.dayMin.Floor else 0)
  }

  function Load(week: Week, pd: int): (r: LoadResult)
    ensures r.Loaded? ==> |r.day.zones| >= 2 && |r.day.times| == |r.day.types| == |r.day.zones| + 1
  {
    if week(pd - 1).slots == [] then Failed(-2)
    else if MaxZone(week(pd - 1).slots) == 0 then Failed(-4)
    else if week(pd).slots == [] then Failed(-2)
    else if MaxZone(week(pd).slots) == 0 then Failed(-4)
    else if week(pd + 1).slots == [] then Failed(-2)
    else Loaded(DayTables(week, pd))
  }

  // ---- preconditions of the engine ----

  /** No step may carry the cursor past the end of the next day: the engine moves its day
      forward by one per step, and would charge by a zone of the wrong day. */
  predicate ZoneFits(z: Zone, zoneEnd: int, pd: int, cutoff: int, nextType: int, p: Paras) {
    var limit := (pd + 2) * MINUTES;
    && (z.rateType == 1 ==>
          && z.block >= 0 && z.free1 >= 0 && z.free2 >= 0 && z.free3 >= 0
          && ((cutoff == 1 && (p.hr2PEAllowance <= 0 || nextType != 2)) || zoneEnd + z.block <= limit)
          && (cutoff == 1 || z.free1 == 0 || p.firstHour <= 0
              || zoneEnd + z.free1 + z.free2 + z.free3 <= limit))
    && (z.rateType == 2 ==> zoneEnd + p.peAllowance <= limit)
  }

  predicate DayFits(d: Day, pd: int, p: Paras)
    requires |d.zones| >= 2 && |d.times| == |d.types| == |d.zones| + 1
  {
    var last := |d.times| - 1;
    && |d.zones| <= 9   // the engine's tables hold nine zones and ten boundaries
    && (pd + 1) * MINUTES <= d.times[last]
    && (forall k | 0 <= k < |d.zones| ::
          d.times[k+1] < (pd + 2) * MINUTES &&
          ZoneFits(d.zones[k], d.times[k+1], pd, d.zoneCutoff, d.types[k+1], p))
  }

  ghost predicate Fits(week: Week, p: Paras) {
    forall n :: DayOk(week, p, n)
  }

  predicate DayOk(week: Week, p: Paras, n: int) {
    var r := Load(week, n);
    r.Loaded? ==> DayFits(r.day, n, p)
  }

  // ---- one pass of the fee loop ----

  /** What stays fixed during one calculation: minutes of entry and of (adjusted) payment. */
  datatype Stay = Stay(week: Week, p: Paras, entry: int, ct: int, tz: int)

  datatype Cursor = Cursor(pt: int, pd: int, dayFee: real, charge: real, noGrace: bool,
                           freed: bool, charges24: int, curMin: real, curMax: real)
  {
    predicate Charged() { charge > 0.0 || dayFee > 0.0 }
  }

  /** How a pass ends: a return, a break in the middle, or at the bottom of the loop body. */
  datatype Pass = Return(out: Outcome) | Leave(c: Cursor) | Bottom(c: Cursor)

  /** Whole hours between two instants, on the clock of UTC (tz is the local offset in minutes). */
  function HourDiff(a: int, b: int, tz: int): int {
    (b - tz) / 60 - (a - tz) / 60
  }

  function ClampLow(low: real, x: real): real { if low > 0.0 && x < low then low else x }

  function ClampHigh(high: real, x: real): real { if high > 0.0 && x > high then high else x }

  function DayTotal(d: Day, x: real): real { ClampHigh(d.dayMax, ClampLow(d.dayMin, x)) }

  /** The first boundary after pt, counting from k. */
  function FirstAfter(times: seq<int>, pt: int, k: nat): (r: nat)
    requires 1 <= k < |times| && pt < times[|times|-1]
    requires k == 1 || times[k-1] <= pt
    ensures k <= r < |times| && pt < times[r]
    ensures r == 1 || times[r-1] <= pt
    decreases |times| - k
  {
    if times[k] > pt then k else FirstAfter(times, pt, k + 1)
  }

  /** The zone fee after one more block, which the allowance may waive. */
  function BlockFee(z: Zone, left: int, charged: bool, fee: real): real {
    if z.allowance > 0 && (charged || fee > 0.0) && left <= z.allowance then fee else fee + z.rate
  }

  /** The blocks charged inside one hourly zone: the new cursor and the zone fee. */
  function HourRun(z: Zone, pt: int, zoneEnd: int, ct: int, charged: bool, fee: real): (r: (int, real))
    requires z.block > 0
    ensures r.0 >= pt
    ensures pt < zoneEnd ==> pt < r.0 < zoneEnd + z.block
    ensures pt >= zoneEnd ==> r == (pt, fee)
    decreases if pt < zoneEnd then zoneEnd - pt else 0
  {
    if zoneEnd <= pt then (pt, fee)
    else
      var f := BlockFee(z, ct - pt, charged, fee);
      if z.zoneMax > 0.0 && f >= z.zoneMax then (zoneEnd, f)
      else if ct <= pt + z.block then (pt + z.block, f)
      else HourRun(z, pt + z.block, zoneEnd, ct, charged, f)
  }

  /** The first-free periods: cursor, fee so far, whether the calculation ends here, and whether
      the once-only flag is set. */
  datatype Free = Free(pt: int, fee: real, done: bool, freed: bool)

  predicate FreeApplies(z: Zone, p: Paras, c: Cursor) {
    z.free1 > 0 && (p.firstHourMode == 0 || (c.dayFee == 0.0 && c.charge == 0.0)) &&
    !c.freed && p.firstHour > 0
  }

  function FirstFree(z: Zone, p: Paras, cutoff: int, zoneEnd: int, nextType: int,
                     pt: int, ct: int, freed: bool): (r: Free)
    requires z.free1 > 0 && z.free2 >= 0 && z.free3 >= 0 && pt < zoneEnd
    ensures pt < r.pt < zoneEnd + z.free1 + z.free2 + z.free3
    ensures cutoff == 1 ==> r.pt <= zoneEnd
    ensures r.fee == z.add1 || r.fee == z.add1 + z.add2 || r.fee == z.add1 + z.add2 + z.add3
    ensures r.done <==> ct <= r.pt
  {
    var once := freed || p.firstHourMode == 1;
    var fee2 := z.add1 + z.add2;
    var fee3 := z.add1 + z.add2 + z.add3;
    if zoneEnd - pt <= z.free1 then
      var p1 := if cutoff == 1 then zoneEnd else pt + z.free1;
      if ct <= p1 then Free(p1, z.add1, true, freed)
      else if p.firstHour <= 1 || cutoff != 0 then Free(p1, z.add1, false, once)
      else if zoneEnd <= p1 && nextType == 2 then Free(p1, z.add1, false, once)
      else
        var p2 := p1 + z.free2;
        if ct <= p2 then Free(p2, fee2, true, freed)
        else if p.firstHour <= 2 then Free(p2, fee2, false, once)
        else if zoneEnd <= p2 && nextType == 2 then Free(p2, fee2, false, once)
        else
          var p3 := p2 + z.free3;
          if ct <= p3 then Free(p3, fee3, true, freed) else Free(p3, fee3, false, once)
    else
      var p1 := pt + z.free1;
      if ct <= p1 then Free(p1, z.add1, true, freed)
      else if p.firstHour <= 1 then Free(p1, z.add1, false, freed)
      else if zoneEnd - p1 <= z.free2 then
        var p2 := if cutoff == 1 then zoneEnd else p1 + z.free2;
        if ct <= p2 then Free(p2, fee2, true, freed)
        else if p.firstHour <= 2 || cutoff != 0 then Free(p2, fee2, false, once)
        else if zoneEnd <= p2 && nextType == 2 then Free(p2, fee2, false, once)
        else
          var p3 := p2 + z.free3;
          if ct <= p3 then Free(p3, fee3, true, freed) else Free(p3, fee3, false, once)
      else
        var p2 := p1 + z.free2;
        if ct <= p2 then Free(p2, fee2, true, freed)
        else if p.firstHour <= 2 then Free(p2, fee2, false, freed)
        else
          var p3 := if zoneEnd - p2 <= z.free3 && cutoff == 1 then zoneEnd else p2 + z.free3;
          if ct <= p3 then Free(p3, fee3, true, freed) else Free(p3, fee3, false, once)
  }

  /** The cursor after an hourly zone, cut back to the end of the zone where the tariff says so. */
  function CutBack(s: Stay, cutoff: int, nextType: int, zoneEnd: int, pt: int): int {
    if cutoff != 1 || pt <= zoneEnd then pt
    else if s.p.hr2PEAllowance > 0 && nextType == 2 && s.ct - s.entry <= s.p.hr2PEAllowance then pt
    else zoneEnd
  }

  /** Where a per-entry zone leaves the cursor. */
  function EntryEnd(p: Paras, zoneEnd: int, pt: int): int {
    if p.peAllowance > 0 && zoneEnd - pt < p.peAllowance then pt + p.peAllowance else zoneEnd
  }

  /** The end of a pass: add the zone fee to the day, and the day to the charge once pt has left it. */
  function Settle(d: Day, c: Cursor, zoneFee: real): Cursor {
    var fee := c.dayFee + ClampHigh(c.curMax, ClampLow(c.curMin, zoneFee));
    if c.pt / MINUTES > c.pd
    then c.(charge := c.charge + DayTotal(d, fee), dayFee := 0.0, pd := c.pd + 1)
    else c.(dayFee := fee)
  }

  /** What an hourly zone does: it may be malformed, be waived by its allowance, end the
      calculation in a first-free period, or charge blocks. */
  datatype Hourly = NoBlock | Waived | Ended(pt: int, fee: real) | Blocks(pt: int, fee: real, freed: bool)

  function HourlyCharge(s: Stay, cutoff: int, z: Zone, zoneEnd: int, nextType: int, c: Cursor): Hourly
    requires z.block >= 0 && z.free1 >= 0 && z.free2 >= 0 && z.free3 >= 0 && c.pt < zoneEnd
  {
    if z.block == 0 then NoBlock
    else if z.allowance > 0 && c.Charged() && s.ct - c.pt <= z.allowance then Waived
    else
      var f := if FreeApplies(z, s.p, c)
               then FirstFree(z, s.p, cutoff, zoneEnd, nextType, c.pt, s.ct, c.freed)
               else Free(c.pt, 0.0, false, c.freed);
      if f.done then Ended(f.pt, f.fee)
      else
        var run := HourRun(z, f.pt, zoneEnd, s.ct, c.Charged(), f.fee);
        Blocks(CutBack(s, cutoff, nextType, zoneEnd, run.0), run.1, f.freed)
  }

  function HourlyPass(s: Stay, d: Day, z: Zone, zoneEnd: int, nextType: int, c: Cursor): Pass
    requires z.block >= 0 && z.free1 >= 0 && z.free2 >= 0 && z.free3 >= 0 && c.pt < zoneEnd
  {
    var h := HourlyCharge(s, d.zoneCutoff, z, zoneEnd, nextType, c);
    if h.NoBlock? then Return(Error(-3))
    else if h.Waived? then Leave(c)
    else if h.Ended? then Leave(c.(pt := h.pt, dayFee := c.dayFee + h.fee))
    else Bottom(Settle(d, c.(pt := h.pt, freed := h.freed), h.fee))
  }

  function EntryPass(s: Stay, d: Day, z: Zone, zoneEnd: int, c: Cursor): Pass {
    var fee := if z.allowance > 0 && c.Charged() && s.ct - c.pt <= z.allowance then 0.0 else z.rate;
    Bottom(Settle(d, c.(pt := EntryEnd(s.p, zoneEnd, c.pt)), fee))
  }

  predicate OnDay(s: Stay, c: Cursor) { c.pd == c.pt / MINUTES && c.pt <= s.ct }

  /** The zone in force at pt. */
  function ZoneAt(d: Day, pt: int): (k: nat)
    requires |d.zones| >= 2 && |d.times| == |d.zones| + 1 && pt < d.times[|d.times|-1]
    ensures k < |d.zones| && pt < d.times[k+1] && (k == 0 || d.times[k] <= pt)
  {
    FirstAfter(d.times, pt, 1) - 1
  }

  /** A pass that goes on moves the cursor on, by at most one calendar day, and keeps the day the day of
      the cursor; a day's fee is carried over only within the day. */
  predicate Advances(c: Cursor, r: Pass) {
    && (r.Bottom? ==>
          && r.c.pd == r.c.pt / MINUTES && r.c.pd <= c.pd + 1 && c.pt < r.c.pt
          && r.c.noGrace && (r.c.pd == c.pd || r.c.dayFee == 0.0))
    && (r.Leave? ==> r.c.pd == c.pd)
  }

  lemma SettleAdvances(d: Day, c: Cursor, from: Cursor, fee: real)
    requires c.noGrace && c.pd == from.pd == from.pt / MINUTES && from.pt < c.pt < (c.pd + 2) * MINUTES
    ensures Advances(from, Bottom(Settle(d, c, fee)))
  {
  }

  lemma HourlyAdvances(s: Stay, d: Day, z: Zone, zoneEnd: int, nextType: int, c: Cursor)
    requires z.rateType == 1 && c.pt < zoneEnd < (c.pd + 2) * MINUTES && c.noGrace && c.pd == c.pt / MINUTES
    requires ZoneFits(z, zoneEnd, c.pd, d.zoneCutoff, nextType, s.p)
    ensures Advances(c, HourlyPass(s, d, z, zoneEnd, nextType, c))
  {
    hide FirstFree, HourRun;
    var h := HourlyCharge(s, d.zoneCutoff, z, zoneEnd, nextType, c);
    if h.Blocks? {
      BlocksAdvance(s, d.zoneCutoff, z, zoneEnd, nextType, c);
      SettleAdvances(d, c.(pt := h.pt, freed := h.freed), c, h.fee);
    }
  }

  lemma BlocksAdvance(s: Stay, cutoff: int, z: Zone, zoneEnd: int, nextType: int, c: Cursor)
    requires z.rateType == 1 && c.pt < zoneEnd < (c.pd + 2) * MINUTES
    requires ZoneFits(z, zoneEnd, c.pd, cutoff, nextType, s.p)
    ensures var h := HourlyCharge(s, cutoff, z, zoneEnd, nextType, c);
            h.Blocks? ==> c.pt < h.pt < (c.pd + 2) * MINUTES
  {
    hide FirstFree, HourRun;
  }

  lemma EntryAdvances(s: Stay, d: Day, z: Zone, zoneEnd: int, nextType: int, c: Cursor)
    requires z.rateType == 2 && c.pt < zoneEnd < (c.pd + 2) * MINUTES && c.noGrace && c.pd == c.pt / MINUTES
    requires ZoneFits(z, zoneEnd, c.pd, d.zoneCutoff, nextType, s.p)
    ensures Advances(c, EntryPass(s, d, z, zoneEnd, c))
  {
    var fee := if z.allowance > 0 && c.Charged() && s.ct - c.pt <= z.allowance then 0.0 else z.rate;
    SettleAdvances(d, c.(pt := EntryEnd(s.p, zoneEnd, c.pt)), c, fee);
  }

  function OnePass(s: Stay, d: Day, c: Cursor): (r: Pass)
    requires |d.zones| >= 2 && |d.times| == |d.types| == |d.zones| + 1
    requires OnDay(s, c) && DayFits(d, c.pd, s.p)
    ensures Advances(c, r)
  {
    if d.block24 && HourDiff(c.pt, s.ct, s.tz) / 24 > 0 then
      Bottom(Settle(d, c.(charges24 := c.charges24 + d.fee24, pt := c.pt + MINUTES, noGrace := true), 0.0))
    else
      hide HourlyPass, EntryPass;
      var k := ZoneAt(d, c.pt);
      var z, zoneEnd, nextType := d.zones[k], d.times[k+1], d.types[k+1];
      assert ZoneFits(z, zoneEnd, c.pd, d.zoneCutoff, nextType, s.p);
      if z.rateType < 1 || z.rateType > 2 then Return(Error(-3))
      else if !c.noGrace && z.grace > 0 && s.ct - c.pt <= z.grace then Return(Fee(0.0))
      else
        var c1 := c.(noGrace := true, curMin := z.zoneMin, curMax := z.zoneMax);
        if z.rateType == 1 then
          HourlyAdvances(s, d, z, zoneEnd, nextType, c1);
          HourlyPass(s, d, z, zoneEnd, nextType, c1)
        else
          EntryAdvances(s, d, z, zoneEnd, nextType, c1);
          EntryPass(s, d, z, zoneEnd, c1)
  }

  /** What is left to do after the loop. */
  function Finish(d: Day, c: Cursor): (amount: real) {
    var ch := if c.dayFee > 0.0 then c.charge + DayTotal(d, c.dayFee) else c.charge;
    if d.block24 then c.charges24 as real + (if ch > d.fee24 as real then d.fee24 as real else ch) else ch
  }

  /** The whole loop from a cursor. */
  function Walk(s: Stay, c: Cursor): Outcome
    requires Fits(s.week, s.p) && OnDay(s, c)
    decreases s.ct - c.pt, 1
  {
    var load := Load(s.week, c.pd);
    if load.Failed? then Error(load.code)
    else
      assert DayOk(s.week, s.p, c.pd);
      Onward(s, load.day, c)
  }

  /** The loop from a cursor whose day is loaded. */
  function Onward(s: Stay, d: Day, c: Cursor): Outcome
    requires Fits(s.week, s.p) && OnDay(s, c)
    requires |d.zones| >= 2 && |d.times| == |d.types| == |d.zones| + 1 && DayFits(d, c.pd, s.p)
    decreases s.ct - c.pt, 0
  {
    match OnePass(s, d, c)
    case Return(o) => o
    case Leave(c') => Fee(Finish(d, c'))
    case Bottom(c') => if s.ct <= c'.pt then Fee(Finish(d, c')) else Walk(s, c')
  }

  /** How the loop goes on after a pass. */
  ghost predicate Follows(s: Stay, d: Day, c: Cursor, r: Pass)
    requires Fits(s.week, s.p) && OnDay(s, c)
  {
    && (r.Return? ==> Walk(s, c) == r.out)
    && (r.Leave? ==> Walk(s, c) == Fee(Finish(d, r.c)))
    && (r.Bottom? ==>
          && r.c.pd == r.c.pt / MINUTES && r.c.pd <= c.pd + 1 && c.pt < r.c.pt
          && Walk(s, c) == if s.ct <= r.c.pt then Fee(Finish(d, r.c)) else Walk(s, r.c))
  }

  lemma WalkUnfolds(s: Stay, c: Cursor, d: Day)
    requires Fits(s.week, s.p) && OnDay(s, c) && Load(s.week, c.pd) == Loaded(d) && DayFits(d, c.pd, s.p)
    ensures Follows(s, d, c, OnePass(s, d, c))
  {
    assert Walk(s, c) == Onward(s, d, c);
  }

  /** A day that cannot be loaded ends the calculation with its error. */
  lemma WalkLoads(s: Stay, c: Cursor)
    requires Fits(s.week, s.p) && OnDay(s, c)
    ensures Load(s.week, c.pd).Failed? ==> Walk(s, c) == Error(Load(s.week, c.pd).code)
  {
  }

  function Ceil(x: real): int { -((-x).Floor) }

  function RoundIt(x: real, mode: int): real {
    if mode == 1 then Ceil(x) as real
    else if mode == 2 then x.Floor as real
    else if mode == 3 then (if x >= 0.0 then (x + 0.5).Floor as real else -((-x + 0.5).Floor as real))
    else x
  }

  function Present(p: Paras, o: Outcome): Outcome {
    if o.Fee? && p.feeMode > 0 then Fee(RoundIt(o.amount, p.feeMode) / 100.0) else o
  }

  /** The minute charged up to: a started minute counts in full. */
  function PayMinute(entry: nat, pay: nat): nat {
    pay / 60 + (if entry % 60 < pay % 60 then 1 else 0)
  }

  function Start(entry: nat, noGrace: bool): Cursor {
    Cursor(entry / 60, entry / 60 / MINUTES, 0.0, 0.0, noGrace, false, 0, 0.0, 0.0)
  }

  /** The fee, before rounding, for entering and paying at two local times in seconds. */
  function RawFee(week: Week, p: Paras, tz: int, entry: nat, pay: nat, noGrace: bool): Outcome
    requires Fits(week, p)
  {
    if pay / 60 < entry / 60 then Fee(0.0)
    else Walk(Stay(week, p, entry / 60, PayMinute(entry, pay), tz), Start(entry, noGrace))
  }

  /** The meaning of a fee calculation. */
  function ParkingFee(week: Week, p: Paras, tz: int, entry: nat, pay: nat, noGrace: bool): Outcome
    requires Fits(week, p)
  {
    Present(p, RawFee(week, p, tz, entry, pay, noGrace))
  }
}
