/** The fee engine itself: nested loops over days, zones and blocks, proved to compute ParkingFee. */
module FeeEngine {
  import opened FeeTariff

  /** Scans for the zone that ends when the first one starts; 0 if there is none. */
  method FindMaxZone(slots: seq<Slot>) returns (maxZone: nat)
    requires slots != []
    ensures maxZone == MaxZone(slots)
  {
    maxZone := 0;
    var k := 1;
    while k <= |slots|
      invariant 1 <= k <= |slots| + 1
      invariant forall j | 0 <= j < k - 1 :: slots[j].end != slots[0].start
      invariant MaxZone(slots) == MaxZoneFrom(slots, k)
    {
      if slots[k-1].end == slots[0].start {
        maxZone := k;
        return;
      }
      k := k + 1;
    }
  }

  /** Appends the first m zones of a day to the working tables. */
  method AppendZones(slots: seq<Slot>, m: nat, pd: int, zones0: seq<Zone>, types0: seq<int>, times0: seq<int>)
    returns (zones: seq<Zone>, types: seq<int>, times: seq<int>)
    requires m <= |slots|
    ensures zones == zones0 + seq(m, i requires 0 <= i < m => slots[i].zone)
    ensures types == types0 + seq(m, i requires 0 <= i < m => slots[i].zone.rateType)
    ensures times == times0 + seq(m, i requires 0 <= i < m => pd * MINUTES + slots[i].start)
  {
    zones, types, times := zones0, types0, times0;
    var k := 1;
    while k <= m
      invariant 1 <= k <= m + 1
      invariant zones == zones0 + seq(k - 1, i requires 0 <= i < k - 1 => slots[i].zone)
      invariant types == types0 + seq(k - 1, i requires 0 <= i < k - 1 => slots[i].zone.rateType)
      invariant times == times0 + seq(k - 1, i requires 0 <= i < k - 1 => pd * MINUTES + slots[i].start)
    {
      zones := zones + [slots[k-1].zone];
      types := types + [slots[k-1].zone.rateType];
      times := times + [pd * MINUTES + slots[k-1].start];
      k := k + 1;
    }
  }

  /** Fills the working tables of a day from yesterday's last zone, today's zones and tomorrow's first. */
  method LoadDay(week: Week, pd: int) returns (r: LoadResult)
    ensures r == Load(week, pd)
  {
    var before, today, after := week(pd - 1), week(pd), week(pd + 1);
    if before.slots == [] { return Failed(-2); }
    var b := FindMaxZone(before.slots);
    if b == 0 { return Failed(-4); }
    var zones := [before.slots[b-1].zone];
    var types := [before.slots[b-1].zone.rateType];
    var times := [(pd - 1) * MINUTES + before.slots[b-1].start];
    if today.slots == [] { return Failed(-2); }
    var m := FindMaxZone(today.slots);
    if m == 0 { return Failed(-4); }
    if after.slots == [] { return Failed(-2); }
    zones, types, times := AppendZones(today.slots, m, pd, zones, types, times);
    var dayMin, dayMax, block24, fee24 := today.dayMin, today.dayMax, false, 0;
    if today.dayCutoff == 1 {
      times := times + [(pd + 1) * MINUTES];
    } else {
      times := times + [(pd + 1) * MINUTES + after.slots[0].start];
    }
    types := types + [after.slots[0].zone.rateType];
    if dayMin == dayMax && dayMin > 0.0 {
      block24, fee24, dayMin, dayMax := true, dayMin.Floor, 0.0, 0.0;
    }
    ghost var d := DayTables(week, pd);
    assert zones == d.zones;
    assert types == d.types;
    assert times == d.times;
    r := Loaded(Day(zones, times, types, dayMin, dayMax, today.zoneCutoff, block24, fee24));
  }

  /** The zone in force at pt, found by scanning for the first later boundary. */
  method FindZone(d: Day, pt: int) returns (currentZone: nat)
    requires |d.zones| >= 2 && |d.times| == |d.zones| + 1 && pt < d.times[|d.times|-1]
    ensures currentZone == ZoneAt(d, pt)
  {
    var k := 1;
    while d.times[k] <= pt
      invariant 1 <= k < |d.times| && (k == 1 || d.times[k-1] <= pt)
      invariant FirstAfter(d.times, pt, 1) == FirstAfter(d.times, pt, k)
      decreases |d.times| - k
    {
      k := k + 1;
    }
    currentZone := k - 1;
  }

  /** The first-free periods, step by step: up to three periods are added, each time looking
      whether the zone or the stay is over. */
  method TakeFirstFree(z: Zone, p: Paras, cutoff: int, zoneEnd: int, nextType: int,
                       start: int, ct: int, freed: bool) returns (r: Free)
    requires z.free1 > 0 && z.free2 >= 0 && z.free3 >= 0 && start < zoneEnd
    ensures r == FirstFree(z, p, cutoff, zoneEnd, nextType, start, ct, freed)
  {
    var pt, zoneFee, first := start, z.add1, freed;
    if zoneEnd - pt <= z.free1 {
      if cutoff == 1 { pt := zoneEnd; } else { pt := pt + z.free1; }
      if ct - pt <= 0 { return Free(pt, zoneFee, true, first); }
      if p.firstHour > 1 && cutoff == 0 && !(zoneEnd - pt <= 0 && nextType == 2) {
        pt := pt + z.free2;
        zoneFee := z.add1 + z.add2;
        if ct - pt <= 0 { return Free(pt, zoneFee, true, first); }
        if p.firstHour > 2 && !(zoneEnd - pt <= 0 && nextType == 2) {
          pt := pt + z.free3;
          zoneFee := z.add1 + z.add2 + z.add3;
          if ct - pt <= 0 { return Free(pt, zoneFee, true, first); }
        }
      }
      if p.firstHourMode == 1 { first := true; }
    } else {
      pt := pt + z.free1;
      if ct - pt <= 0 { return Free(pt, zoneFee, true, first); }
      if p.firstHour > 1 {
        if zoneEnd - pt <= z.free2 {
          if cutoff == 1 { pt := zoneEnd; } else { pt := pt + z.free2; }
          zoneFee := z.add1 + z.add2;
          if ct - pt <= 0 { return Free(pt, zoneFee, true, first); }
          if p.firstHour > 2 && cutoff == 0 && !(zoneEnd - pt <= 0 && nextType == 2) {
            pt := pt + z.free3;
            zoneFee := z.add1 + z.add2 + z.add3;
            if ct - pt <= 0 { return Free(pt, zoneFee, true, first); }
          }
          if p.firstHourMode == 1 { first := true; }
        } else {
          zoneFee := z.add1 + z.add2;
          pt := pt + z.free2;
          if ct - pt <= 0 { return Free(pt, zoneFee, true, first); }
          if p.firstHour > 2 {
            if zoneEnd - pt <= z.free3 && cutoff == 1 { pt := zoneEnd; } else { pt := pt + z.free3; }
            zoneFee := z.add1 + z.add2 + z.add3;
            if ct - pt <= 0 { return Free(pt, zoneFee, true, first); }
            if p.firstHourMode == 1 { first := true; }
          }
        }
      }
    }
    r := Free(pt, zoneFee, false, first);
  }

  /** The block loop of one hourly zone. */
  method ChargeBlocks(z: Zone, start: int, zoneEnd: int, ct: int, charged: bool, fee: real)
    returns (pt: int, zoneFee: real)
    requires z.block > 0
    ensures (pt, zoneFee) == HourRun(z, start, zoneEnd, ct, charged, fee)
  {
    pt, zoneFee := start, fee;
    while true
      invariant HourRun(z, pt, zoneEnd, ct, charged, zoneFee) == HourRun(z, start, zoneEnd, ct, charged, fee)
      decreases if pt < zoneEnd then zoneEnd - pt else 0
    {
      if zoneEnd - pt <= 0 { break; }
      if z.allowance > 0 {
        if (charged || zoneFee > 0.0) && ct - pt <= z.allowance {
          // within allowance, nothing is added
        } else {
          zoneFee := zoneFee + z.rate;
        }
      } else {
        zoneFee := zoneFee + z.rate;
      }
      if z.zoneMax > 0.0 && zoneFee >= z.zoneMax {
        pt := zoneEnd;
        break;
      }
      pt := pt + z.block;
      if ct - pt <= 0 { break; }
    }
  }

  /** One hourly zone: allowance, first-free periods, blocks, cut-back to the end of the zone. */
  method ChargeHourly(s: Stay, cutoff: int, z: Zone, zoneEnd: int, nextType: int, c: Cursor) returns (r: Hourly)
    requires z.block >= 0 && z.free1 >= 0 && z.free2 >= 0 && z.free3 >= 0 && c.pt < zoneEnd
    ensures r == HourlyCharge(s, cutoff, z, zoneEnd, nextType, c)
  {
    var pt, zoneFee, freed := c.pt, 0.0, c.freed;
    if z.block == 0 { return NoBlock; }
    if z.allowance > 0 {
      if c.Charged() && s.ct - pt <= z.allowance { return Waived; }
    }
    if z.free1 > 0 && (s.p.firstHourMode == 0 || (c.dayFee == 0.0 && c.charge == 0.0)) && !freed && s.p.firstHour > 0 {
      var f := TakeFirstFree(z, s.p, cutoff, zoneEnd, nextType, pt, s.ct, freed);
      if f.done { return Ended(f.pt, f.fee); }
      pt, zoneFee, freed := f.pt, f.fee, f.freed;
    }
    pt, zoneFee := ChargeBlocks(z, pt, zoneEnd, s.ct, c.Charged(), zoneFee);
    if cutoff == 1 && zoneEnd - pt < 0 {
      if s.p.hr2PEAllowance > 0 && nextType == 2 {
        if s.ct - s.entry > s.p.hr2PEAllowance { pt := zoneEnd; }
      } else {
        pt := zoneEnd;
      }
    }
    r := Blocks(pt, zoneFee, freed);
  }

  /** Adds a zone fee to the day, and the day to the charge once the cursor has left it. */
  method SettleZone(d: Day, c: Cursor, fee: real) returns (r: Cursor)
    ensures r == Settle(d, c, fee)
  {
    var zoneFee, dayFee := fee, c.dayFee;
    if c.curMin > 0.0 && zoneFee < c.curMin { zoneFee := c.curMin; }
    if c.curMax > 0.0 && zoneFee > c.curMax { zoneFee := c.curMax; }
    dayFee := dayFee + zoneFee;
    if c.pt / MINUTES - c.pd > 0 {
      if d.dayMin > 0.0 && dayFee < d.dayMin { dayFee := d.dayMin; }
      if d.dayMax > 0.0 && dayFee > d.dayMax { dayFee := d.dayMax; }
      r := c.(charge := c.charge + dayFee, dayFee := 0.0, pd := c.pd + 1);
    } else {
      r := c.(dayFee := dayFee);
    }
  }

  /** One pass through the body of the fee loop. */
  method RunPass(s: Stay, d: Day, start: Cursor) returns (r: Pass)
    requires |d.zones| >= 2 && |d.times| == |d.types| == |d.zones| + 1
    requires OnDay(s, start) && DayFits(d, start.pd, s.p)
    ensures r == OnePass(s, d, start)
  {
    var c, zoneFee, blocks := start, 0.0, 0;
    if d.block24 { blocks := HourDiff(c.pt, s.ct, s.tz) / 24; }
    if blocks > 0 {
      c := c.(charges24 := c.charges24 + d.fee24, pt := c.pt + MINUTES, noGrace := true);
    } else {
      var k := FindZone(d, c.pt);
      var z, zoneEnd, nextType := d.zones[k], d.times[k+1], d.types[k+1];
      assert ZoneFits(z, zoneEnd, c.pd, d.zoneCutoff, nextType, s.p);
      if z.rateType < 1 || z.rateType > 2 { return Return(Error(-3)); }
      if !c.noGrace {
        if z.grace > 0 {
          if s.ct - c.pt <= z.grace { return Return(Fee(0.0)); }
        }
      }
      c := c.(noGrace := true, curMin := z.zoneMin, curMax := z.zoneMax);
      if z.rateType == 1 {
        var h := ChargeHourly(s, d.zoneCutoff, z, zoneEnd, nextType, c);
        match h {
          case NoBlock => return Return(Error(-3));
          case Waived => return Leave(c);
          case Ended(pt, fee) => return Leave(c.(pt := pt, dayFee := c.dayFee + fee));
          case Blocks(pt, fee, freed) => c, zoneFee := c.(pt := pt, freed := freed), fee;
        }
      } else {
        if !(z.allowance > 0 && c.Charged() && s.ct - c.pt <= z.allowance) { zoneFee := z.rate; }
        if s.p.peAllowance > 0 && zoneEnd - c.pt < s.p.peAllowance {
          c := c.(pt := c.pt + s.p.peAllowance);
        } else {
          c := c.(pt := zoneEnd);
        }
      }
    }
    c := SettleZone(d, c, zoneFee);
    r := Bottom(c);
  }

  /** A pass, and what it means for the whole calculation. */
  method Advance(s: Stay, d: Day, c: Cursor) returns (r: Pass)
    requires Fits(s.week, s.p) && OnDay(s, c) && Load(s.week, c.pd) == Loaded(d)
    ensures Follows(s, d, c, r)
  {
    assert DayOk(s.week, s.p, c.pd);
    WalkUnfolds(s, c, d);
    r := RunPass(s, d, c);
  }

  /** After the loop: the open day is closed, and the 24-hour blocks are added. */
  method Conclude(d: Day, c: Cursor) returns (charge: real)
    ensures charge == Finish(d, c)
  {
    charge := c.charge;
    if c.dayFee > 0.0 {
      var dayFee := c.dayFee;
      if d.dayMin > 0.0 && dayFee < d.dayMin { dayFee := d.dayMin; }
      if d.dayMax > 0.0 && dayFee > d.dayMax { dayFee := d.dayMax; }
      charge := charge + dayFee;
    }
    if d.block24 {
      if charge > d.fee24 as real { charge := d.fee24 as real; }
      charge := c.charges24 as real + charge;
    }
  }

  /** The cursor's day is never past the day of payment, so the loop's exit test on it never fires. */
  lemma ExitNeverFires(s: Stay, c: Cursor)
    requires OnDay(s, c)
    ensures s.ct / MINUTES - c.pd >= 0
  {
  }

  /** The fee loop, from a cursor to the charge. */
  method RunLoop(s: Stay, start: Cursor) returns (iRet: Outcome)
    requires Fits(s.week, s.p) && OnDay(s, start)
    ensures iRet == Walk(s, start)
  {
    var c := start;
    var d, gotDay := Day([], [], [], 0.0, 0.0, 0, false, 0), false;
    while true
      invariant OnDay(s, c)
      invariant gotDay ==> Load(s.week, c.pd) == Loaded(d)
      invariant Walk(s, start) == Walk(s, c)
      decreases s.ct - c.pt
    {
      ExitNeverFires(s, c);
      if !gotDay {
        var l := LoadDay(s.week, c.pd);
        if l.Failed? { return Error(l.code); }
        d, gotDay := l.day, true;
      }
      var r := Advance(s, d, c);
      match r {
        case Return(o) => return o;
        case Leave(c') =>
          c := c';
          break;
        case Bottom(c') =>
          gotDay := c'.pd == c.pd;
          c := c';
          if s.ct - c.pt <= 0 { break; }
      }
    }
    var charge := Conclude(d, c);
    iRet := Fee(charge);
  }

  /** The minute charged up to. */
  method AdjustPayTime(entryTime: nat, payTime: nat) returns (current: nat)
    ensures current == PayMinute(entryTime, payTime)
  {
    current := payTime / 60;
    if entryTime % 60 < payTime % 60 { current := current + 1; }
  }

  lemma StartOnDay(s: Stay, entry: nat, noGrace: bool)
    requires entry / 60 <= s.ct
    ensures OnDay(s, Start(entry, noGrace))
  {
  }

  /** The whole calculation, for local entry and payment times in seconds. */
  method CalFee(week: Week, p: Paras, tz: int, entryTime: nat, payTime: nat, bNoGT: bool) returns (iRet: Outcome)
    requires Fits(week, p)
    ensures iRet == ParkingFee(week, p, tz, entryTime, payTime, bNoGT)
  {
    var charge := Fee(0.0);
    if payTime / 60 - entryTime / 60 >= 0 {
      var current := AdjustPayTime(entryTime, payTime);
      var s := Stay(week, p, entryTime / 60, current, tz);
      StartOnDay(s, entryTime, bNoGT);
      charge := RunLoop(s, Start(entryTime, bNoGT));
    }
    assert charge == RawFee(week, p, tz, entryTime, payTime, bNoGT);
    iRet := Present(p, charge);
  }
}
