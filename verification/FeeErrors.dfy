/** When a calculation fails, and with which code. */
module FeeErrors {
  import opened FeeTariff
  import opened FeeMonotone
  import FeeMixed

  /** What is wrong with the tariff of a day: it has no zones, its zones never come round to the start of the
      first, or one of them cannot be charged. */
  predicate NoZones(t: DayTariff) { t.slots == [] }

  predicate NeverRound(t: DayTariff) {
    t.slots != [] && forall j | 0 <= j < |t.slots| :: t.slots[j].end != t.slots[0].start
  }

  predicate HasBadZone(t: DayTariff) { exists s :: s in t.slots && BadZone(s.zone) }

  predicate BadZone(z: Zone) { z.rateType < 1 || z.rateType > 2 || (z.rateType == 1 && z.block == 0) }

  predicate Explains(t: DayTariff, code: int) {
    match code
    case -2 => NoZones(t)
    case -3 => HasBadZone(t)
    case -4 => NeverRound(t)
    case _ => false
  }

  predicate ExplainsAt(week: Week, n: int, code: int) { Explains(week(n), code) }

  /** A day from one to another explains a code. */
  ghost predicate Explained(week: Week, from: int, to: int, code: int) {
    exists n :: from <= n <= to && ExplainsAt(week, n, code)
  }

  lemma LoadExplained(week: Week, pd: int)
    ensures Load(week, pd).Failed? ==> Explained(week, pd - 1, pd + 1, Load(week, pd).code)
  {
    var l := Load(week, pd);
    if l.Failed? {
      if NoZones(week(pd - 1)) { assert ExplainsAt(week, pd - 1, l.code); }
      else if MaxZone(week(pd - 1).slots) == 0 { assert ExplainsAt(week, pd - 1, l.code); }
      else if NoZones(week(pd)) { assert ExplainsAt(week, pd, l.code); }
      else if MaxZone(week(pd).slots) == 0 { assert ExplainsAt(week, pd, l.code); }
      else { assert ExplainsAt(week, pd + 1, l.code); }
    }
  }

  /** A day that is loaded has nothing wrong with its zones or those of its neighbours. */
  lemma LoadedIsRight(week: Week, pd: int)
    requires Load(week, pd).Loaded?
    ensures !NoZones(week(pd - 1)) && !NoZones(week(pd)) && !NoZones(week(pd + 1))
    ensures !NeverRound(week(pd - 1)) && !NeverRound(week(pd))
  {
    var a, b := MaxZone(week(pd - 1).slots), MaxZone(week(pd).slots);
    assert week(pd - 1).slots[a-1].end == week(pd - 1).slots[0].start;
    assert week(pd).slots[b-1].end == week(pd).slots[0].start;
  }

  lemma HourlyError(s: Stay, d: Day, z: Zone, zoneEnd: int, nextType: int, c: Cursor)
    requires z.block >= 0 && z.free1 >= 0 && z.free2 >= 0 && z.free3 >= 0 && c.pt < zoneEnd
    ensures var r := HourlyPass(s, d, z, zoneEnd, nextType, c); r.Return? ==> r.out == Error(-3) && z.block == 0
    ensures z.block == 0 ==> HourlyPass(s, d, z, zoneEnd, nextType, c).Return?
  {
    hide FirstFree, HourRun;
  }

  lemma ZoneOf(week: Week, pd: int, k: nat)
    requires Load(week, pd).Loaded? && k < |Load(week, pd).day.zones|
    ensures var z := Load(week, pd).day.zones[k];
            (exists s :: s in week(pd - 1).slots && s.zone == z) || (exists s :: s in week(pd).slots && s.zone == z)
  {
    var a := MaxZone(week(pd - 1).slots);
    if k == 0 { assert week(pd - 1).slots[a-1] in week(pd - 1).slots; } else { assert week(pd).slots[k-1] in week(pd).slots; }
  }

  /** A pass that returns an error has met a zone that cannot be charged. */
  lemma PassExplained(s: Stay, c: Cursor)
    requires Fits(s.week, s.p) && OnDay(s, c) && Load(s.week, c.pd).Loaded?
    ensures DayFits(Load(s.week, c.pd).day, c.pd, s.p)
    ensures var r := OnePass(s, Load(s.week, c.pd).day, c);
            r.Return? && r.out.Error? ==> Explained(s.week, c.pd - 1, c.pd, r.out.code)
  {
    hide Load, HourlyPass;
    FeeMixed.DayIsOk(s, c.pd);
    var d := Load(s.week, c.pd).day;
    var k := ZoneAt(d, c.pt);
    var z := d.zones[k];
    assert ZoneFits(z, d.times[k+1], c.pd, d.zoneCutoff, d.types[k+1], s.p);
    if z.rateType == 1 {
      HourlyError(s, d, z, d.times[k+1], d.types[k+1], c.(noGrace := true, curMin := z.zoneMin, curMax := z.zoneMax));
    }
    var r := OnePass(s, d, c);
    if r.Return? && r.out.Error? {
      ZoneOf(s.week, c.pd, k);
      assert BadZone(z) && r.out == Error(-3);
      if x :| x in s.week(c.pd).slots && x.zone == z {
        assert ExplainsAt(s.week, c.pd, -3);
      } else {
        assert ExplainsAt(s.week, c.pd - 1, -3);
      }
    }
  }

  lemma ExplainedWider(week: Week, from: int, to: int, from': int, to': int, code: int)
    requires Explained(week, from, to, code) && from' <= from && to <= to'
    ensures Explained(week, from', to', code)
  {
  }

  lemma {:induction false} WalkExplained(s: Stay, c: Cursor)
    requires Fits(s.week, s.p) && OnDay(s, c)
    ensures Walk(s, c).Error? ==> Explained(s.week, c.pd - 1, s.ct / MINUTES + 1, Walk(s, c).code)
    decreases s.ct - c.pt
  {
    hide Load, Walk, Onward, Fits, OnePass, Explained;
    SameOrLaterDay(c.pt, s.ct);
    WalkLoads(s, c);
    LoadExplained(s.week, c.pd);
    var l := Load(s.week, c.pd);
    if l.Failed? {
      ExplainedWider(s.week, c.pd - 1, c.pd + 1, c.pd - 1, s.ct / MINUTES + 1, l.code);
    } else {
      PassExplained(s, c);
      WalkUnfolds(s, c, l.day);
      var r := OnePass(s, l.day, c);
      if r.Return? && r.out.Error? {
        ExplainedWider(s.week, c.pd - 1, c.pd, c.pd - 1, s.ct / MINUTES + 1, r.out.code);
      } else if r.Bottom? && r.c.pt < s.ct {
        WalkExplained(s, r.c);
        SameOrLaterDay(c.pt, r.c.pt);
        if Walk(s, c).Error? {
          ExplainedWider(s.week, r.c.pd - 1, s.ct / MINUTES + 1, c.pd - 1, s.ct / MINUTES + 1, Walk(s, c).code);
        }
      }
    }
  }

  /** A failed calculation is explained by the tariff of a day from the one before entry to the one after payment:
      -2 by a day without zones, -4 by one whose zones never come round, -3 by a zone with an unknown
      rate type or without a block length. */
  lemma ErrorsExplained(week: Week, p: Paras, tz: int, entry: nat, pay: nat, noGrace: bool)
    requires Fits(week, p)
    ensures var o := RawFee(week, p, tz, entry, pay, noGrace);
            o.Error? ==> Explained(week, entry / 60 / MINUTES - 1, PayMinute(entry, pay) / MINUTES + 1, o.code)
  {
    hide Load, Walk, Onward, Fits, Explained;
    if entry / 60 <= pay / 60 {
      WalkExplained(Stay(week, p, entry / 60, PayMinute(entry, pay), tz), Start(entry, noGrace));
    }
  }

  /** The day of entry is always looked at: what is wrong with its zones or its neighbours' fails every stay. */
  lemma FailsAtOnce(week: Week, p: Paras, tz: int, entry: nat, pay: nat, noGrace: bool)
    requires Fits(week, p) && entry / 60 <= pay / 60
    requires var n := entry / 60 / MINUTES;
             NoZones(week(n - 1)) || NoZones(week(n)) || NoZones(week(n + 1)) || NeverRound(week(n - 1)) || NeverRound(week(n))
    ensures RawFee(week, p, tz, entry, pay, noGrace) in {Error(-2), Error(-4)}
  {
    hide Load, Walk, Onward, Fits, Explained;
    var n := entry / 60 / MINUTES;
    var s := Stay(week, p, entry / 60, PayMinute(entry, pay), tz);
    if Load(week, n).Loaded? { LoadedIsRight(week, n); }
    WalkLoads(s, Start(entry, noGrace));
    FailureCodes(week, n);
  }

  lemma FailureCodes(week: Week, n: int)
    ensures Load(week, n).Failed? ==> Load(week, n).code == -2 || Load(week, n).code == -4
  {
  }
}
