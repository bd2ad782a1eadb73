/** The fee as a function of the time of payment. */
module FeeLater {
  import opened FeeTariff
  import opened FeeMonotone
  import opened FeeWholeDay

  lemma FloorMono(x: real, y: real)
    requires x <= y
    ensures x.Floor <= y.Floor
  {
  }

  lemma RoundItMono(x: real, y: real, mode: int)
    requires x <= y
    ensures RoundIt(x, mode) <= RoundIt(y, mode)
  {
    FloorMono(x, y);
    FloorMono(-y, -x);
    FloorMono(x + 0.5, y + 0.5);
    FloorMono(-y + 0.5, -x + 0.5);
    if mode == 3 && x < 0.0 <= y {
      FloorMono(0.5, -x + 0.5);
      FloorMono(0.5, y + 0.5);
    }
  }

  lemma PresentMono(p: Paras, a: real, b: real)
    requires a <= b
    ensures Present(p, Fee(a)).amount <= Present(p, Fee(b)).amount
  {
    RoundItMono(a, b, p.feeMode);
  }

  lemma PayMinuteMono(entry: nat, pay: nat, pay': nat)
    requires pay <= pay'
    ensures PayMinute(entry, pay) <= PayMinute(entry, pay')
  {
    assert pay / 60 < pay' / 60 || (pay / 60 == pay' / 60 && pay % 60 <= pay' % 60);
  }

  lemma {:induction false} RepeatMono(a: nat, b: nat, fee: nat)
    requires a <= b
    ensures Repeat(a, fee) <= Repeat(b, fee)
  {
    if a > 0 { RepeatMono(a - 1, b - 1, fee); }
  }

  lemma StartInContext(s: Stay, entry: nat, noGrace: bool, whole: bool, fee: int)
    requires Fits(s.week, s.p) && PlainWeek(s.week, s.p, whole, fee)
    requires entry / 60 <= s.ct && (whole ==> BlocksOver(s, entry / 60))
    ensures MonoContext(s, Start(entry, noGrace), whole, fee)
  {
  }

  /** Without 24-hour blocks. */
  lemma RawFeeMono(s: Stay, ct': int, entry: nat, noGrace: bool)
    requires Fits(s.week, s.p) && PlainWeek(s.week, s.p, false, 0)
    requires entry / 60 <= s.ct <= ct' && Alike(s, ct')
    ensures var a, b := Walk(s, Start(entry, noGrace)), Walk(s.(ct := ct'), Start(entry, noGrace));
            b.Fee? ==> a.Fee? && a.amount <= b.amount
  {
    StartInContext(s, entry, noGrace, false, 0);
    StartInContext(s.(ct := ct'), entry, noGrace, false, 0);
    if Walk(s.(ct := ct'), Start(entry, noGrace)).Fee? {
      WalkMono(s, ct', Start(entry, noGrace), Start(entry, noGrace), false, 0);
    }
  }

  lemma RawFeeNotNegative(s: Stay, entry: nat, noGrace: bool)
    requires Fits(s.week, s.p) && PlainWeek(s.week, s.p, false, 0) && entry / 60 <= s.ct
    ensures var a := Walk(s, Start(entry, noGrace)); a.Fee? ==> a.amount >= 0.0
  {
    var c := Start(entry, noGrace);
    StartInContext(s, entry, noGrace, false, 0);
    if Walk(s, c).Fee? { WalkGrows(s, c, Load(s.week, c.pd).day, false, 0); }
  }

  /** No zone runs on into a per-entry zone, or the two stays are on one side of the site's allowance for it;
      paying before entry costs nothing anyway. */
  ghost predicate AlikeStays(week: Week, p: Paras, entry: nat, pay: nat, pay': nat) {
    || NeverRunsOn(week, p) || pay / 60 < entry / 60
    || (PayMinute(entry, pay) - entry / 60 <= p.hr2PEAllowance <==> PayMinute(entry, pay') - entry / 60 <= p.hr2PEAllowance)
  }

  /** For a plain tariff without 24-hour blocks, a later payment never costs less, unless the site's allowance
      for running on lies between the two; and if the later one can be charged at all, so can the
      earlier one. */
  lemma LaterNeverCheaper(week: Week, p: Paras, tz: int, entry: nat, pay: nat, pay': nat, noGrace: bool)
    requires Fits(week, p) && PlainWeek(week, p, false, 0) && pay <= pay' && AlikeStays(week, p, entry, pay, pay')
    ensures var a, b := ParkingFee(week, p, tz, entry, pay, noGrace), ParkingFee(week, p, tz, entry, pay', noGrace);
            b.Fee? ==> a.Fee? && a.amount <= b.amount
  {
    hide Load, Walk, Onward, Fits, RoundIt;
    PayMinuteMono(entry, pay, pay');
    var s := Stay(week, p, entry / 60, PayMinute(entry, pay), tz);
    var ct' := PayMinute(entry, pay');
    var a, b := RawFee(week, p, tz, entry, pay, noGrace), RawFee(week, p, tz, entry, pay', noGrace);
    if b.Fee? && entry / 60 <= pay' / 60 {
      if entry / 60 <= pay / 60 {
        RawFeeMono(s, ct', entry, noGrace);
      } else {
        RawFeeNotNegative(s.(ct := ct'), entry, noGrace);
      }
      PresentMono(p, a.amount, b.amount);
    }
  }

  // ---- every day in 24-hour mode ----

  lemma SameBlocksMono(s: Stay, ct': int, c: Cursor, fee: nat, b: nat)
    requires Fits(s.week, s.p) && PlainWeek(s.week, s.p, true, fee) && WholeWeek(s.week, fee)
    requires s.ct <= ct' && OnDay(s, c) && Clear(c) && c.charges24 == 0 && Alike(s, ct')
    requires BlocksLeft(s, c.pt) == BlocksLeft(s.(ct := ct'), c.pt) == b
    ensures var x, y := Walk(s, c), Walk(s.(ct := ct'), c);
            x.Fee? && y.Fee? ==> x.amount <= y.amount
  {
    var t := s.(ct := ct');
    if b == 0 {
      if Walk(t, c).Fee? { WalkMono(s, ct', c, c, true, fee); }
    } else {
      BlocksFirst(s, c, fee, b);
      BlocksFirst(t, c, fee, b);
      var c' := Skip(c, b, fee);
      if c'.pt < s.ct {
        BlocksAllSkipped(s, c.pt, b);
        BlocksAllSkipped(t, c.pt, b);
        if Walk(t, c').Fee? { WalkMono(s, ct', c', c', true, fee); }
      } else {
        WholeWalk(t, c, fee, b);
      }
    }
  }

  lemma WholeWalksMono(s: Stay, ct': int, c: Cursor, fee: nat)
    requires Fits(s.week, s.p) && PlainWeek(s.week, s.p, true, fee) && WholeWeek(s.week, fee)
    requires s.ct <= ct' && OnDay(s, c) && Clear(c) && c.charges24 == 0 && Alike(s, ct')
    ensures var x, y := Walk(s, c), Walk(s.(ct := ct'), c);
            x.Fee? && y.Fee? ==> x.amount <= y.amount
  {
    var t := s.(ct := ct');
    BlocksNotNegative(s, c.pt);
    var a, b := BlocksLeft(s, c.pt), BlocksLeft(t, c.pt);
    MoreBlocks(s, ct', c.pt);
    if a == b {
      SameBlocksMono(s, ct', c, fee, a);
    } else {
      WholeWalk(s, c, fee, a);
      WholeWalk(t, c, fee, b);
      RepeatMono(a + 1, b, fee);
    }
  }

  lemma MoreBlocks(s: Stay, ct': int, pt: int)
    requires s.ct <= ct'
    ensures BlocksLeft(s, pt) <= BlocksLeft(s.(ct := ct'), pt)
  {
    assert (s.ct - s.tz) / 60 <= (ct' - s.tz) / 60;
  }

  /** Where every day is charged by 24-hour blocks at one price, a later payment never costs less, with the
      same exception. */
  lemma LaterNeverCheaperByBlocks(week: Week, p: Paras, tz: int, fee: nat,
                                  entry: nat, pay: nat, pay': nat, noGrace: bool)
    requires Fits(week, p) && PlainWeek(week, p, true, fee) && WholeWeek(week, fee)
    requires pay <= pay' && AlikeStays(week, p, entry, pay, pay')
    ensures var a, b := ParkingFee(week, p, tz, entry, pay, noGrace), ParkingFee(week, p, tz, entry, pay', noGrace);
            a.Fee? && b.Fee? ==> a.amount <= b.amount
  {
    hide Load, Walk, Onward, Fits, RoundIt;
    PayMinuteMono(entry, pay, pay');
    var s := Stay(week, p, entry / 60, PayMinute(entry, pay), tz);
    var t := s.(ct := PayMinute(entry, pay'));
    var c := Start(entry, noGrace);
    var a, b := RawFee(week, p, tz, entry, pay, noGrace), RawFee(week, p, tz, entry, pay', noGrace);
    if a.Fee? && b.Fee? && entry / 60 <= pay' / 60 {
      if entry / 60 <= pay / 60 {
        WholeWalksMono(s, t.ct, c, fee);
      } else {
        BlocksNotNegative(t, c.pt);
        WholeWalk(t, c, fee, BlocksLeft(t, c.pt));
      }
      PresentMono(p, a.amount, b.amount);
    }
  }
}
