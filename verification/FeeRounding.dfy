/** What the rounding of a fee comes to: the site's mode decides which whole number of cents is charged. */
module FeeRounding {
  import opened FeeTariff

  predicate Whole(x: real) { x.Floor as real == x }

  /** Rounding up, down, and to the nearest with halves away from zero. */
  predicate Rounds(mode: int, x: real, r: real) {
    match mode
    case 1 => x <= r < x + 1.0
    case 2 => x - 1.0 < r <= x
    case 3 => -0.5 <= r - x <= 0.5 && (r - x == 0.5 ==> x >= 0.0) && (r - x == -0.5 ==> x < 0.0)
    case _ => false
  }

  lemma WholeIs(n: int)
    ensures Whole(n as real)
  {
  }

  lemma WholesApart(r: real, q: real)
    requires Whole(r) && Whole(q) && -1.0 < r - q < 1.0
    ensures r == q
  {
    var a, b := r.Floor, q.Floor;
    assert (a - b) as real == r - q;
  }

  lemma RoundItRounds(x: real, mode: int)
    requires 1 <= mode <= 3
    ensures Whole(RoundIt(x, mode)) && Rounds(mode, x, RoundIt(x, mode))
  {
    WholeIs(Ceil(x));
    WholeIs(x.Floor);
    if x >= 0.0 { WholeIs((x + 0.5).Floor); } else { WholeIs(-(-x + 0.5).Floor); }
  }

  /** The fee presented, in dollars, is the one whole number of cents to which the mode rounds the amount;
      without a mode it is the amount itself, and under an unknown one it is not rounded. */
  lemma PresentedExactly(p: Paras, x: real, dollars: real)
    ensures 1 <= p.feeMode <= 3 ==>
              (Present(p, Fee(x)) == Fee(dollars) <==> Whole(dollars * 100.0) && Rounds(p.feeMode, x, dollars * 100.0))
    ensures p.feeMode <= 0 ==> Present(p, Fee(x)) == Fee(x)
    ensures p.feeMode > 3 ==> Present(p, Fee(x)) == Fee(x / 100.0)
    ensures forall code :: Present(p, Error(code)) == Error(code)
  {
    if 1 <= p.feeMode <= 3 {
      RoundItRounds(x, p.feeMode);
      var r := RoundIt(x, p.feeMode);
      assert Present(p, Fee(x)) == Fee(r / 100.0) && r / 100.0 * 100.0 == r;
      if Whole(dollars * 100.0) && Rounds(p.feeMode, x, dollars * 100.0) {
        OnlyOne(p.feeMode, x, r, dollars * 100.0);
      }
    }
  }

  lemma OnlyOne(mode: int, x: real, r: real, q: real)
    requires Whole(r) && Whole(q) && Rounds(mode, x, r) && Rounds(mode, x, q)
    ensures r == q
  {
    if -1.0 < r - q < 1.0 { WholesApart(r, q); }
  }
}
