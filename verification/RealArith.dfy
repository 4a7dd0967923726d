// Tokens accrue at a steady rate.  The product is named here and its few laws are
// proved once; proofs elsewhere hide the name's body.
module RealArith {
  function Accrued(rate: real, from: real, to: real): real {
    (to - from) * rate
  }

  lemma AccruedAdds(rate: real, a: real, b: real, c: real)
    ensures Accrued(rate, a, b) + Accrued(rate, b, c) == Accrued(rate, a, c)
  {
  }

  lemma AccruedNothing(rate: real, t: real)
    ensures Accrued(rate, t, t) == 0.0
  {
  }

  lemma AccruedGrows(rate: real, a: real, b: real)
    requires rate >= 0.0 && a <= b
    ensures Accrued(rate, a, b) >= 0.0
  {
  }

  lemma AccruedLong(rate: real, span: real, a: real, b: real)
    requires rate >= 0.0 && span <= b - a
    ensures Accrued(rate, a, b) >= span * rate
  {
    AccruedGrows(rate, a + span, b);
    AccruedAdds(rate, a, a + span, b);
    assert Accrued(rate, a, a + span) == span * rate;
  }

  // Waiting x / rate accrues x.
  lemma AccruedQuotient(rate: real, t: real, x: real)
    requires rate != 0.0
    ensures Accrued(rate, t, t + x / rate) == x
  {
    var d := x / rate;
    assert d * rate == x;
    assert t + d - t == d;
  }

  lemma QuotientStep(x: real, y: real, rate: real)
    requires rate != 0.0
    ensures Accrued(rate, x / rate, y / rate) == y - x
  {
    var p, q := x / rate, y / rate;
    assert p * rate == x && q * rate == y;
    assert (q - p) * rate == q * rate - p * rate;
  }

  lemma QuotientMonotone(x: real, y: real, rate: real)
    requires x <= y && rate > 0.0
    ensures x / rate <= y / rate
  {
    var p, q := x / rate, y / rate;
    assert p * rate == x && q * rate == y;
  }
}
