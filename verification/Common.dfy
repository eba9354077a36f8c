/** Small value types and real arithmetic shared by every module. */
module Common {
  datatype Option<+T> = None | Some(value: T) {
    function GetOr(default: T): T {
      match this
      case Some(v) => v
      case None => default
    }
  }

  function Max(a: real, b: real): real {
    if a >= b then a else b
  }

  function Min(a: real, b: real): real {
    if a <= b then a else b
  }

  function Abs(a: real): real {
    if a >= 0.0 then a else -a
  }

  function Clamp01(a: real): real {
    Max(0.0, Min(1.0, a))
  }

  function Times(a: real, b: real): real {
    a * b
  }

  function Ratio(part: real, whole: real): real
    requires whole != 0.0
  {
    part / whole
  }

  // --------------------------------------------------------------- arithmetic

  lemma {:induction false} ProductSign(a: real, b: real)
    requires a >= 0.0 && b >= 0.0
    ensures a * b >= 0.0
    ensures a > 0.0 && b > 0.0 ==> a * b > 0.0
  {
  }

  lemma {:induction false} ProductOrder(c: real, a: real, b: real)
    requires c >= 0.0 && a <= b
    ensures c * a <= c * b
    ensures c > 0.0 && a < b ==> c * a < c * b
  {
    ProductSign(c, b - a);
    assert c * (b - a) == c * b - c * a;
  }

  /** A part of a whole, as a fraction. */
  lemma {:induction false} Fraction(part: real, whole: real)
    requires 0.0 <= part <= whole && whole > 0.0
    ensures 0.0 <= part / whole <= 1.0 && (part / whole) * whole == part
    ensures part > 0.0 ==> part / whole > 0.0
    ensures part / whole == 1.0 <==> part == whole
  {
    var r := part / whole;
    assert r * whole == part;
    if r > 1.0 {
      ProductOrder(whole, 1.0, r);
    }
    if r < 0.0 {
      ProductOrder(whole, r, 0.0);
    }
    if r == 0.0 {
      assert part == 0.0;
    }
    if r == 1.0 {
      assert part == whole;
    }
    if part == whole {
      assert r * whole == 1.0 * whole;
      assert r >= 1.0 by {
        if r < 1.0 {
          ProductOrder(whole, r, 1.0);
        }
      }
    }
  }

  lemma {:induction false} PositiveQuotient(a: real, b: real)
    requires a > 0.0 && b > 0.0
    ensures a / b > 0.0
  {
    var r := a / b;
    assert r * b == a;
    if r <= 0.0 {
      ProductOrder(b, r, 0.0);
    }
  }

  lemma {:induction false} TimesSign(a: real, b: real)
    requires a > 0.0 && b > 0.0
    ensures Times(a, b) > 0.0
  {
    ProductSign(a, b);
  }

  /** Larger positive factors make a larger product. */
  lemma {:induction false} TimesOrder(p: real, q: real, u: real, v: real)
    requires 0.0 < p <= q && 0.0 < u <= v
    ensures 0.0 < Times(p, u) <= Times(q, v)
    ensures p < q || u < v ==> Times(p, u) < Times(q, v)
  {
    ProductSign(p, u);
    ProductOrder(p, u, v);
    ProductOrder(v, p, q);
    assert v * p == p * v && v * q == q * v;
  }

  lemma {:induction false} TimesIs(a: real, b: real)
    ensures Times(a, b) == a * b
  {
  }

  /** Comparing a quotient is comparing against the product. */
  lemma {:induction false} RatioAbove(part: real, whole: real, cap: real)
    requires whole > 0.0
    ensures Ratio(part, whole) > cap <==> part > Times(cap, whole)
    ensures Ratio(part, whole) < cap <==> part < Times(cap, whole)
  {
    var q := part / whole;
    assert q * whole == part;
    if q > cap {
      ProductOrder(whole, cap, q);
    } else if q < cap {
      ProductOrder(whole, q, cap);
    } else {
      assert cap * whole == part;
    }
  }

  lemma {:induction false} RatioAdds(a: real, b: real, whole: real)
    requires whole > 0.0
    ensures Ratio(a, whole) + Ratio(b, whole) == Ratio(a + b, whole)
    ensures Ratio(0.0, whole) == 0.0
  {
    var p, q, r := a / whole, b / whole, (a + b) / whole;
    assert p * whole == a && q * whole == b && r * whole == a + b;
    assert (p + q - r) * whole == 0.0;
  }

  lemma {:induction false} TimesMonotone(cap: real, a: real, b: real)
    requires cap >= 0.0 && a <= b
    ensures Times(cap, a) <= Times(cap, b)
    ensures b >= 0.0 ==> Times(cap, b) >= 0.0
  {
    ProductOrder(cap, a, b);
    if b >= 0.0 {
      ProductSign(cap, b);
    }
  }
}
