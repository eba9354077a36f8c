/** Order-independent sums over finite maps: the meaning of the source's
    `sum(... for ... in d.values())`. */
module MapSum {

  ghost function Pick(m: map<string, real>): (k: string)
    requires m != map[]
    ensures k in m
  {
    var k :| k in m;
    k
  }

  ghost function Total(m: map<string, real>): real
    decreases |m|
  {
    if m == map[] then 0.0
    else
      var k := Pick(m);
      Smaller(m, k);
      m[k] + Total(m - {k})
  }

  lemma Smaller(m: map<string, real>, k: string)
    requires k in m
    ensures |m - {k}| < |m|
  {
  }

  /** The sum does not depend on which entry is taken out first. */
  lemma {:induction false} TotalRemove(m: map<string, real>, k: string)
    requires k in m
    ensures Total(m) == m[k] + Total(m - {k})
    decreases |m|
  {
    var p := Pick(m);
    if p != k {
      Smaller(m, p);
      Smaller(m, k);
      TotalRemove(m - {p}, k);
      TotalRemove(m - {k}, p);
      assert (m - {p}) - {k} == (m - {k}) - {p};
    }
  }

  lemma TotalUpdate(m: map<string, real>, k: string, v: real)
    ensures Total(m[k := v]) == Total(m - {k}) + v
    ensures k !in m ==> Total(m[k := v]) == Total(m) + v
    ensures k in m ==> Total(m[k := v]) == Total(m) - m[k] + v
  {
    TotalRemove(m[k := v], k);
    assert m[k := v] - {k} == m - {k};
    if k in m {
      TotalRemove(m, k);
    } else {
      assert m - {k} == m;
    }
  }

  /** Non-negative entries: every entry is at most the sum. */
  lemma {:induction false} TotalDominates(m: map<string, real>)
    requires forall k :: k in m ==> m[k] >= 0.0
    ensures Total(m) >= 0.0
    ensures forall k :: k in m ==> m[k] <= Total(m)
    decreases |m|
  {
    if m != map[] {
      var p := Pick(m);
      Smaller(m, p);
      TotalDominates(m - {p});
      assert Total(m) == m[p] + Total(m - {p});
      forall k | k in m
        ensures m[k] <= Total(m)
      {
        assert k == p || (k in m - {p} && (m - {p})[k] == m[k]);
      }
    }
  }

  /** Two maps over the same keys whose entries add up to something
      non-negative have non-negative sums together. */
  lemma {:induction false} TotalPairNonNegative(a: map<string, real>, b: map<string, real>)
    requires a.Keys == b.Keys
    requires forall k :: k in a ==> a[k] + b[k] >= 0.0
    ensures Total(a) + Total(b) >= 0.0
    decreases |a|
  {
    if a != map[] {
      var p := Pick(a);
      assert p in a.Keys;
      TotalRemove(b, p);
      Smaller(a, p);
      TotalPairNonNegative(a - {p}, b - {p});
    } else {
      assert b == map[];
    }
  }

  ghost function Restrict(m: map<string, real>, keys: set<string>): map<string, real> {
    map k | k in m && k in keys :: m[k]
  }

  /** One step of a loop that adds up a map entry by entry. */
  lemma {:induction false} RestrictStep(m: map<string, real>, keys: set<string>, k: string)
    requires k in m && k in keys
    ensures Total(Restrict(m, keys)) == m[k] + Total(Restrict(m, keys - {k}))
  {
    TotalRemove(Restrict(m, keys), k);
    assert Restrict(m, keys) - {k} == Restrict(m, keys - {k});
  }

  /** Sums of maps over the same keys add entry by entry. */
  lemma {:induction false} TotalAdds(a: map<string, real>, b: map<string, real>, c: map<string, real>)
    requires a.Keys == b.Keys == c.Keys
    requires forall k :: k in a ==> c[k] == a[k] + b[k]
    ensures Total(c) == Total(a) + Total(b)
    decreases |a|
  {
    if a != map[] {
      var p := Pick(a);
      assert p in a.Keys;
      TotalRemove(b, p);
      TotalRemove(c, p);
      Smaller(a, p);
      TotalAdds(a - {p}, b - {p}, c - {p});
    } else {
      assert b == map[] && c == map[];
    }
  }
}
