/**
 * Totals of a sequence of records, overall and per key: the shape shared by the
 * `reduce`/`forEach` loops of Backend/src/routes/insights.ts that fill an
 * object `acc[key] = (acc[key] || 0) + amount`, and by the sum of an object's
 * values.
 */
module Grouping {

  /** The sum of the amounts of `s`, added from the first element on. */
  function Sum<T>(s: seq<T>, amount: T -> real): real
  {
    if s == [] then 0.0 else Sum(s[..|s| - 1], amount) + amount(s[|s| - 1])
  }

  /** The elements of `s` whose key is `k`, in order. */
  function Matching<T, K(==)>(s: seq<T>, key: T -> K, k: K): (r: seq<T>)
    ensures |r| <= |s|
    ensures forall x :: x in r ==> x in s && key(x) == k
    ensures forall x :: x in s ==> multiset(r)[x] == if key(x) == k then multiset(s)[x] else 0
  {
    if s == [] then []
    else
      var init := Matching(s[..|s| - 1], key, k);
      assert s[..|s| - 1] + [s[|s| - 1]] == s;
      if key(s[|s| - 1]) == k then init + [s[|s| - 1]] else init
  }

  /** The keys that occur in `s`. */
  function Keys<T, K(==)>(s: seq<T>, key: T -> K): set<K>
  {
    set i | 0 <= i < |s| :: key(s[i])
  }

  /**
   * The total amount per key, added record by record: the object a
   * `forEach`/`reduce` over `s` fills with `acc[key] = (acc[key] || 0) + amount`.
   */
  function Grouped<T, K(==)>(s: seq<T>, key: T -> K, amount: T -> real): map<K, real>
  {
    if s == [] then map[]
    else
      var g, x := Grouped(s[..|s| - 1], key, amount), s[|s| - 1];
      g[key(x) := (if key(x) in g then g[key(x)] else 0.0) + amount(x)]
  }

  lemma KeysSnoc<T, K>(s: seq<T>, x: T, key: T -> K)
    ensures Keys(s + [x], key) == Keys(s, key) + {key(x)}
  {
    var t := s + [x];
    forall k | k in Keys(t, key) ensures k in Keys(s, key) + {key(x)} {
      var i :| 0 <= i < |t| && key(t[i]) == k;
      if i < |s| {
        assert t[i] == s[i];
      }
    }
    forall k | k in Keys(s, key) ensures k in Keys(t, key) {
      var i :| 0 <= i < |s| && key(s[i]) == k;
      assert t[i] == s[i];
    }
    assert t[|s|] == x;
  }

  /** A key that does not occur has nothing matching it. */
  lemma {:induction false} MatchingAbsent<T, K>(s: seq<T>, key: T -> K, k: K)
    requires k !in Keys(s, key)
    ensures Matching(s, key, k) == []
  {
    if s != [] {
      var init := s[..|s| - 1];
      assert Keys(init, key) <= Keys(s, key) by {
        forall j | j in Keys(init, key) ensures j in Keys(s, key) {
          var i :| 0 <= i < |init| && key(init[i]) == j;
          assert s[i] == init[i];
        }
      }
      MatchingAbsent(init, key, k);
    }
  }

  lemma SumSnoc<T>(s: seq<T>, x: T, amount: T -> real)
    ensures Sum(s + [x], amount) == Sum(s, amount) + amount(x)
  {
    assert (s + [x])[..|s|] == s;
  }

  lemma MatchingSnoc<T, K>(s: seq<T>, x: T, key: T -> K, k: K)
    ensures Matching(s + [x], key, k) == if key(x) == k then Matching(s, key, k) + [x] else Matching(s, key, k)
  {
    assert (s + [x])[..|s|] == s;
  }

  /**
   * What the totals mean: a key has a total exactly when some record has that
   * key, and its total is the sum of the records with that key.
   */
  lemma {:induction false} GroupedMeaning<T, K>(s: seq<T>, key: T -> K, amount: T -> real, k: K)
    ensures k in Grouped(s, key, amount) <==> k in Keys(s, key)
    ensures k in Grouped(s, key, amount) ==> Grouped(s, key, amount)[k] == Sum(Matching(s, key, k), amount)
  {
    if s == [] {
      assert Keys(s, key) == {};
    } else {
      var init, x := s[..|s| - 1], s[|s| - 1];
      assert s == init + [x];
      GroupedMeaning(init, key, amount, k);
      KeysSnoc(init, x, key);
      MatchingSnoc(init, x, key, k);
      if k == key(x) {
        SumSnoc(Matching(init, key, k), x, amount);
        if k !in Keys(init, key) {
          MatchingAbsent(init, key, k);
        }
      }
    }
  }

  /** The keys of the totals are the keys that occur. */
  lemma GroupedKeys<T, K>(s: seq<T>, key: T -> K, amount: T -> real)
    ensures Grouped(s, key, amount).Keys == Keys(s, key)
  {
    forall k | k in Keys(s, key) ensures k in Grouped(s, key, amount) {
      GroupedMeaning(s, key, amount, k);
    }
    forall k | k in Grouped(s, key, amount) ensures k in Keys(s, key) {
      GroupedMeaning(s, key, amount, k);
    }
  }

  /**
   * The accumulation loop `acc[key] = (acc[key] || 0) + amount`: it computes
   * the total per key of every key that occurs.
   */
  method GroupSum<T, K(==)>(s: seq<T>, key: T -> K, amount: T -> real) returns (acc: map<K, real>)
    ensures acc == Grouped(s, key, amount)
  {
    acc := map[];
    for i := 0 to |s|
      invariant acc == Grouped(s[..i], key, amount)
    {
      assert s[..i + 1][..i] == s[..i];
      var k := key(s[i]);
      acc := acc[k := (if k in acc then acc[k] else 0.0) + amount(s[i])];
    }
    assert s[..|s|] == s;
  }

  /** The sum of the values of a finite map, in no particular order. */
  ghost function MapSum<K>(m: map<K, real>): real
    decreases m.Keys
  {
    if m.Keys == {} then 0.0
    else
      var k :| k in m.Keys;
      assert (m - {k}).Keys == m.Keys - {k};
      m[k] + MapSum(m - {k})
  }

  /** Any value of the map can be taken out first. */
  lemma {:induction false} MapSumRemove<K>(m: map<K, real>, k: K)
    requires k in m
    ensures MapSum(m) == m[k] + MapSum(m - {k})
    decreases m.Keys
  {
    assert k in m.Keys;
    var j :| j in m.Keys && MapSum(m) == m[j] + MapSum(m - {j});
    if j != k {
      assert (m - {j}).Keys == m.Keys - {j};
      assert (m - {k}).Keys == m.Keys - {k};
      MapSumRemove(m - {j}, k);
      MapSumRemove(m - {k}, j);
      assert m - {j} - {k} == m - {k} - {j};
    }
  }

  /** Setting one key changes the sum by the difference of that key's values. */
  lemma MapSumUpdate<K>(m: map<K, real>, k: K, v: real)
    ensures MapSum(m[k := v]) == MapSum(m) - (if k in m then m[k] else 0.0) + v
  {
    MapSumRemove(m[k := v], k);
    assert m[k := v] - {k} == m - {k};
    if k in m {
      MapSumRemove(m, k);
    } else {
      assert m - {k} == m;
    }
  }

  /** The per-key totals add up to the overall total. */
  lemma {:induction false} GroupedTotal<T, K>(s: seq<T>, key: T -> K, amount: T -> real)
    ensures MapSum(Grouped(s, key, amount)) == Sum(s, amount)
  {
    if s == [] {
      assert Grouped(s, key, amount).Keys == {};
    } else {
      var init, x := s[..|s| - 1], s[|s| - 1];
      GroupedTotal(init, key, amount);
      AddToOneKey(Grouped(init, key, amount), Grouped(s, key, amount), key(x), amount(x),
                  Sum(init, amount), Sum(s, amount));
    }
  }

  /** Adding `a` to one key's value (or starting it at `a`) adds `a` to the sum. */
  lemma AddToOneKey<K>(g: map<K, real>, g1: map<K, real>, k: K, a: real, before: real, after: real)
    requires g1 == g[k := (if k in g then g[k] else 0.0) + a]
    requires MapSum(g) == before && after == before + a
    ensures MapSum(g1) == after
  {
    MapSumUpdate(g, k, (if k in g then g[k] else 0.0) + a);
  }

  /**
   * `Object.values(m).reduce((a, b) => a + b, 0)`: the sum of the values,
   * taken one key at a time.
   */
  method SumValues<K>(m: map<K, real>) returns (t: real)
    ensures t == MapSum(m)
  {
    t := 0.0;
    var rest := m;
    while rest != map[]
      invariant t + MapSum(rest) == MapSum(m)
      decreases rest.Keys
    {
      var k :| k in rest;
      MapSumRemove(rest, k);
      assert (rest - {k}).Keys == rest.Keys - {k};
      t := t + rest[k];
      rest := rest - {k};
    }
  }

  function Mul(a: real, c: real): real { a * c }

  /** Multiplying every value by `c` multiplies the sum by `c`. */
  lemma {:induction false} MapSumScaled<K>(m: map<K, real>, scaled: map<K, real>, c: real)
    requires scaled.Keys == m.Keys
    requires forall j :: j in m ==> scaled[j] == Mul(m[j], c)
    ensures MapSum(scaled) == Mul(MapSum(m), c)
    decreases m.Keys
  {
    if m.Keys == {} {
      assert scaled.Keys == {};
    } else {
      var k :| k in m.Keys;
      var rm, rs := m - {k}, scaled - {k};
      assert rm.Keys == m.Keys - {k};
      assert rs.Keys == rm.Keys;
      forall j | j in rm ensures rs[j] == Mul(rm[j], c) {
        assert rs[j] == scaled[j] && rm[j] == m[j];
      }
      MapSumRemove(m, k);
      MapSumRemove(scaled, k);
      MapSumScaled(rm, rs, c);
      Distribute(m[k], MapSum(rm), c);
    }
  }

  lemma Distribute(a: real, b: real, c: real)
    ensures Mul(a, c) + Mul(b, c) == Mul(a + b, c)
  {
  }

  /** The result of a JavaScript division: a finite number, or NaN or an infinity when dividing by zero. */
  datatype Quotient = Finite(value: real) | NaN | Infinity | NegativeInfinity

  /** `amount / total * 100`. */
  function Percent(amount: real, total: real): (r: Quotient)
    ensures r.Finite? <==> total != 0.0
    ensures r.Finite? ==> r.value * total == amount * 100.0
  {
    if total != 0.0 then Finite(amount / total * 100.0)
    else if amount == 0.0 then NaN
    else if amount > 0.0 then Infinity
    else NegativeInfinity
  }

  /** The percentages, as numbers, when the total is not zero. */
  function Shares<K>(totals: map<K, real>, total: real): map<K, real>
    requires total != 0.0
  {
    map k | k in totals :: Percent(totals[k], total).value
  }

  /**
   * The loop filling `categoryPercentages[category] = amount / total * 100`:
   * one entry per key, each that key's share of the total.
   */
  method Percentages<K>(totals: map<K, real>, total: real) returns (p: map<K, Quotient>)
    ensures p.Keys == totals.Keys
    ensures forall k :: k in p ==> p[k] == Percent(totals[k], total)
  {
    p := map[];
    var rest := totals;
    while rest != map[]
      invariant rest.Keys <= totals.Keys
      invariant p.Keys == totals.Keys - rest.Keys
      invariant forall k :: k in p ==> p[k] == Percent(totals[k], total)
      decreases rest.Keys
    {
      var k :| k in rest;
      assert (rest - {k}).Keys == rest.Keys - {k};
      p := p[k := Percent(totals[k], total)];
      rest := rest - {k};
    }
  }

  /** When the total is the sum of the totals and not zero, the percentages add up to 100. */
  lemma PercentagesSumToHundred<K>(totals: map<K, real>, total: real)
    requires total == MapSum(totals) && total != 0.0
    ensures MapSum(Shares(totals, total)) == 100.0
  {
    var c := 100.0 / total;
    var shares := Shares(totals, total);
    forall k | k in totals ensures shares[k] == Mul(totals[k], c) {
      assert totals[k] / total * 100.0 == totals[k] * (100.0 / total);
    }
    MapSumScaled(totals, shares, c);
    HundredOver(total);
  }

  lemma HundredOver(y: real)
    requires y != 0.0
    ensures Mul(y, 100.0 / y) == 100.0
  {
  }

  /** The total over one key is the sum of the records selected by that key. */
  lemma MatchingSum<T, K>(s: seq<T>, key: T -> K, amount: T -> real, k: K)
    ensures k !in Keys(s, key) ==> Sum(Matching(s, key, k), amount) == 0.0
  {
    if k !in Keys(s, key) {
      MatchingAbsent(s, key, k);
    }
  }

  /**
   * Two keyings that select the same records have the same totals: grouping by
   * a coarser key merges exactly the groups it does not tell apart.
   */
  lemma {:induction false} MatchingSameSelection<T, K, L>(s: seq<T>, key1: T -> K, k1: K, key2: T -> L, k2: L)
    requires forall i :: 0 <= i < |s| ==> (key1(s[i]) == k1 <==> key2(s[i]) == k2)
    ensures Matching(s, key1, k1) == Matching(s, key2, k2)
  {
    if s != [] {
      var init := s[..|s| - 1];
      assert forall i :: 0 <= i < |init| ==> init[i] == s[i];
      MatchingSameSelection(init, key1, k1, key2, k2);
    }
  }
}
