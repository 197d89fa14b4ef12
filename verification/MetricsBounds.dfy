/** The inequalities behind NDCG: the ideal order majorizes every ranking without repeats, and majorization survives
    discounting. */
module MetricsBounds {
  import opened Metrics
  import opened Sets

  // No judged document appears twice in the first k ranks.
  ghost predicate NoRepeats(ranked: seq<RankedDoc>, relevant: map<int, int>, k: int) {
    forall i, j :: 0 <= i < j < |ranked| && j < k && RelOf(relevant, ranked[i].id) > 0
                   ==> ranked[i].id != ranked[j].id
  }

  // Positive and non-decreasing, as log2(i + 2) is.
  ghost predicate Discount(d: nat -> real) {
    forall i: nat :: 0.0 < d(i) <= d(i + 1)
  }

  ghost predicate StrictDiscount(d: nat -> real) {
    Discount(d) && forall i: nat :: d(i) < d(i + 1)
  }

  // ---------- prefix sums ----------

  ghost function Total(g: nat -> real, n: nat): real {
    if n == 0 then 0.0 else Total(g, n - 1) + g(n - 1)
  }

  ghost predicate Majorizes(h: nat -> real, g: nat -> real, n: nat) {
    forall m: nat :: m <= n ==> Total(g, m) <= Total(h, m)
  }

  lemma PositiveFactor(p: real, q: real)
    requires q > 0.0
    ensures p * q > 0.0 <==> p > 0.0
    ensures p * q == 0.0 <==> p == 0.0
  {
  }

  lemma DivideDown(x: real, a: real, b: real)
    requires 0.0 <= x && 0.0 < a <= b
    ensures x / b <= x / a
    ensures a < b && 0.0 < x ==> x / b < x / a
  {
    var y, z := x / b, x / a;
    assert y * b == x && z * a == x;
    assert (z - y) * a == y * (b - a);
    PositiveFactor(y, b);
    PositiveFactor(z - y, a);
    if a < b { PositiveFactor(y, b - a); }
  }

  lemma DivideSum(x: real, y: real, z: real, d: real)
    requires d > 0.0
    ensures (x + (y - z)) / d == x / d + (y / d - z / d)
  {
  }

  // One more rank: how the gap and the discounted gap grow.
  lemma GapStep(g: nat -> real, h: nat -> real, d: nat -> real, n: nat)
    requires Discount(d)
    ensures var gap := Total(h, n) - Total(g, n);
            && (Total(h, n + 1) - Total(g, n + 1)) / d(n)
               - (Discounted(h, d, n + 1) - Discounted(g, d, n + 1))
               == gap / d(n) - (Discounted(h, d, n) - Discounted(g, d, n))
  {
    var gap := Total(h, n) - Total(g, n);
    assert 0.0 < d(n) <= d(n + 1);
    assert Total(h, n + 1) - Total(g, n + 1) == gap + (h(n) - g(n));
    DivideSum(gap, h(n), g(n), d(n));
  }

  // Summation by parts: the discounted gap is at least the whole gap under the last discount.
  lemma {:induction false} GapUnderDiscount(g: nat -> real, h: nat -> real, d: nat -> real, n: nat)
    requires Discount(d) && Majorizes(h, g, n + 1)
    ensures Discounted(h, d, n + 1) - Discounted(g, d, n + 1) >= (Total(h, n + 1) - Total(g, n + 1)) / d(n)
  {
    GapStep(g, h, d, n);
    if n > 0 {
      assert Majorizes(h, g, n);
      GapUnderDiscount(g, h, d, n - 1);
      assert 0.0 < d(n - 1) <= d(n - 1 + 1);
      DivideDown(Total(h, n) - Total(g, n), d(n - 1), d(n));
    }
  }

  // The gap closes only if the totals agree at every rank.
  lemma {:induction false} NoGapNoDifference(g: nat -> real, h: nat -> real, d: nat -> real, n: nat)
    requires StrictDiscount(d) && Majorizes(h, g, n + 1)
    requires Discounted(h, d, n + 1) - Discounted(g, d, n + 1) <= (Total(h, n + 1) - Total(g, n + 1)) / d(n)
    ensures forall m: nat :: m <= n ==> Total(g, m) == Total(h, m)
  {
    if n > 0 {
      GapStep(g, h, d, n);
      assert Majorizes(h, g, n);
      GapUnderDiscount(g, h, d, n - 1);
      assert 0.0 < d(n - 1) < d(n - 1 + 1);
      DivideDown(Total(h, n) - Total(g, n), d(n - 1), d(n));
      assert Total(g, n) == Total(h, n);
      NoGapNoDifference(g, h, d, n - 1);
    }
  }

  // ---------- the grades found ----------

  ghost function Found(ranked: seq<RankedDoc>, relevant: map<int, int>, m: nat): (s: seq<int>)
    requires m <= |ranked|
    ensures |s| <= m
  {
    if m == 0 then []
    else if RelOf(relevant, ranked[m - 1].id) > 0
    then Found(ranked, relevant, m - 1) + [RelOf(relevant, ranked[m - 1].id)]
    else Found(ranked, relevant, m - 1)
  }

  ghost function FoundIds(ranked: seq<RankedDoc>, m: nat): set<int>
    requires m <= |ranked|
  {
    set i | 0 <= i < m :: ranked[i].id
  }

  // Without repeats a grade is found at most once for each document that holds it.
  lemma {:induction false} FoundCounts(ranked: seq<RankedDoc>, relevant: map<int, int>, k: int, m: nat, v: int)
    requires m <= |ranked| && m <= k && NoRepeats(ranked, relevant, k)
    ensures multiset(Found(ranked, relevant, m))[v] == |Judged(relevant, FoundIds(ranked, m), v)|
  {
    if m == 0 {
      assert Judged(relevant, FoundIds(ranked, 0), v) == {};
    } else {
      FoundCounts(ranked, relevant, k, m - 1, v);
      var id := ranked[m - 1].id;
      assert FoundIds(ranked, m) == FoundIds(ranked, m - 1) + {id};
      if RelOf(relevant, id) > 0 {
        assert id !in FoundIds(ranked, m - 1);
        JudgedGrows(relevant, FoundIds(ranked, m - 1), id, v);
      } else {
        assert Judged(relevant, FoundIds(ranked, m), v) == Judged(relevant, FoundIds(ranked, m - 1), v);
      }
    }
  }

  lemma SubsetCount(a: set<int>, b: set<int>)
    requires a <= b
    ensures |a| <= |b|
  {
    assert b == a + (b - a);
  }

  lemma FoundIsPartOfIdeal(ranked: seq<RankedDoc>, relevant: map<int, int>, k: int, m: nat)
    requires m <= |ranked| && m <= k && NoRepeats(ranked, relevant, k)
    ensures multiset(Found(ranked, relevant, m)) <= multiset(Ideal(relevant))
  {
    forall v ensures multiset(Found(ranked, relevant, m))[v] <= multiset(Ideal(relevant))[v] {
      FoundCounts(ranked, relevant, k, m, v);
      SubsetCount(Judged(relevant, FoundIds(ranked, m), v), Judged(relevant, relevant.Keys, v));
    }
  }

  ghost function GainSum(s: seq<int>): real {
    if s == [] then 0.0 else Gain(s[0]) + GainSum(s[1..])
  }

  lemma {:induction false} GainSumAppend(s: seq<int>, v: int)
    ensures GainSum(s + [v]) == GainSum(s) + Gain(v)
    decreases |s|
  {
    if s == [] {
      assert s + [v] == [v];
    } else {
      assert (s + [v])[1..] == s[1..] + [v];
      GainSumAppend(s[1..], v);
    }
  }

  lemma {:induction false} GainSumWithout(s: seq<int>, i: nat)
    requires i < |s|
    ensures GainSum(s) == Gain(s[i]) + GainSum(s[..i] + s[i + 1..])
    decreases i
  {
    if i == 0 {
      assert s[..0] + s[1..] == s[1..];
    } else {
      GainSumWithout(s[1..], i - 1);
      var t := s[..i] + s[i + 1..];
      assert t[1..] == s[1..][..i - 1] + s[1..][i..];
    }
  }

  lemma GainIsMonotone(a: int, b: int)
    requires a <= b
    ensures 0.0 <= Gain(a) <= Gain(b)
  {
    if 0 <= a < b { GainIncreases(a, b); }
    if a < 0 < b { GainIncreases(0, b); }
  }

  lemma Without(r: seq<int>, ideal: seq<int>, i: nat)
    requires i < |r| && ideal != [] && multiset(r) <= multiset(ideal) && SortedDesc(ideal)
    requires ideal[0] in r ==> r[i] == ideal[0]
    ensures multiset(r[..i] + r[i + 1..]) <= multiset(ideal[1..]) && r[i] <= ideal[0]
  {
    var rest := r[..i] + r[i + 1..];
    assert multiset(r) == multiset(rest) + multiset{r[i]} by {
      assert r == r[..i] + [r[i]] + r[i + 1..];
    }
    DropHead(ideal);
    assert r[i] in multiset(ideal);
    forall v ensures multiset(rest)[v] <= multiset(ideal[1..])[v] {
      if v == ideal[0] && ideal[0] !in r { assert v !in multiset(r); }
    }
  }

  // Any part of a sorted list gains at most what the top of the list gains.
  lemma {:induction false} TopGainsMost(r: seq<int>, ideal: seq<int>)
    requires SortedDesc(ideal) && multiset(r) <= multiset(ideal)
    ensures |r| <= |ideal| && GainSum(r) <= GainSum(ideal[..|r|])
    decreases |ideal|
  {
    if r != [] {
      assert r[0] in multiset(ideal);
      var i: nat := 0;
      if ideal[0] in r { i :| 0 <= i < |r| && r[i] == ideal[0]; }
      Without(r, ideal, i);
      var rest := r[..i] + r[i + 1..];
      TopGainsMost(rest, ideal[1..]);
      GainSumWithout(r, i);
      GainIsMonotone(r[i], ideal[0]);
      assert ideal[..|r|][1..] == ideal[1..][..|rest|];
    }
  }

  // ---------- gains rank by rank ----------

  lemma {:induction false} TotalFound(ranked: seq<RankedDoc>, relevant: map<int, int>, k: int, m: nat)
    requires m <= |ranked| && m <= k
    ensures Total(RankedGain(ranked, relevant, k), m) == GainSum(Found(ranked, relevant, m))
  {
    if m > 0 {
      TotalFound(ranked, relevant, k, m - 1);
      GainSumAppend(Found(ranked, relevant, m - 1), RelOf(relevant, ranked[m - 1].id));
    }
  }

  lemma {:induction false} TotalIdeal(ideal: seq<int>, k: int, m: nat, p: nat)
    requires p <= m <= k && p <= |ideal|
    ensures Total(IdealGain(ideal, k), m) >= GainSum(ideal[..p])
    decreases m
  {
    if p > 0 && p == m {
      TotalIdeal(ideal, k, m - 1, p - 1);
      assert ideal[..p] == ideal[..p - 1] + [ideal[p - 1]];
      GainSumAppend(ideal[..p - 1], ideal[p - 1]);
    } else if m > 0 {
      TotalIdeal(ideal, k, m - 1, p);
      if m - 1 < |ideal| { GainIsMonotone(0, if ideal[m - 1] < 0 then 0 else ideal[m - 1]); }
    }
  }

  lemma IdealMajorizes(ranked: seq<RankedDoc>, relevant: map<int, int>, k: int, n: nat)
    requires n <= |ranked| && n <= k && NoRepeats(ranked, relevant, k)
    ensures Majorizes(IdealGain(Ideal(relevant), k), RankedGain(ranked, relevant, k), n)
  {
    forall m: nat | m <= n
      ensures Total(RankedGain(ranked, relevant, k), m) <= Total(IdealGain(Ideal(relevant), k), m) {
      TotalFound(ranked, relevant, k, m);
      FoundIsPartOfIdeal(ranked, relevant, k, m);
      TopGainsMost(Found(ranked, relevant, m), Ideal(relevant));
      TotalIdeal(Ideal(relevant), k, m, |Found(ranked, relevant, m)|);
    }
  }

  lemma IdealIsPositive(relevant: map<int, int>, i: nat)
    requires i < |Ideal(relevant)|
    ensures Ideal(relevant)[i] > 0 && Gain(Ideal(relevant)[i]) > 0.0
  {
    var v := Ideal(relevant)[i];
    assert v in multiset(Ideal(relevant));
    var holders := Judged(relevant, relevant.Keys, v);
    NonEmpty(holders);
    var id :| id in holders;
    GainIncreases(0, v);
  }

  // The ideal gains discounted: longer cuts only add, and nothing is added past the end of the list.
  lemma {:induction false} IdealGrows(relevant: map<int, int>, k: int, d: nat -> real, n: nat, m: nat)
    requires Discount(d) && n <= m
    ensures var h := IdealGain(Ideal(relevant), k);
            && Discounted(h, d, n) <= Discounted(h, d, m)
            && (n < m && n < k && n < |Ideal(relevant)| ==> Discounted(h, d, n) < Discounted(h, d, m))
            && (|Ideal(relevant)| <= n || k <= n ==> Discounted(h, d, n) == Discounted(h, d, m))
    decreases m
  {
    if n < m {
      IdealGrows(relevant, k, d, n, m - 1);
      var h := IdealGain(Ideal(relevant), k);
      if m - 1 < k && m - 1 < |Ideal(relevant)| {
        IdealIsPositive(relevant, m - 1);
        assert d(m - 1) > 0.0;
        assert h(m - 1) / d(m - 1) > 0.0;
      } else {
        assert h(m - 1) == 0.0;
      }
    }
  }

  lemma RankedGainIsNonNegative(ranked: seq<RankedDoc>, relevant: map<int, int>, k: int, i: nat)
    ensures RankedGain(ranked, relevant, k)(i) >= 0.0
  {
    if i < k && i < |ranked| {
      var rel := RelOf(relevant, ranked[i].id);
      if rel > 0 { GainIsMonotone(0, rel); }
    }
  }

  lemma {:induction false} RankedGrows(ranked: seq<RankedDoc>, relevant: map<int, int>, k: int,
                                       d: nat -> real, n: nat, m: nat)
    requires Discount(d) && n <= m
    ensures var g := RankedGain(ranked, relevant, k); Discounted(g, d, n) <= Discounted(g, d, m)
    decreases m
  {
    if n < m {
      RankedGrows(ranked, relevant, k, d, n, m - 1);
      RankedGainIsNonNegative(ranked, relevant, k, m - 1);
      assert d(m - 1) > 0.0;
      assert RankedGain(ranked, relevant, k)(m - 1) / d(m - 1) >= 0.0;
    }
  }

  lemma {:induction false} SameGainsSameScore(g: nat -> real, h: nat -> real, d: nat -> real, n: nat)
    requires Discount(d) && forall i: nat :: i < n ==> g(i) == h(i)
    ensures Discounted(g, d, n) == Discounted(h, d, n)
  {
    if n > 0 { SameGainsSameScore(g, h, d, n - 1); }
  }
}
