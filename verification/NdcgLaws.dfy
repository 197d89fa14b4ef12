/** NDCG is normalised: against the sorted grades no ranking without repeats scores above one, and only
    the ideal order scores one. */
module NdcgLaws {
  import opened Metrics
  import opened MetricsBounds
  import opened Sets

  // What is earned is at most the ideal earned over as many ranks, which is at most the full ideal.
  lemma ScoresInOrder(ranked: seq<RankedDoc>, relevant: map<int, int>, k: nat, d: nat -> real)
    requires NoRepeats(ranked, relevant, k) && Discount(d)
    ensures var g, h, n := RankedGain(ranked, relevant, k), IdealGain(Ideal(relevant), k), Min(k, |ranked|);
            && 0.0 <= Discounted(g, d, n) <= Discounted(h, d, n)
            && Discounted(h, d, n) <= Discounted(h, d, Min(k, |Ideal(relevant)|))
  {
    var g, h := RankedGain(ranked, relevant, k), IdealGain(Ideal(relevant), k);
    var n, cut := Min(k, |ranked|), Min(k, |Ideal(relevant)|);
    RankedGrows(ranked, relevant, k, d, 0, n);
    IdealMajorizes(ranked, relevant, k, n);
    if n > 0 {
      GapUnderDiscount(g, h, d, n - 1);
      assert Total(g, n) <= Total(h, n);
      assert d(n - 1) > 0.0;
      assert (Total(h, n) - Total(g, n)) / d(n - 1) >= 0.0;
    }
    if n <= cut { IdealGrows(relevant, k, d, n, cut); } else { IdealGrows(relevant, k, d, cut, n); }
  }

  lemma IdealScore(relevant: map<int, int>, k: nat, d: nat -> real)
    requires Discount(d)
    ensures var idcg := Discounted(IdealGain(Ideal(relevant), k), d, Min(k, |Ideal(relevant)|));
            idcg >= 0.0 && (idcg == 0.0 <==> k == 0 || Ideal(relevant) == [])
  {
    IdealGrows(relevant, k, d, 0, Min(k, |Ideal(relevant)|));
  }

  lemma NoGradesNoIdeal(relevant: map<int, int>)
    requires |relevant| == 0
    ensures Ideal(relevant) == []
  {
    assert relevant == map[];
    forall v ensures Judged(relevant, relevant.Keys, v) == {} {}
    assert GradesOf([], relevant, relevant.Keys);
    SortedIsUnique([], Ideal(relevant));
  }

  lemma Share(part: real, whole: real)
    requires 0.0 <= part <= whole && whole > 0.0
    ensures 0.0 <= part / whole <= 1.0
  {
  }

  /** A ranking that repeats no judged document scores between zero and one. */
  lemma NdcgIsNormalised(ranked: seq<RankedDoc>, relevant: map<int, int>, k: int, d: nat -> real)
    requires NoRepeats(ranked, relevant, k) && Discount(d)
    ensures 0.0 <= Ndcg(ranked, relevant, k, d) <= 1.0
  {
    if k > 0 && |relevant| > 0 {
      var dcg := Discounted(RankedGain(ranked, relevant, k), d, Min(k, |ranked|));
      var idcg := Discounted(IdealGain(Ideal(relevant), k), d, Min(k, |Ideal(relevant)|));
      assert 0.0 <= dcg <= idcg by { ScoresInOrder(ranked, relevant, k, d); }
      if idcg != 0.0 { Share(dcg, idcg); }
    }
  }

  // The first k ranks hold the best grades, in order.
  ghost predicate IdealOrder(ranked: seq<RankedDoc>, relevant: map<int, int>, k: int) {
    forall i :: 0 <= i < Min(k, |Ideal(relevant)|) ==>
                  i < |ranked| && RelOf(relevant, ranked[i].id) == Ideal(relevant)[i]
  }

  lemma SameGainSameGrade(a: int, b: int)
    requires b > 0 && Gain(a) == Gain(b)
    ensures a == b
  {
    GainIncreases(0, b);
    if 0 <= a < b { GainIncreases(a, b); }
    if b < a { GainIncreases(b, a); }
  }

  lemma TotalsMeet(g: nat -> real, h: nat -> real, d: nat -> real, n: nat)
    requires n > 0 && Discount(d) && Majorizes(h, g, n) && Discounted(h, d, n) == Discounted(g, d, n)
    ensures Total(g, n) == Total(h, n)
  {
    GapUnderDiscount(g, h, d, n - 1);
    assert Total(g, n) <= Total(h, n);
    assert d(n - 1) > 0.0;
    var q := (Total(h, n) - Total(g, n)) / d(n - 1);
    assert q * d(n - 1) == Total(h, n) - Total(g, n) && q <= 0.0;
  }

  lemma PerfectMeansSameTotals(ranked: seq<RankedDoc>, relevant: map<int, int>, k: nat, d: nat -> real)
    requires NoRepeats(ranked, relevant, k) && StrictDiscount(d)
    requires Discounted(RankedGain(ranked, relevant, k), d, Min(k, |ranked|))
             == Discounted(IdealGain(Ideal(relevant), k), d, Min(k, |Ideal(relevant)|)) > 0.0
    ensures Min(k, |Ideal(relevant)|) <= Min(k, |ranked|)
    ensures forall m: nat :: m <= Min(k, |ranked|) ==>
              Total(RankedGain(ranked, relevant, k), m) == Total(IdealGain(Ideal(relevant), k), m)
  {
    var g, h := RankedGain(ranked, relevant, k), IdealGain(Ideal(relevant), k);
    var n, cut := Min(k, |ranked|), Min(k, |Ideal(relevant)|);
    ScoresInOrder(ranked, relevant, k, d);
    IdealMajorizes(ranked, relevant, k, n);
    if n < cut { IdealGrows(relevant, k, d, n, cut); }
    TotalsMeet(g, h, d, n);
    NoGapNoDifference(g, h, d, n - 1);
  }

  lemma SameTotalsSameGain(g: nat -> real, h: nat -> real, i: nat)
    requires Total(g, i) == Total(h, i) && Total(g, i + 1) == Total(h, i + 1)
    ensures g(i) == h(i)
  {
  }

  lemma PerfectMeansIdealOrder(ranked: seq<RankedDoc>, relevant: map<int, int>, k: nat, d: nat -> real)
    requires NoRepeats(ranked, relevant, k) && StrictDiscount(d)
    requires Discounted(RankedGain(ranked, relevant, k), d, Min(k, |ranked|))
             == Discounted(IdealGain(Ideal(relevant), k), d, Min(k, |Ideal(relevant)|)) > 0.0
    ensures IdealOrder(ranked, relevant, k)
  {
    PerfectMeansSameTotals(ranked, relevant, k, d);
    forall i | 0 <= i < Min(k, |Ideal(relevant)|)
      ensures i < |ranked| && RelOf(relevant, ranked[i].id) == Ideal(relevant)[i] {
      SameTotalsSameGain(RankedGain(ranked, relevant, k), IdealGain(Ideal(relevant), k), i);
      IdealIsPositive(relevant, i);
      SameGainSameGrade(RelOf(relevant, ranked[i].id), Ideal(relevant)[i]);
    }
  }

  lemma IdealOrderIsPerfect(ranked: seq<RankedDoc>, relevant: map<int, int>, k: nat, d: nat -> real)
    requires NoRepeats(ranked, relevant, k) && Discount(d) && IdealOrder(ranked, relevant, k)
    ensures Discounted(RankedGain(ranked, relevant, k), d, Min(k, |ranked|))
            == Discounted(IdealGain(Ideal(relevant), k), d, Min(k, |Ideal(relevant)|))
  {
    var g, h := RankedGain(ranked, relevant, k), IdealGain(Ideal(relevant), k);
    var n, cut := Min(k, |ranked|), Min(k, |Ideal(relevant)|);
    ScoresInOrder(ranked, relevant, k, d);
    assert cut > 0 ==> cut - 1 < |ranked|;
    SameGainsSameScore(g, h, d, cut);
    RankedGrows(ranked, relevant, k, d, cut, n);
  }

  /** Exactly the ideal order scores one. */
  lemma OnlyIdealOrderIsPerfect(ranked: seq<RankedDoc>, relevant: map<int, int>, k: int, d: nat -> real)
    requires NoRepeats(ranked, relevant, k) && StrictDiscount(d)
    ensures Ndcg(ranked, relevant, k, d) == 1.0
            <==> k > 0 && Ideal(relevant) != [] && IdealOrder(ranked, relevant, k)
  {
    if k > 0 && |relevant| > 0 {
      ScoresInOrder(ranked, relevant, k, d);
      IdealScore(relevant, k, d);
      if Ideal(relevant) != [] {
        RatioToOne(Discounted(IdealGain(Ideal(relevant), k), d, Min(k, |Ideal(relevant)|)),
                   Discounted(RankedGain(ranked, relevant, k), d, Min(k, |ranked|)));
      }
      if Ndcg(ranked, relevant, k, d) == 1.0 {
        PerfectMeansIdealOrder(ranked, relevant, k, d);
      }
      if IdealOrder(ranked, relevant, k) && Ideal(relevant) != [] {
        IdealOrderIsPerfect(ranked, relevant, k, d);
      }
    } else if k > 0 {
      NoGradesNoIdeal(relevant);
    }
  }

  lemma IdealOfOne(id: int, grade: int)
    requires grade > 0
    ensures Ideal(map[id := grade]) == [grade]
  {
    var relevant := map[id := grade];
    forall v ensures multiset([grade])[v] == |Judged(relevant, relevant.Keys, v)| {
      assert Judged(relevant, relevant.Keys, v) == if v == grade then {id} else {};
    }
    assert GradesOf([grade], relevant, relevant.Keys);
    SortedIsUnique([grade], Ideal(relevant));
  }

  lemma RatioToOne(x: real, y: real)
    requires x > 0.0
    ensures y > x ==> y / x > 1.0
    ensures y / x == 1.0 <==> y == x
  {
    var z := y / x;
    assert z * x == y;
    assert (z - 1.0) * x == y - x;
    PositiveFactor(z - 1.0, x);
  }

  /** Counting one relevant document twice lifts the score above one. */
  lemma RepeatsExceedOne(doc: RankedDoc, grade: int, d: nat -> real)
    requires grade > 0 && Discount(d)
    ensures Ndcg([doc, doc], map[doc.id := grade], 2, d) > 1.0
  {
    var relevant := map[doc.id := grade];
    IdealOfOne(doc.id, grade);
    var g, h := RankedGain([doc, doc], relevant, 2), IdealGain([grade], 2);
    GainIncreases(0, grade);
    assert d(0) > 0.0 && d(1) > 0.0;
    assert g(0) == g(1) == h(0) == Gain(grade);
    assert Discounted(h, d, 1) == Discounted(h, d, 0) + h(0) / d(0);
    assert Discounted(g, d, 2) == Discounted(g, d, 1) + g(1) / d(1);
    assert Discounted(g, d, 1) == Discounted(g, d, 0) + g(0) / d(0);
    RatioToOne(Gain(grade) / d(0), Gain(grade) / d(0) + Gain(grade) / d(1));
  }
}
