/** Ranking metrics. Scores are real numbers; the discount log2(i + 2) is any positive increasing
    sequence `d`. */
module Metrics {
  import opened Sets

  datatype RankedDoc = RankedDoc(id: int, host: string)

  function Min(a: int, b: int): int {
    if a < b then a else b
  }

  function Pow2(n: nat): (r: nat)
    ensures r >= 1
  {
    if n == 0 then 1 else 2 * Pow2(n - 1)
  }

  // 2^rel - 1; the source calls it for positive grades only.
  function Gain(rel: int): real {
    if rel <= 0 then 0.0 else Pow2(rel) as real - 1.0
  }

  function RelOf(relevant: map<int, int>, id: int): int {
    if id in relevant then relevant[id] else 0
  }

  lemma {:induction false} GainIncreases(a: int, b: int)
    requires 0 <= a < b
    ensures Gain(a) < Gain(b) && 0.0 <= Gain(a)
    decreases b
  {
    if a + 1 < b {
      GainIncreases(a, b - 1);
    }
  }

  // ---------- sorting ----------

  ghost predicate SortedDesc(s: seq<int>) {
    forall i, j :: 0 <= i < j < |s| ==> s[i] >= s[j]
  }

  // The prefix of length i with its next element moved down to place h.
  function Inserted(s: seq<int>, i: nat, h: nat): seq<int>
    requires h <= i < |s|
  {
    s[..h] + [s[i]] + s[h..i] + s[i + 1..]
  }

  lemma InsertedKeepsElements(s: seq<int>, i: nat, h: nat)
    requires h <= i < |s|
    ensures multiset(Inserted(s, i, h)) == multiset(s)
  {
    assert s == s[..h] + s[h..i] + [s[i]] + s[i + 1..];
  }

  lemma InsertedSorts(s: seq<int>, i: nat, h: nat)
    requires h <= i < |s|
    requires forall p, q :: 0 <= p < q < i ==> s[p] >= s[q]
    requires h > 0 ==> s[h - 1] >= s[i]
    requires h < i ==> s[h] < s[i]
    ensures forall p, q :: 0 <= p < q <= i ==> Inserted(s, i, h)[p] >= Inserted(s, i, h)[q]
  {
    var t := Inserted(s, i, h);
    forall p | 0 <= p <= i ensures t[p] == if p < h then s[p] else if p == h then s[i] else s[p - 1] {}
  }

  lemma InsertedIsSorted(s: seq<int>, i: nat, h: nat)
    requires h <= i < |s| && SortedDesc(s[..i])
    requires h > 0 ==> s[h - 1] >= s[i]
    requires h < i ==> s[h] < s[i]
    ensures SortedDesc(Inserted(s, i, h)[..i + 1]) && multiset(Inserted(s, i, h)) == multiset(s)
  {
    forall p, q | 0 <= p < q < i ensures s[p] >= s[q] {
      assert s[..i][p] >= s[..i][q];
    }
    InsertedSorts(s, i, h);
    InsertedKeepsElements(s, i, h);
  }

  // Shifts the smaller elements of the prefix of length i right; the gap is left at h.
  method ShiftRight(values: array<int>, i: nat) returns (h: nat)
    requires i < values.Length
    modifies values
    ensures h <= i
    ensures var s, v := old(values[..]), old(values[i]);
            (h > 0 ==> s[h - 1] >= v) && (h < i ==> s[h] < v)
    ensures forall p :: 0 <= p < h || i < p < values.Length ==> values[p] == old(values[p])
    ensures forall p :: h <= p < i ==> values[p + 1] == old(values[p])
  {
    var v := values[i];
    var j := i - 1;
    while j >= 0 && values[j] < v
      invariant -1 <= j < i
      invariant j + 1 < i ==> old(values[j + 1]) < v
      invariant forall p :: 0 <= p <= j || i < p < values.Length ==> values[p] == old(values[p])
      invariant forall p :: j + 1 <= p < i ==> values[p + 1] == old(values[p])
    {
      values[j + 1] := values[j];
      j := j - 1;
    }
    h := j + 1;
  }

  // One round of the outer loop of sortDesc.
  method InsertNext(values: array<int>, i: nat) returns (h: nat)
    requires i < values.Length
    modifies values
    ensures h <= i
    ensures var s := old(values[..]);
            && (h > 0 ==> s[h - 1] >= s[i]) && (h < i ==> s[h] < s[i])
            && values[..] == Inserted(s, i, h)
  {
    var v := values[i];
    h := ShiftRight(values, i);
    values[h] := v;
    ghost var s := old(values[..]);
    ghost var t := Inserted(s, i, h);
    assert forall p :: 0 <= p < h ==> values[p] == t[p];
    assert forall p :: h < p <= i ==> values[p] == old(values[p - 1]) && t[p] == s[p - 1] by {
      forall p | h < p <= i ensures values[p] == old(values[p - 1]) && t[p] == s[p - 1] {
        assert values[(p - 1) + 1] == old(values[p - 1]);
      }
    }
    assert forall p :: i < p < |s| ==> values[p] == t[p];
  }

  /** sortDesc: insertion sort in place. */
  method SortDesc(values: array<int>)
    modifies values
    ensures SortedDesc(values[..])
    ensures multiset(values[..]) == multiset(old(values[..]))
  {
    var i := 1;
    while i < values.Length
      invariant 1 <= i
      invariant SortedDesc(values[..Min(i, values.Length)])
      invariant multiset(values[..]) == multiset(old(values[..]))
    {
      ghost var s := values[..];
      assert s[..i] == values[..i];
      var h := InsertNext(values, i);
      InsertedIsSorted(s, i, h);
      i := i + 1;
    }
    assert values[..Min(i, values.Length)] == values[..];
  }

  // ---------- the ideal ranking ----------

  ghost function Judged(relevant: map<int, int>, ids: set<int>, v: int): set<int> {
    set id | id in ids && id in relevant && relevant[id] == v && v > 0
  }

  // The positive grades of the judged documents among ids, best first.
  ghost predicate GradesOf(s: seq<int>, relevant: map<int, int>, ids: set<int>) {
    SortedDesc(s) && forall v :: multiset(s)[v] == |Judged(relevant, ids, v)|
  }

  lemma SameHead(a: seq<int>, b: seq<int>)
    requires SortedDesc(a) && SortedDesc(b) && multiset(a) == multiset(b) && a != []
    ensures b != [] && a[0] == b[0]
  {
    assert a[0] in multiset(b);
    assert b[0] in multiset(a);
  }

  lemma DropHead(a: seq<int>)
    requires a != []
    ensures multiset(a[1..]) == multiset(a) - multiset{a[0]}
  {
    assert a == [a[0]] + a[1..];
  }

  lemma {:induction false} SortedIsUnique(a: seq<int>, b: seq<int>)
    requires SortedDesc(a) && SortedDesc(b) && multiset(a) == multiset(b)
    ensures a == b
    decreases |a|
  {
    if a == [] {
      assert |multiset(b)| == 0;
    } else {
      SameHead(a, b);
      DropHead(a);
      DropHead(b);
      SortedIsUnique(a[1..], b[1..]);
      assert a == [a[0]] + a[1..] && b == [b[0]] + b[1..];
    }
  }

  function InsertDesc(s: seq<int>, v: int): seq<int>
    decreases |s|
  {
    if s == [] || s[0] <= v then [v] + s else [s[0]] + InsertDesc(s[1..], v)
  }

  lemma {:induction false} InsertDescElements(s: seq<int>, v: int)
    ensures multiset(InsertDesc(s, v)) == multiset(s) + multiset{v}
    decreases |s|
  {
    if s != [] && s[0] > v {
      InsertDescElements(s[1..], v);
      assert s == [s[0]] + s[1..];
    }
  }

  lemma {:induction false} InsertDescSorts(s: seq<int>, v: int, bound: int)
    requires SortedDesc(s) && v <= bound && forall i :: 0 <= i < |s| ==> s[i] <= bound
    ensures SortedDesc(InsertDesc(s, v)) && forall i :: 0 <= i < |InsertDesc(s, v)| ==> InsertDesc(s, v)[i] <= bound
    decreases |s|
  {
    if s != [] && s[0] > v {
      InsertDescSorts(s[1..], v, s[0]);
    }
  }

  lemma JudgedGrows(relevant: map<int, int>, ids: set<int>, id: int, v: int)
    requires id !in ids && id in relevant
    ensures |Judged(relevant, ids + {id}, v)|
            == |Judged(relevant, ids, v)| + (if relevant[id] == v && v > 0 then 1 else 0)
  {
    if relevant[id] == v && v > 0 {
      assert Judged(relevant, ids + {id}, v) == Judged(relevant, ids, v) + {id};
    } else {
      assert Judged(relevant, ids + {id}, v) == Judged(relevant, ids, v);
    }
  }

  // The grade of one more document goes to its place.
  lemma OneMoreGrade(relevant: map<int, int>, ids: set<int>, id: int, s: seq<int>) returns (t: seq<int>)
    requires id !in ids && id in relevant && GradesOf(s, relevant, ids)
    ensures GradesOf(t, relevant, ids + {id})
  {
    t := if relevant[id] > 0 then InsertDesc(s, relevant[id]) else s;
    InsertDescElements(s, relevant[id]);
    InsertDescSorts(s, relevant[id], if s == [] || s[0] < relevant[id] then relevant[id] else s[0]);
    forall v ensures multiset(t)[v] == |Judged(relevant, ids + {id}, v)| {
      JudgedGrows(relevant, ids, id, v);
    }
  }

  lemma {:induction false} GradesExist(relevant: map<int, int>, ids: set<int>)
    requires ids <= relevant.Keys
    ensures exists s :: GradesOf(s, relevant, ids)
    decreases |ids|
  {
    if ids == {} {
      forall v ensures Judged(relevant, ids, v) == {} {}
      assert GradesOf([], relevant, ids);
    } else {
      NonEmpty(ids);
      var id :| id in ids;
      var rest := ids - {id};
      GradesExist(relevant, rest);
      var s :| GradesOf(s, relevant, rest);
      var t := OneMoreGrade(relevant, rest, id, s);
      assert rest + {id} == ids;
    }
  }

  // The positive grades of the judged documents, best first.
  ghost function Ideal(relevant: map<int, int>): (s: seq<int>)
    ensures GradesOf(s, relevant, relevant.Keys)
  {
    GradesExist(relevant, relevant.Keys);
    var s :| GradesOf(s, relevant, relevant.Keys);
    s
  }

  // ---------- discounted gain ----------

  // Gain at each rank, zero where there is none.
  function RankedGain(ranked: seq<RankedDoc>, relevant: map<int, int>, k: int): nat -> real {
    (i: nat) => if i < k && i < |ranked| then Gain(RelOf(relevant, ranked[i].id)) else 0.0
  }

  function IdealGain(ideal: seq<int>, k: int): nat -> real {
    (i: nat) => if i < k && i < |ideal| then Gain(ideal[i]) else 0.0
  }

  function Discounted(g: nat -> real, d: nat -> real, n: nat): real
    requires forall i: nat :: d(i) > 0.0
  {
    if n == 0 then 0.0 else Discounted(g, d, n - 1) + g(n - 1) / d(n - 1)
  }

  ghost function Ndcg(ranked: seq<RankedDoc>, relevant: map<int, int>, k: int, d: nat -> real): real
    requires forall i: nat :: d(i) > 0.0
  {
    if k <= 0 || |relevant| == 0 then 0.0
    else
      var dcg := Discounted(RankedGain(ranked, relevant, k), d, Min(k, |ranked|));
      var idcg := Discounted(IdealGain(Ideal(relevant), k), d, Min(k, |Ideal(relevant)|));
      if idcg == 0.0 then 0.0 else dcg / idcg
  }

  // The positive grades in the order the map yields them.
  method PositiveGrades(relevant: map<int, int>) returns (list: seq<int>)
    ensures forall v :: multiset(list)[v] == |Judged(relevant, relevant.Keys, v)|
  {
    list := [];
    var todo := relevant.Keys;
    while todo != {}
      invariant todo <= relevant.Keys
      invariant forall v :: multiset(list)[v] == |Judged(relevant, relevant.Keys - todo, v)|
      decreases |todo|
    {
      NonEmpty(todo);
      var id :| id in todo;
      ghost var done := relevant.Keys - todo;
      forall v ensures |Judged(relevant, done + {id}, v)|
                       == |Judged(relevant, done, v)| + (if relevant[id] == v && v > 0 then 1 else 0) {
        JudgedGrows(relevant, done, id, v);
      }
      if relevant[id] > 0 { list := list + [relevant[id]]; }
      todo := todo - {id};
      assert relevant.Keys - todo == done + {id};
    }
    assert relevant.Keys - todo == relevant.Keys;
  }

  // The slice `ideal` after sortDesc.
  method SortedGrades(relevant: map<int, int>) returns (ideal: array<int>)
    ensures fresh(ideal) && ideal[..] == Ideal(relevant)
  {
    var list := PositiveGrades(relevant);
    ideal := new int[|list|](i requires 0 <= i < |list| => list[i]);
    assert ideal[..] == list;
    SortDesc(ideal);
    SortedIsUnique(ideal[..], Ideal(relevant));
  }

  /** NDCGAt as the source computes it: any enumeration of the map gives the same score. */
  method NDCGAt(ranked: seq<RankedDoc>, relevant: map<int, int>, k: int, d: nat -> real) returns (score: real)
    requires forall i: nat :: d(i) > 0.0
    ensures score == Ndcg(ranked, relevant, k, d)
  {
    if k <= 0 || |relevant| == 0 { return 0.0; }
    var limit := Min(k, |ranked|);
    var dcg := 0.0;
    for i := 0 to limit
      invariant dcg == Discounted(RankedGain(ranked, relevant, k), d, i)
    {
      var rel := RelOf(relevant, ranked[i].id);
      if rel > 0 { dcg := dcg + Gain(rel) / d(i); }
    }
    var ideal := SortedGrades(relevant);
    var cut := Min(k, ideal.Length);
    var idcg := 0.0;
    for i := 0 to cut
      invariant idcg == Discounted(IdealGain(Ideal(relevant), k), d, i)
    {
      assert ideal[i] == ideal[..][i];
      idcg := idcg + Gain(ideal[i]) / d(i);
    }
    if idcg == 0.0 { return 0.0; }
    return dcg / idcg;
  }

  // ---------- reciprocal rank, recall, duplicate hosts ----------

  predicate Hit(ranked: seq<RankedDoc>, relevant: map<int, int>, i: nat)
    requires i < |ranked|
  {
    RelOf(relevant, ranked[i].id) > 0
  }

  ghost predicate FirstHit(ranked: seq<RankedDoc>, relevant: map<int, int>, i: nat)
    requires i < |ranked|
  {
    Hit(ranked, relevant, i) && forall j :: 0 <= j < i ==> !Hit(ranked, relevant, j)
  }

  lemma DivideBack(a: int, b: nat)
    requires b > 0
    ensures a as real / b as real * b as real == a as real
    ensures a > 0 ==> a as real / b as real > 0.0
  {
  }

  /** MRR: the reciprocal of the first relevant rank, zero exactly when there is none. */
  method MRR(ranked: seq<RankedDoc>, relevant: map<int, int>) returns (score: real)
    ensures score == 0.0 <==> forall i :: 0 <= i < |ranked| ==> !Hit(ranked, relevant, i)
    ensures forall i: nat :: i < |ranked| && FirstHit(ranked, relevant, i) ==> score * (i + 1) as real == 1.0
  {
    for i := 0 to |ranked|
      invariant forall j :: 0 <= j < i ==> !Hit(ranked, relevant, j)
    {
      if Hit(ranked, relevant, i) {
        DivideBack(1, i + 1);
        return 1.0 / (i + 1) as real;
      }
    }
    return 0.0;
  }

  ghost function RelevantIds(relevant: map<int, int>): set<int> {
    set id | id in relevant && relevant[id] > 0
  }

  ghost function IdsIn(ranked: seq<RankedDoc>): set<int> {
    set i | 0 <= i < |ranked| :: ranked[i].id
  }

  method CountRelevant(relevant: map<int, int>) returns (total: nat)
    ensures total == |RelevantIds(relevant)|
  {
    total := 0;
    var todo := relevant.Keys;
    ghost var done := {};
    while todo != {}
      invariant todo <= relevant.Keys
      invariant done == RelevantIds(relevant) - todo && total == |done|
      decreases |todo|
    {
      NonEmpty(todo);
      var id :| id in todo;
      if relevant[id] > 0 {
        total := total + 1;
        done := done + {id};
      }
      todo := todo - {id};
    }
    assert done == RelevantIds(relevant);
  }

  // What another document adds to the relevant ones seen.
  lemma HitsGrow(seen: set<int>, relevant: map<int, int>, id: int)
    ensures (seen + {id}) * RelevantIds(relevant)
            == seen * RelevantIds(relevant) + (if RelOf(relevant, id) > 0 then {id} else {})
  {
  }

  // The distinct relevant documents among the first `limit` ranks.
  method CountFound(ranked: seq<RankedDoc>, relevant: map<int, int>, limit: nat) returns (found: nat)
    requires limit <= |ranked|
    ensures found == |IdsIn(ranked[..limit]) * RelevantIds(relevant)|
  {
    var seen: set<int> := {};
    ghost var hits: set<int> := {};
    found := 0;
    for i := 0 to limit
      invariant seen == IdsIn(ranked[..i])
      invariant hits == seen * RelevantIds(relevant) && found == |hits|
    {
      var id := ranked[i].id;
      IdsGrow(ranked, i);
      HitsGrow(seen, relevant, id);
      if id !in seen {
        seen := seen + {id};
        if RelOf(relevant, id) > 0 {
          found := found + 1;
          hits := hits + {id};
        }
      } else {
        assert seen + {id} == seen;
      }
    }
  }

  /** RecallAt: the share of the relevant documents that appear in the first k ranks, each counted once. */
  method RecallAt(ranked: seq<RankedDoc>, relevant: map<int, int>, k: int) returns (score: real)
    ensures score == if k <= 0 || RelevantIds(relevant) == {} then 0.0
                     else |IdsIn(ranked[..Min(k, |ranked|)]) * RelevantIds(relevant)| as real
                          / |RelevantIds(relevant)| as real
  {
    if k <= 0 { return 0.0; }
    var total := CountRelevant(relevant);
    if total == 0 { return 0.0; }
    var found := CountFound(ranked, relevant, Min(k, |ranked|));
    score := found as real / total as real;
  }

  lemma IdsGrow(ranked: seq<RankedDoc>, i: nat)
    requires i < |ranked|
    ensures IdsIn(ranked[..i + 1]) == IdsIn(ranked[..i]) + {ranked[i].id}
  {
    forall id | id in IdsIn(ranked[..i]) ensures id in IdsIn(ranked[..i + 1]) {
      var j :| 0 <= j < i && ranked[..i][j].id == id;
      assert ranked[..i + 1][j].id == id;
    }
    assert ranked[..i + 1][i].id == ranked[i].id;
    forall id | id in IdsIn(ranked[..i + 1]) ensures id in IdsIn(ranked[..i]) + {ranked[i].id} {
      var j :| 0 <= j < i + 1 && ranked[..i + 1][j].id == id;
      if j < i { assert ranked[..i][j].id == id; }
    }
  }

  ghost function HostsIn(ranked: seq<RankedDoc>): set<string> {
    if ranked == [] then {}
    else HostsIn(ranked[..|ranked| - 1]) + (if ranked[|ranked| - 1].host == "" then {} else {ranked[|ranked| - 1].host})
  }

  ghost function Hosted(ranked: seq<RankedDoc>): nat {
    if ranked == [] then 0
    else Hosted(ranked[..|ranked| - 1]) + (if ranked[|ranked| - 1].host == "" then 0 else 1)
  }

  lemma LastOf<T>(s: seq<T>, i: nat)
    requires i < |s|
    ensures s[..i + 1][..|s[..i + 1]| - 1] == s[..i] && s[..i + 1][|s[..i + 1]| - 1] == s[i]
  {
  }

  lemma HostsGrow(ranked: seq<RankedDoc>, i: nat)
    requires i < |ranked|
    ensures var host := ranked[i].host;
            && HostsIn(ranked[..i + 1]) == HostsIn(ranked[..i]) + (if host == "" then {} else {host})
            && Hosted(ranked[..i + 1]) == Hosted(ranked[..i]) + (if host == "" then 0 else 1)
  {
    LastOf(ranked, i);
  }

  // The hosts of the first i documents, and how many of these are not the first of their host.
  ghost predicate CountedTo(ranked: seq<RankedDoc>, i: nat, hosts: set<string>, duplicates: nat)
    requires i <= |ranked|
  {
    hosts == HostsIn(ranked[..i]) && duplicates == Hosted(ranked[..i]) - |hosts|
  }

  lemma CountHost(ranked: seq<RankedDoc>, i: nat, hosts: set<string>, duplicates: nat)
    requires i < |ranked| && CountedTo(ranked, i, hosts, duplicates)
    ensures var host := ranked[i].host;
            CountedTo(ranked, i + 1, if host == "" then hosts else hosts + {host},
                      duplicates + if host != "" && host in hosts then 1 else 0)
  {
    HostsGrow(ranked, i);
    var host := ranked[i].host;
    if host in hosts { assert hosts + {host} == hosts; }
  }

  method CountDuplicates(ranked: seq<RankedDoc>, limit: nat) returns (duplicates: nat)
    requires limit <= |ranked|
    ensures duplicates == Hosted(ranked[..limit]) - |HostsIn(ranked[..limit])|
  {
    var counts: map<string, nat> := map[];
    duplicates := 0;
    for i := 0 to limit
      invariant CountedTo(ranked, i, counts.Keys, duplicates)
      invariant forall h :: h in counts ==> counts[h] >= 1
    {
      CountHost(ranked, i, counts.Keys, duplicates);
      var host := ranked[i].host;
      if host != "" {
        var count := (if host in counts then counts[host] else 0) + 1;
        counts := counts[host := count];
        if count > 1 { duplicates := duplicates + 1; }
      }
    }
  }

  /** DuplicateHostRateAt: the documents with a host that are not the first of their host, over the cut. */
  method DuplicateHostRateAt(ranked: seq<RankedDoc>, k: int) returns (rate: real)
    ensures rate == if k <= 0 || ranked == [] then 0.0
                    else var top := ranked[..Min(k, |ranked|)];
                         (Hosted(top) - |HostsIn(top)|) as real / |top| as real
  {
    if k <= 0 || |ranked| == 0 { return 0.0; }
    var limit := Min(k, |ranked|);
    var duplicates := CountDuplicates(ranked, limit);
    rate := duplicates as real / limit as real;
  }
}
