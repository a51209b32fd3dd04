/** Search relevance metrics over exact reals (backend/ai_intelligence/evaluators.py). */
module SearchMetrics {
  import opened Common

  /** A metric argument: a list (already rendered as strings), or something else. */
  datatype Output = Listed(items: seq<string>) | NotAList

  function ToSet(items: seq<string>): set<string> {
    set x | x in items
  }

  function Hits(relevant: set<string>, xs: seq<string>): nat {
    if xs == [] then 0
    else Hits(relevant, xs[..|xs| - 1]) + if xs[|xs| - 1] in relevant then 1 else 0
  }

  function PrecisionAtK(actual: Output, expected: Output, k: nat): real {
    if actual.NotAList? || expected.NotAList? then 0.0
    else
      var retrieved := Take(actual.items, k);
      if retrieved == [] then 0.0 else Hits(ToSet(expected.items), retrieved) as real / |retrieved| as real
  }

  function RecallAtK(actual: Output, expected: Output, k: nat): real {
    if actual.NotAList? || expected.NotAList? then 0.0
    else
      var relevant := ToSet(expected.items);
      if relevant == {} then 1.0 else Hits(relevant, Take(actual.items, k)) as real / |relevant| as real
  }

  /** A positive, strictly decreasing rank discount, such as 1 / log2(i + 2). */
  ghost predicate Discount(disc: nat -> real) {
    && (forall i: nat :: disc(i) > 0.0)
    && (forall i: nat, j: nat :: i < j ==> disc(i) > disc(j))
  }

  function Dcg(disc: nat -> real, relevant: set<string>, xs: seq<string>): real {
    if xs == [] then 0.0
    else Dcg(disc, relevant, xs[..|xs| - 1]) + if xs[|xs| - 1] in relevant then disc(|xs| - 1) else 0.0
  }

  /** The DCG of m relevant results in a row. */
  function Ideal(disc: nat -> real, m: nat): real {
    if m == 0 then 0.0 else Ideal(disc, m - 1) + disc(m - 1)
  }

  function Ndcg(disc: nat -> real, actual: Output, expected: Output, k: nat): real {
    if actual.NotAList? || expected.NotAList? then 0.0
    else
      var relevant := ToSet(expected.items);
      if relevant == {} then 1.0
      else
        var ideal := Ideal(disc, Min(k, |relevant|));
        if ideal == 0.0 then 0.0 else Dcg(disc, relevant, Take(actual.items, k)) / ideal
  }

  function RelevanceScore(disc: nat -> real, actual: Output, expected: Output): real {
    0.4 * PrecisionAtK(actual, expected, 5) + 0.3 * RecallAtK(actual, expected, 5)
      + 0.3 * Ndcg(disc, actual, expected, 10)
  }

  /** `_mrr`: 1 / rank of the first relevant result. */
  method MeanReciprocalRank(actual: Output, expected: Output) returns (mrr: real)
    ensures actual.NotAList? || expected.NotAList? ==> mrr == 0.0
    ensures actual.Listed? && expected.Listed? && expected.items == [] ==> mrr == 1.0
    ensures actual.Listed? && expected.Listed? && expected.items != [] ==>
      if forall i :: 0 <= i < |actual.items| ==> actual.items[i] !in expected.items then mrr == 0.0
      else exists i :: 0 <= i < |actual.items| && actual.items[i] in expected.items
             && (forall j :: 0 <= j < i ==> actual.items[j] !in expected.items) && mrr == 1.0 / (i + 1) as real
  {
    if actual.NotAList? || expected.NotAList? { return 0.0; }
    var relevant := ToSet(expected.items);
    if expected.items == [] { return 1.0; }
    var i := 0;
    while i < |actual.items|
      invariant i <= |actual.items|
      invariant forall j :: 0 <= j < i ==> actual.items[j] !in expected.items
    {
      if actual.items[i] in relevant {
        return 1.0 / (i + 1) as real;
      }
      i := i + 1;
    }
    mrr := 0.0;
  }

  // ---------------------------------------------------------------- hits

  lemma {:induction false} HitsAtMostLength(relevant: set<string>, xs: seq<string>)
    ensures Hits(relevant, xs) <= |xs|
  {
    if xs != [] {
      HitsAtMostLength(relevant, xs[..|xs| - 1]);
    }
  }

  predicate Distinct(xs: seq<string>) {
    forall i, j :: 0 <= i < j < |xs| ==> xs[i] != xs[j]
  }

  lemma {:induction false} DistinctHits(relevant: set<string>, xs: seq<string>)
    requires Distinct(xs)
    ensures Hits(relevant, xs) == |set x | x in xs && x in relevant|
    ensures Hits(relevant, xs) <= |relevant|
  {
    var found := set x | x in xs && x in relevant;
    if xs == [] {
      assert found == {};
    } else {
      var last := xs[|xs| - 1];
      var before := xs[..|xs| - 1];
      DistinctHits(relevant, before);
      assert found == (set x | x in before && x in relevant) + if last in relevant then {last} else {};
      assert last !in before;
    }
    SubsetSize(found, relevant);
  }

  lemma {:induction false} SubsetSize(a: set<string>, b: set<string>)
    requires a <= b
    ensures |a| <= |b|
  {
    if a != {} {
      var x :| x in a;
      SubsetSize(a - {x}, b - {x});
    }
  }

  /** The hits are exactly the first results. */
  predicate Packed(relevant: set<string>, xs: seq<string>) {
    forall i :: 0 <= i < |xs| ==> (xs[i] in relevant <==> i < Hits(relevant, xs))
  }

  lemma {:induction false} PackedPrefix(relevant: set<string>, xs: seq<string>)
    requires xs != []
    ensures var before := xs[..|xs| - 1];
      Packed(relevant, xs) <==>
        Packed(relevant, before) && (xs[|xs| - 1] in relevant ==> Hits(relevant, before) == |before|)
  {
    var n := |xs| - 1;
    var before := xs[..n];
    HitsAtMostLength(relevant, before);
    if Packed(relevant, xs) {
      forall i | 0 <= i < n ensures before[i] in relevant <==> i < Hits(relevant, before) {
        assert before[i] == xs[i];
      }
      if xs[n] in relevant {
        assert n < Hits(relevant, xs);
      }
    } else {
      var i :| 0 <= i < |xs| && !(xs[i] in relevant <==> i < Hits(relevant, xs));
      if i < n {
        assert before[i] == xs[i];
      }
    }
  }

  // ---------------------------------------------------------------- DCG against the ideal

  lemma {:induction false} IdealGrows(disc: nat -> real, m: nat, n: nat)
    requires Discount(disc) && m <= n
    ensures 0.0 <= Ideal(disc, m) <= Ideal(disc, n)
    ensures m < n ==> Ideal(disc, m) < Ideal(disc, n)
  {
    if n > 0 {
      IdealGrows(disc, if m == n then m - 1 else m, n - 1);
    }
  }

  /** However the relevant set is listed, its DCG is the ideal one. */
  lemma {:induction false} ListingIsIdeal(disc: nat -> real, relevant: set<string>, listing: seq<string>)
    requires forall x :: x in listing ==> x in relevant
    ensures Dcg(disc, relevant, listing) == Ideal(disc, |listing|)
  {
    if listing != [] {
      ListingIsIdeal(disc, relevant, listing[..|listing| - 1]);
    }
  }

  /** Results are worth at most as much as their hits in front, and exactly that only when the hits are in front. */
  lemma {:induction false} DcgAtMostIdeal(disc: nat -> real, relevant: set<string>, xs: seq<string>)
    requires Discount(disc)
    ensures 0.0 <= Dcg(disc, relevant, xs) <= Ideal(disc, Hits(relevant, xs))
    ensures Dcg(disc, relevant, xs) == Ideal(disc, Hits(relevant, xs)) <==> Packed(relevant, xs)
  {
    if xs != [] {
      var before := xs[..|xs| - 1];
      DcgAtMostIdeal(disc, relevant, before);
      HitsAtMostLength(relevant, before);
      PackedPrefix(relevant, xs);
    }
  }

  /** The first min(k, |relevant|) results exist and are relevant. */
  predicate PerfectTop(relevant: set<string>, xs: seq<string>, m: nat) {
    m <= |xs| && forall i :: 0 <= i < m ==> xs[i] in relevant
  }

  lemma {:induction false} PrefixHits(relevant: set<string>, xs: seq<string>, m: nat)
    requires PerfectTop(relevant, xs, m)
    ensures Hits(relevant, xs) >= m
  {
    if |xs| > m {
      PrefixHits(relevant, xs[..|xs| - 1], m);
    } else if m > 0 {
      PrefixHits(relevant, xs[..|xs| - 1], m - 1);
    }
  }

  lemma {:induction false} FullPrefixIsPacked(relevant: set<string>, xs: seq<string>)
    requires PerfectTop(relevant, xs, Hits(relevant, xs))
    ensures Packed(relevant, xs)
  {
    if xs != [] {
      var before := xs[..|xs| - 1];
      HitsAtMostLength(relevant, before);
      PackedPrefix(relevant, xs);
      if xs[|xs| - 1] in relevant {
        assert Hits(relevant, xs) == Hits(relevant, before) + 1;
        FullPrefixIsPacked(relevant, before);
        if Hits(relevant, before) < |before| {
          PrefixHits(relevant, before, Hits(relevant, before) + 1);
        }
      } else {
        assert Hits(relevant, xs) <= |before|;
        FullPrefixIsPacked(relevant, before);
      }
    }
  }

  lemma DivideByPositive(a: real, b: real)
    requires b > 0.0
    ensures a <= b ==> a / b <= 1.0
    ensures 0.0 <= a ==> 0.0 <= a / b
    ensures a > b ==> a / b > 1.0
    ensures a / b == 1.0 <==> a == b
  {
    assert a / b * b == a;
  }

  /**
   * NDCG is a true normalisation as long as the top k hold no more hits than there are relevant
   * items, which duplicate-free results guarantee: it lies in [0, 1], and is 1 exactly for a
   * perfect top.
   */
  lemma NdcgIsNormalised(disc: nat -> real, actual: seq<string>, expected: seq<string>, k: nat)
    requires Discount(disc) && k >= 1 && expected != []
    requires Hits(ToSet(expected), Take(actual, k)) <= |ToSet(expected)|
    ensures 0.0 <= Ndcg(disc, Listed(actual), Listed(expected), k) <= 1.0
    ensures Ndcg(disc, Listed(actual), Listed(expected), k) == 1.0
      <==> PerfectTop(ToSet(expected), Take(actual, k), Min(k, |ToSet(expected)|))
  {
    var relevant := ToSet(expected);
    var xs := Take(actual, k);
    assert expected[0] in relevant;
    var m := Min(k, |relevant|);
    var h := Hits(relevant, xs);
    HitsAtMostLength(relevant, xs);
    DcgAtMostIdeal(disc, relevant, xs);
    IdealGrows(disc, h, m);
    IdealGrows(disc, 0, m);
    DivideByPositive(Dcg(disc, relevant, xs), Ideal(disc, m));
    if PerfectTop(relevant, xs, m) {
      PrefixHits(relevant, xs, m);
      FullPrefixIsPacked(relevant, xs);
    }
  }

  /** A discount so flat that one extra hit outweighs it. */
  function Flat(c: real): nat -> real {
    (i: nat) => 1.0 + c / (i + 1) as real
  }

  lemma FlatIsDiscount(c: real)
    requires c > 0.0
    ensures Discount(Flat(c))
  {
    forall i: nat, j: nat | i < j ensures Flat(c)(i) > Flat(c)(j) {
      SmallerShare(c, i + 1, j + 1);
    }
  }

  lemma SmallerShare(c: real, a: nat, b: nat)
    requires c > 0.0 && 0 < a < b
    ensures c / a as real > c / b as real > 0.0
  {
    var x, y := c / a as real, c / b as real;
    assert x * a as real == c && y * b as real == c;
    assert x > 0.0 && y > 0.0;
    assert y * b as real > y * a as real;
  }

  lemma {:induction false} FlatGain(c: real, relevant: set<string>, xs: seq<string>)
    requires c > 0.0
    ensures Dcg(Flat(c), relevant, xs) >= Hits(relevant, xs) as real
  {
    if xs != [] {
      FlatGain(c, relevant, xs[..|xs| - 1]);
      FlatTerm(c, |xs| - 1);
    }
  }

  lemma {:induction false} FlatIdeal(c: real, m: nat)
    requires c > 0.0
    ensures Ideal(Flat(c), m) <= m as real + m as real * c
  {
    if m > 0 {
      FlatIdeal(c, m - 1);
      FlatTerm(c, m - 1);
      assert m as real * c == (m - 1) as real * c + c;
    }
  }

  lemma FlatTerm(c: real, i: nat)
    requires c > 0.0
    ensures 1.0 < Flat(c)(i) <= 1.0 + c
  {
    var x := c / (i + 1) as real;
    assert x * (i + 1) as real == c;
    assert x > 0.0;
    if i > 0 {
      SmallerShare(c, 1, i + 1);
    }
  }

  lemma SmallShare(d: real)
    requires d > 0.0
    ensures 1.0 / d > 0.0
    ensures (d - 1.0) * (1.0 / d) < 1.0
  {
    var c := 1.0 / d;
    assert c * d == 1.0;
    assert (d - 1.0) * c == d * c - c;
  }

  /** A flat discount under which m + 1 hits are worth more than the m best places. */
  function Flattened(m: nat): nat -> real {
    Flat(1.0 / (m + 1) as real)
  }

  lemma FlatOutweighs(relevant: set<string>, xs: seq<string>, m: nat)
    requires Hits(relevant, xs) > m
    ensures Dcg(Flattened(m), relevant, xs) > Ideal(Flattened(m), m)
  {
    var d := (m + 1) as real;
    var c := 1.0 / d;
    SmallShare(d);
    FlatGain(c, relevant, xs);
    FlatIdeal(c, m);
    assert m as real == d - 1.0;
    assert Hits(relevant, xs) as real >= d;
    hide *;
  }

  lemma FlatExceeds(relevant: set<string>, xs: seq<string>, m: nat)
    requires m >= 1 && Hits(relevant, xs) > m
    ensures Discount(Flattened(m))
    ensures Dcg(Flattened(m), relevant, xs) > Ideal(Flattened(m), m) > 0.0
  {
    hide Dcg, Hits, Flat, Ideal;
    SmallShare((m + 1) as real);
    FlatIsDiscount(1.0 / (m + 1) as real);
    FlatOutweighs(relevant, xs, m);
    IdealGrows(Flattened(m), 0, m);
    assert Ideal(Flattened(m), 0) >= 0.0;
  }

  /**
   * For any one discount: results whose hits come first score above 1 exactly when repeats make them
   * outnumber the relevant items.
   */
  lemma PackedNdcgBoundedIff(disc: nat -> real, actual: seq<string>, expected: seq<string>, k: nat)
    requires Discount(disc) && k >= 1 && expected != []
    requires Packed(ToSet(expected), Take(actual, k))
    ensures Ndcg(disc, Listed(actual), Listed(expected), k) <= 1.0
      <==> Hits(ToSet(expected), Take(actual, k)) <= |ToSet(expected)|
  {
    var relevant, xs := ToSet(expected), Take(actual, k);
    assert expected[0] in relevant;
    var m, h := Min(k, |relevant|), Hits(relevant, xs);
    HitsAtMostLength(relevant, xs);
    DcgAtMostIdeal(disc, relevant, xs);
    IdealGrows(disc, 0, m);
    if h <= m {
      IdealGrows(disc, h, m);
    } else {
      IdealGrows(disc, m, h);
    }
    DivideByPositive(Dcg(disc, relevant, xs), Ideal(disc, m));
  }

  /** The smallest case, under every discount: one relevant item returned twice. */
  lemma RepeatedHitExceedsOne(disc: nat -> real, k: nat)
    requires Discount(disc) && k >= 2
    ensures Ndcg(disc, Listed(["a", "a"]), Listed(["a"]), k) > 1.0
  {
    var relevant, xs := ToSet(["a"]), Take(["a", "a"], k);
    assert relevant == {"a"} && xs == ["a", "a"];
    assert xs[..1] == ["a"] && xs[..1][..0] == [];
    assert Hits(relevant, ["a"]) == 1 && Hits(relevant, xs) == 2;
    PackedNdcgBoundedIff(disc, ["a", "a"], ["a"], k);
  }

  /**
   * Over all discounts at once, with hits anywhere: the bound holds for every discount exactly when hits
   * do not outnumber the relevant items.
   */
  lemma NdcgBoundedIff(actual: seq<string>, expected: seq<string>, k: nat)
    requires k >= 1 && expected != []
    ensures (forall disc: nat -> real | Discount(disc) :: Ndcg(disc, Listed(actual), Listed(expected), k) <= 1.0)
      <==> Hits(ToSet(expected), Take(actual, k)) <= |ToSet(expected)|
  {
    var relevant := ToSet(expected);
    var xs := Take(actual, k);
    assert expected[0] in relevant;
    if Hits(relevant, xs) <= |relevant| {
      forall disc: nat -> real | Discount(disc) ensures Ndcg(disc, Listed(actual), Listed(expected), k) <= 1.0 {
        NdcgIsNormalised(disc, actual, expected, k);
      }
    } else {
      HitsAtMostLength(relevant, xs);
      FlatExceeds(relevant, xs, |relevant|);
      var disc := Flattened(|relevant|);
      DivideByPositive(Dcg(disc, relevant, xs), Ideal(disc, |relevant|));
      assert Discount(disc) && Ndcg(disc, Listed(actual), Listed(expected), k) > 1.0;
    }
  }

  lemma FractionOf(a: nat, b: nat)
    requires a <= b && b > 0
    ensures 0.0 <= a as real / b as real <= 1.0
  {
    DivideByPositive(a as real, b as real);
  }

  /** For duplicate-free results precision, recall and NDCG are fractions, and so is their weighted relevance score. */
  lemma RelevanceScoreIsAFraction(disc: nat -> real, actual: Output, expected: Output)
    requires Discount(disc) && (actual.Listed? ==> Distinct(actual.items))
    ensures 0.0 <= RelevanceScore(disc, actual, expected) <= 1.0
  {
    if actual.Listed? && expected.Listed? {
      var relevant := ToSet(expected.items);
      var top5, top10 := Take(actual.items, 5), Take(actual.items, 10);
      HitsAtMostLength(relevant, top5);
      DistinctHits(relevant, top5);
      DistinctHits(relevant, top10);
      if top5 != [] {
        FractionOf(Hits(relevant, top5), |top5|);
      }
      if expected.items != [] {
        assert expected.items[0] in relevant;
        FractionOf(Hits(relevant, top5), |relevant|);
        NdcgIsNormalised(disc, actual.items, expected.items, 10);
      } else {
        assert relevant == {};
      }
    }
  }

  // ---------------------------------------------------------------- what the parts and their weights mean

  /** A share of n things, as their number. */
  function OutOf(share: real, n: nat): real {
    share * n as real
  }

  lemma ShareOf(a: nat, n: nat)
    requires n > 0
    ensures OutOf(a as real / n as real, n) == a as real
  {
  }

  lemma SharesAre(actual: seq<string>, expected: seq<string>, k: nat)
    requires ToSet(expected) != {}
    ensures var top, relevant := Take(actual, k), ToSet(expected);
      && (top != [] ==>
            PrecisionAtK(Listed(actual), Listed(expected), k) == Hits(relevant, top) as real / |top| as real)
      && RecallAtK(Listed(actual), Listed(expected), k) == Hits(relevant, top) as real / |relevant| as real
  {
  }

  /**
   * Of duplicate-free results, precision is the share of the first k, and recall that of the relevant
   * items, that the two have in common.
   */
  lemma SharesInCommon(actual: seq<string>, expected: seq<string>, k: nat)
    requires Distinct(actual) && expected != []
    ensures var top := Take(actual, k);
      var common := |set x | x in top && x in expected| as real;
      && (top != [] ==> OutOf(PrecisionAtK(Listed(actual), Listed(expected), k), |top|) == common)
      && OutOf(RecallAtK(Listed(actual), Listed(expected), k), |ToSet(expected)|) == common
  {
    hide PrecisionAtK, RecallAtK, Hits, OutOf;
    var top, relevant := Take(actual, k), ToSet(expected);
    assert expected[0] in relevant;
    DistinctHits(relevant, top);
    assert (set x | x in top && x in expected) == (set x | x in top && x in relevant);
    SharesAre(actual, expected, k);
    if top != [] {
      ShareOf(Hits(relevant, top), |top|);
    }
    ShareOf(Hits(relevant, top), |relevant|);
  }

  lemma {:induction false} NothingHit(relevant: set<string>, xs: seq<string>)
    requires forall i :: 0 <= i < |xs| ==> xs[i] !in relevant
    ensures Hits(relevant, xs) == 0
  {
    if xs != [] {
      NothingHit(relevant, xs[..|xs| - 1]);
    }
  }

  /** With nothing expected, recall and NDCG count in full and precision not at all: 0.6, whatever was returned. */
  lemma NothingExpectedScores(disc: nat -> real, actual: seq<string>)
    ensures RelevanceScore(disc, Listed(actual), Listed([])) == 0.6
  {
    assert ToSet([]) == {};
    NothingHit({}, Take(actual, 5));
  }

  /** An output that is no list scores nothing, whatever was expected, and so does any against no list. */
  lemma NoListScoresNothing(disc: nat -> real, actual: Output, expected: Output)
    requires actual.NotAList? || expected.NotAList?
    ensures RelevanceScore(disc, actual, expected) == 0.0
    ensures Ndcg(disc, actual, expected, 0) == 0.0
  {
  }

  /** Without a hit among the first five, only NDCG over the first ten counts, at 0.3. */
  lemma LateHitsScore(disc: nat -> real, actual: seq<string>, expected: seq<string>)
    requires expected != [] && forall i :: 0 <= i < |actual| && i < 5 ==> actual[i] !in expected
    ensures RelevanceScore(disc, Listed(actual), Listed(expected))
         == 0.3 * Ndcg(disc, Listed(actual), Listed(expected), 10)
  {
    assert expected[0] in ToSet(expected);
    NothingHit(ToSet(expected), Take(actual, 5));
  }

  lemma {:induction false} EveryHitCounts(relevant: set<string>, xs: seq<string>)
    ensures Hits(relevant, xs) == |xs| <==> forall i :: 0 <= i < |xs| ==> xs[i] in relevant
  {
    HitsAtMostLength(relevant, xs);
    if xs != [] {
      var before := xs[..|xs| - 1];
      HitsAtMostLength(relevant, before);
      EveryHitCounts(relevant, before);
      if forall i :: 0 <= i < |before| ==> before[i] in relevant {
        assert forall i :: 0 <= i < |before| ==> xs[i] in relevant;
      } else {
        var i :| 0 <= i < |before| && before[i] !in relevant;
        assert xs[i] !in relevant;
      }
    }
  }

  lemma {:induction false} ProperSubsetIsSmaller(a: set<string>, b: set<string>)
    requires a <= b
    ensures |a| == |b| <==> a == b
  {
    if x :| x in b && x !in a {
      SubsetSize(a, b - {x});
    }
  }

  lemma FullSharesIff(actual: seq<string>, expected: seq<string>, k: nat)
    requires Distinct(actual) && expected != []
    ensures var top, relevant := Take(actual, k), ToSet(expected);
      var p, r := PrecisionAtK(Listed(actual), Listed(expected), k), RecallAtK(Listed(actual), Listed(expected), k);
      && p <= 1.0 && r <= 1.0
      && (top != [] && p == 1.0 && r == 1.0 <==> ToSet(top) == relevant)
      && (top == [] ==> p == 0.0)
  {
    hide Hits;
    var top, relevant := Take(actual, k), ToSet(expected);
    var hits := Hits(relevant, top);
    assert expected[0] in relevant;
    DistinctHits(relevant, top);
    HitsAtMostLength(relevant, top);
    SharesAre(actual, expected, k);
    assert top == [] ==> PrecisionAtK(Listed(actual), Listed(expected), k) == 0.0;
    hide PrecisionAtK, RecallAtK;
    EveryHitCounts(relevant, top);
    var common := set x | x in top && x in relevant;
    ProperSubsetIsSmaller(common, relevant);
    DivideByPositive(hits as real, |relevant| as real);
    if top != [] {
      DivideByPositive(hits as real, |top| as real);
    }
    SameSetIff(top, relevant);
  }

  lemma WholeScoreIff(p: real, r: real, n: real)
    requires p <= 1.0 && r <= 1.0 && n <= 1.0
    ensures 0.4 * p + 0.3 * r + 0.3 * n == 1.0 <==> p == 1.0 && r == 1.0 && n == 1.0
  {
  }

  /** Duplicate-free results score 1 exactly when their first five are the relevant items, all of them and no others. */
  lemma ScoreIsOneIff(disc: nat -> real, actual: seq<string>, expected: seq<string>)
    requires Discount(disc) && Distinct(actual) && expected != []
    ensures RelevanceScore(disc, Listed(actual), Listed(expected)) == 1.0
      <==> ToSet(Take(actual, 5)) == ToSet(expected)
  {
    hide PrecisionAtK, RecallAtK, Ndcg, Hits;
    var relevant, top, top10 := ToSet(expected), Take(actual, 5), Take(actual, 10);
    FullSharesIff(actual, expected, 5);
    DistinctHits(relevant, top10);
    NdcgIsNormalised(disc, actual, expected, 10);
    WholeScoreIff(PrecisionAtK(Listed(actual), Listed(expected), 5), RecallAtK(Listed(actual), Listed(expected), 5),
      Ndcg(disc, Listed(actual), Listed(expected), 10));
    if ToSet(top) == relevant {
      DistinctSize(top);
      assert forall i :: 0 <= i < |top| ==> top10[i] == top[i];
    }
  }

  lemma {:induction false} DistinctSize(xs: seq<string>)
    requires Distinct(xs)
    ensures |ToSet(xs)| == |xs|
  {
    if xs == [] {
      assert ToSet(xs) == {};
    } else {
      var before, last := xs[..|xs| - 1], xs[|xs| - 1];
      DistinctSize(before);
      assert ToSet(xs) == ToSet(before) + {last} && last !in ToSet(before);
    }
  }

  lemma SameSetIff(xs: seq<string>, relevant: set<string>)
    requires relevant != {}
    ensures ToSet(xs) == relevant <==>
      && xs != [] && (forall i :: 0 <= i < |xs| ==> xs[i] in relevant)
      && (set x | x in xs && x in relevant) == relevant
  {
  }
}
