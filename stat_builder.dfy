/** The ability-score step of the character builder: point buy against a 27-point budget,
    the standard array, and free +/- editing on the standard and manual tabs. */
module StatBuilder {

  import opened Abilities
  import opened Numbers

  const PointBudget: int := 27
  const BaseScore: int := 8
  const MaxPointBuyScore: int := 15
  /** The cost reported for a score above 15, which point buy never reaches. */
  const InvalidCost: int := 99
  /** Lowest and highest score the free-edit buttons of the standard and manual tabs allow. */
  const FreeMin: int := 1
  const FreeMax: int := 20

  /** The standard array, in the order the default distribution assigns it (str .. cha). */
  const StandardArray: seq<int> := [15, 14, 13, 12, 10, 8]

  /** `getPointCost`. Between 8 and 15 every point above 8 costs one, and every point
      above 13 costs one more; below 8 nothing is charged, above 15 the sentinel 99. */
  function PointCost(score: int): (c: int)
    ensures score < BaseScore ==> c == 0
    ensures BaseScore <= score <= MaxPointBuyScore ==> c == (score - 8) + Max(0, score - 13)
    ensures score > MaxPointBuyScore ==> c == InvalidCost
  {
    if score < 8 then 0
    else if score == 8 then 0
    else if score == 9 then 1
    else if score == 10 then 2
    else if score == 11 then 3
    else if score == 12 then 4
    else if score == 13 then 5
    else if score == 14 then 7
    else if score == 15 then 9
    else 99
  }

  /** Within point-buy range a higher score never costs less, and each step up costs 1 or 2. */
  lemma PointCostIncreasing(a: int, b: int)
    requires BaseScore <= a < b <= MaxPointBuyScore
    ensures PointCost(a) < PointCost(b)
    ensures b == a + 1 ==> 1 <= PointCost(b) - PointCost(a) <= 2
  {
  }

  /** The sum of `PointCost` over a sequence of scores. */
  function SumCosts(vs: seq<int>): int
  {
    if |vs| == 0 then 0 else PointCost(vs[0]) + SumCosts(vs[1..])
  }

  /** The cost of a concatenation is the sum of the costs of its parts. */
  lemma {:induction false} SumCostsAppend(a: seq<int>, b: seq<int>)
    ensures SumCosts(a + b) == SumCosts(a) + SumCosts(b)
  {
    if |a| > 0 {
      assert (a + b)[1..] == a[1..] + b;
      SumCostsAppend(a[1..], b);
    } else {
      assert a + b == b;
    }
  }

  /** The points a score record uses up. */
  function TotalCost(s: Stats): int
  {
    SumCosts(s.Values())
  }

  /** The total is the cost of each of the six scores, added up. */
  lemma TotalCostOfSix(s: Stats)
    ensures TotalCost(s) == PointCost(s.strength) + PointCost(s.dexterity)
                            + PointCost(s.constitution) + PointCost(s.intelligence)
                            + PointCost(s.wisdom) + PointCost(s.charisma)
  {
    var ch := [s.charisma];
    var wi := [s.wisdom] + ch;
    var it := [s.intelligence] + wi;
    var co := [s.constitution] + it;
    var de := [s.dexterity] + co;
    assert s.Values() == [s.strength] + de;
    assert SumCosts(ch) == PointCost(s.charisma) by { assert ch[1..] == []; }
    assert SumCosts(wi) == PointCost(s.wisdom) + SumCosts(ch) by { assert wi[1..] == ch; }
    assert SumCosts(it) == PointCost(s.intelligence) + SumCosts(wi) by { assert it[1..] == wi; }
    assert SumCosts(co) == PointCost(s.constitution) + SumCosts(it) by { assert co[1..] == it; }
    assert SumCosts(de) == PointCost(s.dexterity) + SumCosts(co) by { assert de[1..] == co; }
    assert ([s.strength] + de)[1..] == de;
  }

  /** Replacing one score changes the total by exactly the difference of the two costs. */
  lemma TotalCostWith(s: Stats, a: Ability, v: int)
    ensures TotalCost(s.With(a, v)) == TotalCost(s) - PointCost(s.Get(a)) + PointCost(v)
  {
    TotalCostOfSix(s);
    TotalCostOfSix(s.With(a, v));
  }

  /** `calculateUsedPoints`: the `forEach` over `Object.values(stats)`. */
  method CalculateUsedPoints(stats: Stats) returns (total: int)
    ensures total == TotalCost(stats)
  {
    var values := stats.Values();
    total := 0;
    var i := 0;
    while i < |values|
      invariant 0 <= i <= |values|
      invariant total == SumCosts(values[..i])
    {
      assert values[..i + 1] == values[..i] + [values[i]];
      SumCostsAppend(values[..i], [values[i]]);
      total := total + PointCost(values[i]);
      i := i + 1;
    }
    assert values[..i] == values;
  }

  /** Every score lies in [lo, hi]. */
  predicate ScoresIn(s: Stats, lo: int, hi: int)
  {
    forall a: Ability :: lo <= s.Get(a) <= hi
  }

  /** Replacing one score by an in-range value keeps every score in range. */
  lemma WithKeepsScoresIn(s: Stats, a: Ability, v: int, lo: int, hi: int)
    requires ScoresIn(s, lo, hi) && lo <= v <= hi
    ensures ScoresIn(s.With(a, v), lo, hi)
  {
  }

  /** The point-buy invariant: every score in [8,15] and at most 27 points used. */
  predicate PointBuyValid(s: Stats)
  {
    ScoresIn(s, BaseScore, MaxPointBuyScore) && TotalCost(s) <= PointBudget
  }

  /** What `handlePointBuy` does with a request, with the reason when it declines. */
  datatype PointBuyOutcome = Accepted(stats: Stats) | OutOfRange | OverBudget

  /** `handlePointBuy(a, delta)`, as a transition: it declines a score outside [8,15]
      first, then a change that would take the used points above 27, and otherwise
      replaces the one score. */
  function PointBuy(s: Stats, a: Ability, delta: int): (o: PointBuyOutcome)
    ensures o.OutOfRange? <==> !(BaseScore <= s.Get(a) + delta <= MaxPointBuyScore)
    ensures o.OverBudget? <==> BaseScore <= s.Get(a) + delta <= MaxPointBuyScore
                               && TotalCost(s) + (PointCost(s.Get(a) + delta) - PointCost(s.Get(a))) > PointBudget
    ensures o.Accepted? ==> o.stats.Get(a) == s.Get(a) + delta
                            && forall b :: b != a ==> o.stats.Get(b) == s.Get(b)
    ensures o.Accepted? ==> TotalCost(o.stats) <= PointBudget
    ensures o.Accepted? && ScoresIn(s, BaseScore, MaxPointBuyScore) ==> PointBuyValid(o.stats)
  {
    var current := s.Get(a);
    var next := current + delta;
    if next < 8 || next > 15 then OutOfRange
    else
      var costDiff := PointCost(next) - PointCost(current);
      if TotalCost(s) + costDiff > 27 then OverBudget
      else
        TotalCostWith(s, a, next);
        Accepted(s.With(a, next))
  }

  /** The state after a request: the new record, or the old one when it was declined. */
  function AfterPointBuy(s: Stats, a: Ability, delta: int): Stats
  {
    match PointBuy(s, a, delta)
    case Accepted(t) => t
    case _ => s
  }

  /** Any run of point-buy requests keeps the point-buy invariant. */
  lemma {:induction false} PointBuySequenceKeepsInvariant(s: Stats, requests: seq<(Ability, int)>)
    requires PointBuyValid(s)
    ensures PointBuyValid(AfterPointBuys(s, requests))
    decreases |requests|
  {
    if |requests| > 0 {
      var (a, d) := requests[0];
      PointBuySequenceKeepsInvariant(AfterPointBuy(s, a, d), requests[1..]);
    }
  }

  /** The record after a sequence of `handlePointBuy` calls. */
  function AfterPointBuys(s: Stats, requests: seq<(Ability, int)>): Stats
    decreases |requests|
  {
    if |requests| == 0 then s
    else AfterPointBuys(AfterPointBuy(s, requests[0].0, requests[0].1), requests[1..])
  }

  /** Raising a 15 and lowering an 8 are always declined. */
  lemma BoundaryMovesDeclined(s: Stats, a: Ability)
    ensures s.Get(a) == MaxPointBuyScore ==> PointBuy(s, a, 1) == OutOfRange
    ensures s.Get(a) == BaseScore ==> PointBuy(s, a, -1) == OutOfRange
  {
  }

  /** The `disabled` test of the point-buy "-" button. */
  predicate MinusDisabled(s: Stats, a: Ability)
  {
    s.Get(a) <= 8
  }

  /** The `disabled` test of the point-buy "+" button. */
  predicate PlusDisabled(s: Stats, a: Ability)
  {
    s.Get(a) >= 15 || 27 - TotalCost(s) < PointCost(s.Get(a) + 1) - PointCost(s.Get(a))
  }

  /** From a score of 7 up, the "+" button is disabled exactly when `handlePointBuy`
      would decline the raise. */
  lemma PlusDisabledIffDeclined(s: Stats, a: Ability)
    requires s.Get(a) >= BaseScore - 1
    ensures PlusDisabled(s, a) <==> !PointBuy(s, a, 1).Accepted?
  {
  }

  /** Under the point-buy invariant, the "-" button is disabled exactly when
      `handlePointBuy` would decline the decrease. */
  lemma MinusDisabledIffDeclined(s: Stats, a: Ability)
    requires PointBuyValid(s)
    ensures MinusDisabled(s, a) <==> !PointBuy(s, a, -1).Accepted?
  {
    if s.Get(a) > BaseScore {
      PointCostIncreasing(s.Get(a) - 1, s.Get(a));
    }
  }

  /** `resetToBase`'s record: all eight, no point used. */
  function BaseStats(): (s: Stats)
    ensures forall a :: s.Get(a) == BaseScore
    ensures TotalCost(s) == 0 && PointBuyValid(s)
  {
    TotalCostOfSix(Uniform(8));
    Uniform(8)
  }

  /** `applyStandardArray`'s record. It spends the whole budget and is a point-buy
      record in its own right; its scores are the standard array, in order. */
  function StandardArrayStats(): (s: Stats)
    ensures s.Values() == StandardArray
    ensures TotalCost(s) == PointBudget && PointBuyValid(s)
  {
    TotalCostOfSix(Stats(15, 14, 13, 12, 10, 8));
    Stats(15, 14, 13, 12, 10, 8)
  }

  /** The score the "-" button of the standard and manual tabs stores. */
  function FreeDecrease(v: int): (r: int)
    ensures r >= FreeMin
    ensures v > FreeMin ==> r == v - 1
    ensures FreeMin <= v <= FreeMax ==> FreeMin <= r <= FreeMax
  {
    Max(1, v - 1)
  }

  /** The score the "+" button of the standard and manual tabs stores. */
  function FreeIncrease(v: int): (r: int)
    ensures r <= FreeMax
    ensures v < FreeMax ==> r == v + 1
    ensures FreeMin <= v <= FreeMax ==> FreeMin <= r <= FreeMax
  {
    Min(20, v + 1)
  }

  /** The standard tab does not keep the scores a permutation of the standard array:
      one "+" on dexterity after the default distribution already leaves it. */
  lemma StandardTabAllowsNonPermutation(s: Stats)
    requires s == StandardArrayStats().With(Dex, FreeIncrease(StandardArrayStats().Get(Dex)))
    ensures ScoresIn(s, FreeMin, FreeMax) && multiset(s.Values()) != multiset(StandardArray)
  {
    RaisedDexterity();
    RaisedDexterityInRange(s);
    RaisedDexterityValues(s);
    NotStandardArray(s.Values());
  }

  lemma RaisedDexterity()
    ensures StandardArrayStats().With(Dex, FreeIncrease(StandardArrayStats().Get(Dex)))
            == Stats(15, 15, 13, 12, 10, 8)
  {
    assert StandardArrayStats().Values() == [15, 14, 13, 12, 10, 8];
  }

  lemma RaisedDexterityInRange(s: Stats)
    requires s == Stats(15, 15, 13, 12, 10, 8)
    ensures ScoresIn(s, FreeMin, FreeMax)
  {
  }

  lemma RaisedDexterityValues(s: Stats)
    requires s == Stats(15, 15, 13, 12, 10, 8)
    ensures s.Values() == [15, 15, 13, 12, 10, 8]
  {
  }

  /** Two fifteens and no fourteen: not the standard array in any order. */
  lemma NotStandardArray(v: seq<int>)
    requires v == [15, 15, 13, 12, 10, 8]
    ensures multiset(v) != multiset(StandardArray)
  {
    assert 14 !in v;
    assert StandardArray[1] == 14;
    assert 14 in multiset(StandardArray);
  }

  /** The three tabs of the builder. */
  datatype Tab = PointBuyTab | StandardTab | ManualTab

  /** The builder component: the score record it edits (owned by the wizard and handed
      back through `setStats`) and the active tab. */
  class StatBuilder {
    var stats: Stats
    var tab: Tab

    /** Every score stays within [1,20], and on the point-buy tab the point-buy invariant holds. */
    ghost predicate Valid()
      reads this
    {
      ScoresIn(stats, FreeMin, FreeMax) && (tab == PointBuyTab ==> PointBuyValid(stats))
    }

    /** The component mounts on the point-buy tab with the wizard's record unchanged. */
    constructor (initial: Stats)
      ensures stats == initial && tab == PointBuyTab
      ensures PointBuyValid(initial) ==> Valid()
    {
      stats := initial;
      tab := PointBuyTab;
    }

    /** `handlePointBuy`. The record handed in at mount may break the point-buy rules; a click
        still applies, and from a valid record the result stays valid. */
    method HandlePointBuy(a: Ability, delta: int)
      modifies this
      ensures old(Valid()) ==> Valid()
      ensures tab == old(tab)
      ensures stats == AfterPointBuy(old(stats), a, delta)
    {
      var currentVal := stats.Get(a);
      var newVal := currentVal + delta;
      if newVal < 8 || newVal > 15 {
        assert PointBuy(stats, a, delta) == OutOfRange;
        return;
      }
      var currentCost := CalculateUsedPoints(stats);
      var costDiff := PointCost(newVal) - PointCost(currentVal);
      if currentCost + costDiff > 27 {
        assert PointBuy(stats, a, delta) == OverBudget;
        return;
      }
      assert PointBuy(stats, a, delta) == Accepted(stats.With(a, newVal));
      if Valid() {
        WithKeepsScoresIn(stats, a, newVal, FreeMin, FreeMax);
      }
      stats := stats.With(a, newVal);
    }

    /** `resetToBase`. */
    method ResetToBase()
      modifies this
      ensures Valid() && tab == old(tab)
      ensures stats == BaseStats()
    {
      stats := Uniform(8);
      assert stats == BaseStats();
    }

    /** `applyStandardArray` (the button of the standard tab). */
    method ApplyStandardArray()
      modifies this
      ensures Valid() && tab == old(tab)
      ensures stats == StandardArrayStats()
    {
      stats := Stats(15, 14, 13, 12, 10, 8);
      assert stats == StandardArrayStats();
    }

    /** The tab handler: `setMethod(v); resetToBase()`. Every switch starts from all eights. */
    method SelectTab(t: Tab)
      modifies this
      ensures Valid() && tab == t
      ensures stats == BaseStats()
    {
      tab := t;
      ResetToBase();
    }

    /** The "-" button of the standard tab, disabled at 8 or below. */
    method StandardMinus(a: Ability)
      requires Valid() && tab == StandardTab
      modifies this
      ensures Valid() && tab == old(tab)
      ensures stats == if old(stats).Get(a) <= 8 then old(stats)
                       else old(stats).With(a, FreeDecrease(old(stats).Get(a)))
    {
      var val := stats.Get(a);
      if val <= 8 {
        return;
      }
      stats := stats.With(a, Max(1, val - 1));
    }

    /** The "+" button of the standard tab, disabled at 20 or above. */
    method StandardPlus(a: Ability)
      requires Valid() && tab == StandardTab
      modifies this
      ensures Valid() && tab == old(tab)
      ensures stats == if old(stats).Get(a) >= 20 then old(stats)
                       else old(stats).With(a, FreeIncrease(old(stats).Get(a)))
    {
      var val := stats.Get(a);
      if val >= 20 {
        return;
      }
      stats := stats.With(a, Min(20, val + 1));
    }

    /** The "-" button of the manual tab, disabled at 1 or below. */
    method ManualMinus(a: Ability)
      requires Valid() && tab == ManualTab
      modifies this
      ensures Valid() && tab == old(tab)
      ensures stats == if old(stats).Get(a) <= 1 then old(stats)
                       else old(stats).With(a, FreeDecrease(old(stats).Get(a)))
    {
      var val := stats.Get(a);
      if val <= 1 {
        return;
      }
      stats := stats.With(a, Max(1, val - 1));
    }

    /** The "+" button of the manual tab, disabled at 20 or above. */
    method ManualPlus(a: Ability)
      requires Valid() && tab == ManualTab
      modifies this
      ensures Valid() && tab == old(tab)
      ensures stats == if old(stats).Get(a) >= 20 then old(stats)
                       else old(stats).With(a, FreeIncrease(old(stats).Get(a)))
    {
      var val := stats.Get(a);
      if val >= 20 {
        return;
      }
      stats := stats.With(a, Min(20, val + 1));
    }
  }
}
