/**
 Character points: the validation of a submitted profile, the random profile draw,
 and the distribution of legacy points over a validated one. Attributes are the six
 values in their fixed key order.
 */
module LegacyPoints {
  import opened GameConstants

  const KEYS := 6
  const CAPACITY := 60

  function Sum(a: seq<int>): int { if a == [] then 0 else Sum(a[..|a| - 1]) + a[|a| - 1] }

  predicate Between(a: seq<int>, low: int, high: int) { forall i :: 0 <= i < |a| ==> low <= a[i] <= high }

  predicate OnScale(a: seq<int>) { |a| == KEYS && Between(a, 0, ATTRIBUTE_MAX) }

  // ---- Validation ----------------------------------------------------------

  /** Manual and random creation spend exactly thirty points; bonuses may only add. */
  predicate Acceptable(a: seq<int>, random: bool, legacy: bool) {
    |a| == KEYS
    && if legacy then ATTRIBUTE_TOTAL <= Sum(a) && Between(a, 0, ATTRIBUTE_MAX)
       else Sum(a) == ATTRIBUTE_TOTAL && if random then Between(a, 0, ATTRIBUTE_MAX) else Between(a, 2, 8)
  }

  /** The manual form accepts exactly the random profiles without an attribute below two or above eight. */
  lemma ManualIsRandomWithin(a: seq<int>)
    ensures Acceptable(a, false, false) <==>
      Acceptable(a, true, false) && forall i :: 0 <= i < |a| ==> 2 <= a[i] <= 8
  {
  }

  // ---- Distribution --------------------------------------------------------

  /** The first position of the smallest value. */
  function Lowest(a: seq<int>): (k: nat)
    requires a != []
    ensures k < |a| && (forall i :: 0 <= i < |a| ==> a[k] <= a[i]) && (forall i :: 0 <= i < k ==> a[k] < a[i])
  {
    if |a| == 1 then 0
    else
      var k := Lowest(a[..|a| - 1]);
      if a[|a| - 1] < a[k] then |a| - 1 else k
  }

  /** One point at a time to the lowest attribute, until the pool or the scale is spent. */
  function Distributed(a: seq<int>, pool: int): (r: seq<int>)
    requires a != []
    ensures |r| == |a|
    decreases pool
  {
    if pool <= 0 || a[Lowest(a)] >= ATTRIBUTE_MAX then a
    else Distributed(a[Lowest(a) := a[Lowest(a)] + 1], pool - 1)
  }

  method FindLowest(a: array<int>) returns (k: nat)
    requires 0 < a.Length
    ensures k == Lowest(a[..])
  {
    k := 0;
    for i := 1 to a.Length
      invariant k == Lowest(a[..i])
    {
      assert a[..i + 1][..i] == a[..i];
      if a[i] < a[k] {
        k := i;
      }
    }
    assert a[..a.Length] == a[..];
  }

  method DistributePoints(a: array<int>, pool: int)
    requires a.Length == KEYS && OnScale(a[..])
    modifies a
    ensures a[..] == Distributed(old(a[..]), pool)
  {
    hide Lowest;
    var distributed := 0;
    while distributed < pool
      invariant 0 <= distributed <= Max(0, pool)
      invariant OnScale(a[..])
      invariant Distributed(a[..], pool - distributed) == Distributed(old(a[..]), pool)
      decreases pool - distributed
    {
      var k := FindLowest(a);
      if a[k] >= ATTRIBUTE_MAX {
        break;
      }
      ghost var before := a[..];
      a[k] := Clamp(0, ATTRIBUTE_MAX, a[k] + 1);
      assert a[..] == before[k := before[k] + 1];
      distributed := distributed + 1;
    }
  }

  lemma {:induction false} SumUpdate(a: seq<int>, k: nat, v: int)
    requires k < |a|
    ensures Sum(a[k := v]) == Sum(a) + v - a[k]
  {
    var n := |a| - 1;
    if k == n {
      assert a[k := v][..n] == a[..n];
    } else {
      assert a[k := v][..n] == a[..n][k := v];
      SumUpdate(a[..n], k, v);
    }
  }

  lemma {:induction false} SumAtMost(a: seq<int>, high: int)
    requires Between(a, 0, high)
    ensures 0 <= Sum(a) <= high * |a|
    ensures Sum(a) == high * |a| ==> forall i :: 0 <= i < |a| ==> a[i] == high
  {
    if a != [] {
      var n := |a| - 1;
      SumAtMost(a[..n], high);
      assert high * |a| == high * n + high;
      if Sum(a) == high * |a| {
        forall i | 0 <= i < |a| ensures a[i] == high {
          assert i < n ==> a[..n][i] == a[i];
        }
      }
    }
  }

  lemma {:induction false} SumAtLeast(a: seq<int>, low: int)
    requires forall i :: 0 <= i < |a| ==> low <= a[i]
    ensures low * |a| <= Sum(a)
  {
    if a != [] {
      SumAtLeast(a[..|a| - 1], low);
    }
  }

  /** What the distribution makes of a profile. */
  ghost predicate FairlyRaised(a: seq<int>, r: seq<int>) {
    && OnScale(r) && |a| == KEYS
    && (forall i :: 0 <= i < KEYS ==> a[i] <= r[i])
    && (forall i, j :: 0 <= i < KEYS && 0 <= j < KEYS && a[i] < r[i] ==> r[i] <= r[j] + 1)
  }

  /** A point for the lowest attribute keeps the rest of the distribution fair. */
  lemma RaisingLowestIsFair(a: seq<int>, r: seq<int>)
    requires OnScale(a) && a[Lowest(a)] < ATTRIBUTE_MAX
    requires FairlyRaised(a[Lowest(a) := a[Lowest(a)] + 1], r)
    ensures FairlyRaised(a, r)
  {
  }

  lemma {:induction false} DistributionIsFair(a: seq<int>, pool: int)
    requires OnScale(a)
    ensures FairlyRaised(a, Distributed(a, pool))
    decreases pool
  {
    hide FairlyRaised;
    if pool <= 0 || a[Lowest(a)] >= ATTRIBUTE_MAX {
      StayingIsFair(a);
    } else {
      DistributionIsFair(a[Lowest(a) := a[Lowest(a)] + 1], pool - 1);
      RaisingLowestIsFair(a, Distributed(a, pool));
    }
  }

  lemma StayingIsFair(a: seq<int>)
    requires OnScale(a)
    ensures FairlyRaised(a, a)
  {
  }

  lemma {:induction false} DistributionIsExact(a: seq<int>, pool: int)
    requires OnScale(a)
    ensures Sum(Distributed(a, pool)) == Sum(a) + Min(Max(0, pool), CAPACITY - Sum(a))
    decreases pool
  {
    SumAtMost(a, ATTRIBUTE_MAX);
    var k := Lowest(a);
    if pool > 0 && a[k] >= ATTRIBUTE_MAX {
      SumAtLeast(a, ATTRIBUTE_MAX);
    } else if pool > 0 {
      var next := a[k := a[k] + 1];
      SumUpdate(a, k, a[k] + 1);
      SumAtMost(next, ATTRIBUTE_MAX);
      DistributionIsExact(next, pool - 1);
    }
  }

  /**
   The total rises by exactly the pool, or by what the scale still has room for; no
   attribute falls, and a raised one ends at most one above the lowest.
   */
  lemma DistributionIsExactAndFair(a: seq<int>, pool: int)
    requires OnScale(a)
    ensures Sum(Distributed(a, pool)) == Sum(a) + Min(Max(0, pool), CAPACITY - Sum(a))
    ensures FairlyRaised(a, Distributed(a, pool))
  {
    DistributionIsExact(a, pool);
    DistributionIsFair(a, pool);
  }

  // ---- Bonuses on a validated profile --------------------------------------

  datatype Bonus = AttributePoints(points: int) | ExtraLifespan(years: int) | LegacyTalent(name: string)
                 | OpeningTitle(name: string)

  /** What the bonuses add besides attributes. */
  datatype Gifts = Gifts(years: int, talents: seq<string>, titles: seq<string>)

  function WithBonus(a: seq<int>, b: Bonus): seq<int>
    requires a != []
  {
    if b.AttributePoints? then Distributed(a, b.points) else a
  }

  function WithBonuses(a: seq<int>, bs: seq<Bonus>): (r: seq<int>)
    requires a != []
    ensures |r| == |a|
  {
    if bs == [] then a else WithBonus(WithBonuses(a, bs[..|bs| - 1]), bs[|bs| - 1])
  }

  function PointsOf(bs: seq<Bonus>): nat {
    if bs == [] then 0
    else PointsOf(bs[..|bs| - 1])
         + if bs[|bs| - 1].AttributePoints? then Max(0, bs[|bs| - 1].points) else 0
  }

  function GiftsOf(bs: seq<Bonus>): Gifts {
    if bs == [] then Gifts(0, [], [])
    else
      var g := GiftsOf(bs[..|bs| - 1]);
      match bs[|bs| - 1]
      case AttributePoints(_) => g
      case ExtraLifespan(years) => g.(years := g.years + years)
      case LegacyTalent(name) => g.(talents := if name == "" then g.talents else AddNew(g.talents, name))
      case OpeningTitle(name) => g.(titles := if name == "" then g.titles else AddNew(g.titles, name))
  }

  /** The loop over a user's stored bonuses, attributes in place and gifts collected. */
  method ApplyLegacyBonuses(a: array<int>, bs: seq<Bonus>) returns (gifts: Gifts)
    requires a.Length == KEYS && OnScale(a[..])
    modifies a
    ensures a[..] == WithBonuses(old(a[..]), bs)
    ensures gifts == GiftsOf(bs)
  {
    gifts := Gifts(0, [], []);
    for i := 0 to |bs|
      invariant OnScale(a[..])
      invariant a[..] == WithBonuses(old(a[..]), bs[..i])
      invariant gifts == GiftsOf(bs[..i])
    {
      assert bs[..i + 1][..i] == bs[..i];
      DistributionIsExactAndFair(a[..], if bs[i].AttributePoints? then bs[i].points else 0);
      match bs[i] {
        case AttributePoints(points) =>
          DistributePoints(a, points);
        case ExtraLifespan(years) =>
          gifts := gifts.(years := gifts.years + years);
        case LegacyTalent(name) =>
          if name != "" {
            gifts := gifts.(talents := AddNew(gifts.talents, name));
          }
        case OpeningTitle(name) =>
          if name != "" {
            gifts := gifts.(titles := AddNew(gifts.titles, name));
          }
      }
    }
    assert bs[..|bs|] == bs;
  }

  /**
   Every publicly accepted profile, manual or random, stays acceptable to the engine
   under any bonuses, and together they raise its total by exactly the points they
   carry, as far as the scale reaches.
   */
  lemma {:induction false} BonusesKeepProfileAcceptable(a: seq<int>, random: bool, bs: seq<Bonus>)
    requires Acceptable(a, random, false)
    ensures Acceptable(WithBonuses(a, bs), random, true)
    ensures Sum(WithBonuses(a, bs)) == Min(CAPACITY, ATTRIBUTE_TOTAL + PointsOf(bs))
  {
    if bs != [] {
      var n := |bs| - 1;
      BonusesKeepProfileAcceptable(a, random, bs[..n]);
      var before := WithBonuses(a, bs[..n]);
      SumAtMost(before, ATTRIBUTE_MAX);
      if bs[n].AttributePoints? {
        DistributionIsExactAndFair(before, bs[n].points);
      }
    }
  }

  // ---- The random profile --------------------------------------------------

  /** What one slot may take so that the rest can still spend everything. */
  function LowestDraw(remaining: int, slotsLeft: nat): int { Max(0, remaining - slotsLeft * ATTRIBUTE_MAX) }

  function HighestDraw(remaining: int): int { Min(ATTRIBUTE_MAX, remaining) }

  /** `pick(low, high, slot)` is the random integer drawn for a slot; the last slot takes the rest. */
  method RandomAttributes(pick: (int, int, nat) -> int, order: seq<nat>) returns (values: seq<int>)
    requires forall low, high, slot :: low <= high ==> low <= pick(low, high, slot) <= high
    requires |order| == KEYS && (forall i :: 0 <= i < KEYS ==> order[i] < KEYS)
    requires forall i, j :: 0 <= i < j < KEYS ==> order[i] != order[j]
    ensures Acceptable(values, true, false)
  {
    var drawn: seq<int> := [];
    var remaining := ATTRIBUTE_TOTAL;
    for index := 0 to KEYS
      invariant |drawn| == index && Between(drawn, 0, ATTRIBUTE_MAX)
      invariant Sum(drawn) + remaining == ATTRIBUTE_TOTAL
      invariant 0 <= remaining <= (KEYS - index) * ATTRIBUTE_MAX
    {
      var slotsLeft := KEYS - index - 1;
      var value := remaining;
      if slotsLeft != 0 {
        value := pick(LowestDraw(remaining, slotsLeft), HighestDraw(remaining), index);
      }
      assert (drawn + [value])[..index] == drawn;
      drawn := drawn + [value];
      remaining := remaining - value;
    }
    values := Ordered(drawn, order);
    OrderedKeepsSum(drawn, order);
  }

  /** Slot `i` of the draw belongs to key `order[i]`; the result is in key order. */
  function Ordered(drawn: seq<int>, order: seq<nat>): (r: seq<int>)
    requires |drawn| == |order| == KEYS && forall i :: 0 <= i < KEYS ==> order[i] < KEYS
    ensures |r| == KEYS
  {
    Placed(drawn, order, KEYS)
  }

  function Placed(drawn: seq<int>, order: seq<nat>, n: nat): (r: seq<int>)
    requires |drawn| == |order| == KEYS && n <= KEYS && forall i :: 0 <= i < KEYS ==> order[i] < KEYS
    ensures |r| == KEYS
  {
    if n == 0 then [0, 0, 0, 0, 0, 0] else Placed(drawn, order, n - 1)[order[n - 1] := drawn[n - 1]]
  }

  lemma {:induction false} PlacedKeepsSum(drawn: seq<int>, order: seq<nat>, n: nat)
    requires |drawn| == |order| == KEYS && n <= KEYS && forall i :: 0 <= i < KEYS ==> order[i] < KEYS
    requires forall i, j :: 0 <= i < j < KEYS ==> order[i] != order[j]
    ensures Sum(Placed(drawn, order, n)) == Sum(drawn[..n])
    ensures forall k :: 0 <= k < KEYS && (forall i :: 0 <= i < n ==> order[i] != k) ==> Placed(drawn, order, n)[k] == 0
    ensures forall i :: 0 <= i < n ==> Placed(drawn, order, n)[order[i]] == drawn[i]
    ensures forall k :: 0 <= k < KEYS ==>
      Placed(drawn, order, n)[k] == 0 || exists i :: 0 <= i < n && Placed(drawn, order, n)[k] == drawn[i]
  {
    if n == 0 {
      ZeroSum();
    } else {
      PlacedKeepsSum(drawn, order, n - 1);
      SumUpdate(Placed(drawn, order, n - 1), order[n - 1], drawn[n - 1]);
      assert drawn[..n][..n - 1] == drawn[..n - 1];
    }
  }

  lemma ZeroSum()
    ensures Sum([0, 0, 0, 0, 0, 0]) == 0
  {
    SumAtMost([0, 0, 0, 0, 0, 0], 0);
  }

  lemma OrderedKeepsSum(drawn: seq<int>, order: seq<nat>)
    requires |drawn| == |order| == KEYS && forall i :: 0 <= i < KEYS ==> order[i] < KEYS
    requires forall i, j :: 0 <= i < j < KEYS ==> order[i] != order[j]
    requires Between(drawn, 0, ATTRIBUTE_MAX)
    ensures Sum(Ordered(drawn, order)) == Sum(drawn) && OnScale(Ordered(drawn, order))
  {
    PlacedKeepsSum(drawn, order, KEYS);
    assert drawn[..KEYS] == drawn;
  }

  /** Each slot of a valid profile lies in the range the draw allows at that point. */
  lemma {:induction false} EveryProfileCanBeDrawn(a: seq<int>, index: nat)
    requires Acceptable(a, true, false) && index < KEYS
    ensures
      var remaining := ATTRIBUTE_TOTAL - Sum(a[..index]);
      var slotsLeft := KEYS - index - 1;
      if slotsLeft == 0 then a[index] == remaining
      else LowestDraw(remaining, slotsLeft) <= a[index] <= HighestDraw(remaining)
  {
    SumSplit(a, index);
    assert a[..index + 1][..index] == a[..index];
    SumSplit(a, index + 1);
    SumAtMost(a[index + 1..], ATTRIBUTE_MAX);
  }

  lemma {:induction false} SumSplit(a: seq<int>, k: nat)
    requires k <= |a|
    ensures Sum(a) == Sum(a[..k]) + Sum(a[k..])
    decreases |a| - k
  {
    if k == |a| {
      assert a[..k] == a && a[k..] == [];
    } else {
      SumSplit(a, k + 1);
      assert a[..k + 1][..k] == a[..k];
      SumHead(a[k..]);
      assert a[k..][1..] == a[k + 1..];
    }
  }

  lemma {:induction false} SumHead(a: seq<int>)
    requires a != []
    ensures Sum(a) == a[0] + Sum(a[1..])
  {
    if |a| > 1 {
      SumHead(a[..|a| - 1]);
      assert a[..|a| - 1][1..] == a[1..][..|a| - 2];
    }
  }
}
