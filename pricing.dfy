// The pricing engine: one function from the feature list to an itemised quote,
// with regular and promotional rate tables selected by the calendar month.
module Pricing {
  import opened Basics
  import opened Elements
  import opened Design

  /** A rate table: dollars per linear foot for the two runs, per unit for the two boxes. */
  datatype Rates = Rates(hydroblox: int, parallel: int, transitionBox: int, stormwaterBox: int)

  const RATES: Rates := Rates(45, 35, 400, 750)

  const PROMO_RATES: Rates := Rates(40, 30, 350, 650)

  /**
   * The promotion runs in the first quarter of 2026. The clock is an input:
   * `month` is the calendar month, 1 to 12.
   */
  function IsPromoActive(year: int, month: int): (active: bool)
    ensures active ==> year == 2026
    ensures 1 <= month <= 12 ==> (active <==> year == 2026 && (month - 1) / 3 == 0)
  {
    year == 2026 && month >= 1 && month <= 3
  }

  datatype PricingResult = PricingResult(
    hydrobloxLF: int,
    parallelLF: int,
    transitionCount: int,
    stormwaterCount: int,
    hydrobloxCost: int,
    parallelCost: int,
    transitionCost: int,
    stormwaterCost: int,
    subtotal: int,
    total: int,
    isPromo: bool,
    savings: int,
    rates: Rates)

  /** Sum of `lengthFt || 0` over the features of type `t`. */
  function LengthOfType(fs: seq<Feature>, t: ToolType): int {
    SumBy(ByType(fs, t), LengthOrZero)
  }

  /** The quote for the feature list at calendar month (`year`, `month`). */
  function CalculateTotal(fs: seq<Feature>, year: int, month: int): PricingResult {
    var isPromo := IsPromoActive(year, month);
    var rates := if isPromo then PROMO_RATES else RATES;
    var hydrobloxLF := LengthOfType(fs, HydrobloxRun);
    var parallelLF := LengthOfType(fs, ParallelRow);
    var transitionCount := CountByType(fs, TransitionBox);
    var stormwaterCount := CountByType(fs, StormwaterBox);
    var hydrobloxCost := hydrobloxLF * rates.hydroblox;
    var parallelCost := parallelLF * rates.parallel;
    var transitionCost := transitionCount * rates.transitionBox;
    var stormwaterCost := stormwaterCount * rates.stormwaterBox;
    var total := hydrobloxCost + parallelCost + transitionCost + stormwaterCost;
    var savings :=
      if isPromo then
        var regularTotal :=
          hydrobloxLF * RATES.hydroblox + parallelLF * RATES.parallel
          + transitionCount * RATES.transitionBox + stormwaterCount * RATES.stormwaterBox;
        regularTotal - total
      else 0;
    PricingResult(
      hydrobloxLF, parallelLF, transitionCount, stormwaterCount,
      hydrobloxCost, parallelCost, transitionCost, stormwaterCost,
      total, total, isPromo, savings, rates)
  }

  // ---------------------------------------------------------------------------
  // An independent reference: what each feature adds to a quote on its own
  // ---------------------------------------------------------------------------

  /** The cost one feature contributes at `rates`: only the four priced types cost anything. */
  function FeatureCost(f: Feature, rates: Rates): int {
    match f.properties.elementType
    case HydrobloxRun => LengthOrZero(f) * rates.hydroblox
    case ParallelRow => LengthOrZero(f) * rates.parallel
    case TransitionBox => rates.transitionBox
    case StormwaterBox => rates.stormwaterBox
    case _ => 0
  }

  /** The sum of the per-feature costs. */
  function QuoteAt(fs: seq<Feature>, rates: Rates): int {
    if fs == [] then 0 else FeatureCost(fs[0], rates) + QuoteAt(fs[1..], rates)
  }

  /** The quote's itemised total at any rate table, computed by type and quantity. */
  function ItemisedAt(fs: seq<Feature>, rates: Rates): int {
    LengthOfType(fs, HydrobloxRun) * rates.hydroblox + LengthOfType(fs, ParallelRow) * rates.parallel
    + CountByType(fs, TransitionBox) * rates.transitionBox + CountByType(fs, StormwaterBox) * rates.stormwaterBox
  }

  /** One unfolding of `LengthOfType` and `CountByType` at the head of the list. */
  lemma {:induction false} OfTypeCons(fs: seq<Feature>, t: ToolType)
    requires fs != []
    ensures LengthOfType(fs, t)
            == (if fs[0].properties.elementType == t then LengthOrZero(fs[0]) else 0) + LengthOfType(fs[1..], t)
    ensures CountByType(fs, t)
            == (if fs[0].properties.elementType == t then 1 else 0) + CountByType(fs[1..], t)
  {
    ByTypeCons(fs, t);
    var head: seq<Feature> := if fs[0].properties.elementType == t then [fs[0]] else [];
    SumByConcat(head, ByType(fs[1..], t), LengthOrZero);
  }

  lemma Distribute(a: int, b: int, r: int)
    ensures (a + b) * r == a * r + b * r
  {
  }

  /** Quantities of the four priced types, weighted by their rates. */
  function Weighted(h: int, p: int, c: int, s: int, rates: Rates): int {
    h * rates.hydroblox + p * rates.parallel + c * rates.transitionBox + s * rates.stormwaterBox
  }

  lemma WeightedAdd(dh: int, dp: int, dc: int, ds: int, h: int, p: int, c: int, s: int, rates: Rates)
    ensures Weighted(dh + h, dp + p, dc + c, ds + s, rates) == Weighted(dh, dp, dc, ds, rates) + Weighted(h, p, c, s, rates)
  {
    Distribute(dh, h, rates.hydroblox);
    Distribute(dp, p, rates.parallel);
    Distribute(dc, c, rates.transitionBox);
    Distribute(ds, s, rates.stormwaterBox);
  }

  /** One feature's cost, as the quantities it adds to each priced type. */
  lemma FeatureCostWeighted(f: Feature, rates: Rates)
    ensures var t := f.properties.elementType;
      FeatureCost(f, rates) == Weighted(if t == HydrobloxRun then LengthOrZero(f) else 0,
                                        if t == ParallelRow then LengthOrZero(f) else 0,
                                        if t == TransitionBox then 1 else 0,
                                        if t == StormwaterBox then 1 else 0, rates)
  {
  }

  /** One unfolding of `ItemisedAt`: the head feature's own cost plus the rest's quote. */
  lemma ItemisedCons(fs: seq<Feature>, rates: Rates)
    requires fs != []
    ensures ItemisedAt(fs, rates) == FeatureCost(fs[0], rates) + ItemisedAt(fs[1..], rates)
  {
    var f, rest := fs[0], fs[1..];
    var t := f.properties.elementType;
    OfTypeCons(fs, HydrobloxRun);
    OfTypeCons(fs, ParallelRow);
    OfTypeCons(fs, TransitionBox);
    OfTypeCons(fs, StormwaterBox);
    var dh, dp := if t == HydrobloxRun then LengthOrZero(f) else 0, if t == ParallelRow then LengthOrZero(f) else 0;
    var dc, ds := if t == TransitionBox then 1 else 0, if t == StormwaterBox then 1 else 0;
    var h, p := LengthOfType(rest, HydrobloxRun), LengthOfType(rest, ParallelRow);
    var c, s := CountByType(rest, TransitionBox), CountByType(rest, StormwaterBox);
    FeatureCostWeighted(f, rates);
    WeightedAdd(dh, dp, dc, ds, h, p, c, s, rates);
    WeightedOfSums(LengthOfType(fs, HydrobloxRun), LengthOfType(fs, ParallelRow),
                   CountByType(fs, TransitionBox), CountByType(fs, StormwaterBox), dh, dp, dc, ds, h, p, c, s, rates);
  }

  lemma WeightedOfSums(hh: int, pp: int, cc: int, ss: int, dh: int, dp: int, dc: int, ds: int,
                       h: int, p: int, c: int, s: int, rates: Rates)
    requires hh == dh + h && pp == dp + p && cc == dc + c && ss == ds + s
    ensures Weighted(hh, pp, cc, ss, rates) == Weighted(dh + h, dp + p, dc + c, ds + s, rates)
  {
  }

  /** Pricing by type and quantity agrees with adding up each feature's own cost. */
  lemma {:induction false} ItemisedIsPerFeatureSum(fs: seq<Feature>, rates: Rates)
    ensures ItemisedAt(fs, rates) == QuoteAt(fs, rates)
  {
    if fs != [] {
      ItemisedIsPerFeatureSum(fs[1..], rates);
      ItemisedCons(fs, rates);
    }
  }

  /** The quote's total equals the per-feature costs at the rates it used, and the subtotal equals the total. */
  lemma TotalIsSumOfFeatureCosts(fs: seq<Feature>, year: int, month: int)
    ensures CalculateTotal(fs, year, month).total == QuoteAt(fs, CalculateTotal(fs, year, month).rates)
    ensures CalculateTotal(fs, year, month).subtotal == CalculateTotal(fs, year, month).total
    ensures CalculateTotal(fs, year, month).total
            == CalculateTotal(fs, year, month).hydrobloxCost + CalculateTotal(fs, year, month).parallelCost
             + CalculateTotal(fs, year, month).transitionCost + CalculateTotal(fs, year, month).stormwaterCost
  {
    ItemisedIsPerFeatureSum(fs, CalculateTotal(fs, year, month).rates);
  }

  /** Outside the promotion the regular table is used and nothing is saved. */
  lemma RegularPricingOutsidePromo(fs: seq<Feature>, year: int, month: int)
    requires !IsPromoActive(year, month)
    ensures CalculateTotal(fs, year, month).rates == RATES
    ensures !CalculateTotal(fs, year, month).isPromo
    ensures CalculateTotal(fs, year, month).savings == 0
  {
  }

  /** In the promotion the promotional table is used and the savings are regular minus promotional total. */
  lemma PromoPricing(fs: seq<Feature>, year: int, month: int)
    requires IsPromoActive(year, month)
    ensures CalculateTotal(fs, year, month).rates == PROMO_RATES
    ensures CalculateTotal(fs, year, month).isPromo
    ensures CalculateTotal(fs, year, month).savings == QuoteAt(fs, RATES) - QuoteAt(fs, PROMO_RATES)
  {
    ItemisedIsPerFeatureSum(fs, RATES);
    ItemisedIsPerFeatureSum(fs, PROMO_RATES);
  }

  /** No stored run length is negative. */
  predicate NonNegativeLengths(fs: seq<Feature>) {
    forall i :: 0 <= i < |fs| ==> LengthOrZero(fs[i]) >= 0
  }

  lemma {:induction false} PromoNeverCostsMore(fs: seq<Feature>)
    requires NonNegativeLengths(fs)
    ensures QuoteAt(fs, PROMO_RATES) <= QuoteAt(fs, RATES)
  {
    if fs != [] {
      PromoNeverCostsMore(fs[1..]);
    }
  }

  /** Savings are never negative when no run has a negative length. */
  lemma SavingsNonNegative(fs: seq<Feature>, year: int, month: int)
    requires NonNegativeLengths(fs)
    ensures CalculateTotal(fs, year, month).savings >= 0
  {
    if IsPromoActive(year, month) {
      PromoPricing(fs, year, month);
      PromoNeverCostsMore(fs);
    }
  }

  /** With no negative run length every quantity is non-negative. */
  lemma QuantitiesNonNegative(fs: seq<Feature>, year: int, month: int)
    requires NonNegativeLengths(fs)
    ensures CalculateTotal(fs, year, month).hydrobloxLF >= 0
    ensures CalculateTotal(fs, year, month).parallelLF >= 0
  {
    var hs := ByType(fs, HydrobloxRun);
    var ps := ByType(fs, ParallelRow);
    forall i | 0 <= i < |hs| ensures LengthOrZero(hs[i]) >= 0 {
      assert hs[i] in fs;
    }
    forall i | 0 <= i < |ps| ensures LengthOrZero(ps[i]) >= 0 {
      assert ps[i] in fs;
    }
    SumByNonNegative(hs, LengthOrZero);
    SumByNonNegative(ps, LengthOrZero);
  }

  /** The empty design gives an all-zero quote. */
  lemma EmptyQuote(year: int, month: int)
    ensures var r := CalculateTotal([], year, month);
      r.hydrobloxLF == 0 && r.parallelLF == 0 && r.transitionCount == 0 && r.stormwaterCount == 0
      && r.hydrobloxCost == 0 && r.parallelCost == 0 && r.transitionCost == 0 && r.stormwaterCost == 0
      && r.total == 0 && r.savings == 0
  {
  }

  /** Is the tag one of the four that the quote prices? */
  predicate IsPricedType(t: ToolType) {
    t == HydrobloxRun || t == ParallelRow || t == TransitionBox || t == StormwaterBox
  }

  /** Appending a feature of any other type leaves the whole quote unchanged. */
  lemma UnpricedFeatureChangesNothing(fs: seq<Feature>, f: Feature, year: int, month: int)
    requires !IsPricedType(f.properties.elementType)
    ensures CalculateTotal(fs + [f], year, month) == CalculateTotal(fs, year, month)
  {
    AddOtherType(fs, f, HydrobloxRun);
    AddOtherType(fs, f, ParallelRow);
    AddOtherType(fs, f, TransitionBox);
    AddOtherType(fs, f, StormwaterBox);
  }

  /** Appending a box adds one to its count; prices carried by the feature play no part. */
  lemma BoxAddsOneUnit(fs: seq<Feature>, f: Feature, year: int, month: int)
    requires f.properties.elementType == TransitionBox || f.properties.elementType == StormwaterBox
    ensures var before, after := CalculateTotal(fs, year, month), CalculateTotal(fs + [f], year, month);
      if f.properties.elementType == TransitionBox then
        after == before.(transitionCount := before.transitionCount + 1,
                         transitionCost := before.transitionCost + before.rates.transitionBox,
                         subtotal := before.total + before.rates.transitionBox,
                         total := before.total + before.rates.transitionBox,
                         savings := if before.isPromo then before.savings + 50 else 0)
      else
        after == before.(stormwaterCount := before.stormwaterCount + 1,
                         stormwaterCost := before.stormwaterCost + before.rates.stormwaterBox,
                         subtotal := before.total + before.rates.stormwaterBox,
                         total := before.total + before.rates.stormwaterBox,
                         savings := if before.isPromo then before.savings + 100 else 0)
  {
    if f.properties.elementType == TransitionBox {
      TransitionBoxAddsOne(fs, f, year, month);
    } else {
      StormwaterBoxAddsOne(fs, f, year, month);
    }
  }

  lemma TransitionBoxAddsOne(fs: seq<Feature>, f: Feature, year: int, month: int)
    requires f.properties.elementType == TransitionBox
    ensures var before, after := CalculateTotal(fs, year, month), CalculateTotal(fs + [f], year, month);
      after == before.(transitionCount := before.transitionCount + 1,
                       transitionCost := before.transitionCost + before.rates.transitionBox,
                       subtotal := before.total + before.rates.transitionBox,
                       total := before.total + before.rates.transitionBox,
                       savings := if before.isPromo then before.savings + 50 else 0)
  {
    AddThenByType(fs, f);
    AddOtherType(fs, f, HydrobloxRun);
    AddOtherType(fs, f, ParallelRow);
    AddOtherType(fs, f, StormwaterBox);
    var rates := CalculateTotal(fs, year, month).rates;
    Distribute(CountByType(fs, TransitionBox), 1, rates.transitionBox);
  }

  lemma StormwaterBoxAddsOne(fs: seq<Feature>, f: Feature, year: int, month: int)
    requires f.properties.elementType == StormwaterBox
    ensures var before, after := CalculateTotal(fs, year, month), CalculateTotal(fs + [f], year, month);
      after == before.(stormwaterCount := before.stormwaterCount + 1,
                       stormwaterCost := before.stormwaterCost + before.rates.stormwaterBox,
                       subtotal := before.total + before.rates.stormwaterBox,
                       total := before.total + before.rates.stormwaterBox,
                       savings := if before.isPromo then before.savings + 100 else 0)
  {
    AddThenByType(fs, f);
    AddOtherType(fs, f, HydrobloxRun);
    AddOtherType(fs, f, ParallelRow);
    AddOtherType(fs, f, TransitionBox);
    var rates := CalculateTotal(fs, year, month).rates;
    Distribute(CountByType(fs, StormwaterBox), 1, rates.stormwaterBox);
  }

  /** Features with the same tag and length in the same order get the same quote, whatever their price, status or geometry. */
  predicate SamePricingView(a: seq<Feature>, b: seq<Feature>) {
    |a| == |b|
    && forall i :: 0 <= i < |a| ==>
         a[i].properties.elementType == b[i].properties.elementType && LengthOrZero(a[i]) == LengthOrZero(b[i])
  }

  lemma QuoteSeesOnlyTypeAndLength(a: seq<Feature>, b: seq<Feature>, year: int, month: int)
    requires SamePricingView(a, b)
    ensures CalculateTotal(a, year, month) == CalculateTotal(b, year, month)
  {
    SameViewByType(a, b, HydrobloxRun);
    SameViewByType(a, b, ParallelRow);
    SameViewByType(a, b, TransitionBox);
    SameViewByType(a, b, StormwaterBox);
  }

  lemma {:induction false} SameViewByType(a: seq<Feature>, b: seq<Feature>, t: ToolType)
    requires SamePricingView(a, b)
    ensures LengthOfType(a, t) == LengthOfType(b, t) && CountByType(a, t) == CountByType(b, t)
  {
    if a != [] {
      SameViewByType(a[1..], b[1..], t);
      OfTypeCons(a, t);
      OfTypeCons(b, t);
    }
  }

  /** Two transition boxes at regular rates: a count of 2 and a cost of $800. */
  lemma TwoTransitionBoxes(p: Feature, q: Feature, year: int, month: int)
    requires p.properties.elementType == TransitionBox && q.properties.elementType == TransitionBox
    requires !IsPromoActive(year, month)
    ensures CalculateTotal([p, q], year, month).transitionCount == 2
    ensures CalculateTotal([p, q], year, month).transitionCost == 800
    ensures CalculateTotal([p, q], year, month).total == 800
  {
    assert [p] == [] + [p] && [p, q] == [p] + [q];
    EmptyQuote(year, month);
    BoxAddsOneUnit([], p, year, month);
    BoxAddsOneUnit([p], q, year, month);
  }

  /** One 100 ft HydroBlox run at regular rates costs $4500. */
  lemma HundredFootRun(f: Feature, year: int, month: int)
    requires f.properties.elementType == HydrobloxRun && f.properties.lengthFt == Some(100)
    requires !IsPromoActive(year, month)
    ensures CalculateTotal([f], year, month).hydrobloxLF == 100
    ensures CalculateTotal([f], year, month).hydrobloxCost == 4500
    ensures CalculateTotal([f], year, month).total == 4500
  {
  }
}
