// The cost panel: which parts of the quote are shown.
module CostPanel {
  import opened Basics
  import opened Elements
  import opened Design
  import opened Pricing

  /** At least one of the four quantities is positive. */
  predicate HasItems(p: PricingResult) {
    p.hydrobloxLF > 0 || p.parallelLF > 0 || p.transitionCount > 0 || p.stormwaterCount > 0
  }

  datatype LineItem = LineItem(caption: string, quantity: int, rate: int, value: int)

  /** What the panel renders for a quote. */
  datatype PanelView = PanelView(
    startDrawingMessage: bool,
    lineItems: seq<LineItem>,
    showTotal: bool,
    showPromoBadge: bool,
    showBuyMaterials: bool)

  function HydrobloxItem(p: PricingResult): LineItem {
    LineItem("HydroBlox Run", p.hydrobloxLF, p.rates.hydroblox, p.hydrobloxCost)
  }

  function ParallelItem(p: PricingResult): LineItem {
    LineItem("Parallel Row", p.parallelLF, p.rates.parallel, p.parallelCost)
  }

  function TransitionItem(p: PricingResult): LineItem {
    LineItem("Transition Box", p.transitionCount, p.rates.transitionBox, p.transitionCost)
  }

  function StormwaterItem(p: PricingResult): LineItem {
    LineItem("Stormwater Box", p.stormwaterCount, p.rates.stormwaterBox, p.stormwaterCost)
  }

  /** The four candidate line items, in the order the panel lists them. */
  function AllItems(p: PricingResult): seq<LineItem> {
    [HydrobloxItem(p), ParallelItem(p), TransitionItem(p), StormwaterItem(p)]
  }

  /** An item is listed only when its quantity is positive. */
  function Shown(it: LineItem): seq<LineItem> {
    if it.quantity > 0 then [it] else []
  }

  /** The panel: line items only behind `hasItems`, each one only when its quantity is positive. */
  function View(p: PricingResult): PanelView {
    var items :=
      if !HasItems(p) then []
      else Shown(HydrobloxItem(p)) + Shown(ParallelItem(p)) + Shown(TransitionItem(p)) + Shown(StormwaterItem(p));
    PanelView(
      !HasItems(p),
      items,
      HasItems(p),
      HasItems(p) && p.isPromo && p.savings > 0,
      HasItems(p))
  }

  predicate Positive(it: LineItem) {
    it.quantity > 0
  }

  /** The shown items are exactly the candidates with a positive quantity, in the fixed order. */
  lemma ViewShowsPositiveItems(p: PricingResult)
    ensures View(p).lineItems == Filter(AllItems(p), Positive)
    ensures forall i :: 0 <= i < |View(p).lineItems| ==> View(p).lineItems[i].quantity > 0
  {
    var a, b, c, d := HydrobloxItem(p), ParallelItem(p), TransitionItem(p), StormwaterItem(p);
    assert Filter(AllItems(p), Positive) == Shown(a) + Shown(b) + Shown(c) + Shown(d) by {
      assert AllItems(p) == [a] + [b] + [c] + [d];
      FilterConcat([a] + [b] + [c], [d], Positive);
      FilterConcat([a] + [b], [c], Positive);
      FilterConcat([a], [b], Positive);
      FilterSingleton(a, Positive);
      FilterSingleton(b, Positive);
      FilterSingleton(c, Positive);
      FilterSingleton(d, Positive);
    }
    if !HasItems(p) {
      assert Shown(a) == [] && Shown(b) == [] && Shown(c) == [] && Shown(d) == [];
    }
  }

  /** The "start drawing" message appears exactly when there is nothing to list; total and link exactly when there is; the promotion badge exactly when, besides, the quote is promotional with a positive saving. */
  lemma ViewSections(p: PricingResult)
    ensures View(p).startDrawingMessage <==> View(p).lineItems == []
    ensures View(p).showTotal <==> View(p).lineItems != []
    ensures View(p).showBuyMaterials == View(p).showTotal
    ensures View(p).showPromoBadge <==> View(p).showTotal && p.isPromo && p.savings > 0
  {
  }

  /** A feature that makes the panel list something: a box, or a run with a positive length. */
  predicate ShowsSomething(f: Feature) {
    var t := f.properties.elementType;
    t == TransitionBox || t == StormwaterBox
    || ((t == HydrobloxRun || t == ParallelRow) && LengthOrZero(f) > 0)
  }

  /** A type's count is positive exactly when some feature has that type. */
  lemma CountPositive(fs: seq<Feature>, t: ToolType)
    ensures CountByType(fs, t) > 0 <==> exists i :: 0 <= i < |fs| && fs[i].properties.elementType == t
  {
    ByTypeSpec(fs, t);
    if CountByType(fs, t) > 0 {
      var g := ByType(fs, t)[0];
      assert g in fs;
      var i :| 0 <= i < |fs| && fs[i] == g;
    }
  }

  /** With no negative run length, a type's total length is positive exactly when some run of that type is. */
  lemma LengthPositive(fs: seq<Feature>, t: ToolType)
    requires NonNegativeLengths(fs)
    ensures LengthOfType(fs, t) > 0
            <==> exists i :: 0 <= i < |fs| && fs[i].properties.elementType == t && LengthOrZero(fs[i]) > 0
  {
    var bt := ByType(fs, t);
    ByTypeMembership(fs, t);
    forall j | 0 <= j < |bt| ensures LengthOrZero(bt[j]) >= 0 {
      var i :| 0 <= i < |fs| && fs[i] == bt[j];
    }
    SumByPositive(bt, LengthOrZero);
    if LengthOfType(fs, t) > 0 {
      var j :| 0 <= j < |bt| && LengthOrZero(bt[j]) > 0;
      var i :| 0 <= i < |fs| && fs[i] == bt[j];
    }
    if exists i :: 0 <= i < |fs| && fs[i].properties.elementType == t && LengthOrZero(fs[i]) > 0 {
      var i :| 0 <= i < |fs| && fs[i].properties.elementType == t && LengthOrZero(fs[i]) > 0;
      var j :| 0 <= j < |bt| && bt[j] == fs[i];
    }
  }

  /** With no negative run length, the panel has items exactly when some feature is a box or a run of positive length. */
  lemma HasItemsIffSomethingPriced(fs: seq<Feature>, year: int, month: int)
    requires NonNegativeLengths(fs)
    ensures HasItems(CalculateTotal(fs, year, month)) <==> exists i :: 0 <= i < |fs| && ShowsSomething(fs[i])
  {
    LengthPositive(fs, HydrobloxRun);
    LengthPositive(fs, ParallelRow);
    CountPositive(fs, TransitionBox);
    CountPositive(fs, StormwaterBox);
    if exists i :: 0 <= i < |fs| && ShowsSomething(fs[i]) {
      var i :| 0 <= i < |fs| && ShowsSomething(fs[i]);
      assert fs[i].properties.elementType in {HydrobloxRun, ParallelRow, TransitionBox, StormwaterBox};
    }
  }

  /** With no negative run length, the panel has items exactly when the total is positive. */
  lemma HasItemsIffPositiveTotal(fs: seq<Feature>, year: int, month: int)
    requires NonNegativeLengths(fs)
    ensures HasItems(CalculateTotal(fs, year, month)) <==> CalculateTotal(fs, year, month).total > 0
  {
    QuantitiesNonNegative(fs, year, month);
    var r := CalculateTotal(fs, year, month);
    assert r.hydrobloxCost >= 0 && r.parallelCost >= 0 && r.transitionCost >= 0 && r.stormwaterCost >= 0;
    assert r.hydrobloxLF > 0 ==> r.hydrobloxCost > 0;
    assert r.parallelLF > 0 ==> r.parallelCost > 0;
    assert r.transitionCount > 0 ==> r.transitionCost > 0;
    assert r.stormwaterCount > 0 ==> r.stormwaterCost > 0;
  }

  /** The empty design shows only the "start drawing" message. */
  lemma EmptyDesignView(year: int, month: int)
    ensures View(CalculateTotal([], year, month))
            == PanelView(true, [], false, false, false)
  {
    EmptyQuote(year, month);
  }
}
