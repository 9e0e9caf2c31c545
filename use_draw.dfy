// The drawing interaction: the tool-to-mode table, the handlers for the
// drawing library's create/update/delete events and for map clicks, loading
// and clearing a design, the render projection and the status styles.
module UseDraw {
  import opened Basics
  import opened Elements
  import opened Design
  import opened ToolStore
  import opened Pricing

  // ---------------------------------------------------------------------------
  // Constant tables
  // ---------------------------------------------------------------------------

  /** The drawing library's modes. */
  datatype DrawMode = SimpleSelect | DrawLineString | DrawPolygon

  datatype GeometryKind = LineKind | PointKind | PolygonKind

  /** One `toolConfig` entry; an absent `clickToPlace` is false. */
  datatype ToolConfig = ToolConfig(mode: DrawMode, geometryType: Option<GeometryKind>, clickToPlace: bool)

  function ConfigOf(t: ToolType): ToolConfig {
    match t
    case Select => ToolConfig(SimpleSelect, None, false)
    case HydrobloxRun => ToolConfig(DrawLineString, Some(LineKind), false)
    case ParallelRow => ToolConfig(DrawLineString, Some(LineKind), false)
    case TransitionBox => ToolConfig(SimpleSelect, Some(PointKind), true)
    case StormwaterBox => ToolConfig(SimpleSelect, Some(PointKind), true)
    case FlowArrow => ToolConfig(DrawLineString, Some(LineKind), false)
    case StandingWater => ToolConfig(DrawPolygon, Some(PolygonKind), false)
    case ProblemArea => ToolConfig(DrawPolygon, Some(PolygonKind), false)
    case ExistingSwale => ToolConfig(DrawLineString, Some(LineKind), false)
    case ExistingFrenchDrain => ToolConfig(DrawLineString, Some(LineKind), false)
    case ExistingPipe => ToolConfig(DrawLineString, Some(LineKind), false)
    case Downspout => ToolConfig(SimpleSelect, Some(PointKind), true)
  }

  const ClickToPlaceTools: seq<ToolType> := [TransitionBox, StormwaterBox, Downspout]

  /** The element types that carry a working/failed status. */
  const ExistingFeatureTypes: seq<ToolType> := [ExistingSwale, ExistingFrenchDrain, ExistingPipe, Downspout]

  /** `ELEMENT_LABELS`; `select` has no entry. */
  function ElementLabel(t: ToolType): Option<string> {
    match t
    case Select => None
    case HydrobloxRun => Some("HydroBlox")
    case ParallelRow => Some("Parallel")
    case TransitionBox => Some("T-Box")
    case StormwaterBox => Some("Storm")
    case FlowArrow => Some("Flow")
    case StandingWater => Some("Water")
    case ProblemArea => Some("Problem")
    case ExistingSwale => Some("Swale")
    case ExistingFrenchDrain => Some("French")
    case ExistingPipe => Some("Pipe")
    case Downspout => Some("DS")
  }

  /** `ELEMENT_COLORS`; `select` has no entry. */
  function ElementColor(t: ToolType): Option<string> {
    match t
    case Select => None
    case HydrobloxRun => Some("#2563eb")
    case ParallelRow => Some("#06b6d4")
    case TransitionBox => Some("#3b82f6")
    case StormwaterBox => Some("#0ea5e9")
    case FlowArrow => Some("#f97316")
    case StandingWater => Some("#eab308")
    case ProblemArea => Some("#ef4444")
    case ExistingSwale => Some("#22c55e")
    case ExistingFrenchDrain => Some("#10b981")
    case ExistingPipe => Some("#14b8a6")
    case Downspout => Some("#6b7280")
  }

  /**
   * The table is consistent: click-to-place is set exactly for the members of
   * `clickToPlaceTools`, which are exactly the point tools; `simple_select` is
   * the mode of `select` and of those three only; line tools draw lines and
   * polygon tools draw polygons; only `select` has no geometry.
   */
  lemma ToolConfigConsistent(t: ToolType)
    ensures ConfigOf(t).clickToPlace <==> t in ClickToPlaceTools
    ensures ConfigOf(t).clickToPlace <==> ConfigOf(t).geometryType == Some(PointKind)
    ensures ConfigOf(t).mode == SimpleSelect <==> (t == Select || ConfigOf(t).clickToPlace)
    ensures ConfigOf(t).mode == DrawLineString <==> ConfigOf(t).geometryType == Some(LineKind)
    ensures ConfigOf(t).mode == DrawPolygon <==> ConfigOf(t).geometryType == Some(PolygonKind)
    ensures ConfigOf(t).geometryType == None <==> t == Select
  {
  }

  // ---------------------------------------------------------------------------
  // Metrics and the features the handlers build
  // ---------------------------------------------------------------------------

  /**
   * The geodesic metrics, already rounded to whole feet and square feet. They
   * stand for the geometry library's length and area with their unit factors.
   */
  datatype Measure = Measure(lineFeet: seq<Position> -> nat, polygonSquareFeet: seq<seq<Position>> -> nat)

  /** `calculateLengthFt`: the metric for a line, 0 for any other geometry. */
  function CalculateLengthFt(m: Measure, g: Geometry): (r: nat)
    ensures !g.LineString? ==> r == 0
  {
    if g.LineString? then m.lineFeet(g.coords) else 0
  }

  /** `calculateAreaFt`: the metric for a polygon, 0 for any other geometry. */
  function CalculateAreaFt(m: Measure, g: Geometry): (r: nat)
    ensures !g.Polygon? ==> r == 0
  {
    if g.Polygon? then m.polygonSquareFeet(g.rings) else 0
  }

  /** A feature as the drawing library reports it in an event: its id and geometry. */
  datatype DrawnFeature = DrawnFeature(id: FeatureId, geometry: Geometry)

  predicate IsExistingType(t: ToolType) {
    t in ExistingFeatureTypes
  }

  /** The record `handleCreate` stores for a freshly drawn feature under the active tool. */
  function CreatedFeature(tool: ToolType, d: DrawnFeature, m: Measure): Feature {
    Feature(d.id, d.geometry, Properties(
      tool,
      if d.geometry.LineString? then Some(CalculateLengthFt(m, d.geometry)) else None,
      if d.geometry.Polygon? then Some(CalculateAreaFt(m, d.geometry)) else None,
      None,
      if IsExistingType(tool) then Some(Working) else None,
      None))
  }

  /** The record `handleUpdate` stores: the event's id and geometry, the old properties with the metric of the new geometry. */
  function UpdatedFeature(existing: Feature, d: DrawnFeature, m: Measure): Feature {
    Feature(d.id, d.geometry, existing.properties.(
      lengthFt := if d.geometry.LineString? then Some(CalculateLengthFt(m, d.geometry)) else existing.properties.lengthFt,
      areaFt := if d.geometry.Polygon? then Some(CalculateAreaFt(m, d.geometry)) else existing.properties.areaFt))
  }

  /** The id of a placed feature: the tool tag, a dash, and the clock in milliseconds. */
  function PlacedId(t: ToolType, nowMs: nat): string {
    ToolName(t) + "-" + NatToString(nowMs)
  }

  /** The record `handleMapClick` stores for a click at (`lng`, `lat`). */
  function ClickFeature(t: ToolType, lng: real, lat: real, nowMs: nat): Feature {
    Feature(StrId(PlacedId(t, nowMs)), Point(Position(lng, lat)), Properties(
      t, None, None,
      ElementPrice(t),
      if IsExistingType(t) then Some(Working) else None,
      None))
  }

  /** A drawn feature gets the active tool as its tag, the metric of its own kind only, no price, and a status exactly for existing types. */
  lemma CreatedFeatureShape(tool: ToolType, d: DrawnFeature, m: Measure)
    ensures var f := CreatedFeature(tool, d, m);
      f.id == d.id && f.geometry == d.geometry
      && f.properties.elementType == tool
      && (f.properties.lengthFt.Some? <==> d.geometry.LineString?)
      && (f.properties.areaFt.Some? <==> d.geometry.Polygon?)
      && f.properties.price == None
      && (f.properties.status == Some(Working) <==> tool in ExistingFeatureTypes)
      && (f.properties.status.Some? ==> f.properties.status == Some(Working))
  {
  }

  /** An edited feature keeps tag, status, price and label; only the metric of the new geometry's kind is recomputed. */
  lemma UpdatedFeatureShape(existing: Feature, d: DrawnFeature, m: Measure)
    ensures var f := UpdatedFeature(existing, d, m);
      f.id == d.id && f.geometry == d.geometry
      && f.properties.elementType == existing.properties.elementType
      && f.properties.status == existing.properties.status
      && f.properties.price == existing.properties.price
      && f.properties.labelText == existing.properties.labelText
      && (d.geometry.LineString? ==> f.properties.lengthFt == Some(m.lineFeet(d.geometry.coords)))
      && (!d.geometry.LineString? ==> f.properties.lengthFt == existing.properties.lengthFt)
      && (d.geometry.Polygon? ==> f.properties.areaFt == Some(m.polygonSquareFeet(d.geometry.rings)))
      && (!d.geometry.Polygon? ==> f.properties.areaFt == existing.properties.areaFt)
  {
  }

  /** A placed feature is a point at the click, priced like its type, with a status for the downspout only. */
  lemma ClickFeatureShape(t: ToolType, lng: real, lat: real, nowMs: nat)
    requires t in ClickToPlaceTools
    ensures var f := ClickFeature(t, lng, lat, nowMs);
      f.geometry == Point(Position(lng, lat))
      && f.properties.elementType == t
      && (t == TransitionBox ==> f.properties.price == Some(400))
      && (t == StormwaterBox ==> f.properties.price == Some(750))
      && (t == Downspout ==> f.properties.price == None)
      && (f.properties.status == Some(Working) <==> t == Downspout)
      && (f.properties.status == None <==> t != Downspout)
      && f.properties.lengthFt == None && f.properties.areaFt == None
  {
  }

  /** Two clicks at different clock readings give placed features different ids. */
  lemma PlacedIdsDiffer(t: ToolType, a: nat, b: nat)
    requires a != b
    ensures PlacedId(t, a) != PlacedId(t, b)
  {
    var prefix := ToolName(t) + "-";
    assert PlacedId(t, a) == prefix + NatToString(a);
    assert PlacedId(t, b) == prefix + NatToString(b);
    if PlacedId(t, a) == PlacedId(t, b) {
      assert NatToString(a) == PlacedId(t, a)[|prefix|..];
      assert NatToString(b) == PlacedId(t, b)[|prefix|..];
      NatToStringInjective(a, b);
    }
  }

  /** Drawing a HydroBlox or parallel run adds its measured length to that type's footage in the quote. */
  lemma DrawnRunAddsItsLength(fs: seq<Feature>, tool: ToolType, d: DrawnFeature, m: Measure)
    requires tool == HydrobloxRun || tool == ParallelRow
    requires d.geometry.LineString?
    ensures LengthOfType(fs + [CreatedFeature(tool, d, m)], tool) == LengthOfType(fs, tool) + m.lineFeet(d.geometry.coords)
  {
    var f := CreatedFeature(tool, d, m);
    AddThenByType(fs, f);
    SumByConcat(ByType(fs, tool), [f], LengthOrZero);
  }

  /** A shape reported while `select` is active is stored with the tag "select", and the quote ignores it. */
  lemma DrawnUnderSelectIsUnpriced(fs: seq<Feature>, d: DrawnFeature, m: Measure, year: int, month: int)
    ensures CreatedFeature(Select, d, m).properties.elementType == Select
    ensures CalculateTotal(fs + [CreatedFeature(Select, d, m)], year, month) == CalculateTotal(fs, year, month)
  {
    UnpricedFeatureChangesNothing(fs, CreatedFeature(Select, d, m), year, month);
  }

  /** A placed box adds one box at the quote's unit rate; a placed downspout leaves the quote unchanged. */
  lemma PlacedFeaturePricing(fs: seq<Feature>, t: ToolType, lng: real, lat: real, nowMs: nat, year: int, month: int)
    requires t in ClickToPlaceTools
    ensures var before, after := CalculateTotal(fs, year, month), CalculateTotal(fs + [ClickFeature(t, lng, lat, nowMs)], year, month);
      (t == TransitionBox ==> after.transitionCount == before.transitionCount + 1
                              && after.total == before.total + before.rates.transitionBox)
      && (t == StormwaterBox ==> after.stormwaterCount == before.stormwaterCount + 1
                                 && after.total == before.total + before.rates.stormwaterBox)
      && (t == Downspout ==> after == before)
  {
    var f := ClickFeature(t, lng, lat, nowMs);
    if t == Downspout {
      UnpricedFeatureChangesNothing(fs, f, year, month);
    } else {
      BoxAddsOneUnit(fs, f, year, month);
    }
  }

  // ---------------------------------------------------------------------------
  // The update handler, one event at a time
  // ---------------------------------------------------------------------------

  /** `existingFeatures.find((f) => f.id === id)`: the first feature with that id. */
  function FindById(fs: seq<Feature>, id: FeatureId): (r: Option<Feature>)
    ensures r.Some? ==> exists k :: 0 <= k < |fs| && fs[k] == r.value && fs[k].id == id
                                    && forall j :: 0 <= j < k ==> fs[j].id != id
    ensures r.None? <==> forall k :: 0 <= k < |fs| ==> fs[k].id != id
  {
    if fs == [] then None
    else if fs[0].id == id then Some(fs[0])
    else
      var r := FindById(fs[1..], id);
      assert forall k :: 1 <= k < |fs| ==> fs[k] == fs[1..][k - 1];
      if r.Some? then
        var k :| 0 <= k < |fs[1..]| && fs[1..][k] == r.value && fs[1..][k].id == id
                 && forall j :: 0 <= j < k ==> fs[1..][j].id != id;
        assert fs[k + 1] == r.value && fs[k + 1].id == id && forall j :: 0 <= j < k + 1 ==> fs[j].id != id;
        r
      else
        r
  }

  /** One incoming feature of an update event, applied to the store's current features. */
  function UpdateStep(fs: seq<Feature>, d: DrawnFeature, m: Measure): seq<Feature> {
    if !Truthy(d.id) then fs
    else match FindById(fs, d.id)
      case None => fs
      case Some(existing) => Replaced(fs, IdString(d.id), UpdatedFeature(existing, d, m))
  }

  /** The whole update event: its features applied in order, each seeing the previous ones' effect. */
  function UpdateAll(fs: seq<Feature>, ds: seq<DrawnFeature>, m: Measure): seq<Feature>
    decreases |ds|
  {
    if ds == [] then fs else UpdateAll(UpdateStep(fs, ds[0], m), ds[1..], m)
  }

  /** No two stored features render to the same id string. */
  predicate UniqueIdStrings(fs: seq<Feature>) {
    forall i, j :: 0 <= i < j < |fs| ==> IdString(fs[i].id) != IdString(fs[j].id)
  }

  /** The part of a feature an edit must not change. */
  predicate SameIdentity(a: Feature, b: Feature) {
    a.id == b.id
    && a.properties.elementType == b.properties.elementType
    && a.properties.status == b.properties.status
    && a.properties.price == b.properties.price
  }

  predicate PointwiseSameIdentity(a: seq<Feature>, b: seq<Feature>) {
    |a| == |b| && forall i :: 0 <= i < |a| ==> SameIdentity(a[i], b[i])
  }

  /** With unique id strings, one update step keeps length, ids, tags, statuses and prices at every position. */
  lemma UpdateStepKeepsIdentity(fs: seq<Feature>, d: DrawnFeature, m: Measure)
    requires UniqueIdStrings(fs)
    ensures PointwiseSameIdentity(UpdateStep(fs, d, m), fs)
  {
    if Truthy(d.id) && FindById(fs, d.id).Some? {
      var existing := FindById(fs, d.id).value;
      var k :| 0 <= k < |fs| && fs[k] == existing && fs[k].id == d.id;
      var r := UpdateStep(fs, d, m);
      forall i | 0 <= i < |fs| ensures SameIdentity(r[i], fs[i]) {
        if HasId(fs[i], IdString(d.id)) {
          assert IdString(fs[i].id) == IdString(fs[k].id);
          assert i == k;
        }
      }
    }
  }

  /** A numeric event id changes nothing unless a stored feature has its decimal string as a string id: the found entry is numeric, but the replacement looks for that string. */
  lemma NumericUpdateChangesNothing(fs: seq<Feature>, d: DrawnFeature, m: Measure)
    requires d.id.NumId?
    requires forall i :: 0 <= i < |fs| ==> !HasId(fs[i], IdString(d.id))
    ensures UpdateStep(fs, d, m) == fs
  {
    if Truthy(d.id) && FindById(fs, d.id).Some? {
      ReplacedAbsent(fs, IdString(d.id), UpdatedFeature(FindById(fs, d.id).value, d, m));
    }
  }

  /**
   * When a numeric id and its decimal string are both stored, an update event for
   * the number edits the feature with the string id, from the numeric one's data.
   */
  lemma NumericUpdateHitsStringTwin(a: Feature, b: Feature, d: DrawnFeature, m: Measure)
    requires a.id == NumId(5) && b.id == StrId("5") && d.id == NumId(5)
    ensures UpdateStep([a, b], d, m) == [a, UpdatedFeature(a, d, m)]
  {
    assert IdString(NumId(5)) == "5";
    assert FindById([a, b], d.id) == Some(a);
  }

  /** A non-empty string id that is stored at one position only is edited there and nothing else changes. */
  lemma StringUpdateEditsInPlace(fs: seq<Feature>, d: DrawnFeature, m: Measure, k: nat)
    requires d.id.StrId? && d.id.s != ""
    requires k < |fs| && fs[k].id == d.id
    requires forall i :: 0 <= i < |fs| && HasId(fs[i], d.id.s) ==> i == k
    ensures UpdateStep(fs, d, m) == fs[k := UpdatedFeature(fs[k], d, m)]
  {
    var existing := FindById(fs, d.id).value;
    var j :| 0 <= j < |fs| && fs[j] == existing && fs[j].id == d.id && forall i :: 0 <= i < j ==> fs[i].id != d.id;
    assert HasId(fs[j], d.id.s);
    var r := UpdateStep(fs, d, m);
    forall i | 0 <= i < |fs| ensures r[i] == fs[k := UpdatedFeature(fs[k], d, m)][i] {
    }
  }

  /** An event feature that is falsy or not stored changes nothing. */
  lemma SkippedUpdateChangesNothing(fs: seq<Feature>, d: DrawnFeature, m: Measure)
    requires !Truthy(d.id) || forall k :: 0 <= k < |fs| ==> fs[k].id != d.id
    ensures UpdateStep(fs, d, m) == fs
  {
  }

  lemma SameIdentityKeepsUniqueness(a: seq<Feature>, b: seq<Feature>)
    requires PointwiseSameIdentity(a, b) && UniqueIdStrings(b)
    ensures UniqueIdStrings(a)
  {
    forall i, j | 0 <= i < j < |a| ensures IdString(a[i].id) != IdString(a[j].id) {
      assert a[i].id == b[i].id && a[j].id == b[j].id;
    }
  }

  /** With unique id strings, a whole update event keeps length, ids, tags, statuses and prices, and uniqueness itself. */
  lemma {:induction false} UpdateAllKeepsIdentity(fs: seq<Feature>, ds: seq<DrawnFeature>, m: Measure)
    requires UniqueIdStrings(fs)
    ensures PointwiseSameIdentity(UpdateAll(fs, ds, m), fs)
    ensures UniqueIdStrings(UpdateAll(fs, ds, m))
    decreases |ds|
  {
    if ds != [] {
      var next := UpdateStep(fs, ds[0], m);
      UpdateStepKeepsIdentity(fs, ds[0], m);
      SameIdentityKeepsUniqueness(next, fs);
      UpdateAllKeepsIdentity(next, ds[1..], m);
    }
  }

  /** An edit never changes how many features of a type the store holds. */
  lemma {:induction false} SameIdentitySameCount(a: seq<Feature>, b: seq<Feature>, t: ToolType)
    requires PointwiseSameIdentity(a, b)
    ensures CountByType(a, t) == CountByType(b, t)
  {
    if a != [] {
      assert PointwiseSameIdentity(a[1..], b[1..]) by {
        forall i | 0 <= i < |a[1..]| ensures SameIdentity(a[1..][i], b[1..][i]) {
          assert a[1..][i] == a[i + 1] && b[1..][i] == b[i + 1];
        }
      }
      SameIdentitySameCount(a[1..], b[1..], t);
      assert SameIdentity(a[0], b[0]);
      ByTypeCons(a, t);
      ByTypeCons(b, t);
    }
  }

  lemma UpdateAllKeepsCounts(fs: seq<Feature>, ds: seq<DrawnFeature>, m: Measure, t: ToolType)
    requires UniqueIdStrings(fs)
    ensures CountByType(UpdateAll(fs, ds, m), t) == CountByType(fs, t)
  {
    UpdateAllKeepsIdentity(fs, ds, m);
    SameIdentitySameCount(UpdateAll(fs, ds, m), fs, t);
  }

  // ---------------------------------------------------------------------------
  // The delete handler and delete-selected
  // ---------------------------------------------------------------------------

  /** One listed feature: a truthy id removes every stored feature whose id is that id's string. */
  function DeleteStep(fs: seq<Feature>, d: DrawnFeature): seq<Feature> {
    if Truthy(d.id) then Without(fs, IdString(d.id)) else fs
  }

  function DeleteAll(fs: seq<Feature>, ds: seq<DrawnFeature>): seq<Feature>
    decreases |ds|
  {
    if ds == [] then fs else DeleteAll(DeleteStep(fs, ds[0]), ds[1..])
  }

  /** A stored feature is targeted when some listed feature has a truthy id whose string is the stored id. */
  predicate DeletedBy(f: Feature, ds: seq<DrawnFeature>) {
    exists j :: 0 <= j < |ds| && Truthy(ds[j].id) && HasId(f, IdString(ds[j].id))
  }

  function Survives(ds: seq<DrawnFeature>): Feature -> bool {
    (f: Feature) => !DeletedBy(f, ds)
  }

  lemma DeletedByCons(f: Feature, ds: seq<DrawnFeature>)
    requires ds != []
    ensures DeletedBy(f, ds) <==> (Truthy(ds[0].id) && HasId(f, IdString(ds[0].id))) || DeletedBy(f, ds[1..])
  {
    if DeletedBy(f, ds) {
      var j :| 0 <= j < |ds| && Truthy(ds[j].id) && HasId(f, IdString(ds[j].id));
      if j > 0 {
        assert ds[1..][j - 1] == ds[j];
      }
    }
    if DeletedBy(f, ds[1..]) {
      var j :| 0 <= j < |ds[1..]| && Truthy(ds[1..][j].id) && HasId(f, IdString(ds[1..][j].id));
      assert ds[j + 1] == ds[1..][j];
    }
  }

  /** The delete fold is one filter: it keeps, in order, exactly the features no listed feature targets. */
  lemma {:induction false} DeleteAllIsFilter(fs: seq<Feature>, ds: seq<DrawnFeature>)
    ensures DeleteAll(fs, ds) == Filter(fs, Survives(ds))
    decreases |ds|
  {
    if ds == [] {
      FilterKeepsAll(fs, Survives(ds));
    } else {
      var d, rest := ds[0], ds[1..];
      DeleteAllIsFilter(DeleteStep(fs, d), rest);
      forall i | 0 <= i < |fs| {
        DeletedByCons(fs[i], ds);
      }
      if Truthy(d.id) {
        FilterTwice(fs, (f: Feature) => !HasId(f, IdString(d.id)), Survives(rest), Survives(ds));
      } else {
        FilterCongruent(fs, Survives(rest), Survives(ds));
      }
    }
  }

  /** Deleting: the survivors keep their order, no targeted feature survives, and every untargeted one does. */
  lemma DeleteAllSpec(fs: seq<Feature>, ds: seq<DrawnFeature>)
    ensures IsSubsequence(DeleteAll(fs, ds), fs)
    ensures forall i :: 0 <= i < |DeleteAll(fs, ds)| ==> !DeletedBy(DeleteAll(fs, ds)[i], ds)
    ensures forall x :: multiset(DeleteAll(fs, ds))[x] == if DeletedBy(x, ds) then 0 else multiset(fs)[x]
  {
    DeleteAllIsFilter(fs, ds);
    FilterIsSubsequence(fs, Survives(ds));
    var r := DeleteAll(fs, ds);
    forall i | 0 <= i < |r| ensures !DeletedBy(r[i], ds) {
      assert Survives(ds)(r[i]);
    }
    FilterMultiset(fs, Survives(ds));
    forall x ensures multiset(r)[x] == if DeletedBy(x, ds) then 0 else multiset(fs)[x] {
      assert Survives(ds)(x) == !DeletedBy(x, ds);
    }
  }

  /** Repeating a delete event removes nothing more. */
  lemma DeleteAllIdempotent(fs: seq<Feature>, ds: seq<DrawnFeature>)
    ensures DeleteAll(DeleteAll(fs, ds), ds) == DeleteAll(fs, ds)
  {
    DeleteAllIsFilter(fs, ds);
    DeleteAllIsFilter(DeleteAll(fs, ds), ds);
    FilterIdempotent(fs, Survives(ds));
  }

  /** A stored feature with a numeric id is never removed: removal compares against a string. */
  lemma NumericIdsSurviveDelete(fs: seq<Feature>, ds: seq<DrawnFeature>, i: nat)
    requires i < |fs| && fs[i].id.NumId?
    ensures fs[i] in DeleteAll(fs, ds)
  {
    DeleteAllSpec(fs, ds);
    assert fs[i] in multiset(fs);
    assert !DeletedBy(fs[i], ds);
    assert fs[i] in multiset(DeleteAll(fs, ds));
  }

  // ---------------------------------------------------------------------------
  // The render projection and the layer styles
  // ---------------------------------------------------------------------------

  /** A feature as handed to the map source: its properties carry the id and the display label. */
  datatype RenderedFeature = RenderedFeature(id: FeatureId, geometry: Geometry, properties: Properties, propertyId: FeatureId)

  /** `ELEMENT_LABELS[type] || type`. */
  function LabelFor(t: ToolType): string {
    match ElementLabel(t)
    case Some(l) => l
    case None => ToolName(t)
  }

  function Render(f: Feature): RenderedFeature {
    RenderedFeature(f.id, f.geometry,
      f.properties.(labelText := Some(LabelFor(f.properties.elementType))), f.id)
  }

  /** The subscriber's projection of the whole store. */
  function RenderAll(fs: seq<Feature>): seq<RenderedFeature> {
    seq(|fs|, i requires 0 <= i < |fs| => Render(fs[i]))
  }

  /** The projection keeps count and order, copies id into the properties, sets the label and changes nothing else. */
  lemma RenderAllSpec(fs: seq<Feature>)
    ensures |RenderAll(fs)| == |fs|
    ensures forall i :: 0 <= i < |fs| ==>
      var r := RenderAll(fs)[i];
      r.id == fs[i].id && r.propertyId == fs[i].id && r.geometry == fs[i].geometry
      && r.properties == fs[i].properties.(labelText := r.properties.labelText)
      && r.properties.labelText == Some(LabelFor(fs[i].properties.elementType))
  {
  }

  /** Every element type has its own label; `select` falls back to its tag. */
  lemma LabelFallback(t: ToolType)
    ensures t != Select ==> Some(LabelFor(t)) == ElementLabel(t)
    ensures t == Select ==> LabelFor(t) == "select"
    ensures LabelFor(t) != ""
  {
  }

  const FailedColor: string := "#ef4444"

  /** The line colour of the layer that draws the feature, if a colour-styled layer does. */
  function LayerColor(f: Feature): Option<string> {
    var t := f.properties.elementType;
    match t
    case ExistingSwale | ExistingFrenchDrain | ExistingPipe =>
      if f.properties.status == Some(Failed) then Some(FailedColor) else ElementColor(t)
    case HydrobloxRun | ParallelRow | FlowArrow | StandingWater | ProblemArea => ElementColor(t)
    case _ => None
  }

  /** The icon of the layer that draws the feature, if an icon-styled layer does. */
  function IconImage(f: Feature): Option<string> {
    match f.properties.elementType
    case TransitionBox => Some("transition-box-icon")
    case StormwaterBox => Some("stormwater-box-icon")
    case Downspout =>
      if f.properties.status == Some(Failed) then Some("downspout-failed-icon") else Some("downspout-icon")
    case _ => None
  }

  /** The three existing-line layers are red exactly for failed features, and the downspout icon is the failed one exactly then. */
  lemma FailedStyles(f: Feature)
    ensures f.properties.elementType in [ExistingSwale, ExistingFrenchDrain, ExistingPipe] ==>
              (LayerColor(f) == Some(FailedColor) <==> f.properties.status == Some(Failed))
    ensures f.properties.elementType == Downspout ==>
              (IconImage(f) == Some("downspout-failed-icon") <==> f.properties.status == Some(Failed))
    ensures f.properties.elementType !in [ExistingSwale, ExistingFrenchDrain, ExistingPipe] ==>
              LayerColor(f) == ElementColor(f.properties.elementType) || LayerColor(f) == None
  {
  }

  // ---------------------------------------------------------------------------
  // The hook's state and its handlers
  // ---------------------------------------------------------------------------

  /**
   * The hook bound to one map: the design store and tool store it drives, the
   * metric it measures with, whether the map and the drawing control exist,
   * and the drawing library's current mode.
   */
  class DrawSession {
    const design: DesignStore
    const tools: ToolStore
    const measure: Measure
    const hasMap: bool
    const hasDraw: bool
    var drawMode: DrawMode

    constructor (design: DesignStore, tools: ToolStore, measure: Measure, hasMap: bool, hasDraw: bool)
      ensures this.design == design && this.tools == tools && this.measure == measure
      ensures this.hasMap == hasMap && this.hasDraw == hasDraw && drawMode == SimpleSelect
    {
      this.design := design;
      this.tools := tools;
      this.measure := measure;
      this.hasMap := hasMap;
      this.hasDraw := hasDraw;
      drawMode := SimpleSelect;
    }

    /** The mode effect: with a drawing control, the mode follows the active tool. */
    method SyncMode()
      modifies this
      ensures hasDraw ==> drawMode == ConfigOf(tools.activeTool).mode
      ensures !hasDraw ==> drawMode == old(drawMode)
    {
      if hasDraw {
        drawMode := ConfigOf(tools.activeTool).mode;
      }
    }

    /** `draw.create`: store the first reported feature under the active tool, then return to `select`. */
    method HandleCreate(created: seq<DrawnFeature>)
      modifies design, tools
      ensures created == [] ==> design.features == old(design.features) && tools.activeTool == old(tools.activeTool)
      ensures created != [] ==>
        design.features == old(design.features) + [CreatedFeature(old(tools.activeTool), created[0], measure)]
        && tools.activeTool == Select
    {
      if created == [] {
        return;
      }
      var elementType := tools.activeTool;
      design.AddFeature(CreatedFeature(elementType, created[0], measure));
      tools.SetActiveTool(Select);
    }

    /** `draw.update`: each reported feature in turn, against the store as the previous ones left it. */
    method HandleUpdate(updated: seq<DrawnFeature>)
      modifies design
      ensures design.features == UpdateAll(old(design.features), updated, measure)
    {
      var i := 0;
      assert updated[0..] == updated;
      while i < |updated|
        invariant 0 <= i <= |updated|
        invariant UpdateAll(design.features, updated[i..], measure) == UpdateAll(old(design.features), updated, measure)
      {
        var d := updated[i];
        assert updated[i..][1..] == updated[i + 1..];
        if Truthy(d.id) {
          var existing := FindById(design.features, d.id);
          if existing.Some? {
            design.UpdateFeature(IdString(d.id), UpdatedFeature(existing.value, d, measure));
          }
        }
        i := i + 1;
      }
    }

    /** `draw.delete`: remove each reported feature with a truthy id, by its id string. */
    method HandleDelete(deleted: seq<DrawnFeature>)
      modifies design
      ensures design.features == DeleteAll(old(design.features), deleted)
    {
      var i := 0;
      assert deleted[0..] == deleted;
      while i < |deleted|
        invariant 0 <= i <= |deleted|
        invariant DeleteAll(design.features, deleted[i..]) == DeleteAll(old(design.features), deleted)
      {
        assert deleted[i..][1..] == deleted[i + 1..];
        if Truthy(deleted[i].id) {
          design.RemoveFeature(IdString(deleted[i].id));
        }
        i := i + 1;
      }
    }

    /** A map click: with a click-to-place tool, store one point at the click and return to `select`; otherwise nothing. */
    method HandleMapClick(lng: real, lat: real, nowMs: nat)
      modifies design, tools
      ensures old(tools.activeTool) !in ClickToPlaceTools ==>
        design.features == old(design.features) && tools.activeTool == old(tools.activeTool)
      ensures old(tools.activeTool) in ClickToPlaceTools ==>
        design.features == old(design.features) + [ClickFeature(old(tools.activeTool), lng, lat, nowMs)]
        && tools.activeTool == Select
    {
      var currentTool := tools.activeTool;
      if currentTool !in ClickToPlaceTools {
        return;
      }
      design.AddFeature(ClickFeature(currentTool, lng, lat, nowMs));
      tools.SetActiveTool(Select);
    }

    /** Delete the drawing control's selection from the store; without a control, nothing. */
    method DeleteSelected(selected: seq<DrawnFeature>)
      modifies design
      ensures hasDraw ==> design.features == DeleteAll(old(design.features), selected)
      ensures !hasDraw ==> design.features == old(design.features)
    {
      if !hasDraw {
        return;
      }
      var i := 0;
      assert selected[0..] == selected;
      while i < |selected|
        invariant 0 <= i <= |selected|
        invariant DeleteAll(design.features, selected[i..]) == DeleteAll(old(design.features), selected)
      {
        assert selected[i..][1..] == selected[i + 1..];
        if Truthy(selected[i].id) {
          design.RemoveFeature(IdString(selected[i].id));
        }
        i := i + 1;
      }
    }

    /** Replace the store's contents by a saved design, in order; without a control and a map, nothing. */
    method LoadDesign(loaded: seq<Feature>)
      modifies design
      ensures hasDraw && hasMap ==> design.features == loaded
      ensures !(hasDraw && hasMap) ==> design.features == old(design.features)
    {
      if !hasDraw || !hasMap {
        return;
      }
      design.ClearFeatures();
      var i := 0;
      while i < |loaded|
        invariant 0 <= i <= |loaded|
        invariant design.features == loaded[..i]
      {
        design.AddFeature(loaded[i]);
        assert loaded[..i + 1] == loaded[..i] + [loaded[i]];
        i := i + 1;
      }
      assert loaded[..|loaded|] == loaded;
    }

    /** Empty the store. */
    method ClearAll()
      modifies design
      ensures design.features == []
    {
      design.ClearFeatures();
    }
  }
}
