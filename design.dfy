// The feature store: the ordered, mutable collection of design features that
// every drawing, placing, editing and deleting gesture changes, with its
// aggregate queries.
module Design {
  import opened Basics
  import opened Elements

  // ---------------------------------------------------------------------------
  // Data model
  // ---------------------------------------------------------------------------

  /**
   * A feature id as it exists at run time: the declared type is `string | number`,
   * and a drawing-library feature may also arrive without one (`undefined`).
   * Numbers are whole numbers here, written in decimal by `String`, which agrees with
   * JavaScript for magnitudes below 10^21.
   */
  datatype FeatureId = StrId(s: string) | NumId(n: int) | NoId

  /** JavaScript truthiness of an id: `undefined`, `""` and `0` are falsy. */
  predicate Truthy(id: FeatureId) {
    match id
    case StrId(s) => s != ""
    case NumId(n) => n != 0
    case NoId => false
  }

  /** `String(id)`. */
  function IdString(id: FeatureId): string {
    match id
    case StrId(s) => s
    case NumId(n) => IntToString(n)
    case NoId => "undefined"
  }

  /** A coordinate pair `[longitude, latitude]` in decimal degrees. */
  datatype Position = Position(lng: real, lat: real)

  datatype Geometry =
    | LineString(coords: seq<Position>)
    | Point(coord: Position)
    | Polygon(rings: seq<seq<Position>>)

  /** The status an existing-infrastructure feature carries. */
  datatype Status = Working | Failed

  /**
   * The feature's `properties`. The tag is a ToolType because the
   * draw-completion handler stores the active tool as the element type without
   * checking it, so a feature drawn while `select` is active carries `select`.
   */
  datatype Properties = Properties(
    elementType: ToolType,
    lengthFt: Option<int>,
    areaFt: Option<int>,
    price: Option<int>,
    status: Option<Status>,
    labelText: Option<string>)

  datatype Feature = Feature(id: FeatureId, geometry: Geometry, properties: Properties)

  /** `ELEMENT_PRICES`: a flat unit price for the two box types only. */
  function ElementPrice(t: ToolType): Option<int> {
    match t
    case TransitionBox => Some(400)
    case StormwaterBox => Some(750)
    case _ => None
  }

  // ---------------------------------------------------------------------------
  // The store's operations on the collection, as functions of the old collection
  // ---------------------------------------------------------------------------

  /** `f.id === id` for the string argument of the update and remove operations. */
  predicate HasId(f: Feature, id: string) {
    f.id == StrId(id)
  }

  /** `features.map((f) => (f.id === id ? feature : f))`. */
  function Replaced(fs: seq<Feature>, id: string, f: Feature): (r: seq<Feature>)
    ensures |r| == |fs|
    ensures forall i :: 0 <= i < |fs| ==> r[i] == if HasId(fs[i], id) then f else fs[i]
  {
    if fs == [] then [] else [if HasId(fs[0], id) then f else fs[0]] + Replaced(fs[1..], id, f)
  }

  /** `features.filter((f) => f.id !== id)`. */
  function Without(fs: seq<Feature>, id: string): seq<Feature> {
    Filter(fs, (f: Feature) => !HasId(f, id))
  }

  /** `features.filter((f) => f.properties.elementType === type)`. */
  function ByType(fs: seq<Feature>, t: ToolType): seq<Feature> {
    Filter(fs, (f: Feature) => f.properties.elementType == t)
  }

  function CountByType(fs: seq<Feature>, t: ToolType): nat {
    |ByType(fs, t)|
  }

  /** A feature's `lengthFt`, or 0 when it has none (`lengthFt || 0`). */
  function LengthOrZero(f: Feature): int {
    match f.properties.lengthFt
    case Some(n) => n
    case None => 0
  }

  /** A feature's flat `price`, or 0 when it has none. */
  function PriceOrZero(f: Feature): int {
    match f.properties.price
    case Some(n) => n
    case None => 0
  }

  /**
   * The `getTotalLF` reduction. It adds `lengthFt` when it is truthy; a zero
   * length adds nothing either way, so this is the sum of `LengthOrZero`.
   */
  function TotalLF(fs: seq<Feature>): int {
    SumBy(fs, LengthOrZero)
  }

  /** The `getTotalCost` reduction over the flat `price` fields. */
  function TotalCost(fs: seq<Feature>): int {
    SumBy(fs, PriceOrZero)
  }

  // ---------------------------------------------------------------------------
  // Properties of the operations
  // ---------------------------------------------------------------------------

  /** Update never changes a numeric-id element: `===` against a string never holds for a number. */
  lemma ReplacedSkipsNumericIds(fs: seq<Feature>, id: string, f: Feature, i: nat)
    requires i < |fs| && fs[i].id.NumId?
    ensures Replaced(fs, id, f)[i] == fs[i]
  {
  }

  /** Updating an id that is absent leaves the collection as it was. */
  lemma {:induction false} ReplacedAbsent(fs: seq<Feature>, id: string, f: Feature)
    requires forall i :: 0 <= i < |fs| ==> !HasId(fs[i], id)
    ensures Replaced(fs, id, f) == fs
  {
    if fs != [] {
      ReplacedAbsent(fs[1..], id, f);
    }
  }

  /** Remove drops exactly the elements with that id and keeps the others, as often as they occur, in order. */
  lemma WithoutSpec(fs: seq<Feature>, id: string)
    ensures IsSubsequence(Without(fs, id), fs)
    ensures forall i :: 0 <= i < |Without(fs, id)| ==> !HasId(Without(fs, id)[i], id)
    ensures forall x :: multiset(Without(fs, id))[x] == if HasId(x, id) then 0 else multiset(fs)[x]
  {
    assert IsSubsequence(Without(fs, id), fs) by {
      FilterIsSubsequence(fs, (f: Feature) => !HasId(f, id));
    }
    assert forall x :: multiset(Without(fs, id))[x] == if HasId(x, id) then 0 else multiset(fs)[x] by {
      FilterMultiset(fs, (f: Feature) => !HasId(f, id));
    }
  }

  /** Removing an absent id is a no-op. */
  lemma WithoutAbsent(fs: seq<Feature>, id: string)
    requires forall i :: 0 <= i < |fs| ==> !HasId(fs[i], id)
    ensures Without(fs, id) == fs
  {
    FilterKeepsAll(fs, (f: Feature) => !HasId(f, id));
  }

  /** Removing twice leaves what removing once leaves. */
  lemma WithoutIdempotent(fs: seq<Feature>, id: string)
    ensures Without(Without(fs, id), id) == Without(fs, id)
  {
    FilterIdempotent(fs, (f: Feature) => !HasId(f, id));
  }

  /** One unfolding of `ByType`, named so that callers need not unfold `Filter`. */
  lemma ByTypeCons(fs: seq<Feature>, t: ToolType)
    requires fs != []
    ensures ByType(fs, t) == (if fs[0].properties.elementType == t then [fs[0]] else []) + ByType(fs[1..], t)
  {
  }

  /** `getFeaturesByType` is the order-preserving sublist of that type, holding each of them as often as the store does. */
  lemma ByTypeSpec(fs: seq<Feature>, t: ToolType)
    ensures IsSubsequence(ByType(fs, t), fs)
    ensures forall i :: 0 <= i < |ByType(fs, t)| ==> ByType(fs, t)[i].properties.elementType == t
    ensures forall x :: multiset(ByType(fs, t))[x] == if x.properties.elementType == t then multiset(fs)[x] else 0
  {
    assert IsSubsequence(ByType(fs, t), fs) by {
      FilterIsSubsequence(fs, (f: Feature) => f.properties.elementType == t);
    }
    assert forall x :: multiset(ByType(fs, t))[x] == if x.properties.elementType == t then multiset(fs)[x] else 0 by {
      FilterMultiset(fs, (f: Feature) => f.properties.elementType == t);
    }
  }

  /** A stored feature is among `getFeaturesByType` exactly when it has that type. */
  lemma ByTypeMembership(fs: seq<Feature>, t: ToolType)
    ensures forall j :: 0 <= j < |ByType(fs, t)| ==> ByType(fs, t)[j] in fs && ByType(fs, t)[j].properties.elementType == t
    ensures forall i :: 0 <= i < |fs| ==> (fs[i] in ByType(fs, t) <==> fs[i].properties.elementType == t)
  {
    var p := (f: Feature) => f.properties.elementType == t;
    forall i | 0 <= i < |fs| && fs[i] in ByType(fs, t) ensures fs[i].properties.elementType == t {
      var j :| 0 <= j < |ByType(fs, t)| && ByType(fs, t)[j] == fs[i];
      assert p(ByType(fs, t)[j]);
    }
  }

  /** `getCountByType` is the number of stored positions holding a feature of that type. */
  lemma CountByTypeIsIndexCount(fs: seq<Feature>, t: ToolType)
    ensures CountByType(fs, t) == |set i | 0 <= i < |fs| && fs[i].properties.elementType == t|
  {
    FilterLengthIsIndexCount(fs, (f: Feature) => f.properties.elementType == t);
    assert Positions(fs, (f: Feature) => f.properties.elementType == t)
        == (set i | 0 <= i < |fs| && fs[i].properties.elementType == t);
  }

  /** Round trip: after appending `f`, the features of `f`'s type end with `f`. */
  lemma AddThenByType(fs: seq<Feature>, f: Feature)
    ensures ByType(fs + [f], f.properties.elementType) == ByType(fs, f.properties.elementType) + [f]
    ensures CountByType(fs + [f], f.properties.elementType) == CountByType(fs, f.properties.elementType) + 1
  {
    FilterConcat(fs, [f], (g: Feature) => g.properties.elementType == f.properties.elementType);
  }

  /** Appending a feature of another type leaves a type's sublist and count unchanged. */
  lemma AddOtherType(fs: seq<Feature>, f: Feature, t: ToolType)
    requires f.properties.elementType != t
    ensures ByType(fs + [f], t) == ByType(fs, t)
    ensures CountByType(fs + [f], t) == CountByType(fs, t)
  {
    FilterConcat(fs, [f], (g: Feature) => g.properties.elementType == t);
  }

  /** The total length and the total flat price are additive over appending. */
  lemma TotalsAfterAdd(fs: seq<Feature>, f: Feature)
    ensures TotalLF(fs + [f]) == TotalLF(fs) + LengthOrZero(f)
    ensures TotalCost(fs + [f]) == TotalCost(fs) + PriceOrZero(f)
  {
    SumByConcat(fs, [f], LengthOrZero);
    SumByConcat(fs, [f], PriceOrZero);
  }

  /** With no negative length stored, the total length is not negative. */
  lemma TotalLFNonNegative(fs: seq<Feature>)
    requires forall i :: 0 <= i < |fs| ==> LengthOrZero(fs[i]) >= 0
    ensures TotalLF(fs) >= 0
  {
    SumByNonNegative(fs, LengthOrZero);
  }

  // ---------------------------------------------------------------------------
  // The store object
  // ---------------------------------------------------------------------------

  class DesignStore {
    var features: seq<Feature>

    constructor ()
      ensures features == []
    {
      features := [];
    }

    /** Appends at the end; no uniqueness check on the id. */
    method AddFeature(f: Feature)
      modifies this
      ensures features == old(features) + [f]
    {
      features := features + [f];
    }

    /** Replaces every element whose id is the string `id` by `f`. */
    method UpdateFeature(id: string, f: Feature)
      modifies this
      ensures features == Replaced(old(features), id, f)
    {
      features := Replaced(features, id, f);
    }

    /** Drops every element whose id is the string `id`. */
    method RemoveFeature(id: string)
      modifies this
      ensures features == Without(old(features), id)
    {
      features := Without(features, id);
    }

    method ClearFeatures()
      modifies this
      ensures features == []
    {
      features := [];
    }

    function GetTotalLF(): int
      reads this
    {
      TotalLF(features)
    }

    function GetTotalCost(): int
      reads this
    {
      TotalCost(features)
    }

    /** The stored features of that type, in order, each as often as it is stored. */
    function GetFeaturesByType(t: ToolType): (r: seq<Feature>)
      reads this
      ensures IsSubsequence(r, features)
      ensures forall x :: multiset(r)[x] == if x.properties.elementType == t then multiset(features)[x] else 0
    {
      ByTypeSpec(features, t);
      ByType(features, t)
    }

    /** The number of stored positions holding a feature of that type. */
    function GetCountByType(t: ToolType): (r: nat)
      reads this
      ensures r == |set i | 0 <= i < |features| && features[i].properties.elementType == t|
    {
      CountByTypeIsIndexCount(features, t);
      CountByType(features, t)
    }
  }
}
