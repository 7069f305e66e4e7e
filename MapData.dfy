/**
 * The data a floor map is built from: one GeoJSON feature per physical element
 * of a floor plan, its properties bag, and the fixed offset that centres the
 * authoring coordinates on the scene origin.
 */
module MapData {

  datatype Option<T> = None | Some(value: T)

  /** The three floors of the mall, in the order the master store list reads them. */
  datatype Floor = GroundFloor | FirstFloor | RestaurantFloor

  /** The name a floor goes by in asset paths and in a store's `floor` tag. */
  function FloorName(f: Floor): (r: string)
    ensures |r| > 0
  {
    match f
    case GroundFloor => "ground-floor"
    case FirstFloor => "first-floor"
    case RestaurantFloor => "restaurant-floor"
  }

  /** The `type` property. `Other` stands for every value the code never tests for. */
  datatype FeatureType = Retail | Food | Fun | Banking | Path | Empty | Other

  /** The four "business" types that the master list, the directory and the labels treat as stores. */
  predicate IsBusiness(t: FeatureType) {
    t == Retail || t == Food || t == Fun || t == Banking
  }

  /**
   * A feature's properties bag. Absent optional strings are "" (every test the
   * code makes of them is a truthiness test); `floor` is set only by the master
   * store list.
   */
  datatype Props = Props(
    id: string,
    kind: FeatureType,
    name: string,
    icon: string,
    description: string,
    floor: Option<Floor>)

  /** A position of a GeoJSON ring, in authoring coordinates. */
  datatype Position = Position(x: real, y: real)

  /** A feature: its properties and the rings of its Polygon geometry (exterior ring first). */
  datatype Feature = Feature(props: Props, rings: seq<seq<Position>>)

  /** The fixed origin offset applied to every authored coordinate. */
  const OffsetX: int := 960
  const OffsetY: int := 540

  /** Moves one authored position into scene coordinates. */
  function Shift(p: Position): (q: Position)
    ensures q.x + OffsetX as real == p.x && q.y + OffsetY as real == p.y
  {
    Position(p.x - OffsetX as real, p.y - OffsetY as real)
  }

  /**
   * The outline a mesh is built from: the exterior ring (`coordinates[0]`),
   * shifted by the origin offset. None when the ring the code indexes is missing
   * or empty, where reading `coords[0][0]` throws.
   */
  function ShapeOutline(f: Feature): (r: Option<seq<Position>>)
    ensures r.Some? <==> |f.rings| > 0 && |f.rings[0]| > 0
    ensures r.Some? ==> |r.value| == |f.rings[0]|
    ensures r.Some? ==> forall k :: 0 <= k < |r.value| ==> r.value[k] == Shift(f.rings[0][k])
  {
    if |f.rings| > 0 && |f.rings[0]| > 0 then
      Some(seq(|f.rings[0]|, k requires 0 <= k < |f.rings[0]| => Shift(f.rings[0][k])))
    else
      None
  }

  /** Interior rings (holes) never reach the outline. */
  lemma ShapeOutlineIgnoresHoles(f: Feature, holes: seq<seq<Position>>)
    requires |f.rings| > 0
    ensures ShapeOutline(Feature(f.props, [f.rings[0]] + holes)) == ShapeOutline(f)
  {
  }
}
