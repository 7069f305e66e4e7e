/**
 * The decidable rules of the floor renderer: a feature's colour, its height in
 * the scene, its polygon offset, and the overlay (store label or amenity icon)
 * attached to it.
 *
 * The repository holds four renderers: the floor-parameterised `FloorMap` that
 * the app mounts, and three older single-floor copies whose branches drifted.
 * `Variant` names each one, and every rule follows the branches of its own file.
 */
module FloorRules {
  import opened Strings
  import opened MapData

  datatype Variant =
    | Unified(floor: Floor)   // src/components/FloorMap.jsx, mounted once per floor
    | GroundCopy              // src/components/GroundFloorMap.jsx
    | FirstCopy               // src/components/FirstFloorMap.jsx
    | RestaurantCopy          // src/components/RestaurantFloorMap.jsx

  /** The floor a renderer draws. */
  function FloorOf(v: Variant): Floor {
    match v
    case Unified(f) => f
    case GroundCopy => GroundFloor
    case FirstCopy => FirstFloor
    case RestaurantCopy => RestaurantFloor
  }

  /** The single-floor copy written for floor `f`. */
  function CopyFor(f: Floor): (v: Variant)
    ensures FloorOf(v) == f && !v.Unified?
  {
    match f
    case GroundFloor => GroundCopy
    case FirstFloor => FirstCopy
    case RestaurantFloor => RestaurantCopy
  }

  // The palette.
  const Highlight: int := 0xfee2e2
  const PathGrey: int := 0xcbd5e1
  const EmptyGrey: int := 0xe2e8f0
  const EmptyLight: int := 0xf1f5f9
  const BackOfHouseGrey: int := 0xe2e8f0
  const White: int := 0xffffff

  /** A first-floor unit that is not open to the public: its id mentions `e-shop`, in any case. */
  predicate IsEShop(id: string) {
    Contains(ToLower(id), "e-shop")
  }

  /** An id without a dash is no `e-shop` unit. */
  lemma NoDashNoEShop(id: string)
    requires forall k :: 0 <= k < |id| ==> id[k] != '-'
    ensures !IsEShop(id)
  {
    var s := ToLower(id);
    forall i ensures !OccursAt(s, "e-shop", i) {
      if 0 <= i <= |s| - 6 {
        assert s[i..i + 6][1] == s[i + 1] == LowerChar(id[i + 1]);
      }
    }
  }

  /** The colour a feature has when nothing selects it. */
  function BaseColour(v: Variant, p: Props): (c: int)
    ensures c != Highlight
    ensures p.kind == Path ==> c == PathGrey
    ensures p.kind == Empty ==> c == (if FloorOf(v) == FirstFloor then EmptyLight else EmptyGrey)
    ensures p.kind != Path && p.kind != Empty && FloorOf(v) == FirstFloor && IsEShop(p.id) ==> c == BackOfHouseGrey
    ensures p.kind != Path && p.kind != Empty && !(FloorOf(v) == FirstFloor && IsEShop(p.id)) ==> c == White
  {
    match v
    case Unified(f) =>
      if p.kind == Path then PathGrey
      else if p.kind == Empty then (if f == FirstFloor then EmptyLight else EmptyGrey)
      else if f == FirstFloor && IsEShop(p.id) then BackOfHouseGrey
      else White
    case GroundCopy =>
      if p.kind == Path then PathGrey else if p.kind == Empty then EmptyGrey else White
    case FirstCopy =>
      if p.kind == Path then PathGrey
      else if p.kind == Empty then EmptyLight
      else if IsEShop(p.id) then BackOfHouseGrey
      else White
    case RestaurantCopy =>
      if p.kind == Path then PathGrey else if p.kind == Empty then EmptyGrey else White
  }

  /**
   * The colour a feature shows while `selected` is the selection: the highlight
   * tint exactly when its id is the selected one, whatever its type, and its
   * base colour otherwise.
   */
  function DisplayColour(v: Variant, p: Props, selected: Option<string>): (c: int)
    ensures c == Highlight <==> selected == Some(p.id)
    ensures selected != Some(p.id) ==> c == BaseColour(v, p)
  {
    if selected == Some(p.id) then Highlight else BaseColour(v, p)
  }

  /** The features that sink below floor level on a renderer. */
  predicate IsWallOn(v: Variant, id: string) {
    match v
    case Unified(f) =>
      (f == FirstFloor && id == "wall") || (f == RestaurantFloor && Contains(id, "wall"))
    case GroundCopy => false
    case FirstCopy => id == "wall"
    case RestaurantCopy => Contains(id, "wall")
  }

  /** The height `mesh.position.y` at which a feature's surface is placed. */
  function Elevation(v: Variant, p: Props): int {
    match v
    case Unified(f) =>
      if f == FirstFloor && p.id == "wall" then -2
      else if f == RestaurantFloor && Contains(p.id, "wall") then -2
      else if p.kind == Path then 0
      else if f == RestaurantFloor then 2 else if f == FirstFloor then 1 else 2
    case GroundCopy =>
      if p.kind == Path then 0 else 2
    case FirstCopy =>
      if p.id == "wall" then -2 else if p.kind == Path then 0 else 1
    case RestaurantCopy =>
      var y := if p.kind == Path then 0 else 2;
      if Contains(p.id, "wall") then -2 else y
  }

  /**
   * Layering: walls sit below the walkways, walkways at floor level, and every
   * other surface above them (one unit up on the first floor, two elsewhere).
   */
  lemma {:induction false} LayeringOrder(v: Variant, p: Props)
    ensures IsWallOn(v, p.id) ==> Elevation(v, p) == -2
    ensures !IsWallOn(v, p.id) && p.kind == Path ==> Elevation(v, p) == 0
    ensures !IsWallOn(v, p.id) && p.kind != Path ==>
      Elevation(v, p) == (if FloorOf(v) == FirstFloor then 1 else 2)
  {
  }

  /** `polygonOffsetFactor`: first-floor walls are pushed further back. */
  function PolygonOffsetFactor(v: Variant, p: Props): (k: int)
    ensures k == 2 <==> FloorOf(v) == FirstFloor && p.id == "wall"
    ensures k == 1 || k == 2
  {
    match v
    case Unified(f) => if f == FirstFloor && p.id == "wall" then 2 else 1
    case FirstCopy => if p.id == "wall" then 2 else 1
    case _ => 1
  }

  /**
   * Where the floor-specific copies and `FloorMap` agree: on every floor the
   * copy's colour and elevation rules give what `FloorMap` gives for that floor.
   */
  lemma CopiesAgreeOnSurfaces(f: Floor, p: Props)
    ensures BaseColour(CopyFor(f), p) == BaseColour(Unified(f), p)
    ensures Elevation(CopyFor(f), p) == Elevation(Unified(f), p)
    ensures PolygonOffsetFactor(CopyFor(f), p) == PolygonOffsetFactor(Unified(f), p)
  {
  }

  /** The asset name of an amenity icon: `lift` and `stair` are renamed, anything else kept. */
  function IconFile(icon: string): (r: string)
    ensures r != "lift" && r != "stair"
    ensures icon != "lift" && icon != "stair" ==> r == icon
  {
    if icon == "lift" then "elevator" else if icon == "stair" then "stairs" else icon
  }

  /** What `addLabels` attaches to a feature's surface. */
  datatype Overlay =
    | NoOverlay
    | StoreLabel(storeId: string)        // clickable logo-and-name label
    | AmenityIcon(iconFile: string)      // icon plane, loaded asynchronously

  /** The types that get a store label on each renderer. */
  predicate HasLabelType(v: Variant, t: FeatureType) {
    match v
    case Unified(_) => IsBusiness(t)
    case GroundCopy => t == Retail || t == Food
    case FirstCopy => t == Retail || t == Food || t == Fun
    case RestaurantCopy => t == Retail || t == Fun || t == Food
  }

  /** The overlay a feature gets. */
  function OverlayFor(v: Variant, p: Props): Overlay {
    match v
    case Unified(f) =>
      if HasLabelType(v, p.kind) then
        (if f == FirstFloor && IsEShop(p.id) then NoOverlay else StoreLabel(p.id))
      else if p.icon != "" then AmenityIcon(IconFile(p.icon))
      else NoOverlay
    case FirstCopy =>
      if IsEShop(p.id) then NoOverlay
      else if HasLabelType(v, p.kind) then StoreLabel(p.id)
      else if p.icon != "" then AmenityIcon(IconFile(p.icon))
      else NoOverlay
    case _ =>
      if HasLabelType(v, p.kind) then StoreLabel(p.id)
      else if p.icon != "" then AmenityIcon(IconFile(p.icon))
      else NoOverlay
  }

  /**
   * Overlay attachment: a label carries its feature's own id and goes only on a
   * labelled business type; an icon goes only on a feature with an `icon` that
   * is not labelled; on the first floor no `e-shop` unit gets a label, and in
   * the first-floor copy it gets no icon either.
   */
  lemma OverlayRules(v: Variant, p: Props)
    ensures OverlayFor(v, p).StoreLabel? ==> OverlayFor(v, p).storeId == p.id && HasLabelType(v, p.kind) && IsBusiness(p.kind)
    ensures OverlayFor(v, p).AmenityIcon? ==>
      p.icon != "" && !HasLabelType(v, p.kind) && OverlayFor(v, p).iconFile == IconFile(p.icon)
    ensures FloorOf(v) == FirstFloor && IsEShop(p.id) ==> !OverlayFor(v, p).StoreLabel?
    ensures v == FirstCopy && IsEShop(p.id) ==> OverlayFor(v, p).NoOverlay?
    ensures OverlayFor(v, p).NoOverlay? && !(FloorOf(v) == FirstFloor && IsEShop(p.id)) ==>
      !HasLabelType(v, p.kind) && p.icon == ""
  {
  }

  /** The unified renderer labels fun and banking units on the ground floor; the ground-floor copy does not. */
  lemma GroundCopyDropsFunLabels()
    ensures var p := Props("cinepax", Fun, "Cinepax", "", "", None);
      OverlayFor(Unified(GroundFloor), p) == StoreLabel("cinepax") && OverlayFor(GroundCopy, p) == NoOverlay
  {
  }

  /** What reaches the selection callback after an input event. */
  datatype Callback = NoCallback | Selected(id: Option<string>)

  /** The DOM events a store label listens to. */
  datatype LabelEvent = Click | MouseDown | TouchEnd

  /** The listeners attached to a label: the first-floor copy also listens to `mousedown`. */
  function LabelEvents(v: Variant): (es: seq<LabelEvent>)
    ensures Click in es && TouchEnd in es
    ensures MouseDown in es <==> v == FirstCopy
  {
    if v == FirstCopy then [Click, MouseDown, TouchEnd] else [Click, TouchEnd]
  }

  /**
   * A label's handler: it stops propagation (so the scene-wide picker never
   * sees the event) and reports its own store id when a callback is set.
   */
  function LabelClick(storeId: string, hasCallback: bool): (c: Callback)
    ensures hasCallback <==> c.Selected?
    ensures c.Selected? ==> c.id == Some(storeId)
  {
    if hasCallback then Selected(Some(storeId)) else NoCallback
  }
}
