/**
 * The floor renderer as a stateful object: the meshes of `objectsRef`, the
 * labels and pending icon loads of the scene, the single `active-route`, the
 * lazily created dot texture and the liveness flag, with the handlers that
 * React, `fetch`, the texture loader and `requestAnimationFrame` invoke.
 */
module FloorEngine {
  import opened MapData
  import opened FloorRules
  import opened RouteGeometry
  import opened RouteAnimation
  import opened Navigation

  /** What kind of mesh an entry of `objectsRef` is. */
  datatype Shape =
    | Surface(outline: seq<Position>, offsetFactor: int)   // a feature's floor shape
    | IconPlane(iconFile: string)                          // an amenity icon laid over its feature

  /** An entry of `objectsRef`: its `userData`, its material colour, its height and its shape. */
  datatype MapObject = MapObject(props: Props, colour: int, elevation: int, shape: Shape)

  /** An icon texture still loading: the feature, the asset name and the height of the feature's surface. */
  datatype PendingIcon = PendingIcon(props: Props, iconFile: string, surfaceElevation: int)

  /** The scene's `active-route` object: `userData.targetId`, the resampled dots and the animation state. */
  datatype ActiveRoute = ActiveRoute(targetId: string, points: seq<Vec3>, anim: Reveal)

  /** Additions and removals of the `active-route` object, in the order they happen. */
  datatype RouteEvent = Added(targetId: string) | Removed(targetId: string)

  /** The renderers guarded by `isUnmountingRef` (the first-floor copy has no such flag). */
  predicate HasLivenessGuard(v: Variant) {
    v != FirstCopy
  }

  /** The renderers that place the "you are here" marker once their plan is built. */
  predicate MarksKiosk(v: Variant) {
    v == Unified(GroundFloor) || v == GroundCopy
  }

  /** The route a renderer should show: `showRoute && selectedId && NAVIGATION_DATA[...][selectedId]`. */
  predicate Wanted(v: Variant, selected: Option<string>, show: bool) {
    HasRoutes(v) && show && selected.Some? && selected.value != "" && NavigationEntry(v, selected.value).Some?
  }

  /** A new route to `target` along `path`: every resampled dot, nothing drawn yet. */
  function NewRoute(target: string, path: seq<Waypoint>): (r: ActiveRoute)
    ensures r.targetId == target && r.points == Resample(path) && r.anim == Fresh(|r.points|)
    ensures |r.points| == PointCount(path) && Inv(r.anim) && r.anim.total == |r.points|
  {
    ResampleLength(path);
    ActiveRoute(target, Resample(path), Fresh(|Resample(path)|))
  }

  /** The mesh `createMesh` builds for a feature with an outline (the colour applies the current selection). */
  function SurfaceOf(v: Variant, selected: Option<string>, f: Feature): MapObject
    requires ShapeOutline(f).Some?
  {
    MapObject(f.props, DisplayColour(v, f.props, selected), Elevation(v, f.props),
      Surface(ShapeOutline(f).value, PolygonOffsetFactor(v, f.props)))
  }

  /** The icon plane a finished texture load adds: one unit above its feature's surface. */
  function IconObject(v: Variant, selected: Option<string>, p: PendingIcon): MapObject {
    MapObject(p.props, DisplayColour(v, p.props, selected), p.surfaceElevation + 1, IconPlane(p.iconFile))
  }

  /** What building a list of features adds: meshes, store labels and icon loads. */
  datatype Build = Build(objects: seq<MapObject>, labels: seq<string>, icons: seq<PendingIcon>)

  /** Every feature of `fs` has an outline. */
  predicate AllOutlined(fs: seq<Feature>) {
    forall k :: 0 <= k < |fs| ==> ShapeOutline(fs[k]).Some?
  }

  /** The overlay of a feature, as what it adds to the label and icon lists. */
  function LabelOf(v: Variant, f: Feature, e: int): (r: Build)
    ensures r.objects == []
    ensures forall x :: x in r.labels ==> OverlayFor(v, f.props) == StoreLabel(x)
    ensures forall p :: p in r.icons ==> p.props == f.props && OverlayFor(v, f.props) == AmenityIcon(p.iconFile)
  {
    match OverlayFor(v, f.props)
    case StoreLabel(id) => Build([], [id], [])
    case AmenityIcon(file) => Build([], [], [PendingIcon(f.props, file, e)])
    case NoOverlay => Build([], [], [])
  }

  /** `features.forEach(createMesh)`, feature after feature. */
  function BuildAll(v: Variant, selected: Option<string>, fs: seq<Feature>): Build
    requires AllOutlined(fs)
  {
    if fs == [] then Build([], [], [])
    else
      var b := BuildAll(v, selected, fs[..|fs| - 1]);
      var f := fs[|fs| - 1];
      var o := LabelOf(v, f, Elevation(v, f.props));
      Build(b.objects + [SurfaceOf(v, selected, f)], b.labels + o.labels, b.icons + o.icons)
  }

  /**
   * One mesh per feature, in feature order, each with the feature's own
   * properties, its display colour, its elevation and its outline; every label
   * is the id of a labelled feature, and every icon load belongs to a feature
   * whose overlay is that icon.
   */
  lemma {:induction false} BuildAllShape(v: Variant, selected: Option<string>, fs: seq<Feature>)
    requires AllOutlined(fs)
    ensures |BuildAll(v, selected, fs).objects| == |fs|
    ensures forall k :: 0 <= k < |fs| ==> BuildAll(v, selected, fs).objects[k] == SurfaceOf(v, selected, fs[k])
    ensures forall k :: 0 <= k < |BuildAll(v, selected, fs).labels| ==>
      exists j :: 0 <= j < |fs| && OverlayFor(v, fs[j].props) == StoreLabel(BuildAll(v, selected, fs).labels[k])
    ensures forall k :: 0 <= k < |BuildAll(v, selected, fs).icons| ==>
      exists j :: 0 <= j < |fs| && fs[j].props == BuildAll(v, selected, fs).icons[k].props
        && OverlayFor(v, fs[j].props) == AmenityIcon(BuildAll(v, selected, fs).icons[k].iconFile)
  {
    BuildAllObjects(v, selected, fs);
    BuildAllLabels(v, selected, fs);
    BuildAllIcons(v, selected, fs);
  }

  lemma {:induction false} BuildAllObjects(v: Variant, selected: Option<string>, fs: seq<Feature>)
    requires AllOutlined(fs)
    ensures |BuildAll(v, selected, fs).objects| == |fs|
    ensures forall k :: 0 <= k < |fs| ==> BuildAll(v, selected, fs).objects[k] == SurfaceOf(v, selected, fs[k])
  {
    if fs != [] {
      var init := fs[..|fs| - 1];
      BuildAllObjects(v, selected, init);
      assert forall k :: 0 <= k < |init| ==> init[k] == fs[k];
    }
  }

  lemma {:induction false} BuildAllLabels(v: Variant, selected: Option<string>, fs: seq<Feature>)
    requires AllOutlined(fs)
    ensures forall k :: 0 <= k < |BuildAll(v, selected, fs).labels| ==>
      exists j :: 0 <= j < |fs| && OverlayFor(v, fs[j].props) == StoreLabel(BuildAll(v, selected, fs).labels[k])
  {
    if fs != [] {
      var init := fs[..|fs| - 1];
      BuildAllLabels(v, selected, init);
      var b, labels := BuildAll(v, selected, init), BuildAll(v, selected, fs).labels;
      var f := fs[|fs| - 1];
      var o := LabelOf(v, f, Elevation(v, f.props));
      assert labels == b.labels + o.labels;
      forall k | 0 <= k < |labels| ensures exists j :: 0 <= j < |fs| && OverlayFor(v, fs[j].props) == StoreLabel(labels[k]) {
        if k < |b.labels| {
          var j :| 0 <= j < |init| && OverlayFor(v, init[j].props) == StoreLabel(b.labels[k]);
          assert init[j] == fs[j];
        } else {
          assert labels[k] in o.labels;
          assert OverlayFor(v, fs[|fs| - 1].props) == StoreLabel(labels[k]);
        }
      }
    } else {
      assert BuildAll(v, selected, fs) == Build([], [], []);
    }
  }

  lemma {:induction false} BuildAllIcons(v: Variant, selected: Option<string>, fs: seq<Feature>)
    requires AllOutlined(fs)
    ensures forall k :: 0 <= k < |BuildAll(v, selected, fs).icons| ==>
      exists j :: 0 <= j < |fs| && fs[j].props == BuildAll(v, selected, fs).icons[k].props
        && OverlayFor(v, fs[j].props) == AmenityIcon(BuildAll(v, selected, fs).icons[k].iconFile)
  {
    if fs != [] {
      var init := fs[..|fs| - 1];
      BuildAllIcons(v, selected, init);
      var b, icons := BuildAll(v, selected, init), BuildAll(v, selected, fs).icons;
      var f := fs[|fs| - 1];
      var o := LabelOf(v, f, Elevation(v, f.props));
      assert icons == b.icons + o.icons;
      forall k | 0 <= k < |icons|
        ensures exists j :: (0 <= j < |fs| && fs[j].props == icons[k].props
          && OverlayFor(v, fs[j].props) == AmenityIcon(icons[k].iconFile))
      {
        if k < |b.icons| {
          var j :| 0 <= j < |init| && init[j].props == b.icons[k].props
            && OverlayFor(v, init[j].props) == AmenityIcon(b.icons[k].iconFile);
          assert init[j] == fs[j];
        } else {
          assert icons[k] in o.icons;
          assert fs[|fs| - 1].props == icons[k].props;
        }
      }
    } else {
      assert BuildAll(v, selected, fs) == Build([], [], []);
    }
  }

  lemma OutlinedStep(fs: seq<Feature>, n: nat)
    requires n < |fs| && AllOutlined(fs[..n]) && ShapeOutline(fs[n]).Some?
    ensures AllOutlined(fs[..n + 1])
  {
    assert forall k :: 0 <= k < n ==> fs[..n + 1][k] == fs[..n][k];
  }

  /** Building one more feature appends its mesh and its overlay. */
  lemma BuildAllStep(v: Variant, selected: Option<string>, fs: seq<Feature>, i: nat)
    requires i < |fs| && AllOutlined(fs[..i + 1])
    ensures AllOutlined(fs[..i])
    ensures BuildAll(v, selected, fs[..i + 1]).objects == BuildAll(v, selected, fs[..i]).objects + [SurfaceOf(v, selected, fs[i])]
    ensures BuildAll(v, selected, fs[..i + 1]).labels ==
      BuildAll(v, selected, fs[..i]).labels + LabelOf(v, fs[i], Elevation(v, fs[i].props)).labels
    ensures BuildAll(v, selected, fs[..i + 1]).icons ==
      BuildAll(v, selected, fs[..i]).icons + LabelOf(v, fs[i], Elevation(v, fs[i].props)).icons
  {
    assert fs[..i + 1][..i] == fs[..i];
    assert fs[..i + 1][i] == fs[i];
  }

  /**
   * The colour `createMesh` gives a surface as the files are written: `FloorMap`
   * and the ground-floor copy never apply the selection, the first-floor and
   * restaurant copies apply the selection their effect captured at mount.
   */
  function AsWrittenBuildColour(v: Variant, p: Props, mountSelection: Option<string>): (c: int)
    ensures v.Unified? || v == GroundCopy ==> c != Highlight
    ensures !(v.Unified? || v == GroundCopy) ==> (c == Highlight <==> mountSelection == Some(p.id))
  {
    if v.Unified? || v == GroundCopy then BaseColour(v, p) else DisplayColour(v, p, mountSelection)
  }

  /** McDonald's, a ground-floor food unit with an authored route. */
  const McDonalds: Props := Props("mcdonalds", Food, "McDonald's", "", "", Some(GroundFloor))

  /**
   * The lost highlight: when the ground floor mounts with McDonald's already
   * selected (a store picked from another floor), the colour effect runs on an
   * empty `objectsRef` and the fetch then builds McDonald's plain white, although
   * its display colour is the highlight tint; `FloorMap` never builds a
   * highlighted surface at all.
   */
  lemma AsWrittenMissesSelection(p: Props, sel: Option<string>, f: Floor)
    ensures AsWrittenBuildColour(Unified(GroundFloor), McDonalds, Some("mcdonalds")) == White
    ensures DisplayColour(Unified(GroundFloor), McDonalds, Some("mcdonalds")) == Highlight
    ensures AsWrittenBuildColour(Unified(f), p, sel) != DisplayColour(Unified(f), p, sel) <==> sel == Some(p.id)
  {
    NoDashNoEShop("mcdonalds");
  }

  /**
   * Corrected build: a plan built while `id` is selected shows the highlight on
   * exactly the surfaces of the features with that id, so a selection made
   * before the fetch completes survives it.
   */
  lemma SelectionSurvivesLoad(v: Variant, id: string, fs: seq<Feature>, k: nat)
    requires AllOutlined(fs) && k < |fs|
    ensures k < |BuildAll(v, Some(id), fs).objects|
    ensures BuildAll(v, Some(id), fs).objects[k].colour == Highlight <==> fs[k].props.id == id
  {
    BuildAllShape(v, Some(id), fs);
  }

  /** The number of features `forEach(createMesh)` gets through: it stops at the first without an outline, which throws. */
  function BuildCount(fs: seq<Feature>): (n: nat)
    ensures n <= |fs| && AllOutlined(fs[..n])
    ensures n < |fs| ==> ShapeOutline(fs[n]).None?
  {
    if fs == [] || ShapeOutline(fs[0]).None? then 0
    else
      var n := BuildCount(fs[1..]);
      assert forall k :: 0 <= k < n ==> fs[..n + 1][k + 1] == fs[1..][..n][k];
      n + 1
  }

  /** `forEach(createMesh)` stops exactly at the first feature without an outline. */
  lemma BuildCountStops(fs: seq<Feature>, n: nat)
    requires n <= |fs| && AllOutlined(fs[..n])
    requires n < |fs| ==> ShapeOutline(fs[n]).None?
    ensures n == BuildCount(fs)
  {
    var m := BuildCount(fs);
    assert forall k :: 0 <= k < m ==> fs[..m][k] == fs[k];
    assert forall k :: 0 <= k < n ==> fs[..n][k] == fs[k];
  }

  /**
   * Additions and removals of the route alternate, each removal removing the
   * route the previous addition added, and the last event is the addition of
   * `route` if there is one; so the scene never holds two routes.
   */
  predicate Alternates(log: seq<RouteEvent>, route: Option<ActiveRoute>) {
    && (forall i :: 0 <= i < |log| ==> (log[i].Added? <==> i % 2 == 0))
    && (forall i :: 0 < i < |log| && i % 2 == 1 ==> log[i].targetId == log[i - 1].targetId)
    && (route.Some? <==> |log| % 2 == 1)
    && (route.Some? ==> log[|log| - 1] == Added(route.value.targetId))
  }

  /** Removing the current route keeps the alternation. */
  lemma AlternatesRemove(log: seq<RouteEvent>, r: ActiveRoute)
    requires Alternates(log, Some(r))
    ensures Alternates(log + [Removed(r.targetId)], None)
  {
    var log' := log + [Removed(r.targetId)];
    forall i | 0 <= i < |log'| ensures log'[i].Added? <==> i % 2 == 0 {
      if i < |log| { assert log'[i] == log[i]; }
    }
    forall i | 0 < i < |log'| && i % 2 == 1 ensures log'[i].targetId == log'[i - 1].targetId {
      if i < |log| { assert log'[i] == log[i]; assert log'[i - 1] == log[i - 1]; }
    }
  }

  /** The alternation depends only on the route's target, not on its animation. */
  lemma AlternatesSameTarget(log: seq<RouteEvent>, r: ActiveRoute, r': ActiveRoute)
    requires Alternates(log, Some(r)) && r'.targetId == r.targetId
    ensures Alternates(log, Some(r'))
  {
  }

  /** Adding a route when none is shown keeps the alternation. */
  lemma AlternatesAdd(log: seq<RouteEvent>, r: ActiveRoute)
    requires Alternates(log, None)
    ensures Alternates(log + [Added(r.targetId)], Some(r))
  {
    var log' := log + [Added(r.targetId)];
    forall i | 0 <= i < |log'| ensures log'[i].Added? <==> i % 2 == 0 {
      if i < |log| { assert log'[i] == log[i]; }
    }
    forall i | 0 < i < |log'| && i % 2 == 1 ensures log'[i].targetId == log'[i - 1].targetId {
      assert i < |log|;
      assert log'[i] == log[i];
      assert log'[i - 1] == log[i - 1];
    }
  }

  /**
   * The renderer. `variant` says which of the four files it follows;
   * `unmounting` is `isUnmountingRef` (for the first-floor copy, which has no
   * such flag, it records only that cleanup ran and no handler consults it).
   */
  class FloorMapView {
    const variant: Variant
    var objects: seq<MapObject>         // objectsRef.current
    var labels: seq<string>             // store labels in the scene, by store id
    var pendingIcons: seq<PendingIcon>  // icon textures still loading
    var route: Option<ActiveRoute>      // scene.getObjectByName("active-route")
    var routeLog: seq<RouteEvent>       // every scene.add / scene.remove of the route
    var youAreHere: bool                // the "you are here" marker is in the scene
    var unmounting: bool                // isUnmountingRef.current
    var frameScheduled: bool            // an animation frame is requested
    var circleTexture: bool             // circleTextureRef.current is set
    var texturesCreated: nat            // dot textures created so far
    var released: bool                  // renderer, controls and meshes disposed
    var selectedId: Option<string>      // the selectedId prop last synced
    var showRoute: bool                 // the showRoute prop last synced

    /** Every mesh shows its display colour for the current selection. */
    predicate ColoursCurrent()
      reads this`objects, this`selectedId
    {
      forall k :: 0 <= k < |objects| ==> objects[k].colour == DisplayColour(variant, objects[k].props, selectedId)
    }

    /** The route, if any, is a fresh or animated route of its table entry. */
    predicate RouteWellFormed()
      reads this`route
    {
      route.Some? ==>
        && HasRoutes(variant)
        && NavigationEntry(variant, route.value.targetId).Some?
        && route.value.points == Resample(NavigationEntry(variant, route.value.targetId).value)
        && route.value.anim.total == |route.value.points|
        && Inv(route.value.anim)
    }

    /** Additions and removals of the route alternate, ending with the addition of the current route. */
    predicate LogMatchesRoute()
      reads this`routeLog, this`route
    {
      Alternates(routeLog, route)
    }

    /** The route shown is the one the current props ask for. */
    predicate RouteInSync()
      reads this`route, this`selectedId, this`showRoute
    {
      && (route.Some? <==> Wanted(variant, selectedId, showRoute))
      && (route.Some? ==> selectedId == Some(route.value.targetId))
    }

    /** The dot texture is created once, and never again by a guarded renderer after cleanup. */
    predicate TextureCached()
      reads this`unmounting, this`circleTexture, this`texturesCreated
    {
      && (!unmounting ==> (circleTexture <==> texturesCreated == 1) && texturesCreated <= 1)
      && (unmounting && HasLivenessGuard(variant) ==> !circleTexture && texturesCreated <= 1)
      && (unmounting && !HasLivenessGuard(variant) ==> texturesCreated <= (if circleTexture then 2 else 1))
    }

    predicate Valid()
      reads this`objects, this`selectedId, this`showRoute, this`route, this`routeLog,
        this`unmounting, this`circleTexture, this`texturesCreated, this`frameScheduled
    {
      && ColoursCurrent()
      && RouteWellFormed()
      && LogMatchesRoute()
      && TextureCached()
      && (!unmounting ==> RouteInSync() && frameScheduled)
      && (unmounting ==> route.None? && !frameScheduled == HasLivenessGuard(variant))
    }

    /** Mounting: the scene is set up, the first frame requested, and the props synced once. */
    constructor (v: Variant, selected: Option<string>, show: bool)
      ensures variant == v && selectedId == selected && showRoute == show
      ensures objects == [] && labels == [] && pendingIcons == [] && !youAreHere
      ensures !unmounting && frameScheduled && !released
      ensures route == (if Wanted(v, selected, show) then Some(NewRoute(selected.value, NavigationEntry(v, selected.value).value)) else None)
      ensures Valid()
    {
      variant := v;
      objects := [];
      labels := [];
      pendingIcons := [];
      route := None;
      routeLog := [];
      youAreHere := false;
      unmounting := false;
      frameScheduled := true;
      circleTexture := false;
      texturesCreated := 0;
      released := false;
      selectedId := selected;
      showRoute := show;
      new;
      SyncEffect(selected, show);
    }

    /** `getCircleTexture`: create the dot texture unless it exists (or, when guarded, the view is unmounting). */
    method GetCircleTexture() returns (present: bool)
      requires TextureCached()
      modifies this`circleTexture, this`texturesCreated
      ensures TextureCached()
      ensures old(circleTexture) || (HasLivenessGuard(variant) && unmounting) ==>
        circleTexture == old(circleTexture) && texturesCreated == old(texturesCreated)
      ensures !old(circleTexture) && !(HasLivenessGuard(variant) && unmounting) ==>
        circleTexture && texturesCreated == old(texturesCreated) + 1
      ensures present == circleTexture
    {
      if !circleTexture && !(HasLivenessGuard(variant) && unmounting) {
        circleTexture := true;
        texturesCreated := texturesCreated + 1;
      }
      present := circleTexture;
    }

    /** Dispose of the scene's route, if there is one, and take it out of the scene. */
    method RemoveRoute()
      requires RouteWellFormed() && LogMatchesRoute()
      modifies this`route, this`routeLog
      ensures RouteWellFormed() && LogMatchesRoute()
      ensures route == None
      ensures routeLog == old(routeLog) + (if old(route).Some? then [Removed(old(route).value.targetId)] else [])
    {
      if route.Some? {
        AlternatesRemove(routeLog, route.value);
        routeLog := routeLog + [Removed(route.value.targetId)];
        route := None;
      }
    }

    /**
     * `drawDynamicRoute`: nothing when the route to `target` is already shown;
     * otherwise the old route is removed first and a new one added if the
     * table has an entry for `target`.
     */
    method DrawDynamicRoute(target: string)
      requires HasRoutes(variant)
      requires RouteWellFormed() && LogMatchesRoute() && TextureCached() && !unmounting
      modifies this`route, this`routeLog, this`circleTexture, this`texturesCreated
      ensures RouteWellFormed() && LogMatchesRoute() && TextureCached()
      ensures old(route).Some? && old(route).value.targetId == target ==>
        route == old(route) && routeLog == old(routeLog) && circleTexture == old(circleTexture)
      ensures !(old(route).Some? && old(route).value.targetId == target) ==>
        && route == (if NavigationEntry(variant, target).Some? then Some(NewRoute(target, NavigationEntry(variant, target).value)) else None)
        && routeLog == old(routeLog) + (if old(route).Some? then [Removed(old(route).value.targetId)] else [])
                                     + (if route.Some? then [Added(target)] else [])
    {
      if route.Some? && route.value.targetId == target {
        return;
      }
      RemoveRoute();
      var entry := NavigationEntry(variant, target);
      if entry.None? {
        return;
      }
      AddRoute(target, entry.value);
    }

    /** The second half of `drawDynamicRoute`: resample the path, fetch the dot texture, add the route to the scene. */
    method AddRoute(target: string, path: seq<Waypoint>)
      requires HasRoutes(variant) && NavigationEntry(variant, target) == Some(path)
      requires route.None? && LogMatchesRoute() && TextureCached() && !unmounting
      modifies this`route, this`routeLog, this`circleTexture, this`texturesCreated
      ensures route == Some(NewRoute(target, path)) && routeLog == old(routeLog) + [Added(target)]
      ensures RouteWellFormed() && LogMatchesRoute() && TextureCached()
    {
      var points := ResamplePoints(path);
      var _ := GetCircleTexture();
      ResampleLength(path);
      var r := ActiveRoute(target, points, Fresh(|points|));
      AlternatesAdd(routeLog, r);
      route := Some(r);
      routeLog := routeLog + [Added(target)];
    }

    /** The recolour loop: every mesh gets the display colour for the current selection, and nothing else changes. */
    method Recolour()
      modifies this`objects
      ensures |objects| == |old(objects)|
      ensures forall k :: 0 <= k < |objects| ==>
        objects[k] == old(objects[k]).(colour := DisplayColour(variant, old(objects[k]).props, selectedId))
      ensures ColoursCurrent()
    {
      var i := 0;
      while i < |objects|
        invariant 0 <= i <= |objects| == |old(objects)|
        invariant forall k :: 0 <= k < i ==>
          objects[k] == old(objects[k]).(colour := DisplayColour(variant, old(objects[k]).props, selectedId))
        invariant forall k :: i <= k < |objects| ==> objects[k] == old(objects[k])
      {
        var o := objects[i];
        objects := objects[i := o.(colour := DisplayColour(variant, o.props, selectedId))];
        i := i + 1;
      }
    }

    /**
     * The effect on `[selectedId, showRoute, floor]` (`[selectedId]` in the
     * first-floor and restaurant copies): recolour, then show exactly the route
     * the props ask for. A route to the same target keeps its animation state.
     */
    method SyncEffect(sel: Option<string>, show: bool)
      requires RouteWellFormed() && LogMatchesRoute() && TextureCached() && !unmounting && frameScheduled
      modifies this`selectedId, this`showRoute, this`objects, this`route, this`routeLog,
        this`circleTexture, this`texturesCreated
      ensures Valid()
      ensures selectedId == sel && showRoute == show
      ensures |objects| == |old(objects)|
      ensures forall k :: 0 <= k < |objects| ==> objects[k] == old(objects[k]).(colour := DisplayColour(variant, old(objects[k]).props, sel))
      ensures old(route).Some? && route.Some? && old(route).value.targetId == route.value.targetId ==> route == old(route)
      ensures route.Some? && !(old(route).Some? && old(route).value.targetId == route.value.targetId) ==>
        route.value == NewRoute(route.value.targetId, NavigationEntry(variant, route.value.targetId).value)
    {
      selectedId := sel;
      showRoute := show;
      Recolour();
      SyncRoute();
    }

    /** The route half of the effect: draw the route the props ask for, or remove the one shown. */
    method SyncRoute()
      requires RouteWellFormed() && LogMatchesRoute() && TextureCached() && !unmounting
      modifies this`route, this`routeLog, this`circleTexture, this`texturesCreated
      ensures RouteWellFormed() && LogMatchesRoute() && TextureCached() && RouteInSync()
      ensures old(route).Some? && route.Some? && old(route).value.targetId == route.value.targetId ==> route == old(route)
      ensures route.Some? && !(old(route).Some? && old(route).value.targetId == route.value.targetId) ==>
        route.value == NewRoute(route.value.targetId, NavigationEntry(variant, route.value.targetId).value)
    {
      if Wanted(variant, selectedId, showRoute) {
        var target := selectedId.value;
        ghost var before := route;
        DrawDynamicRoute(target);
        assert route.Some? && route.value.targetId == target by {
          if !(before.Some? && before.value.targetId == target) {
            assert route == Some(NewRoute(target, NavigationEntry(variant, target).value));
          }
        }
      } else {
        RemoveRoute();
      }
    }

    /** `createMesh`: build one feature's mesh and request its overlay. */
    method CreateMesh(f: Feature)
      requires ShapeOutline(f).Some? && ColoursCurrent()
      modifies this`objects, this`labels, this`pendingIcons
      ensures objects == old(objects) + [SurfaceOf(variant, selectedId, f)]
      ensures labels == old(labels) + LabelOf(variant, f, Elevation(variant, f.props)).labels
      ensures pendingIcons == old(pendingIcons) + LabelOf(variant, f, Elevation(variant, f.props)).icons
      ensures ColoursCurrent()
    {
      var mesh := SurfaceOf(variant, selectedId, f);
      objects := objects + [mesh];
      match OverlayFor(variant, f.props) {
        case StoreLabel(id) =>
          labels := labels + [id];
        case AmenityIcon(file) =>
          pendingIcons := pendingIcons + [PendingIcon(f.props, file, mesh.elevation)];
        case NoOverlay =>
      }
    }

    /**
     * The fetch completing with the floor's features: unless a guarded view is
     * unmounting, `objectsRef` is reset and every feature built until the first
     * one without an outline; the marker is placed only if all were built.
     */
    method CompleteFetch(features: seq<Feature>)
      requires Valid()
      modifies this`objects, this`labels, this`pendingIcons, this`youAreHere
      ensures Valid()
      ensures HasLivenessGuard(variant) && unmounting ==>
        objects == old(objects) && labels == old(labels) && pendingIcons == old(pendingIcons) && youAreHere == old(youAreHere)
      ensures !(HasLivenessGuard(variant) && unmounting) ==>
        && objects == BuildAll(variant, selectedId, features[..BuildCount(features)]).objects
        && labels == old(labels) + BuildAll(variant, selectedId, features[..BuildCount(features)]).labels
        && pendingIcons == old(pendingIcons) + BuildAll(variant, selectedId, features[..BuildCount(features)]).icons
      ensures !(HasLivenessGuard(variant) && unmounting) ==>
        youAreHere == (old(youAreHere) || (MarksKiosk(variant) && BuildCount(features) == |features|))
    {
      if HasLivenessGuard(variant) && unmounting {
        return;
      }
      var n := BuildFeatures(features);
      if n == |features| && MarksKiosk(variant) {
        youAreHere := true;
      }
    }

    /** The first `n` features are built: the meshes, and the labels and icon loads added since `labels0` and `icons0`. */
    ghost predicate Built(fs: seq<Feature>, n: nat, labels0: seq<string>, icons0: seq<PendingIcon>)
      requires n <= |fs| && AllOutlined(fs[..n])
      reads this
    {
      && objects == BuildAll(variant, selectedId, fs[..n]).objects
      && labels == labels0 + BuildAll(variant, selectedId, fs[..n]).labels
      && pendingIcons == icons0 + BuildAll(variant, selectedId, fs[..n]).icons
      && ColoursCurrent()
    }

    /** One turn of `forEach(createMesh)`: building feature `n` extends the built prefix by one. */
    method BuildNext(fs: seq<Feature>, n: nat, ghost labels0: seq<string>, ghost icons0: seq<PendingIcon>)
      requires n < |fs| && AllOutlined(fs[..n]) && ShapeOutline(fs[n]).Some?
      requires Built(fs, n, labels0, icons0)
      modifies this`objects, this`labels, this`pendingIcons
      ensures AllOutlined(fs[..n + 1])
      ensures Built(fs, n + 1, labels0, icons0)
    {
      OutlinedStep(fs, n);
      BuildAllStep(variant, selectedId, fs, n);
      ghost var o := LabelOf(variant, fs[n], Elevation(variant, fs[n].props));
      CreateMesh(fs[n]);
      assert labels == labels0 + (BuildAll(variant, selectedId, fs[..n]).labels + o.labels);
      assert pendingIcons == icons0 + (BuildAll(variant, selectedId, fs[..n]).icons + o.icons);
    }

    /** `objectsRef.current = []` and `features.forEach(createMesh)`: returns how many features were built. */
    method BuildFeatures(features: seq<Feature>) returns (n: nat)
      modifies this`objects, this`labels, this`pendingIcons
      ensures n == BuildCount(features)
      ensures objects == BuildAll(variant, selectedId, features[..n]).objects
      ensures labels == old(labels) + BuildAll(variant, selectedId, features[..n]).labels
      ensures pendingIcons == old(pendingIcons) + BuildAll(variant, selectedId, features[..n]).icons
      ensures ColoursCurrent()
    {
      ghost var labels0, icons0 := labels, pendingIcons;
      objects := [];
      n := 0;
      assert features[..0] == [];
      while n < |features| && ShapeOutline(features[n]).Some?
        invariant 0 <= n <= |features|
        invariant AllOutlined(features[..n])
        invariant Built(features, n, labels0, icons0)
      {
        BuildNext(features, n, labels0, icons0);
        n := n + 1;
      }
      BuildCountStops(features, n);
    }

    /**
     * An icon texture finishing its load: a guarded view that is unmounting
     * disposes it and adds nothing; otherwise the icon plane joins `objectsRef`.
     */
    method CompleteIconLoad(k: nat)
      requires Valid() && k < |pendingIcons|
      modifies this`objects, this`pendingIcons
      ensures Valid()
      ensures pendingIcons == old(pendingIcons[..k] + pendingIcons[k + 1..])
      ensures HasLivenessGuard(variant) && unmounting ==> objects == old(objects)
      ensures !(HasLivenessGuard(variant) && unmounting) ==>
        objects == old(objects) + [IconObject(variant, selectedId, old(pendingIcons[k]))]
    {
      var icon := pendingIcons[k];
      pendingIcons := pendingIcons[..k] + pendingIcons[k + 1..];
      if HasLivenessGuard(variant) && unmounting {
        return;
      }
      objects := objects + [IconObject(variant, selectedId, icon)];
    }

    /** One `animate` frame: a guarded view that is unmounting stops; otherwise the next frame is requested and the route advanced. */
    method AnimateFrame()
      requires Valid()
      modifies this`frameScheduled, this`route
      ensures Valid()
      ensures HasLivenessGuard(variant) && unmounting ==> frameScheduled == old(frameScheduled) && route == old(route)
      ensures !(HasLivenessGuard(variant) && unmounting) ==> frameScheduled
      ensures !(HasLivenessGuard(variant) && unmounting) ==>
        route == (if old(route).Some? then Some(old(route).value.(anim := Advance(old(route).value.anim))) else None)
    {
      if HasLivenessGuard(variant) && unmounting {
        return;
      }
      frameScheduled := true;
      if route.Some? {
        var r := route.value;
        AdvanceKeepsInv(r.anim);
        AlternatesSameTarget(routeLog, r, r.(anim := Advance(r.anim)));
        route := Some(r.(anim := Advance(r.anim)));
      }
    }

    /**
     * Cleanup on unmount: raise the flag, cancel the pending frame (the
     * first-floor copy cancels nothing), remove the route, drop the dot texture
     * and dispose of everything else.
     */
    method Cleanup()
      requires Valid() && !unmounting
      modifies this`unmounting, this`frameScheduled, this`route, this`routeLog, this`circleTexture, this`released
      ensures Valid()
      ensures unmounting && released && !circleTexture && route == None
      ensures frameScheduled == !HasLivenessGuard(variant)
      ensures routeLog == old(routeLog) + (if old(route).Some? then [Removed(old(route).value.targetId)] else [])
    {
      unmounting := true;
      if HasLivenessGuard(variant) {
        frameScheduled := false;
      }
      RemoveRoute();
      circleTexture := false;
      released := true;
    }
  }
}
