/**
 * The authored navigation tables: for each destination id, the waypoints of
 * the walk from the kiosk to it. `FloorMap` keeps one table per floor (only
 * the ground floor's is filled in); the ground-floor copy keeps one flat
 * table; the first-floor and restaurant copies draw no routes at all.
 */
module Navigation {
  import opened MapData
  import opened FloorRules
  import opened RouteGeometry

  /** One table entry: a destination id and its waypoints. */
  datatype Entry = Entry(id: string, path: seq<Waypoint>)

  /** The kiosk's own position, the first waypoint of every authored route. */
  const Kiosk: Waypoint := Waypoint(1349, 680)

  /** `NAVIGATION_DATA['ground-floor']` of `FloorMap` (the trailing commented-out waypoints are not part of it). */
  const GroundRoutes: seq<Entry> := [
    Entry("hush_puppies", [Kiosk, Waypoint(1354, 724), Waypoint(1019, 725)]),
    Entry("sketchers", [Kiosk, Waypoint(1354, 724), Waypoint(659, 722)]),
    Entry("ndure", [Kiosk, Waypoint(1354, 724), Waypoint(780, 726)]),
    Entry("levis", [Kiosk, Waypoint(1354, 724), Waypoint(875, 727)]),
    Entry("bata", [Kiosk, Waypoint(1354, 724), Waypoint(1126, 728)]),
    Entry("stylo", [Kiosk, Waypoint(1354, 724), Waypoint(1255, 724)]),
    Entry("companion", [Kiosk, Waypoint(1354, 724), Waypoint(1431, 730)]),
    Entry("walk_eaze", [Kiosk, Waypoint(1354, 724), Waypoint(1534, 730)]),
    Entry("mcdonalds", [Kiosk, Waypoint(1354, 724), Waypoint(1655, 728)]),
    Entry("stairs3", [Kiosk, Waypoint(1324, 354), Waypoint(1183, 347)]),
    Entry("stairs4", [Kiosk, Waypoint(1324, 354), Waypoint(1466, 348)]),
    Entry("lift3", [Kiosk, Waypoint(1324, 354), Waypoint(1547, 352)]),
    Entry("lift2", [Kiosk, Waypoint(1324, 354), Waypoint(1091, 345)]),
    Entry("lift1", [Kiosk, Waypoint(1357, 724), Waypoint(952, 726), Waypoint(944, 353), Waypoint(774, 348)]),
    Entry("stairs2", [Kiosk, Waypoint(1357, 724), Waypoint(952, 726), Waypoint(944, 353), Waypoint(699, 347)]),
    Entry("exit", [Kiosk, Waypoint(1357, 724), Waypoint(596, 719)])
  ]

  /** The flat `NAVIGATION_DATA` of the ground-floor copy: four waypoints per route, ending at the shop front. */
  const GroundCopyRoutes: seq<Entry> := [
    Entry("hush_puppies", [Kiosk, Waypoint(1354, 724), Waypoint(1019, 725), Waypoint(1016, 703)]),
    Entry("sketchers", [Kiosk, Waypoint(1354, 724), Waypoint(659, 722), Waypoint(657, 703)]),
    Entry("ndure", [Kiosk, Waypoint(1354, 724), Waypoint(780, 726), Waypoint(773, 702)]),
    Entry("levis", [Kiosk, Waypoint(1354, 724), Waypoint(875, 727), Waypoint(869, 705)]),
    Entry("bata", [Kiosk, Waypoint(1354, 724), Waypoint(1126, 728), Waypoint(1122, 702)]),
    Entry("stylo", [Kiosk, Waypoint(1354, 724), Waypoint(1255, 724), Waypoint(1246, 705)]),
    Entry("companion", [Kiosk, Waypoint(1354, 724), Waypoint(1431, 730), Waypoint(1425, 709)]),
    Entry("walk_eaze", [Kiosk, Waypoint(1354, 724), Waypoint(1534, 730), Waypoint(1528, 711)]),
    Entry("mcdonalds", [Kiosk, Waypoint(1354, 724), Waypoint(1655, 728), Waypoint(1649, 709)]),
    Entry("stairs3", [Kiosk, Waypoint(1324, 354), Waypoint(1183, 347), Waypoint(1185, 373)])
  ]

  /** `table[id]`: the waypoints of the first entry for `id`, if there is one. */
  function Lookup(table: seq<Entry>, id: string): (r: Option<seq<Waypoint>>)
    ensures r.None? <==> forall k :: 0 <= k < |table| ==> table[k].id != id
    ensures r.Some? ==> exists k :: 0 <= k < |table| && table[k] == Entry(id, r.value)
  {
    if table == [] then None
    else if table[0].id == id then Some(table[0].path)
    else
      var r := Lookup(table[1..], id);
      assert forall k :: 1 <= k < |table| ==> table[k] == table[1..][k - 1];
      r
  }

  /** The renderers that have route-drawing code. */
  predicate HasRoutes(v: Variant) {
    v.Unified? || v == GroundCopy
  }

  /** The table a renderer consults for the floor it draws. */
  function RoutesOf(v: Variant): (t: seq<Entry>)
    ensures FloorOf(v) != GroundFloor || !HasRoutes(v) ==> t == []
  {
    match v
    case Unified(f) => if f == GroundFloor then GroundRoutes else []
    case GroundCopy => GroundCopyRoutes
    case _ => []
  }

  /** `NAVIGATION_DATA[floor]?.[id]` (or `NAVIGATION_DATA[id]` in the ground-floor copy). */
  function NavigationEntry(v: Variant, id: string): Option<seq<Waypoint>> {
    Lookup(RoutesOf(v), id)
  }

  /** Only the ground floor has routes: every other floor's table is empty. */
  lemma OnlyGroundFloorRoutes(v: Variant, id: string)
    ensures NavigationEntry(v, id).Some? ==> FloorOf(v) == GroundFloor && HasRoutes(v)
  {
  }

  /** Every route of `t` starts at the kiosk and has at least two legs. */
  predicate FromKiosk(t: seq<Entry>) {
    forall j :: 0 <= j < |t| ==> |t[j].path| >= 3 && t[j].path[0] == Kiosk
  }

  lemma TablesFromKiosk(v: Variant)
    ensures FromKiosk(RoutesOf(v))
  {
    var t := RoutesOf(v);
    forall j | 0 <= j < |t| ensures |t[j].path| >= 3 && t[j].path[0] == Kiosk {
    }
  }

  /** Every authored route starts at the kiosk and has at least two legs. */
  lemma RoutesStartAtKiosk(v: Variant, id: string)
    ensures NavigationEntry(v, id).Some? ==>
      |NavigationEntry(v, id).value| >= 3 && NavigationEntry(v, id).value[0] == Kiosk
  {
    TablesFromKiosk(v);
  }

  /** The table ids are distinct, so the first match is the only one. */
  lemma TablesHaveDistinctIds(v: Variant)
    ensures forall i, j :: 0 <= i < j < |RoutesOf(v)| ==> RoutesOf(v)[i].id != RoutesOf(v)[j].id
  {
  }

  /** The two legs of the McDonald's route of `FloorMap`. */
  lemma McDonaldsLegs()
    ensures Segments(Kiosk, Waypoint(1354, 724)) == 2
    ensures Segments(Waypoint(1354, 724), Waypoint(1655, 728)) == 15
  {
    assert SquaredDistance(Kiosk, Waypoint(1354, 724)) == 1961;
    assert SquaredDistance(Waypoint(1354, 724), Waypoint(1655, 728)) == 90617;
    ISqrtUnique(90617, 301);
  }

  lemma McDonaldsEntry()
    ensures NavigationEntry(Unified(GroundFloor), "mcdonalds") == Some([Kiosk, Waypoint(1354, 724), Waypoint(1655, 728)])
  {
    var t := RoutesOf(Unified(GroundFloor));
    assert t[8] == Entry("mcdonalds", [Kiosk, Waypoint(1354, 724), Waypoint(1655, 728)]);
    TablesHaveDistinctIds(Unified(GroundFloor));
    var r := NavigationEntry(Unified(GroundFloor), "mcdonalds");
    assert r.Some?;
    var k :| 0 <= k < |t| && t[k] == Entry("mcdonalds", r.value);
    assert k == 8;
  }

  /**
   * The McDonald's route of `FloorMap`: its first leg (about 44 units) gets the
   * minimum of two segments, its second (about 301 units) fifteen, so the route
   * has 3 + 16 = 19 points.
   */
  lemma McDonaldsPointCount()
    ensures NavigationEntry(Unified(GroundFloor), "mcdonalds").Some?
    ensures PointCount(NavigationEntry(Unified(GroundFloor), "mcdonalds").value) == 19
  {
    McDonaldsEntry();
    McDonaldsLegs();
    PointCountOfThree(Kiosk, Waypoint(1354, 724), Waypoint(1655, 728));
  }
}
