/**
 * The kiosk application shell: the master store list merged from the three
 * floor documents, and the selection state (active floor, selected store,
 * route on or off) that the store clicks, the floor buttons and the store
 * panel change.
 */
module KioskApp {
  import opened Strings
  import opened Seqs
  import opened MapData

  /** The floor documents the master list is loaded from, in this order. */
  const MasterFloors: seq<Floor> := [GroundFloor, FirstFloor, RestaurantFloor]

  /**
   * A feature the master list keeps: a business type, and a lower-cased id that
   * mentions none of the placeholders `e-shop`, `wall` and `corridor`.
   */
  predicate IsListedStore(f: Feature) {
    && IsBusiness(f.props.kind)
    && !Contains(ToLower(f.props.id), "e-shop")
    && !Contains(ToLower(f.props.id), "wall")
    && !Contains(ToLower(f.props.id), "corridor")
  }

  /** `{ ...f, properties: { ...f.properties, floor } }`. */
  function TagFloor(f: Feature, fl: Floor): (g: Feature)
    ensures g.props.floor == Some(fl)
    ensures g.props.(floor := f.props.floor) == f.props && g.rings == f.rings
  {
    f.(props := f.props.(floor := Some(fl)))
  }

  /** The listed stores of one floor document, tagged with that floor, in document order. */
  function FloorStores(features: seq<Feature>, fl: Floor): (r: seq<Feature>)
    ensures |r| == |Filter(features, IsListedStore)|
    ensures forall k :: 0 <= k < |r| ==> r[k] == TagFloor(Filter(features, IsListedStore)[k], fl)
  {
    var kept := Filter(features, IsListedStore);
    seq(|kept|, k requires 0 <= k < |kept| => TagFloor(kept[k], fl))
  }

  /** `combined` after the first `n` documents. */
  function Combined(docs: seq<seq<Feature>>, n: nat): seq<Feature>
    requires n <= |docs| <= |MasterFloors|
  {
    if n == 0 then [] else Combined(docs, n - 1) + FloorStores(docs[n - 1], MasterFloors[n - 1])
  }

  /** The key of the master list's `Map`. */
  function StoreId(f: Feature): string {
    f.props.id
  }

  /** `allStores.find(s => s.properties.id === id)`. */
  function FindStore(stores: seq<Feature>, id: string): (r: Option<Feature>)
    ensures r.None? <==> forall k :: 0 <= k < |stores| ==> stores[k].props.id != id
    ensures r.Some? ==> exists k :: (0 <= k < |stores| && stores[k] == r.value && r.value.props.id == id
      && forall m :: 0 <= m < k ==> stores[m].props.id != id)
  {
    if stores == [] then None
    else if stores[0].props.id == id then Some(stores[0])
    else
      var r := FindStore(stores[1..], id);
      assert forall k :: 1 <= k < |stores| ==> stores[k] == stores[1..][k - 1];
      if r.Some? then
        var k :| 0 <= k < |stores[1..]| && stores[1..][k] == r.value && r.value.props.id == id
          && forall m :: 0 <= m < k ==> stores[1..][m].props.id != id;
        assert stores[k + 1] == r.value;
        r
      else
        r
  }

  /** In a list with distinct ids, `find` returns the one store with that id. */
  lemma FindStoreDistinct(stores: seq<Feature>, k: nat)
    requires DistinctKeys(stores, StoreId) && k < |stores|
    ensures FindStore(stores, stores[k].props.id) == Some(stores[k])
  {
    var r := FindStore(stores, stores[k].props.id);
    var j :| 0 <= j < |stores| && stores[j] == r.value && r.value.props.id == stores[k].props.id
      && forall m :: 0 <= m < j ==> stores[m].props.id != stores[k].props.id;
    assert StoreId(stores[j]) == StoreId(stores[k]);
  }

  /** `combined`: the floor documents' listed stores, one after the other. */
  method CombineFloors(docs: seq<seq<Feature>>) returns (combined: seq<Feature>)
    requires |docs| == |MasterFloors|
    ensures combined == Combined(docs, |docs|)
  {
    combined := [];
    for i := 0 to |docs|
      invariant combined == Combined(docs, i)
    {
      combined := combined + FloorStores(docs[i], MasterFloors[i]);
    }
  }

  /**
   * The `uniqueStoresMap` loop: the first store seen for each id goes into the
   * map, and `Array.from(map.values())` lists them in insertion order.
   */
  method DedupeStores(combined: seq<Feature>) returns (stores: seq<Feature>)
    ensures stores == DedupeBy(combined, StoreId)
  {
    var byId: map<string, Feature> := map[];
    stores := [];   // the map's values, in insertion order
    for i := 0 to |combined|
      invariant stores == DedupeBy(combined[..i], StoreId)
      invariant byId.Keys == KeySet(combined[..i], StoreId)
    {
      var id := combined[i].props.id;
      KeySetStep(combined, StoreId, i);
      DedupeStep(combined, StoreId, i);
      if id !in byId {
        byId := byId[id := combined[i]];
        stores := stores + [combined[i]];
      }
    }
    assert combined[..|combined|] == combined;
  }

  /** The master store list built from the three floor documents. */
  function MasterList(docs: seq<seq<Feature>>): seq<Feature>
    requires |docs| == |MasterFloors|
  {
    DedupeBy(Combined(docs, |docs|), StoreId)
  }

  /** Where each store of `combined` comes from: a listed feature of one document, tagged with that document's floor. */
  lemma {:induction false} CombinedOrigin(docs: seq<seq<Feature>>, n: nat)
    requires n <= |docs| <= |MasterFloors|
    ensures forall s :: s in Combined(docs, n) ==>
      exists d, f :: 0 <= d < n && f in docs[d] && IsListedStore(f) && s == TagFloor(f, MasterFloors[d])
  {
    if n > 0 {
      CombinedOrigin(docs, n - 1);
      var part := FloorStores(docs[n - 1], MasterFloors[n - 1]);
      forall s | s in part
        ensures exists f :: f in docs[n - 1] && IsListedStore(f) && s == TagFloor(f, MasterFloors[n - 1])
      {
        var k :| 0 <= k < |part| && part[k] == s;
        var kept := Filter(docs[n - 1], IsListedStore);
        assert kept[k] in docs[n - 1] && IsListedStore(kept[k]);
      }
    }
  }

  /** Every listed feature of a document is in `combined`, tagged with its floor. */
  lemma {:induction false} CombinedComplete(docs: seq<seq<Feature>>, n: nat, d: nat, f: Feature)
    requires n <= |docs| <= |MasterFloors| && d < n
    requires f in docs[d] && IsListedStore(f)
    ensures TagFloor(f, MasterFloors[d]) in Combined(docs, n)
  {
    if d < n - 1 {
      CombinedComplete(docs, n - 1, d, f);
    } else {
      var kept := Filter(docs[d], IsListedStore);
      var k :| 0 <= k < |kept| && kept[k] == f;
      assert FloorStores(docs[d], MasterFloors[d])[k] == TagFloor(f, MasterFloors[d]);
    }
  }

  /** Later documents only append to `combined`. */
  lemma {:induction false} CombinedGrows(docs: seq<seq<Feature>>, m: nat, n: nat)
    requires m <= n <= |docs| <= |MasterFloors|
    ensures Combined(docs, m) <= Combined(docs, n)
  {
    if m < n {
      CombinedGrows(docs, m, n - 1);
      var before := Combined(docs, n - 1);
      assert Combined(docs, n) == before + FloorStores(docs[n - 1], MasterFloors[n - 1]);
    }
  }

  /** The ground floor's stores come first in `combined`. */
  lemma GroundStoresFirst(docs: seq<seq<Feature>>)
    requires |docs| == |MasterFloors|
    ensures forall k :: 0 <= k < |FloorStores(docs[0], GroundFloor)| ==>
      k < |Combined(docs, 3)| && Combined(docs, 3)[k] == FloorStores(docs[0], GroundFloor)[k]
  {
    var g := FloorStores(docs[0], GroundFloor);
    assert MasterFloors[0] == GroundFloor;
    assert Combined(docs, 0) == [];
    assert Combined(docs, 1) == [] + g == g;
    CombinedGrows(docs, 1, 3);
    var c3 := Combined(docs, 3);
    forall k | 0 <= k < |g| ensures k < |c3| && c3[k] == g[k] {
      assert c3[..|g|][k] == c3[k];
    }
  }

  /**
   * The master list: ids are distinct; every store is a listed feature of one
   * floor document, with that floor set and its other properties kept; and the
   * stores are the first occurrences of their ids in `combined` (ground, first,
   * restaurant), in that order.
   */
  lemma MasterListOrigin(docs: seq<seq<Feature>>)
    requires |docs| == |MasterFloors|
    ensures DistinctKeys(MasterList(docs), StoreId)
    ensures forall s :: s in MasterList(docs) ==>
      exists d, f :: 0 <= d < 3 && f in docs[d] && IsListedStore(f) && s == TagFloor(f, MasterFloors[d])
    ensures var combined, idx := Combined(docs, 3), FirstIndices(Combined(docs, 3), StoreId);
      && |idx| == |MasterList(docs)|
      && (forall k :: 0 <= k < |idx| ==>
            (idx[k] < |combined| && combined[idx[k]] == MasterList(docs)[k] && IsFirstOfKey(combined, StoreId, idx[k])))
      && (forall k, l :: 0 <= k < l < |idx| ==> idx[k] < idx[l])
  {
    var combined := Combined(docs, 3);
    CombinedOrigin(docs, 3);
    forall s | s in MasterList(docs) ensures s in combined {
      var i :| 0 <= i < |MasterList(docs)| && MasterList(docs)[i] == s;
    }
    DedupeIsFirstOccurrences(combined, StoreId);
  }

  /** Every listed feature of every floor document has its id in the master list. */
  lemma MasterListComplete(docs: seq<seq<Feature>>, d: nat, f: Feature)
    requires |docs| == |MasterFloors| && d < 3
    requires f in docs[d] && IsListedStore(f)
    ensures exists s :: s in MasterList(docs) && s.props.id == f.props.id
  {
    var combined := Combined(docs, 3);
    CombinedComplete(docs, 3, d, f);
    assert StoreId(TagFloor(f, MasterFloors[d])) in KeySet(combined, StoreId);
    assert f.props.id in KeySet(MasterList(docs), StoreId);
  }

  /** A store listed on the ground floor is kept with the ground floor, whatever the other floors list under its id. */
  lemma GroundFloorWins(docs: seq<seq<Feature>>, f: Feature)
    requires |docs| == |MasterFloors|
    requires f in docs[0] && IsListedStore(f)
    ensures exists s :: s in MasterList(docs) && s.props.id == f.props.id && s.props.floor == Some(GroundFloor)
  {
    var combined := Combined(docs, 3);
    var ground := FloorStores(docs[0], GroundFloor);
    GroundStoresFirst(docs);
    CombinedComplete(docs, 1, 0, f);
    assert Combined(docs, 1) == [] + ground;
    var j :| 0 <= j < |ground| && ground[j] == TagFloor(f, GroundFloor);
    assert combined[j] == ground[j];
    // the first occurrence of the id lies in the ground floor's part
    FirstOccurrence(combined, StoreId, j);
    var i :| 0 <= i <= j && StoreId(combined[i]) == StoreId(combined[j]) && IsFirstOfKey(combined, StoreId, i);
    assert combined[i] == ground[i];
    DedupeKeepsFirst(combined, StoreId, i);
  }

  /** What the store panel shows: the logo asset name, the store's name and type, and which route button it offers. */
  datatype PanelView = PanelView(logo: string, name: string, kind: FeatureType, offersDirections: bool)

  /**
   * The kiosk's state. `allStores` only ever holds master-list stores, so every
   * store carries the floor it was listed on.
   */
  class Kiosk {
    var activeFloor: Floor
    var selectedId: Option<string>   // selectedStoreId; None is null
    var showRoute: bool
    var allStores: seq<Feature>

    predicate Valid()
      reads this
    {
      && DistinctKeys(allStores, StoreId)
      && forall k :: 0 <= k < |allStores| ==> allStores[k].props.floor.Some?
    }

    /** The initial state: the ground floor, nothing selected, no route, no stores yet. */
    constructor ()
      ensures activeFloor == GroundFloor && selectedId == None && !showRoute && allStores == []
      ensures Valid()
    {
      activeFloor := GroundFloor;
      selectedId := None;
      showRoute := false;
      allStores := [];
    }

    /**
     * The master list load settling: the merged list replaces `allStores`, or,
     * when a document fails to load or parse (`None`), the error is logged and
     * nothing changes.
     */
    method LoadMasterList(docs: Option<seq<seq<Feature>>>)
      requires Valid()
      requires docs.Some? ==> |docs.value| == |MasterFloors|
      modifies this`allStores
      ensures Valid()
      ensures docs.None? ==> allStores == old(allStores)
      ensures docs.Some? ==> allStores == MasterList(docs.value)
    {
      if docs.None? {
        return;
      }
      var combined := CombineFloors(docs.value);
      allStores := DedupeStores(combined);
      forall k | 0 <= k < |allStores| ensures allStores[k].props.floor.Some? {
        MasterListOrigin(docs.value);
        assert allStores[k] in MasterList(docs.value);
      }
    }

    /**
     * `handleStoreClick`: a falsy id clears the selection and the route; a store
     * of the master list is selected on its own floor with the route off; any
     * other id (a lift, a restroom, stairs) is selected with the route on and the
     * floor left as it is.
     */
    method HandleStoreClick(id: Option<string>)
      requires Valid()
      modifies this`activeFloor, this`selectedId, this`showRoute
      ensures Valid()
      ensures id.None? || id.value == "" ==> selectedId == None && !showRoute && activeFloor == old(activeFloor)
      ensures id.Some? && id.value != "" && FindStore(allStores, id.value).Some? ==>
        && activeFloor == FindStore(allStores, id.value).value.props.floor.value
        && selectedId == id && !showRoute
      ensures id.Some? && id.value != "" && FindStore(allStores, id.value).None? ==>
        selectedId == id && showRoute && activeFloor == old(activeFloor)
    {
      if id.None? || id.value == "" {
        selectedId := None;
        showRoute := false;
        return;
      }
      var store := FindStore(allStores, id.value);
      if store.Some? {
        activeFloor := store.value.props.floor.value;
        selectedId := id;
        showRoute := false;
      } else {
        selectedId := id;
        showRoute := true;
      }
    }

    /** A floor button: that floor, nothing selected, no route. */
    method SelectFloor(f: Floor)
      modifies this`activeFloor, this`selectedId, this`showRoute
      ensures activeFloor == f && selectedId == None && !showRoute
    {
      activeFloor := f;
      selectedId := None;
      showRoute := false;
    }

    /** The panel's close button: nothing selected, no route, the floor kept. */
    method ClosePanel()
      modifies this`selectedId, this`showRoute
      ensures selectedId == None && !showRoute
    {
      selectedId := None;
      showRoute := false;
    }

    /** "GET DIRECTIONS" (`show == true`) and "CLEAR ROUTE" (`show == false`). */
    method SetRoute(show: bool)
      modifies this`showRoute
      ensures showRoute == show
    {
      showRoute := show;
    }

    /** The store panel, shown while a selected id names a store of the master list. */
    function Panel(): (r: Option<PanelView>)
      reads this
      ensures r.Some? <==> selectedId.Some? && selectedId.value != "" && FindStore(allStores, selectedId.value).Some?
      ensures r.Some? ==> (StripUnitSuffix(selectedId.value) == r.value.logo
        && r.value.name == FindStore(allStores, selectedId.value).value.props.name
        && (r.value.offersDirections <==> !showRoute))
    {
      if selectedId.Some? && selectedId.value != "" && FindStore(allStores, selectedId.value).Some? then
        var store := FindStore(allStores, selectedId.value).value;
        Some(PanelView(StripUnitSuffix(selectedId.value), store.props.name, store.props.kind, !showRoute))
      else
        None
    }
  }
}
