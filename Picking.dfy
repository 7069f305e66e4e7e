/**
 * Pick resolution: what a click or tap on the canvas reports to the selection
 * callback. Raycasting is not modelled: the caller supplies the intersected
 * objects, nearest first, each with the chain of its ancestors.
 */
module Picking {
  import opened MapData
  import opened FloorRules

  /**
   * A scene object as the picker sees it: `userData` is a feature's properties
   * bag on surfaces and icon planes, and empty on everything else (edge
   * outlines, the scene itself).
   */
  type UserData = Option<Props>

  /** An intersected object and its ancestors, parent first. */
  datatype Hit = Hit(target: UserData, ancestors: seq<UserData>)

  /** `userData?.id` is truthy. */
  predicate HasId(d: UserData) {
    d.Some? && d.value.id != ""
  }

  /** The walk `while (target && !target.userData?.id && target.parent)` starts at the object itself. */
  function Chain(h: Hit): (c: seq<UserData>)
    ensures |c| >= 1
  {
    [h.target] + h.ancestors
  }

  /**
   * The properties of the nearest object of the chain that carries an id; None
   * when no object of the chain does.
   */
  function Resolve(chain: seq<UserData>): (r: Option<Props>)
    ensures r.None? <==> forall k :: 0 <= k < |chain| ==> !HasId(chain[k])
    ensures r.Some? ==> r.value.id != ""
    ensures r.Some? ==> exists k :: (0 <= k < |chain| && chain[k] == Some(r.value)
      && forall m :: 0 <= m < k ==> !HasId(chain[m]))
  {
    if chain == [] then None
    else if HasId(chain[0]) then chain[0]
    else
      var r := Resolve(chain[1..]);
      assert forall k :: 1 <= k < |chain| ==> chain[k] == chain[1..][k - 1];
      if r.Some? then
        var k :| 0 <= k < |chain[1..]| && chain[1..][k] == Some(r.value)
          && forall m :: 0 <= m < k ==> !HasId(chain[1..][m]);
        assert chain[k + 1] == Some(r.value);
        r
      else
        r
  }

  /** Whether a renderer reports a resolved feature, or treats it like a miss. */
  predicate Reportable(v: Variant, p: Props) {
    match v
    case FirstCopy => !IsEShop(p.id) && (p.kind == Retail || p.kind == Food || p.icon != "")
    case RestaurantCopy => p.kind == Retail || p.kind == Food || p.kind == Fun || p.icon != ""
    case _ => true
  }

  /** What a renderer reports after a click: `hits` nearest first, `hasCallback` whether `onMapClick` is set. */
  function PickOutcome(v: Variant, hits: seq<Hit>, hasCallback: bool): Callback {
    if !hasCallback then NoCallback
    else if |hits| > 0 && Resolve(Chain(hits[0])).Some? && Reportable(v, Resolve(Chain(hits[0])).value) then
      Selected(Some(Resolve(Chain(hits[0])).value.id))
    else if v == GroundCopy then NoCallback
    else Selected(None)
  }

  /** Where the walk stops: at the first object with an id, or at the chain's end when there is none. */
  lemma {:induction false} ResolveStops(chain: seq<UserData>, k: nat)
    requires k < |chain| && forall m :: 0 <= m < k ==> !HasId(chain[m])
    requires HasId(chain[k]) || k + 1 == |chain|
    ensures HasId(chain[k]) ==> Resolve(chain) == chain[k]
    ensures !HasId(chain[k]) ==> Resolve(chain) == None
  {
    if k == 0 {
      if !HasId(chain[0]) {
        assert chain[1..] == [];
      }
    } else {
      var rest := chain[1..];
      assert !HasId(chain[0]);
      assert forall m :: 0 <= m < k - 1 ==> rest[m] == chain[m + 1];
      assert rest[k - 1] == chain[k];
      ResolveStops(rest, k - 1);
    }
  }

  /** `handlePointer`, from the intersection list on. */
  method HandlePointer(v: Variant, hits: seq<Hit>, hasCallback: bool) returns (c: Callback)
    ensures c == PickOutcome(v, hits, hasCallback)
  {
    c := NoCallback;
    if |hits| > 0 {
      var chain := Chain(hits[0]);
      var k := 0;
      while !HasId(chain[k]) && k + 1 < |chain|
        invariant 0 <= k < |chain|
        invariant forall m :: 0 <= m < k ==> !HasId(chain[m])
      {
        k := k + 1;
      }
      var data := chain[k];
      ResolveStops(chain, k);
      if HasId(data) && Reportable(v, data.value) {
        if hasCallback {
          c := Selected(Some(data.value.id));
        }
      } else {
        if hasCallback && v != GroundCopy {
          c := Selected(None);
        }
      }
    } else if hasCallback && v != GroundCopy {
      c := Selected(None);
    }
  }

  /**
   * What every renderer reports: a reported id is the nearest id on the chain
   * of the nearest hit, never empty; the ground-floor copy never reports null,
   * while every other renderer reports exactly once per click (the id or null)
   * whenever a callback is set.
   */
  lemma PickRules(v: Variant, hits: seq<Hit>, hasCallback: bool)
    ensures PickOutcome(v, hits, hasCallback) != NoCallback ==> hasCallback
    ensures PickOutcome(v, hits, hasCallback) == Selected(None) ==> v != GroundCopy
    ensures hasCallback && v != GroundCopy ==> PickOutcome(v, hits, hasCallback).Selected?
    ensures PickOutcome(v, hits, hasCallback).Selected? && PickOutcome(v, hits, hasCallback).id.Some? ==>
      |hits| > 0 && exists k :: (0 <= k < |Chain(hits[0])| && HasId(Chain(hits[0])[k])
        && Chain(hits[0])[k].value.id == PickOutcome(v, hits, hasCallback).id.value
        && Reportable(v, Chain(hits[0])[k].value)
        && forall m :: 0 <= m < k ==> !HasId(Chain(hits[0])[m]))
  {
  }

  /** `FloorMap` and the ground-floor copy report every resolved id; they differ only on misses. */
  lemma UnifiedReportsEveryId(f: Floor, hits: seq<Hit>)
    requires |hits| > 0 && Resolve(Chain(hits[0])).Some?
    ensures PickOutcome(Unified(f), hits, true) == Selected(Some(Resolve(Chain(hits[0])).value.id))
    ensures PickOutcome(GroundCopy, hits, true) == PickOutcome(Unified(f), hits, true)
  {
  }

  /** The first-floor copy never reports an `e-shop` unit, whatever is clicked. */
  lemma FirstCopyHidesEShops(hits: seq<Hit>, hasCallback: bool, id: string)
    requires PickOutcome(FirstCopy, hits, hasCallback) == Selected(Some(id))
    ensures !IsEShop(id)
  {
  }

  /** A click on a feature's edge outline reports the feature itself. */
  lemma EdgeClickReportsFeature(p: Props, rest: seq<UserData>)
    requires p.id != ""
    ensures PickOutcome(Unified(GroundFloor), [Hit(None, [Some(p)] + rest)], true) == Selected(Some(p.id))
  {
    assert Chain(Hit(None, [Some(p)] + rest))[1] == Some(p);
  }
}
