# Mall kiosk floor map: a Dafny model

This project models the rule layer of a shopping-mall kiosk's 3D floor map and the
small selection and list logic of the React app around it.

The repository holds four floor renderers:
- `FloorMap`, the one the app mounts, once per floor;
- three older single-floor copies (ground, first and restaurant floor) whose rule
  branches drifted apart.

The model has one rule set, parameterised by `Variant` (`Unified(floor)`,
`GroundCopy`, `FirstCopy`, `RestaurantCopy`). Every branch of that rule set follows
its own file.

Modules, one file each:

- `Strings`: JavaScript's `trim` (its exact whitespace set), ASCII `toLowerCase`,
  `includes`, and the `/-[0-9]$/` logo-name strip.
- `Seqs`: `filter`, and keep-the-first-per-key (the `Map` and `Set` dedupe loops),
  with its order and first-occurrence lemmas.
- `MapData`: floors, feature types, the properties bag, GeoJSON features, and the
  exterior-ring outline shifted by `OFFSET_X`/`OFFSET_Y`.
- `FloorRules`: per renderer, the base and highlight colours, elevation, polygon
  offset, label or icon overlay (with the `lift`/`stair` renames), and label events.
- `RouteGeometry`: route resampling. Each waypoint pair gets
  `max(floor(d / 20), 2)` segments, computed with an exact integer square root.
  The nested push loop is a method proved against the `Resample` function.
- `Navigation`: the authored route tables, the lookup, and facts about them.
- `RouteAnimation`: the per-frame reveal and glow state machine of the active route,
  in exact arithmetic, with its closed form.
- `Picking`: the pointer handler's walk up the parent chain, and what each
  renderer reports.
- `FloorEngine`: the renderer as a class. Its fields are:
  - the meshes of `objectsRef`, labels and pending icon loads;
  - the single `active-route` and a log of its additions and removals;
  - the dot-texture cache and the `isUnmountingRef` liveness flag.

  Its methods are the handlers that React, `fetch`, the texture loader and
  `requestAnimationFrame` call.
- `KioskApp`: the master store list (filter, floor tag, dedupe by id) and the `App`
  selection state machine as a class.
- `Directory`: the sidebar's brand filter, dedupe by trimmed name, search, and
  category pill.
- `FooterPanel`: the tab toggle and the top-five click ranking.

Interfaces to the outside are parameters:
- the features a `fetch` delivers;
- the intersected objects of a click, nearest first, each with its ancestor chain;
- which pending icon load finishes;
- whether a callback is set;
- the click counts.

## Model

| member | source | states |
|---|---|---|
| MapData.ShapeOutline | src/components/FloorMap.jsx:416-423 | a feature has an outline exactly when its first ring is non-empty; the outline is that ring, point by point, shifted by the fixed offsets |
| MapData.ShapeOutlineIgnoresHoles | src/components/FloorMap.jsx:418 | interior rings never affect the outline (only `coordinates[0]` is read) |
| Strings.Trim | src/components/Sidebar.jsx:20 | `trim` returns the slice of the input between whitespace runs, with no whitespace at either end |
| Strings.TrimIdempotent | src/components/Sidebar.jsx:20 | trimming twice is trimming once |
| Strings.ToLower | src/App.jsx:27 | `toLowerCase` keeps the length, lowers each character and leaves no upper-case ASCII letter |
| Strings.ToLowerIdempotent | src/components/Sidebar.jsx:29 | lower-casing twice is lower-casing once |
| Strings.Contains | src/App.jsx:29 | `includes` holds exactly when the substring occurs at some index |
| Strings.ContainsEmpty | src/components/Sidebar.jsx:28-30 | every string includes the empty string |
| Strings.StripUnitSuffix | src/components/Sidebar.jsx:33-36 | the result is the input or the input minus a final dash-and-digit, and it differs exactly when the input ends in one |
| Strings.StripUnitSuffixOnce | src/App.jsx:122 | only one suffix goes: `x-1-2` becomes `x-1`, `hush-puppies-1` becomes `hush-puppies`, and other ids are kept |
| Seqs.Filter | src/App.jsx:25-31 | `filter` keeps exactly the elements satisfying the test |
| Seqs.FilterConcat | src/App.jsx:36 | filtering distributes over concatenation, so the input order is kept |
| Seqs.DedupeBy | src/App.jsx:40-48 | the result has distinct keys, the same key set as the input, and only input elements |
| Seqs.DedupeIsFirstOccurrences | src/components/Sidebar.jsx:16-25 | the kept elements are exactly the first element of each key, at strictly increasing input positions |
| Seqs.DedupeKeepsFirst | src/App.jsx:43-45 | the first element with a key is always kept |
| FloorRules.BaseColour | src/components/FloorMap.jsx:427-436 | the unselected colour is never the highlight; paths are `0xcbd5e1`; empty units are `0xf1f5f9` on the first floor and `0xe2e8f0` elsewhere; first-floor e-shops are `0xe2e8f0`; every other feature is white |
| FloorRules.DisplayColour | src/components/FloorMap.jsx:573-589 | the highlight `0xfee2e2` is shown exactly when the feature's id is the selection; otherwise the base colour is shown |
| FloorRules.NoDashNoEShop | src/components/FloorMap.jsx:432 | an id without a dash is never an e-shop |
| FloorRules.LayeringOrder | src/components/FloorMap.jsx:450-458 | walls sit at -2, paths at 0, everything else at 1 on the first floor and 2 elsewhere |
| FloorRules.PolygonOffsetFactor | src/components/FloorMap.jsx:442 | the factor is 2 exactly for the first floor's `wall`, and 1 otherwise |
| FloorRules.CopiesAgreeOnSurfaces | src/components/GroundFloorMap.jsx:369-379 | on every floor, the copy's colour, elevation and offset equal `FloorMap`'s for that floor |
| FloorRules.IconFile | src/components/FloorMap.jsx:278 | `lift` and `stair` are never asset names; every other icon is used unchanged |
| FloorRules.OverlayRules | src/components/FloorMap.jsx:236-278 | a label carries its own id and goes only on a labelled business type; an icon only on an unlabelled feature with an icon; first-floor e-shops get no label, and in the first-floor copy nothing at all |
| FloorRules.GroundCopyDropsFunLabels | src/components/GroundFloorMap.jsx:189 | a fun unit is labelled by `FloorMap` on the ground floor but not by the ground-floor copy |
| FloorRules.LabelEvents | src/components/FirstFloorMap.jsx:58-73 | labels listen to click and touchend, and also to mousedown exactly in the first-floor copy |
| FloorRules.LabelClick | src/components/FloorMap.jsx:254-260 | a label reports its own id exactly when a callback is set |
| RouteGeometry.ISqrtUnique | src/components/FloorMap.jsx:200-201 | the integer square root is the unique `r` with `r*r <= n < (r+1)*(r+1)`, so `floor(d / 20)` is `ISqrt(d^2) / 20` |
| RouteGeometry.Segments | src/components/FloorMap.jsx:201 | at least 2 segments; exactly 2 when the distance is below 60; otherwise `k` with `20k <= d < 20(k+1)` |
| RouteGeometry.BlockShape | src/components/FloorMap.jsx:197-205 | a pair's points start at the first corner, end at the second, and advance by equal steps |
| RouteGeometry.ResampleLength | src/components/FloorMap.jsx:197-205 | a route has the sum of `segments + 1` points over its pairs, at least `3(n-1)` for `n` waypoints |
| RouteGeometry.ResamplePrefix | src/components/FloorMap.jsx:197-205 | adding a waypoint only appends points |
| RouteGeometry.BlockAt | src/components/FloorMap.jsx:197-205 | pair `i`'s points sit contiguously at their offset in the route |
| RouteGeometry.ResamplePoints | src/components/GroundFloorMap.jsx:147-157 | the nested push loop produces exactly `Resample(path)` |
| Navigation.Lookup | src/components/FloorMap.jsx:189 | a table lookup fails exactly when no entry has the id, and otherwise returns an entry's waypoints |
| Navigation.OnlyGroundFloorRoutes | src/components/FloorMap.jsx:115-121 | only the ground floor has routes; the first-floor and restaurant tables are empty |
| Navigation.RoutesStartAtKiosk | src/components/FloorMap.jsx:11-114 | every authored route starts at the kiosk (1349, 680) and has at least two legs |
| Navigation.TablesFromKiosk | src/components/GroundFloorMap.jsx:10-76 | both tables consist of routes from the kiosk with at least two legs |
| Navigation.McDonaldsPointCount | src/components/FloorMap.jsx:28 | the McDonald's route has legs of 2 and 15 segments, so 19 points |
| RouteAnimation.AdvanceKeepsInv | src/components/FloorMap.jsx:499-514 | a frame keeps the invariant; the draw count never decreases and never exceeds `totalPoints`; glow frames start only after the full reveal; a settled route stays unchanged |
| RouteAnimation.FramesAfter | src/components/FloorMap.jsx:494-515 | a new route animated `n` frames equals the closed form `After(total, n)` |
| RouteAnimation.RevealProgress | src/components/FloorMap.jsx:500-503 | in exact arithmetic, after `n` frames the draw count is `min(floor(min(n, 5T)/5), T)` and `isFullyDrawn` holds exactly from frame `max(5T, 1)`; the program's double sum of `0.2` can reach each count one frame later (see Left out) |
| RouteAnimation.DrawCountMonotone | src/components/GroundFloorMap.jsx:420-424 | the draw count never decreases over time and never exceeds `totalPoints` |
| RouteAnimation.GlowEndsWhen | src/components/FloorMap.jsx:505-509 | `0.05k >= Math.PI` first holds at `k = 63` |
| RouteAnimation.GlowSettles | src/components/FloorMap.jsx:509-513 | 63 glow frames after the reveal, the route is done at opacity 0.9 and size 12, fully drawn, and later frames change nothing |
| RouteAnimation.GlowNotEarlier | src/components/GroundFloorMap.jsx:425-435 | before that frame the glow is not done |
| Picking.Resolve | src/components/FloorMap.jsx:386-392 | the walk finds the nearest object of the chain with a truthy id, and none exactly when no object has one |
| Picking.HandlePointer | src/components/FloorMap.jsx:383-410 | the parent-walk loop reports exactly `PickOutcome` |
| Picking.PickRules | src/components/FloorMap.jsx:394-410 | a report needs a callback; a reported id is the nearest id on the nearest hit's chain; every renderer but the ground-floor copy reports exactly once (an id or null) when a callback is set |
| Picking.UnifiedReportsEveryId | src/components/GroundFloorMap.jsx:336-354 | the ground-floor copy and `FloorMap` report the same id on every resolved hit |
| Picking.FirstCopyHidesEShops | src/components/FirstFloorMap.jsx:194-195 | the first-floor copy never reports an e-shop id |
| Picking.EdgeClickReportsFeature | src/components/FloorMap.jsx:388-390 | a click on a feature's edge outline reports that feature |
| FloorEngine.NewRoute | src/components/FloorMap.jsx:207-232 | a new route to the target holds exactly the resampled points of its path (`PointCount(path)` of them) and a fresh reveal of that many points: nothing drawn, no glow, the invariant holding |
| FloorEngine.BuildAllShape | src/components/FloorMap.jsx:476 | building gives one surface per feature, in order, with the feature's own properties, elevation and outline, and, in the corrected build of the Findings row, the display colour of the current selection (as written, `FloorMap.jsx:427-436` builds the base colour); every label and icon load comes from a feature with that overlay |
| FloorEngine.BuildCountStops | src/components/FloorMap.jsx:476 | `forEach(createMesh)` stops exactly at the first feature without an outline |
| FloorEngine.AsWrittenBuildColour | src/components/FloorMap.jsx:427-439 | as written, `FloorMap` and the ground-floor copy never build a highlighted surface; the other copies highlight only the selection captured at mount |
| FloorEngine.AsWrittenMissesSelection | src/components/FloorMap.jsx:473-476 | McDonald's built while selected comes out white, not highlighted; on any floor `FloorMap`'s build differs from the display colour exactly for the selected feature |
| FloorEngine.SelectionSurvivesLoad | src/components/FirstFloorMap.jsx:237 | a plan built under a selection highlights exactly the surfaces with that id |
| FloorEngine.AlternatesRemove | src/components/FloorMap.jsx:178-187 | removing the route keeps additions and removals alternating |
| FloorEngine.AlternatesAdd | src/components/FloorMap.jsx:218-233 | adding a route when none is shown keeps them alternating |
| FloorEngine.FloorMapView.constructor | src/components/FloorMap.jsx:304-312 | mounting requests a frame, syncs the props once and establishes the invariant |
| FloorEngine.FloorMapView.GetCircleTexture | src/components/FloorMap.jsx:157-170 | the dot texture is created only when missing and, for guarded renderers, not while unmounting |
| FloorEngine.FloorMapView.RemoveRoute | src/components/FloorMap.jsx:592-610 | the route, if any, is removed and logged; none is left |
| FloorEngine.FloorMapView.DrawDynamicRoute | src/components/FloorMap.jsx:172-233 | the same target is a no-op; otherwise the old route is removed before the new one is added, and none is added without a table entry |
| FloorEngine.FloorMapView.Recolour | src/components/FloorMap.jsx:573-589 | every mesh gets its display colour for the selection, and no other field changes |
| FloorEngine.FloorMapView.SyncEffect | src/components/FloorMap.jsx:573-612 | after the effect a route exists exactly when `showRoute && selectedId && NAVIGATION_DATA[floor][selectedId]`, and it is that target's route; a same-target route keeps its animation |
| FloorEngine.FloorMapView.CreateMesh | src/components/FloorMap.jsx:416-468 | one surface is appended, in the corrected build's display colour for the current selection (not the base colour of `FloorMap.jsx:427-436`), and its label or icon load is requested |
| FloorEngine.FloorMapView.BuildFeatures | src/components/FloorMap.jsx:475-476 | `objectsRef` is reset and rebuilt from the features up to the first without an outline, each surface in the corrected build's display colour, so every mesh shows the current selection |
| FloorEngine.FloorMapView.CompleteFetch | src/components/FloorMap.jsx:471-477 | a guarded renderer that is unmounting builds nothing; otherwise the plan is rebuilt (with the corrected build colour), and the marker is placed only on the ground floor and only when every feature was built |
| FloorEngine.FloorMapView.CompleteIconLoad | src/components/FloorMap.jsx:279-300 | a late icon load on a guarded, unmounting renderer adds nothing; otherwise the icon plane joins `objectsRef` one unit above its surface, in the display colour the next colour effect would give it (the source creates it white, FloorMap.jsx:285-290) |
| FloorEngine.FloorMapView.AnimateFrame | src/components/FloorMap.jsx:486-516 | a guarded, unmounting renderer stops scheduling; otherwise the next frame is requested and the route advanced |
| FloorEngine.FloorMapView.Cleanup | src/components/FloorMap.jsx:524-549 | cleanup raises the flag, cancels the frame (except in the first-floor copy), removes the route and drops the texture |
| KioskApp.TagFloor | src/App.jsx:32-35 | the floor is set and every other property is kept |
| KioskApp.FloorStores | src/App.jsx:24-35 | a document's stores are its listed features, in order, each tagged with its floor |
| KioskApp.FindStore | src/App.jsx:66 | `find` returns the first store with the id, and nothing exactly when there is none |
| KioskApp.FindStoreDistinct | src/App.jsx:80 | in a list with distinct ids, `find` returns the one store with that id |
| KioskApp.CombineFloors | src/App.jsx:21-37 | the `combined` loop concatenates the floor documents' stores in floor order |
| KioskApp.DedupeStores | src/App.jsx:40-48 | the `Map` loop keeps the first store per id, in insertion order |
| KioskApp.MasterListOrigin | src/App.jsx:24-48 | the ids are distinct; every store is a listed feature (business type, no `e-shop`/`wall`/`corridor` in its id) tagged with its document's floor; the stores are the first occurrences of their ids, in order |
| KioskApp.MasterListComplete | src/App.jsx:24-48 | every listed feature of every floor has its id in the master list |
| KioskApp.GroundFloorWins | src/App.jsx:15 | a store listed on the ground floor is kept with the ground floor |
| KioskApp.Kiosk.constructor | src/App.jsx:7-11 | the app starts on the ground floor, with nothing selected, no route and no stores |
| KioskApp.Kiosk.LoadMasterList | src/App.jsx:14-50 | a successful load replaces the store list with the master list; a failed one changes nothing |
| KioskApp.Kiosk.HandleStoreClick | src/App.jsx:59-77 | a falsy id clears the selection and the route; a known store is selected on its own floor with the route off; an unknown id is selected with the route on and the floor unchanged |
| KioskApp.Kiosk.SelectFloor | src/App.jsx:92-96 | a floor button sets the floor, clears the selection and turns the route off |
| KioskApp.Kiosk.ClosePanel | src/App.jsx:117 | closing the panel clears the selection and the route |
| KioskApp.Kiosk.SetRoute | src/App.jsx:152-160 | the directions and clear buttons turn the route on and off |
| KioskApp.Kiosk.Panel | src/App.jsx:115-128 | the panel shows exactly when the selected id names a store; it shows the stripped logo name and the store's name, and offers directions exactly while no route is shown |
| Directory.UniqueBrands | src/components/Sidebar.jsx:16-25 | the `seenNames` loop keeps the first store per trimmed name |
| Directory.UniqueBrandsRules | src/components/Sidebar.jsx:16-25 | no two entries share a trimmed name, and every trimmed name of the input is listed |
| Directory.Search | src/components/Sidebar.jsx:28-30 | the search keeps exactly the brands whose lower-cased name contains the lower-cased query |
| Directory.EmptyQueryKeepsAll | src/components/Sidebar.jsx:28-30 | the empty query lists every brand |
| Directory.SearchIgnoresCase | src/components/Sidebar.jsx:29 | a query and its lower-cased form give the same result |
| Directory.CategoryLabel | src/components/Sidebar.jsx:86-88 | food is `Dining`, fun is `Entertainment`, banking is `Banking`, and the pill is `Fashion` exactly for every other type |
| Directory.ListingRules | src/components/Sidebar.jsx:8-30 | every row is a business store with a name that matches the query, and no two rows share a trimmed name |
| FooterPanel.NextTab | src/components/Footer.jsx:14-20 | clicking the active tab collapses it; any other click opens the clicked tab |
| FooterPanel.ClickTwice | src/components/Footer.jsx:14-20 | two clicks on one tab restore the state exactly when it was collapsed or that tab |
| FooterPanel.SortDesc | src/components/Footer.jsx:28 | the sort is a permutation of the entries |
| FooterPanel.SortDescSorted | src/components/Footer.jsx:28 | the sort orders counts non-increasingly |
| FooterPanel.SortDescDistinct | src/components/Footer.jsx:24-28 | sorting keeps the ids distinct |
| FooterPanel.TopStores | src/components/Footer.jsx:23-39 | there are `min(5, entries)` rows |
| FooterPanel.TopStoresOrder | src/components/Footer.jsx:24-29 | no counts give no rows; at most five rows, by non-increasing count, with distinct ids |
| FooterPanel.TopStoresChoice | src/components/Footer.jsx:27-30 | each row is an entry's count; the omitted entries are the rest of the counts, each no larger than any shown count |
| FooterPanel.UnknownStoreFallback | src/components/Footer.jsx:31-36 | an unknown store shows its id as the name and `unknown` as the floor |
| FooterPanel.KnownStoreRow | src/components/Footer.jsx:31-36 | a known store shows its name (or its id when the name is empty) and its floor |

## Left out

- Rendering is not modelled: three.js, WebGL, `CSS2DRenderer`, shape triangulation,
  edge geometry, materials and texture objects. Meshes are records holding
  properties, colour, height and outline.
- `OrbitControls`, the camera and its aspect ratio, and `resetCamera` are left out.
  They are library float numerics with no decision logic.
- Raycasting and the pointer-to-normalised-coordinates conversion are left out. The
  hit list is a parameter, nearest first.
- Floating-point numerics are replaced by exact values:
  - `distanceTo` is replaced by an exact integer square root (waypoints are integers);
  - `lerpVectors` and `currentPoint` accumulation use exact reals;
  - `Math.sin` during the glow is not computed (the material is "pulsing");
  - `glowOffset` is accumulated as `0.05 * k` exactly.
  Double rounding can differ from this; see `RouteAnimation.RevealProgress` below.
- `fetch`, `TextureLoader`, `setTimeout`, `requestAnimationFrame` and the clock
  interval are I/O and scheduling. Their completions are the handler methods;
  delivered data is a parameter.
- A floor document without a `features` field is left out: `FloorMap` then throws,
  and the first-floor copy skips the build.
- A feature with an id that is not a string is left out.
- `FloorEngine.FloorMapView.CompleteFetch`: a throwing `createMesh` is modelled as
  stopping the build at the first feature without an outline. The rejected promise
  itself is not modelled.
- `KioskApp.Kiosk.LoadMasterList`: every failure of any of the three fetches or
  parses is one `None`. Only "nothing changes" is modelled.
- `Object.prototype` keys are not modelled. The navigation tables are plain objects,
  so an id such as `constructor` would find an inherited value; here lookups see
  only authored entries.
- `Object.entries` order for integer-like keys is not modelled. The click counts
  are given as a sequence of entries in enumeration order.
- `toLowerCase` is modelled for ASCII letters only. Non-ASCII case mapping is
  left out.
- `FloorEngine.FloorMapView.SyncEffect`: the effect runs when its dependencies
  change. The model runs it on every call. With the corrected build every mesh
  already shows its display colour, so a run with unchanged props changes nothing.
  As written, such a run would recolour meshes built since the last run; that
  difference is the lost highlight of the Findings row.
- Aliasing of meshes and identity of disposed textures are not modelled. Disposal
  is recorded only as the route log, the texture flag and `released`.
- The coordinate logging in the pointer handlers and the `console` output are left
  out; they are debug output.
- The description text of the store panel and the JSX layout are left out; they are
  presentation.
- Orientation, label placement (10 units above the surface) and the icon plane's
  size are left out. The icon's height, one unit above its surface, is kept.
- `FloorEngine.FloorMapView` models the corrected build of the Findings row, not
  the build as written. Its surfaces and icon planes get the display colour of the
  current selection, and `ColoursCurrent` is part of its invariant. As written:
  - `FloorMap.jsx:427-436` and `GroundFloorMap.jsx:369` build the base colour;
  - `FirstFloorMap.jsx:237` and `RestaurantFloorMap.jsx:230` use the selection
    captured when their mount effect ran;
  - `FloorMap.jsx:285-290` creates icon planes white, the default colour.
  Each mesh keeps that colour until the next run of the colour effect.
  `FloorEngine.AsWrittenBuildColour` states the as-written surface colour; the
  white icon plane is not modelled.
- `BuildAllShape`, `CreateMesh`, `BuildFeatures`, `CompleteFetch`: each surface has
  its display colour for the current selection (the corrected build). As written, it
  has `FloorEngine.AsWrittenBuildColour`.
- `CompleteIconLoad`: the icon plane has its display colour. As written, it is white
  until the next colour effect.
- `RouteAnimation.RevealProgress`: the program adds the double `0.2` per frame. That
  sum falls just short of some integers; after 10 frames it is 1.9999999999999998.
  So the program's draw count and `isFullyDrawn` can come one frame later than the
  exact model's. For the 19-point McDonald's route, the route is fully drawn at
  frame 96, not 95. The glow count is unaffected: the double sum of `0.05` first
  reaches pi at step 63, as `GlowEndsWhen` states.
- `FooterPanel.SortDesc`: its stability (equal counts keep their input order) holds
  by construction, but no lemma states it.

## Findings

| source | as written | input that shows it | evidently intended | confidence | as-written member | corrected member |
|---|---|---|---|---|---|---|
| src/components/FloorMap.jsx:427-439 (also src/components/GroundFloorMap.jsx:369) | `createMesh` colours each surface with its base colour only. The highlight comes from the effect at 573-589, which runs at mount, before the fetch has filled `objectsRef`. | On another floor, tap McDonald's in the directory. `App` sets the ground floor and the selection (src/App.jsx:66-71), and `FloorMap` remounts under its new `key`. The effect recolours an empty list; the fetch then builds McDonald's white, not `0xfee2e2`, although it is selected. | Build each surface with the display colour of the current selection at build time. The first-floor and restaurant copies apply a selection at build time, but the one captured at mount. | not executed | FloorEngine.AsWrittenMissesSelection | FloorEngine.SelectionSurvivesLoad |
