/**
 * The store directory beside the map: the brands of the master list, one
 * entry per brand name, narrowed by the search box, each with its logo asset
 * and category pill.
 */
module Directory {
  import opened Strings
  import opened Seqs
  import opened MapData

  /** A store the directory lists: a business type and a truthy name. */
  predicate IsBrand(s: Feature) {
    IsBusiness(s.props.kind) && s.props.name != ""
  }

  /** `allBrandsRaw`. */
  function AllBrands(stores: seq<Feature>): seq<Feature> {
    Filter(stores, IsBrand)
  }

  /** The name a brand is known by: its name without surrounding whitespace. */
  function BrandName(s: Feature): string {
    Trim(s.props.name)
  }

  /**
   * The `seenNames` loop: a store is listed when no earlier store had the same
   * trimmed name (several units of one brand share a name).
   */
  method UniqueBrands(raw: seq<Feature>) returns (brands: seq<Feature>)
    ensures brands == DedupeBy(raw, BrandName)
  {
    var seenNames: set<string> := {};
    brands := [];
    for i := 0 to |raw|
      invariant brands == DedupeBy(raw[..i], BrandName)
      invariant seenNames == KeySet(raw[..i], BrandName)
    {
      var brandName := Trim(raw[i].props.name);
      KeySetStep(raw, BrandName, i);
      DedupeStep(raw, BrandName, i);
      if brandName !in seenNames {
        brands := brands + [raw[i]];
        seenNames := seenNames + {brandName};
      }
    }
    assert raw[..|raw|] == raw;
  }

  /**
   * `uniqueBrands`: no two entries share a trimmed name, and every brand name
   * of the input is listed. (Which store of a name is kept, the first, and in
   * what order, the input's, is `DedupeIsFirstOccurrences`.)
   */
  lemma UniqueBrandsRules(raw: seq<Feature>)
    ensures DistinctKeys(DedupeBy(raw, BrandName), BrandName)
    ensures forall s :: s in raw ==> exists b :: b in DedupeBy(raw, BrandName) && BrandName(b) == BrandName(s)
  {
    forall s | s in raw ensures exists b :: b in DedupeBy(raw, BrandName) && BrandName(b) == BrandName(s) {
      assert BrandName(s) in KeySet(raw, BrandName);
      assert BrandName(s) in KeySet(DedupeBy(raw, BrandName), BrandName);
    }
  }

  /** The search: a case-insensitive substring match of the query in the brand's name. */
  predicate Matches(query: string, s: Feature) {
    Contains(ToLower(s.props.name), ToLower(query))
  }

  /** `filtered`: the brands whose lower-cased name contains the lower-cased query, in order. */
  function Search(brands: seq<Feature>, query: string): (r: seq<Feature>)
    ensures forall s :: s in r <==> s in brands && Matches(query, s)
  {
    Filter(brands, s => Matches(query, s))
  }

  /** The empty search box lists every brand. */
  lemma EmptyQueryKeepsAll(brands: seq<Feature>)
    ensures Search(brands, "") == brands
  {
    forall k | 0 <= k < |brands| ensures Matches("", brands[k]) {
      ContainsEmpty(ToLower(brands[k].props.name));
    }
    FilterAll(brands, s => Matches("", s));
  }

  /** Searching is blind to the case of the query. */
  lemma SearchIgnoresCase(brands: seq<Feature>, query: string)
    ensures Search(brands, ToLower(query)) == Search(brands, query)
  {
    ToLowerIdempotent(query);
    FilterAgree(brands, s => Matches(ToLower(query), s), s => Matches(query, s));
  }

  /** The category pill. */
  function CategoryLabel(t: FeatureType): (r: string)
    ensures t == Food ==> r == "Dining"
    ensures t == Fun ==> r == "Entertainment"
    ensures t == Banking ==> r == "Banking"
    ensures r == "Fashion" <==> t != Food && t != Fun && t != Banking
  {
    match t
    case Food => "Dining"
    case Fun => "Entertainment"
    case Banking => "Banking"
    case _ => "Fashion"
  }

  /** One row of the list: the store id it reports when tapped, its name, its logo asset (`getLogoName`) and its pill. */
  datatype Row = Row(id: string, name: string, logo: string, category: string)

  function RowOf(s: Feature): Row {
    Row(s.props.id, s.props.name, StripUnitSuffix(s.props.id), CategoryLabel(s.props.kind))
  }

  /** The rows the directory shows for the master list `stores` and the search box's `query`. */
  function Listing(stores: seq<Feature>, query: string): seq<Row> {
    var shown := Search(DedupeBy(AllBrands(stores), BrandName), query);
    seq(|shown|, k requires 0 <= k < |shown| => RowOf(shown[k]))
  }

  /**
   * Every row is a business store of the list with a name that matches the
   * query, and no two rows show the same brand name.
   */
  lemma ListingRules(stores: seq<Feature>, query: string)
    ensures forall k :: 0 <= k < |Listing(stores, query)| ==>
      exists s :: s in stores && IsBrand(s) && Matches(query, s) && Listing(stores, query)[k] == RowOf(s)
    ensures forall k, l :: 0 <= k < l < |Listing(stores, query)| ==>
      Trim(Listing(stores, query)[k].name) != Trim(Listing(stores, query)[l].name)
  {
    var unique := DedupeBy(AllBrands(stores), BrandName);
    var shown := Search(unique, query);
    forall k | 0 <= k < |shown| ensures shown[k] in stores && IsBrand(shown[k]) && Matches(query, shown[k]) {
      assert shown[k] in unique;
      assert shown[k] in AllBrands(stores);
    }
    SearchKeepsDistinct(unique, query);
    var r := Listing(stores, query);
    assert |r| == |shown| && forall k :: 0 <= k < |r| ==> r[k] == RowOf(shown[k]);
    forall k, l | 0 <= k < l < |r| ensures Trim(r[k].name) != Trim(r[l].name) {
      assert BrandName(shown[k]) != BrandName(shown[l]);
    }
  }

  /** Narrowing a list with distinct brand names keeps them distinct. */
  lemma {:induction false} SearchKeepsDistinct(brands: seq<Feature>, query: string)
    requires DistinctKeys(brands, BrandName)
    ensures DistinctKeys(Search(brands, query), BrandName)
  {
    if brands != [] {
      SearchKeepsDistinct(brands[1..], query);
      var rest := Search(brands[1..], query);
      forall k | 0 <= k < |rest| ensures BrandName(rest[k]) != BrandName(brands[0]) {
        var j :| 0 <= j < |brands[1..]| && brands[1..][j] == rest[k];
        assert brands[j + 1] == rest[k];
      }
    }
  }
}
