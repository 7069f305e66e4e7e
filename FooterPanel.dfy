/**
 * The footer: two collapsible tabs, and the analytics tab's ranking of the
 * five most clicked stores.
 */
module FooterPanel {
  import opened MapData
  import opened Seqs
  import opened KioskApp

  /** The footer's tabs. */
  datatype Tab = Analytics | Emergency

  /** `handleTabClick`: the active tab closes when clicked; any other click opens the clicked tab. */
  function NextTab(active: Option<Tab>, clicked: Tab): (r: Option<Tab>)
    ensures r.None? <==> active == Some(clicked)
    ensures r.Some? ==> r == Some(clicked)
  {
    if active == Some(clicked) then None else Some(clicked)
  }

  /**
   * Two clicks on the same tab give back the state they started from exactly
   * when that state was collapsed or that tab itself.
   */
  lemma ClickTwice(active: Option<Tab>, t: Tab)
    ensures NextTab(NextTab(active, t), t) == active <==> active == None || active == Some(t)
  {
  }

  /** An entry of `Object.entries(clickCounts)`: a store id and its click count. */
  datatype Count = Count(storeId: string, clicks: int)

  function StoreKey(c: Count): string {
    c.storeId
  }

  /** Counts that never increase along the sequence. */
  predicate NonIncreasing(xs: seq<Count>) {
    forall i, j :: 0 <= i < j < |xs| ==> xs[i].clicks >= xs[j].clicks
  }

  /** Insert `c` after every entry counted at least as often (so equal counts keep their input order). */
  function InsertDesc(sorted: seq<Count>, c: Count): (r: seq<Count>)
    ensures multiset(r) == multiset(sorted) + multiset{c}
    ensures |r| == |sorted| + 1
  {
    if sorted == [] then [c]
    else if sorted[0].clicks >= c.clicks then
      assert sorted == [sorted[0]] + sorted[1..];
      [sorted[0]] + InsertDesc(sorted[1..], c)
    else [c] + sorted
  }

  /** Inserting into a non-increasing sequence keeps it non-increasing. */
  lemma {:induction false} InsertDescSorted(sorted: seq<Count>, c: Count)
    requires NonIncreasing(sorted)
    ensures NonIncreasing(InsertDesc(sorted, c))
  {
    if sorted != [] && sorted[0].clicks >= c.clicks {
      InsertDescSorted(sorted[1..], c);
      var r := InsertDesc(sorted, c);
      var rest := InsertDesc(sorted[1..], c);
      assert r == [sorted[0]] + rest;
      forall j | 0 < j < |r| ensures r[0].clicks >= r[j].clicks {
        assert r[j] in multiset(rest);
        assert r[j] in multiset(sorted[1..]) || r[j] == c;
        if r[j] != c {
          var m :| 0 <= m < |sorted[1..]| && sorted[1..][m] == r[j];
          assert sorted[m + 1] == r[j];
        }
      }
    }
  }

  /**
   * `entries.sort((a, b) => b[1] - a[1])`: an insertion sort by descending
   * count. `Array.prototype.sort` is stable, and so is this one: an entry goes
   * after every earlier entry with at least its count.
   */
  function SortDesc(xs: seq<Count>): (r: seq<Count>)
    ensures multiset(r) == multiset(xs) && |r| == |xs|
  {
    if xs == [] then []
    else
      assert xs == xs[..|xs| - 1] + [xs[|xs| - 1]];
      InsertDesc(SortDesc(xs[..|xs| - 1]), xs[|xs| - 1])
  }

  /** The sort orders by count, non-increasing. */
  lemma {:induction false} SortDescSorted(xs: seq<Count>)
    ensures NonIncreasing(SortDesc(xs))
  {
    if xs != [] {
      SortDescSorted(xs[..|xs| - 1]);
      InsertDescSorted(SortDesc(xs[..|xs| - 1]), xs[|xs| - 1]);
    }
  }

  /** Every entry of an insertion result is the inserted entry or one of the sorted entries. */
  lemma InsertDescFrom(sorted: seq<Count>, c: Count, x: Count)
    requires x in InsertDesc(sorted, c)
    ensures x == c || x in sorted
  {
    assert x in multiset(InsertDesc(sorted, c));
  }

  /** Inserting an entry whose id is new keeps the ids distinct. */
  lemma {:induction false} InsertDescDistinct(sorted: seq<Count>, c: Count)
    requires DistinctKeys(sorted, StoreKey)
    requires forall k :: 0 <= k < |sorted| ==> sorted[k].storeId != c.storeId
    ensures DistinctKeys(InsertDesc(sorted, c), StoreKey)
  {
    if sorted != [] && sorted[0].clicks >= c.clicks {
      var tail := sorted[1..];
      assert DistinctKeys(tail, StoreKey) by {
        forall i, j | 0 <= i < j < |tail| ensures StoreKey(tail[i]) != StoreKey(tail[j]) {
          assert tail[i] == sorted[i + 1] && tail[j] == sorted[j + 1];
        }
      }
      InsertDescDistinct(tail, c);
      var rest := InsertDesc(tail, c);
      var r := [sorted[0]] + rest;
      assert r == InsertDesc(sorted, c);
      forall j | 0 <= j < |rest| ensures rest[j].storeId != sorted[0].storeId {
        InsertDescFrom(tail, c, rest[j]);
        if rest[j] != c {
          var m :| 0 <= m < |tail| && tail[m] == rest[j];
          assert sorted[m + 1] == rest[j];
        }
      }
      forall i, j | 0 <= i < j < |r| ensures StoreKey(r[i]) != StoreKey(r[j]) {
        assert r[j] == rest[j - 1];
        if i > 0 {
          assert r[i] == rest[i - 1];
        }
      }
    } else if sorted != [] {
      var r := [c] + sorted;
      forall i, j | 0 <= i < j < |r| ensures StoreKey(r[i]) != StoreKey(r[j]) {
        assert r[j] == sorted[j - 1];
        if i > 0 {
          assert r[i] == sorted[i - 1];
        }
      }
    }
  }

  /** Sorting entries with distinct ids keeps them distinct. */
  lemma {:induction false} SortDescDistinct(xs: seq<Count>)
    requires DistinctKeys(xs, StoreKey)
    ensures DistinctKeys(SortDesc(xs), StoreKey)
  {
    if xs != [] {
      var init, last := xs[..|xs| - 1], xs[|xs| - 1];
      assert DistinctKeys(init, StoreKey) by {
        forall i, j | 0 <= i < j < |init| ensures StoreKey(init[i]) != StoreKey(init[j]) {
          assert init[i] == xs[i] && init[j] == xs[j];
        }
      }
      SortDescDistinct(init);
      var s := SortDesc(init);
      forall k | 0 <= k < |s| ensures s[k].storeId != last.storeId {
        assert s[k] in multiset(init);
        var m :| 0 <= m < |init| && init[m] == s[k];
        assert StoreKey(xs[m]) != StoreKey(xs[|xs| - 1]);
      }
      InsertDescDistinct(s, last);
    }
  }

  /** How many stores the ranking shows. */
  const TopCount: nat := 5

  /** A row of the ranking. */
  datatype TopEntry = TopEntry(id: string, name: string, count: int, floor: string)

  /** The row of one entry: the store's name and floor from the master list, or the id and `'unknown'`. */
  function RowFor(stores: seq<Feature>, c: Count): TopEntry {
    var store := FindStore(stores, c.storeId);
    var name := if store.Some? && store.value.props.name != "" then store.value.props.name else c.storeId;
    var floor := if store.Some? && store.value.props.floor.Some? then FloorName(store.value.props.floor.value) else "unknown";
    TopEntry(c.storeId, name, c.clicks, floor)
  }

  /** `getTopStores`. */
  function TopStores(entries: seq<Count>, stores: seq<Feature>): (r: seq<TopEntry>)
    ensures |r| == if |entries| < TopCount then |entries| else TopCount
  {
    if |entries| == 0 then []
    else
      var top := SortDesc(entries)[..if |entries| < TopCount then |entries| else TopCount];
      seq(|top|, k requires 0 <= k < |top| => RowFor(stores, top[k]))
  }

  /** The rows are the first entries of the sorted counts. */
  lemma TopStoresRows(entries: seq<Count>, stores: seq<Feature>)
    ensures |TopStores(entries, stores)| <= |SortDesc(entries)|
    ensures forall k :: 0 <= k < |TopStores(entries, stores)| ==>
      TopStores(entries, stores)[k] == RowFor(stores, SortDesc(entries)[k])
  {
    var r, sorted, n := TopStores(entries, stores), SortDesc(entries), |TopStores(entries, stores)|;
    forall k | 0 <= k < n ensures r[k] == RowFor(stores, sorted[k]) {
      assert r[k] == RowFor(stores, sorted[..n][k]);
    }
  }

  /**
   * The ranking's order: no click counts, no rows; at most five rows, by count
   * non-increasing; and the rows' ids are distinct, as the keys of `clickCounts` are.
   */
  lemma TopStoresOrder(entries: seq<Count>, stores: seq<Feature>)
    requires DistinctKeys(entries, StoreKey)
    ensures entries == [] ==> TopStores(entries, stores) == []
    ensures |TopStores(entries, stores)| <= TopCount
    ensures forall i, j :: 0 <= i < j < |TopStores(entries, stores)| ==>
      TopStores(entries, stores)[i].count >= TopStores(entries, stores)[j].count
    ensures forall i, j :: 0 <= i < j < |TopStores(entries, stores)| ==>
      TopStores(entries, stores)[i].id != TopStores(entries, stores)[j].id
  {
    var r, sorted := TopStores(entries, stores), SortDesc(entries);
    TopStoresRows(entries, stores);
    SortDescSorted(entries);
    SortDescDistinct(entries);
    forall i, j | 0 <= i < j < |r| ensures r[i].id != r[j].id {
      assert StoreKey(sorted[i]) != StoreKey(sorted[j]);
    }
  }

  /** Cutting a non-increasing sequence at `n`: the parts make up the whole, and nothing after the cut outranks anything before it. */
  lemma SplitSorted(xs: seq<Count>, n: nat)
    requires NonIncreasing(xs) && n <= |xs|
    ensures multiset(xs) == multiset(xs[..n]) + multiset(xs[n..])
    ensures forall e, k :: e in xs[n..] && 0 <= k < n ==> e.clicks <= xs[k].clicks
  {
    assert xs == xs[..n] + xs[n..];
    forall e, k | e in xs[n..] && 0 <= k < n ensures e.clicks <= xs[k].clicks {
      var m :| 0 <= m < |xs[n..]| && xs[n..][m] == e;
      assert xs[n + m] == e;
    }
  }

  /**
   * The ranking's choice: each row is the count of one entry, and the entries
   * left out, exactly the rest of `clickCounts`, have counts no larger than any
   * shown.
   */
  lemma TopStoresChoice(entries: seq<Count>, stores: seq<Feature>)
    ensures forall k :: 0 <= k < |TopStores(entries, stores)| ==>
      Count(TopStores(entries, stores)[k].id, TopStores(entries, stores)[k].count) in entries
    ensures var n := |TopStores(entries, stores)|;
      && multiset(entries) == multiset(SortDesc(entries)[..n]) + multiset(SortDesc(entries)[n..])
      && (forall k :: 0 <= k < n ==>
            SortDesc(entries)[k] == Count(TopStores(entries, stores)[k].id, TopStores(entries, stores)[k].count))
      && (forall e, k :: e in SortDesc(entries)[n..] && 0 <= k < n ==> e.clicks <= TopStores(entries, stores)[k].count)
  {
    var r, sorted := TopStores(entries, stores), SortDesc(entries);
    var n := |r|;
    TopStoresRows(entries, stores);
    SortDescSorted(entries);
    SplitSorted(sorted, n);
    forall k | 0 <= k < n ensures Count(r[k].id, r[k].count) in entries {
      assert sorted[k] in multiset(entries);
    }
  }

  /** A store id the master list does not know is shown by its id, on floor `'unknown'`. */
  lemma UnknownStoreFallback(stores: seq<Feature>, c: Count)
    requires forall k :: 0 <= k < |stores| ==> stores[k].props.id != c.storeId
    ensures RowFor(stores, c) == TopEntry(c.storeId, c.storeId, c.clicks, "unknown")
  {
  }

  /** A known store is shown by its name (or its id when the name is empty) and the floor it was listed on. */
  lemma KnownStoreRow(stores: seq<Feature>, k: nat, c: Count)
    requires DistinctKeys(stores, StoreId) && k < |stores| && stores[k].props.id == c.storeId
    requires stores[k].props.floor.Some?
    ensures RowFor(stores, c).name == (if stores[k].props.name != "" then stores[k].props.name else c.storeId)
    ensures RowFor(stores, c).floor == FloorName(stores[k].props.floor.value)
  {
    FindStoreDistinct(stores, k);
  }
}
