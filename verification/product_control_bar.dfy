/**
 * The product list's control bar: toggling a tag in the tag filter, clearing
 * every filter, telling whether any filter is set, and turning the
 * comma-separated text of the "add tags" dialog into a list of tags.
 */
module ProductControlBar {
  import opened Text
  import opened Lists
  import opened Products

  /** `handleTagSelect` is `Toggle` on the tag filter: ["a", "b"] toggled at "a" twice becomes ["b", "a"]. */
  lemma ToggleTwiceMovesPresentTag()
    ensures Toggle(Toggle(["a", "b"], "a"), "a") == ["b", "a"]
  {
    assert "a" in ["a", "b"];
    var removed := Toggle(["a", "b"], "a");
    assert removed == ["b"] by {
      assert "b" in removed && |removed| <= 2;
      assert IsSubsequence(removed, ["a", "b"]);
      assert "a" !in removed;
      assert forall x :: x in removed ==> x == "b";
    }
  }

  /** `handleTagSelect`, applied to the store's tag filter. */
  method SelectTag(store: ProductStore, tag: string)
    modifies store
    ensures store.products == old(store.products)
    ensures store.CurrentCriteria() == old(store.CurrentCriteria()).(tags := Toggle(old(store.tagFilter), tag))
    ensures store.Synced()
  {
    store.SetTagFilter(Toggle(store.tagFilter, tag));
  }

  /** `isFiltering`: some filter is set. */
  predicate IsFiltering(c: Criteria) {
    c.search != "" || c.status != AllStatuses || c.collection != "" || |c.tags| > 0
  }

  /** Filtering is exactly "the settings differ from the cleared ones"; when nothing is filtered every product shows. */
  lemma IsFilteringMeansNotCleared(c: Criteria, ps: seq<Product>)
    ensures IsFiltering(c) <==> c != NoCriteria
    ensures !IsFiltering(c) ==> FilterProducts(ps, c) == ps
  {
    if !IsFiltering(c) {
      NoCriteriaShowsAll(ps);
    }
  }

  /** `handleClearFilters`: the four setters of the store, in order. */
  method ClearFilters(store: ProductStore)
    modifies store
    ensures store.products == old(store.products)
    ensures store.CurrentCriteria() == NoCriteria && !IsFiltering(store.CurrentCriteria())
    ensures store.filteredProducts == store.products
  {
    store.SetSearchTerm("");
    store.SetStatusFilter(AllStatuses);
    store.SetCollectionFilter("");
    store.SetTagFilter([]);
    NoCriteriaShowsAll(store.products);
  }

  /** `Boolean` as the `filter` callback: a string is kept only when it is non-empty. */
  predicate NonEmpty(s: string) {
    s != ""
  }

  /** Trimmed pieces of a comma split: comma-free and already trimmed. */
  lemma TrimmedPieces(pieces: seq<string>)
    requires forall k :: 0 <= k < |pieces| ==> ',' !in pieces[k]
    ensures forall t :: t in Map(pieces, Trim) ==> ',' !in t && Trim(t) == t
  {
    var trimmed := Map(pieces, Trim);
    forall t | t in trimmed ensures ',' !in t && Trim(t) == t {
      var k :| 0 <= k < |trimmed| && trimmed[k] == t;
      TrimIdempotent(pieces[k]);
    }
  }

  /** Dropping the empty pieces of a list of clean pieces keeps every other piece, in order and as often as it occurs. */
  lemma NonEmptyPieces(pieces: seq<string>)
    requires forall t :: t in pieces ==> ',' !in t && Trim(t) == t
    ensures var r := Filter(pieces, NonEmpty);
      (forall k :: 0 <= k < |r| ==> r[k] != "" && ',' !in r[k] && Trim(r[k]) == r[k]) &&
      IsSubsequence(r, pieces) &&
      (forall t :: t in r <==> t != "" && t in pieces) &&
      (forall t :: multiset(r)[t] == if t == "" then 0 else multiset(pieces)[t])
  {
    var r := Filter(pieces, NonEmpty);
    assert forall k :: 0 <= k < |r| ==> r[k] in r;
    forall t ensures NonEmpty(t) <==> t != "" {
    }
  }

  /**
   * `bulkTags.split(",").map(tag => tag.trim()).filter(Boolean)`: the
   * non-empty trimmed pieces, in order, repeats kept.
   */
  function ParseBulkTags(input: string): (r: seq<string>)
    ensures forall k :: 0 <= k < |r| ==> r[k] != "" && ',' !in r[k] && Trim(r[k]) == r[k]
    ensures IsSubsequence(r, Map(Split(input, ','), Trim))
    ensures forall t :: t in r <==> t != "" && t in Map(Split(input, ','), Trim)
    ensures forall t :: multiset(r)[t] == if t == "" then 0 else multiset(Map(Split(input, ','), Trim))[t]
  {
    TrimmedPieces(Split(input, ','));
    NonEmptyPieces(Map(Split(input, ','), Trim));
    Filter(Map(Split(input, ','), Trim), NonEmpty)
  }

  /** Joining clean tags with commas and parsing gives them back, in order and with repeats. */
  lemma ParseBulkTagsRoundTrip(tags: seq<string>)
    requires |tags| >= 1
    requires forall k :: 0 <= k < |tags| ==> tags[k] != "" && ',' !in tags[k] && Trim(tags[k]) == tags[k]
    ensures ParseBulkTags(Join(tags, ',')) == tags
  {
    SplitJoin(tags, ',');
    assert Map(tags, Trim) == tags;
    FilterKeepsAll(tags, NonEmpty);
  }

  /** `handleBulkAddTags`: the parsed tags are added to the selected products. */
  method BulkAddTagsFromInput(store: ProductStore, selectedRows: seq<string>, input: string)
    modifies store
    ensures store.products == AddTagsListed(old(store.products), selectedRows, ParseBulkTags(input))
    ensures store.CurrentCriteria() == old(store.CurrentCriteria()) && store.Synced()
  {
    store.BulkAddTags(selectedRows, ParseBulkTags(input));
  }
}
