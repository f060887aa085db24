/**
 * The product catalogue store: the list of products, the derived list of
 * visible products and the four filter settings behind it. Every action
 * rewrites the product list and then re-runs the filter over the whole
 * list, except `removeWarehouse` and `addNoteToProduct`, which leave the
 * visible list as it was.
 */
module Products {
  import opened Text
  import opened Lists

  datatype ProductStatus = Active | Draft | Archived

  /** The status filter: `"all"` or one status. */
  datatype StatusFilter = AllStatuses | Only(status: ProductStatus)

  /** A note; `timestamp` stands for the JavaScript `Date` it was written at. */
  datatype NoteEntry = NoteEntry(id: string, text: string, timestamp: int, user: string)

  /**
   * A margin as JavaScript computes it: a whole percentage, or an infinity
   * when a non-zero cost is divided by a zero retail price.
   */
  datatype Margin = Percent(value: int) | PositiveInfinity | NegativeInfinity

  /** Prices are exact reals; optional fields of the record are `Option`s. */
  datatype Product = Product(
    id: string,
    name: string,
    sku: string,
    collection: Option<string>,
    productType: Option<string>,
    costPrice: real,
    retailPrice: real,
    margin: Margin,
    status: ProductStatus,
    description: Option<string>,
    quantity: Option<int>,
    warehouse: Option<string>,
    restockThreshold: Option<int>,
    images: Option<seq<string>>,
    notes: Option<seq<NoteEntry>>,
    tags: Option<seq<string>>)

  /** The product types offered by `getAvailableProductTypes`. */
  const ProductTypes: seq<string> :=
    ["T-shirt", "Hoodie", "Sweatshirt", "Jacket", "Pants", "Shorts", "Hat", "Accessory", "Footwear", "Other"]

  /** The user recorded on every note. */
  const NoteUser: string := "Current User"

  // ---------------------------------------------------------------- margin

  /** `Math.round`: the nearest integer, halves rounded up. */
  function Round(x: real): int {
    (x + 0.5).Floor
  }

  /**
   * `calculateMargin`: the percentage (retail - cost) / retail rounded to the
   * nearest whole number. The guard tests the cost price, so a zero cost gives
   * 0 whatever the retail price, and a zero retail price with a non-zero cost
   * divides by zero and gives an infinity.
   */
  function CalculateMargin(costPrice: real, retailPrice: real): (m: Margin)
    ensures costPrice == 0.0 ==> m == Percent(0)
    ensures costPrice != 0.0 && retailPrice == 0.0 ==> !m.Percent?
    ensures costPrice != 0.0 && retailPrice != 0.0 ==>
      m.Percent? && m.value as real - 0.5 <= (retailPrice - costPrice) / retailPrice * 100.0 < m.value as real + 0.5
  {
    if costPrice == 0.0 then Percent(0)
    else if retailPrice == 0.0 then (if costPrice > 0.0 then NegativeInfinity else PositiveInfinity)
    else Percent(Round((retailPrice - costPrice) / retailPrice * 100.0))
  }

  /** Selling at or above a positive cost gives a margin between 0 and 100. */
  lemma MarginBounds(costPrice: real, retailPrice: real)
    requires 0.0 < costPrice <= retailPrice
    ensures var m := CalculateMargin(costPrice, retailPrice);
      m.Percent? && 0 <= m.value <= 100
  {
    var q := (retailPrice - costPrice) / retailPrice;
    assert q * retailPrice == retailPrice - costPrice;
    assert q < 0.0 ==> q * retailPrice < 0.0;
    assert q >= 1.0 ==> q * retailPrice >= retailPrice;
  }

  /** A product with cost 10 and retail price 25 has margin 60. */
  lemma MarginExample()
    ensures CalculateMargin(10.0, 25.0) == Percent(60)
  {
    assert (25.0 - 10.0) / 25.0 * 100.0 == 60.0;
  }

  /** Every product's stored margin agrees with its prices. */
  ghost predicate MarginsConsistent(ps: seq<Product>) {
    forall p :: p in ps ==> p.margin == CalculateMargin(p.costPrice, p.retailPrice)
  }

  // ---------------------------------------------------------------- filter

  datatype Criteria = Criteria(search: string, status: StatusFilter, collection: string, tags: seq<string>)

  /** The filter settings in which nothing is filtered. */
  const NoCriteria: Criteria := Criteria("", AllStatuses, "", [])

  function TagsOf(p: Product): seq<string> {
    if p.tags.Some? then p.tags.value else []
  }

  predicate MatchesSearch(p: Product, search: string) {
    search == "" || Contains(ToLower(p.name), ToLower(search)) || Contains(ToLower(p.sku), ToLower(search))
  }

  predicate MatchesStatus(p: Product, status: StatusFilter) {
    status == AllStatuses || p.status == status.status
  }

  predicate MatchesCollection(p: Product, collection: string) {
    collection == "" || p.collection == Some(collection)
  }

  /** Any-of: some tag of the product is in the requested set. */
  predicate MatchesTags(p: Product, tags: seq<string>) {
    tags == [] || (p.tags.Some? && exists t :: t in p.tags.value && t in tags)
  }

  /** The first two filters, in the order they are applied. */
  predicate MatchesUpToStatus(p: Product, search: string, status: StatusFilter) {
    MatchesSearch(p, search) && MatchesStatus(p, status)
  }

  /** The first three filters, in the order they are applied. */
  predicate MatchesUpToCollection(p: Product, search: string, status: StatusFilter, collection: string) {
    MatchesUpToStatus(p, search, status) && MatchesCollection(p, collection)
  }

  /** All four filters. */
  predicate Matches(p: Product, c: Criteria) {
    MatchesUpToCollection(p, c.search, c.status, c.collection) && MatchesTags(p, c.tags)
  }

  /** The visible products: in list order, exactly those that pass every active filter. */
  function FilterProducts(ps: seq<Product>, c: Criteria): (r: seq<Product>)
    ensures IsSubsequence(r, ps)
    ensures forall p :: p in r <==> p in ps && Matches(p, c)
    ensures forall p :: multiset(r)[p] == if Matches(p, c) then multiset(ps)[p] else 0
  {
    Filter(ps, (p: Product) => Matches(p, c))
  }

  /** With no filter set, every product is visible. */
  lemma NoCriteriaShowsAll(ps: seq<Product>)
    ensures FilterProducts(ps, NoCriteria) == ps
  {
    FilterKeepsAll(ps, p => Matches(p, NoCriteria));
  }

  /** The filter is any-of on tags: one shared tag suffices. */
  lemma TagFilterAnyOf(p: Product, tags: seq<string>, t: string)
    requires p.tags.Some? && t in p.tags.value && t in tags
    ensures MatchesTags(p, tags)
  {
  }

  // ---------------------------------------------------------------- actions on the list

  /** `{...productData, id, margin}` for `addProduct`: the margin is computed from the product's own prices. */
  function NewProduct(data: Product, id: string): (r: Product)
    ensures r.margin == CalculateMargin(r.costPrice, r.retailPrice)
    ensures r.id == id && r.(id := data.id, margin := data.margin) == data
  {
    data.(id := id, margin := CalculateMargin(data.costPrice, data.retailPrice))
  }

  /** The fields a `Partial<Product>` update may carry (a supplied margin is always overwritten, so it is omitted). */
  datatype ProductPatch = ProductPatch(
    id: Option<string>,
    name: Option<string>,
    sku: Option<string>,
    collection: Option<string>,
    productType: Option<string>,
    costPrice: Option<real>,
    retailPrice: Option<real>,
    status: Option<ProductStatus>,
    description: Option<string>,
    quantity: Option<int>,
    warehouse: Option<string>,
    restockThreshold: Option<int>,
    images: Option<seq<string>>,
    notes: Option<seq<NoteEntry>>,
    tags: Option<seq<string>>)

  /** The patch that supplies no field. */
  predicate SuppliesNothing(u: ProductPatch) {
    u.id.None? && u.name.None? && u.sku.None? && u.collection.None? && u.productType.None? &&
    u.costPrice.None? && u.retailPrice.None? && u.status.None? && u.description.None? &&
    u.quantity.None? && u.warehouse.None? && u.restockThreshold.None? && u.images.None? &&
    u.notes.None? && u.tags.None?
  }

  /**
   * `{...product, ...productData}`: supplied fields win and the others are
   * kept; the margin, which a patch cannot supply, is always kept.
   */
  function Merge(p: Product, u: ProductPatch): (r: Product)
    ensures r.margin == p.margin
    ensures SuppliesNothing(u) ==> r == p
    ensures r.id == (if u.id.Some? then u.id.value else p.id)
    ensures r.costPrice == (if u.costPrice.Some? then u.costPrice.value else p.costPrice)
    ensures r.retailPrice == (if u.retailPrice.Some? then u.retailPrice.value else p.retailPrice)
  {
    p.(id := Pick(u.id, p.id), name := Pick(u.name, p.name), sku := Pick(u.sku, p.sku),
       collection := PickOpt(u.collection, p.collection), productType := PickOpt(u.productType, p.productType),
       costPrice := Pick(u.costPrice, p.costPrice), retailPrice := Pick(u.retailPrice, p.retailPrice),
       status := Pick(u.status, p.status), description := PickOpt(u.description, p.description),
       quantity := PickOpt(u.quantity, p.quantity), warehouse := PickOpt(u.warehouse, p.warehouse),
       restockThreshold := PickOpt(u.restockThreshold, p.restockThreshold), images := PickOpt(u.images, p.images),
       notes := PickOpt(u.notes, p.notes), tags := PickOpt(u.tags, p.tags))
  }

  /**
   * The margin `updateProduct` stores, branch for branch. The branches agree
   * with one central rule: when a price is supplied the margin is recomputed
   * from the merged prices, otherwise it is kept.
   */
  function UpdatedMargin(p: Product, u: ProductPatch): (m: Margin)
    ensures u.costPrice.Some? || u.retailPrice.Some? ==>
      m == CalculateMargin(Merge(p, u).costPrice, Merge(p, u).retailPrice)
    ensures u.costPrice.None? && u.retailPrice.None? ==> m == p.margin
  {
    if u.costPrice.Some? && u.retailPrice.Some? then CalculateMargin(u.costPrice.value, u.retailPrice.value)
    else if u.costPrice.Some? then CalculateMargin(u.costPrice.value, p.retailPrice)
    else if u.retailPrice.Some? then CalculateMargin(p.costPrice, u.retailPrice.value)
    else p.margin
  }

  /** `updateProduct`: every product with the id gets the patch and a recomputed margin. */
  function UpdateProducts(ps: seq<Product>, id: string, u: ProductPatch): (r: seq<Product>)
    ensures |r| == |ps|
    ensures forall i :: 0 <= i < |ps| && ps[i].id != id ==> r[i] == ps[i]
    ensures forall i :: 0 <= i < |ps| && ps[i].id == id ==> r[i] == Merge(ps[i], u).(margin := UpdatedMargin(ps[i], u))
  {
    Map(ps, (p: Product) => if p.id == id then Merge(p, u).(margin := UpdatedMargin(p, u)) else p)
  }

  /** An update for an id no product has changes nothing (the source reports no error). */
  lemma UpdateUnknownId(ps: seq<Product>, id: string, u: ProductPatch)
    requires forall p :: p in ps ==> p.id != id
    ensures UpdateProducts(ps, id, u) == ps
  {
  }

  /** Status "archived" on exactly the products whose id is listed; nothing else changes. */
  function ArchiveListed(ps: seq<Product>, ids: seq<string>): (r: seq<Product>)
    ensures |r| == |ps|
    ensures forall i :: 0 <= i < |ps| ==> r[i].(status := ps[i].status) == ps[i]
    ensures forall i :: 0 <= i < |ps| ==> r[i].status == if ps[i].id in ids then Archived else ps[i].status
  {
    Map(ps, (p: Product) => if p.id in ids then p.(status := Archived) else p)
  }

  /** Archiving twice is archiving once. */
  lemma ArchiveListedIdempotent(ps: seq<Product>, ids: seq<string>)
    ensures ArchiveListed(ArchiveListed(ps, ids), ids) == ArchiveListed(ps, ids)
  {
    var once := ArchiveListed(ps, ids);
    var twice := ArchiveListed(once, ids);
    forall i | 0 <= i < |ps| ensures twice[i] == once[i] {
      assert once[i].id == ps[i].id;
    }
  }

  /** `{...product, id, name: name + " (Copy)", sku: sku + "-COPY", status: "draft"}`. */
  function Copy(p: Product, newId: string): (r: Product)
    ensures r.name == p.name + " (Copy)" && r.sku == p.sku + "-COPY" && r.status == Draft && r.id == newId
    ensures r.(id := p.id, name := p.name, sku := p.sku, status := p.status) == p
  {
    p.(id := newId, name := p.name + " (Copy)", sku := p.sku + "-COPY", status := Draft)
  }

  /** `Array.prototype.find` by id: the first product with the id. */
  function FindById(ps: seq<Product>, id: string): (r: Option<Product>)
    ensures r.None? <==> forall p :: p in ps ==> p.id != id
    ensures r.Some? ==> exists i :: 0 <= i < |ps| && ps[i] == r.value && ps[i].id == id &&
                          forall j :: 0 <= j < i ==> ps[j].id != id
  {
    if ps == [] then None
    else if ps[0].id == id then Some(ps[0])
    else
      var r := FindById(ps[1..], id);
      assert forall j :: 0 < j < |ps| ==> ps[j] == ps[1..][j - 1];
      r
  }

  /** `duplicateProduct`: an unknown id changes nothing; otherwise one copy of the first match is appended. */
  function DuplicateFirst(ps: seq<Product>, id: string, newId: string): (r: seq<Product>)
    ensures (forall p :: p in ps ==> p.id != id) ==> r == ps
    ensures (exists p :: p in ps && p.id == id) ==> |r| == |ps| + 1 && r[..|ps|] == ps && r[|ps|].id == newId
    ensures forall i :: 0 <= i < |ps| && ps[i].id == id && (forall j :: 0 <= j < i ==> ps[j].id != id) ==>
      r == ps + [Copy(ps[i], newId)]
  {
    match FindById(ps, id)
    case None => ps
    case Some(p) => ps + [Copy(p, newId)]
  }

  /** The copies appended by `bulkDuplicate`, the `k`-th under the fresh id `newId(k)`. */
  function Copies(src: seq<Product>, newId: nat -> string): (r: seq<Product>)
    ensures |r| == |src|
    ensures forall k :: 0 <= k < |src| ==> r[k] == Copy(src[k], newId(k))
  {
    seq(|src|, k requires 0 <= k < |src| => Copy(src[k], newId(k)))
  }

  /** The products whose id is listed, in list order. */
  function Listed(ps: seq<Product>, ids: seq<string>): (r: seq<Product>)
    ensures IsSubsequence(r, ps)
    ensures forall p :: p in r <==> p in ps && p.id in ids
    ensures forall p :: multiset(r)[p] == if p.id in ids then multiset(ps)[p] else 0
  {
    Filter(ps, (p: Product) => p.id in ids)
  }

  /** `bulkDuplicate`: one copy of every listed product appended, in list order. */
  function DuplicateListed(ps: seq<Product>, ids: seq<string>, newId: nat -> string): (r: seq<Product>)
    ensures |r| == |ps| + |Listed(ps, ids)| && r[..|ps|] == ps
    ensures forall k :: 0 <= k < |r| - |ps| ==> r[|ps| + k] == Copy(Listed(ps, ids)[k], newId(k))
  {
    ps + Copies(Listed(ps, ids), newId)
  }

  /** No listed id is present: `bulkDuplicate` changes nothing. */
  lemma DuplicateListedUnknown(ps: seq<Product>, ids: seq<string>, newId: nat -> string)
    requires forall p :: p in ps ==> p.id !in ids
    ensures DuplicateListed(ps, ids, newId) == ps
  {
    assert Listed(ps, ids) == [];
  }

  /** `bulkDelete`: exactly the products whose id is not listed, in original order. */
  function DeleteListed(ps: seq<Product>, ids: seq<string>): (r: seq<Product>)
    ensures IsSubsequence(r, ps)
    ensures forall p :: p in r <==> p in ps && p.id !in ids
    ensures forall p :: multiset(r)[p] == if p.id !in ids then multiset(ps)[p] else 0
  {
    Filter(ps, (p: Product) => p.id !in ids)
  }

  /** After a product is deleted, updating its id finds nothing to change. */
  lemma DeleteThenUpdate(ps: seq<Product>, id: string, u: ProductPatch)
    ensures UpdateProducts(DeleteListed(ps, [id]), id, u) == DeleteListed(ps, [id])
  {
    UpdateUnknownId(DeleteListed(ps, [id]), id, u);
  }

  /** `bulkChangeCollection`: the collection is overwritten on listed products only. */
  function ChangeCollectionListed(ps: seq<Product>, ids: seq<string>, collection: string): (r: seq<Product>)
    ensures |r| == |ps|
    ensures forall i :: 0 <= i < |ps| ==> r[i].(collection := ps[i].collection) == ps[i]
    ensures forall i :: 0 <= i < |ps| ==> r[i].collection == if ps[i].id in ids then Some(collection) else ps[i].collection
  {
    Map(ps, (p: Product) => if p.id in ids then p.(collection := Some(collection)) else p)
  }

  /** `[...new Set([...currentTags, ...tags])]` on the listed products. */
  function AddTagsListed(ps: seq<Product>, ids: seq<string>, tags: seq<string>): (r: seq<Product>)
    ensures |r| == |ps|
    ensures forall i :: 0 <= i < |ps| ==> r[i].(tags := ps[i].tags) == ps[i]
    ensures forall i :: 0 <= i < |ps| && ps[i].id !in ids ==> r[i] == ps[i]
    ensures forall i :: 0 <= i < |ps| && ps[i].id in ids ==>
      r[i].tags.Some? && NoDuplicates(r[i].tags.value) &&
      forall t :: t in r[i].tags.value <==> t in TagsOf(ps[i]) || t in tags
    ensures forall i :: 0 <= i < |ps| && ps[i].id in ids ==>
      r[i].tags.Some? && InFirstOccurrenceOrder(r[i].tags.value, TagsOf(ps[i]) + tags)
  {
    Map(ps, (p: Product) => if p.id in ids then p.(tags := Some(Dedup(TagsOf(p) + tags))) else p)
  }

  /**
   * On a listed product whose tags have no duplicates, the old tags stay
   * first, followed by the new tags not already there, each once.
   */
  lemma AddTagsKeepsOldTagsFirst(ps: seq<Product>, ids: seq<string>, tags: seq<string>, i: nat)
    requires i < |ps| && ps[i].id in ids && NoDuplicates(TagsOf(ps[i]))
    ensures AddTagsListed(ps, ids, tags)[i].tags == Some(TagsOf(ps[i]) + DedupFrom(tags, set t | t in TagsOf(ps[i])))
  {
    DedupMergeExtends(TagsOf(ps[i]), tags);
  }

  /** Adding the same tags twice gives the same products as adding them once. */
  lemma AddTagsIdempotent(ps: seq<Product>, ids: seq<string>, tags: seq<string>)
    ensures AddTagsListed(AddTagsListed(ps, ids, tags), ids, tags) == AddTagsListed(ps, ids, tags)
  {
    var once := AddTagsListed(ps, ids, tags);
    var twice := AddTagsListed(once, ids, tags);
    forall i | 0 <= i < |ps| ensures twice[i] == once[i] {
      assert once[i].id == ps[i].id;
      if ps[i].id in ids {
        DedupMergeIdempotent(TagsOf(ps[i]), tags);
      }
    }
  }

  /** `removeWarehouse`: products stored in that warehouse get an empty warehouse name. */
  function ClearWarehouse(ps: seq<Product>, warehouse: string): (r: seq<Product>)
    ensures |r| == |ps|
    ensures forall i :: 0 <= i < |ps| ==> r[i].(warehouse := ps[i].warehouse) == ps[i]
    ensures forall i :: 0 <= i < |ps| ==> r[i].warehouse == if ps[i].warehouse == Some(warehouse) then Some("") else ps[i].warehouse
  {
    Map(ps, (p: Product) => if p.warehouse == Some(warehouse) then p.(warehouse := Some("")) else p)
  }

  function NotesOf(p: Product): seq<NoteEntry> {
    if p.notes.Some? then p.notes.value else []
  }

  /** `addNoteToProduct`: the note is put in front of the matching products' notes. */
  function AddNoteListed(ps: seq<Product>, id: string, note: NoteEntry): (r: seq<Product>)
    ensures |r| == |ps|
    ensures forall i :: 0 <= i < |ps| && ps[i].id != id ==> r[i] == ps[i]
    ensures forall i :: 0 <= i < |ps| && ps[i].id == id ==>
      r[i].(notes := ps[i].notes) == ps[i] && r[i].notes == Some([note] + NotesOf(ps[i]))
  {
    Map(ps, (p: Product) => if p.id == id then p.(notes := Some([note] + NotesOf(p))) else p)
  }

  /** `isSkuUnique`: some product other than the current one already has the SKU (`.some`). */
  function SkuTaken(ps: seq<Product>, sku: string, currentId: Option<string>): (r: bool)
    ensures r <==> exists i :: 0 <= i < |ps| && ps[i].sku == sku && (currentId.None? || ps[i].id != currentId.value)
  {
    if ps == [] then false
    else if ps[0].sku == sku && (currentId.None? || ps[0].id != currentId.value) then true
    else
      var r := SkuTaken(ps[1..], sku, currentId);
      assert forall j :: 0 < j < |ps| ==> ps[j] == ps[1..][j - 1];
      r
  }

  /** A SKU no other product has is free for the product that has it, and taken for a new product. */
  lemma OwnSkuIsUnique(ps: seq<Product>, i: nat)
    requires i < |ps|
    requires forall j :: 0 <= j < |ps| && j != i ==> ps[j].sku != ps[i].sku
    ensures !SkuTaken(ps, ps[i].sku, Some(ps[i].id))
    ensures SkuTaken(ps, ps[i].sku, None)
  {
  }

  /** A rewrite that keeps every position's prices and margin keeps the margins consistent. */
  lemma SamePricing(ps: seq<Product>, r: seq<Product>)
    requires MarginsConsistent(ps)
    requires |r| == |ps|
    requires forall i :: 0 <= i < |ps| ==>
      r[i].costPrice == ps[i].costPrice && r[i].retailPrice == ps[i].retailPrice && r[i].margin == ps[i].margin
    ensures MarginsConsistent(r)
  {
    forall q | q in r ensures q.margin == CalculateMargin(q.costPrice, q.retailPrice) {
      var i :| 0 <= i < |r| && r[i] == q;
      assert ps[i] in ps;
    }
  }

  /** An update recomputes the margin of the products it touches from their merged prices. */
  lemma UpdateKeepsMarginsConsistent(ps: seq<Product>, id: string, u: ProductPatch)
    requires MarginsConsistent(ps)
    ensures MarginsConsistent(UpdateProducts(ps, id, u))
  {
    var up := UpdateProducts(ps, id, u);
    forall q | q in up ensures q.margin == CalculateMargin(q.costPrice, q.retailPrice) {
      var i :| 0 <= i < |up| && up[i] == q;
      assert ps[i] in ps;
    }
  }

  /** Added products and copies carry margins that agree with their prices. */
  lemma AdditionsKeepMarginsConsistent(ps: seq<Product>, data: Product, id: string, newId: string,
                                       ids: seq<string>, newIds: nat -> string)
    requires MarginsConsistent(ps)
    ensures MarginsConsistent(ps + [NewProduct(data, id)])
    ensures MarginsConsistent(DuplicateFirst(ps, id, newId))
    ensures MarginsConsistent(DuplicateListed(ps, ids, newIds))
  {
    var src := Listed(ps, ids);
    var cs := Copies(src, newIds);
    forall q | q in ps + cs ensures q.margin == CalculateMargin(q.costPrice, q.retailPrice) {
      if q !in ps {
        var k :| 0 <= k < |cs| && cs[k] == q;
        assert src[k] in src;
      }
    }
    match FindById(ps, id) {
      case None =>
      case Some(p) =>
        assert p in ps;
    }
  }

  /** The remaining list actions leave prices and margins alone. */
  lemma OtherActionsKeepMarginsConsistent(ps: seq<Product>, id: string, ids: seq<string>, collection: string,
                                          tags: seq<string>, warehouse: string, note: NoteEntry)
    requires MarginsConsistent(ps)
    ensures MarginsConsistent(ArchiveListed(ps, ids))
    ensures MarginsConsistent(DeleteListed(ps, ids))
    ensures MarginsConsistent(ChangeCollectionListed(ps, ids, collection))
    ensures MarginsConsistent(AddTagsListed(ps, ids, tags))
    ensures MarginsConsistent(ClearWarehouse(ps, warehouse))
    ensures MarginsConsistent(AddNoteListed(ps, id, note))
  {
    SamePricing(ps, ArchiveListed(ps, ids));
    SamePricing(ps, ChangeCollectionListed(ps, ids, collection));
    SamePricing(ps, AddTagsListed(ps, ids, tags));
    SamePricing(ps, ClearWarehouse(ps, warehouse));
    SamePricing(ps, AddNoteListed(ps, id, note));
  }

  /** The first two stages of `applyFilters`: the search, then the status filter, each only when set. */
  method SearchThenStatus(all: seq<Product>, search: string, status: StatusFilter) returns (filtered: seq<Product>)
    ensures filtered == Filter(all, (p: Product) => MatchesUpToStatus(p, search, status))
  {
    ghost var none := (p: Product) => true;
    ghost var upToSearch := (p: Product) => MatchesSearch(p, search);
    FilterKeepsAll(all, none);
    var term := ToLower(search);
    var bySearch := (p: Product) => Contains(ToLower(p.name), term) || Contains(ToLower(p.sku), term);
    filtered := Narrow(all, all, none, search != "", bySearch, upToSearch);

    var wanted := if status.Only? then status.status else Active;
    var byStatus := (p: Product) => p.status == wanted;
    filtered := Narrow(all, filtered, upToSearch, status != AllStatuses, byStatus,
                       (p: Product) => MatchesUpToStatus(p, search, status));
  }

  /**
   * The body of `applyFilters`: starting from the whole list, each filter
   * that is set narrows the list in turn (search, status, collection, tags).
   * The result is the one-pass filter by all criteria.
   */
  method FilterStaged(all: seq<Product>, c: Criteria) returns (filtered: seq<Product>)
    ensures filtered == FilterProducts(all, c)
  {
    var search, status, collection, tagSet := c.search, c.status, c.collection, c.tags;
    ghost var upToStatus := (p: Product) => MatchesUpToStatus(p, search, status);
    ghost var upToCollection := (p: Product) => MatchesUpToCollection(p, search, status, collection);
    ghost var upToTags := (p: Product) => Matches(p, c);

    filtered := SearchThenStatus(all, search, status);
    FilterAgree(all, (p: Product) => MatchesUpToStatus(p, search, status), upToStatus);

    var byCollection := (p: Product) => p.collection == Some(collection);
    filtered := Narrow(all, filtered, upToStatus, collection != "", byCollection, upToCollection);

    var byTags := (p: Product) => p.tags.Some? && exists t :: t in p.tags.value && t in tagSet;
    forall p | p in all ensures upToTags(p) == (upToCollection(p) && (!(|tagSet| > 0) || byTags(p))) {
      assert MatchesTags(p, tagSet) <==> |tagSet| == 0 || byTags(p);
    }
    filtered := Narrow(all, filtered, upToCollection, |tagSet| > 0, byTags, upToTags);
  }

  // ---------------------------------------------------------------- the store

  class ProductStore {
    var products: seq<Product>
    var filteredProducts: seq<Product>
    var searchTerm: string
    var statusFilter: StatusFilter
    var collectionFilter: string
    var tagFilter: seq<string>

    function CurrentCriteria(): Criteria
      reads this
    {
      Criteria(searchTerm, statusFilter, collectionFilter, tagFilter)
    }

    /** The visible list is the filter of the whole list under the current settings. */
    predicate Synced()
      reads this
    {
      filteredProducts == FilterProducts(products, CurrentCriteria())
    }

    /** The store as created: the seed list, shown in full, with no filter set. */
    constructor (seed: seq<Product>)
      ensures products == seed && filteredProducts == seed
      ensures CurrentCriteria() == NoCriteria
      ensures Synced()
    {
      products := seed;
      filteredProducts := seed;
      searchTerm := "";
      statusFilter := AllStatuses;
      collectionFilter := "";
      tagFilter := [];
      NoCriteriaShowsAll(seed);
    }

    /** `applyFilters`: the visible list recomputed from the whole list and the current settings. */
    method ApplyFilters()
      modifies this
      ensures products == old(products) && CurrentCriteria() == old(CurrentCriteria())
      ensures Synced()
    {
      filteredProducts := FilterStaged(products, CurrentCriteria());
    }

    method SetSearchTerm(term: string)
      modifies this
      ensures products == old(products) && CurrentCriteria() == old(CurrentCriteria()).(search := term)
      ensures Synced()
    {
      searchTerm := term;
      ApplyFilters();
    }

    method SetStatusFilter(status: StatusFilter)
      modifies this
      ensures products == old(products) && CurrentCriteria() == old(CurrentCriteria()).(status := status)
      ensures Synced()
    {
      statusFilter := status;
      ApplyFilters();
    }

    method SetCollectionFilter(collection: string)
      modifies this
      ensures products == old(products) && CurrentCriteria() == old(CurrentCriteria()).(collection := collection)
      ensures Synced()
    {
      collectionFilter := collection;
      ApplyFilters();
    }

    method SetTagFilter(tags: seq<string>)
      modifies this
      ensures products == old(products) && CurrentCriteria() == old(CurrentCriteria()).(tags := tags)
      ensures Synced()
    {
      tagFilter := tags;
      ApplyFilters();
    }

    /** `addProduct`, with the random id `PRD-n` passed in as `id`. */
    method AddProduct(data: Product, id: string)
      modifies this
      ensures products == old(products) + [NewProduct(data, id)]
      ensures CurrentCriteria() == old(CurrentCriteria()) && Synced()
    {
      products := products + [NewProduct(data, id)];
      ApplyFilters();
    }

    method UpdateProduct(id: string, u: ProductPatch)
      modifies this
      ensures products == UpdateProducts(old(products), id, u)
      ensures CurrentCriteria() == old(CurrentCriteria()) && Synced()
    {
      products := UpdateProducts(products, id, u);
      ApplyFilters();
    }

    /** `archiveProduct(id)` is `bulkArchive([id])`. */
    method ArchiveProduct(id: string)
      modifies this
      ensures products == ArchiveListed(old(products), [id])
      ensures CurrentCriteria() == old(CurrentCriteria()) && Synced()
    {
      products := ArchiveListed(products, [id]);
      ApplyFilters();
    }

    /** `duplicateProduct`, with the random id of the copy passed in as `newId`. */
    method DuplicateProduct(id: string, newId: string)
      modifies this
      ensures products == DuplicateFirst(old(products), id, newId)
      ensures CurrentCriteria() == old(CurrentCriteria()) && Synced()
    {
      products := DuplicateFirst(products, id, newId);
      ApplyFilters();
    }

    method BulkArchive(ids: seq<string>)
      modifies this
      ensures products == ArchiveListed(old(products), ids)
      ensures CurrentCriteria() == old(CurrentCriteria()) && Synced()
    {
      products := ArchiveListed(products, ids);
      ApplyFilters();
    }

    /** `bulkDuplicate`, the `k`-th copy receiving the random id `newId(k)`. */
    method BulkDuplicate(ids: seq<string>, newId: nat -> string)
      modifies this
      ensures products == DuplicateListed(old(products), ids, newId)
      ensures CurrentCriteria() == old(CurrentCriteria()) && Synced()
    {
      products := DuplicateListed(products, ids, newId);
      ApplyFilters();
    }

    /** `isSkuUnique(sku, currentProductId)`: no product other than the current one has the SKU. */
    function IsSkuUnique(sku: string, currentId: Option<string>): (r: bool)
      reads this
      ensures r <==> forall p :: p in products && p.sku == sku ==> currentId.Some? && p.id == currentId.value
    {
      !SkuTaken(products, sku, currentId)
    }

    /** `removeWarehouse`: the visible list is NOT recomputed. */
    method RemoveWarehouse(warehouse: string)
      modifies this
      ensures products == ClearWarehouse(old(products), warehouse)
      ensures filteredProducts == old(filteredProducts) && CurrentCriteria() == old(CurrentCriteria())
    {
      products := ClearWarehouse(products, warehouse);
    }

    method BulkChangeCollection(ids: seq<string>, collection: string)
      modifies this
      ensures products == ChangeCollectionListed(old(products), ids, collection)
      ensures CurrentCriteria() == old(CurrentCriteria()) && Synced()
    {
      products := ChangeCollectionListed(products, ids, collection);
      ApplyFilters();
    }

    method BulkAddTags(ids: seq<string>, tags: seq<string>)
      modifies this
      ensures products == AddTagsListed(old(products), ids, tags)
      ensures CurrentCriteria() == old(CurrentCriteria()) && Synced()
    {
      products := AddTagsListed(products, ids, tags);
      ApplyFilters();
    }

    method BulkDelete(ids: seq<string>)
      modifies this
      ensures products == DeleteListed(old(products), ids)
      ensures CurrentCriteria() == old(CurrentCriteria()) && Synced()
    {
      products := DeleteListed(products, ids);
      ApplyFilters();
    }

    /**
     * `addNoteToProduct`, with the clock-derived note id and time passed in;
     * the visible list is NOT recomputed.
     */
    method AddNoteToProduct(id: string, text: string, noteId: string, now: int)
      modifies this
      ensures products == AddNoteListed(old(products), id, NoteEntry(noteId, text, now, NoteUser))
      ensures filteredProducts == old(filteredProducts) && CurrentCriteria() == old(CurrentCriteria())
    {
      products := AddNoteListed(products, id, NoteEntry(noteId, text, now, NoteUser));
    }
  }
}
