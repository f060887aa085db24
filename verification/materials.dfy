/**
 * The materials store: the list of materials, the visible list, the search
 * query and the three filters. Every action rewrites the list and then
 * recomputes the visible list. "Archived" here means `status == Archived`;
 * the `isArchived` flag is carried along but never read or written.
 */
module Materials {
  import opened Text
  import opened Lists

  datatype MaterialType = Raw | Processed | Packaging
  datatype MaterialStatus = Active | Draft | Archived

  datatype Attachment = Attachment(name: string, url: string, kind: string)

  /** Timestamps are the ISO-8601 strings the store writes; prices and quantities are exact reals. */
  datatype Material = Material(
    id: string,
    name: string,
    kind: MaterialType,
    status: MaterialStatus,
    description: Option<string>,
    price: Option<real>,
    quantity: Option<real>,
    unit: Option<string>,
    supplier: Option<string>,
    contactPerson: Option<string>,
    email: Option<string>,
    phone: Option<string>,
    website: Option<string>,
    notes: Option<seq<string>>,
    certifications: seq<string>,
    isArchived: bool,
    createdAt: string,
    updatedAt: string,
    image: Option<string>,
    attachments: Option<seq<Attachment>>)

  /** The store's initial list. */
  const SeedMaterials: seq<Material> := [
    Material("1", "Organic Flour", Raw, Active, Some("High-quality organic wheat flour"), Some(2.5), Some(1000.0),
             Some("kg"), Some("Flour Mill Co."), Some("John Smith"), Some("john@flourmill.com"), Some("+1234567890"),
             Some("www.flourmill.com"), Some(["Premium quality", "Certified organic"]), ["Organic", "Non-GMO"],
             false, "2024-01-01T00:00:00Z", "2024-01-01T00:00:00Z", None, None)
  ]

  /**
   * The filter settings: a missing category or contact status is "no
   * filter", and so is an empty contact status (it is falsy).
   */
  datatype MaterialFilters = MaterialFilters(category: Option<MaterialType>, contactStatus: Option<string>,
                                             certifications: seq<string>)

  const NoFilters: MaterialFilters := MaterialFilters(None, None, [])

  // ---------------------------------------------------------------- filter

  /** The name, or the description when there is one, contains the query, ignoring case. */
  predicate MatchesQuery(m: Material, query: string) {
    query == "" ||
    Contains(ToLower(m.name), ToLower(query)) ||
    (m.description.Some? && Contains(ToLower(m.description.value), ToLower(query)))
  }

  /** The category filter is compared with the material's type. */
  predicate MatchesCategory(m: Material, category: Option<MaterialType>) {
    category.None? || m.kind == category.value
  }

  /** The "contact status" filter is compared with the material's status name. */
  predicate MatchesContactStatus(m: Material, contactStatus: Option<string>) {
    contactStatus.None? || contactStatus.value == "" || StatusName(m.status) == contactStatus.value
  }

  function StatusName(s: MaterialStatus): string {
    match s
    case Active => "active"
    case Draft => "draft"
    case Archived => "archived"
  }

  /** All-of: every requested certification is held. */
  predicate MatchesCertifications(m: Material, certifications: seq<string>) {
    forall c :: c in certifications ==> c in m.certifications
  }

  predicate Matches(m: Material, f: MaterialFilters, query: string) {
    MatchesQuery(m, query) && MatchesCategory(m, f.category) &&
    MatchesContactStatus(m, f.contactStatus) && MatchesCertifications(m, f.certifications)
  }

  /** `filterMaterials`: in list order, exactly the materials passing every filter. */
  function FilterMaterials(ms: seq<Material>, f: MaterialFilters, query: string): (r: seq<Material>)
    ensures IsSubsequence(r, ms)
    ensures forall m :: m in r <==> m in ms && Matches(m, f, query)
    ensures forall m :: multiset(r)[m] == if Matches(m, f, query) then multiset(ms)[m] else 0
  {
    Filter(ms, (m: Material) => Matches(m, f, query))
  }

  /** With no query and no filter every material is visible. */
  lemma NoFiltersShowAll(ms: seq<Material>)
    ensures FilterMaterials(ms, NoFilters, "") == ms
  {
    FilterKeepsAll(ms, (m: Material) => Matches(m, NoFilters, ""));
  }

  /** The filter never looks at `isArchived`: flipping it changes no verdict. */
  lemma FilterIgnoresIsArchived(m: Material, f: MaterialFilters, query: string, flag: bool)
    ensures Matches(m.(isArchived := flag), f, query) <==> Matches(m, f, query)
  {
  }

  /** An archived material is still listed when no filter excludes it. */
  lemma ArchivedStillVisible(m: Material)
    requires m.status == Archived && m.isArchived
    ensures FilterMaterials([m], NoFilters, "") == [m]
  {
    NoFiltersShowAll([m]);
  }

  /** All-of: holding one of two requested certifications is not enough. */
  lemma CertificationsAllOf(m: Material)
    requires m.certifications == ["Organic"]
    ensures !MatchesCertifications(m, ["Organic", "Non-GMO"])
    ensures MatchesCertifications(m, ["Organic"])
  {
    assert "Non-GMO" in ["Organic", "Non-GMO"];
  }

  // ---------------------------------------------------------------- filter updates

  /** A `Partial<MaterialFilters>`: an outer `None` leaves the field alone, `Some(None)` sets it to null. */
  datatype FiltersPatch = FiltersPatch(category: Option<Option<MaterialType>>, contactStatus: Option<Option<string>>,
                                       certifications: Option<seq<string>>)

  /** `{...state.filters, ...newFilters}`. */
  function MergeFilters(f: MaterialFilters, p: FiltersPatch): (r: MaterialFilters)
    ensures r.category == (if p.category.Some? then p.category.value else f.category)
    ensures r.contactStatus == (if p.contactStatus.Some? then p.contactStatus.value else f.contactStatus)
    ensures r.certifications == (if p.certifications.Some? then p.certifications.value else f.certifications)
  {
    MaterialFilters(
      if p.category.Some? then p.category.value else f.category,
      if p.contactStatus.Some? then p.contactStatus.value else f.contactStatus,
      if p.certifications.Some? then p.certifications.value else f.certifications)
  }

  /** Merging is a right-biased overwrite: an empty patch changes nothing, and a second merge of the same patch changes nothing more. */
  lemma MergeFiltersLaws(f: MaterialFilters, p: FiltersPatch)
    ensures MergeFilters(f, FiltersPatch(None, None, None)) == f
    ensures MergeFilters(MergeFilters(f, p), p) == MergeFilters(f, p)
  {
  }

  // ---------------------------------------------------------------- actions on the list

  /** `{...material, id, createdAt, updatedAt}` for `addMaterial`; one clock reading stands for both timestamps. */
  function NewMaterial(data: Material, id: string, now: string): (r: Material)
    ensures r.id == id && r.createdAt == now && r.updatedAt == now
    ensures r.(id := data.id, createdAt := data.createdAt, updatedAt := data.updatedAt) == data
  {
    data.(id := id, createdAt := now, updatedAt := now)
  }

  /** The fields a `Partial<Material>` update may carry. */
  datatype MaterialPatch = MaterialPatch(
    id: Option<string>,
    name: Option<string>,
    kind: Option<MaterialType>,
    status: Option<MaterialStatus>,
    description: Option<string>,
    price: Option<real>,
    quantity: Option<real>,
    unit: Option<string>,
    supplier: Option<string>,
    contactPerson: Option<string>,
    email: Option<string>,
    phone: Option<string>,
    website: Option<string>,
    notes: Option<seq<string>>,
    certifications: Option<seq<string>>,
    isArchived: Option<bool>,
    createdAt: Option<string>,
    image: Option<string>,
    attachments: Option<seq<Attachment>>)

  /** `{...m, ...material, updatedAt}`: supplied fields win and the update time is stamped last. */
  function Merge(m: Material, u: MaterialPatch, now: string): (r: Material)
    ensures r.updatedAt == now
    ensures r.id == Pick(u.id, m.id) && r.name == Pick(u.name, m.name) && r.status == Pick(u.status, m.status)
    ensures r.certifications == Pick(u.certifications, m.certifications) && r.isArchived == Pick(u.isArchived, m.isArchived)
    ensures r.createdAt == Pick(u.createdAt, m.createdAt)
  {
    m.(id := Pick(u.id, m.id), name := Pick(u.name, m.name), kind := Pick(u.kind, m.kind),
       status := Pick(u.status, m.status), description := PickOpt(u.description, m.description),
       price := PickOpt(u.price, m.price), quantity := PickOpt(u.quantity, m.quantity),
       unit := PickOpt(u.unit, m.unit), supplier := PickOpt(u.supplier, m.supplier),
       contactPerson := PickOpt(u.contactPerson, m.contactPerson), email := PickOpt(u.email, m.email),
       phone := PickOpt(u.phone, m.phone), website := PickOpt(u.website, m.website),
       notes := PickOpt(u.notes, m.notes), certifications := Pick(u.certifications, m.certifications),
       isArchived := Pick(u.isArchived, m.isArchived), createdAt := Pick(u.createdAt, m.createdAt),
       updatedAt := now, image := PickOpt(u.image, m.image), attachments := PickOpt(u.attachments, m.attachments))
  }

  /** An empty patch only stamps the update time. */
  lemma EmptyPatchOnlyStamps(m: Material, now: string)
    ensures Merge(m, MaterialPatch(None, None, None, None, None, None, None, None, None, None, None, None, None,
                                   None, None, None, None, None, None), now) == m.(updatedAt := now)
  {
  }

  /** Applying the same patch at the same time twice is applying it once. */
  lemma MergeIdempotent(m: Material, u: MaterialPatch, now: string)
    ensures Merge(Merge(m, u, now), u, now) == Merge(m, u, now)
  {
  }

  /** `updateMaterial`: the matching materials are merged with the patch; the others are untouched. */
  function UpdateMaterials(ms: seq<Material>, id: string, u: MaterialPatch, now: string): (r: seq<Material>)
    ensures |r| == |ms|
    ensures forall i :: 0 <= i < |ms| && ms[i].id != id ==> r[i] == ms[i]
    ensures forall i :: 0 <= i < |ms| && ms[i].id == id ==> r[i] == Merge(ms[i], u, now)
  {
    Map(ms, (m: Material) => if m.id == id then Merge(m, u, now) else m)
  }

  /** A new status and update time on the listed materials; nothing else changes. */
  function SetStatusListed(ms: seq<Material>, ids: seq<string>, status: MaterialStatus, now: string): (r: seq<Material>)
    ensures |r| == |ms|
    ensures forall i :: 0 <= i < |ms| && ms[i].id !in ids ==> r[i] == ms[i]
    ensures forall i :: 0 <= i < |ms| && ms[i].id in ids ==>
      r[i].status == status && r[i].updatedAt == now &&
      r[i].(status := ms[i].status, updatedAt := ms[i].updatedAt) == ms[i]
  {
    Map(ms, (m: Material) => if m.id in ids then m.(status := status, updatedAt := now) else m)
  }

  /**
   * Archiving and then restoring makes every listed material "active",
   * whatever it was before (a draft comes back active); the `isArchived`
   * flag is untouched by both.
   */
  lemma ArchiveThenRestore(ms: seq<Material>, ids: seq<string>, t1: string, t2: string)
    ensures var r := SetStatusListed(SetStatusListed(ms, ids, Archived, t1), ids, Active, t2);
      |r| == |ms| &&
      forall i :: 0 <= i < |ms| ==>
        r[i].isArchived == ms[i].isArchived &&
        (ms[i].id in ids ==> r[i] == ms[i].(status := Active, updatedAt := t2)) &&
        (ms[i].id !in ids ==> r[i] == ms[i])
  {
    var a := SetStatusListed(ms, ids, Archived, t1);
    forall i | 0 <= i < |ms| ensures a[i].id == ms[i].id {}
  }

  /** `bulkAddCertification`: the certification is appended to every listed material, even when it is already held. */
  function AddCertificationListed(ms: seq<Material>, ids: seq<string>, certification: string, now: string): (r: seq<Material>)
    ensures |r| == |ms|
    ensures forall i :: 0 <= i < |ms| && ms[i].id !in ids ==> r[i] == ms[i]
    ensures forall i :: 0 <= i < |ms| && ms[i].id in ids ==>
      r[i].certifications == ms[i].certifications + [certification] && r[i].updatedAt == now &&
      r[i].(certifications := ms[i].certifications, updatedAt := ms[i].updatedAt) == ms[i]
  {
    Map(ms, (m: Material) => if m.id in ids then m.(certifications := m.certifications + [certification], updatedAt := now) else m)
  }

  /** Each application grows a listed material's list by exactly one, so repeating it creates duplicates. */
  lemma AddCertificationTwiceDuplicates(ms: seq<Material>, ids: seq<string>, certification: string, t1: string, t2: string)
    ensures var r := AddCertificationListed(AddCertificationListed(ms, ids, certification, t1), ids, certification, t2);
      forall i :: 0 <= i < |ms| && ms[i].id in ids ==>
        |r[i].certifications| == |ms[i].certifications| + 2 && !NoDuplicates(r[i].certifications)
  {
    var once := AddCertificationListed(ms, ids, certification, t1);
    var r := AddCertificationListed(once, ids, certification, t2);
    forall i | 0 <= i < |ms| && ms[i].id in ids
      ensures |r[i].certifications| == |ms[i].certifications| + 2 && !NoDuplicates(r[i].certifications)
    {
      assert once[i].id == ms[i].id;
      var c := r[i].certifications;
      assert c == ms[i].certifications + [certification] + [certification];
      assert c[|c| - 2] == c[|c| - 1];
    }
  }

  // ---------------------------------------------------------------- the store

  class MaterialStore {
    var materials: seq<Material>
    var filteredMaterials: seq<Material>
    var searchQuery: string
    var filters: MaterialFilters

    /** The visible list is the filter of the whole list under the current query and filters. */
    predicate Synced()
      reads this
    {
      filteredMaterials == FilterMaterials(materials, filters, searchQuery)
    }

    /** The store as created: the seed list, shown in full, with no query and no filter. */
    constructor ()
      ensures materials == SeedMaterials && filteredMaterials == SeedMaterials
      ensures searchQuery == "" && filters == NoFilters
      ensures Synced()
    {
      materials := SeedMaterials;
      filteredMaterials := SeedMaterials;
      searchQuery := "";
      filters := NoFilters;
      NoFiltersShowAll(SeedMaterials);
    }

    method SetSearchQuery(query: string)
      modifies this
      ensures searchQuery == query && materials == old(materials) && filters == old(filters)
      ensures Synced()
    {
      searchQuery := query;
      filteredMaterials := FilterMaterials(materials, filters, query);
    }

    /** `setFilters`: the partial filters are merged into the current ones and the visible list recomputed. */
    method SetFilters(p: FiltersPatch)
      modifies this
      ensures filters == MergeFilters(old(filters), p)
      ensures materials == old(materials) && searchQuery == old(searchQuery)
      ensures Synced()
    {
      filters := MergeFilters(filters, p);
      filteredMaterials := FilterMaterials(materials, MergeFilters(filters, p), searchQuery);
    }

    /** `addMaterial`, with the random id and the current time passed in. */
    method AddMaterial(data: Material, id: string, now: string)
      modifies this
      ensures materials == old(materials) + [NewMaterial(data, id, now)]
      ensures searchQuery == old(searchQuery) && filters == old(filters) && Synced()
    {
      materials := materials + [NewMaterial(data, id, now)];
      filteredMaterials := FilterMaterials(materials, filters, searchQuery);
    }

    method UpdateMaterial(id: string, u: MaterialPatch, now: string)
      modifies this
      ensures materials == UpdateMaterials(old(materials), id, u, now)
      ensures searchQuery == old(searchQuery) && filters == old(filters) && Synced()
    {
      materials := UpdateMaterials(materials, id, u, now);
      filteredMaterials := FilterMaterials(materials, filters, searchQuery);
    }

    method ArchiveMaterial(id: string, now: string)
      modifies this
      ensures materials == SetStatusListed(old(materials), [id], Archived, now)
      ensures searchQuery == old(searchQuery) && filters == old(filters) && Synced()
    {
      materials := SetStatusListed(materials, [id], Archived, now);
      filteredMaterials := FilterMaterials(materials, filters, searchQuery);
    }

    method RestoreMaterial(id: string, now: string)
      modifies this
      ensures materials == SetStatusListed(old(materials), [id], Active, now)
      ensures searchQuery == old(searchQuery) && filters == old(filters) && Synced()
    {
      materials := SetStatusListed(materials, [id], Active, now);
      filteredMaterials := FilterMaterials(materials, filters, searchQuery);
    }

    method BulkArchive(ids: seq<string>, now: string)
      modifies this
      ensures materials == SetStatusListed(old(materials), ids, Archived, now)
      ensures searchQuery == old(searchQuery) && filters == old(filters) && Synced()
    {
      materials := SetStatusListed(materials, ids, Archived, now);
      filteredMaterials := FilterMaterials(materials, filters, searchQuery);
    }

    method BulkRestore(ids: seq<string>, now: string)
      modifies this
      ensures materials == SetStatusListed(old(materials), ids, Active, now)
      ensures searchQuery == old(searchQuery) && filters == old(filters) && Synced()
    {
      materials := SetStatusListed(materials, ids, Active, now);
      filteredMaterials := FilterMaterials(materials, filters, searchQuery);
    }

    method BulkAddCertification(ids: seq<string>, certification: string, now: string)
      modifies this
      ensures materials == AddCertificationListed(old(materials), ids, certification, now)
      ensures searchQuery == old(searchQuery) && filters == old(filters) && Synced()
    {
      materials := AddCertificationListed(materials, ids, certification, now);
      filteredMaterials := FilterMaterials(materials, filters, searchQuery);
    }
  }
}
