/**
 * The manufacturers store: the list of manufacturers, the visible list, the
 * filter settings, the selected rows and the dialog state. Every action
 * that changes the list or the filters recomputes the visible list; the
 * bulk actions work on the selected rows and then empty the selection.
 * "Archived" here is the `isArchived` flag, and archived manufacturers are
 * hidden unless `showArchived` is set.
 */
module Manufacturers {
  import opened Text
  import opened Lists

  datatype Location = Location(address: string, city: string, state: string, country: string, postalCode: string)

  datatype File = File(id: string, name: string, url: string, kind: string, size: int, uploadedAt: string)

  datatype Note = Note(id: string, text: string, author: string, timestamp: string)

  /** Category and contact status are kept as the strings the records hold. */
  datatype Manufacturer = Manufacturer(
    id: string,
    name: string,
    category: string,
    contactStatus: string,
    moq: int,
    certifications: seq<string>,
    location: Location,
    contactPerson: string,
    email: string,
    phone: string,
    website: string,
    notes: seq<Note>,
    files: seq<File>,
    isArchived: bool,
    createdAt: string,
    updatedAt: string)

  /** The filter settings; a missing (or empty) category or contact status is "no filter". */
  datatype Filters = Filters(search: string, category: Option<string>, contactStatus: Option<string>,
                             certifications: seq<string>, showArchived: bool)

  /** The settings the store starts with and `clearFilters` restores. */
  const DefaultFilters: Filters := Filters("", None, None, [], false)

  // ---------------------------------------------------------------- filter

  /** Name, contact person or e-mail contains the search text, ignoring case. */
  predicate MatchesSearch(m: Manufacturer, search: string) {
    search == "" ||
    Contains(ToLower(m.name), ToLower(search)) ||
    Contains(ToLower(m.contactPerson), ToLower(search)) ||
    Contains(ToLower(m.email), ToLower(search))
  }

  predicate MatchesOptional(value: string, wanted: Option<string>) {
    wanted.None? || wanted.value == "" || value == wanted.value
  }

  /** Any-of: some certification held is among the requested ones. */
  predicate MatchesCertifications(m: Manufacturer, certifications: seq<string>) {
    certifications == [] || exists c :: c in m.certifications && c in certifications
  }

  predicate Matches(m: Manufacturer, f: Filters) {
    MatchesSearch(m, f.search) && MatchesOptional(m.category, f.category) &&
    MatchesOptional(m.contactStatus, f.contactStatus) && MatchesCertifications(m, f.certifications) &&
    (f.showArchived || !m.isArchived)
  }

  /** `applyFilters`: in list order, exactly the manufacturers passing every filter. */
  function ApplyFilters(ms: seq<Manufacturer>, f: Filters): (r: seq<Manufacturer>)
    ensures IsSubsequence(r, ms)
    ensures forall m :: m in r <==> m in ms && Matches(m, f)
    ensures forall m :: multiset(r)[m] == if Matches(m, f) then multiset(ms)[m] else 0
  {
    Filter(ms, (m: Manufacturer) => Matches(m, f))
  }

  /** The default settings hide exactly the archived manufacturers. */
  lemma DefaultHidesArchived(ms: seq<Manufacturer>)
    ensures forall m :: m in ApplyFilters(ms, DefaultFilters) <==> m in ms && !m.isArchived
    ensures (forall m :: m in ms ==> !m.isArchived) ==> ApplyFilters(ms, DefaultFilters) == ms
  {
    if forall m :: m in ms ==> !m.isArchived {
      FilterKeepsAll(ms, (m: Manufacturer) => Matches(m, DefaultFilters));
    }
  }

  /** Showing archived records only ever adds to the visible list. */
  lemma ShowArchivedWidens(ms: seq<Manufacturer>, f: Filters)
    ensures forall m :: m in ApplyFilters(ms, f.(showArchived := false)) ==> m in ApplyFilters(ms, f.(showArchived := true))
  {
  }

  /** Any-of: holding one of two requested certifications is enough. */
  lemma CertificationsAnyOf(m: Manufacturer)
    requires m.certifications == ["ISO 9001"]
    ensures MatchesCertifications(m, ["ISO 9001", "Organic"])
    ensures !MatchesCertifications(m, ["Organic"])
  {
    assert "ISO 9001" in m.certifications;
  }

  /** `{...filters, showArchived: !filters.showArchived}`. */
  function FlipShowArchived(f: Filters): (r: Filters)
    ensures r.showArchived != f.showArchived
    ensures r.(showArchived := f.showArchived) == f
  {
    f.(showArchived := !f.showArchived)
  }

  /** Flipping twice restores the settings. */
  lemma FlipShowArchivedTwice(f: Filters)
    ensures FlipShowArchived(FlipShowArchived(f)) == f
  {
  }

  // ---------------------------------------------------------------- actions on the list

  /** `{...data, id, createdAt, updatedAt}`; one clock reading stands for both timestamps. */
  function NewManufacturer(data: Manufacturer, id: string, now: string): (r: Manufacturer)
    ensures r.id == id && r.createdAt == now && r.updatedAt == now
    ensures r.(id := data.id, createdAt := data.createdAt, updatedAt := data.updatedAt) == data
  {
    data.(id := id, createdAt := now, updatedAt := now)
  }

  /** The fields a `Partial<Manufacturer>` update may carry. */
  datatype ManufacturerPatch = ManufacturerPatch(
    id: Option<string>,
    name: Option<string>,
    category: Option<string>,
    contactStatus: Option<string>,
    moq: Option<int>,
    certifications: Option<seq<string>>,
    location: Option<Location>,
    contactPerson: Option<string>,
    email: Option<string>,
    phone: Option<string>,
    website: Option<string>,
    notes: Option<seq<Note>>,
    files: Option<seq<File>>,
    isArchived: Option<bool>,
    createdAt: Option<string>)

  /** `{...manufacturer, ...data, updatedAt}`: supplied fields win and the update time is stamped last. */
  function Merge(m: Manufacturer, u: ManufacturerPatch, now: string): (r: Manufacturer)
    ensures r.updatedAt == now
    ensures r.id == Pick(u.id, m.id) && r.name == Pick(u.name, m.name) && r.isArchived == Pick(u.isArchived, m.isArchived)
    ensures r.certifications == Pick(u.certifications, m.certifications) && r.files == Pick(u.files, m.files)
    ensures r.createdAt == Pick(u.createdAt, m.createdAt)
  {
    m.(id := Pick(u.id, m.id), name := Pick(u.name, m.name), category := Pick(u.category, m.category),
       contactStatus := Pick(u.contactStatus, m.contactStatus), moq := Pick(u.moq, m.moq),
       certifications := Pick(u.certifications, m.certifications), location := Pick(u.location, m.location),
       contactPerson := Pick(u.contactPerson, m.contactPerson), email := Pick(u.email, m.email),
       phone := Pick(u.phone, m.phone), website := Pick(u.website, m.website), notes := Pick(u.notes, m.notes),
       files := Pick(u.files, m.files), isArchived := Pick(u.isArchived, m.isArchived),
       createdAt := Pick(u.createdAt, m.createdAt), updatedAt := now)
  }

  /** An empty patch only stamps the update time. */
  lemma EmptyPatchOnlyStamps(m: Manufacturer, now: string)
    ensures Merge(m, ManufacturerPatch(None, None, None, None, None, None, None, None, None, None, None, None, None,
                                       None, None), now) == m.(updatedAt := now)
  {
  }

  /** Applying the same patch at the same time twice is applying it once. */
  lemma MergeIdempotent(m: Manufacturer, u: ManufacturerPatch, now: string)
    ensures Merge(Merge(m, u, now), u, now) == Merge(m, u, now)
  {
  }

  /** `updateManufacturer`: the matching manufacturers are merged with the patch; the others are untouched. */
  function UpdateManufacturers(ms: seq<Manufacturer>, id: string, u: ManufacturerPatch, now: string): (r: seq<Manufacturer>)
    ensures |r| == |ms|
    ensures forall i :: 0 <= i < |ms| && ms[i].id != id ==> r[i] == ms[i]
    ensures forall i :: 0 <= i < |ms| && ms[i].id == id ==> r[i] == Merge(ms[i], u, now)
  {
    Map(ms, (m: Manufacturer) => if m.id == id then Merge(m, u, now) else m)
  }

  /** The archived flag and update time set on the listed manufacturers; nothing else changes. */
  function SetArchivedListed(ms: seq<Manufacturer>, ids: seq<string>, archived: bool, now: string): (r: seq<Manufacturer>)
    ensures |r| == |ms|
    ensures forall i :: 0 <= i < |ms| && ms[i].id !in ids ==> r[i] == ms[i]
    ensures forall i :: 0 <= i < |ms| && ms[i].id in ids ==>
      r[i].isArchived == archived && r[i].updatedAt == now &&
      r[i].(isArchived := ms[i].isArchived, updatedAt := ms[i].updatedAt) == ms[i]
  {
    Map(ms, (m: Manufacturer) => if m.id in ids then m.(isArchived := archived, updatedAt := now) else m)
  }

  /**
   * Archiving and then restoring gives back every listed manufacturer that
   * was not archived, apart from its update time; under the default
   * settings it is visible again.
   */
  lemma ArchiveThenRestore(ms: seq<Manufacturer>, ids: seq<string>, t1: string, t2: string)
    ensures var r := SetArchivedListed(SetArchivedListed(ms, ids, true, t1), ids, false, t2);
      |r| == |ms| &&
      (forall i :: 0 <= i < |ms| && ms[i].id in ids ==> r[i] == ms[i].(isArchived := false, updatedAt := t2)) &&
      (forall i :: 0 <= i < |ms| && ms[i].id in ids && !ms[i].isArchived ==> r[i] == ms[i].(updatedAt := t2)) &&
      (forall i :: 0 <= i < |ms| && ms[i].id in ids ==> r[i] in ApplyFilters(r, DefaultFilters)) &&
      (forall i :: 0 <= i < |ms| && ms[i].id !in ids ==> r[i] == ms[i])
  {
    var a := SetArchivedListed(ms, ids, true, t1);
    var r := SetArchivedListed(a, ids, false, t2);
    forall i | 0 <= i < |ms| ensures a[i].id == ms[i].id {}
    DefaultHidesArchived(r);
    forall i | 0 <= i < |ms| && ms[i].id in ids ensures r[i] in ApplyFilters(r, DefaultFilters) {
      assert r[i] in r && !r[i].isArchived;
    }
  }

  /** `bulkAddCertification`: the certification is added to each listed manufacturer that lacks it. */
  function AddCertificationListed(ms: seq<Manufacturer>, ids: seq<string>, certification: string, now: string): (r: seq<Manufacturer>)
    ensures |r| == |ms|
    ensures forall i :: 0 <= i < |ms| && ms[i].id !in ids ==> r[i] == ms[i]
    ensures forall i :: 0 <= i < |ms| && ms[i].id in ids ==>
      r[i].certifications == AppendIfAbsent(ms[i].certifications, certification) && r[i].updatedAt == now &&
      r[i].(certifications := ms[i].certifications, updatedAt := ms[i].updatedAt) == ms[i]
  {
    Map(ms, (m: Manufacturer) =>
      if m.id in ids then m.(certifications := AppendIfAbsent(m.certifications, certification), updatedAt := now) else m)
  }

  /** Adding a certification is a set union: a second application changes nothing beyond the update time. */
  lemma AddCertificationIdempotent(ms: seq<Manufacturer>, ids: seq<string>, certification: string, t1: string, t2: string)
    ensures AddCertificationListed(AddCertificationListed(ms, ids, certification, t1), ids, certification, t2)
         == AddCertificationListed(ms, ids, certification, t2)
  {
    var once := AddCertificationListed(ms, ids, certification, t1);
    var twice := AddCertificationListed(once, ids, certification, t2);
    var direct := AddCertificationListed(ms, ids, certification, t2);
    forall i | 0 <= i < |ms| ensures twice[i] == direct[i] {
      assert once[i].id == ms[i].id;
      if ms[i].id in ids {
        AppendIfAbsentIdempotent(ms[i].certifications, certification);
      }
    }
  }

  /** Certification lists stay duplicate-free. */
  lemma AddCertificationNoDuplicates(ms: seq<Manufacturer>, ids: seq<string>, certification: string, now: string)
    requires forall m :: m in ms ==> NoDuplicates(m.certifications)
    ensures forall m :: m in AddCertificationListed(ms, ids, certification, now) ==> NoDuplicates(m.certifications)
  {
    var r := AddCertificationListed(ms, ids, certification, now);
    forall q | q in r ensures NoDuplicates(q.certifications) {
      var i :| 0 <= i < |r| && r[i] == q;
      assert ms[i] in ms;
      AppendIfAbsentNoDuplicates(ms[i].certifications, certification);
    }
  }

  /** `addNote`: the note (with its fresh id and time) is appended to the matching manufacturers' notes. */
  function AddNoteTo(ms: seq<Manufacturer>, id: string, note: Note, now: string): (r: seq<Manufacturer>)
    ensures |r| == |ms|
    ensures forall i :: 0 <= i < |ms| && ms[i].id != id ==> r[i] == ms[i]
    ensures forall i :: 0 <= i < |ms| && ms[i].id == id ==>
      r[i].notes == ms[i].notes + [note] && r[i].updatedAt == now &&
      r[i].(notes := ms[i].notes, updatedAt := ms[i].updatedAt) == ms[i]
  {
    Map(ms, (m: Manufacturer) => if m.id == id then m.(notes := m.notes + [note], updatedAt := now) else m)
  }

  /** `addFile`: the file (with its fresh id) is appended to the matching manufacturers' files. */
  function AddFileTo(ms: seq<Manufacturer>, id: string, file: File, now: string): (r: seq<Manufacturer>)
    ensures |r| == |ms|
    ensures forall i :: 0 <= i < |ms| && ms[i].id != id ==> r[i] == ms[i]
    ensures forall i :: 0 <= i < |ms| && ms[i].id == id ==>
      r[i].files == ms[i].files + [file] && r[i].updatedAt == now &&
      r[i].(files := ms[i].files, updatedAt := ms[i].updatedAt) == ms[i]
  {
    Map(ms, (m: Manufacturer) => if m.id == id then m.(files := m.files + [file], updatedAt := now) else m)
  }

  /** The files without the given id, in order. */
  function FilesWithout(files: seq<File>, fileId: string): (r: seq<File>)
    ensures IsSubsequence(r, files)
    ensures forall f :: f in r <==> f in files && f.id != fileId
    ensures forall f :: multiset(r)[f] == if f.id != fileId then multiset(files)[f] else 0
  {
    Filter(files, (f: File) => f.id != fileId)
  }

  /** `removeFile`: every file with the id is dropped from the matching manufacturers; the other files keep their order. */
  function RemoveFileFrom(ms: seq<Manufacturer>, id: string, fileId: string, now: string): (r: seq<Manufacturer>)
    ensures |r| == |ms|
    ensures forall i :: 0 <= i < |ms| && ms[i].id != id ==> r[i] == ms[i]
    ensures forall i :: 0 <= i < |ms| && ms[i].id == id ==>
      r[i].files == FilesWithout(ms[i].files, fileId) && r[i].updatedAt == now &&
      r[i].(files := ms[i].files, updatedAt := ms[i].updatedAt) == ms[i]
  {
    Map(ms, (m: Manufacturer) => if m.id == id then m.(files := FilesWithout(m.files, fileId), updatedAt := now) else m)
  }

  /** Removing a file just added (under an id no other file has) gives the file list back. */
  lemma AddThenRemoveFile(files: seq<File>, file: File)
    requires forall f :: f in files ==> f.id != file.id
    ensures FilesWithout(files + [file], file.id) == files
  {
    FilterAppend(files, [file], (f: File) => f.id != file.id);
    FilterKeepsAll(files, (f: File) => f.id != file.id);
  }

  /** The ids of a list of manufacturers, in order. */
  function Ids(ms: seq<Manufacturer>): (r: seq<string>)
    ensures |r| == |ms| && forall i :: 0 <= i < |ms| ==> r[i] == ms[i].id
  {
    Map(ms, (m: Manufacturer) => m.id)
  }

  // ---------------------------------------------------------------- the store

  class ManufacturerStore {
    var manufacturers: seq<Manufacturer>
    var filteredManufacturers: seq<Manufacturer>
    var selectedRows: seq<string>
    var isAddModalOpen: bool
    var isDetailOpen: bool
    var selectedManufacturerId: Option<string>
    var filters: Filters

    /** The visible list is the filter of the whole list under the current settings. */
    predicate Synced()
      reads this
    {
      filteredManufacturers == ApplyFilters(manufacturers, filters)
    }

    /** The dialog state: add dialog open, detail panel open, manufacturer shown. */
    function Dialogs(): (bool, bool, Option<string>)
      reads this
    {
      (isAddModalOpen, isDetailOpen, selectedManufacturerId)
    }

    /**
     * The store as created: the seed list, shown in full (without applying the
     * default filter), nothing selected, dialogs closed, default settings.
     */
    constructor (seed: seq<Manufacturer>)
      ensures manufacturers == seed && filteredManufacturers == seed && selectedRows == []
      ensures Dialogs() == (false, false, None) && filters == DefaultFilters
      ensures (forall m :: m in seed ==> !m.isArchived) ==> Synced()
    {
      manufacturers := seed;
      filteredManufacturers := seed;
      selectedRows := [];
      isAddModalOpen := false;
      isDetailOpen := false;
      selectedManufacturerId := None;
      filters := DefaultFilters;
      DefaultHidesArchived(seed);
    }

    method SetSearchFilter(query: string)
      modifies this
      ensures filters == old(filters).(search := query)
      ensures manufacturers == old(manufacturers) && selectedRows == old(selectedRows) && Dialogs() == old(Dialogs())
      ensures Synced()
    {
      filters := filters.(search := query);
      filteredManufacturers := ApplyFilters(manufacturers, filters);
    }

    method SetCategoryFilter(category: Option<string>)
      modifies this
      ensures filters == old(filters).(category := category)
      ensures manufacturers == old(manufacturers) && selectedRows == old(selectedRows) && Dialogs() == old(Dialogs())
      ensures Synced()
    {
      filters := filters.(category := category);
      filteredManufacturers := ApplyFilters(manufacturers, filters);
    }

    method SetContactStatusFilter(status: Option<string>)
      modifies this
      ensures filters == old(filters).(contactStatus := status)
      ensures manufacturers == old(manufacturers) && selectedRows == old(selectedRows) && Dialogs() == old(Dialogs())
      ensures Synced()
    {
      filters := filters.(contactStatus := status);
      filteredManufacturers := ApplyFilters(manufacturers, filters);
    }

    method SetCertificationFilter(certifications: seq<string>)
      modifies this
      ensures filters == old(filters).(certifications := certifications)
      ensures manufacturers == old(manufacturers) && selectedRows == old(selectedRows) && Dialogs() == old(Dialogs())
      ensures Synced()
    {
      filters := filters.(certifications := certifications);
      filteredManufacturers := ApplyFilters(manufacturers, filters);
    }

    method ToggleShowArchived()
      modifies this
      ensures filters == FlipShowArchived(old(filters))
      ensures manufacturers == old(manufacturers) && selectedRows == old(selectedRows) && Dialogs() == old(Dialogs())
      ensures Synced()
    {
      filters := FlipShowArchived(filters);
      filteredManufacturers := ApplyFilters(manufacturers, filters);
    }

    /** `clearFilters`: back to the default settings, which hide archived manufacturers. */
    method ClearFilters()
      modifies this
      ensures filters == DefaultFilters
      ensures manufacturers == old(manufacturers) && selectedRows == old(selectedRows) && Dialogs() == old(Dialogs())
      ensures Synced()
      ensures forall m :: m in filteredManufacturers <==> m in manufacturers && !m.isArchived
    {
      filters := DefaultFilters;
      filteredManufacturers := ApplyFilters(manufacturers, filters);
      DefaultHidesArchived(manufacturers);
    }

    method OpenAddModal()
      modifies this
      ensures Dialogs() == (true, old(isDetailOpen), old(selectedManufacturerId))
      ensures manufacturers == old(manufacturers) && filteredManufacturers == old(filteredManufacturers)
      ensures selectedRows == old(selectedRows) && filters == old(filters)
    {
      isAddModalOpen := true;
    }

    method CloseAddModal()
      modifies this
      ensures Dialogs() == (false, old(isDetailOpen), old(selectedManufacturerId))
      ensures manufacturers == old(manufacturers) && filteredManufacturers == old(filteredManufacturers)
      ensures selectedRows == old(selectedRows) && filters == old(filters)
    {
      isAddModalOpen := false;
    }

    method OpenDetail()
      modifies this
      ensures Dialogs() == (old(isAddModalOpen), true, old(selectedManufacturerId))
      ensures manufacturers == old(manufacturers) && filteredManufacturers == old(filteredManufacturers)
      ensures selectedRows == old(selectedRows) && filters == old(filters)
    {
      isDetailOpen := true;
    }

    /** `closeDetail` also forgets which manufacturer was shown. */
    method CloseDetail()
      modifies this
      ensures Dialogs() == (old(isAddModalOpen), false, None)
      ensures manufacturers == old(manufacturers) && filteredManufacturers == old(filteredManufacturers)
      ensures selectedRows == old(selectedRows) && filters == old(filters)
    {
      isDetailOpen := false;
      selectedManufacturerId := None;
    }

    method SelectManufacturer(id: string)
      modifies this
      ensures Dialogs() == (old(isAddModalOpen), old(isDetailOpen), Some(id))
      ensures manufacturers == old(manufacturers) && filteredManufacturers == old(filteredManufacturers)
      ensures selectedRows == old(selectedRows) && filters == old(filters)
    {
      selectedManufacturerId := Some(id);
    }

    /** `addManufacturer`, with the fresh id and the current time passed in. */
    method AddManufacturer(data: Manufacturer, id: string, now: string)
      modifies this
      ensures manufacturers == old(manufacturers) + [NewManufacturer(data, id, now)]
      ensures filters == old(filters) && selectedRows == old(selectedRows) && Dialogs() == old(Dialogs())
      ensures Synced()
    {
      manufacturers := manufacturers + [NewManufacturer(data, id, now)];
      filteredManufacturers := ApplyFilters(manufacturers, filters);
    }

    method UpdateManufacturer(id: string, u: ManufacturerPatch, now: string)
      modifies this
      ensures manufacturers == UpdateManufacturers(old(manufacturers), id, u, now)
      ensures filters == old(filters) && selectedRows == old(selectedRows) && Dialogs() == old(Dialogs())
      ensures Synced()
    {
      manufacturers := UpdateManufacturers(manufacturers, id, u, now);
      filteredManufacturers := ApplyFilters(manufacturers, filters);
    }

    method ArchiveManufacturer(id: string, now: string)
      modifies this
      ensures manufacturers == SetArchivedListed(old(manufacturers), [id], true, now)
      ensures filters == old(filters) && selectedRows == old(selectedRows) && Dialogs() == old(Dialogs())
      ensures Synced()
    {
      manufacturers := SetArchivedListed(manufacturers, [id], true, now);
      filteredManufacturers := ApplyFilters(manufacturers, filters);
    }

    method RestoreManufacturer(id: string, now: string)
      modifies this
      ensures manufacturers == SetArchivedListed(old(manufacturers), [id], false, now)
      ensures filters == old(filters) && selectedRows == old(selectedRows) && Dialogs() == old(Dialogs())
      ensures Synced()
    {
      manufacturers := SetArchivedListed(manufacturers, [id], false, now);
      filteredManufacturers := ApplyFilters(manufacturers, filters);
    }

    method ToggleRowSelection(id: string)
      modifies this
      ensures selectedRows == Toggle(old(selectedRows), id)
      ensures manufacturers == old(manufacturers) && filteredManufacturers == old(filteredManufacturers)
      ensures filters == old(filters) && Dialogs() == old(Dialogs())
    {
      selectedRows := Toggle(selectedRows, id);
    }

    /** `selectAllRows`: the ids of the visible manufacturers, in order. */
    method SelectAllRows()
      modifies this
      ensures selectedRows == Ids(old(filteredManufacturers))
      ensures manufacturers == old(manufacturers) && filteredManufacturers == old(filteredManufacturers)
      ensures filters == old(filters) && Dialogs() == old(Dialogs())
    {
      selectedRows := Ids(filteredManufacturers);
    }

    method ClearSelectedRows()
      modifies this
      ensures selectedRows == []
      ensures manufacturers == old(manufacturers) && filteredManufacturers == old(filteredManufacturers)
      ensures filters == old(filters) && Dialogs() == old(Dialogs())
    {
      selectedRows := [];
    }

    method BulkArchive(now: string)
      modifies this
      ensures manufacturers == SetArchivedListed(old(manufacturers), old(selectedRows), true, now)
      ensures selectedRows == [] && filters == old(filters) && Dialogs() == old(Dialogs())
      ensures Synced()
    {
      manufacturers := SetArchivedListed(manufacturers, selectedRows, true, now);
      filteredManufacturers := ApplyFilters(manufacturers, filters);
      selectedRows := [];
    }

    method BulkRestore(now: string)
      modifies this
      ensures manufacturers == SetArchivedListed(old(manufacturers), old(selectedRows), false, now)
      ensures selectedRows == [] && filters == old(filters) && Dialogs() == old(Dialogs())
      ensures Synced()
    {
      manufacturers := SetArchivedListed(manufacturers, selectedRows, false, now);
      filteredManufacturers := ApplyFilters(manufacturers, filters);
      selectedRows := [];
    }

    method BulkAddCertification(certification: string, now: string)
      modifies this
      ensures manufacturers == AddCertificationListed(old(manufacturers), old(selectedRows), certification, now)
      ensures selectedRows == [] && filters == old(filters) && Dialogs() == old(Dialogs())
      ensures Synced()
    {
      manufacturers := AddCertificationListed(manufacturers, selectedRows, certification, now);
      filteredManufacturers := ApplyFilters(manufacturers, filters);
      selectedRows := [];
    }

    /** `addNote`, with the fresh note id and the current time passed in. */
    method AddNote(manufacturerId: string, text: string, author: string, noteId: string, now: string)
      modifies this
      ensures manufacturers == AddNoteTo(old(manufacturers), manufacturerId, Note(noteId, text, author, now), now)
      ensures filters == old(filters) && selectedRows == old(selectedRows) && Dialogs() == old(Dialogs())
      ensures Synced()
    {
      manufacturers := AddNoteTo(manufacturers, manufacturerId, Note(noteId, text, author, now), now);
      filteredManufacturers := ApplyFilters(manufacturers, filters);
    }

    /** `addFile`, with the fresh file id and the current time passed in. */
    method AddFile(manufacturerId: string, file: File, fileId: string, now: string)
      modifies this
      ensures manufacturers == AddFileTo(old(manufacturers), manufacturerId, file.(id := fileId), now)
      ensures filters == old(filters) && selectedRows == old(selectedRows) && Dialogs() == old(Dialogs())
      ensures Synced()
    {
      manufacturers := AddFileTo(manufacturers, manufacturerId, file.(id := fileId), now);
      filteredManufacturers := ApplyFilters(manufacturers, filters);
    }

    method RemoveFile(manufacturerId: string, fileId: string, now: string)
      modifies this
      ensures manufacturers == RemoveFileFrom(old(manufacturers), manufacturerId, fileId, now)
      ensures filters == old(filters) && selectedRows == old(selectedRows) && Dialogs() == old(Dialogs())
      ensures Synced()
    {
      manufacturers := RemoveFileFrom(manufacturers, manufacturerId, fileId, now);
      filteredManufacturers := ApplyFilters(manufacturers, filters);
    }
  }
}
