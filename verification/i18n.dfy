/**
 * The `t` function returned by `useTranslation`: a key, optionally prefixed
 * by a namespace, is looked up in the English table; a missing (or empty)
 * entry yields the bare key; `{name}` placeholders are then filled in, one
 * `replace` per parameter, in the order the parameters are listed.
 */
module I18n {
  import opened Text

  /**
   * The English table, entry for entry (listed here in reverse order of the
   * table). The French table is empty and never consulted.
   */
  const English: map<string, string> :=
    map[
      "materials.form.attachments" := "Attachments",
      "materials.form.uploadImage" := "Upload Image",
      "materials.form.materialImage" := "Material Image",
      "materials.form.image" := "Image",
      "materials.selectRow" := "Select row",
      "materials.selectAll" := "Select all",
      "materials.actions.duplicate" := "Duplicate",
      "materials.actions.delete" := "Delete",
      "materials.actions.archive" := "Archive",
      "materials.actions.edit" := "Edit",
      "materials.filter.clear" := "Clear filters",
      "materials.filter.tags" := "Tags",
      "materials.filter.campaign" := "Campaign",
      "materials.filter.status" := "Status",
      "materials.bulkActions.confirmDelete" := "Are you sure you want to delete the selected materials?",
      "materials.bulkActions.delete" := "Delete",
      "materials.bulkActions.addTags" := "Add Tags",
      "materials.bulkActions.changeCampaign" := "Change Campaign",
      "materials.bulkActions.export" := "Export",
      "materials.bulkActions.duplicate" := "Duplicate",
      "materials.bulkActions.archive" := "Archive",
      "materials.bulkActions" := "Bulk Actions",
      "materials.selected" := "materials selected",
      "materials.emptyState" := "No materials found.",
      "materials.materials" := "materials",
      "materials.of" := "of",
      "materials.showing" := "Showing",
      "materials.notification.duplicated" := "Material duplicated successfully",
      "materials.notification.deleted" := "Material deleted successfully",
      "materials.notification.archived" := "Material archived successfully",
      "materials.notification.saved" := "Material saved successfully",
      "materials.form.duplicate" := "Duplicate Material",
      "materials.form.archive" := "Archive Material",
      "materials.form.delete" := "Delete Material",
      "materials.form.cancel" := "Cancel",
      "materials.form.save" := "Save Material",
      "materials.form.selectTags" := "Select tags",
      "materials.form.tags" := "Tags",
      "materials.form.selectCampaign" := "Select campaign",
      "materials.form.campaign" := "Campaign",
      "materials.form.selectStatus" := "Select status",
      "materials.form.status" := "Status",
      "materials.form.selectType" := "Select type",
      "materials.form.type" := "Type",
      "materials.form.title" := "Title",
      "materials.tags.promotional" := "Promotional",
      "materials.tags.exclusive" := "Exclusive",
      "materials.tags.limited" := "Limited Edition",
      "materials.tags.seasonal" := "Seasonal",
      "materials.campaign.fall" := "Fall Collection",
      "materials.campaign.spring" := "Spring Collection",
      "materials.campaign.winter" := "Winter Collection",
      "materials.campaign.summer" := "Summer Collection",
      "materials.campaign.all" := "All Campaigns",
      "materials.status.archived" := "Archived",
      "materials.status.draft" := "Draft",
      "materials.status.active" := "Active",
      "materials.status.all" := "All",
      "materials.type.digital" := "Digital",
      "materials.type.print" := "Print",
      "materials.type.visual" := "Visual",
      "materials.type.packaging" := "Packaging",
      "materials.table.noResults" := "No materials found",
      "materials.table.status" := "Status",
      "materials.table.tags" := "Tags",
      "materials.table.campaign" := "Campaign",
      "materials.table.type" := "Type",
      "materials.table.title" := "Title",
      "materials.search.noTags" := "No tags found",
      "materials.search.tags" := "Search tags...",
      "materials.search.placeholder" := "Search materials...",
      "materials.addMaterial" := "Add Material",
      "materials.title" := "Materials",
      "products.products" := "products",
      "products.of" := "of",
      "products.showing" := "Showing",
      "products.notification.duplicated" := "Product duplicated successfully",
      "products.notification.deleted" := "Product deleted successfully",
      "products.notification.archived" := "Product archived successfully",
      "products.notification.saved" := "Product saved successfully",
      "products.form.duplicate" := "Duplicate Product",
      "products.form.archive" := "Archive Product",
      "products.form.delete" := "Delete Product",
      "products.form.cancel" := "Cancel",
      "products.form.save" := "Save Product",
      "products.form.tags.createNew" := "Create new tag",
      "products.form.tags.inputHelp" := "Type #tag and press space, or select from suggestions",
      "products.form.tags.inputPlaceholder" := "Type #tag and press space to add",
      "products.form.tags.placeholder" := "Select tags",
      "products.form.tags" := "Tags",
      "products.form.retailPrice" := "Retail Price (\U{20AC})",
      "products.form.costPrice" := "Cost Price (\U{20AC})",
      "products.form.notes.empty" := "No notes yet. Add your first note above.",
      "products.form.notes.history" := "Notes History",
      "products.form.notes.add" := "Add Note",
      "products.form.notes.addNew" := "Add Note",
      "products.form.notes.placeholder" := "Add internal notes about this product",
      "products.form.notes" := "Internal Notes",
      "products.form.media.dropzone" := "Drag and drop images here, or click to select files",
      "products.form.restockThreshold" := "Restock Threshold",
      "products.form.warehouse.confirmDelete" := "Are you sure you want to delete {name} warehouse?",
      "products.form.warehouse.namePlaceholder" := "Enter warehouse name",
      "products.form.warehouse.name" := "Warehouse Name",
      "products.form.warehouse.addNewTitle" := "Add New Warehouse",
      "products.form.warehouse.addNew" := "Add New Warehouse",
      "products.form.warehouse.placeholder" := "Select warehouse",
      "products.form.warehouse" := "Warehouse",
      "products.form.quantity" := "Quantity",
      "products.form.productType.placeholder" := "Select product type",
      "products.form.productType" := "Product Type",
      "products.form.collection.namePlaceholder" := "Enter collection name",
      "products.form.collection.name" := "Collection Name",
      "products.form.collection.addNewTitle" := "Add New Collection",
      "products.form.collection.addNew" := "Add New Collection",
      "products.form.collection.placeholder" := "Select collection",
      "products.form.collection" := "Collection",
      "products.form.description.placeholder" := "Enter product description",
      "products.form.description" := "Description",
      "products.form.status" := "Status",
      "products.form.sku.uniqueError" := "This SKU is already in use",
      "products.form.sku.formatError" := "SKU must contain only uppercase letters, numbers, and hyphens",
      "products.form.sku.prefixError" := "SKU must start with IDR-",
      "products.form.sku.placeholder" := "Enter SKU",
      "products.form.sku" := "SKU",
      "products.form.name.placeholder" := "Enter product name",
      "products.form.name" := "Name",
      "products.modal.tabs.notes" := "Notes",
      "products.modal.tabs.media" := "Media",
      "products.modal.tabs.inventory" := "Inventory",
      "products.modal.tabs.general" := "General",
      "products.modal.title.edit" := "Edit Product",
      "products.modal.title.add" := "Add Product",
      "products.selected" := "products selected",
      "products.emptyState" := "No products found.",
      "products.table.actions" := "Actions",
      "products.table.status" := "Status",
      "products.table.margin" := "Margin %",
      "products.table.retailPrice" := "Retail Price (\U{20AC})",
      "products.table.costPrice" := "Cost Price (\U{20AC})",
      "products.table.collection" := "Collection",
      "products.table.sku" := "SKU",
      "products.table.name" := "Product Name",
      "products.bulkActions.confirmDelete" := "Are you sure you want to delete the selected products?",
      "products.bulkActions.delete" := "Delete",
      "products.bulkActions.addTags" := "Add Tags",
      "products.bulkActions.changeCollection" := "Change Collection",
      "products.bulkActions.export" := "Export",
      "products.bulkActions.duplicate" := "Duplicate",
      "products.bulkActions.archive" := "Archive",
      "products.bulkActions" := "Bulk Actions",
      "products.status.archived" := "Archived",
      "products.status.draft" := "Draft",
      "products.status.active" := "Active",
      "products.status.all" := "All",
      "products.filter.tags" := "Tags",
      "products.filter.collection" := "Collection",
      "products.filter.status" := "Status",
      "products.search.placeholder" := "Search by name or SKU...",
      "products.addProduct" := "Add Product",
      "products.title" := "Products",
      "common.send" := "Send",
      "common.clear" := "Clear",
      "common.delete" := "Delete",
      "common.save" := "Save",
      "common.add" := "Add",
      "common.cancel" := "Cancel"
    ]

  /** `namespace ? namespace + "." + key : key`; an empty namespace counts as absent. */
  function FullKey(namespace: Option<string>, key: string): (r: string)
    ensures |key| <= |r| && r[|r| - |key|..] == key
    ensures r == key <==> namespace.None? || namespace.value == ""
  {
    if namespace.Some? && namespace.value != "" then namespace.value + "." + key else key
  }

  /**
   * `translations['en'][fullKey] || key`: the entry when it is a non-empty
   * string, else the bare key; so the text is empty only for an empty key.
   */
  function Lookup(table: map<string, string>, fullKey: string, key: string): (r: string)
    ensures r == key || (fullKey in table && r == table[fullKey])
    ensures fullKey in table && table[fullKey] != "" ==> r == table[fullKey]
    ensures r == "" ==> key == ""
  {
    if fullKey in table && table[fullKey] != "" then table[fullKey] else key
  }

  /** The parameter placeholder `{name}`. */
  function Placeholder(name: string): string {
    "{" + name + "}"
  }

  /** The `reduce` over the parameter entries: each entry replaces the first occurrence of its placeholder. */
  function ApplyParams(text: string, params: seq<(string, string)>): string
    decreases |params|
  {
    if params == [] then text
    else ApplyParams(ReplaceFirst(text, Placeholder(params[0].0), params[0].1), params[1..])
  }

  /** `t(key, params)` for a given table and namespace. An absent params object behaves as an empty one. */
  function TranslateWith(table: map<string, string>, namespace: Option<string>, key: string,
                         params: seq<(string, string)>): (r: string)
    ensures params == [] ==> r == Lookup(table, FullKey(namespace, key), key)
  {
    ApplyParams(Lookup(table, FullKey(namespace, key), key), params)
  }

  /**
   * `t(key, params)` as the application uses it: always the English table.
   * Without parameters the text is the English entry or the bare key, and it
   * is never empty for a non-empty key.
   */
  function Translate(namespace: Option<string>, key: string, params: seq<(string, string)>): (r: string)
    ensures params == [] ==> r == key || (FullKey(namespace, key) in English && r == English[FullKey(namespace, key)])
    ensures params == [] && key != "" ==> r != ""
  {
    TranslateWith(English, namespace, key, params)
  }

  /** A key with a non-empty entry translates to that entry when no parameters are given. */
  lemma TranslateFound(table: map<string, string>, namespace: Option<string>, key: string)
    requires FullKey(namespace, key) in table && table[FullKey(namespace, key)] != ""
    ensures TranslateWith(table, namespace, key, []) == table[FullKey(namespace, key)]
  {
  }

  /** A missing entry yields the bare key, without the namespace. */
  lemma TranslateMissing(table: map<string, string>, namespace: Option<string>, key: string)
    requires FullKey(namespace, key) !in table
    ensures TranslateWith(table, namespace, key, []) == key
  {
  }

  /** The namespace is joined to the key with a dot. */
  lemma NamespacedKey(ns: string, key: string)
    requires ns != ""
    ensures FullKey(Some(ns), key) == ns + "." + key
    ensures FullKey(None, key) == key && FullKey(Some(""), key) == key
  {
  }

  /** Parameters whose placeholders do not occur leave the text unchanged. */
  lemma {:induction false} ApplyParamsNoPlaceholder(text: string, params: seq<(string, string)>)
    requires forall k :: 0 <= k < |params| ==> !Contains(text, Placeholder(params[k].0))
    ensures ApplyParams(text, params) == text
  {
    if params != [] {
      assert ReplaceFirst(text, Placeholder(params[0].0), params[0].1) == text;
      ApplyParamsNoPlaceholder(text, params[1..]);
    }
  }

  /** One parameter replaces the first occurrence of its placeholder only, literally when its value has no `$`. */
  lemma ApplyOneParam(text: string, name: string, value: string, i: nat)
    requires '$' !in value
    requires OccursAt(text, Placeholder(name), i)
    requires forall k :: k < i ==> !OccursAt(text, Placeholder(name), k)
    ensures ApplyParams(text, [(name, value)]) == text[..i] + value + text[i + |Placeholder(name)|..]
  {
    ReplaceFirstLiteral(text, Placeholder(name), value, i);
    assert [(name, value)][1..] == [];
  }

  /** `t("common.cancel")` is "Cancel", and a namespace is joined to its key. */
  lemma ExamplesFound()
    ensures Translate(None, "common.cancel", []) == "Cancel"
    ensures Translate(Some("products"), "title", []) == "Products"
  {
    assert FullKey(None, "common.cancel") == "common.cancel";
    assert English["common.cancel"] == "Cancel";
    assert FullKey(Some("products"), "title") == "products.title";
    assert English["products.title"] == "Products";
  }

  /** Only the first `{n}` is filled in: "{n} and {n}" with n = "A" gives "A and {n}". */
  lemma ExampleFirstOccurrenceOnly()
    ensures TranslateWith(map["k" := "{n} and {n}"], None, "k", [("n", "A")]) == "A and {n}"
  {
    var text := "{n} and {n}";
    assert Placeholder("n") == "{n}";
    assert text[..0] + "A" + text[3..] == "A and {n}";
    assert OccursAt(text, "{n}", 0);
    assert Lookup(map["k" := text], "k", "k") == text;
    ApplyOneParam(text, "n", "A", 0);
  }
}
