/**
 * The rules of the general product form: SKU normalisation as the user types,
 * SKU validation (prefix, then format, then uniqueness, the first failure
 * giving the message shown), and entry of a duplicate-free tag list by
 * typing, by picking a suggestion and by removal.
 */
module ProductForm {
  import opened Text
  import opened Lists
  import I18n
  import Products

  const SkuPrefix: string := "IDR-"

  // ---------------------------------------------------------------- SKU

  /** `handleSkuChange`: the typed value upper-cased, with "IDR-" put in front of a non-empty value that lacks it. */
  function NormalizeSku(input: string): (r: string)
    ensures r == [] <==> input == []
    ensures r == [] || StartsWith(r, SkuPrefix)
    ensures ToUpper(r) == r
  {
    var value := ToUpper(input);
    ToUpperIdempotent(input);
    if value != [] && !StartsWith(value, SkuPrefix) then
      ToUpperAppend(SkuPrefix, value);
      SkuPrefix + value
    else value
  }

  /** Normalising an already normalised SKU changes nothing. */
  lemma NormalizeSkuIdempotent(input: string)
    ensures NormalizeSku(NormalizeSku(input)) == NormalizeSku(input)
  {
  }

  /** A character the pattern `[A-Z0-9-]` accepts. */
  predicate SkuChar(c: char) {
    'A' <= c <= 'Z' || '0' <= c <= '9' || c == '-'
  }

  /** `/^IDR-[A-Z0-9-]+$/.test(sku)`. */
  predicate MatchesSkuPattern(sku: string) {
    |sku| > |SkuPrefix| && StartsWith(sku, SkuPrefix) && forall i :: |SkuPrefix| <= i < |sku| ==> SkuChar(sku[i])
  }

  /** The outcome of `validateSku`: valid, or the first check that failed. */
  datatype SkuCheck = SkuOk | PrefixError | FormatError | UniqueError

  /** The checks in the order they run: prefix, then pattern, then uniqueness apart from the product being edited. */
  function CheckSku(sku: string, currentId: Option<string>, products: seq<Products.Product>): (r: SkuCheck)
    ensures r == SkuOk <==>
      StartsWith(sku, SkuPrefix) && MatchesSkuPattern(sku) && !Products.SkuTaken(products, sku, currentId)
    ensures r == PrefixError <==> !StartsWith(sku, SkuPrefix)
    ensures r == FormatError <==> StartsWith(sku, SkuPrefix) && !MatchesSkuPattern(sku)
    ensures r == UniqueError <==> MatchesSkuPattern(sku) && Products.SkuTaken(products, sku, currentId)
  {
    if !StartsWith(sku, SkuPrefix) then PrefixError
    else if !MatchesSkuPattern(sku) then FormatError
    else if Products.SkuTaken(products, sku, currentId) then UniqueError
    else SkuOk
  }

  /** The text put in `skuError`: empty when valid, otherwise the translation of the failed check's key. */
  function SkuErrorText(c: SkuCheck): (r: string)
    ensures r == "" <==> c == SkuOk
  {
    match c
    case SkuOk => ""
    case PrefixError => I18n.Translate(None, "products.form.sku.prefixError", [])
    case FormatError => I18n.Translate(None, "products.form.sku.formatError", [])
    case UniqueError => I18n.Translate(None, "products.form.sku.uniqueError", [])
  }

  /** `validateSku`: whether the SKU is valid, and the error text it leaves behind. */
  function ValidateSku(sku: string, currentId: Option<string>, products: seq<Products.Product>): (r: (bool, string))
    ensures r.0 <==> StartsWith(sku, SkuPrefix) && MatchesSkuPattern(sku) && !Products.SkuTaken(products, sku, currentId)
    ensures r.1 == SkuErrorText(CheckSku(sku, currentId, products))
  {
    var c := CheckSku(sku, currentId, products);
    (c == SkuOk, SkuErrorText(c))
  }

  /** `handleSkuChange`: the value stored in the form and the error shown for it. */
  function SkuChange(input: string, currentId: Option<string>, products: seq<Products.Product>): (r: (string, string))
    ensures r.0 == NormalizeSku(input)
    ensures r.1 == ValidateSku(NormalizeSku(input), currentId, products).1
    ensures r.1 == "" <==> MatchesSkuPattern(r.0) && !Products.SkuTaken(products, r.0, currentId)
    ensures input == [] ==> r.0 == "" && r.1 == SkuErrorText(PrefixError)
  {
    var value := NormalizeSku(input);
    (value, ValidateSku(value, currentId, products).1)
  }

  /** After normalisation the prefix check fails only on empty input, and "IDR-" alone fails the format check. */
  lemma NormalizedSkuPassesPrefix(input: string, currentId: Option<string>, products: seq<Products.Product>)
    ensures CheckSku(NormalizeSku(input), currentId, products) == PrefixError <==> input == []
    ensures CheckSku(SkuPrefix, currentId, products) == FormatError
  {
  }

  /** A SKU only the edited product itself has passes; the same SKU fails for a new product. */
  lemma OwnSkuValidates(products: seq<Products.Product>, i: nat)
    requires i < |products| && MatchesSkuPattern(products[i].sku)
    requires forall j :: 0 <= j < |products| && j != i ==> products[j].sku != products[i].sku
    ensures ValidateSku(products[i].sku, Some(products[i].id), products).0
    ensures CheckSku(products[i].sku, None, products) == UniqueError
  {
    Products.OwnSkuIsUnique(products, i);
  }

  // ---------------------------------------------------------------- tags

  /** The tag list being edited (`data.tags || []`) and the text in the tag input. */
  datatype TagEntry = TagEntry(tags: seq<string>, input: string)

  /** One leading "#" removed. */
  function StripHash(s: string): (r: string)
    ensures StartsWith(s, "#") ==> s == "#" + r
    ensures !StartsWith(s, "#") ==> r == s
  {
    if StartsWith(s, "#") then s[1..] else s
  }

  /** The tag a key press would add: the trimmed input without one leading "#". */
  function TypedTag(input: string): (r: string)
    ensures Trim(input) == r || Trim(input) == "#" + r
    ensures !StartsWith(Trim(input), "#") ==> r == Trim(input)
  {
    StripHash(Trim(input))
  }

  /**
   * `handleTagInputKeyDown`: Enter or space with non-blank input adds the
   * typed tag when it is non-empty and new, and then clears the input; a lone
   * "#" leaves everything as it was.
   */
  function TagKeyDown(key: string, e: TagEntry): (r: TagEntry)
    ensures (key != "Enter" && key != " ") || TypedTag(e.input) == "" ==> r == e
    ensures (key == "Enter" || key == " ") && TypedTag(e.input) != "" ==>
      r.input == "" && r.tags == AppendIfAbsent(e.tags, TypedTag(e.input))
  {
    if (key == "Enter" || key == " ") && Trim(e.input) != "" then
      var newTag := StripHash(Trim(e.input));
      if newTag != "" then TagEntry(AppendIfAbsent(e.tags, newTag), "")
      else e
    else e
  }

  /** `handleTagSelect`: a picked suggestion is added when new, and the input is cleared. */
  function SelectTag(tag: string, e: TagEntry): (r: TagEntry)
    ensures r.input == "" && tag in r.tags
    ensures r.tags == AppendIfAbsent(e.tags, tag)
  {
    TagEntry(AppendIfAbsent(e.tags, tag), "")
  }

  /** `removeTag`: every occurrence of the tag removed, the rest in order. */
  function RemoveTag(tag: string, tags: seq<string>): (r: seq<string>)
    ensures tag !in r && IsSubsequence(r, tags)
    ensures forall t :: t != tag ==> (t in r <==> t in tags)
    ensures forall t :: multiset(r)[t] == if t == tag then 0 else multiset(tags)[t]
  {
    RemoveAll(tags, tag)
  }

  /** None of the three editing actions ever introduces a duplicate tag, and no typed tag is empty. */
  lemma TagEditingKeepsNoDuplicates(key: string, tag: string, e: TagEntry)
    requires NoDuplicates(e.tags)
    ensures NoDuplicates(TagKeyDown(key, e).tags)
    ensures NoDuplicates(SelectTag(tag, e).tags)
    ensures NoDuplicates(RemoveTag(tag, e.tags))
    ensures "" !in e.tags ==> "" !in TagKeyDown(key, e).tags
  {
    AppendIfAbsentNoDuplicates(e.tags, TypedTag(e.input));
    AppendIfAbsentNoDuplicates(e.tags, tag);
    RemoveAllNoDuplicates(e.tags, tag);
  }

  /**
   * Typing white space, "#" and a new tag, then pressing Enter, appends the
   * tag without its "#" and clears the input (" #summer" adds "summer").
   */
  lemma TypedHashTag(ws: char, tag: string, tags: seq<string>)
    requires IsWhitespace(ws)
    requires tag != [] && !IsWhitespace(tag[|tag| - 1])
    requires tag !in tags
    ensures TagKeyDown("Enter", TagEntry(tags, [ws] + "#" + tag)) == TagEntry(tags + [tag], "")
  {
    var hashed := "#" + tag;
    var input := [ws] + "#" + tag;
    assert input == [ws] + hashed;
    assert hashed[0] == '#' && hashed[|hashed| - 1] == tag[|tag| - 1];
    assert hashed[1..] == tag && StartsWith(hashed, "#");
    TrimKeeps(hashed);
    TrimLeadingWhitespace(ws, hashed);
    assert TypedTag(input) == tag;
  }

  /** `filteredTags`: the available tags not yet chosen that equal the lower-cased input, or all of them for empty input. */
  function FilteredTags(available: seq<string>, input: string, chosen: seq<string>): (r: seq<string>)
    ensures IsSubsequence(r, available)
    ensures forall t :: t in r <==> t in available && t !in chosen && (input == "" || t == ToLower(input))
    ensures forall t :: multiset(r)[t] == if t !in chosen && (input == "" || t == ToLower(input)) then multiset(available)[t] else 0
  {
    Filter(available, (t: string) => (input == "" || t == ToLower(input)) && t !in chosen)
  }

  /** A duplicate-free tag catalogue yields duplicate-free suggestions. */
  lemma SuggestionsNoDuplicates(available: seq<string>, input: string, chosen: seq<string>)
    requires NoDuplicates(available)
    ensures NoDuplicates(FilteredTags(available, input, chosen))
  {
    FilterNoDuplicates(available, (t: string) => (input == "" || t == ToLower(input)) && t !in chosen);
  }
}
