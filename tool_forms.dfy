/**
 * The tool details form of the admin add and edit pages: an `AIGeneratedToolDetails` record whose
 * lists are edited input by input, filled from an extraction or from a stored tool, and cleaned up
 * when it is saved.
 */
module ToolForms {
  import opened Wrappers
  import opened Strings
  import opened Seqs
  import opened Types
  import opened ListEditor
  import P = ProductionExtraction

  /** The three list fields the form edits input by input. */
  datatype ListField = Features | UseCases | Tags

  function GetList(d: AIGeneratedToolDetails, f: ListField): Option<seq<String>> {
    match f
    case Features => d.features
    case UseCases => d.useCases
    case Tags => d.tags
  }

  /** `{ ...d, [field]: list }`: that list replaced, every other field kept. */
  function SetList(d: AIGeneratedToolDetails, f: ListField, list: seq<String>): (r: AIGeneratedToolDetails)
    ensures GetList(r, f) == Some(list)
    ensures forall g: ListField :: g != f ==> GetList(r, g) == GetList(d, g)
    ensures r.(features := d.features, useCases := d.useCases, tags := d.tags) == d
  {
    match f
    case Features => d.(features := Some(list))
    case UseCases => d.(useCases := Some(list))
    case Tags => d.(tags := Some(list))
  }

  /** The list a handler starts from: `prev[field] ? [...prev[field]] : []`. */
  function ListOf(d: AIGeneratedToolDetails, f: ListField): seq<String> {
    GetList(d, f).GetOr([])
  }

  /** The inputs the form renders: `details[field] || ['']` (an empty array is truthy and renders nothing). */
  function RenderedList(d: AIGeneratedToolDetails, f: ListField): seq<String> {
    if GetList(d, f).Some? then GetList(d, f).value else [[]]
  }

  /**
   * `handleDynamicListItemChange` for a rendered input: the list now shows the rendered inputs with
   * that one changed. On a missing list the one rendered input becomes a one-entry list.
   */
  function ChangeListItem(d: AIGeneratedToolDetails, f: ListField, index: int, value: String): (r: AIGeneratedToolDetails)
    requires 0 <= index < |RenderedList(d, f)|
    ensures GetList(r, f).Some? && GetList(r, f).value == RenderedList(d, f)[index := value]
    ensures forall g: ListField :: g != f ==> GetList(r, g) == GetList(d, g)
    ensures r.(features := d.features, useCases := d.useCases, tags := d.tags) == d
  {
    var list := ListOf(d, f);
    SetList(d, f, if index < |list| then ChangeItem(list, index, value) else list + [value])
  }

  /** `addDynamicListItem`. */
  function AddListItem(d: AIGeneratedToolDetails, f: ListField): (r: AIGeneratedToolDetails)
    ensures GetList(r, f) == Some(AddItem(ListOf(d, f)))
    ensures r.(features := d.features, useCases := d.useCases, tags := d.tags) == d
  {
    SetList(d, f, AddItem(ListOf(d, f)))
  }

  /** `removeDynamicListItem`: the list never becomes empty. */
  function RemoveListItem(d: AIGeneratedToolDetails, f: ListField, index: int): (r: AIGeneratedToolDetails)
    ensures GetList(r, f) == Some(RemoveItem(ListOf(d, f), index)) && |GetList(r, f).value| >= 1
    ensures r.(features := d.features, useCases := d.useCases, tags := d.tags) == d
  {
    SetList(d, f, RemoveItem(ListOf(d, f), index))
  }

  /** A missing list renders one input while its handlers start from none: adding to it still shows one input. */
  lemma AddToMissingList(d: AIGeneratedToolDetails, f: ListField)
    requires GetList(d, f).None?
    ensures RenderedList(AddListItem(d, f), f) == RenderedList(d, f) == [[]]
  {
  }

  /** `handleCategoryCheckboxChange`: toggles the id in the categories, every other field kept. */
  function ToggleCategory(d: AIGeneratedToolDetails, categoryId: String): (r: AIGeneratedToolDetails)
    ensures r.categories.Some? && r.(categories := d.categories) == d
    ensures categoryId in d.categories.GetOr([]) ==> categoryId !in r.categories.value
    ensures categoryId !in d.categories.GetOr([]) ==> r.categories.value == d.categories.GetOr([]) + [categoryId]
  {
    d.(categories := Some(Toggle(d.categories.GetOr([]), categoryId)))
  }

  /** The first category's id, when there are categories: what a freshly filled form preselects. */
  function DefaultCategories(all: seq<ToolCategory>): (r: seq<String>)
    ensures |r| <= 1 && (r != [] <==> all != [])
    ensures r != [] ==> r[0] == all[0].id
  {
    if |all| > 0 then [all[0].id] else []
  }

  /**
   * The form filled from an extraction (`handleGenerateDetails` on success, identical on both pages):
   * both descriptions from the one description, empty lists padded to one empty input, a closed
   * source, and the first known category preselected.
   */
  function FromExtraction(x: P.ExtractedProductData, all: seq<ToolCategory>): (d: AIGeneratedToolDetails)
    ensures d.name == Some(x.name) && d.shortDescription == Some(x.description) && d.fullDescription == d.shortDescription
    ensures forall f: ListField :: GetList(d, f).Some? && |GetList(d, f).value| >= 1
    ensures x.features != [] ==> d.features == Some(x.features)
    ensures x.useCases != [] ==> d.useCases == Some(x.useCases)
    ensures x.tags != [] ==> d.tags == Some(x.tags)
    ensures x.features == [] ==> d.features == Some([[]])
    ensures x.useCases == [] ==> d.useCases == Some([[]])
    ensures x.tags == [] ==> d.tags == Some([[]])
    ensures d.pricing == x.pricing && d.source == Some("Closed Source") && d.categories == Some(DefaultCategories(all))
    ensures d.logoUrl == Some(StrOr(x.logoUrl, []))
  {
    AIGeneratedToolDetails(
      Some(x.name), Some(x.description), Some(x.description),
      Some(PadEmpty(x.features)), Some(DefaultCategories(all)), Some(PadEmpty(x.useCases)), Some(PadEmpty(x.tags)),
      Some(StrOr(x.logoUrl, [])), x.pricing, Some("Closed Source"))
  }

  /** The form of a stored tool on the edit page: every field copied, empty lists padded to one empty input. */
  function FromTool(t: Tool): (d: AIGeneratedToolDetails)
    ensures d.name == Some(t.name) && d.shortDescription == Some(t.shortDescription) && d.fullDescription == Some(t.fullDescription)
    ensures d.logoUrl == Some(t.logoUrl) && d.categories == Some(t.categories)
    ensures d.pricing == Some(t.pricing) && d.source == Some(t.source)
    ensures forall f: ListField :: GetList(d, f).Some? && |GetList(d, f).value| >= 1
    ensures t.features != [] ==> d.features == Some(t.features)
    ensures t.features == [] ==> d.features == Some([[]])
    ensures t.useCases != [] ==> d.useCases == Some(t.useCases)
    ensures t.useCases == [] ==> d.useCases == Some([[]])
    ensures t.tags != [] ==> d.tags == Some(t.tags)
    ensures t.tags == [] ==> d.tags == Some([[]])
  {
    AIGeneratedToolDetails(
      Some(t.name), Some(t.shortDescription), Some(t.fullDescription),
      Some(PadEmpty(t.features)), Some(t.categories), Some(PadEmpty(t.useCases)), Some(PadEmpty(t.tags)),
      Some(t.logoUrl), Some(t.pricing), Some(t.source))
  }

  /** `manualLogoUrl.trim() || details.logoUrl`: the typed logo wins unless it is blank. */
  function FinalLogo(manualLogoUrl: String, d: AIGeneratedToolDetails): (r: Option<String>)
    ensures !IsBlank(manualLogoUrl) ==> r == Some(Trim(manualLogoUrl))
    ensures IsBlank(manualLogoUrl) ==> r == d.logoUrl
  {
    if Trim(manualLogoUrl) != [] then Some(Trim(manualLogoUrl)) else d.logoUrl
  }

  /** What both pages check before saving: details, a URL, a name and at least one category. */
  predicate ReadyToSave(d: Option<AIGeneratedToolDetails>, websiteUrl: String) {
    d.Some? && !IsBlank(websiteUrl)
    && d.value.name.Some? && !IsBlank(d.value.name.value)
    && d.value.categories.Some? && |d.value.categories.value| > 0
  }

  /** The lists as saved: features and use cases trimmed without blanks, tags also lower-cased. */
  function SavedFeatures(d: AIGeneratedToolDetails): seq<String> { TrimmedItems(ListOf(d, Features)) }
  function SavedUseCases(d: AIGeneratedToolDetails): seq<String> { TrimmedItems(ListOf(d, UseCases)) }
  function SavedTags(d: AIGeneratedToolDetails): seq<String> { TagItems(ListOf(d, Tags)) }

  /** An entry the clean-up leaves alone: not empty and without surrounding white space. */
  predicate CleanItem(x: String) {
    x != [] && Trim(x) == x
  }

  /** A list that is already clean comes through the clean-up unchanged. */
  lemma CleanListUnchanged(list: seq<String>)
    requires forall i :: 0 <= i < |list| ==> CleanItem(list[i])
    ensures TrimmedItems(list) == list
  {
    var trimmed := TrimAll(list);
    assert trimmed == list by {
      forall i | 0 <= i < |list|
        ensures trimmed[i] == list[i]
      {
        assert CleanItem(list[i]);
      }
    }
    assert forall i :: 0 <= i < |list| ==> list[i] != [] by {
      forall i | 0 <= i < |list|
        ensures list[i] != []
      {
        assert CleanItem(list[i]);
      }
    }
    NonEmptyOfNonEmpty(list);
  }

  /** A tag the clean-up leaves alone: a clean entry that is already lower-case. */
  predicate CleanTag(x: String) {
    CleanItem(x) && ToLower(x) == x
  }

  /** A list of clean tags comes through the tag clean-up unchanged. */
  lemma CleanTagsUnchanged(list: seq<String>)
    requires forall i :: 0 <= i < |list| ==> CleanTag(list[i])
    ensures TagItems(list) == list
  {
    var lowered := seq(|list|, i requires 0 <= i < |list| => ToLower(Trim(list[i])));
    assert lowered == list by {
      forall i | 0 <= i < |list|
        ensures lowered[i] == list[i]
      {
        assert CleanTag(list[i]);
      }
    }
    assert forall i :: 0 <= i < |list| ==> list[i] != [] by {
      forall i | 0 <= i < |list|
        ensures list[i] != []
      {
        assert CleanTag(list[i]);
      }
    }
    NonEmptyOfNonEmpty(list);
  }

  /** A padding input left empty is dropped at save time. */
  lemma PaddingDropped()
    ensures TrimmedItems([[]]) == [] && TagItems([[]]) == []
  {
    var blank: String := [];
    assert Trim(blank) == [] && ToLower(blank) == [];
    assert TrimAll([blank]) == [blank];
    assert NonEmpty([blank]) == [] + NonEmpty([]);
    var lowered := seq(1, i requires 0 <= i < 1 => ToLower(Trim([blank][i])));
    assert lowered == [blank];
  }

  /** Every entry of the list is clean. */
  predicate CleanList(list: seq<String>) {
    forall i :: 0 <= i < |list| ==> CleanItem(list[i])
  }

  /** Every entry of the list is a clean tag. */
  predicate CleanTagList(list: seq<String>) {
    forall i :: 0 <= i < |list| ==> CleanTag(list[i])
  }

  /**
   * Loading a clean list into the form and saving it untouched gives the same list back: the
   * padding of an empty list does not survive the save.
   */
  lemma SavedCleanList(list: seq<String>)
    requires CleanList(list)
    ensures TrimmedItems(PadEmpty(list)) == list
  {
    if list == [] {
      PaddingDropped();
    } else {
      CleanListUnchanged(list);
    }
  }

  /** The same for tags, which the save also lower-cases. */
  lemma SavedCleanTags(list: seq<String>)
    requires CleanTagList(list)
    ensures TagItems(PadEmpty(list)) == list
  {
    if list == [] {
      PaddingDropped();
    } else {
      CleanTagsUnchanged(list);
    }
  }

  /** `charAt(0).toUpperCase() + slice(1)`. */
  function Capitalize(s: String): (r: String)
    ensures |r| == |s| && (s != [] ==> r[0] == UpperChar(s[0]) && r[1..] == s[1..])
  {
    if s == [] then [] else [UpperChar(s[0])] + s[1..]
  }

  /**
   * The name suggested after a failed extraction: the host name with its first `www.` removed, up to
   * the first `.`, capitalised; empty when the URL does not parse (`hostname` is `None`).
   */
  function SuggestedName(hostname: Option<String>): (r: String)
    ensures '.' !in r
    ensures hostname.None? ==> r == []
  {
    match hostname
    case None => []
    case Some(h) =>
      Capitalize(FirstLabel(ReplaceFirst(h, "www.", [])))
  }

  /** `s.split('.')[0]`: the characters before the first `.`. */
  function FirstLabel(s: String): (r: String)
    ensures '.' !in r
    decreases |s|
  {
    if s == [] || s[0] == '.' then [] else [s[0]] + FirstLabel(s[1..])
  }

  lemma {:induction false} FirstLabelIsFirstPart(s: String)
    ensures FirstLabel(s) == Split(s, '.')[0]
    decreases |s|
  {
    if s != [] && s[0] != '.' {
      FirstLabelIsFirstPart(s[1..]);
    }
  }

  /** `www.chatgpt.com`-shaped hosts suggest their second-level label, capitalised. */
  lemma SuggestedNameOfHost(site: String, rest: String)
    requires '.' !in site
    ensures SuggestedName(Some("www." + site + "." + rest)) == Capitalize(site)
  {
    var h := "www." + site + "." + rest;
    assert StartsWith(h, "www.") by { assert h[..4] == "www."; }
    assert h[4..] == site + "." + rest;
    assert ReplaceFirst(h, "www.", []) == site + "." + rest;
    SplitAtSeparator(site, rest, '.');
    FirstLabelIsFirstPart(site + "." + rest);
  }
}
