/**
 * The Explore page: the sidebar filters over all tools, most upvoted first, the checkbox
 * toggles, the reset button and the `?category=` URL parameter.
 */
module ExplorePage {
  import opened Wrappers
  import opened Strings
  import opened Seqs
  import opened Sorting
  import opened Types
  import opened ToolService

  datatype Filters = Filters(searchTerm: String, categories: seq<String>, pricing: seq<PricingTier>, sources: seq<SourceType>)

  const EmptyFilters := Filters("", [], [], [])

  /** Some category of the tool is selected. */
  predicate SharesCategory(t: Tool, selected: seq<String>) {
    exists i :: 0 <= i < |t.categories| && t.categories[i] in selected
  }

  /** The four sidebar filters; an empty search term or an empty list imposes nothing. */
  predicate PassesFilters(f: Filters, t: Tool) {
    (f.searchTerm != [] ==> MatchesSearch(f.searchTerm, t))
    && (|f.categories| > 0 ==> SharesCategory(t, f.categories))
    && (|f.pricing| > 0 ==> t.pricing in f.pricing)
    && (|f.sources| > 0 ==> t.source in f.sources)
  }

  function PassesFn(f: Filters): Tool -> bool {
    (t: Tool) => PassesFilters(f, t)
  }

  /** What the page should display: the passing tools, most upvoted first, ties in their loaded order. */
  function Displayed(all: seq<Tool>, f: Filters): seq<Tool> {
    SortBy(Filter(all, PassesFn(f)), NegUpvotes)
  }

  /** A tool is displayed exactly when it is loaded and passes all four filters, and as often as it is loaded. */
  lemma DisplayedMembership(all: seq<Tool>, f: Filters, t: Tool)
    ensures t in Displayed(all, f) <==> t in all && PassesFilters(f, t)
    ensures multiset(Displayed(all, f)) == multiset(Filter(all, PassesFn(f)))
  {
    var kept := Filter(all, PassesFn(f));
    assert t in Displayed(all, f) <==> t in multiset(kept);
    if t in all && PassesFilters(f, t) {
      var i :| 0 <= i < |all| && all[i] == t;
      assert PassesFn(f)(all[i]);
    }
  }

  /** Most upvoted first, and tools with equal upvotes keep their loaded order. */
  lemma DisplayedOrder(all: seq<Tool>, f: Filters, v: int)
    ensures SortedBy(Displayed(all, f), NegUpvotes)
    ensures WithKey(Displayed(all, f), NegUpvotes, v) == WithKey(Filter(all, PassesFn(f)), NegUpvotes, v)
  {
    SortBySorted(Filter(all, PassesFn(f)), NegUpvotes);
    SortStable(Filter(all, PassesFn(f)), NegUpvotes, v);
  }

  /** With no filter set, every loaded tool is displayed. */
  lemma EmptyFiltersShowAll(all: seq<Tool>)
    ensures Displayed(all, EmptyFilters) == SortBy(all, NegUpvotes)
  {
    FilterAllPass(all, PassesFn(EmptyFilters));
  }

  /** Filtering what is displayed with the same filters changes nothing. */
  lemma DisplayedIdempotent(all: seq<Tool>, f: Filters)
    ensures Displayed(Displayed(all, f), f) == Displayed(all, f)
  {
    var d := Displayed(all, f);
    forall i | 0 <= i < |d|
      ensures PassesFn(f)(d[i])
    {
      DisplayedMembership(all, f, d[i]);
    }
    FilterAllPass(d, PassesFn(f));
    SortBySorted(Filter(all, PassesFn(f)), NegUpvotes);
    SortOfSorted(d, NegUpvotes);
  }

  // The filter chain of `applyFilters`, one test per sidebar filter, and the conjunction of the
  // filters applied so far after each step.

  function SearchTest(q: String): Tool -> bool { (t: Tool) => MatchesSearch(q, t) }
  function CategoryTest(cs: seq<String>): Tool -> bool { (t: Tool) => SharesCategory(t, cs) }
  function PricingTest(ps: seq<PricingTier>): Tool -> bool { (t: Tool) => t.pricing in ps }
  function SourceTest(ss: seq<SourceType>): Tool -> bool { (t: Tool) => t.source in ss }

  predicate AfterSearch(f: Filters, t: Tool) {
    f.searchTerm != [] ==> MatchesSearch(f.searchTerm, t)
  }

  predicate AfterCategories(f: Filters, t: Tool) {
    AfterSearch(f, t) && (|f.categories| > 0 ==> SharesCategory(t, f.categories))
  }

  predicate AfterPricing(f: Filters, t: Tool) {
    AfterCategories(f, t) && (|f.pricing| > 0 ==> t.pricing in f.pricing)
  }

  function AfterSearchFn(f: Filters): Tool -> bool { (t: Tool) => AfterSearch(f, t) }
  function AfterCategoriesFn(f: Filters): Tool -> bool { (t: Tool) => AfterCategories(f, t) }
  function AfterPricingFn(f: Filters): Tool -> bool { (t: Tool) => AfterPricing(f, t) }

  /** The four steps of the chain; an unset filter passes the list on unchanged. */
  function SearchPass(s: seq<Tool>, f: Filters): seq<Tool> {
    if f.searchTerm != [] then Filter(s, SearchTest(f.searchTerm)) else s
  }

  function CategoryPass(s: seq<Tool>, f: Filters): seq<Tool> {
    if |f.categories| > 0 then Filter(s, CategoryTest(f.categories)) else s
  }

  function PricingPass(s: seq<Tool>, f: Filters): seq<Tool> {
    if |f.pricing| > 0 then Filter(s, PricingTest(f.pricing)) else s
  }

  function SourcePass(s: seq<Tool>, f: Filters): seq<Tool> {
    if |f.sources| > 0 then Filter(s, SourceTest(f.sources)) else s
  }

  /** The chain keeps exactly the tools that pass all four filters, in their order. */
  lemma FilterChain(s: seq<Tool>, f: Filters)
    ensures SourcePass(PricingPass(CategoryPass(SearchPass(s, f), f), f), f) == Filter(s, PassesFn(f))
  {
    SearchStep(s, f);
    CategoryStep(s, f);
    PricingStep(s, f);
    SourceStep(s, f);
  }

  lemma SearchStep(s: seq<Tool>, f: Filters)
    ensures SearchPass(s, f) == Filter(s, AfterSearchFn(f))
  {
    if f.searchTerm != [] {
      FilterAgree(s, SearchTest(f.searchTerm), AfterSearchFn(f));
    } else {
      FilterAllPass(s, AfterSearchFn(f));
    }
  }

  lemma CategoryStep(s: seq<Tool>, f: Filters)
    ensures CategoryPass(Filter(s, AfterSearchFn(f)), f) == Filter(s, AfterCategoriesFn(f))
  {
    if |f.categories| > 0 {
      FilterFusion(s, AfterSearchFn(f), CategoryTest(f.categories), AfterCategoriesFn(f));
    } else {
      FilterAgree(s, AfterSearchFn(f), AfterCategoriesFn(f));
    }
  }

  lemma PricingStep(s: seq<Tool>, f: Filters)
    ensures PricingPass(Filter(s, AfterCategoriesFn(f)), f) == Filter(s, AfterPricingFn(f))
  {
    if |f.pricing| > 0 {
      FilterFusion(s, AfterCategoriesFn(f), PricingTest(f.pricing), AfterPricingFn(f));
    } else {
      FilterAgree(s, AfterCategoriesFn(f), AfterPricingFn(f));
    }
  }

  lemma SourceStep(s: seq<Tool>, f: Filters)
    ensures SourcePass(Filter(s, AfterPricingFn(f)), f) == Filter(s, PassesFn(f))
  {
    if |f.sources| > 0 {
      FilterFusion(s, AfterPricingFn(f), SourceTest(f.sources), PassesFn(f));
    } else {
      FilterAgree(s, AfterPricingFn(f), PassesFn(f));
    }
  }

  /** The comparator sort of `applyFilters` is the stable sort by descending upvotes. */
  lemma UpvoteSortIsSortBy(s: seq<Tool>)
    ensures SortWith(s, MostUpvotedFirst) == SortBy(s, NegUpvotes)
  {
    assert forall a, b :: MostUpvotedFirst(a, b) == NegUpvotes(a) - NegUpvotes(b);
    SortWithIsSortBy(s, MostUpvotedFirst, NegUpvotes);
  }

  datatype FilterList = Categories | Pricing | Sources

  /** `handleCheckboxChange(filterType, value)`: toggles `value` in the chosen list. */
  function CheckboxChange(f: Filters, list: FilterList, value: String): (r: Filters)
    ensures r.searchTerm == f.searchTerm
    ensures list == Categories ==> r.categories == Toggle(f.categories, value) && r.pricing == f.pricing && r.sources == f.sources
    ensures list == Pricing ==> r.pricing == Toggle(f.pricing, value) && r.categories == f.categories && r.sources == f.sources
    ensures list == Sources ==> r.sources == Toggle(f.sources, value) && r.categories == f.categories && r.pricing == f.pricing
  {
    match list
    case Categories => f.(categories := Toggle(f.categories, value))
    case Pricing => f.(pricing := Toggle(f.pricing, value))
    case Sources => f.(sources := Toggle(f.sources, value))
  }

  /** Ticking an unticked box and unticking it again restores the filters. */
  lemma CheckboxTwiceRestores(f: Filters, list: FilterList, value: String)
    requires list == Categories ==> value !in f.categories
    requires list == Pricing ==> value !in f.pricing
    requires list == Sources ==> value !in f.sources
    ensures CheckboxChange(CheckboxChange(f, list, value), list, value) == f
  {
    match list
    case Categories => ToggleTwice(f.categories, value);
    case Pricing => ToggleTwice(f.pricing, value);
    case Sources => ToggleTwice(f.sources, value);
  }

  /** The `?category=` effect: a non-empty parameter naming a loaded category becomes the only selected one. */
  function WithCategoryParam(f: Filters, param: Option<String>, available: seq<ToolCategory>): (r: Filters)
    ensures r.searchTerm == f.searchTerm && r.pricing == f.pricing && r.sources == f.sources
    ensures r.categories == f.categories || (Truthy(param) && r.categories == [param.value])
    ensures Truthy(param) && (exists i :: 0 <= i < |available| && available[i].id == param.value) ==>
      r.categories == [param.value]
    ensures (forall i :: 0 <= i < |available| ==> available[i].id != param.GetOr([])) ==> r == f
  {
    if Truthy(param) && |available| > 0 && IndexOfKey(available, CategoryIdOf, param.value) >= 0 then
      f.(categories := [param.value])
    else f
  }

  /** The page's state: loaded tools and categories, the filters and the displayed list. */
  class ExploreState {
    var allTools: seq<Tool>
    var displayedTools: seq<Tool>
    var availableCategories: seq<ToolCategory>
    var filters: Filters

    /** After the initial load every tool is displayed and no filter is set. */
    constructor(tools: seq<Tool>, categories: seq<ToolCategory>)
      ensures allTools == tools && displayedTools == tools && availableCategories == categories
      ensures filters == EmptyFilters
    {
      allTools := tools;
      displayedTools := tools;
      availableCategories := categories;
      filters := EmptyFilters;
    }

    /** `applyFilters`: the filter chain on a copy of all tools, then a sort by upvotes, most first. */
    method ApplyFilters()
      modifies this
      ensures displayedTools == Displayed(allTools, filters)
      ensures allTools == old(allTools) && filters == old(filters) && availableCategories == old(availableCategories)
    {
      var f := filters;
      var filtered := allTools;
      filtered := SearchPass(filtered, f);
      filtered := CategoryPass(filtered, f);
      filtered := PricingPass(filtered, f);
      filtered := SourcePass(filtered, f);
      FilterChain(allTools, f);
      UpvoteSortIsSortBy(filtered);
      filtered := SortWith(filtered, MostUpvotedFirst);
      displayedTools := filtered;
    }

    /** `handleCheckboxChange`: only the filters change. */
    method HandleCheckboxChange(list: FilterList, value: String)
      modifies this
      ensures filters == CheckboxChange(old(filters), list, value)
      ensures allTools == old(allTools) && displayedTools == old(displayedTools)
      ensures availableCategories == old(availableCategories)
    {
      filters := CheckboxChange(filters, list, value);
    }

    /** `resetFilters`: no filter set and every loaded tool displayed, in loaded order. */
    method ResetFilters()
      modifies this
      ensures filters == EmptyFilters && displayedTools == allTools
      ensures allTools == old(allTools) && availableCategories == old(availableCategories)
    {
      filters := EmptyFilters;
      displayedTools := allTools;
    }

    /** The URL-parameter effect. */
    method ApplyCategoryParam(param: Option<String>)
      modifies this
      ensures filters == WithCategoryParam(old(filters), param, availableCategories)
      ensures allTools == old(allTools) && displayedTools == old(displayedTools)
      ensures availableCategories == old(availableCategories)
    {
      filters := WithCategoryParam(filters, param, availableCategories);
    }
  }
}
