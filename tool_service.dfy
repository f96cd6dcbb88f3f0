/**
 * The tool catalogue service: the `getTools` query (filters, sort, limit), the home-page
 * shortcuts built on it, the lookup by id, and the in-memory `MOCK_TOOLS` store with its
 * upvote, comment, insert, update and delete operations.
 */
module ToolService {
  import opened Wrappers
  import opened Strings
  import opened Seqs
  import opened Sorting
  import opened Types

  const PricingOptions: seq<PricingTier> := ["Free", "Freemium", "Paid", "Contact Us"]
  const SourceOptions: seq<SourceType> := ["Open Source", "Closed Source"]

  const MockCategories: seq<ToolCategory> := [
    ToolCategory("image-generation", "Image Gen", "Create stunning visuals from text or other images."),
    ToolCategory("text-generation", "Text Gen", "Write, summarize, and translate text with AI."),
    ToolCategory("video-editing", "Video AI", "Automate and enhance your video creation process."),
    ToolCategory("productivity", "Productivity", "Boost your efficiency with AI-powered assistants."),
    ToolCategory("code-assistant", "Code Assistant", "Get help with writing, debugging, and understanding code."),
    ToolCategory("audio-ai", "Audio AI", "Generate and manipulate audio with AI."),
    ToolCategory("research", "Research", "AI tools for research and data analysis."),
    ToolCategory("analytics", "Analytics", "Gain insights from data using AI."),
    ToolCategory("coding", "Coding", "Tools specifically for aiding in software development."),
    ToolCategory("design", "Design", "AI tools for design tasks."),
    ToolCategory("marketing", "Marketing", "AI tools for marketing strategies."),
    ToolCategory("education", "Education", "AI tools for learning and teaching."),
    ToolCategory("business", "Business", "AI tools for business operations."),
    ToolCategory("automation", "Automation", "Tools for automating tasks."),
    ToolCategory("no-code", "No-Code", "Build applications without coding."),
    ToolCategory("video-creation", "Video Creation", "Create videos with AI assistance."),
    ToolCategory("chatbot", "Chatbot", "Develop and deploy chatbots."),
    ToolCategory("other", "Other", "Miscellaneous AI tools.")
  ]

  /** `PLACEHOLDER_IMAGE_URL(width, height, text)`, whose definition is not part of this model. */
  type Placeholder = (int, int, String) -> String

  // ---------------------------------------------------------------------------------------------
  // getTools: the filters

  datatype ToolFilters = ToolFilters(
    category: Option<String>,
    searchTerm: Option<String>,
    tags: Option<seq<String>>,
    pricing: Option<seq<PricingTier>>,
    source: Option<seq<SourceType>>)

  /** The category filter runs only for a non-empty category other than 'all'. */
  predicate CategoryActive(f: ToolFilters) {
    Truthy(f.category) && f.category.value != "all"
  }

  /** Case-insensitive substring search on the name, the short description or any tag. */
  predicate MatchesSearch(term: String, t: Tool) {
    var q := ToLower(term);
    Contains(ToLower(t.name), q) || Contains(ToLower(t.shortDescription), q)
    || exists i :: 0 <= i < |t.tags| && Contains(ToLower(t.tags[i]), q)
  }

  /** Some tag of `t` equals `tag` ignoring case. */
  predicate HasTagIgnoringCase(t: Tool, tag: String) {
    exists j :: 0 <= j < |t.tags| && ToLower(t.tags[j]) == ToLower(tag)
  }

  predicate HasAllTags(t: Tool, tags: seq<String>) {
    forall i :: 0 <= i < |tags| ==> HasTagIgnoringCase(t, tags[i])
  }

  predicate PassesCategory(f: ToolFilters, t: Tool) {
    CategoryActive(f) ==> f.category.value in t.categories
  }

  predicate PassesSearch(f: ToolFilters, t: Tool) {
    Truthy(f.searchTerm) ==> MatchesSearch(f.searchTerm.value, t)
  }

  predicate PassesTags(f: ToolFilters, t: Tool) {
    f.tags.Some? && |f.tags.value| > 0 ==> HasAllTags(t, f.tags.value)
  }

  predicate PassesPricing(f: ToolFilters, t: Tool) {
    f.pricing.Some? && |f.pricing.value| > 0 ==> t.pricing in f.pricing.value
  }

  predicate PassesSource(f: ToolFilters, t: Tool) {
    f.source.Some? && |f.source.value| > 0 ==> t.source in f.source.value
  }

  /** The conjunction of the five filters; with no filters object every tool matches. */
  predicate Matches(filters: Option<ToolFilters>, t: Tool) {
    filters.None? ||
    (var f := filters.value;
     PassesCategory(f, t) && PassesSearch(f, t) && PassesTags(f, t) && PassesPricing(f, t) && PassesSource(f, t))
  }

  function MatchFn(filters: Option<ToolFilters>): Tool -> bool {
    (t: Tool) => Matches(filters, t)
  }

  /** The stages of the filter chain of toolService.ts, each skipped when its filter is unset. */
  function CategoryStage(s: seq<Tool>, f: ToolFilters): seq<Tool> {
    if CategoryActive(f) then (var c := f.category.value; Filter(s, (t: Tool) => c in t.categories)) else s
  }

  function SearchStage(s: seq<Tool>, f: ToolFilters): seq<Tool> {
    if Truthy(f.searchTerm) then (var q := f.searchTerm.value; Filter(s, (t: Tool) => MatchesSearch(q, t))) else s
  }

  function TagsStage(s: seq<Tool>, f: ToolFilters): seq<Tool> {
    if f.tags.Some? && |f.tags.value| > 0 then (var g := f.tags.value; Filter(s, (t: Tool) => HasAllTags(t, g))) else s
  }

  function PricingStage(s: seq<Tool>, f: ToolFilters): seq<Tool> {
    if f.pricing.Some? && |f.pricing.value| > 0 then (var p := f.pricing.value; Filter(s, (t: Tool) => t.pricing in p)) else s
  }

  function SourceStage(s: seq<Tool>, f: ToolFilters): seq<Tool> {
    if f.source.Some? && |f.source.value| > 0 then (var o := f.source.value; Filter(s, (t: Tool) => t.source in o)) else s
  }

  /** The filter chain, one stage after the other. */
  function FilterStages(all: seq<Tool>, filters: Option<ToolFilters>): seq<Tool> {
    if filters.None? then all
    else
      var f := filters.value;
      SourceStage(PricingStage(TagsStage(SearchStage(CategoryStage(all, f), f), f), f), f)
  }

  /** Each stage keeps exactly the tools passing its own filter, a skipped stage being a filter everything passes. */
  lemma CategoryStageFilters(s: seq<Tool>, f: ToolFilters)
    ensures CategoryStage(s, f) == Filter(s, (t: Tool) => PassesCategory(f, t))
  {
    if CategoryActive(f) {
      var c := f.category.value;
      FilterAgree(s, (t: Tool) => c in t.categories, (t: Tool) => PassesCategory(f, t));
    } else {
      FilterAllPass(s, (t: Tool) => PassesCategory(f, t));
    }
  }

  lemma SearchStageFilters(s: seq<Tool>, f: ToolFilters)
    ensures SearchStage(s, f) == Filter(s, (t: Tool) => PassesSearch(f, t))
  {
    if Truthy(f.searchTerm) {
      var q := f.searchTerm.value;
      FilterAgree(s, (t: Tool) => MatchesSearch(q, t), (t: Tool) => PassesSearch(f, t));
    } else {
      FilterAllPass(s, (t: Tool) => PassesSearch(f, t));
    }
  }

  lemma TagsStageFilters(s: seq<Tool>, f: ToolFilters)
    ensures TagsStage(s, f) == Filter(s, (t: Tool) => PassesTags(f, t))
  {
    if f.tags.Some? && |f.tags.value| > 0 {
      var g := f.tags.value;
      FilterAgree(s, (t: Tool) => HasAllTags(t, g), (t: Tool) => PassesTags(f, t));
    } else {
      FilterAllPass(s, (t: Tool) => PassesTags(f, t));
    }
  }

  lemma PricingStageFilters(s: seq<Tool>, f: ToolFilters)
    ensures PricingStage(s, f) == Filter(s, (t: Tool) => PassesPricing(f, t))
  {
    if f.pricing.Some? && |f.pricing.value| > 0 {
      var p := f.pricing.value;
      FilterAgree(s, (t: Tool) => t.pricing in p, (t: Tool) => PassesPricing(f, t));
    } else {
      FilterAllPass(s, (t: Tool) => PassesPricing(f, t));
    }
  }

  lemma SourceStageFilters(s: seq<Tool>, f: ToolFilters)
    ensures SourceStage(s, f) == Filter(s, (t: Tool) => PassesSource(f, t))
  {
    if f.source.Some? && |f.source.value| > 0 {
      var o := f.source.value;
      FilterAgree(s, (t: Tool) => t.source in o, (t: Tool) => PassesSource(f, t));
    } else {
      FilterAllPass(s, (t: Tool) => PassesSource(f, t));
    }
  }

  /** The filter chain is one filter by the conjunction: it keeps exactly the matching tools, in their order. */
  lemma FilterStagesConjunctive(all: seq<Tool>, filters: Option<ToolFilters>)
    ensures FilterStages(all, filters) == Filter(all, MatchFn(filters))
  {
    if filters.None? {
      FilterAllPass(all, MatchFn(filters));
    } else {
      var f := filters.value;
      var m1: Tool -> bool := (t: Tool) => PassesCategory(f, t);
      var m2: Tool -> bool := (t: Tool) => m1(t) && PassesSearch(f, t);
      var m3: Tool -> bool := (t: Tool) => m2(t) && PassesTags(f, t);
      var m4: Tool -> bool := (t: Tool) => m3(t) && PassesPricing(f, t);
      var s1 := CategoryStage(all, f);
      var s2 := SearchStage(s1, f);
      var s3 := TagsStage(s2, f);
      var s4 := PricingStage(s3, f);
      assert s1 == Filter(all, m1) by { CategoryStageFilters(all, f); }
      assert s2 == Filter(all, m2) by {
        SearchStageFilters(s1, f);
        FilterFusion(all, m1, (t: Tool) => PassesSearch(f, t), m2);
      }
      assert s3 == Filter(all, m3) by {
        TagsStageFilters(s2, f);
        FilterFusion(all, m2, (t: Tool) => PassesTags(f, t), m3);
      }
      assert s4 == Filter(all, m4) by {
        PricingStageFilters(s3, f);
        FilterFusion(all, m3, (t: Tool) => PassesPricing(f, t), m4);
      }
      SourceStageFilters(s4, f);
      FilterFusion(all, m4, (t: Tool) => PassesSource(f, t), MatchFn(filters));
    }
  }

  // ---------------------------------------------------------------------------------------------
  // getTools: sort, reverse and limit

  datatype SortKey = ByUpvotes | ByCreatedAt | ByName
  datatype SortOrder = Asc | Desc

  /**
   * `comparison` before the order is applied; `localeCompare` is modelled by a collation key
   * `collate`, so that it is a total preorder whose sign is that of the key difference.
   */
  function Comparison(sortBy: SortKey, collate: String -> int, a: Tool, b: Tool): int {
    match sortBy
    case ByUpvotes => b.upvotes - a.upvotes
    case ByCreatedAt => b.createdAt - a.createdAt
    case ByName => collate(a.name) - collate(b.name)
  }

  /** The comparator handed to `sort`: `comparison`, negated for 'desc'. */
  function Comparator(sortBy: SortKey, order: SortOrder, collate: String -> int): (Tool, Tool) -> int {
    (a, b) => var c := Comparison(sortBy, collate, a, b); if order == Desc then c * -1 else c
  }

  /** The list is reversed after sorting for ('name', 'desc') and for ('upvotes' | 'createdAt', 'asc'). */
  predicate ReversedAfterSort(sortBy: SortKey, order: SortOrder) {
    (sortBy == ByName && order == Desc) || (sortBy != ByName && order == Asc)
  }

  function SortStage(s: seq<Tool>, sortBy: SortKey, order: SortOrder, collate: String -> int): seq<Tool> {
    var sorted := SortWith(s, Comparator(sortBy, order, collate));
    if ReversedAfterSort(sortBy, order) then Reverse(sorted) else sorted
  }

  /** `if (limit) slice(0, limit)`: an absent or zero limit keeps the whole list. */
  function LimitStage(s: seq<Tool>, limit: Option<int>): seq<Tool> {
    if limit.Some? && limit.value != 0 then SliceTo(s, limit.value) else s
  }

  /** `getTools(filters, sortBy, sortOrder, limit)` over the mock tools followed by the remote ones. */
  function GetTools(mock: seq<Tool>, remote: seq<Tool>, filters: Option<ToolFilters>, sortBy: SortKey,
                    order: SortOrder, limit: Option<int>, collate: String -> int): seq<Tool>
  {
    LimitStage(SortStage(FilterStages(mock + remote, filters), sortBy, order, collate), limit)
  }

  function Upvotes(t: Tool): int { t.upvotes }
  function NegUpvotes(t: Tool): int { -t.upvotes }
  function CreatedAt(t: Tool): int { t.createdAt }
  function NegCreatedAt(t: Tool): int { -t.createdAt }
  function NameKey(collate: String -> int): Tool -> int { (t: Tool) => collate(t.name) }
  function NegNameKey(collate: String -> int): Tool -> int { (t: Tool) => -collate(t.name) }

  /** The key each sort key names, ascending. */
  function AscendingKey(sortBy: SortKey, collate: String -> int): Tool -> int {
    match sortBy
    case ByUpvotes => Upvotes
    case ByCreatedAt => CreatedAt
    case ByName => NameKey(collate)
  }

  /** The key whose difference the comparator is. */
  function ComparatorKey(sortBy: SortKey, order: SortOrder, collate: String -> int): Tool -> int {
    match (sortBy, order)
    case (ByUpvotes, Desc) => Upvotes
    case (ByUpvotes, Asc) => NegUpvotes
    case (ByCreatedAt, Desc) => CreatedAt
    case (ByCreatedAt, Asc) => NegCreatedAt
    case (ByName, Asc) => NameKey(collate)
    case (ByName, Desc) => NegNameKey(collate)
  }

  lemma ComparatorIsKeyDifference(sortBy: SortKey, order: SortOrder, collate: String -> int)
    ensures forall a, b ::
      Comparator(sortBy, order, collate)(a, b)
      == ComparatorKey(sortBy, order, collate)(a) - ComparatorKey(sortBy, order, collate)(b)
  {
  }

  /** The comparator key is the ascending key exactly when no reversal follows, and its negation otherwise. */
  lemma ComparatorKeyVersusAscending(sortBy: SortKey, order: SortOrder, collate: String -> int)
    ensures !ReversedAfterSort(sortBy, order) ==>
      forall t :: ComparatorKey(sortBy, order, collate)(t) == AscendingKey(sortBy, collate)(t)
    ensures ReversedAfterSort(sortBy, order) ==>
      forall t :: ComparatorKey(sortBy, order, collate)(t) == -AscendingKey(sortBy, collate)(t)
  {
  }

  /** Whatever sortBy and sortOrder, the sort stage leaves the list non-decreasing in the sort key. */
  lemma SortStageAscending(s: seq<Tool>, sortBy: SortKey, order: SortOrder, collate: String -> int)
    ensures SortedBy(SortStage(s, sortBy, order, collate), AscendingKey(sortBy, collate))
    ensures multiset(SortStage(s, sortBy, order, collate)) == multiset(s)
  {
    var k := ComparatorKey(sortBy, order, collate);
    var asc := AscendingKey(sortBy, collate);
    ComparatorIsKeyDifference(sortBy, order, collate);
    ComparatorKeyVersusAscending(sortBy, order, collate);
    SortWithIsSortBy(s, Comparator(sortBy, order, collate), k);
    SortBySorted(s, k);
    var sorted := SortBy(s, k);
    if ReversedAfterSort(sortBy, order) {
      ReverseSorted(sorted, asc, k);
      ReverseMultiset(sorted);
    } else {
      SortedByAgree(sorted, k, asc);
    }
  }

  /**
   * Ties: tools with equal keys keep their filtered order when no reversal follows, and appear in
   * the opposite order when one does.
   */
  lemma SortStageTies(s: seq<Tool>, sortBy: SortKey, order: SortOrder, collate: String -> int, v: int)
    ensures var asc := AscendingKey(sortBy, collate);
      WithKey(SortStage(s, sortBy, order, collate), asc, v)
        == if ReversedAfterSort(sortBy, order) then Reverse(WithKey(s, asc, v)) else WithKey(s, asc, v)
  {
    var k := ComparatorKey(sortBy, order, collate);
    var asc := AscendingKey(sortBy, collate);
    ComparatorIsKeyDifference(sortBy, order, collate);
    ComparatorKeyVersusAscending(sortBy, order, collate);
    SortWithIsSortBy(s, Comparator(sortBy, order, collate), k);
    var sorted := SortBy(s, k);
    var kv := if ReversedAfterSort(sortBy, order) then -v else v;
    SortStable(s, k, kv);
    WithKeyAgree(sorted, k, kv, asc, v);
    WithKeyAgree(s, k, kv, asc, v);
    if ReversedAfterSort(sortBy, order) {
      WithKeyReverse(sorted, asc, v);
    }
  }

  /** getTools returns only combined-list tools that pass every filter, non-decreasing in the sort key. */
  lemma GetToolsSound(mock: seq<Tool>, remote: seq<Tool>, filters: Option<ToolFilters>, sortBy: SortKey,
                      order: SortOrder, limit: Option<int>, collate: String -> int)
    ensures var r := GetTools(mock, remote, filters, sortBy, order, limit, collate);
      SortedBy(r, AscendingKey(sortBy, collate))
      && forall i :: 0 <= i < |r| ==> r[i] in mock + remote && Matches(filters, r[i])
  {
    var filtered := FilterStages(mock + remote, filters);
    var sorted := SortStage(filtered, sortBy, order, collate);
    SortStageAscending(filtered, sortBy, order, collate);
    var r := LimitStage(sorted, limit);
    assert GetTools(mock, remote, filters, sortBy, order, limit, collate) == r;
    assert r == sorted[..|r|];
    forall i | 0 <= i < |r|
      ensures r[i] in mock + remote && Matches(filters, r[i])
    {
      assert r[i] in multiset(sorted);
      StagesKeepMatching(mock + remote, filters, r[i]);
    }
  }

  /** What the filter chain keeps comes from its input and matches the filters. */
  lemma StagesKeepMatching(all: seq<Tool>, filters: Option<ToolFilters>, x: Tool)
    requires x in FilterStages(all, filters)
    ensures x in all && Matches(filters, x)
  {
    FilterStagesConjunctive(all, filters);
    var r := Filter(all, MatchFn(filters));
    var i :| 0 <= i < |r| && r[i] == x;
    assert MatchFn(filters)(r[i]);
  }

  /** Without a limit (or with 0), every matching tool is returned, each as often as it occurs. */
  lemma GetToolsComplete(mock: seq<Tool>, remote: seq<Tool>, filters: Option<ToolFilters>, sortBy: SortKey,
                         order: SortOrder, limit: Option<int>, collate: String -> int)
    requires limit.None? || limit.value == 0
    ensures multiset(GetTools(mock, remote, filters, sortBy, order, limit, collate))
      == multiset(Filter(mock + remote, MatchFn(filters)))
  {
    FilterStagesConjunctive(mock + remote, filters);
    SortStageAscending(FilterStages(mock + remote, filters), sortBy, order, collate);
  }

  /** A positive limit keeps the first min(limit, n) tools, 0 keeps them all, a negative one drops that many from the end. */
  lemma GetToolsLimit(mock: seq<Tool>, remote: seq<Tool>, filters: Option<ToolFilters>, sortBy: SortKey,
                      order: SortOrder, limit: int, collate: String -> int)
    ensures var whole := GetTools(mock, remote, filters, sortBy, order, None, collate);
      var r := GetTools(mock, remote, filters, sortBy, order, Some(limit), collate);
      r == whole[..|r|]
      && (limit == 0 ==> r == whole)
      && (limit > 0 ==> |r| == if limit < |whole| then limit else |whole|)
      && (limit < 0 ==> |r| == if |whole| + limit > 0 then |whole| + limit else 0)
  {
    var sorted := SortStage(FilterStages(mock + remote, filters), sortBy, order, collate);
    assert GetTools(mock, remote, filters, sortBy, order, None, collate) == sorted;
    assert GetTools(mock, remote, filters, sortBy, order, Some(limit), collate) == LimitStage(sorted, Some(limit));
  }

  /** 'desc' yields ascending order as well: for ('upvotes', 'desc') the fewest upvotes come first. */
  lemma DescendingRequestIsAscending(mock: seq<Tool>, remote: seq<Tool>, filters: Option<ToolFilters>,
                                     i: nat, j: nat, collate: String -> int)
    requires var r := GetTools(mock, remote, filters, ByUpvotes, Desc, None, collate); i < j < |r|
    ensures var r := GetTools(mock, remote, filters, ByUpvotes, Desc, None, collate); r[i].upvotes <= r[j].upvotes
  {
    GetToolsSound(mock, remote, filters, ByUpvotes, Desc, None, collate);
  }

  // ---------------------------------------------------------------------------------------------
  // Lookup and the home-page shortcuts

  /** `getToolById`: the first mock tool with that id, else whatever the remote lookup returns. */
  function GetToolById(mock: seq<Tool>, id: String, remote: String -> Option<Tool>): (r: Option<Tool>)
    ensures (exists i :: 0 <= i < |mock| && mock[i].id == id) ==> r.Some? && r.value.id == id && r.value in mock
    ensures (forall i :: 0 <= i < |mock| ==> mock[i].id != id) ==> r == remote(id)
  {
    var i := IndexOfKey(mock, ToolId, id);
    if i >= 0 then Some(mock[i]) else remote(id)
  }

  const TrendingIds: seq<String> := ["1", "2", "3", "4"]

  /** The trending ids that resolve, in id order: exactly the tools the lookups find, at most one per id. */
  function FoundTools(ids: seq<String>, mock: seq<Tool>, remote: String -> Option<Tool>): (r: seq<Tool>)
    ensures |r| <= |ids|
    ensures forall x :: x in r <==> exists j :: 0 <= j < |ids| && GetToolById(mock, ids[j], remote) == Some(x)
    decreases |ids|
  {
    if ids == [] then []
    else
      var t := GetToolById(mock, ids[0], remote);
      var rest := FoundTools(ids[1..], mock, remote);
      assert forall x :: (exists j :: 0 <= j < |ids| && GetToolById(mock, ids[j], remote) == Some(x)) <==>
        t == Some(x) || exists j :: 0 <= j < |ids[1..]| && GetToolById(mock, ids[1..][j], remote) == Some(x) by {
        forall x | exists j :: 0 <= j < |ids| && GetToolById(mock, ids[j], remote) == Some(x)
          ensures t == Some(x) || exists j :: 0 <= j < |ids[1..]| && GetToolById(mock, ids[1..][j], remote) == Some(x)
        {
          var j :| 0 <= j < |ids| && GetToolById(mock, ids[j], remote) == Some(x);
          if j > 0 {
            assert ids[1..][j - 1] == ids[j];
          }
        }
        forall x | exists j :: 0 <= j < |ids[1..]| && GetToolById(mock, ids[1..][j], remote) == Some(x)
          ensures exists j :: 0 <= j < |ids| && GetToolById(mock, ids[j], remote) == Some(x)
        {
          var j :| 0 <= j < |ids[1..]| && GetToolById(mock, ids[1..][j], remote) == Some(x);
          assert ids[j + 1] == ids[1..][j];
        }
      }
      (if t.Some? then [t.value] else []) + rest
  }

  /**
   * `getTrendingTools(limit)`: the first `limit` resolved trending tools, or, when fewer resolve,
   * `getTools(undefined, 'upvotes', 'desc', limit)`.
   */
  function TrendingTools(mock: seq<Tool>, remote: seq<Tool>, remoteById: String -> Option<Tool>,
                         limit: int, collate: String -> int): seq<Tool>
  {
    var valid := FoundTools(TrendingIds, mock, remoteById);
    if |valid| >= limit then SliceTo(valid, limit)
    else GetTools(mock, remote, None, ByUpvotes, Desc, Some(limit), collate)
  }

  /**
   * When enough trending ids resolve the result is a prefix of them; otherwise it is the fallback
   * query, which (through the ordering quirk) lists the least-upvoted tools first.
   */
  lemma TrendingToolsShape(mock: seq<Tool>, remote: seq<Tool>, remoteById: String -> Option<Tool>,
                           limit: int, collate: String -> int)
    ensures var valid := FoundTools(TrendingIds, mock, remoteById);
      var r := TrendingTools(mock, remote, remoteById, limit, collate);
      (|valid| >= limit ==> r == valid[..|r|] && |r| <= 4)
      && (|valid| < limit ==>
            SortedBy(r, Upvotes) && |r| <= |mock| + |remote| && forall i :: 0 <= i < |r| ==> r[i] in mock + remote)
  {
    var valid := FoundTools(TrendingIds, mock, remoteById);
    if |valid| < limit {
      GetToolsSound(mock, remote, None, ByUpvotes, Desc, Some(limit), collate);
      var whole := GetTools(mock, remote, None, ByUpvotes, Desc, None, collate);
      GetToolsLimit(mock, remote, None, ByUpvotes, Desc, limit, collate);
      GetToolsComplete(mock, remote, None, ByUpvotes, Desc, None, collate);
      assert |whole| == |multiset(whole)|;
      assert |multiset(Filter(mock + remote, MatchFn(None)))| <= |mock + remote|;
    }
  }

  /** `(a, b) => b.upvotes - a.upvotes`. */
  function MostUpvotedFirst(a: Tool, b: Tool): int { b.upvotes - a.upvotes }

  /** Sort by upvotes, most first, and `slice(0, limit)`. */
  function TopByUpvotes(s: seq<Tool>, limit: int): seq<Tool> {
    SliceTo(SortWith(s, MostUpvotedFirst), limit)
  }

  const DayMs: int := 24 * 60 * 60 * 1000
  const WeekMs: int := 7 * DayMs
  const MonthMs: int := 30 * DayMs

  /** Updated or created at or after `since`. */
  function TouchedSince(since: Time): Tool -> bool {
    (t: Tool) => t.updatedAt >= since || t.createdAt >= since
  }

  /** Created at or after `since`. */
  function CreatedSince(since: Time): Tool -> bool {
    (t: Tool) => t.createdAt >= since
  }

  /** `getTopProductsToday`: tools updated or created since local midnight `todayStart`. */
  function TopProductsToday(mock: seq<Tool>, todayStart: Time, limit: int): seq<Tool> {
    TopByUpvotes(Filter(mock, TouchedSince(todayStart)), limit)
  }

  /** `getLastWeeksTopTools`: tools created in the last seven days before `now`. */
  function LastWeeksTopTools(mock: seq<Tool>, now: Time, limit: int): seq<Tool> {
    TopByUpvotes(Filter(mock, CreatedSince(now - WeekMs)), limit)
  }

  /** `getLastMonthsTopTools`: tools created in the last thirty days before `now`. */
  function LastMonthsTopTools(mock: seq<Tool>, now: Time, limit: int): seq<Tool> {
    TopByUpvotes(Filter(mock, CreatedSince(now - MonthMs)), limit)
  }

  /**
   * A top list is a prefix of the stable sort by upvotes, most first: drawn from its input with
   * multiplicity, most upvoted first, and min(limit, n) tools long for limit >= 0.
   */
  lemma TopByUpvotesSpec(s: seq<Tool>, limit: int)
    ensures var r := TopByUpvotes(s, limit); var sorted := SortBy(s, NegUpvotes);
      |r| <= |sorted| && r == sorted[..|r|]
      && SortedBy(r, NegUpvotes)
      && multiset(r) <= multiset(s)
      && (forall i :: 0 <= i < |r| ==> r[i] in s)
      && (limit >= 0 ==> |r| == if limit < |s| then limit else |s|)
  {
    assert forall a, b :: MostUpvotedFirst(a, b) == NegUpvotes(a) - NegUpvotes(b);
    SortWithIsSortBy(s, MostUpvotedFirst, NegUpvotes);
    var r := SliceTo(SortBy(s, NegUpvotes), limit);
    SortByPrefix(s, |r|, NegUpvotes);
  }

  /** No tool left out of a top list has more upvotes than any tool kept in it. */
  lemma TopByUpvotesKeepsTheMost(s: seq<Tool>, limit: int)
    ensures var r := TopByUpvotes(s, limit);
      forall t, k :: t in multiset(s) - multiset(r) && 0 <= k < |r| ==> t.upvotes <= r[k].upvotes
  {
    TopByUpvotesSpec(s, limit);
    var sorted := SortBy(s, NegUpvotes);
    SortBySorted(s, NegUpvotes);
    var r := TopByUpvotes(s, limit);
    PrefixHoldsTheLeast(sorted, |r|, NegUpvotes);
    forall t, k | t in multiset(s) - multiset(r) && 0 <= k < |r|
      ensures t.upvotes <= r[k].upvotes
    {
      assert NegUpvotes(sorted[k]) <= NegUpvotes(t);
    }
  }

  /** Every tool in a period list passes the period's cutoff. */
  lemma PeriodListsRespectCutoff(mock: seq<Tool>, todayStart: Time, now: Time, limit: int)
    ensures forall t :: t in TopProductsToday(mock, todayStart, limit) ==>
      t in mock && (t.updatedAt >= todayStart || t.createdAt >= todayStart)
    ensures forall t :: t in LastWeeksTopTools(mock, now, limit) ==> t in mock && t.createdAt >= now - 604800000
    ensures forall t :: t in LastMonthsTopTools(mock, now, limit) ==> t in mock && t.createdAt >= now - 2592000000
  {
    forall t | t in TopProductsToday(mock, todayStart, limit)
      ensures t in mock && (t.updatedAt >= todayStart || t.createdAt >= todayStart)
    {
      PeriodMember(mock, TouchedSince(todayStart), limit, t);
    }
    forall t | t in LastWeeksTopTools(mock, now, limit)
      ensures t in mock && t.createdAt >= now - 604800000
    {
      PeriodMember(mock, CreatedSince(now - WeekMs), limit, t);
    }
    forall t | t in LastMonthsTopTools(mock, now, limit)
      ensures t in mock && t.createdAt >= now - 2592000000
    {
      PeriodMember(mock, CreatedSince(now - MonthMs), limit, t);
    }
  }

  /** A tool in a top list of the tools passing `keep` is a loaded tool that passes it. */
  lemma PeriodMember(mock: seq<Tool>, keep: Tool -> bool, limit: int, t: Tool)
    requires t in TopByUpvotes(Filter(mock, keep), limit)
    ensures t in mock && keep(t)
  {
    var kept := Filter(mock, keep);
    TopByUpvotesSpec(kept, limit);
    var r := TopByUpvotes(kept, limit);
    var i :| 0 <= i < |r| && r[i] == t;
    FilterMember(mock, keep, t);
  }

  /** A tool that passes the cutoff but is left out of the top list is outranked by every listed tool. */
  lemma PeriodOutranked(mock: seq<Tool>, keep: Tool -> bool, limit: int, t: Tool, k: int)
    requires t in mock && keep(t) && t !in TopByUpvotes(Filter(mock, keep), limit)
    requires 0 <= k < |TopByUpvotes(Filter(mock, keep), limit)|
    ensures t.upvotes <= TopByUpvotes(Filter(mock, keep), limit)[k].upvotes
  {
    var kept := Filter(mock, keep);
    var r := TopByUpvotes(kept, limit);
    var i :| 0 <= i < |mock| && mock[i] == t;
    assert t in kept;
    assert t in multiset(kept) && t !in multiset(r);
    TopByUpvotesKeepsTheMost(kept, limit);
  }

  /** Each period list keeps the most upvoted of the tools passing its cutoff. */
  lemma PeriodListsKeepTheMost(mock: seq<Tool>, todayStart: Time, now: Time, limit: int)
    ensures var r := TopProductsToday(mock, todayStart, limit);
      forall t, k ::
        t in mock && (t.updatedAt >= todayStart || t.createdAt >= todayStart) && t !in r && 0 <= k < |r|
        ==> t.upvotes <= r[k].upvotes
    ensures var r := LastWeeksTopTools(mock, now, limit);
      forall t, k :: t in mock && t.createdAt >= now - 604800000 && t !in r && 0 <= k < |r| ==> t.upvotes <= r[k].upvotes
    ensures var r := LastMonthsTopTools(mock, now, limit);
      forall t, k :: t in mock && t.createdAt >= now - 2592000000 && t !in r && 0 <= k < |r| ==> t.upvotes <= r[k].upvotes
  {
    var r1 := TopProductsToday(mock, todayStart, limit);
    forall t, k | t in mock && (t.updatedAt >= todayStart || t.createdAt >= todayStart) && t !in r1 && 0 <= k < |r1|
      ensures t.upvotes <= r1[k].upvotes
    {
      PeriodOutranked(mock, TouchedSince(todayStart), limit, t, k);
    }
    var r2 := LastWeeksTopTools(mock, now, limit);
    forall t, k | t in mock && t.createdAt >= now - 604800000 && t !in r2 && 0 <= k < |r2|
      ensures t.upvotes <= r2[k].upvotes
    {
      PeriodOutranked(mock, CreatedSince(now - WeekMs), limit, t, k);
    }
    var r3 := LastMonthsTopTools(mock, now, limit);
    forall t, k | t in mock && t.createdAt >= now - 2592000000 && t !in r3 && 0 <= k < |r3|
      ensures t.upvotes <= r3[k].upvotes
    {
      PeriodOutranked(mock, CreatedSince(now - MonthMs), limit, t, k);
    }
  }

  // ---------------------------------------------------------------------------------------------
  // The in-memory store

  /** The fields a submitter supplies: a tool without id, upvotes, comments and timestamps. */
  datatype ToolDraft = ToolDraft(
    name: String,
    logoUrl: String,
    shortDescription: String,
    fullDescription: String,
    websiteUrl: String,
    screenshots: seq<String>,
    features: seq<String>,
    useCases: seq<String>,
    categories: seq<String>,
    tags: seq<String>,
    pricing: PricingTier,
    source: SourceType,
    publicGuide: Option<String>,
    submittedBy: Option<String>)

  /** A comment as the caller supplies it, before the store adds id, toolId and createdAt. */
  datatype CommentDraft = CommentDraft(userId: String, username: String, avatarUrl: Option<String>, text: String, upvotes: int)

  /** `{...toolData, id, upvotes: 0, comments: [], createdAt, updatedAt}`: every draft field copied. */
  function SubmittedTool(draft: ToolDraft, id: String, now: Time): Tool {
    Tool(id, draft.name, draft.logoUrl, draft.shortDescription, draft.fullDescription, draft.websiteUrl,
         draft.screenshots, draft.features, draft.useCases, 0, draft.categories, draft.tags, draft.pricing,
         draft.source, draft.publicGuide, [], draft.submittedBy, now, now)
  }

  /** `{...comment, id, toolId, createdAt}`: every field the caller supplied copied. */
  function AddedComment(toolId: String, comment: CommentDraft, commentId: String, now: Time): ToolComment {
    ToolComment(commentId, toolId, comment.userId, comment.username, comment.avatarUrl, comment.text, comment.upvotes, now)
  }

  /** `Partial<Tool>`: a present field overwrites the stored one. */
  datatype ToolUpdates = ToolUpdates(
    id: Option<String>,
    name: Option<String>,
    logoUrl: Option<String>,
    shortDescription: Option<String>,
    fullDescription: Option<String>,
    websiteUrl: Option<String>,
    screenshots: Option<seq<String>>,
    features: Option<seq<String>>,
    useCases: Option<seq<String>>,
    upvotes: Option<int>,
    categories: Option<seq<String>>,
    tags: Option<seq<String>>,
    pricing: Option<PricingTier>,
    source: Option<SourceType>,
    publicGuide: Option<String>,
    comments: Option<seq<ToolComment>>,
    submittedBy: Option<String>,
    createdAt: Option<Time>)

  const NoUpdates := ToolUpdates(None, None, None, None, None, None, None, None, None, None, None, None, None, None,
                                 None, None, None, None)

  /** `{ ...t, ...u, updatedAt: now }`. */
  function ApplyUpdates(t: Tool, u: ToolUpdates, now: Time): (r: Tool)
    ensures r.updatedAt == now
  {
    Tool(u.id.GetOr(t.id), u.name.GetOr(t.name), u.logoUrl.GetOr(t.logoUrl),
         u.shortDescription.GetOr(t.shortDescription), u.fullDescription.GetOr(t.fullDescription),
         u.websiteUrl.GetOr(t.websiteUrl), u.screenshots.GetOr(t.screenshots), u.features.GetOr(t.features),
         u.useCases.GetOr(t.useCases), u.upvotes.GetOr(t.upvotes), u.categories.GetOr(t.categories),
         u.tags.GetOr(t.tags), u.pricing.GetOr(t.pricing), u.source.GetOr(t.source),
         if u.publicGuide.Some? then u.publicGuide else t.publicGuide,
         u.comments.GetOr(t.comments),
         if u.submittedBy.Some? then u.submittedBy else t.submittedBy,
         u.createdAt.GetOr(t.createdAt), now)
  }

  /** An empty update only refreshes updatedAt. */
  lemma NoUpdatesOnlyTouchesTime(t: Tool, now: Time)
    ensures ApplyUpdates(t, NoUpdates, now) == t.(updatedAt := now)
  {
  }

  /** Applying the same update twice is applying it once. */
  lemma ApplyUpdatesIdempotent(t: Tool, u: ToolUpdates, now: Time)
    ensures ApplyUpdates(ApplyUpdates(t, u, now), u, now) == ApplyUpdates(t, u, now)
  {
  }

  /** A field absent from the update keeps its stored value: with only a name, the rest of the tool stays. */
  lemma NameOnlyUpdate(t: Tool, name: String, now: Time)
    ensures ApplyUpdates(t, NoUpdates.(name := Some(name)), now) == t.(name := name, updatedAt := now)
  {
  }

  /** `adminAddTool`'s record: the details with their defaults, upvotes 0, no comments, submitted by 'admin1'. */
  function AdminTool(details: AIGeneratedToolDetails, websiteUrl: String, logoUrlProp: Option<String>,
                     id: String, now: Time, placeholder: Placeholder): (t: Tool)
    ensures t.name != [] && t.categories != [] && t.pricing != [] && t.source != []
    ensures t.upvotes == 0 && t.comments == [] && t.submittedBy == Some("admin1")
    ensures t.websiteUrl == websiteUrl && t.id == id && t.createdAt == now && t.updatedAt == now
    ensures Truthy(logoUrlProp) ==> t.logoUrl == logoUrlProp.value
    ensures !Truthy(logoUrlProp) && Truthy(details.logoUrl) ==> t.logoUrl == details.logoUrl.value
    ensures !Truthy(logoUrlProp) && !Truthy(details.logoUrl) ==>
      t.logoUrl == placeholder(100, 100, StrOr(details.name, "newtool"))
    ensures details.categories.Some? && details.categories.value != [] ==> t.categories == details.categories.value
    ensures details.categories.None? || details.categories.value == [] ==> t.categories == [MockCategories[0].id]
  {
    var stem := StrOr(details.name, "newtool");
    Tool(
      id,
      StrOr(details.name, "Untitled Tool"),
      if Truthy(logoUrlProp) then logoUrlProp.value else StrOr(details.logoUrl, placeholder(100, 100, stem)),
      StrOr(details.shortDescription, "No description provided."),
      StrOr(details.fullDescription, "No detailed description provided."),
      websiteUrl,
      [placeholder(600, 400, stem + "1"), placeholder(600, 400, stem + "2")],
      details.features.GetOr([]),
      details.useCases.GetOr([]),
      0,
      if details.categories.Some? && |details.categories.value| > 0 then details.categories.value
      else [MockCategories[0].id],
      details.tags.GetOr([]),
      StrOr(details.pricing, "Freemium"),
      StrOr(details.source, "Closed Source"),
      None,
      [],
      Some("admin1"),
      now,
      now)
  }

  /** Default values of `adminAddTool` for an empty generation result. */
  lemma AdminToolDefaults(websiteUrl: String, id: String, now: Time, placeholder: Placeholder)
    ensures var none := AIGeneratedToolDetails(None, None, None, None, None, None, None, None, None, None);
      var t := AdminTool(none, websiteUrl, None, id, now, placeholder);
      t.name == "Untitled Tool" && t.categories == ["image-generation"] && t.pricing == "Freemium"
      && t.source == "Closed Source" && t.shortDescription == "No description provided."
      && t.fullDescription == "No detailed description provided." && t.features == [] && t.tags == []
  {
  }

  /** The sum of all upvotes in the store. */
  function TotalUpvotes(s: seq<Tool>): int
    decreases |s|
  {
    if s == [] then 0 else s[0].upvotes + TotalUpvotes(s[1..])
  }

  /** Adding one upvote to one tool raises the store's total by exactly one. */
  lemma {:induction false} UpvoteRaisesTotalByOne(s: seq<Tool>, i: nat)
    requires i < |s|
    ensures TotalUpvotes(s[i := s[i].(upvotes := s[i].upvotes + 1)]) == TotalUpvotes(s) + 1
    decreases i
  {
    var s' := s[i := s[i].(upvotes := s[i].upvotes + 1)];
    if i > 0 {
      assert s'[1..] == s[1..][i - 1 := s[i].(upvotes := s[i].upvotes + 1)];
      UpvoteRaisesTotalByOne(s[1..], i - 1);
    } else {
      assert s'[1..] == s[1..];
    }
  }

  /** `MOCK_TOOLS` and the operations that change it. */
  class ToolStore {
    var tools: seq<Tool>

    constructor(initial: seq<Tool>)
      ensures tools == initial
    {
      tools := initial;
    }

    /** `upvoteTool`: one more upvote on the first tool with that id; nothing changes for an unknown id. */
    method UpvoteTool(id: String) returns (r: Option<Tool>)
      modifies this
      ensures var i := IndexOfKey(old(tools), ToolId, id);
        if i < 0 then r == None && tools == old(tools)
        else tools == old(tools)[i := old(tools)[i].(upvotes := old(tools)[i].upvotes + 1)] && r == Some(tools[i])
      ensures TotalUpvotes(tools) == TotalUpvotes(old(tools)) + (if r.Some? then 1 else 0)
    {
      var i := IndexOfKey(tools, ToolId, id);
      if i < 0 {
        r := None;
      } else {
        UpvoteRaisesTotalByOne(tools, i);
        tools := tools[i := tools[i].(upvotes := tools[i].upvotes + 1)];
        r := Some(tools[i]);
      }
    }

    /** `addCommentToTool`: appends one comment, carrying this toolId, to the first tool with that id. */
    method AddCommentToTool(toolId: String, comment: CommentDraft, commentId: String, now: Time)
      returns (r: Option<ToolComment>)
      modifies this
      ensures var i := IndexOfKey(old(tools), ToolId, toolId);
        if i < 0 then r == None && tools == old(tools)
        else
          r == Some(AddedComment(toolId, comment, commentId, now))
          && r.value.toolId == toolId && r.value.id == commentId && r.value.createdAt == now
          && r.value.text == comment.text && r.value.userId == comment.userId && r.value.username == comment.username
          && r.value.avatarUrl == comment.avatarUrl && r.value.upvotes == comment.upvotes
          && tools == old(tools)[i := old(tools)[i].(comments := old(tools)[i].comments + [r.value])]
    {
      var i := IndexOfKey(tools, ToolId, toolId);
      if i < 0 {
        r := None;
      } else {
        var c := AddedComment(toolId, comment, commentId, now);
        tools := tools[i := tools[i].(comments := tools[i].comments + [c])];
        r := Some(c);
      }
    }

    /** `submitTool`: the draft becomes a tool with no upvotes or comments, placed first. */
    method SubmitTool(draft: ToolDraft, id: String, now: Time) returns (t: Tool)
      modifies this
      ensures tools == [t] + old(tools) && t == SubmittedTool(draft, id, now)
      ensures t.id == id && t.upvotes == 0 && t.comments == [] && t.createdAt == now && t.updatedAt == now
      ensures t.name == draft.name && t.logoUrl == draft.logoUrl && t.shortDescription == draft.shortDescription
        && t.fullDescription == draft.fullDescription && t.websiteUrl == draft.websiteUrl
        && t.screenshots == draft.screenshots && t.features == draft.features && t.useCases == draft.useCases
        && t.categories == draft.categories && t.tags == draft.tags && t.pricing == draft.pricing
        && t.source == draft.source && t.publicGuide == draft.publicGuide && t.submittedBy == draft.submittedBy
    {
      t := SubmittedTool(draft, id, now);
      tools := [t] + tools;
    }

    /** `adminAddTool`: the defaulted record placed first. */
    method AdminAddTool(details: AIGeneratedToolDetails, websiteUrl: String, logoUrlProp: Option<String>,
                        id: String, now: Time, placeholder: Placeholder) returns (t: Tool)
      modifies this
      ensures t == AdminTool(details, websiteUrl, logoUrlProp, id, now, placeholder)
      ensures tools == [t] + old(tools)
    {
      t := AdminTool(details, websiteUrl, logoUrlProp, id, now, placeholder);
      tools := [t] + tools;
    }

    /** `updateToolDetails`: merges the update into the first tool with that id and stamps updatedAt. */
    method UpdateToolDetails(toolId: String, updates: ToolUpdates, now: Time) returns (r: Option<Tool>)
      modifies this
      ensures var i := IndexOfKey(old(tools), ToolId, toolId);
        if i < 0 then r == None && tools == old(tools)
        else tools == old(tools)[i := ApplyUpdates(old(tools)[i], updates, now)] && r == Some(tools[i])
    {
      var i := IndexOfKey(tools, ToolId, toolId);
      if i < 0 {
        r := None;
      } else {
        tools := tools[i := ApplyUpdates(tools[i], updates, now)];
        r := Some(tools[i]);
      }
    }

    /**
     * `deleteTool`: a 'supabase-' id is deleted remotely (the outcome `remoteDelete` gives for the
     * bare id) and the store is untouched; any other id removes the first matching tool.
     */
    method DeleteTool(toolId: String, remoteDelete: String -> bool) returns (ok: bool)
      modifies this
      ensures StartsWith(toolId, "supabase-") ==> ok == remoteDelete(toolId[9..]) && tools == old(tools)
      ensures !StartsWith(toolId, "supabase-") ==>
        var i := IndexOfKey(old(tools), ToolId, toolId);
        if i < 0 then !ok && tools == old(tools)
        else ok && tools == old(tools)[..i] + old(tools)[i + 1..] && |tools| == |old(tools)| - 1
    {
      if StartsWith(toolId, "supabase-") {
        var supabaseId := ReplaceFirst(toolId, "supabase-", "");
        assert supabaseId == toolId[9..];
        ok := remoteDelete(supabaseId);
      } else {
        var i := IndexOfKey(tools, ToolId, toolId);
        if i < 0 {
          ok := false;
        } else {
          tools := tools[..i] + tools[i + 1..];
          ok := true;
        }
      }
    }
  }
}
