/**
 * The home page's two searches: the realtime results under the search bar (at most five) and
 * the main display driven by a submitted search or a category pill, plus the handlers that
 * move between them.
 */
module HomePage {
  import opened Wrappers
  import opened Strings
  import opened Seqs
  import opened Sorting
  import opened Types
  import opened ToolService

  /** The 'All Tools' pill that the page puts in front of the loaded categories. */
  const AllToolsCategory := ToolCategory("all", "All Tools", "Browse all available tools.")

  function PageCategories(loaded: seq<ToolCategory>): seq<ToolCategory> {
    [AllToolsCategory] + loaded
  }

  /** Some word occurs, as is, in the lower-cased name, short description or some lower-cased tag. */
  predicate AnyWordMatches(words: seq<String>, t: Tool) {
    (exists i :: 0 <= i < |words| && Contains(ToLower(t.name), words[i]))
    || (exists i :: 0 <= i < |words| && Contains(ToLower(t.shortDescription), words[i]))
    || (exists j, i :: 0 <= j < |t.tags| && 0 <= i < |words| && Contains(ToLower(t.tags[j]), words[i]))
  }

  /** `categories.find(c => c.name === name)?.id`. */
  function CategoryIdByName(categories: seq<ToolCategory>, name: String): (r: Option<String>)
    ensures r.Some? ==> exists i :: 0 <= i < |categories| && categories[i].name == name && categories[i].id == r.value
    ensures r.None? ==> forall i :: 0 <= i < |categories| ==> categories[i].name != name
  {
    var i := IndexOfKey(categories, CategoryNameOf, name);
    if i >= 0 then Some(categories[i].id) else None
  }

  // ---------------------------------------------------------------------------------------------
  // Realtime results

  /** The search terms: the suggested keywords joined by spaces when there are any, else the query. */
  function RealtimeTerms(query: String, suggestions: Option<AISearchSuggestion>): String {
    if suggestions.Some? && |suggestions.value.keywords| > 0 then Join(suggestions.value.keywords, ' ') else query
  }

  /** The category of the first suggested category name, if that name is a loaded category. */
  function RealtimeCategory(categories: seq<ToolCategory>, suggestions: Option<AISearchSuggestion>): Option<String> {
    if suggestions.Some? && |suggestions.value.categories| > 0 then
      CategoryIdByName(categories, suggestions.value.categories[0])
    else None
  }

  /** The search-word filter: every tool when there are no terms. */
  function ByWords(all: seq<Tool>, terms: String): seq<Tool> {
    if terms != [] then (var words := Words(ToLower(terms)); Filter(all, (t: Tool) => AnyWordMatches(words, t))) else all
  }

  /** The category filter: every tool when no category resolved. */
  function ByCategory(s: seq<Tool>, cat: Option<String>): seq<Tool> {
    if Truthy(cat) then (var c := cat.value; Filter(s, (t: Tool) => c in t.categories)) else s
  }

  /** The filters of `handleQueryChange`, before the sort: search words, then the suggested category. */
  function RealtimeFiltered(all: seq<Tool>, categories: seq<ToolCategory>, query: String,
                            suggestions: Option<AISearchSuggestion>): seq<Tool>
  {
    ByCategory(ByWords(all, RealtimeTerms(query, suggestions)), RealtimeCategory(categories, suggestions))
  }

  lemma ByWordsMember(all: seq<Tool>, terms: String, x: Tool)
    requires x in ByWords(all, terms)
    ensures x in all && (terms != [] ==> AnyWordMatches(Words(ToLower(terms)), x))
  {
    if terms != [] {
      var words := Words(ToLower(terms));
      FilterMember(all, (t: Tool) => AnyWordMatches(words, t), x);
    }
  }

  lemma ByCategoryMember(s: seq<Tool>, cat: Option<String>, x: Tool)
    requires x in ByCategory(s, cat)
    ensures x in s && (Truthy(cat) ==> cat.value in x.categories)
  {
    if Truthy(cat) {
      var c := cat.value;
      FilterMember(s, (t: Tool) => c in t.categories, x);
    }
  }

  /** `handleQueryChange`'s results: nothing for a blank query, else the five most upvoted matches. */
  function RealtimeResults(all: seq<Tool>, categories: seq<ToolCategory>, query: String,
                           suggestions: Option<AISearchSuggestion>): seq<Tool>
  {
    if IsBlank(query) then []
    else SliceTo(SortWith(RealtimeFiltered(all, categories, query, suggestions), MostUpvotedFirst), 5)
  }

  /**
   * Realtime results are empty for a blank query; otherwise they are the first five (or fewer) of
   * the filtered tools sorted by upvotes, most first, each a loaded tool that matches a search word
   * when there are terms and carries the first suggested category when that one resolves to an id.
   */
  lemma RealtimeResultsSpec(all: seq<Tool>, categories: seq<ToolCategory>, query: String,
                            suggestions: Option<AISearchSuggestion>)
    ensures var r := RealtimeResults(all, categories, query, suggestions);
      var filtered := RealtimeFiltered(all, categories, query, suggestions);
      var terms := RealtimeTerms(query, suggestions);
      var cat := RealtimeCategory(categories, suggestions);
      (IsBlank(query) ==> r == [])
      && (!IsBlank(query) ==>
            |r| == (if 5 < |filtered| then 5 else |filtered|) && r == SortBy(filtered, NegUpvotes)[..|r|])
      && |r| <= 5 && SortedBy(r, NegUpvotes) && multiset(r) <= multiset(filtered)
      && (forall i :: 0 <= i < |r| ==> r[i] in all)
      && (terms != [] ==> forall i :: 0 <= i < |r| ==> AnyWordMatches(Words(ToLower(terms)), r[i]))
      && (Truthy(cat) ==> forall i :: 0 <= i < |r| ==> cat.value in r[i].categories)
  {
    if !IsBlank(query) {
      var filtered := RealtimeFiltered(all, categories, query, suggestions);
      TopByUpvotesSpec(filtered, 5);
      var r := TopByUpvotes(filtered, 5);
      assert RealtimeResults(all, categories, query, suggestions) == r;
      RealtimeDrawnFromFiltered(all, categories, query, suggestions, r);
    }
  }

  /** Every tool drawn from the filtered ones is loaded and passes both filters. */
  lemma RealtimeDrawnFromFiltered(all: seq<Tool>, categories: seq<ToolCategory>, query: String,
                                  suggestions: Option<AISearchSuggestion>, r: seq<Tool>)
    requires multiset(r) <= multiset(RealtimeFiltered(all, categories, query, suggestions))
    ensures var terms := RealtimeTerms(query, suggestions);
      var cat := RealtimeCategory(categories, suggestions);
      && (forall i :: 0 <= i < |r| ==> r[i] in all)
      && (terms != [] ==> forall i :: 0 <= i < |r| ==> AnyWordMatches(Words(ToLower(terms)), r[i]))
      && (Truthy(cat) ==> forall i :: 0 <= i < |r| ==> cat.value in r[i].categories)
  {
    var filtered := RealtimeFiltered(all, categories, query, suggestions);
    forall i | 0 <= i < |r|
      ensures var terms := RealtimeTerms(query, suggestions); var cat := RealtimeCategory(categories, suggestions);
        r[i] in all && (terms != [] ==> AnyWordMatches(Words(ToLower(terms)), r[i]))
        && (Truthy(cat) ==> cat.value in r[i].categories)
    {
      assert r[i] in multiset(filtered);
      RealtimeFilteredSpec(all, categories, query, suggestions, r[i]);
    }
  }

  /** A loaded tool that matches the realtime filters but is not shown is outranked by every shown tool. */
  lemma RealtimeResultsKeepTheMost(all: seq<Tool>, categories: seq<ToolCategory>, query: String,
                                   suggestions: Option<AISearchSuggestion>, x: Tool, k: int)
    requires !IsBlank(query) && x in all
    requires var terms := RealtimeTerms(query, suggestions); terms != [] ==> AnyWordMatches(Words(ToLower(terms)), x)
    requires var cat := RealtimeCategory(categories, suggestions); Truthy(cat) ==> cat.value in x.categories
    requires var r := RealtimeResults(all, categories, query, suggestions); x !in r && 0 <= k < |r|
    ensures x.upvotes <= RealtimeResults(all, categories, query, suggestions)[k].upvotes
  {
    var filtered := RealtimeFiltered(all, categories, query, suggestions);
    var r := TopByUpvotes(filtered, 5);
    assert RealtimeResults(all, categories, query, suggestions) == r;
    RealtimeFilteredComplete(all, categories, query, suggestions, x);
    assert x in multiset(filtered) && x !in multiset(r);
    TopByUpvotesKeepsTheMost(filtered, 5);
  }

  /** A loaded tool that matches a search word when there are terms, and has the resolved category, is filtered in. */
  lemma RealtimeFilteredComplete(all: seq<Tool>, categories: seq<ToolCategory>, query: String,
                                 suggestions: Option<AISearchSuggestion>, x: Tool)
    requires x in all
    requires var terms := RealtimeTerms(query, suggestions); terms != [] ==> AnyWordMatches(Words(ToLower(terms)), x)
    requires var cat := RealtimeCategory(categories, suggestions); Truthy(cat) ==> cat.value in x.categories
    ensures x in RealtimeFiltered(all, categories, query, suggestions)
  {
    var terms := RealtimeTerms(query, suggestions);
    var cat := RealtimeCategory(categories, suggestions);
    var byWords := ByWords(all, terms);
    var i :| 0 <= i < |all| && all[i] == x;
    if terms != [] {
      var words := Words(ToLower(terms));
      var p := (t: Tool) => AnyWordMatches(words, t);
      assert p(all[i]);
    }
    assert x in byWords;
    if Truthy(cat) {
      var c := cat.value;
      var j :| 0 <= j < |byWords| && byWords[j] == x;
      var q := (t: Tool) => c in t.categories;
      assert q(byWords[j]);
    }
  }

  /** Every filtered tool is loaded, matches a search word when there are terms, and has the resolved category. */
  lemma RealtimeFilteredSpec(all: seq<Tool>, categories: seq<ToolCategory>, query: String,
                             suggestions: Option<AISearchSuggestion>, x: Tool)
    requires x in RealtimeFiltered(all, categories, query, suggestions)
    ensures var terms := RealtimeTerms(query, suggestions);
      var cat := RealtimeCategory(categories, suggestions);
      x in all
      && (terms != [] ==> AnyWordMatches(Words(ToLower(terms)), x))
      && (Truthy(cat) ==> cat.value in x.categories)
  {
    var terms := RealtimeTerms(query, suggestions);
    var byWords := ByWords(all, terms);
    ByCategoryMember(byWords, RealtimeCategory(categories, suggestions), x);
    ByWordsMember(all, terms, x);
  }

  /** A loaded tool whose name contains a query word, with no suggestions, is among the filtered ones. */
  lemma RealtimeFindsNameMatch(all: seq<Tool>, categories: seq<ToolCategory>, query: String, t: Tool, w: nat)
    requires t in all
    requires var words := Words(ToLower(query)); w < |words| && Contains(ToLower(t.name), words[w])
    ensures t in RealtimeFiltered(all, categories, query, None)
  {
    var words := Words(ToLower(query));
    assert AnyWordMatches(words, t);
    var i :| 0 <= i < |all| && all[i] == t;
    var p := (t: Tool) => AnyWordMatches(words, t);
    assert p(all[i]);
  }

  // ---------------------------------------------------------------------------------------------
  // The main display

  /** The words of a submitted search: the suggested keywords as they are, else the lower-cased query split on spaces. */
  function SubmittedWords(query: String, suggestions: Option<AISearchSuggestion>): seq<String> {
    if suggestions.Some? && |suggestions.value.keywords| > 0 then NonEmpty(suggestions.value.keywords)
    else NonEmpty(Split(ToLower(query), ' '))
  }

  /** The ids of the suggested category names that are loaded categories with a non-empty id, in order. */
  function ResolvedIds(categories: seq<ToolCategory>, names: seq<String>): (r: seq<String>)
    ensures forall i :: 0 <= i < |r| ==> r[i] != []
    decreases |names|
  {
    if names == [] then []
    else
      var id := CategoryIdByName(categories, names[0]);
      (if Truthy(id) then [id.value] else []) + ResolvedIds(categories, names[1..])
  }

  function SubmittedCategories(categories: seq<ToolCategory>, suggestions: Option<AISearchSuggestion>): seq<String> {
    if suggestions.Some? then ResolvedIds(categories, suggestions.value.categories) else []
  }

  /** A submitted search matches on a word, and on an overlapping category when any suggested one resolved. */
  predicate SubmittedMatch(words: seq<String>, cats: seq<String>, t: Tool) {
    AnyWordMatches(words, t)
    && (|cats| > 0 ==> exists i :: 0 <= i < |t.categories| && t.categories[i] in cats)
  }

  /** The main display effect's list, before its sort. */
  function MainSelection(all: seq<Tool>, categories: seq<ToolCategory>, activeQuery: String,
                         activeSuggestions: Option<AISearchSuggestion>, selectedCategoryId: String): seq<Tool>
  {
    if activeQuery != [] then
      var words := SubmittedWords(activeQuery, activeSuggestions);
      var cats := SubmittedCategories(categories, activeSuggestions);
      Filter(all, (t: Tool) => SubmittedMatch(words, cats, t))
    else if selectedCategoryId != [] && selectedCategoryId != "all" then
      Filter(all, (t: Tool) => selectedCategoryId in t.categories)
    else if selectedCategoryId == "all" then []
    else all
  }

  /** The main display: nothing changes until tools are loaded; then the selection, most upvoted first. */
  function MainDisplay(current: seq<Tool>, all: seq<Tool>, categories: seq<ToolCategory>, activeQuery: String,
                       activeSuggestions: Option<AISearchSuggestion>, selectedCategoryId: String): seq<Tool>
  {
    if all == [] then current
    else SortWith(MainSelection(all, categories, activeQuery, activeSuggestions, selectedCategoryId), MostUpvotedFirst)
  }

  /** With no submitted search, 'all' empties the display and a specific category shows exactly its tools. */
  lemma MainDisplayByCategory(current: seq<Tool>, all: seq<Tool>, categories: seq<ToolCategory>,
                              activeSuggestions: Option<AISearchSuggestion>, selectedCategoryId: String)
    requires all != []
    ensures selectedCategoryId == "all" ==> MainDisplay(current, all, categories, [], activeSuggestions, selectedCategoryId) == []
    ensures selectedCategoryId != [] && selectedCategoryId != "all" ==>
      var r := MainDisplay(current, all, categories, [], activeSuggestions, selectedCategoryId);
      SortedBy(r, NegUpvotes)
      && (forall t :: t in r <==> t in all && selectedCategoryId in t.categories)
  {
    var sel := MainSelection(all, categories, [], activeSuggestions, selectedCategoryId);
    assert forall a, b :: MostUpvotedFirst(a, b) == NegUpvotes(a) - NegUpvotes(b);
    SortWithIsSortBy(sel, MostUpvotedFirst, NegUpvotes);
    SortBySorted(sel, NegUpvotes);
    if selectedCategoryId != [] && selectedCategoryId != "all" {
      var p := (t: Tool) => selectedCategoryId in t.categories;
      forall t
        ensures t in SortBy(sel, NegUpvotes) <==> t in all && selectedCategoryId in t.categories
      {
        assert t in SortBy(sel, NegUpvotes) <==> t in multiset(sel);
        if t in all && selectedCategoryId in t.categories {
          var i :| 0 <= i < |all| && all[i] == t;
          assert p(all[i]);
        }
      }
    }
  }

  /**
   * A submitted search shows only loaded tools that match a word and, when categories resolved,
   * share one; and it shows every such loaded tool, as many times as it is loaded.
   */
  lemma MainDisplaySubmitted(current: seq<Tool>, all: seq<Tool>, categories: seq<ToolCategory>, activeQuery: String,
                             activeSuggestions: Option<AISearchSuggestion>, selectedCategoryId: String)
    requires all != [] && activeQuery != []
    ensures var r := MainDisplay(current, all, categories, activeQuery, activeSuggestions, selectedCategoryId);
      var words := SubmittedWords(activeQuery, activeSuggestions);
      var cats := SubmittedCategories(categories, activeSuggestions);
      SortedBy(r, NegUpvotes) && (forall i :: 0 <= i < |r| ==> r[i] in all && SubmittedMatch(words, cats, r[i]))
      && (forall t :: multiset(r)[t] == if SubmittedMatch(words, cats, t) then multiset(all)[t] else 0)
  {
    MainDisplaySubmittedCounts(all, categories, activeQuery, activeSuggestions, selectedCategoryId);
    var sel := MainSelection(all, categories, activeQuery, activeSuggestions, selectedCategoryId);
    assert forall a, b :: MostUpvotedFirst(a, b) == NegUpvotes(a) - NegUpvotes(b);
    SortWithIsSortBy(sel, MostUpvotedFirst, NegUpvotes);
    SortBySorted(sel, NegUpvotes);
    var r := SortBy(sel, NegUpvotes);
    forall i | 0 <= i < |r|
      ensures r[i] in all && SubmittedMatch(SubmittedWords(activeQuery, activeSuggestions), SubmittedCategories(categories, activeSuggestions), r[i])
    {
      assert r[i] in multiset(sel);
      SubmittedSelectionMatches(all, categories, activeQuery, activeSuggestions, selectedCategoryId, r[i]);
    }
  }

  /** A submitted search selects each matching loaded tool as often as it is loaded, and nothing else. */
  lemma MainDisplaySubmittedCounts(all: seq<Tool>, categories: seq<ToolCategory>, activeQuery: String,
                                   activeSuggestions: Option<AISearchSuggestion>, selectedCategoryId: String)
    requires activeQuery != []
    ensures var sel := MainSelection(all, categories, activeQuery, activeSuggestions, selectedCategoryId);
      var words := SubmittedWords(activeQuery, activeSuggestions);
      var cats := SubmittedCategories(categories, activeSuggestions);
      forall t :: multiset(sel)[t] == if SubmittedMatch(words, cats, t) then multiset(all)[t] else 0
  {
    var words := SubmittedWords(activeQuery, activeSuggestions);
    var cats := SubmittedCategories(categories, activeSuggestions);
    var p := (t: Tool) => SubmittedMatch(words, cats, t);
    forall t
      ensures multiset(Filter(all, p))[t] == if SubmittedMatch(words, cats, t) then multiset(all)[t] else 0
    {
      FilterCount(all, p, t);
    }
  }

  /** Every tool a submitted search selects is a loaded tool that matches it. */
  lemma SubmittedSelectionMatches(all: seq<Tool>, categories: seq<ToolCategory>, activeQuery: String,
                                  activeSuggestions: Option<AISearchSuggestion>, selectedCategoryId: String, x: Tool)
    requires activeQuery != [] && x in MainSelection(all, categories, activeQuery, activeSuggestions, selectedCategoryId)
    ensures x in all && SubmittedMatch(SubmittedWords(activeQuery, activeSuggestions), SubmittedCategories(categories, activeSuggestions), x)
  {
    var words := SubmittedWords(activeQuery, activeSuggestions);
    var cats := SubmittedCategories(categories, activeSuggestions);
    var p := (t: Tool) => SubmittedMatch(words, cats, t);
    FilterMember(all, p, x);
  }

  /** Suggested keywords are used as they are, while a typed query is lower-cased before it is split. */
  lemma KeywordsNotLowerCased(categories: seq<String>)
    ensures SubmittedWords("Chat", Some(AISearchSuggestion(categories, ["Chat"]))) == ["Chat"]
    ensures SubmittedWords("Chat", None) == ["chat"]
  {
    var kw: seq<String> := ["Chat"];
    assert NonEmpty(kw) == [kw[0]] + NonEmpty(kw[1..]);
    assert kw[1..] == [];
    var lower := ToLower("Chat");
    LowerChat();
    WordsOfWord(lower);
    assert SubmittedWords("Chat", None) == Words(lower);
  }

  /** With no terms and no category the filters keep the whole list, and the sort only reorders it. */
  lemma UnfilteredQuery(all: seq<Tool>, terms: String, cat: Option<String>)
    requires terms == [] && !Truthy(cat)
    ensures ByCategory(ByWords(all, terms), cat) == all
    ensures multiset(SortWith(all, MostUpvotedFirst)) == multiset(all)
  {
    assert forall a, b :: MostUpvotedFirst(a, b) == NegUpvotes(a) - NegUpvotes(b);
    SortWithIsSortBy(all, MostUpvotedFirst, NegUpvotes);
  }

  lemma LowerChat()
    ensures ToLower("Chat") == "chat"
  {
    var lower := ToLower("Chat");
    assert lower[0] == 'c' && lower[1] == 'h' && lower[2] == 'a' && lower[3] == 't';
  }

  // ---------------------------------------------------------------------------------------------
  // The page state and its handlers

  class HomeState {
    var allTools: seq<Tool>
    var categories: seq<ToolCategory>
    var searchBarQuery: String
    var realtimeResults: seq<Tool>
    var realtimeSuggestions: Option<AISearchSuggestion>
    var activeQuery: String
    var activeSuggestions: Option<AISearchSuggestion>
    var selectedCategoryId: String
    var mainDisplay: seq<Tool>

    constructor(tools: seq<Tool>, loaded: seq<ToolCategory>)
      ensures allTools == tools && categories == PageCategories(loaded)
      ensures searchBarQuery == [] && realtimeResults == [] && realtimeSuggestions == None
      ensures activeQuery == [] && activeSuggestions == None && selectedCategoryId == "all" && mainDisplay == []
    {
      allTools := tools;
      categories := PageCategories(loaded);
      searchBarQuery := [];
      realtimeResults := [];
      realtimeSuggestions := None;
      activeQuery := [];
      activeSuggestions := None;
      selectedCategoryId := "all";
      mainDisplay := [];
    }

    /**
     * `handleQueryChange`. When the terms come out empty and no category applies, the sort runs on
     * the `allTools` array itself, so the loaded list is left sorted by upvotes.
     */
    method HandleQueryChange(query: String, suggestions: Option<AISearchSuggestion>)
      modifies this
      ensures searchBarQuery == query && realtimeSuggestions == suggestions
      ensures realtimeResults == RealtimeResults(old(allTools), categories, query, suggestions)
      ensures allTools == (if !IsBlank(query) && RealtimeTerms(query, suggestions) == []
                              && !Truthy(RealtimeCategory(categories, suggestions))
                           then SortWith(old(allTools), MostUpvotedFirst) else old(allTools))
      ensures multiset(allTools) == multiset(old(allTools))
      ensures categories == old(categories) && activeQuery == old(activeQuery)
      ensures activeSuggestions == old(activeSuggestions) && selectedCategoryId == old(selectedCategoryId)
      ensures mainDisplay == old(mainDisplay)
    {
      searchBarQuery := query;
      realtimeSuggestions := suggestions;
      if IsBlank(query) {
        realtimeResults := [];
        return;
      }
      var terms := RealtimeTerms(query, suggestions);
      var cat := RealtimeCategory(categories, suggestions);
      var filtered := RealtimeFiltered(allTools, categories, query, suggestions);
      var sorted := SortWith(filtered, MostUpvotedFirst);
      if terms == [] && !Truthy(cat) {
        UnfilteredQuery(allTools, terms, cat);
        allTools := sorted;
      }
      realtimeResults := SliceTo(sorted, 5);
    }

    /** `handleSearchSubmit`: the query becomes the active search and the category resets to 'all'. */
    method HandleSearchSubmit(query: String, suggestions: Option<AISearchSuggestion>)
      modifies this
      ensures activeQuery == query && activeSuggestions == suggestions && selectedCategoryId == "all"
      ensures searchBarQuery == query && realtimeResults == []
      ensures allTools == old(allTools) && categories == old(categories) && mainDisplay == old(mainDisplay)
      ensures realtimeSuggestions == old(realtimeSuggestions)
    {
      activeQuery := query;
      activeSuggestions := suggestions;
      selectedCategoryId := "all";
      searchBarQuery := query;
      realtimeResults := [];
    }

    /** `handleCategoryClick`: selects the category and clears the submitted search, its suggestions and the bar. */
    method HandleCategoryClick(categoryId: String)
      modifies this
      ensures selectedCategoryId == categoryId && activeQuery == [] && activeSuggestions == None
      ensures searchBarQuery == [] && realtimeResults == []
      ensures allTools == old(allTools) && categories == old(categories) && mainDisplay == old(mainDisplay)
      ensures realtimeSuggestions == old(realtimeSuggestions)
    {
      selectedCategoryId := categoryId;
      activeQuery := [];
      activeSuggestions := None;
      searchBarQuery := [];
      realtimeResults := [];
    }

    /** The main display effect, run after any of its inputs changes. */
    method RefreshMainDisplay()
      modifies this
      ensures mainDisplay == MainDisplay(old(mainDisplay), allTools, categories, activeQuery, activeSuggestions,
                                         selectedCategoryId)
      ensures allTools == old(allTools) && categories == old(categories) && activeQuery == old(activeQuery)
      ensures activeSuggestions == old(activeSuggestions) && selectedCategoryId == old(selectedCategoryId)
      ensures searchBarQuery == old(searchBarQuery) && realtimeResults == old(realtimeResults)
      ensures realtimeSuggestions == old(realtimeSuggestions)
    {
      if |allTools| == 0 {
        return;
      }
      var toolsToDisplay := MainSelection(allTools, categories, activeQuery, activeSuggestions, selectedCategoryId);
      toolsToDisplay := SortWith(toolsToDisplay, MostUpvotedFirst);
      mainDisplay := toolsToDisplay;
    }
  }

  /** Clicking a category after a submitted search brings back the category view. */
  lemma CategoryClickEndsSearch(current: seq<Tool>, all: seq<Tool>, categories: seq<ToolCategory>, id: String)
    requires all != [] && id != [] && id != "all"
    ensures forall t :: t in MainDisplay(current, all, categories, [], None, id) <==> t in all && id in t.categories
  {
    MainDisplayByCategory(current, all, categories, None, id);
  }
}
