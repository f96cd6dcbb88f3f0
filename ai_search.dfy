/**
 * Search-query analysis: the cached language-model suggestion, its clean-up, and the keyword-based
 * suggestion used whenever the model is unavailable.
 */
module AiSearch {
  import opened Wrappers
  import opened Strings
  import opened Seqs
  import opened Types

  // ---------------------------------------------------------------------------------------------
  // The basic suggestion

  /** The keyword-to-category table of the basic suggestion. */
  const KeywordCategoryMap: map<String, seq<String>> := map[
    "image" := ["Image Gen", "Design"],
    "photo" := ["Image Gen", "Design"],
    "picture" := ["Image Gen", "Design"],
    "art" := ["Image Gen", "Design"],
    "design" := ["Design", "Image Gen"],
    "write" := ["Text Gen", "Marketing"],
    "text" := ["Text Gen", "Marketing"],
    "content" := ["Text Gen", "Marketing"],
    "code" := ["Code Assistant", "Productivity"],
    "programming" := ["Code Assistant", "Productivity"],
    "chat" := ["Chatbot"],
    "talk" := ["Chatbot"],
    "conversation" := ["Chatbot"],
    "video" := ["Video AI", "Video Creation"],
    "music" := ["Audio AI"],
    "audio" := ["Audio AI"],
    "data" := ["Analytics", "Research"],
    "analysis" := ["Analytics", "Research"],
    "business" := ["Business", "Productivity"],
    "productivity" := ["Productivity"],
    "marketing" := ["Marketing", "Text Gen"],
    "copy" := ["Marketing", "Text Gen"],
    "copywriting" := ["Marketing", "Text Gen"],
    "advertising" := ["Marketing"],
    "ads" := ["Marketing"],
    "campaign" := ["Marketing"],
    "social" := ["Marketing"],
    "email" := ["Marketing", "Text Gen"],
    "seo" := ["Marketing"],
    "blog" := ["Marketing", "Text Gen"],
    "jasper" := ["Marketing", "Text Gen"],
    "automation" := ["Automation"],
    "nocode" := ["No-Code"],
    "education" := ["Education"],
    "research" := ["Research"],
    "coding" := ["Coding"]]

  /** The table's categories for a keyword, none for a keyword that is not one of its own keys. */
  function Mapped(keyword: String): seq<String> {
    if keyword in KeywordCategoryMap then KeywordCategoryMap[keyword] else []
  }

  /** The query's keywords: lower-cased, split on single spaces, empty pieces dropped. */
  function QueryKeywords(query: String): seq<String> {
    Words(ToLower(query))
  }

  /** The name test: the lower-cased query contains the whole lower-cased name or one of its space-separated pieces. */
  predicate NameMatches(lowerQuery: String, name: String) {
    var n := ToLower(name);
    Contains(lowerQuery, n) || exists i :: 0 <= i < |Split(n, ' ')| && Contains(lowerQuery, Split(n, ' ')[i])
  }

  /** The names of the name-matched categories, in category order. */
  function NameMatched(lowerQuery: String, available: seq<ToolCategory>): seq<String>
    decreases |available|
  {
    if available == [] then []
    else
      var last := available[|available| - 1];
      NameMatched(lowerQuery, available[..|available| - 1]) + (if NameMatches(lowerQuery, last.name) then [last.name] else [])
  }

  predicate IsAvailable(available: seq<ToolCategory>, name: String) {
    exists i :: 0 <= i < |available| && available[i].name == name
  }

  /** Adds, in order, each candidate that is an available name and not yet in the list. */
  function AddNew(matched: seq<String>, candidates: seq<String>, available: seq<ToolCategory>): seq<String>
    decreases |candidates|
  {
    if candidates == [] then matched
    else
      var m := AddNew(matched, candidates[..|candidates| - 1], available);
      var c := candidates[|candidates| - 1];
      if IsAvailable(available, c) && c !in m then m + [c] else m
  }

  /** The keyword step: the table's categories of each keyword, in keyword order. */
  function AddMapped(matched: seq<String>, keywords: seq<String>, available: seq<ToolCategory>): seq<String>
    decreases |keywords|
  {
    if keywords == [] then matched
    else AddNew(AddMapped(matched, keywords[..|keywords| - 1], available), Mapped(keywords[|keywords| - 1]), available)
  }

  /** All matched categories, name-matched first, before the cut to three. */
  function MatchedCategories(query: String, available: seq<ToolCategory>): seq<String> {
    AddMapped(NameMatched(ToLower(query), available), QueryKeywords(query), available)
  }

  /** `createBasicSuggestion`, looking keywords up among the table's own keys only. */
  function BasicSuggestion(query: String, available: seq<ToolCategory>): AISearchSuggestion {
    AISearchSuggestion(SliceTo(MatchedCategories(query, available), 3), SliceTo(QueryKeywords(query), 5))
  }

  /**
   * `createBasicSuggestion` with its two `forEach` loops: the name test over the categories, then the
   * table lookup for every keyword.
   */
  method CreateBasicSuggestion(query: String, available: seq<ToolCategory>) returns (s: AISearchSuggestion)
    ensures s == BasicSuggestion(query, available)
  {
    var lowerQuery := ToLower(query);
    var keywords := Words(lowerQuery);
    var matched := CollectNameMatches(lowerQuery, available);
    var k := 0;
    while k < |keywords|
      invariant 0 <= k <= |keywords|
      invariant matched == AddMapped(NameMatched(lowerQuery, available), keywords[..k], available)
    {
      AddMappedStep(NameMatched(lowerQuery, available), keywords, k, available);
      matched := PushNew(matched, Mapped(keywords[k]), available);
      k := k + 1;
    }
    assert keywords[..|keywords|] == keywords;
    s := AISearchSuggestion(SliceTo(matched, 3), SliceTo(keywords, 5));
  }

  /** One more keyword adds its table entries to what the keywords before it gave. */
  lemma AddMappedStep(matched: seq<String>, keywords: seq<String>, k: nat, available: seq<ToolCategory>)
    requires k < |keywords|
    ensures AddMapped(matched, keywords[..k + 1], available)
         == AddNew(AddMapped(matched, keywords[..k], available), Mapped(keywords[k]), available)
  {
    var prefix := keywords[..k + 1];
    assert prefix[..|prefix| - 1] == keywords[..k];
    assert prefix[|prefix| - 1] == keywords[k];
  }

  /** The first loop: every category whose name passes the name test is pushed. */
  method CollectNameMatches(lowerQuery: String, available: seq<ToolCategory>) returns (matched: seq<String>)
    ensures matched == NameMatched(lowerQuery, available)
  {
    matched := [];
    var i := 0;
    while i < |available|
      invariant 0 <= i <= |available|
      invariant matched == NameMatched(lowerQuery, available[..i])
    {
      assert available[..i + 1][..i] == available[..i];
      if NameMatches(lowerQuery, available[i].name) {
        matched := matched + [available[i].name];
      }
      i := i + 1;
    }
    assert available[..|available|] == available;
  }

  /** The inner loop: each candidate that is an available name and not yet matched is pushed. */
  method PushNew(matched0: seq<String>, candidates: seq<String>, available: seq<ToolCategory>) returns (matched: seq<String>)
    ensures matched == AddNew(matched0, candidates, available)
  {
    matched := matched0;
    var j := 0;
    while j < |candidates|
      invariant 0 <= j <= |candidates|
      invariant matched == AddNew(matched0, candidates[..j], available)
    {
      assert candidates[..j + 1][..j] == candidates[..j];
      if IndexOfKey(available, CategoryNameOf, candidates[j]) >= 0 && candidates[j] !in matched {
        matched := matched + [candidates[j]];
      }
      j := j + 1;
    }
    assert candidates[..|candidates|] == candidates;
  }

  /** A name is name-matched exactly when some available category with that name passes the name test. */
  lemma {:induction false} NameMatchedMembership(lowerQuery: String, available: seq<ToolCategory>, name: String)
    ensures name in NameMatched(lowerQuery, available) <==>
      exists i :: 0 <= i < |available| && available[i].name == name && NameMatches(lowerQuery, name)
    decreases |available|
  {
    if available != [] {
      var init := available[..|available| - 1];
      NameMatchedMembership(lowerQuery, init, name);
      assert forall i :: 0 <= i < |init| ==> init[i] == available[i];
    }
  }

  /** The keyword step keeps what was matched before it, as a prefix. */
  lemma {:induction false} AddNewExtends(matched: seq<String>, candidates: seq<String>, available: seq<ToolCategory>)
    ensures var r := AddNew(matched, candidates, available); |matched| <= |r| && r[..|matched|] == matched
    decreases |candidates|
  {
    if candidates != [] {
      AddNewExtends(matched, candidates[..|candidates| - 1], available);
    }
  }

  lemma {:induction false} AddMappedExtends(matched: seq<String>, keywords: seq<String>, available: seq<ToolCategory>)
    ensures var r := AddMapped(matched, keywords, available); |matched| <= |r| && r[..|matched|] == matched
    decreases |keywords|
  {
    if keywords != [] {
      var m := AddMapped(matched, keywords[..|keywords| - 1], available);
      AddMappedExtends(matched, keywords[..|keywords| - 1], available);
      AddNewExtends(m, Mapped(keywords[|keywords| - 1]), available);
      assert AddMapped(matched, keywords, available)[..|m|] == m;
    }
  }

  /** Whatever the keyword step adds is available and different from everything before it. */
  predicate AddsFresh(matched: seq<String>, r: seq<String>, available: seq<ToolCategory>) {
    |matched| <= |r|
    && (forall j :: |matched| <= j < |r| ==> IsAvailable(available, r[j]))
    && (forall i, j :: 0 <= i < j < |r| && |matched| <= j ==> r[i] != r[j])
  }

  lemma {:induction false} AddNewFresh(matched: seq<String>, candidates: seq<String>, available: seq<ToolCategory>)
    ensures AddsFresh(matched, AddNew(matched, candidates, available), available)
    decreases |candidates|
  {
    if candidates != [] {
      AddNewFresh(matched, candidates[..|candidates| - 1], available);
      AddNewExtends(matched, candidates[..|candidates| - 1], available);
    }
  }

  lemma {:induction false} AddsFreshTrans(a: seq<String>, b: seq<String>, c: seq<String>, available: seq<ToolCategory>)
    requires AddsFresh(a, b, available) && AddsFresh(b, c, available)
    requires b == c[..|b|]
    ensures AddsFresh(a, c, available)
  {
    forall i, j | 0 <= i < j < |c| && |a| <= j
      ensures c[i] != c[j]
    {
      if j < |b| {
        assert c[i] == b[i] && c[j] == b[j];
      }
    }
    forall j | |a| <= j < |c|
      ensures IsAvailable(available, c[j])
    {
      if j < |b| {
        assert c[j] == b[j];
      }
    }
  }

  lemma {:induction false} AddMappedFresh(matched: seq<String>, keywords: seq<String>, available: seq<ToolCategory>)
    ensures AddsFresh(matched, AddMapped(matched, keywords, available), available)
    decreases |keywords|
  {
    if keywords != [] {
      var m := AddMapped(matched, keywords[..|keywords| - 1], available);
      AddMappedFresh(matched, keywords[..|keywords| - 1], available);
      AddNewFresh(m, Mapped(keywords[|keywords| - 1]), available);
      AddNewExtends(m, Mapped(keywords[|keywords| - 1]), available);
      AddsFreshTrans(matched, m, AddMapped(matched, keywords, available), available);
    }
  }

  /** The candidate step adds exactly the available candidates that were not matched yet. */
  lemma {:induction false} AddNewMembership(matched: seq<String>, candidates: seq<String>, available: seq<ToolCategory>, x: String)
    ensures x in AddNew(matched, candidates, available) <==> x in matched || (IsAvailable(available, x) && x in candidates)
    decreases |candidates|
  {
    if candidates != [] {
      var init := candidates[..|candidates| - 1];
      AddNewMembership(matched, init, available, x);
      assert candidates == init + [candidates[|candidates| - 1]];
    }
  }

  /** The table's entries for the keywords, in keyword order. */
  function KeywordCategories(keywords: seq<String>): seq<String>
    decreases |keywords|
  {
    if keywords == [] then [] else KeywordCategories(keywords[..|keywords| - 1]) + Mapped(keywords[|keywords| - 1])
  }

  /** The keyword step adds exactly the available categories the table gives for some keyword. */
  lemma {:induction false} AddMappedMembership(matched: seq<String>, keywords: seq<String>, available: seq<ToolCategory>, x: String)
    ensures x in AddMapped(matched, keywords, available) <==>
      x in matched || (IsAvailable(available, x) && x in KeywordCategories(keywords))
    decreases |keywords|
  {
    if keywords != [] {
      var init := keywords[..|keywords| - 1];
      AddMappedMembership(matched, init, available, x);
      AddNewMembership(AddMapped(matched, init, available), Mapped(keywords[|keywords| - 1]), available, x);
    }
  }

  /**
   * The matched categories are exactly the available names that pass the name test, and the
   * available names the table gives for some keyword of the query.
   */
  lemma MatchedCategoriesMembership(query: String, available: seq<ToolCategory>)
    ensures var keywords := QueryKeywords(query);
      forall x :: x in MatchedCategories(query, available) <==>
        (IsAvailable(available, x) && NameMatches(ToLower(query), x))
        || (IsAvailable(available, x) && x in KeywordCategories(keywords))
  {
    var keywords := QueryKeywords(query);
    var named := NameMatched(ToLower(query), available);
    forall x
      ensures x in MatchedCategories(query, available) <==>
        (IsAvailable(available, x) && NameMatches(ToLower(query), x))
        || (IsAvailable(available, x) && x in KeywordCategories(keywords))
    {
      AddMappedMembership(named, keywords, available, x);
      NameMatchedMembership(ToLower(query), available, x);
    }
  }

  /**
   * The basic suggestion has at most three categories, all available names, the name-matched ones
   * first and the table's additions after them without repeats; before the cut, the categories are
   * exactly the available names that pass the name test or that the table gives for a keyword. Its
   * keywords are the first five words of the lower-cased query, each non-empty and without spaces.
   */
  lemma BasicSuggestionSpec(query: String, available: seq<ToolCategory>)
    ensures var s := BasicSuggestion(query, available);
      var named := NameMatched(ToLower(query), available);
      var all := MatchedCategories(query, available);
      var keywords := QueryKeywords(query);
      |s.categories| <= 3 && |s.keywords| <= 5
      && s.categories == all[..|s.categories|]
      && |named| <= |all| && all[..|named|] == named
      && (forall j :: |named| <= j < |all| ==> IsAvailable(available, all[j]))
      && (forall i, j :: 0 <= i < j < |all| && |named| <= j ==> all[i] != all[j])
      && (forall i :: 0 <= i < |s.categories| ==> IsAvailable(available, s.categories[i]))
      && s.keywords == QueryKeywords(query)[..|s.keywords|]
      && (forall i :: 0 <= i < |s.keywords| ==> s.keywords[i] != [] && ' ' !in s.keywords[i])
      && (forall x :: x in all <==>
            (IsAvailable(available, x) && NameMatches(ToLower(query), x))
            || (IsAvailable(available, x) && x in KeywordCategories(keywords)))
  {
    MatchedCategoriesMembership(query, available);
    var s := BasicSuggestion(query, available);
    var named := NameMatched(ToLower(query), available);
    var all := MatchedCategories(query, available);
    AddMappedExtends(named, QueryKeywords(query), available);
    AddMappedFresh(named, QueryKeywords(query), available);
    forall i | 0 <= i < |s.categories|
      ensures IsAvailable(available, s.categories[i])
    {
      assert s.categories[i] == all[i];
      if i < |named| {
        assert all[i] == named[i];
        NameMatchedMembership(ToLower(query), available, named[i]);
      }
    }
  }

  // ---------------------------------------------------------------------------------------------
  // The basic suggestion as written: the table is a plain object literal

  /**
   * The lower-case members every object literal inherits. Looking one of them up in the table gives a
   * value without a `forEach` method, and the call to it throws a `TypeError`.
   */
  const InheritedMembers: set<String> := {"constructor", "__proto__"}

  const ForEachTypeError := "TypeError: mappedCategories.forEach is not a function"

  /** `createBasicSuggestion` as written: a keyword naming an inherited member makes it throw. */
  function BasicSuggestionAsWritten(query: String, available: seq<ToolCategory>): Result<AISearchSuggestion, String> {
    var keywords := QueryKeywords(query);
    if exists i :: 0 <= i < |keywords| && keywords[i] in InheritedMembers then Failure(ForEachTypeError)
    else Success(BasicSuggestion(query, available))
  }

  /** The query "constructor" makes the written fallback throw instead of suggesting anything. */
  lemma ConstructorQueryThrows(available: seq<ToolCategory>)
    ensures BasicSuggestionAsWritten("constructor", available) == Failure(ForEachTypeError)
  {
    assert ToLower("constructor") == "constructor";
    WordsOfWord("constructor");
    assert QueryKeywords("constructor")[0] in InheritedMembers;
  }

  /** With own keys only, the same query gets its keyword back and at most three available categories. */
  lemma ConstructorQueryCorrected(available: seq<ToolCategory>)
    ensures var s := BasicSuggestion("constructor", available);
      s.keywords == ["constructor"] && |s.categories| <= 3
      && forall i :: 0 <= i < |s.categories| ==> IsAvailable(available, s.categories[i])
  {
    assert ToLower("constructor") == "constructor";
    WordsOfWord("constructor");
    BasicSuggestionSpec("constructor", available);
  }

  /** Away from the inherited members the written fallback and the corrected one agree. */
  lemma AsWrittenAgrees(query: String, available: seq<ToolCategory>)
    requires forall i :: 0 <= i < |QueryKeywords(query)| ==> QueryKeywords(query)[i] !in InheritedMembers
    ensures BasicSuggestionAsWritten(query, available) == Success(BasicSuggestion(query, available))
  {
  }

  // ---------------------------------------------------------------------------------------------
  // The model's suggestion and the cache

  /** The parsed reply's two fields; `None` when absent or, for keywords, not an array. */
  datatype ParsedSuggestion = ParsedSuggestion(categories: Option<seq<String>>, keywords: Option<seq<String>>)

  /** The request's outcome: it failed (a thrown error or a non-OK status), or the reply's message content. */
  datatype SearchReply = RequestFailed | Reply(content: Option<String>)

  function CategoryNames(available: seq<ToolCategory>): seq<String> {
    seq(|available|, i requires 0 <= i < |available| => available[i].name)
  }

  /** The clean-up of a parsed reply: unknown category names dropped, missing fields replaced. */
  function CleanUp(p: ParsedSuggestion, query: String, available: seq<ToolCategory>): (s: AISearchSuggestion)
    ensures forall i :: 0 <= i < |s.categories| ==> IsAvailable(available, s.categories[i])
    ensures p.categories.None? ==> s.categories == []
    ensures p.keywords.Some? ==> s.keywords == p.keywords.value
    ensures p.keywords.None? ==> s.keywords == QueryKeywords(query)
  {
    var names := CategoryNames(available);
    var cats := if p.categories.Some? then Filter(p.categories.value, (c: String) => c in names) else [];
    assert forall i :: 0 <= i < |cats| ==> cats[i] in names;
    AISearchSuggestion(cats, p.keywords.GetOr(QueryKeywords(query)))
  }

  /** The cache key: the query lower-cased and trimmed. */
  function CacheKey(query: String): String {
    Trim(ToLower(query))
  }

  /** The module-level cache of suggestions. */
  class SearchCache {
    var entries: map<String, AISearchSuggestion>

    constructor()
      ensures entries == map[]
    {
      entries := map[];
    }

    /** `getSearchCacheSize`. */
    function Size(): nat
      reads this
    {
      |entries|
    }

    /** `clearSearchCache`. */
    method Clear()
      modifies this
      ensures entries == map[] && Size() == 0
    {
      entries := map[];
    }

    /**
     * `analyzeSearchQueryWithAI`. A blank query gives nothing; a cached key gives the stored value; a
     * missing key or a failed request gives the basic suggestion, not cached; a reply that does not
     * parse gives the basic suggestion, cached; a parsed reply is cleaned up and cached.
     */
    method Analyze(query: String, available: seq<ToolCategory>, hasApiKey: bool, reply: SearchReply,
                   parse: String -> Option<ParsedSuggestion>) returns (r: Option<AISearchSuggestion>)
      modifies this
      ensures IsBlank(query) ==> r == None && entries == old(entries)
      ensures !IsBlank(query) && CacheKey(query) in old(entries) ==>
        r == Some(old(entries)[CacheKey(query)]) && entries == old(entries)
      ensures !IsBlank(query) && CacheKey(query) !in old(entries) ==>
        r == Some(AnalyzedUncached(query, available, hasApiKey, reply, parse))
        && entries == (if Caches(query, hasApiKey, reply) then old(entries)[CacheKey(query) := r.value] else old(entries))
    {
      if IsBlank(query) {
        return None;
      }
      var key := CacheKey(query);
      if key in entries {
        return Some(entries[key]);
      }
      var suggestion := SuggestUncached(query, available, hasApiKey, reply, parse);
      if Caches(query, hasApiKey, reply) {
        entries := entries[key := suggestion];
      }
      r := Some(suggestion);
    }
  }

  /** The uncached path: no key, a failed request or an empty reply give the basic suggestion; else the parse decides. */
  method SuggestUncached(query: String, available: seq<ToolCategory>, hasApiKey: bool, reply: SearchReply,
                         parse: String -> Option<ParsedSuggestion>) returns (s: AISearchSuggestion)
    ensures s == AnalyzedUncached(query, available, hasApiKey, reply, parse)
  {
    if !hasApiKey {
      s := CreateBasicSuggestion(query, available);
      return;
    }
    match reply
    case RequestFailed =>
      s := CreateBasicSuggestion(query, available);
    case Reply(content) =>
      var text := if content.Some? then Trim(content.value) else [];
      if text == [] {
        s := CreateBasicSuggestion(query, available);
      } else {
        match parse(text)
        case None =>
          s := CreateBasicSuggestion(query, available);
        case Some(p) =>
          s := CleanUp(p, query, available);
      }
  }

  /** The reply's text, trimmed; empty when there is none. */
  function ReplyText(reply: SearchReply): String {
    if reply.Reply? && reply.content.Some? then Trim(reply.content.value) else []
  }

  /** Only a request that returned some text leads to a cache write, whether or not it parses. */
  predicate Caches(query: String, hasApiKey: bool, reply: SearchReply) {
    hasApiKey && ReplyText(reply) != []
  }

  /** The suggestion given for a query that is not blank and not cached. */
  function AnalyzedUncached(query: String, available: seq<ToolCategory>, hasApiKey: bool, reply: SearchReply,
                            parse: String -> Option<ParsedSuggestion>): AISearchSuggestion
  {
    if !Caches(query, hasApiKey, reply) then BasicSuggestion(query, available)
    else match parse(ReplyText(reply))
      case None => BasicSuggestion(query, available)
      case Some(p) => CleanUp(p, query, available)
  }

  /** Every suggestion handed out names only available categories when the model's reply parsed. */
  lemma AnalyzedCategoriesAvailable(query: String, available: seq<ToolCategory>, hasApiKey: bool, reply: SearchReply,
                                    parse: String -> Option<ParsedSuggestion>)
    ensures var s := AnalyzedUncached(query, available, hasApiKey, reply, parse);
      |s.categories| <= 3 || (Caches(query, hasApiKey, reply) && parse(ReplyText(reply)).Some?)
    ensures forall i :: 0 <= i < |AnalyzedUncached(query, available, hasApiKey, reply, parse).categories| ==>
      IsAvailable(available, AnalyzedUncached(query, available, hasApiKey, reply, parse).categories[i])
  {
    BasicSuggestionSpec(query, available);
  }

  /** Two queries that differ only in case and surrounding white space share one cache entry. */
  lemma CacheKeyNormalises(query: String)
    ensures CacheKey(CacheKey(query)) == CacheKey(query)
  {
    TrimKeepsLower(query);
    TrimIdempotent(Trim(ToLower(query)));
  }
}
