# AI Tool Galaxy core, modelled in Dafny

AI Tool Galaxy is a catalogue web app for AI tools. Visitors browse, search, filter and upvote
tools. Signed-in users keep favorites, submit tools and post in a small forum. Administrators
generate tool entries from a website URL, review submitted entries, and approve or reject them.
This project models the deterministic logic behind those features and proves properties of it:

- **Stores.** The in-memory tool catalogue (`ToolService.ToolStore`), the forum threads and
  comments (`ForumService.ForumStore`) and the newsletter issues (`NewsletterService`) are classes
  whose `seq` fields the operations update in place. Each operation states its whole new state:
  one record gains an upvote, a record is put first, a record is merged or deleted, and nothing
  else changes.
- **Catalogue queries.** These are `getTools` (conjunctive filters, then the sort quirk that
  yields ascending order both ways, then the limit), the explore page's `applyFilters`, the home
  page's realtime and submitted searches, and the period top lists. The filters are proved sound
  and complete against their predicates. The sorts are proved sorted, stable where the source's
  sort is stable, and idempotent where the source promises it. A limited list is proved to be the
  first tools of its sorted input: its tools pass the filter, and no passing tool left out ranks
  above a kept one.
- **Extraction pipelines.**
  - `ProductionExtraction`: the three strategies tried in a fixed order, each strategy's checks,
    the page-text normalisation, the defaults filled in after the model's reply, the logo
    resolution and the ordered logo probe.
  - `AiExtraction`: the proxy loop, the direct-fetch fallback, the blocked-page check, the
    defaults and the error wrapping.
  - Remote answers, the language model's reply and the DOM queries are inputs.
- **Search suggestions.** `AiSearch` covers the fallback suggestion, the clean-up of the model's
  reply, and the query cache keyed by the lower-cased, trimmed query.
- **Pages and components.**
  - The add, edit, submit, autofill, review, settings and forums pages, as classes holding their
    form state. The list editors keep the rule that a list is never empty. The views also hold
    the checkbox toggles, the validation and normalisation at submit, and the review queue with
    its processing set.
  - The favorites kept by the auth context, with reverts on failure.
  - The screenshot carousel's wrap-around, and the one-shot upvote button and thread card.
- **Database script.** `InitDatabase` covers the SQL statement splitter and the loop that sends
  each statement once.

Time is an integer number of milliseconds. Ids, timestamps, the browser's storage, confirmation
dialogs and remote results are parameters. Strings are `seq<char>`. Letter case is folded on
ASCII letters only. White space is the set that `\s` and `trim()` recognise.

Shared modules:

- `Wrappers` defines `Option` and `Result`.
- `Types` holds the records of `types.ts`.
- `Strings` models `trim`, `toLowerCase`, `includes`, `split`/`join`, `replace` with a string
  pattern, white-space collapsing and `substring`.
- `Seqs` models `filter`, `slice`, `findIndex`, removal and the toggle.
- `Sorting` is a stable insertion sort, with its permutation, order and stability lemmas. It also
  relates a difference-of-keys comparator to the sort by key.
- `ListEditor` holds the list helpers the forms share.
- `ToolForms` holds the mapping from extracted details to the add and edit forms.

TypeScript's string-literal unions (`PricingTier`, `SourceType`) are strings here. The source
assigns strings from the language model to them through unchecked casts, so they can hold any
text at run time.

## Model

| member | source | states |
|---|---|---|
| ToolService.CategoryStageFilters | services/toolService.ts:232-235 | the category stage keeps exactly the tools listing the category, and keeps everything when the category is absent or 'all' |
| ToolService.SearchStageFilters | services/toolService.ts:237-244 | the search stage keeps exactly the tools whose lower-cased name, short description or some tag contains the lower-cased term; an empty term keeps everything |
| ToolService.TagsStageFilters | services/toolService.ts:246-250 | the tags stage keeps exactly the tools having every requested tag, compared case-insensitively by equality; an empty tag list keeps everything |
| ToolService.PricingStageFilters | services/toolService.ts:252-254 | the pricing stage keeps exactly the tools whose pricing is listed; an empty list keeps everything |
| ToolService.SourceStageFilters | services/toolService.ts:256-258 | the source stage keeps exactly the tools whose source is listed; an empty list keeps everything |
| ToolService.FilterStagesConjunctive | services/toolService.ts:229-259 | the filter chain equals one filter by the conjunction of the five filters, in input order; no filters object keeps every tool |
| ToolService.ComparatorIsKeyDifference | services/toolService.ts:261-268 | the sort comparator is the difference of one integer key, negated for 'desc' |
| ToolService.ComparatorKeyVersusAscending | services/toolService.ts:261-273 | the comparator's key is the ascending key exactly when no reversal follows, and its negation when one does |
| ToolService.SortStageAscending | services/toolService.ts:261-273 | for every sortBy and sortOrder, sorting then the conditional reverse leaves the list non-decreasing in the key and a permutation of its input |
| ToolService.SortStageTies | services/toolService.ts:261-273 | tools with equal keys keep their filtered order when no reversal follows and come in reverse order when one does |
| ToolService.GetToolsSound | services/toolService.ts:207-280 | every tool getTools returns comes from the mock tools plus the remote tools, passes every filter, and the result ascends in the sort key |
| ToolService.StagesKeepMatching | services/toolService.ts:229-259 | a tool kept by the filter chain is in the input and matches the filters |
| ToolService.GetToolsComplete | services/toolService.ts:226-280 | without a limit, or with 0, every matching tool is returned exactly as often as it occurs in the input |
| ToolService.GetToolsLimit | services/toolService.ts:276-280 | the limited result is a prefix of the unlimited one: min(limit, n) tools for a positive limit, all for 0, and JavaScript's negative-end slice otherwise |
| ToolService.DescendingRequestIsAscending | services/toolService.ts:261-273 | a ('upvotes', 'desc') request returns the tools in non-decreasing upvote order |
| ToolService.GetToolById | services/toolService.ts:288-303 | a mock tool with the id is returned when one exists; otherwise the result is the remote lookup |
| ToolService.FoundTools | services/toolService.ts:445-447 | the resolved trending tools number at most the ids |
| ToolService.TrendingToolsShape | services/toolService.ts:444-455 | with enough resolved trending tools the result is a prefix of them (at most 4); otherwise it is the fallback query, drawn from the catalogue and ascending in upvotes |
| ToolService.TopByUpvotesSpec | services/toolService.ts:460-462 | a top list is exactly the first min(limit, n) tools of the stable sort by upvotes, most first: drawn from its input with multiplicity, with non-increasing upvotes |
| ToolService.TopByUpvotesKeepsTheMost | services/toolService.ts:460-462 | no tool that a top list leaves out has more upvotes than any tool it keeps |
| ToolService.PeriodListsRespectCutoff | services/toolService.ts:457-480 | every tool in today's list was updated or created since midnight; the week and month lists hold only mock tools created in the last 7 or 30 days |
| ToolService.PeriodMember | services/toolService.ts:460-478 | a tool in a top list of the tools passing a cutoff is a mock tool passing it |
| ToolService.PeriodOutranked | services/toolService.ts:460-462 | a mock tool that passes the cutoff but is missing from the top list has at most the upvotes of each listed tool |
| ToolService.PeriodListsKeepTheMost | services/toolService.ts:457-480 | for each of the today, week and month lists, every mock tool passing that list's cutoff but left out has at most the upvotes of each listed tool |
| ToolService.ApplyUpdates | services/toolService.ts:398 | the merged tool always carries the new updatedAt |
| ToolService.NoUpdatesOnlyTouchesTime | services/toolService.ts:398 | an empty update changes only updatedAt |
| ToolService.ApplyUpdatesIdempotent | services/toolService.ts:398 | merging the same update twice equals merging it once |
| ToolService.NameOnlyUpdate | services/toolService.ts:398 | a field absent from the update keeps its stored value |
| ToolService.AdminTool | services/toolService.ts:367-386 | the admin-added tool has a non-empty name, categories, pricing and source, no upvotes or comments and the 'admin1' submitter; the logo follows the precedence parameter > details > placeholder; empty categories become the first mock category |
| ToolService.AdminToolDefaults | services/toolService.ts:369-381 | for empty details the defaults are 'Untitled Tool', ['image-generation'], 'Freemium', 'Closed Source' and the two 'No ... provided.' descriptions |
| ToolService.UpvoteRaisesTotalByOne | services/toolService.ts:318 | one more upvote on one tool raises the store's total by exactly one |
| ToolService.ToolStore.UpvoteTool | services/toolService.ts:313-325 | the first tool with the id gains exactly one upvote and nothing else changes; an unknown id returns nothing and leaves the store as it was |
| ToolService.ToolStore.AddCommentToTool | services/toolService.ts:327-345 | the comment returned carries the toolId, the new id, the time and every field the caller supplied (user id, username, avatar, text, upvotes); it is appended to the first tool with that id and nothing else changes; an unknown id returns nothing and changes nothing |
| ToolService.ToolStore.SubmitTool | services/toolService.ts:347-362 | the tool inserted at index 0 copies every field of the draft and adds the new id, no upvotes, no comments, and `now` as both creation and update time; the rest of the store is unchanged |
| ToolService.ToolStore.AdminAddTool | services/toolService.ts:364-391 | the defaulted record is inserted at index 0 |
| ToolService.ToolStore.UpdateToolDetails | services/toolService.ts:393-405 | only the first tool with the id changes, to the merged record; an unknown id returns nothing and changes nothing |
| ToolService.ToolStore.DeleteTool | services/toolService.ts:407-441 | a 'supabase-' id reports the remote outcome for the stripped id and leaves the store alone; any other id removes exactly the first matching entry, or reports false when there is none |
| ExplorePage.DisplayedMembership | pages/ExplorePage.tsx:81-111 | a tool is displayed iff it is loaded and passes all four filters, and it is displayed as many times as it is loaded |
| ExplorePage.DisplayedOrder | pages/ExplorePage.tsx:111 | the display is sorted by upvotes, most first, and tools with equal upvotes keep their loaded order |
| ExplorePage.EmptyFiltersShowAll | pages/ExplorePage.tsx:85-106 | with no search term and empty lists, every loaded tool is displayed, sorted by upvotes |
| ExplorePage.DisplayedIdempotent | pages/ExplorePage.tsx:81-111 | applying the same filters to the displayed list gives the same list |
| ExplorePage.FilterChain | pages/ExplorePage.tsx:82-108 | the four reassignments keep exactly the tools passing every filter, in their order |
| ExplorePage.SearchStep | pages/ExplorePage.tsx:85-92 | the search step is a filter by a case-insensitive substring of the name, the short description or a tag; an empty term keeps everything |
| ExplorePage.CategoryStep | pages/ExplorePage.tsx:95-98 | the category step keeps a tool iff one of its categories is selected; no selection keeps everything |
| ExplorePage.PricingStep | pages/ExplorePage.tsx:101-103 | the pricing step keeps the tools whose pricing is selected; no selection keeps everything |
| ExplorePage.SourceStep | pages/ExplorePage.tsx:106-108 | the source step keeps the tools whose source is selected; no selection keeps everything |
| ExplorePage.UpvoteSortIsSortBy | pages/ExplorePage.tsx:111 | sorting with `b.upvotes - a.upvotes` is the stable sort by descending upvotes |
| ExplorePage.CheckboxChange | pages/ExplorePage.tsx:132-140 | only the chosen list changes, and it is toggled: an absent value is appended, a present one removed everywhere |
| ExplorePage.CheckboxTwiceRestores | pages/ExplorePage.tsx:132-140 | ticking an unticked box and unticking it again restores the filters |
| ExplorePage.WithCategoryParam | pages/ExplorePage.tsx:67-79 | a non-empty parameter naming a loaded category replaces the category filter with that single id; otherwise the filters are kept |
| ExplorePage.ExploreState.constructor | pages/ExplorePage.tsx:38-54 | after the initial load every tool is displayed and no filter is set |
| ExplorePage.ExploreState.ApplyFilters | pages/ExplorePage.tsx:81-114 | the displayed list becomes the specification function of the current filters over all tools; nothing else changes |
| ExplorePage.ExploreState.HandleCheckboxChange | pages/ExplorePage.tsx:132-140 | only the filters change, by the checkbox toggle |
| ExplorePage.ExploreState.ResetFilters | pages/ExplorePage.tsx:142-150 | the filters are cleared and every loaded tool is displayed in loaded order |
| ExplorePage.ExploreState.ApplyCategoryParam | pages/ExplorePage.tsx:67-79 | only the filters change, by the URL-parameter rule |
| HomePage.CategoryIdByName | pages/HomePage.tsx:106-107 | the id returned belongs to a loaded category with exactly that name; nothing is returned iff no loaded category has it |
| HomePage.ByWordsMember | pages/HomePage.tsx:114-124 | a tool kept by the word filter is loaded and, when there are terms, some lower-cased space-separated word occurs in its lower-cased name, short description or a tag |
| HomePage.ByCategoryMember | pages/HomePage.tsx:127-131 | a tool kept by the category filter is in the input and carries the suggested category when one resolved |
| HomePage.RealtimeResultsSpec | pages/HomePage.tsx:85-137 | realtime results are empty for a blank query; otherwise they are the first min(5, n) of the n filtered tools in the stable sort by upvotes, most first, each loaded, matching a search word when there are terms, and carrying the first suggested category when that name resolves |
| HomePage.RealtimeDrawnFromFiltered | pages/HomePage.tsx:111-131 | every tool drawn from the filtered ones is loaded, matches a search word when there are terms and carries the resolved category |
| HomePage.RealtimeResultsKeepTheMost | pages/HomePage.tsx:111-137 | a loaded tool that passes both realtime filters but is not shown has at most the upvotes of each shown tool |
| HomePage.RealtimeFilteredSpec | pages/HomePage.tsx:98-131 | every filtered tool is loaded, matches a word of the terms (suggested keywords joined, else the query) and carries the resolved category |
| HomePage.RealtimeFindsNameMatch | pages/HomePage.tsx:114-124 | without suggestions, a loaded tool whose lower-cased name contains a query word passes the filter |
| HomePage.RealtimeFilteredComplete | pages/HomePage.tsx:111-131 | a loaded tool that matches a search word when there are terms, and carries the resolved category when there is one, passes the realtime filters |
| HomePage.ResolvedIds | pages/HomePage.tsx:178 | the resolved ids of the suggested category names are all non-empty |
| HomePage.MainDisplayByCategory | pages/HomePage.tsx:189-206 | with no submitted search, 'all' gives an empty display and a specific category gives exactly the loaded tools carrying it |
| HomePage.MainDisplaySubmitted | pages/HomePage.tsx:174-209 | a submitted search displays, sorted by upvotes, exactly the loaded tools that match a word and, when some suggested category resolved, share one of those categories, each as many times as it is loaded |
| HomePage.MainDisplaySubmittedCounts | pages/HomePage.tsx:174-186 | a submitted search selects each matching loaded tool as often as it is loaded, and no other tool |
| HomePage.SubmittedSelectionMatches | pages/HomePage.tsx:177-187 | every tool a submitted search selects is a loaded tool that matches it |
| HomePage.KeywordsNotLowerCased | pages/HomePage.tsx:177 | suggested keywords are used verbatim ("Chat" stays "Chat") while a typed query is lower-cased ("chat") |
| HomePage.UnfilteredQuery | pages/HomePage.tsx:111-136 | with no terms and no category both filters keep the whole list, and the sort only reorders it |
| HomePage.HomeState.constructor | pages/HomePage.tsx:62-77 | the page starts with the 'All Tools' pill before the loaded categories, an empty search and 'all' selected |
| HomePage.HomeState.HandleQueryChange | pages/HomePage.tsx:85-144 | the bar and the suggestions are stored, the realtime results are the specification function of the query; the in-place sort leaves the loaded list reordered when no filter ran |
| HomePage.HomeState.HandleSearchSubmit | pages/HomePage.tsx:147-154 | the query becomes the active search, the category resets to 'all' and the realtime results are cleared |
| HomePage.HomeState.HandleCategoryClick | pages/HomePage.tsx:157-164 | the category is selected and the submitted query, its suggestions, the bar and the realtime results are cleared |
| HomePage.HomeState.RefreshMainDisplay | pages/HomePage.tsx:167-215 | only the main display changes, to the main-display specification function of the current state |
| HomePage.CategoryClickEndsSearch | pages/HomePage.tsx:157-192 | after a category click the main display holds exactly the loaded tools carrying that category |
| ProductionExtraction.ListOr | services/productionExtractionService.ts:271-281 | a list field is kept when it is a non-empty array and is otherwise the one-entry placeholder list; the result is never empty |
| ProductionExtraction.FieldOr | services/productionExtractionService.ts:262-268 | a missing or blank string field falls back to the page's value and then to the placeholder; a present one is kept |
| ProductionExtraction.FillDefaults | services/productionExtractionService.ts:262-281 | after validation the name and description are non-empty, features, use cases and tags are non-empty, given values are kept and each default is the fixed placeholder |
| ProductionExtraction.WithPageLogo | services/productionExtractionService.ts:289-297 | only the logo can change: a page logo starting with 'http' is taken verbatim, a relative one is resolved against the page URL, and a failed resolution or no page logo keeps the reply's logo |
| ProductionExtraction.ProcessWebsiteDataFilled | services/productionExtractionService.ts:250-292 | every successful processing result has a non-empty name and description and non-empty features, use cases and tags |
| ProductionExtraction.ProcessWebsiteDataErrors | services/productionExtractionService.ts:243-286 | a failed request passes its message on, an empty reply fails with 'No response from OpenAI' and an unparsable reply with 'Failed to parse AI response as JSON' |
| ProductionExtraction.HtmlContentNormal | services/productionExtractionService.ts:182-196 | the page text sent on has at most 4000 characters, no runs of white space, only plain spaces and no leading white space (nor trailing when the cut does not split it) |
| ProductionExtraction.BrowserUnauthorized | services/productionExtractionService.ts:74-88 | a 401 from the browser API ends as the JavaScript guidance message, through the 'API key' rewrite |
| ProductionExtraction.AuthMessageMentionsKey | services/productionExtractionService.ts:76-85 | the authentication message contains 'API key', so the rewrite catches it |
| ProductionExtraction.BrowserStatusError | services/productionExtractionService.ts:74-89 | any other failing status gives 'Browser API returned <status>', which the rewrite leaves alone |
| ProductionExtraction.BrowserProcessing | services/productionExtractionService.ts:81-89 | with a good response the page is processed, and only processing errors mentioning a key are rewritten |
| ProductionExtraction.ReadabilityContent | services/productionExtractionService.ts:117 | the content is textContent cut to 4000, else content cut to 4000, else empty, and never longer than 4000 |
| ProductionExtraction.ReadabilityOutcomes | services/productionExtractionService.ts:101-125 | every Readability failure starts with 'Readability extraction failed: ', and a result without content fails with 'No content extracted by Readability API' |
| ProductionExtraction.DirectSpaRule | services/productionExtractionService.ts:150-162 | a good direct response is refused as an application exactly when a marker is present and the trimmed page is shorter than 5000; otherwise it is processed |
| ProductionExtraction.DirectStatusError | services/productionExtractionService.ts:143-145 | a failing direct response gives 'HTTP <status>: <statusText>' |
| ProductionExtraction.StrategiesRejected | services/productionExtractionService.ts:64-142 | a rejected fetch fails each strategy: the browser catch passes its message on, or the guidance when it mentions a key; the readability catch prefixes it; the direct fetch lets it through |
| ProductionExtraction.StrategyOutcomes | services/productionExtractionService.ts:24-28 | there are exactly three strategies, Browser, Readability and Direct, in that order |
| ProductionExtraction.ExtractProductDataFromUrl | services/productionExtractionService.ts:20-54 | the strategies run in order; the first success is returned and no later strategy is invoked; if all three fail the error is 'All extraction methods failed. Last error: ' + the last message; the result succeeds iff some strategy does |
| ProductionExtraction.FindWebsiteLogo | services/productionExtractionService.ts:304-331 | the six fixed paths are probed in order and the first that answers OK is returned; every earlier path failed; no origin or no OK answer gives nothing, after zero or all six probes |
| AiExtraction.FirstAcceptedSpec | services/aiExtractionService.ts:42-74 | the proxy loop yields nothing exactly when no proxy answered OK with more than 1000 characters free of the cookie wall, and otherwise yields the body of such a proxy |
| AiExtraction.FetchHtml | services/aiExtractionService.ts:42-88 | proxies are tried in order and the loop stops at the first acceptable one; every earlier proxy was unacceptable; the direct fetch is tried exactly when no proxy was acceptable, and its body is used only on an OK answer |
| AiExtraction.FirstAcceptedFrom | services/aiExtractionService.ts:62-69 | from any position, the first acceptable body is the current proxy's when it passes the check and otherwise the first acceptable one further on |
| AiExtraction.DirectBodyUnchecked | services/aiExtractionService.ts:77-84 | when every proxy fails, an OK direct answer is taken as the HTML whatever its length or content |
| AiExtraction.AddLogo | services/aiExtractionService.ts:224-226 | only the logo can change; no page logo keeps the data; an absolute one is taken verbatim; a relative one is resolved against the page URL, and a failed resolution makes the call fail with its message |
| AiExtraction.ExtractFromHtml | services/aiExtractionService.ts:93-227 | missing HTML fails with the no-HTML message and blocked HTML with the blocking message; a success only comes from a model reply that parsed, and is that reply with the defaults filled in, changed at most in its logo |
| AiExtraction.RefusedBeforeParsing | services/aiExtractionService.ts:93-110 | missing HTML and HTML with any blocking phrase fail with their fixed messages, whatever the page, the model or the parser would do |
| AiExtraction.CookieWallRefused | services/aiExtractionService.ts:102-109 | HTML showing the cookie wall is always refused as blocked |
| AiExtraction.ExtractFilled | services/aiExtractionService.ts:181-229 | every successful extraction has a non-empty name and description and non-empty features, use cases and tags |
| AiExtraction.AddLogoFilled | services/aiExtractionService.ts:224-226 | adding the logo keeps filled data filled |
| AiExtraction.BodyTextNormal | services/aiExtractionService.ts:129-132 | the text sent to the model is at most 4000 characters, has no runs of white space and no leading white space |
| AiExtraction.ExtractProductDataFromUrl | services/aiExtractionService.ts:42-234 | the result is the extraction of the fetched HTML; every failure carries the outer error prefix in front of the inner message; the direct fetch happens exactly when no proxy was acceptable |
| AiSearch.CreateBasicSuggestion | services/aiSearchService.ts:112-182 | the two loops compute the basic suggestion: the name-matched categories in category order, then each keyword's table categories that are available and new, cut to three, with the first five keywords |
| AiSearch.CollectNameMatches | services/aiSearchService.ts:119-125 | the first loop pushes, in order, exactly the categories whose lower-cased name, or one of its space-separated pieces, occurs in the lower-cased query |
| AiSearch.PushNew | services/aiSearchService.ts:170-174 | the inner loop appends, in order, each candidate that names an available category and is not yet matched |
| AiSearch.AddMappedStep | services/aiSearchService.ts:167-176 | handling one more keyword adds its table entries to what the keywords before it produced |
| AiSearch.NameMatchedMembership | services/aiSearchService.ts:119-125 | a name is among the name matches exactly when an available category of that name passes the name test |
| AiSearch.AddNewExtends | services/aiSearchService.ts:170-174 | the inner loop only appends: what was matched before stays a prefix |
| AiSearch.AddMappedExtends | services/aiSearchService.ts:167-176 | the keyword loop only appends: the name matches stay a prefix |
| AiSearch.AddNewFresh | services/aiSearchService.ts:171 | every category the inner loop appends is available and differs from every entry before it |
| AiSearch.AddsFreshTrans | services/aiSearchService.ts:167-176 | appending fresh, available entries in two rounds is appending fresh, available entries once |
| AiSearch.AddMappedFresh | services/aiSearchService.ts:167-176 | every category the keyword loop appends is available and appears once, never repeating an earlier entry |
| AiSearch.BasicSuggestionSpec | services/aiSearchService.ts:112-182 | the suggestion has at most three categories, all available and a prefix of the matches; the name matches come first and the table's additions never repeat; before the cut the matches are exactly the available names that pass the name test or that the table gives for a query keyword; the keywords are at most the first five non-empty, space-free words of the lower-cased query |
| AiSearch.AddNewMembership | services/aiSearchService.ts:170-174 | the inner loop's list holds exactly what was matched before plus the available candidates |
| AiSearch.AddMappedMembership | services/aiSearchService.ts:167-176 | the keyword loop's list holds exactly what was matched before plus the available names in the table entries of the keywords |
| AiSearch.MatchedCategoriesMembership | services/aiSearchService.ts:119-176 | a name is matched exactly when it is available and either passes the name test or is in the table entry of some query keyword |
| AiSearch.ConstructorQueryThrows | services/aiSearchService.ts:128-176 | as written, the query "constructor" makes the fallback throw a TypeError, because the object literal's inherited member is looked up as a table entry |
| AiSearch.ConstructorQueryCorrected | services/aiSearchService.ts:128-182 | with own keys only, the query "constructor" gets its keyword back and at most three available categories |
| AiSearch.AsWrittenAgrees | services/aiSearchService.ts:167-176 | for queries with no keyword naming an inherited member, the written fallback and the corrected one give the same suggestion |
| AiSearch.CleanUp | services/aiSearchService.ts:79-93 | after clean-up every category is an available name; missing categories become empty; given keywords are kept; missing keywords become the query's lower-cased words |
| AiSearch.SearchCache.constructor | services/aiSearchService.ts:4 | the cache starts empty |
| AiSearch.SearchCache.Clear | services/aiSearchService.ts:185-192 | clearing empties the cache, whose size is then zero |
| AiSearch.SearchCache.Analyze | services/aiSearchService.ts:6-109 | a blank query gives nothing and leaves the cache alone; a cached key returns the stored value; otherwise the uncached suggestion is returned, and it is cached exactly when the model returned some text, whether or not that text parsed |
| AiSearch.SuggestUncached | services/aiSearchService.ts:15-108 | without a key, after a failed request or with an empty reply the basic suggestion is given; an unparseable reply gives the basic suggestion; a parsed one is cleaned up |
| AiSearch.AnalyzedCategoriesAvailable | services/aiSearchService.ts:15-108 | every uncached suggestion names only available categories, and has at most three of them unless it came from a parsed model reply |
| AiSearch.CacheKeyNormalises | services/aiSearchService.ts:10 | the cache key is a fixed point of its own normalisation, so queries differing only in case and surrounding white space share one entry |
| AuthContext.AddedFavorites | contexts/AuthContext.tsx:59 | the new list is the old one with the id appended at the end, so it holds the id once more than before (no duplicate check) |
| AuthContext.RemovedFavorites | contexts/AuthContext.tsx:81 | the new list no longer holds the id and holds every other id as often as before |
| AuthContext.RemovedFavoritesInOrder | contexts/AuthContext.tsx:81 | removal keeps the others in their order: it distributes over concatenation |
| AuthContext.AddThenRemove | contexts/AuthContext.tsx:56-98 | adding an id that was not a favorite and then removing it restores the list |
| AuthContext.FavoriteAfterChange | contexts/AuthContext.tsx:56-102 | after an add the id is a favorite; after a remove it is not |
| AuthContext.AuthState.constructor | contexts/AuthContext.tsx:28-29 | the provider starts with no user and loading |
| AuthContext.AuthState.IsFavorite | contexts/AuthContext.tsx:100-102 | an id is a favorite exactly when there is a user whose favorites hold it |
| AuthContext.AuthState.Logout | contexts/AuthContext.tsx:49-54 | after logout there is no user and loading is over |
| AuthContext.AuthState.AddFavoriteTool | contexts/AuthContext.tsx:56-76 | without a user nothing happens; with one, a persisted add leaves the appended list and a failed one restores the user as it was and rethrows; loading is untouched |
| AuthContext.AuthState.RemoveFavoriteTool | contexts/AuthContext.tsx:78-98 | without a user nothing happens; with one, a persisted removal leaves the list without the id and a failed one restores the user as it was and rethrows; loading is untouched |
| EditToolPage.FailureMessageSpec | pages/EditToolPage.tsx:108 | the extraction error shown is the fixed notice followed by exactly the extraction's own message |
| EditToolPage.EditedToolFields | pages/EditToolPage.tsx:165-190 | a saved edit takes the name, URL and categories as entered, trimmed non-blank features and use cases, non-empty lower-case tags and a trimmed manual logo, and keeps the stored id, upvotes, comments, screenshots, guide, submitter and creation time |
| EditToolPage.SaveUntouchedTool | pages/EditToolPage.tsx:165-190 | opening a clean tool and saving it without edits changes only its update time: the padding added for empty lists is dropped again |
| EditToolPage.EditToolForm.constructor | pages/EditToolPage.tsx:15-35 | the page opens with no tool, URL, form, error or logo, and with the loaded categories |
| EditToolPage.EditToolForm.LoadTool | pages/EditToolPage.tsx:37-69 | a found tool fills the URL, the form and the logo input; a missing one sets the not-found error and goes home; a failed lookup only sets the load error |
| EditToolPage.EditToolForm.SetWebsiteUrl | pages/EditToolPage.tsx:310 | typing sets the URL and nothing else |
| EditToolPage.EditToolForm.SetManualLogoUrl | pages/EditToolPage.tsx:356 | typing sets the logo input and nothing else |
| EditToolPage.EditToolForm.HandleGenerateDetails | pages/EditToolPage.tsx:75-112 | a blank URL only sets an error and requests nothing; a success refills the form and the logo input and clears the error; a failure reports the notice with the message and keeps the form |
| EditToolPage.EditToolForm.ApplyExtraction | pages/EditToolPage.tsx:84-109 | a successful extraction refills the form and the logo input and clears the error; a failed one sets the notice with the message and leaves the form as it was |
| EditToolPage.EditToolForm.HandleListItemChange | pages/EditToolPage.tsx:118-129 | the input at the index takes the value; without a form nothing happens; nothing else changes |
| EditToolPage.EditToolForm.AddListInput | pages/EditToolPage.tsx:131-137 | one empty input is appended to the list; without a form nothing happens |
| EditToolPage.EditToolForm.RemoveListInput | pages/EditToolPage.tsx:139-152 | the entry at the index is removed, and the list keeps at least one input |
| EditToolPage.EditToolForm.HandleCategoryCheckboxChange | pages/EditToolPage.tsx:154-163 | the category is toggled in the form; without a form nothing happens |
| EditToolPage.EditToolForm.HandleUpdateTool | pages/EditToolPage.tsx:165-202 | without a tool, a URL, a name or a category only the missing-fields error is set; otherwise the update is merged into the stored tool of the loaded id and the browser goes to that tool, or an error is shown when the store no longer holds it |
| EditToolPage.EditToolForm.HandleDeleteTool | pages/EditToolPage.tsx:204-225 | without a tool, a route id or a confirmation nothing happens; otherwise the route's tool is deleted and the browser goes home, or the delete error is shown when deletion fails |
| SubmitToolPage.SubmitDraftLists | pages/SubmitToolPage.tsx:113-114 | a feature or use case is submitted exactly when it is one of the inputs and not blank; submitted entries keep their white space |
| SubmitToolPage.SubmitDraftShape | pages/SubmitToolPage.tsx:106-120 | the submitted screenshots are the trimmed non-blank inputs, the logo is trimmed, there are no tags, the source is closed, the categories are the selected ones and the submitter is the signed-in user |
| SubmitToolPage.FreshListsSubmitNothing | pages/SubmitToolPage.tsx:113-116 | submitting the lists as the form opens them, one empty input each, submits no features, use cases or screenshots |
| SubmitToolPage.SubmitToolForm.constructor | pages/SubmitToolPage.tsx:14-31 | the form opens with empty texts, the default pricing, one empty input in each list and no messages |
| SubmitToolPage.SubmitToolForm.HandleCategoryChange | pages/SubmitToolPage.tsx:47-53 | a selected category is unselected and any other one is appended; nothing else changes |
| SubmitToolPage.SubmitToolForm.SetList | pages/SubmitToolPage.tsx:55-76 | setting one list leaves every other list and input as it was |
| SubmitToolPage.SubmitToolForm.HandleDynamicListChange | pages/SubmitToolPage.tsx:55-64 | only the input at the index of that list takes the value; the other lists are unchanged |
| SubmitToolPage.SubmitToolForm.AddDynamicListItem | pages/SubmitToolPage.tsx:66-68 | that list gets one more empty input at the end; the other lists are unchanged |
| SubmitToolPage.SubmitToolForm.RemoveDynamicListItem | pages/SubmitToolPage.tsx:70-76 | the input is removed unless it is the only one, which is emptied; every list keeps at least one input |
| SubmitToolPage.SubmitToolForm.ResetForm | pages/SubmitToolPage.tsx:78-89 | every input is as the page opens it; the messages are kept |
| SubmitToolPage.SubmitToolForm.HandleSubmit | pages/SubmitToolPage.tsx:91-133 | without a user, or without a category, only the matching error is set and the store is untouched; otherwise the whole tool `submitTool` makes from the cleaned draft of the inputs, with the new id, no upvotes and no comments, goes first in the store, the confirmation names it and the form is reset |
| AddToolPage.ExtractionErrorMessageSpec | pages/AddToolPage.tsx:74-82 | the error always carries the extraction's message and ends with the manual-entry hint; it opens with the JavaScript notice exactly when the message mentions JavaScript, SPA or ScrapingBee, and with the generic notice otherwise |
| AddToolPage.ManualDetailsReady | pages/AddToolPage.tsx:85-105 | the blank form can be saved unchanged exactly when the URL is filled in, the suggested name is not blank and there is a category to preselect |
| AddToolPage.AddedToolFields | pages/AddToolPage.tsx:172-182 | the added tool carries the name, categories and URL as entered |
| AddToolPage.AddedToolLists | pages/AddToolPage.tsx:177-179 | the added features and use cases are the trimmed non-blank inputs in order, each clean, and the tags are non-empty and lower-case |
| AddToolPage.AddedToolLogo | pages/AddToolPage.tsx:172 | the logo is the trimmed manual one when it is not blank, else the form's, else a placeholder named after the tool |
| AddToolPage.AddToolForm.constructor | pages/AddToolPage.tsx:15-36 | the page opens with no URL, form, error or logo, and with the loaded categories |
| AddToolPage.AddToolForm.SetWebsiteUrl | pages/AddToolPage.tsx:256 | typing sets the URL and nothing else |
| AddToolPage.AddToolForm.SetManualLogoUrl | pages/AddToolPage.tsx:364 | typing sets the logo input and nothing else |
| AddToolPage.AddToolForm.HandleGenerateDetails | pages/AddToolPage.tsx:38-109 | a blank URL only sets an error and requests nothing; a success fills the form and the logo input from the extraction; a failure sets the explained error and offers the blank form with the suggested name |
| AddToolPage.AddToolForm.ApplyExtraction | pages/AddToolPage.tsx:45-105 | a successful extraction fills the form and the logo input; a failed one sets the explained error and offers the blank form with the suggested name |
| AddToolPage.AddToolForm.EnterManually | pages/AddToolPage.tsx:285-310 | once a URL is typed, skipping the extraction offers the blank form and clears the error |
| AddToolPage.AddToolForm.HandleListItemChange | pages/AddToolPage.tsx:115-126 | the input at the index takes the value; without a form nothing happens |
| AddToolPage.AddToolForm.AddListInput | pages/AddToolPage.tsx:128-134 | one empty input is appended to the list; without a form nothing happens |
| AddToolPage.AddToolForm.RemoveListInput | pages/AddToolPage.tsx:136-149 | the entry at the index is removed, and the list keeps at least one input |
| AddToolPage.AddToolForm.HandleCategoryCheckboxChange | pages/AddToolPage.tsx:152-161 | the category is toggled in the form; without a form nothing happens |
| AddToolPage.AddToolForm.HandleSubmitTool | pages/AddToolPage.tsx:164-190 | a form without a URL, name or category only sets the error and leaves the store alone; a ready one is cleaned and added first in the store with the final logo, and the new tool is returned for navigation |
| AdminAutofillPage.PadList | pages/AdminAutofillPage.tsx:40-46 | a list from the reply is kept when present and non-empty, and is otherwise one empty input; the result always has an input |
| AdminAutofillPage.TextOr | pages/AdminAutofillPage.tsx:38-44 | a present non-empty text is kept and anything else gives the fallback |
| AdminAutofillPage.Prefill | pages/AdminAutofillPage.tsx:37-47 | the prefilled form takes the reply's name, description and logo or empty texts, its pricing or Free, and its non-empty lists; every list has at least one input |
| AdminAutofillPage.WithList | pages/AdminAutofillPage.tsx:57-78 | replacing one array field's list leaves every other list and every text field as it was |
| AdminAutofillPage.MapAt | pages/AdminAutofillPage.tsx:60 | the entry at an index inside the list takes the value, and an index outside it changes nothing |
| AdminAutofillPage.ArrayChange | pages/AdminAutofillPage.tsx:57-62 | on an array field, only that list's entry at the index changes; a text field is left as it is |
| AdminAutofillPage.AddArrayItem | pages/AdminAutofillPage.tsx:64-69 | an array field gets one more empty input at the end; a text field is left as it is |
| AdminAutofillPage.RemoveArrayItem | pages/AdminAutofillPage.tsx:71-78 | the entry at the index is removed only when its list has more than one; otherwise the form is unchanged |
| AdminAutofillPage.WithListKeepsInputs | pages/AdminAutofillPage.tsx:57-78 | replacing a list by one that has an input keeps every list with an input |
| AdminAutofillPage.ListHandlersKeepInputs | pages/AdminAutofillPage.tsx:57-78 | changing, adding and removing entries keep every list with at least one input |
| AdminAutofillPage.RemoveSingleEntryKeepsIt | pages/AdminAutofillPage.tsx:71-78 | the remove button leaves a single entry as it is here, whereas the other forms empty it |
| AdminAutofillPage.PayloadShape | pages/AdminAutofillPage.tsx:90-102 | each saved list holds exactly the form's non-blank entries, untrimmed; the name, description, URL and logo are sent unchanged, with a closed source |
| AdminAutofillPage.EmptyFormPayloadLists | pages/AdminAutofillPage.tsx:81-102 | the form as it opens sends empty lists and cannot be saved |
| AdminAutofillPage.BlankPadDropped | pages/AdminAutofillPage.tsx:95-101 | the single blank padding input is dropped from a saved list |
| AdminAutofillPage.FailureTexts | pages/AdminAutofillPage.tsx:50-120 | each failure message is its notice followed by exactly the error's own message |
| AdminAutofillPage.AutofillPage.constructor | pages/AdminAutofillPage.tsx:6-23 | the page opens with no URL, no extracted data, no message and the empty form |
| AdminAutofillPage.AutofillPage.SetUrl | pages/AdminAutofillPage.tsx:135 | typing sets the URL and nothing else |
| AdminAutofillPage.AutofillPage.HandleExtract | pages/AdminAutofillPage.tsx:25-55 | a blank URL only sets the message and requests nothing; a reply is stored and prefills the form; a failure clears the extracted data, keeps the form and shows the error |
| AdminAutofillPage.AutofillPage.HandleArrayChange | pages/AdminAutofillPage.tsx:57-62 | the form changes as one entry change and nothing else changes |
| AdminAutofillPage.AutofillPage.HandleAddArrayItem | pages/AdminAutofillPage.tsx:64-69 | the form gets one more input in that list and nothing else changes |
| AdminAutofillPage.AutofillPage.HandleRemoveArrayItem | pages/AdminAutofillPage.tsx:71-78 | the form loses that entry when its list has more than one, and nothing else changes |
| AdminAutofillPage.AutofillPage.HandleSubmit | pages/AdminAutofillPage.tsx:80-124 | without a name or description only the message is set and nothing is sent; otherwise the payload of the form is sent, a success resets the page and a failure keeps the form and shows the error |
| AdminAutofillPage.AutofillPage.Save | pages/AdminAutofillPage.tsx:89-121 | the payload is the form's; a successful save clears the URL, the extracted data and the form; a failed one keeps them and shows the error |
| AdminReviewPage.PendingOfSpec | pages/AdminReviewPage.tsx:26-31 | a tool is in the queue exactly when it is in the catalog and its full description is pending, its short description carries the marker, or someone other than the administrator submitted it |
| AdminReviewPage.WithoutIdSpec | pages/AdminReviewPage.tsx:52-73 | dropping an id keeps exactly the entries with other ids, and a queue without that id is unchanged |
| AdminReviewPage.ApprovedToolSpec | pages/AdminReviewPage.tsx:46-49 | approval changes only the descriptions and the update time; the full description is no longer the pending one, a non-pending one is kept, and a short description without the marker is kept |
| AdminReviewPage.ApprovedShortDescription | pages/AdminReviewPage.tsx:47 | with a marker, the approved short description is the text before and after its first occurrence |
| AdminReviewPage.ApprovedAdminToolLeavesQueue | pages/AdminReviewPage.tsx:26-49 | an administrator's tool without a marker is no longer pending once approved |
| AdminReviewPage.ApprovedUserToolStaysPending | pages/AdminReviewPage.tsx:26-49 | approval keeps the submitter, so a user's tool is still pending after approval and returns on the next fetch |
| AdminReviewPage.ReviewState.constructor | pages/AdminReviewPage.tsx:12-14 | the page starts with an empty queue and nothing processing |
| AdminReviewPage.ReviewState.FetchPendingSubmissions | pages/AdminReviewPage.tsx:20-38 | a fetched catalog replaces the queue by its pending tools; a failed fetch leaves the queue as it was |
| AdminReviewPage.ReviewState.HandleApprove | pages/AdminReviewPage.tsx:40-63 | the id is processing during the update and not afterwards; a queued tool gets the approval update in the store and leaves the queue; an id not in the queue changes nothing |
| AdminReviewPage.ReviewState.HandleReject | pages/AdminReviewPage.tsx:65-83 | without confirmation nothing changes; otherwise the id is processing during the delete, the tool is removed from the store unless its id names a database tool, and it leaves the queue whatever the delete reports |
| ForumService.WithCounts | services/forumService.ts:42-44 | each thread is kept in place with its comment count replaced by the number of stored comments carrying its id |
| ForumService.ThreadsListingSpec | services/forumService.ts:38-49 | the listing is a permutation of the counted threads, every count is the number of that thread's comments, it is newest first, and threads of equal time keep their stored order |
| ForumService.ThreadCommentsSpec | services/forumService.ts:67-73 | a comment is listed exactly when it is stored with the thread's id, as often as it is stored; the list's length is the thread's comment count and it is oldest first |
| ForumService.ForumStore.constructor | services/forumService.ts:5-36 | the store starts from the given threads and comments |
| ForumService.ForumStore.GetForumThreads | services/forumService.ts:38-49 | the result is the listing of the current threads and comments; the store is not changed |
| ForumService.ForumStore.GetForumThreadById | services/forumService.ts:51-65 | the first thread with the id is returned with its comment count recomputed, and nothing is returned exactly when no thread has that id |
| ForumService.ForumStore.GetCommentsForThread | services/forumService.ts:67-73 | the result is the thread's comments, oldest first |
| ForumService.ForumStore.CreateForumThread | services/forumService.ts:75-89 | the new thread carries the draft's fields, the new id and time, no upvotes and no comments, and is placed first; comments are unchanged |
| ForumService.ForumStore.AddCommentToThread | services/forumService.ts:91-106 | the new comment carries the draft, the thread id, the new id and time and no upvotes, and is appended, whether or not the thread exists |
| ForumService.ForumStore.UpvoteThread | services/forumService.ts:108-120 | only the first thread with the id gains one upvote and is returned; an unknown id changes nothing |
| ForumService.ForumStore.UpvoteForumComment | services/forumService.ts:122-134 | only the first comment with the id gains one upvote and is returned; an unknown id changes nothing |
| ForumService.CommentCountAfterAdd | services/forumService.ts:44-101 | a new comment raises its own thread's count by one and leaves every other thread's count unchanged |
| ForumsPage.TagPieceClean | pages/ForumsPage.tsx:104 | a piece between commas, trimmed and lower-cased, is empty or a clean tag without commas |
| ForumsPage.ParseTagsShape | pages/ForumsPage.tsx:104 | every tag parsed from the line is non-empty, trimmed, lower-case and free of commas |
| ForumsPage.ParseEmptyLine | pages/ForumsPage.tsx:104 | the empty tag line, as the dialog opens, parses to no tags |
| ForumsPage.ParseJoinedTags | pages/ForumsPage.tsx:104 | clean, comma-free tags written as one comma-separated line parse back to themselves |
| ForumsPage.ParseTagsIdempotent | pages/ForumsPage.tsx:104 | the parsed tags, written out again, parse to the same tags |
| ForumsPage.ThreadUpvoteKeysDistinct | pages/ForumsPage.tsx:13-22 | remembering one thread's upvote marks that thread as upvoted and leaves every other thread's remembered state unchanged |
| ForumsPage.ThreadCard.constructor | pages/ForumsPage.tsx:11-13 | a card starts with the thread's count and with the upvote the browser remembers |
| ForumsPage.ThreadCard.HandleUpvoteClick | pages/ForumsPage.tsx:15-24 | an upvoted card ignores the click; otherwise the store's thread gains one upvote, any failure there is swallowed, the card counts one more and the browser remembers it; the count never exceeds the initial count plus one |
| ForumsPage.ForumsState.constructor | pages/ForumsPage.tsx:66-71 | the page starts with no threads, the dialog closed and empty inputs |
| ForumsPage.ForumsState.FetchThreads | pages/ForumsPage.tsx:77-91 | the page shows the store's listing, newest first with comment counts; the dialog is untouched |
| ForumsPage.ForumsState.HandleCreateThread | pages/ForumsPage.tsx:93-119 | without a user, a title or a content nothing changes and no thread is opened; otherwise the new thread is created, put first on the page and in the store, the dialog closes and resets, and the new thread is opened |
| ForumsPage.ForumsState.CreateThread | pages/ForumsPage.tsx:97-112 | the thread made from the draft goes first on the page and in the store, the dialog closes and resets, and its id is opened |
| ForumsPage.NewThreadTags | pages/ForumsPage.tsx:98-105 | the created thread carries the user's id, name and avatar and the parsed, clean, comma-free tags |
| NewsletterService.IssuesListingSpec | services/newsletterService.ts:22-28 | the listing is a permutation of the stored issues, newest first, with issues sent at the same time in stored order |
| NewsletterService.NewsletterStore.constructor | services/newsletterService.ts:5-20 | the archive starts from the given issues |
| NewsletterService.NewsletterStore.GetNewsletterIssues | services/newsletterService.ts:22-28 | the result is the sorted listing of the issues, as many as are stored, and the stored order is not changed |
| NewsletterService.NewsletterStore.CreateNewsletterIssue | services/newsletterService.ts:30-42 | exactly one issue with the given title, content and summary and the new id and time is appended |
| NewsletterService.NewsletterStore.SendNewsletterIssue | services/newsletterService.ts:45-58 | sending reports true exactly when an issue with that id exists, and changes nothing |
| SupabaseToolService.ConvertProduct | services/supabaseToolService.ts:6-31 | every field of the tool is stated: the id is the product id behind the prefix; missing or empty texts take their fixed defaults, so name and descriptions are never empty and differ when there is no description; a missing logo is the 100x100 placeholder captioned with the name or 'tool'; missing screenshots are the two 600x400 placeholders captioned name+'1' and name+'2'; missing features, use cases and tags are empty while empty ones are kept; missing timestamps are `now`; no upvotes, the general category, no comments, an empty guide, 'admin' as default submitter |
| SupabaseToolService.DatabaseId | services/supabaseToolService.ts:55 | an id without the prefix is looked up as it is |
| SupabaseToolService.DatabaseIdRoundTrip | services/supabaseToolService.ts:8-55 | stripping the prefix from a converted id gives back the product's id |
| SupabaseToolService.GetToolByConvertedId | services/supabaseToolService.ts:52-72 | looking a converted tool up by its own id finds and converts the same product again |
| SupabaseToolService.GetTools | services/supabaseToolService.ts:33-50 | a client error gives no tools; otherwise every returned row is converted, in order; every tool has no upvotes and a prefixed id |
| ToolForms.SetList | pages/AddToolPage.tsx:124 | replacing one list field sets it and leaves every other field as it was |
| ToolForms.ChangeListItem | pages/AddToolPage.tsx:115-126 | the list becomes the rendered inputs with the one at the index changed; every other field is kept |
| ToolForms.AddListItem | pages/AddToolPage.tsx:128-134 | the list gets one more empty input at the end; every other field is kept |
| ToolForms.RemoveListItem | pages/AddToolPage.tsx:136-149 | the entry at the index is removed, or a single entry emptied; the list never becomes empty and every other field is kept |
| ToolForms.AddToMissingList | pages/AddToolPage.tsx:128-134 | a missing list renders one input, and adding to it still renders one input, because the handler starts from no entries |
| ToolForms.ToggleCategory | pages/AddToolPage.tsx:152-161 | a selected category is unselected and any other one appended; nothing else changes |
| ToolForms.DefaultCategories | pages/AddToolPage.tsx:65 | the preselection is the first category's id exactly when there are categories, and nothing otherwise |
| ToolForms.FromExtraction | pages/AddToolPage.tsx:51-66 | the form takes the extracted name, one description for both, the pricing and logo, a closed source and the first category; every list has an input: a non-empty list is kept and an empty one becomes one empty input |
| ToolForms.FromTool | pages/EditToolPage.tsx:46-57 | the form copies every stored field (name, both descriptions, logo, categories, pricing, source); each of the features, use cases and tags is kept when non-empty and becomes one empty input when empty |
| ToolForms.FinalLogo | pages/AddToolPage.tsx:172 | a logo typed by hand that is not blank wins, trimmed; otherwise the form's logo is used |
| ToolForms.CleanListUnchanged | pages/AddToolPage.tsx:177-178 | a list of non-empty, trimmed entries comes through the clean-up unchanged |
| ToolForms.CleanTagsUnchanged | pages/AddToolPage.tsx:179 | a list of clean lower-case tags comes through the tag clean-up unchanged |
| ToolForms.PaddingDropped | pages/AddToolPage.tsx:177-179 | a single empty padding input is dropped by both clean-ups |
| ToolForms.SavedCleanList | pages/EditToolPage.tsx:181-182 | a clean list loaded into the form and saved untouched comes back as it was, padding and all |
| ToolForms.SavedCleanTags | pages/EditToolPage.tsx:183 | a clean tag list loaded into the form and saved untouched comes back as it was |
| ToolForms.Capitalize | pages/AddToolPage.tsx:89 | the first character is upper-cased and the rest kept |
| ToolForms.SuggestedName | pages/AddToolPage.tsx:85-92 | the suggested name contains no dot, and is empty when the URL does not parse |
| ToolForms.FirstLabel | pages/AddToolPage.tsx:88 | the first label contains no dot |
| ToolForms.FirstLabelIsFirstPart | pages/AddToolPage.tsx:88 | the first label is the first piece of splitting the host on dots |
| ToolForms.SuggestedNameOfHost | pages/AddToolPage.tsx:85-92 | for a host of the form www.site.rest the suggestion is the site label, capitalised |
| ListEditor.ChangeItem | pages/SubmitToolPage.tsx:55-64 | only the entry at the index takes the new value; the length and every other entry are kept |
| ListEditor.AddItem | pages/SubmitToolPage.tsx:66-68 | the list gets one empty entry at the end and keeps the others |
| ListEditor.RemoveItem | pages/SubmitToolPage.tsx:70-76 | with more than one entry the one at the index goes; otherwise the list becomes one empty entry; there is always an input |
| ListEditor.RemoveAddedItem | pages/SubmitToolPage.tsx:66-76 | removing the input just added gives the list back |
| ListEditor.ChangeItemUndo | pages/SubmitToolPage.tsx:55-64 | changing an entry back to its old value undoes the change |
| ListEditor.EditsKeepNonEmpty | pages/SubmitToolPage.tsx:55-76 | a list with an input keeps one through any change, add or remove |
| ListEditor.PadEmpty | pages/EditToolPage.tsx:51-53 | a non-empty list is kept and an empty one becomes one empty input |
| ListEditor.NonBlankItems | pages/SubmitToolPage.tsx:113-114 | every entry kept is non-blank, and an entry is kept exactly when it is a non-blank entry of the list |
| ListEditor.TrimAll | pages/SubmitToolPage.tsx:116 | every entry is trimmed in place |
| ListEditor.TrimmedItemsAreTrimmedNonBlank | pages/AddToolPage.tsx:177-178 | trimming then dropping empty entries gives the trimmed non-blank entries, in order |
| ListEditor.TrimmedItemsCons | pages/SubmitToolPage.tsx:116 | the clean-up of a list is the first entry's clean-up followed by the rest's |
| ListEditor.NonBlankItemsCons | pages/SubmitToolPage.tsx:113 | the non-blank filter of a list is the first entry's followed by the rest's |
| ListEditor.TrimAllCons | pages/SubmitToolPage.tsx:116 | trimming distributes over a first entry and the rest |
| ListEditor.TrimmedItemsShape | pages/AddToolPage.tsx:177-178 | every cleaned entry is non-empty and has no surrounding white space |
| ListEditor.TagItemsSource | pages/AddToolPage.tsx:179 | every saved tag is a non-empty, trimmed and lower-cased input |
| ListEditor.TagItemsLowerCase | pages/AddToolPage.tsx:179 | every saved tag is non-empty and already lower-case |
| SettingsPage.SettingsState.constructor | pages/SettingsPage.tsx:15 | the page opens with one empty keyword input |
| SettingsPage.SettingsState.HandleKeywordChange | pages/SettingsPage.tsx:17-21 | only the input at the index takes the value, the length is kept, and an input remains |
| SettingsPage.SettingsState.AddKeywordInput | pages/SettingsPage.tsx:23-25 | one more empty input is appended |
| SettingsPage.SettingsState.RemoveKeywordInput | pages/SettingsPage.tsx:27-33 | the input goes unless it is the last one, which is emptied; an input always remains |
| ScreenshotCarousel.PrevIndex | components/ScreenshotCarousel.tsx:16-20 | the previous slide stays in range and is the current index minus one, modulo the number of slides |
| ScreenshotCarousel.NextIndex | components/ScreenshotCarousel.tsx:22-26 | the next slide stays in range and is the current index plus one, modulo the number of slides |
| ScreenshotCarousel.PrevUndoesNext | components/ScreenshotCarousel.tsx:16-26 | the previous and next arrows undo each other |
| ScreenshotCarousel.NextTimes | components/ScreenshotCarousel.tsx:22-26 | any number of presses of the next arrow stays in range |
| ScreenshotCarousel.NextTimesWraps | components/ScreenshotCarousel.tsx:22-26 | up to a full round, k presses move k slides forward, wrapping once past the last |
| ScreenshotCarousel.NextRoundTrip | components/ScreenshotCarousel.tsx:22-26 | one press per slide comes back to the starting slide |
| ScreenshotCarousel.ModBelow | components/ScreenshotCarousel.tsx:18 | an index inside the range is its own remainder |
| ScreenshotCarousel.ModAbove | components/ScreenshotCarousel.tsx:24 | an index one round past the range wraps back by one round |
| ScreenshotCarousel.Carousel.constructor | components/ScreenshotCarousel.tsx:9-10 | the carousel starts on the first slide |
| ScreenshotCarousel.Carousel.Render | components/ScreenshotCarousel.tsx:12-73 | no screenshots render the message; otherwise the current slide is shown, the arrows exactly for more than one slide, with one dot per slide |
| ScreenshotCarousel.Carousel.GoToPrevious | components/ScreenshotCarousel.tsx:16-20 | the index moves back by one, from the first slide to the last, and stays in range |
| ScreenshotCarousel.Carousel.GoToNext | components/ScreenshotCarousel.tsx:22-26 | the index moves forward by one, from the last slide to the first, and stays in range |
| ScreenshotCarousel.Carousel.GoToSlide | components/ScreenshotCarousel.tsx:28-30 | a dot's slide becomes the current one |
| UpvoteButton.Button.constructor | components/UpvoteButton.tsx:12-17 | the button starts with the given count, no request in flight, and the upvote the browser remembers |
| UpvoteButton.Button.Click | components/UpvoteButton.tsx:20-22 | a click starts a request exactly when none is in flight and the item is not upvoted; the count does not change yet |
| UpvoteButton.Button.Settle | components/UpvoteButton.tsx:23-32 | a successful request adds one upvote, marks the button and remembers it in the browser; a failed one changes only the in-flight flag, which is cleared either way |
| UpvoteButton.AtMostOneUpvote | components/UpvoteButton.tsx:20-33 | in every reachable state the count is the initial count or one more |
| InitDatabase.KeepChunk | scripts/init-database.js:35-36 | a chunk contributes at most one entry, and only a trimmed non-empty text that does not start with a comment |
| InitDatabase.KeepStatements | scripts/init-database.js:33-36 | the kept chunks are no more than the chunks, and each is a non-empty text not starting with a comment |
| InitDatabase.KeepStatementsLack | scripts/init-database.js:35-36 | a character missing from every chunk is missing from every kept statement |
| InitDatabase.StatementsShape | scripts/init-database.js:33-36 | no statement contains a semicolon, and each is non-empty and does not start with a comment |
| InitDatabase.KeepStatementsConcat | scripts/init-database.js:35-36 | keeping chunks distributes over concatenation, so the statements keep their source order |
| InitDatabase.SingleChunk | scripts/init-database.js:33-36 | text without a semicolon gives itself trimmed when that is a statement, and nothing otherwise |
| InitDatabase.StatementsInOrder | scripts/init-database.js:33-36 | the statements of two parts joined by a semicolon are the first part's followed by the second's |
| InitDatabase.CommentSwallowsChunk | scripts/init-database.js:36 | a chunk that starts with a comment is dropped whole, including any SQL after the comment line |
| InitDatabase.ExecuteStatements | scripts/init-database.js:41-62 | every statement is sent once, in order, with a semicolon appended, and the loop carries on whatever each call reports |
| Strings.ToLower | services/aiSearchService.ts:113 | the lower-cased text has the same length and maps each character by itself |
| Strings.ToLowerIdempotent | services/aiSearchService.ts:113 | lower-casing a lower-cased text changes nothing |
| Strings.ContainsAt | services/toolService.ts:239-243 | `includes` holds whenever the text has the searched text at some offset |
| Strings.ContainsSelf | services/toolService.ts:239-243 | every text includes itself |
| Strings.NotContainsMissingChar | services/toolService.ts:239-243 | a text lacking one of the searched text's characters does not include it |
| Strings.NatToString | services/productionExtractionService.ts:78 | a status rendered in an error message is a non-empty run of digits without a leading zero unless it is 0 |
| Strings.NatToStringRoundTrip | services/productionExtractionService.ts:78 | reading the rendered digits back gives the status, so different statuses give different messages |
| Strings.TrimStart | services/productionExtractionService.ts:190-191 | only leading white space is dropped, and what is left does not start with white space |
| Strings.TrimEnd | services/productionExtractionService.ts:190-191 | only trailing white space is dropped, and what is left does not end with white space |
| Strings.Trim | pages/SubmitToolPage.tsx:113-116 | the trimmed text is no longer and starts and ends with a character that is not white space |
| Strings.BlankIffAllSpace | pages/SubmitToolPage.tsx:113-114 | a text trims to nothing exactly when it is all white space |
| Strings.NonSpaceNotBlank | pages/SubmitToolPage.tsx:113-114 | a text with one character that is not white space survives the trim filter |
| Strings.TrimIdempotent | pages/SubmitToolPage.tsx:116 | trimming twice is trimming once |
| Strings.TrimNoSpace | pages/SubmitToolPage.tsx:116 | a text with no white space at either end is its own trim |
| Strings.TrimSliceOf | pages/SubmitToolPage.tsx:116 | the trimmed text is one contiguous piece of the original |
| Strings.Split | pages/ForumsPage.tsx:104 | splitting gives at least one piece and no piece holds the separator |
| Strings.SplitAtSeparator | pages/ForumsPage.tsx:104 | the first piece is the text before the first separator, followed by the pieces of the rest |
| Strings.JoinSplit | pages/ForumsPage.tsx:104 | joining the pieces with the separator gives the text back |
| Strings.SplitJoin | pages/ForumsPage.tsx:104 | splitting pieces joined by a separator they lack gives the pieces back |
| Strings.Words | services/aiSearchService.ts:114 | the words are exactly the non-empty pieces between spaces, and none holds a space |
| Strings.NonEmptyOfNonEmpty | services/aiSearchService.ts:114 | dropping empty entries from a list without any keeps the whole list |
| Strings.WordsOfWord | services/aiSearchService.ts:114 | a non-empty text without spaces is its own single word |
| Strings.ReplaceFirstAbsent | pages/AdminReviewPage.tsx:47 | `replace` leaves a text without the pattern unchanged |
| Strings.ReplaceFirstSplits | pages/AdminReviewPage.tsx:47 | `replace` swaps the pattern's first occurrence for the replacement and keeps the text around it |
| Strings.CollapseSpaces | services/productionExtractionService.ts:190 | collapsing leaves no two adjacent white-space characters and only plain spaces, keeps the first character unless it is white space, and empties only the empty text |
| Strings.Prefix | services/productionExtractionService.ts:196 | the cut is the text's first n characters, or the whole text when it is shorter |
| Strings.NormalizePageText | services/aiExtractionService.ts:129-132 | normalised page text is at most 4000 characters long |
| Strings.NormalizePageTextShape | services/aiExtractionService.ts:129-132 | normalised page text has no white-space runs, only plain spaces, no leading space, and no trailing space unless the 4000-character cut falls just after one |
| Strings.TrimKeepsNormal | services/aiExtractionService.ts:129-131 | trimming collapsed text keeps it free of runs and of other white space |
| Strings.PrefixKeepsNormal | services/aiExtractionService.ts:132 | cutting collapsed text keeps it free of runs and of other white space |
| Strings.TrimKeepsLower | pages/ForumsPage.tsx:104 | a lower-cased text stays lower-case once trimmed |
| Strings.LowerKeepsTrimmed | pages/ForumsPage.tsx:104 | lower-casing a trimmed text leaves it trimmed |
| Strings.TrimKeepsMissingChar | pages/ForumsPage.tsx:104 | trimming adds no character |
| Strings.LowerKeepsMissingChar | pages/ForumsPage.tsx:104 | lower-casing adds no character other than a lower-case letter |
| Seqs.Filter | pages/SubmitToolPage.tsx:113-116 | the kept elements are exactly those of the list that pass the test, and no element is kept more often than it occurs |
| Seqs.FilterCount | pages/HomePage.tsx:179 | the filter keeps every passing element exactly as often as it occurs, and no failing one |
| Seqs.FilterAllPass | pages/SubmitToolPage.tsx:113-116 | when every element passes, the filter returns the list unchanged |
| Seqs.FilterConcat | services/forumService.ts:70 | filtering distributes over concatenation, so the kept elements keep their order |
| Seqs.FilterFusion | services/toolService.ts:230-253 | two filters in a row keep exactly what the conjunction of their tests keeps, in order |
| Seqs.FilterIdempotent | services/toolService.ts:230-253 | filtering twice by the same test is filtering once |
| Seqs.SliceTo | services/toolService.ts:277 | `slice(0, end)` keeps a prefix, of length `end` capped by the list, counting a negative `end` back from the end |
| Seqs.RemoveAt | pages/SubmitToolPage.tsx:72 | removing an index drops exactly that element and shifts the later ones down; an index out of range changes nothing |
| Seqs.RemoveAll | pages/SubmitToolPage.tsx:50 | removing a value drops every occurrence of it and keeps every other element as often as it occurred |
| Seqs.RemoveAllAbsent | pages/SubmitToolPage.tsx:50 | removing a value that is absent changes nothing |
| Seqs.RemoveAllConcat | pages/SubmitToolPage.tsx:50 | removal distributes over concatenation, so the remaining elements keep their order |
| Seqs.Toggle | pages/SubmitToolPage.tsx:47-53 | a selected value is unselected everywhere; an unselected one is appended |
| Seqs.ToggleTwice | pages/SubmitToolPage.tsx:47-53 | checking and then unchecking a box restores the selection |
| Seqs.ToggleRemovesInOrder | pages/SubmitToolPage.tsx:47-53 | unchecking a box keeps the other selected values in their order |
| Seqs.IndexOfKey | services/forumService.ts:111 | `findIndex` gives the first position with the key, or -1 exactly when no element has it |
| Sorting.Insert | services/toolService.ts:261-268 | insertion adds exactly the one element to the list |
| Sorting.SortBy | services/toolService.ts:261-268 | the sort is a permutation of its input |
| Sorting.InsertSorted | services/toolService.ts:261-268 | inserting into a sorted list keeps it sorted |
| Sorting.SortBySorted | services/toolService.ts:261-268 | the sorted list is non-decreasing in the key |
| Sorting.WithKeyConcat | services/toolService.ts:261-268 | the elements with a key value in two joined lists are those of the first followed by those of the second |
| Sorting.WithKeyInsert | services/toolService.ts:261-268 | an inserted element goes before every element with the same key |
| Sorting.SortStable | services/toolService.ts:261-268 | the sort is stable: elements with equal keys keep their input order |
| Sorting.SortOfSorted | services/forumService.ts:45 | an already sorted list is left as it is |
| Sorting.Reverse | services/toolService.ts:272-273 | `reverse()` puts the element at each position at the mirrored position |
| Sorting.ReverseMultiset | services/toolService.ts:272-273 | reversal is a permutation |
| Sorting.WithKeyReverse | services/toolService.ts:272-273 | reversal reverses the order within every group of equal keys |
| Sorting.ReverseConcat | services/toolService.ts:272-273 | reversing two joined lists is the reversed second followed by the reversed first |
| Sorting.ReverseSorted | services/toolService.ts:272-273 | a list sorted by the negated key is, reversed, sorted by the key |
| Sorting.PrefixSorted | services/toolService.ts:277 | a prefix of a sorted list is sorted |
| Sorting.PrefixHoldsTheLeast | services/toolService.ts:461-462 | what a prefix of a sorted list leaves out is the rest of the list, none of it sorting before an element of the prefix |
| Sorting.SortByPrefix | services/toolService.ts:461-462 | a prefix of the sort is sorted and drawn from the input with multiplicity |
| Sorting.SortWithIsSortBy | services/toolService.ts:461 | a comparator that is a difference of keys sorts exactly as the stable sort by that key |
| Sorting.InsertWithIsInsert | services/toolService.ts:461 | the comparator's insertion is the insertion by the key |
| Sorting.WithKeyAgree | services/toolService.ts:261-268 | keys that agree pointwise select the same groups |
| Sorting.SortedByAgree | services/toolService.ts:261-268 | sortedness depends only on the key's values |
| Types.StrOr | services/productionExtractionService.ts:117 | the fallback expression gives the string when it is present and non-empty, and the default otherwise |

## Left out

- Rendering, routing, CSS and the display-only components are not modelled.
- Network clients are not modelled. This covers `fetch`, the OpenAI SDK, the scraping proxies,
  Supabase and the serverless handlers. Their answers are inputs: a response with its status and
  body or a rejection with its message, or a `Result` per call.
- These foreign libraries are input functions or already-computed records:
  - the regular-expression engine for metadata and tag stripping;
  - cheerio's DOM queries;
  - `JSON.parse`;
  - `new URL` parsing and resolution;
  - `localeCompare`, as an integer collation key, which is a total preorder.
- The whitespace collapse, trim and truncation around those libraries are modelled concretely.
- The clock, `Date.now()`-based ids, the `setTimeout` delays and the debounce helpers become
  timestamp and id parameters, or are not modelled.
- Async interleavings are not modelled. Each handler is one atomic step. The exception is the
  upvote button, whose click and its settling are two steps. So the model does not capture a
  second click on a thread card before the first upvote's `await` completes, which could send two
  upvotes.
- `alert` and `window.confirm` are boolean inputs or are not modelled. `localStorage` is a map.
- Loading and busy flags are not modelled. This covers `isExtracting`, `isSubmitting`,
  `isDeleting` and `isLoading`, and the intermediate status messages.
- Plain input setters are not modelled. This covers `handleDetailChange`, the forum dialog's
  title, content and tags setters, and opening or closing the dialog.
- Navigation is reduced to the target the handler names, or to the id a page goes on to show.
- The admin-only redirect effects of the pages are not modelled.
- The catch blocks of the page handlers around `adminAddTool`, `updateToolDetails`, `deleteTool`,
  `createForumThread` and `submitTool` are left out: the in-memory stores never fail.
- `signIn`, `signUp` and `refreshUser` of the auth context are left out: they only call the
  authentication backend. A failure of `signOut` inside `logout` is not modelled, and the user
  becomes null.
- Aliasing is not modelled. The objects that `upvoteThread` and `updateToolDetails` return are
  the store's own records, so a later change to one in JavaScript would show through the other.
  The model returns values.
- `initializeDatabaseDirect` in `scripts/init-database.js` is not part of this model: it only
  logs SQL text and upserts one row through the client. The environment and file reads of that
  script are inputs.
- AiExtraction.ExtractFilled: this service fills a list field only when it is falsy or has length
  0 (`!x || x.length === 0`), so a reply whose `features`, `useCases` or `tags` is a non-empty
  string, a non-zero number or an object such as `{}` keeps that value. The model's parsed reply holds a list field only as an
  array or as absent, reads any other value as absent, and fills it with the placeholder. So the
  non-empty lists it promises on success are not promised by the source for such replies.
- AiExtraction.ExtractFromHtml: the defaults are those of the production service's `FillDefaults`,
  which agree with this service's for absent, empty and array values only, as the line above says.
- ProductionExtraction.ExtractProductDataFromUrl: a failure of `response.text()` after a good
  response is not modelled; a rejected fetch and a failed readability parse are.
- ToolService.GetTools: the catch that returns the mock list when the query throws is not
  modelled, because the in-memory query never throws.
- EditToolPage.EditUpdates: a field that the generated details hold as present but `undefined`
  overwrites the stored value with `undefined` in JavaScript. The model treats such a field as
  absent and keeps the stored value.
- ForumsPage.ForumsState.FetchThreads: the page shows the store's listing as it is when it loads.
  A failed fetch is not modelled, because the in-memory store never fails.

## Findings

| source | as written | input that shows it | evidently intended | confidence | as-written member | corrected member |
|---|---|---|---|---|---|---|
| services/aiSearchService.ts:127-176 | the keyword table is a plain object literal, and each query keyword is looked up with `keywordCategoryMap[keyword]` | the query "constructor" (or "__proto__") finds an inherited member of the literal. That member has no `forEach`, so `createBasicSuggestion` throws a TypeError, and the fallback that was meant to catch failures fails itself | look up only the table's own keys, so the query gets its keyword back and no mapped categories | not executed | AiSearch.ConstructorQueryThrows | AiSearch.ConstructorQueryCorrected |
