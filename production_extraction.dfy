/**
 * The production extraction pipeline: three strategies tried in a fixed order (a rendering
 * scraper, a readability proxy, a direct fetch), the page-text normalisation, the defaults filled
 * in after the language model's reply is parsed, the logo resolution, and the logo-path probe.
 * Remote responses, the model's reply, the regular-expression matches, `JSON.parse` and `new URL`
 * are inputs.
 */
module ProductionExtraction {
  import opened Wrappers
  import opened Strings
  import opened Types

  datatype ExtractedProductData = ExtractedProductData(
    name: String,
    description: String,
    features: seq<String>,
    useCases: seq<String>,
    pricing: Option<String>,
    logoUrl: Option<String>,
    tags: seq<String>)

  /**
   * The parsed reply, field by field: `None` for an absent field and, for the lists, also for a
   * value that is not an array.
   */
  datatype ParsedReply = ParsedReply(
    name: Option<String>,
    description: Option<String>,
    features: Option<seq<String>>,
    useCases: Option<seq<String>>,
    pricing: Option<String>,
    logoUrl: Option<String>,
    tags: Option<seq<String>>)

  /** A successful extraction, or the message of the error it threw. */
  type Outcome = Result<ExtractedProductData, String>

  /** What a `fetch` gives: a response with its status and body, or a rejection with its error message. */
  datatype HttpResponse = HttpResponse(status: nat, statusText: String, body: String) | Rejected(message: String)

  /** `response.ok`. */
  predicate Ok(r: HttpResponse) {
    r.HttpResponse? && 200 <= r.status <= 299
  }

  /** What is sent to the language model; `logoUrl` is empty when the page has none. */
  datatype WebsiteData = WebsiteData(title: String, description: String, content: String, logoUrl: String, url: String)

  /** The three regular-expression matches of a page: its title, its meta description and its logo. */
  datatype PageMetadata = PageMetadata(title: String, description: String, logoUrl: String)

  /** The model's answer: the first choice's message content, if any, or the error the request raised. */
  datatype Completion = Completion(content: Option<String>) | RequestFailed(message: String)

  /** The fields of the readability proxy's JSON. */
  datatype ReadabilityResult = ReadabilityResult(
    title: Option<String>,
    excerpt: Option<String>,
    content: Option<String>,
    textContent: Option<String>)

  /** The parts of the pipeline that are outside this model, as functions of their inputs. */
  datatype Environment = Environment(
    metadata: String -> PageMetadata,               // the title, description and logo regular expressions
    stripMarkup: String -> String,                  // the chain of tag-removing replacements
    complete: WebsiteData -> Completion,            // the chat completion for the prompt built from the data
    parse: String -> Option<ParsedReply>,           // `JSON.parse` and the field accesses; `None` when either throws
    resolve: (String, String) -> Option<String>,    // `new URL(relative, base).href`; `None` when it throws
    readability: String -> Result<ReadabilityResult, String>,  // the two JSON decodings of the proxy's body
    scriptBundle: String -> bool)                   // the two `<script src=…app|bundle….js>` expressions

  const NoResponseMessage := "No response from OpenAI"
  const ParseFailedMessage := "Failed to parse AI response as JSON"
  const UnknownProduct := "Unknown Product"
  const NoDescription := "No description available"
  const NoFeatures := "Feature information not available"
  const NoUseCases := "Use case information not available"
  const GeneralTag := "general"
  const ApiKeyWords := "API key"
  const BrowserAuthHead := "Browser API authentication failed - ScrapingBee "
  const BrowserAuthTail := " required for JavaScript sites"
  const BrowserAuthMessage := BrowserAuthHead + ApiKeyWords + BrowserAuthTail
  const JavaScriptGuidance := "JavaScript website detected. For automatic extraction, set up ScrapingBee API key in your environment variables. For now, please use manual entry."
  const ReadabilityPrefix := "Readability extraction failed: "
  const NoReadabilityContent := "No content extracted by Readability API"
  const SpaMessage := "This appears to be a JavaScript-heavy Single Page Application. The page content is minimal without JavaScript execution."
  const AllFailedPrefix := "All extraction methods failed. Last error: "

  // ---------------------------------------------------------------------------------------------
  // The reply: defaults and logo

  /** A string field that is missing or blank. */
  predicate Missing(o: Option<String>) {
    o.None? || IsBlank(o.value)
  }

  /** A list field that is missing, not an array, or empty. */
  function ListOr(o: Option<seq<String>>, placeholder: String): (r: seq<String>)
    ensures |r| > 0
    ensures o.Some? && |o.value| > 0 ==> r == o.value
    ensures (o.None? || o.value == []) ==> r == [placeholder]
  {
    if o.Some? && |o.value| > 0 then o.value else [placeholder]
  }

  /** A string field that falls back to the page's value when missing or blank, and to `placeholder` after that. */
  function FieldOr(o: Option<String>, pageValue: String, placeholder: String): (r: String)
    ensures placeholder != [] ==> r != []
    ensures !Missing(o) ==> r == o.value
    ensures Missing(o) ==> r == (if pageValue != [] then pageValue else placeholder)
  {
    if Missing(o) then (if pageValue != [] then pageValue else placeholder) else o.value
  }

  /** The validation step: blank name and description fall back to the page's, lists to placeholders. */
  function FillDefaults(p: ParsedReply, site: WebsiteData): (d: ExtractedProductData)
    ensures d.name != [] && d.description != []
    ensures |d.features| > 0 && |d.useCases| > 0 && |d.tags| > 0
    ensures !Missing(p.name) ==> d.name == p.name.value
    ensures Missing(p.name) ==> d.name == (if site.title != [] then site.title else UnknownProduct)
    ensures !Missing(p.description) ==> d.description == p.description.value
    ensures Missing(p.description) ==> d.description == (if site.description != [] then site.description else NoDescription)
    ensures p.features.Some? && |p.features.value| > 0 ==> d.features == p.features.value
    ensures p.useCases.Some? && |p.useCases.value| > 0 ==> d.useCases == p.useCases.value
    ensures p.tags.Some? && |p.tags.value| > 0 ==> d.tags == p.tags.value
    ensures (p.features.None? || p.features.value == []) ==> d.features == [NoFeatures]
    ensures (p.useCases.None? || p.useCases.value == []) ==> d.useCases == [NoUseCases]
    ensures (p.tags.None? || p.tags.value == []) ==> d.tags == [GeneralTag]
    ensures d.pricing == p.pricing && d.logoUrl == p.logoUrl
  {
    ExtractedProductData(FieldOr(p.name, site.title, UnknownProduct), FieldOr(p.description, site.description, NoDescription), ListOr(p.features, NoFeatures), ListOr(p.useCases, NoUseCases),
                         p.pricing, p.logoUrl, ListOr(p.tags, GeneralTag))
  }

  /** A page logo beginning with 'http' is taken as is, another is resolved against the page URL when that succeeds. */
  function WithPageLogo(d: ExtractedProductData, site: WebsiteData, resolve: (String, String) -> Option<String>): (r: ExtractedProductData)
    ensures r == d.(logoUrl := r.logoUrl)
    ensures site.logoUrl == [] ==> r == d
    ensures site.logoUrl != [] && StartsWith(site.logoUrl, "http") ==> r.logoUrl == Some(site.logoUrl)
    ensures site.logoUrl != [] && !StartsWith(site.logoUrl, "http") ==>
      r.logoUrl == (if resolve(site.logoUrl, site.url).Some? then resolve(site.logoUrl, site.url) else d.logoUrl)
  {
    if site.logoUrl == [] then d
    else if StartsWith(site.logoUrl, "http") then d.(logoUrl := Some(site.logoUrl))
    else
      match resolve(site.logoUrl, site.url)
      case Some(href) => d.(logoUrl := Some(href))
      case None => d
  }

  /** `processWebsiteDataWithAI`: ask the model, parse its trimmed reply, fill the defaults, add the page's logo. */
  function ProcessWebsiteData(env: Environment, site: WebsiteData): Outcome {
    match env.complete(site)
    case RequestFailed(m) => Failure(m)
    case Completion(content) =>
      var text := if content.Some? then Trim(content.value) else [];
      if text == [] then Failure(NoResponseMessage)
      else
        match env.parse(text)
        case None => Failure(ParseFailedMessage)
        case Some(p) => Success(WithPageLogo(FillDefaults(p, site), site, env.resolve))
  }

  /** After a successful parse every required field is filled. */
  lemma ProcessWebsiteDataFilled(env: Environment, site: WebsiteData)
    ensures var r := ProcessWebsiteData(env, site);
      r.Success? ==> r.value.name != [] && r.value.description != []
                     && |r.value.features| > 0 && |r.value.useCases| > 0 && |r.value.tags| > 0
  {
    match env.complete(site)
    case RequestFailed(_) =>
    case Completion(content) =>
      var text := if content.Some? then Trim(content.value) else [];
      if text != [] {
        match env.parse(text)
        case None =>
        case Some(p) =>
      }
  }

  /** A failed request, an empty reply and an unparsable reply each fail, with their own messages. */
  lemma ProcessWebsiteDataErrors(env: Environment, site: WebsiteData)
    ensures var r := ProcessWebsiteData(env, site);
      var c := env.complete(site);
      (c.RequestFailed? ==> r == Failure(c.message))
      && (c.Completion? && (c.content.None? || IsBlank(c.content.value)) ==> r == Failure(NoResponseMessage))
      && (c.Completion? && c.content.Some? && !IsBlank(c.content.value) && env.parse(Trim(c.content.value)).None?
          ==> r == Failure(ParseFailedMessage))
  {
  }

  // ---------------------------------------------------------------------------------------------
  // Page text

  /** `processHTMLWithAI`'s data: the regular-expression matches and the cleaned, normalised text. */
  function HtmlSiteData(env: Environment, html: String, url: String): WebsiteData {
    var m := env.metadata(html);
    WebsiteData(m.title, m.description, NormalizePageText(env.stripMarkup(html)), m.logoUrl, url)
  }

  function ProcessHtml(env: Environment, html: String, url: String): Outcome {
    ProcessWebsiteData(env, HtmlSiteData(env, html, url))
  }

  /**
   * The text sent to the model holds at most 4000 characters, with no runs of white space and no
   * leading white space; it also has no trailing white space unless the cut at 4000 falls after a space.
   */
  lemma HtmlContentNormal(env: Environment, html: String, url: String)
    ensures var c := HtmlSiteData(env, html, url).content;
      |c| <= 4000 && NoSpaceRuns(c) && OnlyPlainSpaces(c) && (c == [] || !IsSpace(c[0]))
      && (|Trim(CollapseSpaces(env.stripMarkup(html)))| <= 4000 ==> c == [] || !IsSpace(c[|c| - 1]))
  {
    NormalizePageTextShape(env.stripMarkup(html));
  }

  // ---------------------------------------------------------------------------------------------
  // The three strategies

  /** An error message mentioning authentication or an API key. */
  predicate MentionsKey(m: String) {
    Contains(m, "Authentication") || Contains(m, ApiKeyWords)
  }

  /** Method 1, the rendering scraper; any error that mentions a key becomes the manual-entry guidance. */
  function BrowserStrategy(env: Environment, url: String, resp: HttpResponse): Outcome {
    var inner :=
      if resp.Rejected? then Failure(resp.message)
      else if !Ok(resp) then Failure(if resp.status == 401 then BrowserAuthMessage else "Browser API returned " + NatToString(resp.status))
      else ProcessHtml(env, resp.body, url);
    if inner.Failure? && MentionsKey(inner.error) then Failure(JavaScriptGuidance) else inner
  }

  /** A 401 turns into the guidance message. */
  lemma BrowserUnauthorized(env: Environment, url: String, resp: HttpResponse)
    requires resp.HttpResponse? && resp.status == 401
    ensures BrowserStrategy(env, url, resp) == Failure(JavaScriptGuidance)
  {
    AuthMessageMentionsKey();
  }

  lemma AuthMessageMentionsKey()
    ensures MentionsKey(BrowserAuthMessage)
  {
    ContainsInfix(BrowserAuthHead, ApiKeyWords, BrowserAuthTail);
  }

  /** Another failing status is reported with its number, untouched by the rewrite. */
  lemma BrowserStatusError(env: Environment, url: String, resp: HttpResponse)
    requires resp.HttpResponse? && !Ok(resp) && resp.status != 401
    ensures BrowserStrategy(env, url, resp) == Failure("Browser API returned " + NatToString(resp.status))
  {
    var digits := NatToString(resp.status);
    var m := "Browser API returned " + digits;
    DigitsLack(digits, 'h');
    DigitsLack(digits, 'k');
    assert 'h' !in "Browser API returned " && 'k' !in "Browser API returned ";
    assert 'h' !in m && 'k' !in m;
    assert "Authentication"[3] == 'h' && ApiKeyWords[4] == 'k';
    NotContainsMissingChar(m, "Authentication", 'h');
    NotContainsMissingChar(m, ApiKeyWords, 'k');
  }

  /** With a good response the page is processed, and only key-related processing errors are rewritten. */
  lemma BrowserProcessing(env: Environment, url: String, resp: HttpResponse)
    requires Ok(resp)
    ensures var p := ProcessHtml(env, resp.body, url);
      BrowserStrategy(env, url, resp) == (if p.Failure? && MentionsKey(p.error) then Failure(JavaScriptGuidance) else p)
  {
  }

  /** `textContent` cut to 4000 characters, else `content` cut likewise, else empty. */
  function ReadabilityContent(rr: ReadabilityResult): (c: String)
    ensures |c| <= 4000
    ensures Truthy(rr.textContent) ==> c == Prefix(rr.textContent.value, 4000)
    ensures !Truthy(rr.textContent) && Truthy(rr.content) ==> c == Prefix(rr.content.value, 4000)
    ensures !Truthy(rr.textContent) && !Truthy(rr.content) ==> c == []
  {
    if Truthy(rr.textContent) then Prefix(rr.textContent.value, 4000)
    else if Truthy(rr.content) then Prefix(rr.content.value, 4000)
    else []
  }

  /** Method 2, the readability proxy; every error it raises gets the same prefix. */
  function ReadabilityStrategy(env: Environment, url: String, resp: HttpResponse): Outcome {
    var inner :=
      if resp.Rejected? then Failure(resp.message)
      else if !Ok(resp) then Failure("Readability API returned " + NatToString(resp.status))
      else match env.readability(resp.body)
        case Failure(m) => Failure(m)
        case Success(rr) =>
          if !Truthy(rr.content) then Failure(NoReadabilityContent)
          else ProcessWebsiteData(env, WebsiteData(StrOr(rr.title, []), StrOr(rr.excerpt, []), ReadabilityContent(rr), [], url));
    if inner.Failure? then Failure(ReadabilityPrefix + inner.error) else inner
  }

  /**
   * Every readability failure carries the prefix; a result without content fails before the model is
   * asked; the data sent never has a page logo, so a success keeps the reply's own logo.
   */
  lemma ReadabilityOutcomes(env: Environment, url: String, resp: HttpResponse)
    ensures var r := ReadabilityStrategy(env, url, resp);
      (r.Failure? ==> StartsWith(r.error, ReadabilityPrefix))
      && (Ok(resp) && env.readability(resp.body).Success? && !Truthy(env.readability(resp.body).value.content) ==>
            r == Failure(ReadabilityPrefix + NoReadabilityContent))
  {
  }

  /** The markers of a single-page application that the direct fetch looks for. */
  const SpaMarkers: seq<String> := ["window.__INITIAL_STATE__", "window.__APOLLO_STATE__", "id=\"root\"", "id=\"app\"", "ng-app"]

  predicate IsSpa(env: Environment, html: String) {
    (exists i :: 0 <= i < |SpaMarkers| && Contains(html, SpaMarkers[i])) || env.scriptBundle(html)
  }

  /** Method 3, the direct fetch: a short page with an application marker is refused. */
  function DirectStrategy(env: Environment, url: String, resp: HttpResponse): Outcome {
    if resp.Rejected? then Failure(resp.message)
    else if !Ok(resp) then Failure("HTTP " + NatToString(resp.status) + ": " + resp.statusText)
    else if IsSpa(env, resp.body) && |Trim(resp.body)| < 5000 then Failure(SpaMessage)
    else ProcessHtml(env, resp.body, url)
  }

  /** A page is refused as an application exactly when it has a marker and its trimmed text is shorter than 5000. */
  lemma DirectSpaRule(env: Environment, url: String, resp: HttpResponse)
    requires Ok(resp)
    ensures var r := DirectStrategy(env, url, resp);
      (IsSpa(env, resp.body) && |Trim(resp.body)| < 5000 ==> r == Failure(SpaMessage))
      && (!IsSpa(env, resp.body) || |Trim(resp.body)| >= 5000 ==> r == ProcessHtml(env, resp.body, url))
  {
  }

  /** A failing status is reported with its number and its status text. */
  lemma DirectStatusError(env: Environment, url: String, resp: HttpResponse)
    requires resp.HttpResponse? && !Ok(resp)
    ensures DirectStrategy(env, url, resp) == Failure("HTTP " + NatToString(resp.status) + ": " + resp.statusText)
  {
  }

  /**
   * A rejected fetch: the rendering scraper's catch passes the message on unless it mentions a key,
   * the readability proxy's catch prefixes it, and the direct fetch lets it through untouched.
   */
  lemma StrategiesRejected(env: Environment, url: String, message: String)
    ensures BrowserStrategy(env, url, Rejected(message))
         == (if MentionsKey(message) then Failure(JavaScriptGuidance) else Failure(message))
    ensures ReadabilityStrategy(env, url, Rejected(message)) == Failure(ReadabilityPrefix + message)
    ensures DirectStrategy(env, url, Rejected(message)) == Failure(message)
  {
  }

  // ---------------------------------------------------------------------------------------------
  // The orchestrator

  /** The strategies' outcomes in their fixed order. */
  function StrategyOutcomes(env: Environment, url: String, browser: HttpResponse, readability: HttpResponse,
                            direct: HttpResponse): (outs: seq<Outcome>)
    ensures |outs| == 3
  {
    [BrowserStrategy(env, url, browser), ReadabilityStrategy(env, url, readability), DirectStrategy(env, url, direct)]
  }

  function AllFailedMessage(last: String): String {
    AllFailedPrefix + (if last != [] then last else "Unknown error")
  }

  /**
   * `extractProductDataFromUrl`: the first strategy that succeeds gives the result and no later one
   * is run (`invoked` counts those that were); if all three fail, the last error is reported.
   */
  method ExtractProductDataFromUrl(env: Environment, url: String, browser: HttpResponse, readability: HttpResponse,
                                   direct: HttpResponse) returns (r: Outcome, invoked: nat)
    ensures 1 <= invoked <= 3
    ensures var outs := StrategyOutcomes(env, url, browser, readability, direct);
      (forall j :: 0 <= j < invoked - 1 ==> outs[j].Failure?)
      && (r.Success? ==> r == outs[invoked - 1])
      && (r.Failure? ==> invoked == 3 && outs[2].Failure? && r.error == AllFailedMessage(outs[2].error))
    ensures r.Success? <==> exists j :: 0 <= j < 3 && StrategyOutcomes(env, url, browser, readability, direct)[j].Success?
  {
    ghost var outs := StrategyOutcomes(env, url, browser, readability, direct);
    var lastError: String := [];
    var i := 0;
    while i < 3
      invariant 0 <= i <= 3
      invariant forall j :: 0 <= j < i ==> outs[j].Failure?
      invariant i > 0 ==> lastError == outs[i - 1].error
    {
      var result: Outcome;
      if i == 0 {
        result := BrowserStrategy(env, url, browser);
      } else if i == 1 {
        result := ReadabilityStrategy(env, url, readability);
      } else {
        result := DirectStrategy(env, url, direct);
      }
      assert result == outs[i];
      if result.Success? {
        return result, i + 1;
      }
      lastError := result.error;
      i := i + 1;
    }
    r, invoked := Failure(AllFailedMessage(lastError)), 3;
  }

  // ---------------------------------------------------------------------------------------------
  // The logo probe

  const LogoPaths: seq<String> := ["/logo.png", "/logo.svg", "/favicon.ico", "/assets/logo.png", "/static/logo.png", "/images/logo.png"]

  /**
   * `findWebsiteLogo`: the six paths under the page's origin are probed in order and the first that
   * answers OK is returned; `origin` is `None` when the URL does not parse, and `probed` counts the
   * requests sent.
   */
  method FindWebsiteLogo(origin: Option<String>, headOk: String -> bool) returns (r: Option<String>, probed: nat)
    ensures probed <= |LogoPaths|
    ensures origin.None? ==> r.None? && probed == 0
    ensures origin.Some? ==> forall j :: 0 <= j < probed - 1 ==> !headOk(origin.value + LogoPaths[j])
    ensures r.Some? ==> origin.Some? && probed >= 1 && r.value == origin.value + LogoPaths[probed - 1] && headOk(r.value)
    ensures r.None? && origin.Some? ==> probed == |LogoPaths| && forall j :: 0 <= j < |LogoPaths| ==> !headOk(origin.value + LogoPaths[j])
  {
    if origin.None? {
      return None, 0;
    }
    var base := origin.value;
    var i := 0;
    while i < |LogoPaths|
      invariant 0 <= i <= |LogoPaths|
      invariant forall j :: 0 <= j < i ==> !headOk(base + LogoPaths[j])
    {
      var candidate := base + LogoPaths[i];
      if headOk(candidate) {
        return Some(candidate), i + 1;
      }
      i := i + 1;
    }
    return None, |LogoPaths|;
  }
}
