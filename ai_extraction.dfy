/**
 * The proxy-based extraction service: the page is fetched through a list of CORS proxies (the first
 * acceptable body wins) with a direct fetch as fallback, refused when it carries a blocking
 * signature, reduced to its text, sent to the language model, and the parsed reply is completed
 * with defaults and the page's logo. The DOM queries, the model and `JSON.parse` are inputs.
 */
module AiExtraction {
  import opened Wrappers
  import opened Strings
  import P = ProductionExtraction

  /** One fetch: it threw, or it answered with `ok` and a body (already decoded; empty when absent). */
  datatype Fetch = Threw | Response(ok: bool, body: String)

  /** The DOM queries on a loaded page: title (or first heading), meta description, main-region text, body text, logo. */
  datatype PageQueries = PageQueries(title: String, description: String, mainText: String, bodyText: String, logoUrl: String)

  datatype Environment = Environment(
    page: String -> PageQueries,                        // cheerio on the fetched HTML
    complete: P.WebsiteData -> P.Completion,            // the chat completion for the prompt built from the data
    parse: String -> Option<P.ParsedReply>,             // `JSON.parse` and the field accesses; `None` when either throws
    resolve: (String, String) -> Result<String, String>)  // `new URL(relative, base).href`, or the error it throws

  const CookieWall := "JavaScript and Cookies Enablement"
  const BlockedPhrases: seq<String> := [
    CookieWall,
    "Enable JavaScript and cookies to continue",
    "JavaScript is required",
    "Please enable JavaScript",
    "Access Denied",
    "403 Forbidden",
    "Rate Limited"]
  const NoHtmlMessage := "All CORS proxies and direct fetch failed. The website may be blocking proxy access or requires JavaScript. Try a simpler website like a blog or documentation site."
  const BlockedMessage := "This website requires JavaScript or is blocking access. CORS proxies cannot extract content from Single Page Applications (SPAs) like ChatGPT. Try a simpler website like GitHub, Stack Overflow, or a blog."
  const ErrorPrefix := "Failed to extract product data: "

  // ---------------------------------------------------------------------------------------------
  // Fetching

  /** A proxy body is taken when the proxy answered OK with more than 1000 characters and no cookie wall. */
  predicate Accepted(f: Fetch) {
    f.Response? && f.ok && |f.body| > 1000 && !Contains(f.body, CookieWall)
  }

  /** The body of the first accepted proxy, or empty when none is accepted. */
  function FirstAccepted(proxies: seq<Fetch>): String
    decreases |proxies|
  {
    if proxies == [] then []
    else if Accepted(proxies[0]) then proxies[0].body
    else FirstAccepted(proxies[1..])
  }

  /** The body is empty exactly when no proxy is accepted, and otherwise is an accepted proxy's body. */
  lemma {:induction false} FirstAcceptedSpec(proxies: seq<Fetch>)
    ensures FirstAccepted(proxies) == [] <==> forall j :: 0 <= j < |proxies| ==> !Accepted(proxies[j])
    ensures FirstAccepted(proxies) != [] ==>
      exists j :: 0 <= j < |proxies| && Accepted(proxies[j]) && FirstAccepted(proxies) == proxies[j].body
    decreases |proxies|
  {
    if proxies != [] && !Accepted(proxies[0]) {
      var rest := proxies[1..];
      FirstAcceptedSpec(rest);
      assert forall j :: 1 <= j < |proxies| ==> proxies[j] == rest[j - 1];
      if FirstAccepted(rest) != [] {
        var k :| 0 <= k < |rest| && Accepted(rest[k]) && FirstAccepted(rest) == rest[k].body;
        assert proxies[k + 1] == rest[k];
      }
    }
  }

  /** The HTML the service works on: the first accepted proxy body, else the direct body when that fetch is OK. */
  function FetchedHtml(proxies: seq<Fetch>, direct: Fetch): String {
    var h := FirstAccepted(proxies);
    if h != [] then h else if direct.Response? && direct.ok then direct.body else []
  }

  /**
   * The proxy loop and the fallback: proxies are tried in order until one is accepted
   * (`proxiesTried` counts those fetched), and the direct fetch happens only when none is.
   */
  method FetchHtml(proxies: seq<Fetch>, direct: Fetch) returns (html: String, proxiesTried: nat, directTried: bool)
    ensures html == FetchedHtml(proxies, direct)
    ensures proxiesTried <= |proxies|
    ensures forall j :: 0 <= j < proxiesTried - 1 ==> !Accepted(proxies[j])
    ensures directTried <==> forall j :: 0 <= j < |proxies| ==> !Accepted(proxies[j])
    ensures !directTried ==> proxiesTried >= 1 && Accepted(proxies[proxiesTried - 1]) && html == proxies[proxiesTried - 1].body
    ensures directTried ==> proxiesTried == |proxies|
  {
    html := [];
    var i := 0;
    while i < |proxies|
      invariant 0 <= i <= |proxies|
      invariant forall j :: 0 <= j < i ==> !Accepted(proxies[j])
      invariant FirstAccepted(proxies) == FirstAccepted(proxies[i..])
      invariant html == []
    {
      var f := proxies[i];
      FirstAcceptedFrom(proxies, i);
      if f.Response? && f.ok {
        html := f.body;
        if |html| > 1000 && !Contains(html, CookieWall) {
          assert Accepted(proxies[i]);
          return html, i + 1, false;
        }
        html := [];
      }
      assert !Accepted(proxies[i]);
      i := i + 1;
    }
    assert proxies[i..] == [];
    proxiesTried := |proxies|;
    directTried := true;
    if direct.Response? && direct.ok {
      html := direct.body;
    }
  }

  /** The first accepted body from position `i` on: the proxy at `i` when it is accepted, else one further on. */
  lemma FirstAcceptedFrom(proxies: seq<Fetch>, i: nat)
    requires i < |proxies|
    ensures FirstAccepted(proxies[i..]) == if Accepted(proxies[i]) then proxies[i].body else FirstAccepted(proxies[i + 1..])
  {
    var rest := proxies[i..];
    assert rest[0] == proxies[i];
    assert rest[1..] == proxies[i + 1..];
  }

  /** The direct body is taken without the length and cookie-wall checks the proxies get. */
  lemma DirectBodyUnchecked(proxies: seq<Fetch>, body: String)
    requires forall j :: 0 <= j < |proxies| ==> !Accepted(proxies[j])
    ensures FetchedHtml(proxies, Response(true, body)) == body
  {
    FirstAcceptedSpec(proxies);
  }

  // ---------------------------------------------------------------------------------------------
  // From HTML to product data

  predicate Blocked(html: String) {
    exists i :: 0 <= i < |BlockedPhrases| && Contains(html, BlockedPhrases[i])
  }

  /** The text sent to the model: the main region's text, else the body's, normalised. */
  function BodyText(q: PageQueries): String {
    NormalizePageText(if q.mainText != [] then q.mainText else q.bodyText)
  }

  function SiteData(env: Environment, html: String, url: String): P.WebsiteData {
    var q := env.page(html);
    P.WebsiteData(q.title, q.description, BodyText(q), q.logoUrl, url)
  }

  /** The page logo, when there is one: kept when absolute, else resolved, and a resolution error fails the call. */
  function AddLogo(d: P.ExtractedProductData, logo: String, url: String, resolve: (String, String) -> Result<String, String>): (r: P.Outcome)
    ensures r.Success? ==> r.value == d.(logoUrl := r.value.logoUrl)
    ensures logo == [] ==> r == Success(d)
    ensures logo != [] && StartsWith(logo, "http") ==> r == Success(d.(logoUrl := Some(logo)))
    ensures logo != [] && !StartsWith(logo, "http") && resolve(logo, url).Success? ==>
      r == Success(d.(logoUrl := Some(resolve(logo, url).value)))
    ensures logo != [] && !StartsWith(logo, "http") && resolve(logo, url).Failure? ==> r == Failure(resolve(logo, url).error)
  {
    if logo == [] then Success(d)
    else if StartsWith(logo, "http") then Success(d.(logoUrl := Some(logo)))
    else
      match resolve(logo, url)
      case Success(href) => Success(d.(logoUrl := Some(href)))
      case Failure(m) => Failure(m)
  }

  /**
   * Everything after the fetch, with the error each step raises (before the outer prefix is added).
   * A success only comes from a page that is neither empty nor blocked, whose model reply parsed;
   * it is that reply with the defaults filled in, and with the page's logo when there is one.
   */
  function ExtractFromHtml(env: Environment, url: String, html: String): (r: P.Outcome)
    ensures html == [] ==> r == Failure(NoHtmlMessage)
    ensures html != [] && Blocked(html) ==> r == Failure(BlockedMessage)
    ensures r.Success? ==>
      var site := SiteData(env, html, url);
      var c := env.complete(site);
      && html != [] && !Blocked(html) && c.Completion? && c.content.Some?
      && env.parse(Trim(c.content.value)).Some?
      && r.value == P.FillDefaults(env.parse(Trim(c.content.value)).value, site).(logoUrl := r.value.logoUrl)
  {
    if html == [] then Failure(NoHtmlMessage)
    else if Blocked(html) then Failure(BlockedMessage)
    else
      var site := SiteData(env, html, url);
      match env.complete(site)
      case RequestFailed(m) => Failure(m)
      case Completion(content) =>
        var text := if content.Some? then Trim(content.value) else [];
        if text == [] then Failure(P.NoResponseMessage)
        else
          match env.parse(text)
          case None => Failure(P.ParseFailedMessage)
          case Some(p) => AddLogo(P.FillDefaults(p, site), site.logoUrl, url, env.resolve)
  }

  /** No HTML, or HTML with a blocking phrase, fails before the page is parsed or the model is asked. */
  lemma RefusedBeforeParsing(env1: Environment, env2: Environment, url: String, html: String)
    requires html == [] || Blocked(html)
    ensures ExtractFromHtml(env1, url, html) == ExtractFromHtml(env2, url, html)
    ensures html == [] ==> ExtractFromHtml(env1, url, html) == Failure(NoHtmlMessage)
    ensures html != [] ==> ExtractFromHtml(env1, url, html) == Failure(BlockedMessage)
  {
  }

  /** An accepted proxy body never shows the cookie wall; a direct body that does is refused as blocked. */
  lemma CookieWallRefused(env: Environment, url: String, html: String)
    requires Contains(html, CookieWall)
    ensures ExtractFromHtml(env, url, html) == Failure(BlockedMessage)
  {
    assert BlockedPhrases[0] == CookieWall;
  }

  /** On success the name and description are non-empty and every list has at least one entry. */
  lemma ExtractFilled(env: Environment, url: String, html: String)
    ensures var r := ExtractFromHtml(env, url, html);
      r.Success? ==> r.value.name != [] && r.value.description != []
                     && |r.value.features| > 0 && |r.value.useCases| > 0 && |r.value.tags| > 0
  {
    if html != [] && !Blocked(html) {
      var site := SiteData(env, html, url);
      match env.complete(site)
      case RequestFailed(_) =>
      case Completion(content) =>
        var text := if content.Some? then Trim(content.value) else [];
        if text != [] {
          match env.parse(text)
          case None =>
          case Some(p) =>
            var d := P.FillDefaults(p, site);
            AddLogoFilled(d, site.logoUrl, url, env.resolve);
            assert ExtractFromHtml(env, url, html) == AddLogo(d, site.logoUrl, url, env.resolve);
        }
    }
  }

  /** Adding the logo keeps a filled reply filled. */
  lemma AddLogoFilled(d: P.ExtractedProductData, logo: String, url: String, resolve: (String, String) -> Result<String, String>)
    requires d.name != [] && d.description != [] && |d.features| > 0 && |d.useCases| > 0 && |d.tags| > 0
    ensures var r := AddLogo(d, logo, url, resolve);
      r.Success? ==> r.value.name != [] && r.value.description != []
                     && |r.value.features| > 0 && |r.value.useCases| > 0 && |r.value.tags| > 0
  {
  }

  /** The model sees at most 4000 characters of text, without runs of white space or leading white space. */
  lemma BodyTextNormal(q: PageQueries)
    ensures var b := BodyText(q);
      |b| <= 4000 && NoSpaceRuns(b) && OnlyPlainSpaces(b) && (b == [] || !IsSpace(b[0]))
  {
    NormalizePageTextShape(if q.mainText != [] then q.mainText else q.bodyText);
  }

  /**
   * `extractProductDataFromUrl`: fetch, then extract; every error, whichever step raised it,
   * comes out with the same prefix.
   */
  method ExtractProductDataFromUrl(env: Environment, url: String, proxies: seq<Fetch>, direct: Fetch)
    returns (r: P.Outcome, directTried: bool)
    ensures var inner := ExtractFromHtml(env, url, FetchedHtml(proxies, direct));
      (inner.Success? ==> r == inner) && (inner.Failure? ==> r == Failure(ErrorPrefix + inner.error))
    ensures r.Failure? ==> StartsWith(r.error, ErrorPrefix)
    ensures directTried <==> forall j :: 0 <= j < |proxies| ==> !Accepted(proxies[j])
  {
    var html, _, tried := FetchHtml(proxies, direct);
    directTried := tried;
    var inner := ExtractFromHtml(env, url, html);
    if inner.Failure? {
      r := Failure(ErrorPrefix + inner.error);
    } else {
      r := inner;
    }
  }
}
