/**
 * Products stored in the database, converted to catalog tools. A product's fields are optional;
 * `||` defaults fill them. A string field falls back when missing or empty, an array field only
 * when missing (an empty array is truthy). The placeholder image URL builder and the clock are inputs.
 */
module SupabaseToolService {
  import opened Wrappers
  import opened Strings
  import opened Seqs
  import opened Types

  const IdPrefix := "supabase-"
  const UntitledTool := "Untitled Tool"
  const NoShortDescription := "No description available."
  const NoFullDescription := "No detailed description available."

  /** A `products` row as the client returns it. */
  datatype Product = Product(
    id: String,
    name: Option<String>,
    logoUrl: Option<String>,
    description: Option<String>,
    websiteUrl: Option<String>,
    screenshots: Option<seq<String>>,
    features: Option<seq<String>>,
    useCases: Option<seq<String>>,
    tags: Option<seq<String>>,
    pricing: Option<String>,
    source: Option<String>,
    submittedBy: Option<String>,
    createdAt: Option<Time>,
    updatedAt: Option<Time>)

  /** `PLACEHOLDER_IMAGE_URL(width, height, text)`. */
  type Placeholder = (nat, nat, String) -> String

  function ListOr(o: Option<seq<String>>, d: seq<String>): seq<String> {
    if o.Some? then o.value else d
  }

  function TimeOr(o: Option<Time>, now: Time): Time {
    if o.Some? then o.value else now
  }

  /** `convertSupabaseProductToTool`. */
  function ConvertProduct(p: Product, placeholder: Placeholder, now: Time): (t: Tool)
    ensures t.id == IdPrefix + p.id
    ensures t.name == StrOr(p.name, UntitledTool) && t.name != []
    ensures t.shortDescription == StrOr(p.description, NoShortDescription) && t.shortDescription != []
    ensures t.fullDescription == StrOr(p.description, NoFullDescription) && t.fullDescription != []
    ensures !Truthy(p.description) ==> t.shortDescription != t.fullDescription
    ensures t.upvotes == 0 && t.categories == ["general"] && t.comments == [] && t.publicGuide == Some([])
    ensures t.pricing == StrOr(p.pricing, "Free") && t.source == StrOr(p.source, "Closed Source")
    ensures t.submittedBy == Some(StrOr(p.submittedBy, "admin")) && t.websiteUrl == StrOr(p.websiteUrl, [])
    ensures t.logoUrl == StrOr(p.logoUrl, placeholder(100, 100, StrOr(p.name, "tool")))
    ensures p.features.Some? ==> t.features == p.features.value
    ensures p.features.None? ==> t.features == []
    ensures p.useCases.Some? ==> t.useCases == p.useCases.value
    ensures p.useCases.None? ==> t.useCases == []
    ensures p.tags.Some? ==> t.tags == p.tags.value
    ensures p.tags.None? ==> t.tags == []
    ensures p.screenshots.Some? ==> t.screenshots == p.screenshots.value
    ensures p.screenshots.None? ==>
      t.screenshots == [placeholder(600, 400, StrOr(p.name, "tool") + "1"), placeholder(600, 400, StrOr(p.name, "tool") + "2")]
    ensures p.createdAt.Some? ==> t.createdAt == p.createdAt.value
    ensures p.createdAt.None? ==> t.createdAt == now
    ensures p.updatedAt.Some? ==> t.updatedAt == p.updatedAt.value
    ensures p.updatedAt.None? ==> t.updatedAt == now
  {
    var caption := StrOr(p.name, "tool");
    assert |NoShortDescription| != |NoFullDescription|;
    Tool(
      IdPrefix + p.id,
      StrOr(p.name, UntitledTool),
      StrOr(p.logoUrl, placeholder(100, 100, caption)),
      StrOr(p.description, NoShortDescription),
      StrOr(p.description, NoFullDescription),
      StrOr(p.websiteUrl, []),
      ListOr(p.screenshots, [placeholder(600, 400, caption + "1"), placeholder(600, 400, caption + "2")]),
      ListOr(p.features, []),
      ListOr(p.useCases, []),
      0,
      ["general"],
      ListOr(p.tags, []),
      StrOr(p.pricing, "Free"),
      StrOr(p.source, "Closed Source"),
      Some([]),
      [],
      Some(StrOr(p.submittedBy, "admin")),
      TimeOr(p.createdAt, now),
      TimeOr(p.updatedAt, now))
  }

  /** The database id `getSupabaseToolById` looks up: the first `supabase-` removed when the id starts with it. */
  function DatabaseId(id: String): (r: String)
    ensures !StartsWith(id, IdPrefix) ==> r == id
  {
    if StartsWith(id, IdPrefix) then ReplaceFirst(id, IdPrefix, []) else id
  }

  /** The prefix and its removal round-trip: a converted tool's id leads back to its product's id. */
  lemma DatabaseIdRoundTrip(productId: String)
    ensures DatabaseId(IdPrefix + productId) == productId
  {
    var s := IdPrefix + productId;
    assert s[..|IdPrefix|] == IdPrefix;
    assert s[|IdPrefix|..] == productId;
  }

  /** `getSupabaseToolById`: the row found under the database id, converted; `None` on an error or no row. */
  function GetToolById(id: String, fetch: String -> Result<Option<Product>, String>, placeholder: Placeholder, now: Time): Option<Tool> {
    match fetch(DatabaseId(id))
    case Failure(_) => None
    case Success(None) => None
    case Success(Some(p)) => Some(ConvertProduct(p, placeholder, now))
  }

  /** Looking a converted tool up by its own id finds the same product again. */
  lemma GetToolByConvertedId(p: Product, fetch: String -> Result<Option<Product>, String>, placeholder: Placeholder, now: Time)
    requires fetch(p.id) == Success(Some(p))
    ensures GetToolById(ConvertProduct(p, placeholder, now).id, fetch, placeholder, now) == Some(ConvertProduct(p, placeholder, now))
  {
    DatabaseIdRoundTrip(p.id);
  }

  /** `getSupabaseTools`: every returned row converted in order; a client error gives the empty list. */
  function GetTools(response: Result<Option<seq<Product>>, String>, placeholder: Placeholder, now: Time): (r: seq<Tool>)
    ensures response.Failure? ==> r == []
    ensures response.Success? && response.value.Some? ==>
      |r| == |response.value.value|
      && forall i :: 0 <= i < |r| ==> r[i] == ConvertProduct(response.value.value[i], placeholder, now)
    ensures forall i :: 0 <= i < |r| ==> r[i].upvotes == 0 && StartsWith(r[i].id, IdPrefix)
  {
    match response
    case Failure(_) => []
    case Success(rows) =>
      var ps := if rows.Some? then rows.value else [];
      var r := seq(|ps|, i requires 0 <= i < |ps| => ConvertProduct(ps[i], placeholder, now));
      assert forall i :: 0 <= i < |r| ==> r[i].id[..|IdPrefix|] == IdPrefix;
      r
  }
}
