/**
 * The catalog's records. Timestamps are milliseconds since the epoch; optional properties are
 * `Option`s; the pricing and source unions are plain strings, because values from the language
 * model reach them through unchecked casts.
 */
module Types {
  import opened Wrappers
  import opened Strings

  type Time = int
  type PricingTier = String
  type SourceType = String

  datatype User = User(
    id: String,
    username: String,
    email: Option<String>,
    avatarUrl: Option<String>,
    isAdmin: bool,
    favorites: seq<String>)

  datatype ToolCategory = ToolCategory(id: String, name: String, description: String)

  datatype ToolComment = ToolComment(
    id: String,
    toolId: String,
    userId: String,
    username: String,
    avatarUrl: Option<String>,
    text: String,
    upvotes: int,
    createdAt: Time)

  datatype Tool = Tool(
    id: String,
    name: String,
    logoUrl: String,
    shortDescription: String,
    fullDescription: String,
    websiteUrl: String,
    screenshots: seq<String>,
    features: seq<String>,
    useCases: seq<String>,
    upvotes: int,
    categories: seq<String>,
    tags: seq<String>,
    pricing: PricingTier,
    source: SourceType,
    publicGuide: Option<String>,
    comments: seq<ToolComment>,
    submittedBy: Option<String>,
    createdAt: Time,
    updatedAt: Time)

  datatype ForumThread = ForumThread(
    id: String,
    title: String,
    content: String,
    userId: String,
    username: String,
    avatarUrl: Option<String>,
    upvotes: int,
    createdAt: Time,
    commentCount: int,
    tags: Option<seq<String>>)

  datatype ForumComment = ForumComment(
    id: String,
    threadId: String,
    userId: String,
    username: String,
    avatarUrl: Option<String>,
    text: String,
    upvotes: int,
    createdAt: Time)

  datatype NewsletterIssue = NewsletterIssue(
    id: String,
    title: String,
    content: String,
    sentAt: Time,
    summary: Option<String>)

  datatype AISearchSuggestion = AISearchSuggestion(categories: seq<String>, keywords: seq<String>)

  /** Every field is optional: this is what a generation step may or may not have filled in. */
  datatype AIGeneratedToolDetails = AIGeneratedToolDetails(
    name: Option<String>,
    shortDescription: Option<String>,
    fullDescription: Option<String>,
    features: Option<seq<String>>,
    categories: Option<seq<String>>,
    useCases: Option<seq<String>>,
    tags: Option<seq<String>>,
    logoUrl: Option<String>,
    pricing: Option<PricingTier>,
    source: Option<SourceType>)

  /** JavaScript truthiness of an optional string: present and not empty. */
  predicate Truthy(o: Option<String>) {
    o.Some? && o.value != []
  }

  /** `o || d` for an optional string. */
  function StrOr(o: Option<String>, d: String): (r: String)
    ensures Truthy(o) ==> r == o.value
    ensures !Truthy(o) ==> r == d
  {
    if Truthy(o) then o.value else d
  }

  /** The id fields, as function values for the by-id lookups. */
  function ToolId(t: Tool): String { t.id }
  function ThreadId(t: ForumThread): String { t.id }
  function ForumCommentId(c: ForumComment): String { c.id }
  function IssueId(i: NewsletterIssue): String { i.id }
  function CategoryIdOf(c: ToolCategory): String { c.id }
  function CategoryNameOf(c: ToolCategory): String { c.name }
}
