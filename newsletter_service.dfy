/** The newsletter archive: issues listed newest first, created, and (in simulation) sent. */
module NewsletterService {
  import opened Wrappers
  import opened Strings
  import opened Seqs
  import opened Sorting
  import opened Types

  /** What a caller supplies for a new issue: everything but id and send time. */
  datatype IssueDraft = IssueDraft(title: String, content: String, summary: Option<String>)

  function NewestSentFirst(a: NewsletterIssue, b: NewsletterIssue): int { b.sentAt - a.sentAt }
  function NegSentAt(i: NewsletterIssue): int { -i.sentAt }

  /** The archive's listing: every issue, newest first, issues sent at the same time in stored order. */
  function IssuesListing(issues: seq<NewsletterIssue>): seq<NewsletterIssue> {
    SortWith(issues, NewestSentFirst)
  }

  lemma IssuesListingSpec(issues: seq<NewsletterIssue>, v: int)
    ensures var r := IssuesListing(issues);
      multiset(r) == multiset(issues) && SortedBy(r, NegSentAt)
      && WithKey(r, NegSentAt, v) == WithKey(issues, NegSentAt, v)
  {
    assert forall a, b :: NewestSentFirst(a, b) == NegSentAt(a) - NegSentAt(b);
    SortWithIsSortBy(issues, NewestSentFirst, NegSentAt);
    SortBySorted(issues, NegSentAt);
    SortStable(issues, NegSentAt, v);
  }

  /** `MOCK_NEWSLETTER_ISSUES` and its operations. */
  class NewsletterStore {
    var issues: seq<NewsletterIssue>

    constructor(initial: seq<NewsletterIssue>)
      ensures issues == initial
    {
      issues := initial;
    }

    /** `getNewsletterIssues`: a sorted copy; the stored order is kept. */
    method GetNewsletterIssues() returns (r: seq<NewsletterIssue>)
      ensures r == IssuesListing(issues)
      ensures |r| == |issues|
    {
      var copy := issues;
      IssuesListingSpec(copy, 0);
      r := SortWith(copy, NewestSentFirst);
      assert |r| == |multiset(r)| == |multiset(copy)|;
    }

    /** `createNewsletterIssue`: exactly one issue appended, with the given title, content and summary. */
    method CreateNewsletterIssue(draft: IssueDraft, id: String, now: Time) returns (issue: NewsletterIssue)
      modifies this
      ensures issue == NewsletterIssue(id, draft.title, draft.content, now, draft.summary)
      ensures issues == old(issues) + [issue] && |issues| == |old(issues)| + 1
    {
      issue := NewsletterIssue(id, draft.title, draft.content, now, draft.summary);
      issues := issues + [issue];
    }

    /** `sendNewsletterIssue`: true exactly when an issue with that id exists. */
    method SendNewsletterIssue(issueId: String) returns (sent: bool)
      ensures sent <==> exists i :: 0 <= i < |issues| && issues[i].id == issueId
    {
      var i := IndexOfKey(issues, IssueId, issueId);
      sent := i >= 0;
    }
  }
}
