/**
 * The forum's in-memory store: threads (newest first, with comment counts recomputed on every read)
 * and their comments (oldest first), creation, and upvotes.
 */
module ForumService {
  import opened Wrappers
  import opened Strings
  import opened Seqs
  import opened Sorting
  import opened Types

  /** What a caller supplies for a new thread: everything but id, time, upvotes and comment count. */
  datatype ThreadDraft = ThreadDraft(
    title: String,
    content: String,
    userId: String,
    username: String,
    avatarUrl: Option<String>,
    tags: Option<seq<String>>)

  /** What a caller supplies for a new comment: everything but id, thread, time and upvotes. */
  datatype CommentDraft = CommentDraft(userId: String, username: String, avatarUrl: Option<String>, text: String)

  /** The number of comments on a thread. */
  function CommentCount(comments: seq<ForumComment>, threadId: String): nat {
    |Filter(comments, (c: ForumComment) => c.threadId == threadId)|
  }

  /** Every thread with its comment count recomputed from the comments. */
  function WithCounts(threads: seq<ForumThread>, comments: seq<ForumComment>): (r: seq<ForumThread>)
    ensures |r| == |threads|
    ensures forall i :: 0 <= i < |r| ==> r[i] == threads[i].(commentCount := CommentCount(comments, threads[i].id))
  {
    seq(|threads|, i requires 0 <= i < |threads| => threads[i].(commentCount := CommentCount(comments, threads[i].id)))
  }

  function ThreadNewestFirst(a: ForumThread, b: ForumThread): int { b.createdAt - a.createdAt }
  function NegThreadTime(t: ForumThread): int { -t.createdAt }
  function CommentOldestFirst(a: ForumComment, b: ForumComment): int { a.createdAt - b.createdAt }
  function CommentTime(c: ForumComment): int { c.createdAt }

  /** `getForumThreads`' list: counts recomputed, then sorted newest first. */
  function ThreadsListing(threads: seq<ForumThread>, comments: seq<ForumComment>): seq<ForumThread> {
    SortWith(WithCounts(threads, comments), ThreadNewestFirst)
  }

  /**
   * The listing holds every stored thread once, each with the number of comments that carry its id,
   * newest first, threads of equal time in stored order.
   */
  lemma ThreadsListingSpec(threads: seq<ForumThread>, comments: seq<ForumComment>, v: int)
    ensures var r := ThreadsListing(threads, comments);
      multiset(r) == multiset(WithCounts(threads, comments))
      && (forall i :: 0 <= i < |r| ==> r[i].commentCount == CommentCount(comments, r[i].id))
      && SortedBy(r, NegThreadTime)
      && WithKey(r, NegThreadTime, v) == WithKey(WithCounts(threads, comments), NegThreadTime, v)
  {
    var w := WithCounts(threads, comments);
    assert forall a, b :: ThreadNewestFirst(a, b) == NegThreadTime(a) - NegThreadTime(b);
    SortWithIsSortBy(w, ThreadNewestFirst, NegThreadTime);
    SortBySorted(w, NegThreadTime);
    SortStable(w, NegThreadTime, v);
    var r := SortBy(w, NegThreadTime);
    forall i | 0 <= i < |r|
      ensures r[i].commentCount == CommentCount(comments, r[i].id)
    {
      assert r[i] in multiset(w);
      var k :| 0 <= k < |w| && w[k] == r[i];
    }
  }

  /** `getCommentsForThread`' list: that thread's comments, oldest first. */
  function ThreadComments(comments: seq<ForumComment>, threadId: String): seq<ForumComment> {
    SortWith(Filter(comments, (c: ForumComment) => c.threadId == threadId), CommentOldestFirst)
  }

  /** A comment is listed exactly when it carries the thread's id, as often as it is stored, oldest first. */
  lemma ThreadCommentsSpec(comments: seq<ForumComment>, threadId: String, c: ForumComment)
    ensures var r := ThreadComments(comments, threadId);
      (c in r <==> c in comments && c.threadId == threadId)
      && multiset(r) == multiset(Filter(comments, (c: ForumComment) => c.threadId == threadId))
      && |r| == CommentCount(comments, threadId)
      && SortedBy(r, CommentTime)
  {
    var p := (c: ForumComment) => c.threadId == threadId;
    var f := Filter(comments, p);
    assert forall a, b :: CommentOldestFirst(a, b) == CommentTime(a) - CommentTime(b);
    SortWithIsSortBy(f, CommentOldestFirst, CommentTime);
    SortBySorted(f, CommentTime);
    assert c in SortBy(f, CommentTime) <==> c in multiset(f);
    if c in comments && c.threadId == threadId {
      var i :| 0 <= i < |comments| && comments[i] == c;
      assert p(comments[i]);
    }
  }

  /** The forum's two module-level arrays. */
  class ForumStore {
    var threads: seq<ForumThread>
    var comments: seq<ForumComment>

    constructor(initialThreads: seq<ForumThread>, initialComments: seq<ForumComment>)
      ensures threads == initialThreads && comments == initialComments
    {
      threads := initialThreads;
      comments := initialComments;
    }

    /** `getForumThreads`: a fresh listing; the store itself is not reordered. */
    method GetForumThreads() returns (r: seq<ForumThread>)
      ensures r == ThreadsListing(threads, comments)
    {
      var counted := WithCounts(threads, comments);
      r := SortWith(counted, ThreadNewestFirst);
    }

    /** `getForumThreadById`: the first thread with that id, its comment count recomputed. */
    method GetForumThreadById(threadId: String) returns (r: Option<ForumThread>)
      ensures var i := IndexOfKey(threads, ThreadId, threadId);
        (i < 0 ==> r == None) && (i >= 0 ==> r == Some(threads[i].(commentCount := CommentCount(comments, threadId))))
      ensures r.Some? ==> r.value.id == threadId && r.value.commentCount == CommentCount(comments, threadId)
      ensures r.None? <==> forall j :: 0 <= j < |threads| ==> threads[j].id != threadId
    {
      var i := IndexOfKey(threads, ThreadId, threadId);
      if i < 0 {
        r := None;
      } else {
        r := Some(threads[i].(commentCount := CommentCount(comments, threads[i].id)));
      }
    }

    /** `getCommentsForThread`. */
    method GetCommentsForThread(threadId: String) returns (r: seq<ForumComment>)
      ensures r == ThreadComments(comments, threadId)
    {
      var own := Filter(comments, (c: ForumComment) => c.threadId == threadId);
      r := SortWith(own, CommentOldestFirst);
    }

    /** `createForumThread`: a new thread with no upvotes and no comments, placed first. */
    method CreateForumThread(draft: ThreadDraft, id: String, now: Time) returns (t: ForumThread)
      modifies this
      ensures t == ForumThread(id, draft.title, draft.content, draft.userId, draft.username, draft.avatarUrl, 0, now, 0, draft.tags)
      ensures threads == [t] + old(threads) && comments == old(comments)
    {
      t := ForumThread(id, draft.title, draft.content, draft.userId, draft.username, draft.avatarUrl, 0, now, 0, draft.tags);
      threads := [t] + threads;
    }

    /** `addCommentToThread`: a new comment appended; whether the thread exists is not checked. */
    method AddCommentToThread(threadId: String, draft: CommentDraft, id: String, now: Time) returns (c: ForumComment)
      modifies this
      ensures c == ForumComment(id, threadId, draft.userId, draft.username, draft.avatarUrl, draft.text, 0, now)
      ensures comments == old(comments) + [c] && threads == old(threads)
    {
      c := ForumComment(id, threadId, draft.userId, draft.username, draft.avatarUrl, draft.text, 0, now);
      comments := comments + [c];
    }

    /** `upvoteThread`: one more upvote on the first thread with that id; nothing changes otherwise. */
    method UpvoteThread(threadId: String) returns (r: Option<ForumThread>)
      modifies this
      ensures var i := IndexOfKey(old(threads), ThreadId, threadId);
        if i < 0 then r == None && threads == old(threads)
        else threads == old(threads)[i := old(threads)[i].(upvotes := old(threads)[i].upvotes + 1)] && r == Some(threads[i])
      ensures comments == old(comments)
    {
      var i := IndexOfKey(threads, ThreadId, threadId);
      if i < 0 {
        r := None;
      } else {
        threads := threads[i := threads[i].(upvotes := threads[i].upvotes + 1)];
        r := Some(threads[i]);
      }
    }

    /** `upvoteForumComment`: one more upvote on the first comment with that id; nothing changes otherwise. */
    method UpvoteForumComment(commentId: String) returns (r: Option<ForumComment>)
      modifies this
      ensures var i := IndexOfKey(old(comments), ForumCommentId, commentId);
        if i < 0 then r == None && comments == old(comments)
        else comments == old(comments)[i := old(comments)[i].(upvotes := old(comments)[i].upvotes + 1)] && r == Some(comments[i])
      ensures threads == old(threads)
    {
      var i := IndexOfKey(comments, ForumCommentId, commentId);
      if i < 0 {
        r := None;
      } else {
        comments := comments[i := comments[i].(upvotes := comments[i].upvotes + 1)];
        r := Some(comments[i]);
      }
    }
  }

  /** A new comment raises its thread's count by one and leaves every other thread's count alone. */
  lemma {:induction false} CommentCountAfterAdd(comments: seq<ForumComment>, c: ForumComment, threadId: String)
    ensures CommentCount(comments + [c], threadId) == CommentCount(comments, threadId) + (if c.threadId == threadId then 1 else 0)
  {
    var p := (x: ForumComment) => x.threadId == threadId;
    FilterConcat(comments, [c], p);
    assert Filter([c], p) == (if p(c) then [c] else []) + Filter([], p);
  }
}
