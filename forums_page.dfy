/**
 * The forum's listing page: the threads, the thread cards with their one-shot upvote, and the
 * dialog that creates a thread from a title, a content and a comma-separated tag line. The
 * signed-in user, the new id, the clock and the browser's storage are inputs; each handler is one
 * atomic step.
 */
module ForumsPage {
  import opened Wrappers
  import opened Strings
  import opened Seqs
  import opened Types
  import opened ListEditor
  import opened ToolForms
  import FS = ForumService

  /** `tags.split(',').map(t => t.trim().toLowerCase()).filter(t => t)`. */
  function ParseTags(line: String): seq<String> {
    TagItems(Split(line, ','))
  }

  /** One piece of the line, once trimmed and lower-cased, is a clean tag without commas unless empty. */
  lemma TagPieceClean(piece: String)
    requires ',' !in piece
    ensures var x := ToLower(Trim(piece)); x != [] ==> CleanTag(x) && ',' !in x
  {
    var t := Trim(piece);
    TrimIdempotent(piece);
    LowerKeepsTrimmed(t);
    ToLowerIdempotent(t);
    TrimKeepsMissingChar(piece, ',');
    LowerKeepsMissingChar(t, ',');
  }

  /** Every parsed tag is non-empty, trimmed, lower-case and free of commas. */
  lemma ParseTagsShape(line: String)
    ensures CleanTagList(ParseTags(line))
    ensures forall i :: 0 <= i < |ParseTags(line)| ==> ',' !in ParseTags(line)[i]
  {
    var parts := Split(line, ',');
    var tags := TagItems(parts);
    forall i | 0 <= i < |tags|
      ensures CleanTag(tags[i]) && ',' !in tags[i]
    {
      var k := TagItemsSource(parts, i);
      TagPieceClean(parts[k]);
    }
  }

  /** An empty line parses to no tags. */
  lemma ParseEmptyLine()
    ensures ParseTags([]) == []
  {
    var blank: String := [];
    assert Split(blank, ',') == [blank];
    assert Trim(blank) == blank;
    assert ToLower(blank) == blank;
    assert seq(1, i requires 0 <= i < 1 => ToLower(Trim([blank][i]))) == [blank];
    assert NonEmpty([blank]) == [] + NonEmpty([]);
  }

  /** Writing clean, comma-free tags as one comma-separated line and parsing it gives them back. */
  lemma ParseJoinedTags(tags: seq<String>)
    requires CleanTagList(tags) && forall i :: 0 <= i < |tags| ==> ',' !in tags[i]
    ensures ParseTags(Join(tags, ',')) == tags
  {
    if tags == [] {
      ParseEmptyLine();
    } else {
      SplitJoin(tags, ',');
      CleanTagsUnchanged(tags);
    }
  }

  /** Parsing is idempotent: the parsed tags, written out again, parse to themselves. */
  lemma ParseTagsIdempotent(line: String)
    ensures ParseTags(Join(ParseTags(line), ',')) == ParseTags(line)
  {
    ParseTagsShape(line);
    ParseJoinedTags(ParseTags(line));
  }

  /** The record handed to `createForumThread` for a user. */
  function NewThreadDraft(title: String, content: String, tagLine: String, user: User): FS.ThreadDraft {
    FS.ThreadDraft(title, content, user.id, user.username, user.avatarUrl, Some(ParseTags(tagLine)))
  }

  /** The browser storage key that remembers an upvote of a thread. */
  function ThreadUpvoteKey(threadId: String): String {
    "upvoted_thread_" + threadId
  }

  /** Whether the browser remembers an upvote of the thread. */
  predicate StoredThreadUpvote(storage: map<String, String>, threadId: String) {
    ThreadUpvoteKey(threadId) in storage && storage[ThreadUpvoteKey(threadId)] == "true"
  }

  /** Keys of different threads never coincide, so remembering one upvote leaves every other as it was. */
  lemma ThreadUpvoteKeysDistinct(storage: map<String, String>, a: String, b: String)
    requires a != b
    ensures StoredThreadUpvote(storage[ThreadUpvoteKey(a) := "true"], b) <==> StoredThreadUpvote(storage, b)
    ensures StoredThreadUpvote(storage[ThreadUpvoteKey(a) := "true"], a)
  {
    var p := "upvoted_thread_";
    assert ThreadUpvoteKey(a)[|p|..] == a && ThreadUpvoteKey(b)[|p|..] == b;
  }

  /** One thread's card: its count and whether this browser has upvoted it. */
  class ThreadCard {
    const threadId: String
    const initialUpvotes: int
    const initiallyUpvoted: bool
    var currentUpvotes: int
    var isUpvoted: bool
    var storage: map<String, String>

    /** The count has risen by one exactly when this card recorded an upvote, and the browser remembers it. */
    ghost predicate Valid()
      reads this
    {
      currentUpvotes == initialUpvotes + (if isUpvoted && !initiallyUpvoted then 1 else 0)
      && (initiallyUpvoted ==> isUpvoted)
      && (isUpvoted && !initiallyUpvoted ==> StoredThreadUpvote(storage, threadId))
    }

    /** The card starts from the thread's count and from what the browser remembers. */
    constructor(thread: ForumThread, storage: map<String, String>)
      ensures threadId == thread.id && initialUpvotes == thread.upvotes && this.storage == storage
      ensures currentUpvotes == thread.upvotes
      ensures isUpvoted == StoredThreadUpvote(storage, thread.id) && initiallyUpvoted == isUpvoted
      ensures Valid()
    {
      threadId := thread.id;
      initialUpvotes := thread.upvotes;
      currentUpvotes := thread.upvotes;
      isUpvoted := StoredThreadUpvote(storage, thread.id);
      initiallyUpvoted := StoredThreadUpvote(storage, thread.id);
      this.storage := storage;
    }

    /**
     * `handleUpvoteClick`: once upvoted nothing happens; otherwise the store counts one more
     * upvote (a failure there is swallowed), the card counts one more and the browser remembers it.
     */
    method HandleUpvoteClick(store: FS.ForumStore)
      requires Valid()
      modifies this, store
      ensures Valid()
      ensures initialUpvotes <= currentUpvotes <= initialUpvotes + 1
      ensures old(isUpvoted) ==>
        currentUpvotes == old(currentUpvotes) && isUpvoted && storage == old(storage)
        && store.threads == old(store.threads)
      ensures !old(isUpvoted) ==>
        currentUpvotes == old(currentUpvotes) + 1 && isUpvoted
        && storage == old(storage)[ThreadUpvoteKey(threadId) := "true"]
        && var i := IndexOfKey(old(store.threads), ThreadId, threadId);
           store.threads == (if i < 0 then old(store.threads)
                             else old(store.threads)[i := old(store.threads)[i].(upvotes := old(store.threads)[i].upvotes + 1)])
      ensures store.comments == old(store.comments)
    {
      if !isUpvoted {
        var _ := store.UpvoteThread(threadId);
        currentUpvotes := currentUpvotes + 1;
        isUpvoted := true;
        storage := storage[ThreadUpvoteKey(threadId) := "true"];
      }
    }
  }

  /** The page's state. */
  class ForumsState {
    var threads: seq<ForumThread>
    var isModalOpen: bool
    var newThreadTitle: String
    var newThreadContent: String
    var newThreadTags: String

    constructor()
      ensures threads == [] && !isModalOpen
      ensures newThreadTitle == [] && newThreadContent == [] && newThreadTags == []
    {
      threads, isModalOpen := [], false;
      newThreadTitle, newThreadContent, newThreadTags := [], [], [];
    }

    /** `fetchThreads`: the store's listing, newest first with comment counts. */
    method FetchThreads(store: FS.ForumStore)
      modifies this
      ensures threads == FS.ThreadsListing(store.threads, store.comments)
      ensures isModalOpen == old(isModalOpen) && newThreadTitle == old(newThreadTitle)
      ensures newThreadContent == old(newThreadContent) && newThreadTags == old(newThreadTags)
    {
      threads := store.GetForumThreads();
    }

    /** Whether the dialog's inputs may be submitted: a signed-in user, a title and a content. */
    predicate CanCreate(currentUser: Option<User>)
      reads this
    {
      currentUser.Some? && !IsBlank(newThreadTitle) && !IsBlank(newThreadContent)
    }

    /**
     * `handleCreateThread`: without a signed-in user, a title or a content nothing happens and no
     * thread is shown; otherwise the thread is created, shown and put first in the listing.
     */
    method HandleCreateThread(currentUser: Option<User>, store: FS.ForumStore, id: String, now: Time)
      returns (shown: Option<String>)
      modifies this, store
      ensures !old(CanCreate(currentUser)) ==>
        shown == None && threads == old(threads) && store.threads == old(store.threads)
        && newThreadTitle == old(newThreadTitle) && newThreadContent == old(newThreadContent)
        && newThreadTags == old(newThreadTags) && isModalOpen == old(isModalOpen)
      ensures old(CanCreate(currentUser)) ==>
        var t := NewThread(NewThreadDraft(old(newThreadTitle), old(newThreadContent), old(newThreadTags), currentUser.value), id, now);
        && shown == Some(id) && threads == [t] + old(threads) && store.threads == [t] + old(store.threads)
        && !isModalOpen && newThreadTitle == [] && newThreadContent == [] && newThreadTags == []
      ensures store.comments == old(store.comments)
    {
      if !CanCreate(currentUser) {
        return None;
      }
      var draft := NewThreadDraft(newThreadTitle, newThreadContent, newThreadTags, currentUser.value);
      shown := CreateThread(draft, store, id, now);
    }

    /** The part of `handleCreateThread` past its guard, given the draft the dialog's inputs make. */
    method CreateThread(draft: FS.ThreadDraft, store: FS.ForumStore, id: String, now: Time) returns (shown: Option<String>)
      modifies this, store
      ensures var t := NewThread(draft, id, now);
        && shown == Some(id) && threads == [t] + old(threads) && store.threads == [t] + old(store.threads)
        && !isModalOpen && newThreadTitle == [] && newThreadContent == [] && newThreadTags == []
      ensures store.comments == old(store.comments)
    {
      var t := store.CreateForumThread(draft, id, now);
      threads := [t] + threads;
      isModalOpen := false;
      newThreadTitle, newThreadContent, newThreadTags := [], [], [];
      shown := Some(t.id);
    }
  }

  /** The thread `createForumThread` makes of a draft: no upvotes and no comments yet. */
  function NewThread(d: FS.ThreadDraft, id: String, now: Time): ForumThread {
    ForumThread(id, d.title, d.content, d.userId, d.username, d.avatarUrl, 0, now, 0, d.tags)
  }

  /** A created thread carries the dialog's title and content and the parsed, clean tags. */
  lemma NewThreadTags(title: String, content: String, tagLine: String, user: User)
    ensures var d := NewThreadDraft(title, content, tagLine, user);
      && d.tags.Some? && CleanTagList(d.tags.value)
      && d.userId == user.id && d.username == user.username && d.avatarUrl == user.avatarUrl
      && (forall i :: 0 <= i < |d.tags.value| ==> ',' !in d.tags.value[i])
  {
    ParseTagsShape(tagLine);
  }
}
