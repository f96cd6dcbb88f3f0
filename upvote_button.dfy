/**
 * The one-shot upvote button. A click is split at its `await`: `Click` starts the request and
 * `Settle` applies its outcome, so that a click while a request is in flight can be observed.
 * `localStorage` is a map field.
 */
module UpvoteButton {
  import opened Strings

  function StorageKey(itemId: String): String { "upvoted_" + itemId }

  /** Whether the browser remembers an upvote of the item. */
  predicate StoredUpvote(storage: map<String, String>, itemId: String) {
    StorageKey(itemId) in storage && storage[StorageKey(itemId)] == "true"
  }

  class Button {
    const itemId: String
    const initialUpvotes: int
    const initiallyUpvoted: bool
    var upvotes: int
    var isClicked: bool
    var hasUpvoted: bool
    var storage: map<String, String>

    /** The count has risen by one exactly when this button recorded an upvote, and never more. */
    ghost predicate Valid()
      reads this
    {
      upvotes == initialUpvotes + (if hasUpvoted && !initiallyUpvoted then 1 else 0)
      && (initiallyUpvoted ==> hasUpvoted)
      && (hasUpvoted && !initiallyUpvoted ==> StoredUpvote(storage, itemId))
    }

    constructor(initialUpvotes: int, itemId: String, storage: map<String, String>)
      ensures this.itemId == itemId && this.initialUpvotes == initialUpvotes && this.storage == storage
      ensures upvotes == initialUpvotes && !isClicked
      ensures hasUpvoted == StoredUpvote(storage, itemId) && initiallyUpvoted == hasUpvoted
      ensures Valid()
    {
      this.itemId := itemId;
      this.initialUpvotes := initialUpvotes;
      this.storage := storage;
      upvotes := initialUpvotes;
      isClicked := false;
      hasUpvoted := StoredUpvote(storage, itemId);
      initiallyUpvoted := StoredUpvote(storage, itemId);
    }

    /** The first half of `handleUpvoteClick`: ignored while in flight or once upvoted, else the request starts. */
    method Click() returns (started: bool)
      requires Valid()
      modifies this
      ensures Valid()
      ensures started <==> !old(isClicked) && !old(hasUpvoted)
      ensures started ==> isClicked
      ensures !started ==> isClicked == old(isClicked)
      ensures upvotes == old(upvotes) && hasUpvoted == old(hasUpvoted) && storage == old(storage)
    {
      if isClicked || hasUpvoted {
        return false;
      }
      isClicked := true;
      started := true;
    }

    /** The second half: on success one more upvote, remembered; on failure nothing but the flag changes. */
    method Settle(succeeded: bool)
      requires Valid() && isClicked && !hasUpvoted
      modifies this
      ensures Valid() && !isClicked
      ensures succeeded ==> upvotes == old(upvotes) + 1 && hasUpvoted && storage == old(storage)[StorageKey(itemId) := "true"]
      ensures !succeeded ==> upvotes == old(upvotes) && hasUpvoted == old(hasUpvoted) && storage == old(storage)
    {
      if succeeded {
        upvotes := upvotes + 1;
        hasUpvoted := true;
        storage := storage[StorageKey(itemId) := "true"];
      }
      isClicked := false;
    }
  }

  /** Whatever the clicks and outcomes, the count never rises by more than one. */
  lemma AtMostOneUpvote(b: Button)
    requires b.Valid()
    ensures b.initialUpvotes <= b.upvotes <= b.initialUpvotes + 1
  {
  }
}
