/**
 * The signed-in user and their favorites. Adding or removing a favorite updates the user at once
 * and reverts to the previous list when persisting it fails; each handler is one atomic step, and
 * whether the backend call succeeds is an input.
 */
module AuthContext {
  import opened Wrappers
  import opened Strings
  import opened Seqs
  import opened Types

  /** The favorites after adding `toolId`: appended at the end, with no check for a duplicate. */
  function AddedFavorites(favorites: seq<String>, toolId: String): (r: seq<String>)
    ensures |r| == |favorites| + 1 && r[..|favorites|] == favorites && r[|favorites|] == toolId
    ensures multiset(r)[toolId] == multiset(favorites)[toolId] + 1
  {
    favorites + [toolId]
  }

  /** The favorites after removing `toolId`: every occurrence dropped, the others in order. */
  function RemovedFavorites(favorites: seq<String>, toolId: String): (r: seq<String>)
    ensures toolId !in r
    ensures forall x :: x != toolId ==> multiset(r)[x] == multiset(favorites)[x]
  {
    RemoveAll(favorites, toolId)
  }

  /** Removing keeps the relative order of the remaining ids: it distributes over concatenation. */
  lemma RemovedFavoritesInOrder(a: seq<String>, b: seq<String>, toolId: String)
    ensures RemovedFavorites(a + b, toolId) == RemovedFavorites(a, toolId) + RemovedFavorites(b, toolId)
  {
    RemoveAllConcat(a, b, toolId);
  }

  /** Adding an id that was not yet a favorite and then removing it restores the list. */
  lemma AddThenRemove(favorites: seq<String>, toolId: String)
    requires toolId !in favorites
    ensures RemovedFavorites(AddedFavorites(favorites, toolId), toolId) == favorites
  {
    RemoveAllConcat(favorites, [toolId], toolId);
    RemoveAllAbsent(favorites, toolId);
    assert RemoveAll([toolId], toolId) == [];
  }

  /** `AuthProvider`'s state. */
  class AuthState {
    var currentUser: Option<User>
    var isLoading: bool

    constructor()
      ensures currentUser == None && isLoading
    {
      currentUser := None;
      isLoading := true;
    }

    /** `isFavorite`. */
    function IsFavorite(toolId: String): (r: bool)
      reads this
      ensures r <==> currentUser.Some? && toolId in currentUser.value.favorites
    {
      match currentUser
      case None => false
      case Some(u) => toolId in u.favorites
    }

    /** `logout`: the user is gone and loading is over. */
    method Logout()
      modifies this
      ensures currentUser == None && !isLoading
    {
      isLoading := true;
      currentUser := None;
      isLoading := false;
    }

    /**
     * `addFavoriteTool`: nothing without a user; otherwise the optimistic list, kept when
     * `persisted`, else reverted to the list before the call and the error rethrown.
     */
    method AddFavoriteTool(toolId: String, persisted: bool) returns (threw: bool)
      modifies this
      ensures old(currentUser).None? ==> currentUser == None && !threw
      ensures old(currentUser).Some? && persisted ==>
        currentUser == Some(old(currentUser).value.(favorites := AddedFavorites(old(currentUser).value.favorites, toolId))) && !threw
      ensures old(currentUser).Some? && !persisted ==> currentUser == old(currentUser) && threw
      ensures isLoading == old(isLoading)
    {
      threw := false;
      if currentUser.None? {
        return;
      }
      var before := currentUser.value;
      var newFavorites := AddedFavorites(before.favorites, toolId);
      currentUser := Some(currentUser.value.(favorites := newFavorites));
      if !persisted {
        currentUser := Some(currentUser.value.(favorites := before.favorites));
        threw := true;
      }
    }

    /** `removeFavoriteTool`: as adding, with every occurrence of the id dropped instead. */
    method RemoveFavoriteTool(toolId: String, persisted: bool) returns (threw: bool)
      modifies this
      ensures old(currentUser).None? ==> currentUser == None && !threw
      ensures old(currentUser).Some? && persisted ==>
        currentUser == Some(old(currentUser).value.(favorites := RemovedFavorites(old(currentUser).value.favorites, toolId))) && !threw
      ensures old(currentUser).Some? && !persisted ==> currentUser == old(currentUser) && threw
      ensures isLoading == old(isLoading)
    {
      threw := false;
      if currentUser.None? {
        return;
      }
      var before := currentUser.value;
      var newFavorites := RemovedFavorites(before.favorites, toolId);
      currentUser := Some(currentUser.value.(favorites := newFavorites));
      if !persisted {
        currentUser := Some(currentUser.value.(favorites := before.favorites));
        threw := true;
      }
    }
  }

  /** After a persisted add the tool is a favorite; after a persisted remove it is not. */
  lemma FavoriteAfterChange(u: User, toolId: String)
    ensures toolId in AddedFavorites(u.favorites, toolId)
    ensures toolId !in RemovedFavorites(u.favorites, toolId)
  {
    assert AddedFavorites(u.favorites, toolId)[|u.favorites|] == toolId;
  }
}
