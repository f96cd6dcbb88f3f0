/**
 * The editable string lists of the forms (features, use cases, tags, screenshots, keywords): one
 * input per entry, an add button and a remove button per entry, and the clean-up applied at submit.
 */
module ListEditor {
  import opened Strings
  import opened Seqs

  /** Change one input: only that entry takes the new value. */
  function ChangeItem(list: seq<String>, index: int, value: String): (r: seq<String>)
    requires 0 <= index < |list|
    ensures |r| == |list| && r[index] == value
    ensures forall j :: 0 <= j < |r| && j != index ==> r[j] == list[j]
  {
    list[index := value]
  }

  /** Add an input: an empty entry at the end. */
  function AddItem(list: seq<String>): (r: seq<String>)
    ensures |r| == |list| + 1 && r[..|list|] == list && r[|list|] == []
  {
    list + [[]]
  }

  /**
   * Remove an input: the entry goes when there is more than one, otherwise the list is reset to a
   * single empty entry, so that there is always an input to type into.
   */
  function RemoveItem(list: seq<String>, index: int): (r: seq<String>)
    ensures |r| >= 1
    ensures |list| > 1 ==> r == RemoveAt(list, index)
    ensures |list| <= 1 ==> r == [[]]
  {
    if |list| > 1 then RemoveAt(list, index) else [[]]
  }

  /** Removing the input just added gives the list back. */
  lemma RemoveAddedItem(list: seq<String>)
    requires |list| >= 1
    ensures RemoveItem(AddItem(list), |list|) == list
  {
    assert AddItem(list)[..|list|] == list;
  }

  /** Changing an entry back to its old value undoes the change. */
  lemma ChangeItemUndo(list: seq<String>, index: int, value: String)
    requires 0 <= index < |list|
    ensures ChangeItem(ChangeItem(list, index, value), index, list[index]) == list
  {
  }

  /** A non-empty list stays non-empty through any change, add or remove. */
  ghost predicate NeverEmpty(list: seq<String>) { |list| >= 1 }

  lemma EditsKeepNonEmpty(list: seq<String>, index: int, value: String)
    requires NeverEmpty(list)
    ensures 0 <= index < |list| ==> NeverEmpty(ChangeItem(list, index, value))
    ensures NeverEmpty(AddItem(list)) && NeverEmpty(RemoveItem(list, index))
  {
  }

  /** An empty list is shown as a single empty input. */
  function PadEmpty(list: seq<String>): (r: seq<String>)
    ensures |r| >= 1
    ensures list != [] ==> r == list
    ensures list == [] ==> r == [[]]
  {
    if |list| > 0 then list else [[]]
  }

  /** `list.filter(x => x.trim())`: the entries that are not blank, untrimmed. */
  function NonBlankItems(list: seq<String>): (r: seq<String>)
    ensures forall i :: 0 <= i < |r| ==> !IsBlank(r[i])
    ensures forall x :: x in r <==> x in list && !IsBlank(x)
  {
    Filter(list, (x: String) => !IsBlank(x))
  }

  /** `list.map(x => x.trim())`. */
  function TrimAll(list: seq<String>): (r: seq<String>)
    ensures |r| == |list| && forall i :: 0 <= i < |r| ==> r[i] == Trim(list[i])
  {
    seq(|list|, i requires 0 <= i < |list| => Trim(list[i]))
  }

  /** `list.map(x => x.trim()).filter(x => x)`: the entries trimmed, the empty ones dropped. */
  function TrimmedItems(list: seq<String>): seq<String> {
    NonEmpty(TrimAll(list))
  }

  /** `list.map(x => x.trim().toLowerCase()).filter(x => x)`. */
  function TagItems(list: seq<String>): seq<String> {
    NonEmpty(seq(|list|, i requires 0 <= i < |list| => ToLower(Trim(list[i]))))
  }

  /**
   * Trimming then dropping the empty entries is dropping the blank entries then trimming, so the
   * submitted lists hold exactly the trimmed non-blank inputs, in order.
   */
  lemma {:induction false} TrimmedItemsAreTrimmedNonBlank(list: seq<String>)
    ensures TrimmedItems(list) == TrimAll(NonBlankItems(list))
    decreases |list|
  {
    if list != [] {
      var x, rest := list[0], list[1..];
      TrimmedItemsAreTrimmedNonBlank(rest);
      TrimmedItemsCons(list);
      NonBlankItemsCons(list);
      if !IsBlank(x) {
        TrimAllCons(x, NonBlankItems(rest));
        calc {
          TrimmedItems(list);
          [Trim(x)] + TrimmedItems(rest);
          [Trim(x)] + TrimAll(NonBlankItems(rest));
          TrimAll([x] + NonBlankItems(rest));
        }
      } else {
        calc {
          TrimmedItems(list);
          [] + TrimmedItems(rest);
          TrimAll(NonBlankItems(rest));
        }
      }
    }
  }

  lemma TrimmedItemsCons(list: seq<String>)
    requires list != []
    ensures TrimmedItems(list) == (if Trim(list[0]) != [] then [Trim(list[0])] else []) + TrimmedItems(list[1..])
  {
    assert TrimAll(list)[0] == Trim(list[0]) && TrimAll(list)[1..] == TrimAll(list[1..]);
  }

  lemma NonBlankItemsCons(list: seq<String>)
    requires list != []
    ensures NonBlankItems(list) == (if !IsBlank(list[0]) then [list[0]] else []) + NonBlankItems(list[1..])
  {
  }

  lemma TrimAllCons(x: String, rest: seq<String>)
    ensures TrimAll([x] + rest) == [Trim(x)] + TrimAll(rest)
  {
  }

  /** What is submitted from the lists: neither empty nor with surrounding white space. */
  lemma TrimmedItemsShape(list: seq<String>)
    ensures forall i :: 0 <= i < |TrimmedItems(list)| ==> TrimmedItems(list)[i] != [] && Trim(TrimmedItems(list)[i]) == TrimmedItems(list)[i]
  {
    forall i | 0 <= i < |TrimmedItems(list)|
      ensures Trim(TrimmedItems(list)[i]) == TrimmedItems(list)[i]
    {
      var x := TrimmedItems(list)[i];
      assert x in TrimAll(list);
      var k :| 0 <= k < |list| && TrimAll(list)[k] == x;
      TrimIdempotent(list[k]);
    }
  }

  /** Each submitted tag is a non-empty trimmed, lower-cased entry of the list. */
  lemma TagItemsSource(list: seq<String>, i: nat) returns (k: nat)
    requires i < |TagItems(list)|
    ensures k < |list| && TagItems(list)[i] == ToLower(Trim(list[k])) && TagItems(list)[i] != []
  {
    var lowered := seq(|list|, j requires 0 <= j < |list| => ToLower(Trim(list[j])));
    var x := TagItems(list)[i];
    assert x in lowered;
    k :| 0 <= k < |list| && lowered[k] == x;
  }

  /** The submitted tags are trimmed and lower-cased: lower-casing them again changes nothing. */
  lemma TagItemsLowerCase(list: seq<String>)
    ensures forall i :: 0 <= i < |TagItems(list)| ==> TagItems(list)[i] != [] && ToLower(TagItems(list)[i]) == TagItems(list)[i]
  {
    var lowered := seq(|list|, i requires 0 <= i < |list| => ToLower(Trim(list[i])));
    forall i | 0 <= i < |TagItems(list)|
      ensures ToLower(TagItems(list)[i]) == TagItems(list)[i]
    {
      var x := TagItems(list)[i];
      assert x in lowered;
      var k :| 0 <= k < |list| && lowered[k] == x;
      ToLowerIdempotent(Trim(list[k]));
    }
  }
}
