/** The notification keyword inputs of the settings page: a list that always keeps at least one input. */
module SettingsPage {
  import opened Strings
  import opened Seqs
  import opened ListEditor

  class SettingsState {
    var notificationKeywords: seq<String>

    /** There is always an input to type into. */
    ghost predicate Valid()
      reads this
    {
      |notificationKeywords| >= 1
    }

    /** The page opens with one empty keyword input. */
    constructor()
      ensures notificationKeywords == [[]] && Valid()
    {
      notificationKeywords := [[]];
    }

    /** `handleKeywordChange`: only that input takes the new value. */
    method HandleKeywordChange(index: int, value: String)
      requires Valid() && 0 <= index < |notificationKeywords|
      modifies this
      ensures Valid()
      ensures notificationKeywords == ChangeItem(old(notificationKeywords), index, value)
      ensures |notificationKeywords| == |old(notificationKeywords)| && notificationKeywords[index] == value
    {
      var newKeywords := notificationKeywords;
      newKeywords := newKeywords[index := value];
      notificationKeywords := newKeywords;
    }

    /** `addKeywordInput`: one more empty input at the end. */
    method AddKeywordInput()
      requires Valid()
      modifies this
      ensures Valid()
      ensures notificationKeywords == old(notificationKeywords) + [[]]
    {
      notificationKeywords := notificationKeywords + [[]];
    }

    /** `removeKeywordInput`: the input goes unless it is the last one, which is emptied instead. */
    method RemoveKeywordInput(index: int)
      requires Valid()
      modifies this
      ensures Valid()
      ensures |old(notificationKeywords)| > 1 ==> notificationKeywords == RemoveAt(old(notificationKeywords), index)
      ensures |old(notificationKeywords)| <= 1 ==> notificationKeywords == [[]]
    {
      if |notificationKeywords| > 1 {
        notificationKeywords := RemoveAt(notificationKeywords, index);
      } else {
        notificationKeywords := [[]];
      }
    }
  }
}
