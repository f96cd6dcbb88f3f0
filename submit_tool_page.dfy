/**
 * The page where a signed-in user submits a tool by hand: plain inputs, three editable lists, a
 * category checklist, and a submit that cleans the lists and inserts the tool into the store.
 * The signed-in user, the new id and the clock are inputs; the handlers are atomic steps.
 */
module SubmitToolPage {
  import opened Wrappers
  import opened Strings
  import opened Seqs
  import opened Types
  import opened ListEditor
  import TS = ToolService

  const NotSignedInError := "You must be logged in to submit a tool."
  const NoCategoryError := "Please select at least one category."
  const SubmittedSource: SourceType := "Closed Source"

  /** The pricing the form starts from: the first pricing option. */
  const DefaultPricing: PricingTier := TS.PricingOptions[0]

  /** The confirmation shown after a submission, naming the tool. */
  function SuccessMessage(name: String): String {
    "Tool \"" + name + "\" submitted successfully! It will be reviewed by our team."
  }

  /** The three lists edited input by input. */
  datatype ListInput = KeyFeatures | UseCaseInputs | ScreenshotUrls

  /**
   * The record handed to `submitTool`: the inputs as typed, the features and use cases without
   * their blank entries (kept untrimmed), the screenshots trimmed without empty entries, the logo
   * trimmed, no tags, a closed source, no guide, and the signed-in user as submitter.
   */
  function SubmitDraft(name: String, websiteUrl: String, pricing: PricingTier, shortDescription: String,
                       fullDescription: String, categories: seq<String>, features: seq<String>,
                       useCases: seq<String>, logoUrl: String, screenshots: seq<String>, userId: String): TS.ToolDraft
  {
    TS.ToolDraft(name, Trim(logoUrl), shortDescription, fullDescription, websiteUrl, TrimmedItems(screenshots),
                 NonBlankItems(features), NonBlankItems(useCases), categories, [], pricing, SubmittedSource,
                 None, Some(userId))
  }

  /** Every feature and use case submitted is a non-blank input, and every non-blank input is submitted. */
  lemma SubmitDraftLists(name: String, websiteUrl: String, pricing: PricingTier, shortDescription: String,
                         fullDescription: String, categories: seq<String>, features: seq<String>,
                         useCases: seq<String>, logoUrl: String, screenshots: seq<String>, userId: String)
    ensures var d := SubmitDraft(name, websiteUrl, pricing, shortDescription, fullDescription, categories,
                                 features, useCases, logoUrl, screenshots, userId);
      && (forall x :: x in d.features <==> x in features && !IsBlank(x))
      && (forall x :: x in d.useCases <==> x in useCases && !IsBlank(x))
  {
    var d := SubmitDraft(name, websiteUrl, pricing, shortDescription, fullDescription, categories,
                         features, useCases, logoUrl, screenshots, userId);
    assert d.features == NonBlankItems(features) && d.useCases == NonBlankItems(useCases);
  }

  /**
   * The rest of a submission: the screenshots are the trimmed non-blank inputs, the logo is
   * trimmed, tags are empty, the source is closed and the submitter is the signed-in user.
   */
  lemma SubmitDraftShape(name: String, websiteUrl: String, pricing: PricingTier, shortDescription: String,
                         fullDescription: String, categories: seq<String>, features: seq<String>,
                         useCases: seq<String>, logoUrl: String, screenshots: seq<String>, userId: String)
    ensures var d := SubmitDraft(name, websiteUrl, pricing, shortDescription, fullDescription, categories,
                                 features, useCases, logoUrl, screenshots, userId);
      && (forall i :: 0 <= i < |d.screenshots| ==> d.screenshots[i] != [] && Trim(d.screenshots[i]) == d.screenshots[i])
      && d.screenshots == TrimAll(NonBlankItems(screenshots))
      && Trim(d.logoUrl) == d.logoUrl
      && d.tags == [] && d.source == SubmittedSource && d.submittedBy == Some(userId) && d.categories == categories
  {
    var d := SubmitDraft(name, websiteUrl, pricing, shortDescription, fullDescription, categories,
                         features, useCases, logoUrl, screenshots, userId);
    assert d.screenshots == TrimmedItems(screenshots) && d.logoUrl == Trim(logoUrl);
    TrimmedItemsShape(screenshots);
    TrimmedItemsAreTrimmedNonBlank(screenshots);
    TrimIdempotent(logoUrl);
  }

  /** Submitting the lists exactly as the form opens (one empty input each) carries no entries. */
  lemma FreshListsSubmitNothing(name: String, websiteUrl: String, pricing: PricingTier, shortDescription: String,
                                fullDescription: String, categories: seq<String>, logoUrl: String, userId: String)
    ensures var d := SubmitDraft(name, websiteUrl, pricing, shortDescription, fullDescription, categories,
                                 [[]], [[]], logoUrl, [[]], userId);
      d.features == [] && d.useCases == [] && d.screenshots == []
  {
    var blank: String := [];
    assert IsBlank(blank);
    assert NonBlankItems([blank]) == [];
    assert TrimAll([blank]) == [blank];
    assert NonEmpty([blank]) == [] + NonEmpty([]);
  }

  /** The page's state. */
  class SubmitToolForm {
    var toolName: String
    var websiteUrl: String
    var pricingType: PricingTier
    var shortDescription: String
    var fullDescription: String
    var selectedCategoryIds: seq<String>
    var keyFeatures: seq<String>
    var useCases: seq<String>
    var logoUrl: String
    var screenshotUrls: seq<String>
    var error: Option<String>
    var successMessage: Option<String>

    /** The inputs are as the page opens them: empty texts, the default pricing, one empty input per list. */
    ghost predicate IsFresh()
      reads this
    {
      toolName == [] && websiteUrl == [] && pricingType == DefaultPricing && shortDescription == []
      && fullDescription == [] && selectedCategoryIds == [] && keyFeatures == [[]] && useCases == [[]]
      && logoUrl == [] && screenshotUrls == [[]]
    }

    /** Every list keeps at least one input. */
    ghost predicate Valid()
      reads this
    {
      |keyFeatures| >= 1 && |useCases| >= 1 && |screenshotUrls| >= 1
    }

    function List(which: ListInput): seq<String>
      reads this
    {
      match which
      case KeyFeatures => keyFeatures
      case UseCaseInputs => useCases
      case ScreenshotUrls => screenshotUrls
    }

    /** The submission the current inputs make for a user. */
    function Draft(userId: String): TS.ToolDraft
      reads this
    {
      SubmitDraft(toolName, websiteUrl, pricingType, shortDescription, fullDescription, selectedCategoryIds,
                  keyFeatures, useCases, logoUrl, screenshotUrls, userId)
    }

    constructor()
      ensures IsFresh() && Valid() && error == None && successMessage == None
    {
      toolName, websiteUrl, pricingType, shortDescription, fullDescription := [], [], DefaultPricing, [], [];
      selectedCategoryIds, keyFeatures, useCases, logoUrl, screenshotUrls := [], [[]], [[]], [], [[]];
      error, successMessage := None, None;
    }

    /** `handleCategoryChange`: a selected id is unselected, any other id is selected at the end. */
    method HandleCategoryChange(categoryId: String)
      modifies this
      ensures selectedCategoryIds == Toggle(old(selectedCategoryIds), categoryId)
      ensures categoryId in old(selectedCategoryIds) ==> categoryId !in selectedCategoryIds
      ensures categoryId !in old(selectedCategoryIds) ==> selectedCategoryIds == old(selectedCategoryIds) + [categoryId]
      ensures keyFeatures == old(keyFeatures) && useCases == old(useCases) && screenshotUrls == old(screenshotUrls)
      ensures toolName == old(toolName) && websiteUrl == old(websiteUrl) && logoUrl == old(logoUrl)
      ensures error == old(error)
    {
      selectedCategoryIds := Toggle(selectedCategoryIds, categoryId);
    }

    /** Sets one list, every other list kept. */
    method SetList(which: ListInput, list: seq<String>)
      requires Valid() && |list| >= 1
      modifies this
      ensures Valid() && List(which) == list
      ensures forall w: ListInput :: w != which ==> List(w) == old(List(w))
      ensures toolName == old(toolName) && websiteUrl == old(websiteUrl) && pricingType == old(pricingType)
      ensures shortDescription == old(shortDescription) && fullDescription == old(fullDescription)
      ensures selectedCategoryIds == old(selectedCategoryIds) && logoUrl == old(logoUrl)
      ensures error == old(error) && successMessage == old(successMessage)
    {
      match which
      case KeyFeatures => keyFeatures := list;
      case UseCaseInputs => useCases := list;
      case ScreenshotUrls => screenshotUrls := list;
    }

    /** `handleDynamicListChange`: only that input of that list takes the new value. */
    method HandleDynamicListChange(which: ListInput, index: int, value: String)
      requires Valid() && 0 <= index < |List(which)|
      modifies this
      ensures Valid()
      ensures List(which) == ChangeItem(old(List(which)), index, value)
      ensures forall w: ListInput :: w != which ==> List(w) == old(List(w))
      ensures toolName == old(toolName) && selectedCategoryIds == old(selectedCategoryIds) && error == old(error)
    {
      SetList(which, ChangeItem(List(which), index, value));
    }

    /** `addDynamicListItem`: one more empty input at the end of that list. */
    method AddDynamicListItem(which: ListInput)
      requires Valid()
      modifies this
      ensures Valid()
      ensures List(which) == AddItem(old(List(which)))
      ensures forall w: ListInput :: w != which ==> List(w) == old(List(w))
      ensures toolName == old(toolName) && selectedCategoryIds == old(selectedCategoryIds) && error == old(error)
    {
      SetList(which, AddItem(List(which)));
    }

    /** `removeDynamicListItem`: the input goes unless it is the only one, which is emptied instead. */
    method RemoveDynamicListItem(which: ListInput, index: int)
      requires Valid()
      modifies this
      ensures Valid()
      ensures List(which) == RemoveItem(old(List(which)), index)
      ensures forall w: ListInput :: w != which ==> List(w) == old(List(w))
      ensures toolName == old(toolName) && selectedCategoryIds == old(selectedCategoryIds) && error == old(error)
    {
      SetList(which, RemoveItem(List(which), index));
    }

    /** `resetForm`: every input back to how the page opens; the messages are kept. */
    method ResetForm()
      modifies this
      ensures IsFresh() && Valid()
      ensures error == old(error) && successMessage == old(successMessage)
    {
      toolName, websiteUrl, pricingType, shortDescription, fullDescription := [], [], DefaultPricing, [], [];
      selectedCategoryIds, keyFeatures, useCases, logoUrl, screenshotUrls := [], [[]], [[]], [], [[]];
    }

    /**
     * `handleSubmit`: without a signed-in user, or without a selected category, only an error is
     * set and nothing is submitted; otherwise the draft of the inputs is inserted first in the
     * store, the confirmation names it, and the form is reset.
     */
    method HandleSubmit(currentUser: Option<User>, store: TS.ToolStore, id: String, now: Time)
      returns (submitted: Option<Tool>)
      requires Valid()
      modifies this, store
      ensures Valid()
      ensures currentUser.None? ==>
        submitted == None && error == Some(NotSignedInError) && store.tools == old(store.tools)
        && successMessage == old(successMessage) && selectedCategoryIds == old(selectedCategoryIds)
        && keyFeatures == old(keyFeatures) && useCases == old(useCases) && screenshotUrls == old(screenshotUrls)
      ensures currentUser.Some? && old(selectedCategoryIds) == [] ==>
        submitted == None && error == Some(NoCategoryError) && store.tools == old(store.tools)
        && successMessage == old(successMessage)
        && keyFeatures == old(keyFeatures) && useCases == old(useCases) && screenshotUrls == old(screenshotUrls)
      ensures currentUser.Some? && old(selectedCategoryIds) != [] ==>
        var draft := old(Draft(currentUser.value.id));
        && submitted == Some(TS.SubmittedTool(draft, id, now)) && store.tools == [submitted.value] + old(store.tools)
        && submitted.value.id == id && submitted.value.upvotes == 0 && submitted.value.comments == []
        && submitted.value.name == draft.name && submitted.value.features == draft.features
        && submitted.value.categories == draft.categories && submitted.value.submittedBy == Some(currentUser.value.id)
        && error == None && successMessage == Some(SuccessMessage(draft.name)) && IsFresh()
    {
      if currentUser.None? {
        error := Some(NotSignedInError);
        return None;
      }
      if selectedCategoryIds == [] {
        error := Some(NoCategoryError);
        return None;
      }
      var draft := Draft(currentUser.value.id);
      error, successMessage := None, None;
      var t := store.SubmitTool(draft, id, now);
      successMessage := Some(SuccessMessage(t.name));
      ResetForm();
      submitted := Some(t);
    }
  }
}
