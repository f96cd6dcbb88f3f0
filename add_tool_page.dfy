/**
 * The admin page that adds a tool from its website: the URL is extracted into an editable details
 * form (or a blank one when the extraction fails), and the cleaned form is added to the store.
 * The extraction outcome and the URL's host name are inputs; the handlers are atomic steps.
 */
module AddToolPage {
  import opened Wrappers
  import opened Strings
  import opened Types
  import opened ListEditor
  import opened ToolForms
  import P = ProductionExtraction
  import TS = ToolService

  const BlankUrlError := "Please enter the Tool Website URL."
  const MissingFieldsError := "Please ensure all required fields (Name, Website URL, Categories) are filled after generation."
  const ManualEntryHint := " Don't worry - you can manually enter the details below."
  const JavaScriptNotice := "\U{26A1} JavaScript-heavy website detected. "
  const FailureNotice := "AI extraction failed: "

  /** An extraction error that points at a page rendered by JavaScript. */
  predicate JavaScriptHeavy(m: String) {
    Contains(m, "JavaScript") || Contains(m, "SPA") || Contains(m, "ScrapingBee")
  }

  /**
   * The error shown after a failed extraction: the original message, behind a notice that says
   * whether the page is JavaScript-heavy, and followed by the hint to fill in the form by hand.
   */
  function ExtractionErrorMessage(m: String): String {
    (if JavaScriptHeavy(m) then JavaScriptNotice else FailureNotice) + m + ManualEntryHint
  }

  /**
   * The message always carries the extraction's own message and ends with the manual-entry hint;
   * it opens with the JavaScript notice exactly for JavaScript-related failures, and with the
   * generic failure notice otherwise.
   */
  lemma ExtractionErrorMessageSpec(m: String)
    ensures var r := ExtractionErrorMessage(m);
      Contains(r, m)
      && |r| >= |ManualEntryHint| && r[|r| - |ManualEntryHint|..] == ManualEntryHint
      && (StartsWith(r, JavaScriptNotice) <==> JavaScriptHeavy(m))
      && (!JavaScriptHeavy(m) ==> StartsWith(r, FailureNotice))
  {
    var notice := if JavaScriptHeavy(m) then JavaScriptNotice else FailureNotice;
    var r := notice + m + ManualEntryHint;
    ContainsInfix(notice, m, ManualEntryHint);
    assert r[..|notice|] == notice;
    assert r[|r| - |ManualEntryHint|..] == ManualEntryHint;
    assert !JavaScriptHeavy(m) ==> r[0] != JavaScriptNotice[0];
  }

  /** The blank form offered for manual entry: the suggested name, one empty input per list, Freemium, closed source. */
  function ManualDetails(hostname: Option<String>, all: seq<ToolCategory>): AIGeneratedToolDetails {
    AIGeneratedToolDetails(
      Some(SuggestedName(hostname)), Some([]), Some([]), Some([[]]), Some(DefaultCategories(all)), Some([[]]),
      Some([[]]), Some([]), Some("Freemium"), Some("Closed Source"))
  }

  /**
   * The blank form can be saved as it is exactly when the URL is filled in, the suggested name is
   * not blank and there is a category to preselect.
   */
  lemma ManualDetailsReady(hostname: Option<String>, all: seq<ToolCategory>, websiteUrl: String)
    ensures ReadyToSave(Some(ManualDetails(hostname, all)), websiteUrl)
      <==> !IsBlank(websiteUrl) && !IsBlank(SuggestedName(hostname)) && all != []
  {
    var d := ManualDetails(hostname, all);
    var name := SuggestedName(hostname);
    assert d.name == Some(name) && d.categories == Some(DefaultCategories(all));
    assert ReadyToSave(Some(d), websiteUrl) == (!IsBlank(websiteUrl) && !IsBlank(name) && |DefaultCategories(all)| > 0);
  }

  /** The record handed to `adminAddTool`: the form with the final logo and its lists cleaned. */
  function ToolToAdd(d: AIGeneratedToolDetails, manualLogoUrl: String): AIGeneratedToolDetails {
    d.(logoUrl := FinalLogo(manualLogoUrl, d), features := Some(SavedFeatures(d)),
       useCases := Some(SavedUseCases(d)), tags := Some(SavedTags(d)))
  }

  /** The tool `handleSubmitTool` adds for a form: the cleaned record, with the final logo as the logo to use. */
  function AddedTool(d: AIGeneratedToolDetails, manualLogoUrl: String, websiteUrl: String, id: String, now: Time,
                     placeholder: TS.Placeholder): Tool
  {
    TS.AdminTool(ToolToAdd(d, manualLogoUrl), websiteUrl, FinalLogo(manualLogoUrl, d), id, now, placeholder)
  }

  /** A ready form's tool carries the name, URL and categories as entered. */
  lemma AddedToolFields(d: AIGeneratedToolDetails, manualLogoUrl: String, websiteUrl: String, id: String, now: Time,
                        placeholder: TS.Placeholder)
    requires ReadyToSave(Some(d), websiteUrl)
    ensures var t := AddedTool(d, manualLogoUrl, websiteUrl, id, now, placeholder);
      t.name == d.name.value && t.categories == d.categories.value && t.websiteUrl == websiteUrl
  {
    assert d.name.value != [];
  }

  /**
   * A saved tool's features and use cases are the trimmed non-blank inputs, in order, and its tags
   * are non-empty and lower-cased.
   */
  lemma AddedToolLists(d: AIGeneratedToolDetails, manualLogoUrl: String, websiteUrl: String, id: String, now: Time,
                       placeholder: TS.Placeholder)
    ensures var t := AddedTool(d, manualLogoUrl, websiteUrl, id, now, placeholder);
      && t.features == TrimAll(NonBlankItems(ListOf(d, Features)))
      && t.useCases == TrimAll(NonBlankItems(ListOf(d, UseCases)))
      && (forall i :: 0 <= i < |t.features| ==> CleanItem(t.features[i]))
      && (forall i :: 0 <= i < |t.tags| ==> t.tags[i] != [] && ToLower(t.tags[i]) == t.tags[i])
  {
    var t := AddedTool(d, manualLogoUrl, websiteUrl, id, now, placeholder);
    assert t.features == SavedFeatures(d) && t.useCases == SavedUseCases(d) && t.tags == SavedTags(d);
    TrimmedItemsAreTrimmedNonBlank(ListOf(d, Features));
    TrimmedItemsAreTrimmedNonBlank(ListOf(d, UseCases));
    TrimmedItemsShape(ListOf(d, Features));
    TagItemsLowerCase(ListOf(d, Tags));
  }

  /** The logo: the one typed by hand when it is not blank, else the form's, else a placeholder named after the tool. */
  lemma AddedToolLogo(d: AIGeneratedToolDetails, manualLogoUrl: String, websiteUrl: String, id: String, now: Time,
                      placeholder: TS.Placeholder)
    requires ReadyToSave(Some(d), websiteUrl)
    ensures var t := AddedTool(d, manualLogoUrl, websiteUrl, id, now, placeholder);
      && (!IsBlank(manualLogoUrl) ==> t.logoUrl == Trim(manualLogoUrl))
      && (IsBlank(manualLogoUrl) ==> t.logoUrl == StrOr(d.logoUrl, placeholder(100, 100, d.name.value)))
  {
    assert d.name.value != [];
  }

  /** The page's state. */
  class AddToolForm {
    var websiteUrl: String
    var generatedDetails: Option<AIGeneratedToolDetails>
    var error: Option<String>
    var allCategories: seq<ToolCategory>
    var manualLogoUrl: String

    /** The page as it opens, with the categories its effect loads. */
    constructor(categories: seq<ToolCategory>)
      ensures websiteUrl == [] && generatedDetails == None && error == None
      ensures allCategories == categories && manualLogoUrl == []
    {
      websiteUrl := [];
      generatedDetails := None;
      error := None;
      allCategories := categories;
      manualLogoUrl := [];
    }

    /** Typing into the URL input. */
    method SetWebsiteUrl(url: String)
      modifies this
      ensures websiteUrl == url
      ensures generatedDetails == old(generatedDetails) && error == old(error)
      ensures allCategories == old(allCategories) && manualLogoUrl == old(manualLogoUrl)
    {
      websiteUrl := url;
    }

    /** Typing into the logo input. */
    method SetManualLogoUrl(url: String)
      modifies this
      ensures manualLogoUrl == url
      ensures websiteUrl == old(websiteUrl) && generatedDetails == old(generatedDetails) && error == old(error)
      ensures allCategories == old(allCategories)
    {
      manualLogoUrl := url;
    }

    /**
     * `handleGenerateDetails`. A blank URL only sets an error and nothing is extracted (`requested`
     * is false); otherwise the form is filled from the extraction, or replaced by the blank form
     * with the failure's message when the extraction fails.
     */
    method HandleGenerateDetails(outcome: Result<P.ExtractedProductData, String>, hostname: Option<String>)
      returns (requested: bool)
      modifies this
      ensures requested <==> !IsBlank(old(websiteUrl))
      ensures websiteUrl == old(websiteUrl) && allCategories == old(allCategories)
      ensures !requested ==>
        error == Some(BlankUrlError) && generatedDetails == old(generatedDetails) && manualLogoUrl == old(manualLogoUrl)
      ensures requested && outcome.Success? ==>
        error == None && generatedDetails == Some(FromExtraction(outcome.value, allCategories))
        && manualLogoUrl == StrOr(outcome.value.logoUrl, [])
      ensures requested && outcome.Failure? ==>
        error == Some(ExtractionErrorMessage(outcome.error))
        && generatedDetails == Some(ManualDetails(hostname, allCategories)) && manualLogoUrl == old(manualLogoUrl)
    {
      if IsBlank(websiteUrl) {
        error := Some(BlankUrlError);
        return false;
      }
      requested := true;
      ApplyExtraction(outcome, hostname);
    }

    /** The part of `handleGenerateDetails` past its URL check. */
    method ApplyExtraction(outcome: Result<P.ExtractedProductData, String>, hostname: Option<String>)
      modifies this
      ensures websiteUrl == old(websiteUrl) && allCategories == old(allCategories)
      ensures outcome.Success? ==>
        error == None && generatedDetails == Some(FromExtraction(outcome.value, allCategories))
        && manualLogoUrl == StrOr(outcome.value.logoUrl, [])
      ensures outcome.Failure? ==>
        error == Some(ExtractionErrorMessage(outcome.error))
        && generatedDetails == Some(ManualDetails(hostname, allCategories)) && manualLogoUrl == old(manualLogoUrl)
    {
      match outcome
      case Success(extracted) =>
        error, generatedDetails := None, Some(FromExtraction(extracted, allCategories));
        manualLogoUrl := StrOr(extracted.logoUrl, []);
      case Failure(message) =>
        error, generatedDetails := Some(ExtractionErrorMessage(message)), Some(ManualDetails(hostname, allCategories));
    }

    /** The "Skip AI & Enter Manually" button, enabled once a URL is typed: the blank form, no error. */
    method EnterManually(hostname: Option<String>)
      requires websiteUrl != []
      modifies this
      ensures generatedDetails == Some(ManualDetails(hostname, allCategories)) && error == None
      ensures websiteUrl == old(websiteUrl) && allCategories == old(allCategories) && manualLogoUrl == old(manualLogoUrl)
    {
      generatedDetails := Some(ManualDetails(hostname, allCategories));
      error := None;
    }

    /** `handleDynamicListItemChange` on a rendered input; without a form nothing happens. */
    method HandleListItemChange(f: ListField, index: int, value: String)
      requires generatedDetails.Some? ==> 0 <= index < |RenderedList(generatedDetails.value, f)|
      modifies this
      ensures old(generatedDetails).None? ==> generatedDetails == None
      ensures old(generatedDetails).Some? ==>
        generatedDetails == Some(ChangeListItem(old(generatedDetails).value, f, index, value))
      ensures websiteUrl == old(websiteUrl) && error == old(error)
      ensures allCategories == old(allCategories) && manualLogoUrl == old(manualLogoUrl)
    {
      if generatedDetails.Some? {
        generatedDetails := Some(ChangeListItem(generatedDetails.value, f, index, value));
      }
    }

    /** `addDynamicListItem`. */
    method AddListInput(f: ListField)
      modifies this
      ensures old(generatedDetails).None? ==> generatedDetails == None
      ensures old(generatedDetails).Some? ==> generatedDetails == Some(AddListItem(old(generatedDetails).value, f))
      ensures websiteUrl == old(websiteUrl) && error == old(error)
      ensures allCategories == old(allCategories) && manualLogoUrl == old(manualLogoUrl)
    {
      if generatedDetails.Some? {
        generatedDetails := Some(AddListItem(generatedDetails.value, f));
      }
    }

    /** `removeDynamicListItem`: the list keeps at least one input. */
    method RemoveListInput(f: ListField, index: int)
      modifies this
      ensures old(generatedDetails).None? ==> generatedDetails == None
      ensures old(generatedDetails).Some? ==>
        generatedDetails == Some(RemoveListItem(old(generatedDetails).value, f, index))
        && |ListOf(generatedDetails.value, f)| >= 1
      ensures websiteUrl == old(websiteUrl) && error == old(error)
      ensures allCategories == old(allCategories) && manualLogoUrl == old(manualLogoUrl)
    {
      if generatedDetails.Some? {
        generatedDetails := Some(RemoveListItem(generatedDetails.value, f, index));
      }
    }

    /** `handleCategoryCheckboxChange`. */
    method HandleCategoryCheckboxChange(categoryId: String)
      modifies this
      ensures old(generatedDetails).None? ==> generatedDetails == None
      ensures old(generatedDetails).Some? ==> generatedDetails == Some(ToggleCategory(old(generatedDetails).value, categoryId))
      ensures websiteUrl == old(websiteUrl) && error == old(error)
      ensures allCategories == old(allCategories) && manualLogoUrl == old(manualLogoUrl)
    {
      if generatedDetails.Some? {
        generatedDetails := Some(ToggleCategory(generatedDetails.value, categoryId));
      }
    }

    /**
     * `handleSubmitTool`: a form that is not ready only sets an error; a ready one is added to the
     * store, cleaned, with the final logo passed as the logo to use. `added` is the new tool, whose
     * page the browser then opens.
     */
    method HandleSubmitTool(store: TS.ToolStore, id: String, now: Time, placeholder: TS.Placeholder)
      returns (added: Option<Tool>)
      modifies this, store
      ensures websiteUrl == old(websiteUrl) && generatedDetails == old(generatedDetails)
      ensures allCategories == old(allCategories) && manualLogoUrl == old(manualLogoUrl)
      ensures !ReadyToSave(old(generatedDetails), old(websiteUrl)) ==>
        added == None && error == Some(MissingFieldsError) && store.tools == old(store.tools)
      ensures ReadyToSave(old(generatedDetails), old(websiteUrl)) ==>
        var d := old(generatedDetails).value;
        && added == Some(AddedTool(d, manualLogoUrl, websiteUrl, id, now, placeholder))
        && store.tools == [added.value] + old(store.tools) && error == None
    {
      if !ReadyToSave(generatedDetails, websiteUrl) {
        error := Some(MissingFieldsError);
        return None;
      }
      error := None;
      var d := generatedDetails.value;
      var finalLogoUrl := FinalLogo(manualLogoUrl, d);
      var t := store.AdminAddTool(ToolToAdd(d, manualLogoUrl), websiteUrl, finalLogoUrl, id, now, placeholder);
      added := Some(t);
    }
  }
}
