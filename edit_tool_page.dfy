/**
 * The admin page that edits a stored tool: the tool is loaded into the details form, may be
 * refilled from a new extraction, and is saved back as a partial update or deleted. The lookup,
 * the extraction outcome, the confirmation dialog and the remote delete are inputs; the handlers
 * are atomic steps and the page the browser moves to is returned as a `Navigation`.
 */
module EditToolPage {
  import opened Wrappers
  import opened Strings
  import opened Seqs
  import opened Types
  import opened ListEditor
  import opened ToolForms
  import P = ProductionExtraction
  import TS = ToolService

  const NotFoundError := "Tool not found"
  const LoadError := "Failed to load tool"
  const BlankUrlError := "Please enter the Tool Website URL."
  const FailureNotice := "AI extraction failed: "
  const MissingFieldsError := "Please ensure all required fields (Name, Website URL, Categories) are filled."
  const UpdateFailedError := "Failed to update tool. Please try again."
  const DeleteFailedError := "Failed to delete tool. Please try again."

  /** The error shown after a failed extraction: the notice, then the extraction's own message. */
  function FailureMessage(m: String): String {
    FailureNotice + m
  }

  /** The failure message is the notice followed by exactly the extraction's message. */
  lemma FailureMessageSpec(m: String)
    ensures var r := FailureMessage(m);
      |r| == |FailureNotice| + |m| && r[..|FailureNotice|] == FailureNotice && r[|FailureNotice|..] == m
  {
  }

  /** Where a handler sends the browser: nowhere, the home page, or a tool's page. */
  datatype Navigation = Stay | Home | ToolPage(id: String)

  /**
   * The partial update `handleUpdateTool` sends: the form's texts, pricing, source and categories,
   * the final logo, the URL as typed, and the cleaned lists. Nothing else of the stored tool is touched.
   */
  function EditUpdates(d: AIGeneratedToolDetails, manualLogoUrl: String, websiteUrl: String): TS.ToolUpdates {
    TS.NoUpdates.(name := d.name, logoUrl := FinalLogo(manualLogoUrl, d), shortDescription := d.shortDescription,
                  fullDescription := d.fullDescription, websiteUrl := Some(websiteUrl),
                  features := Some(SavedFeatures(d)), useCases := Some(SavedUseCases(d)), tags := Some(SavedTags(d)),
                  categories := d.categories, pricing := d.pricing, source := d.source)
  }

  /**
   * The saved tool: name, URL and categories as entered, lists cleaned, and the id, upvotes,
   * comments, screenshots, guide, submitter and creation time of the stored tool kept.
   */
  lemma EditedToolFields(t: Tool, d: AIGeneratedToolDetails, manualLogoUrl: String, websiteUrl: String, now: Time)
    requires ReadyToSave(Some(d), websiteUrl)
    ensures var r := TS.ApplyUpdates(t, EditUpdates(d, manualLogoUrl, websiteUrl), now);
      && r.name == d.name.value && r.websiteUrl == websiteUrl && r.categories == d.categories.value
      && r.features == TrimAll(NonBlankItems(ListOf(d, Features)))
      && r.useCases == TrimAll(NonBlankItems(ListOf(d, UseCases)))
      && (forall i :: 0 <= i < |r.tags| ==> r.tags[i] != [] && ToLower(r.tags[i]) == r.tags[i])
      && (!IsBlank(manualLogoUrl) ==> r.logoUrl == Trim(manualLogoUrl))
      && r.id == t.id && r.upvotes == t.upvotes && r.comments == t.comments && r.screenshots == t.screenshots
      && r.publicGuide == t.publicGuide && r.submittedBy == t.submittedBy && r.createdAt == t.createdAt
      && r.updatedAt == now
  {
    TrimmedItemsAreTrimmedNonBlank(ListOf(d, Features));
    TrimmedItemsAreTrimmedNonBlank(ListOf(d, UseCases));
    TagItemsLowerCase(ListOf(d, Tags));
  }

  /**
   * Opening a tool whose lists, tags and logo are already clean and saving it without edits
   * changes nothing but its updatedAt: the padding added for empty lists is dropped again.
   */
  lemma SaveUntouchedTool(t: Tool, now: Time)
    requires CleanList(t.features) && CleanList(t.useCases) && CleanTagList(t.tags)
    requires Trim(t.logoUrl) == t.logoUrl
    ensures TS.ApplyUpdates(t, EditUpdates(FromTool(t), t.logoUrl, t.websiteUrl), now) == t.(updatedAt := now)
  {
    var d := FromTool(t);
    SavedCleanList(t.features);
    SavedCleanList(t.useCases);
    SavedCleanTags(t.tags);
    assert FinalLogo(t.logoUrl, d) == Some(t.logoUrl);
    assert EditUpdates(d, t.logoUrl, t.websiteUrl) ==
      TS.NoUpdates.(name := Some(t.name), logoUrl := Some(t.logoUrl), shortDescription := Some(t.shortDescription),
                    fullDescription := Some(t.fullDescription), websiteUrl := Some(t.websiteUrl),
                    features := Some(t.features), useCases := Some(t.useCases), tags := Some(t.tags),
                    categories := Some(t.categories), pricing := Some(t.pricing), source := Some(t.source));
  }

  /** The page's state. */
  class EditToolForm {
    var tool: Option<Tool>
    var websiteUrl: String
    var generatedDetails: Option<AIGeneratedToolDetails>
    var error: Option<String>
    var allCategories: seq<ToolCategory>
    var manualLogoUrl: String

    /** The page as it opens, with the categories its effect loads. */
    constructor(categories: seq<ToolCategory>)
      ensures tool == None && websiteUrl == [] && generatedDetails == None && error == None
      ensures allCategories == categories && manualLogoUrl == []
    {
      tool := None;
      websiteUrl := [];
      generatedDetails := None;
      error := None;
      allCategories := categories;
      manualLogoUrl := [];
    }

    /**
     * The effect's lookup of the route's tool (`getToolById`, which may fail): a found tool fills
     * the URL, the form and the logo input; a missing one sets an error and leaves for the home
     * page; a failed lookup only sets an error.
     */
    method LoadTool(lookup: Result<Option<Tool>, String>) returns (nav: Navigation)
      modifies this
      ensures allCategories == old(allCategories)
      ensures lookup.Success? && lookup.value.Some? ==>
        var t := lookup.value.value;
        && tool == Some(t) && websiteUrl == t.websiteUrl && generatedDetails == Some(FromTool(t))
        && manualLogoUrl == t.logoUrl && error == old(error) && nav == Stay
      ensures lookup.Success? && lookup.value.None? ==>
        error == Some(NotFoundError) && nav == Home
        && tool == old(tool) && websiteUrl == old(websiteUrl) && generatedDetails == old(generatedDetails)
        && manualLogoUrl == old(manualLogoUrl)
      ensures lookup.Failure? ==>
        error == Some(LoadError) && nav == Stay
        && tool == old(tool) && websiteUrl == old(websiteUrl) && generatedDetails == old(generatedDetails)
        && manualLogoUrl == old(manualLogoUrl)
    {
      match lookup
      case Failure(_) =>
        error := Some(LoadError);
        nav := Stay;
      case Success(found) =>
        match found
        case None =>
          error := Some(NotFoundError);
          nav := Home;
        case Some(t) =>
          tool, websiteUrl := Some(t), t.websiteUrl;
          generatedDetails := Some(FromTool(t));
          manualLogoUrl := t.logoUrl;
          nav := Stay;
    }

    /** Typing into the URL input. */
    method SetWebsiteUrl(url: String)
      modifies this
      ensures websiteUrl == url && tool == old(tool)
      ensures generatedDetails == old(generatedDetails) && error == old(error)
      ensures allCategories == old(allCategories) && manualLogoUrl == old(manualLogoUrl)
    {
      websiteUrl := url;
    }

    /** Typing into the logo input. */
    method SetManualLogoUrl(url: String)
      modifies this
      ensures manualLogoUrl == url && tool == old(tool)
      ensures websiteUrl == old(websiteUrl) && generatedDetails == old(generatedDetails) && error == old(error)
      ensures allCategories == old(allCategories)
    {
      manualLogoUrl := url;
    }

    /**
     * `handleGenerateDetails`. A blank URL only sets an error (`requested` is false); a successful
     * extraction refills the form and the logo input; a failed one only reports the failure,
     * leaving the form as it was.
     */
    method HandleGenerateDetails(outcome: Result<P.ExtractedProductData, String>) returns (requested: bool)
      modifies this
      ensures requested <==> !IsBlank(old(websiteUrl))
      ensures websiteUrl == old(websiteUrl) && allCategories == old(allCategories) && tool == old(tool)
      ensures !requested ==>
        error == Some(BlankUrlError) && generatedDetails == old(generatedDetails) && manualLogoUrl == old(manualLogoUrl)
      ensures requested && outcome.Success? ==>
        error == None && generatedDetails == Some(FromExtraction(outcome.value, allCategories))
        && manualLogoUrl == StrOr(outcome.value.logoUrl, [])
      ensures requested && outcome.Failure? ==>
        error == Some(FailureMessage(outcome.error))
        && generatedDetails == old(generatedDetails) && manualLogoUrl == old(manualLogoUrl)
    {
      if IsBlank(websiteUrl) {
        error := Some(BlankUrlError);
        return false;
      }
      requested := true;
      ApplyExtraction(outcome);
    }

    /** The part of `handleGenerateDetails` past its URL check. */
    method ApplyExtraction(outcome: Result<P.ExtractedProductData, String>)
      modifies this
      ensures websiteUrl == old(websiteUrl) && allCategories == old(allCategories) && tool == old(tool)
      ensures outcome.Success? ==>
        error == None && generatedDetails == Some(FromExtraction(outcome.value, allCategories))
        && manualLogoUrl == StrOr(outcome.value.logoUrl, [])
      ensures outcome.Failure? ==>
        error == Some(FailureMessage(outcome.error))
        && generatedDetails == old(generatedDetails) && manualLogoUrl == old(manualLogoUrl)
    {
      match outcome
      case Success(extracted) =>
        error, generatedDetails := None, Some(FromExtraction(extracted, allCategories));
        manualLogoUrl := StrOr(extracted.logoUrl, []);
      case Failure(message) =>
        error := Some(FailureMessage(message));
    }

    /** `handleDynamicListItemChange` on a rendered input; without a form nothing happens. */
    method HandleListItemChange(f: ListField, index: int, value: String)
      requires generatedDetails.Some? ==> 0 <= index < |RenderedList(generatedDetails.value, f)|
      modifies this
      ensures old(generatedDetails).None? ==> generatedDetails == None
      ensures old(generatedDetails).Some? ==>
        generatedDetails == Some(ChangeListItem(old(generatedDetails).value, f, index, value))
      ensures tool == old(tool) && websiteUrl == old(websiteUrl) && error == old(error)
      ensures allCategories == old(allCategories) && manualLogoUrl == old(manualLogoUrl)
    {
      if generatedDetails.Some? {
        generatedDetails := Some(ChangeListItem(generatedDetails.value, f, index, value));
      }
    }

    /** `addDynamicListItem`. */
    method AddListInput(f: ListField)
      modifies this
      ensures old(generatedDetails).None? ==> generatedDetails == None
      ensures old(generatedDetails).Some? ==> generatedDetails == Some(AddListItem(old(generatedDetails).value, f))
      ensures tool == old(tool) && websiteUrl == old(websiteUrl) && error == old(error)
      ensures allCategories == old(allCategories) && manualLogoUrl == old(manualLogoUrl)
    {
      if generatedDetails.Some? {
        generatedDetails := Some(AddListItem(generatedDetails.value, f));
      }
    }

    /** `removeDynamicListItem`: the list keeps at least one input. */
    method RemoveListInput(f: ListField, index: int)
      modifies this
      ensures old(generatedDetails).None? ==> generatedDetails == None
      ensures old(generatedDetails).Some? ==>
        generatedDetails == Some(RemoveListItem(old(generatedDetails).value, f, index))
        && |ListOf(generatedDetails.value, f)| >= 1
      ensures tool == old(tool) && websiteUrl == old(websiteUrl) && error == old(error)
      ensures allCategories == old(allCategories) && manualLogoUrl == old(manualLogoUrl)
    {
      if generatedDetails.Some? {
        generatedDetails := Some(RemoveListItem(generatedDetails.value, f, index));
      }
    }

    /** `handleCategoryCheckboxChange`. */
    method HandleCategoryCheckboxChange(categoryId: String)
      modifies this
      ensures old(generatedDetails).None? ==> generatedDetails == None
      ensures old(generatedDetails).Some? ==> generatedDetails == Some(ToggleCategory(old(generatedDetails).value, categoryId))
      ensures tool == old(tool) && websiteUrl == old(websiteUrl) && error == old(error)
      ensures allCategories == old(allCategories) && manualLogoUrl == old(manualLogoUrl)
    {
      if generatedDetails.Some? {
        generatedDetails := Some(ToggleCategory(generatedDetails.value, categoryId));
      }
    }

    /**
     * `handleUpdateTool`: without a loaded tool or a ready form only an error is set; otherwise the
     * update is merged into the stored tool with the loaded tool's id, and the browser moves to
     * that tool's page, or an error is shown when the store no longer holds it.
     */
    method HandleUpdateTool(store: TS.ToolStore, now: Time) returns (nav: Navigation)
      modifies this, store
      ensures tool == old(tool) && websiteUrl == old(websiteUrl) && generatedDetails == old(generatedDetails)
      ensures allCategories == old(allCategories) && manualLogoUrl == old(manualLogoUrl)
      ensures !(old(tool).Some? && ReadyToSave(old(generatedDetails), old(websiteUrl))) ==>
        nav == Stay && error == Some(MissingFieldsError) && store.tools == old(store.tools)
      ensures old(tool).Some? && ReadyToSave(old(generatedDetails), old(websiteUrl)) ==>
        var id := old(tool).value.id;
        var u := EditUpdates(old(generatedDetails).value, old(manualLogoUrl), old(websiteUrl));
        var i := IndexOfKey(old(store.tools), ToolId, id);
        if i < 0 then
          nav == Stay && error == Some(UpdateFailedError) && store.tools == old(store.tools)
        else
          nav == ToolPage(id) && error == None && store.tools == old(store.tools)[i := TS.ApplyUpdates(old(store.tools)[i], u, now)]
    {
      if tool.None? || !ReadyToSave(generatedDetails, websiteUrl) {
        error := Some(MissingFieldsError);
        return Stay;
      }
      error := None;
      var id := tool.value.id;
      var updated := store.UpdateToolDetails(id, EditUpdates(generatedDetails.value, manualLogoUrl, websiteUrl), now);
      if updated.Some? {
        nav := ToolPage(id);
      } else {
        error := Some(UpdateFailedError);
        nav := Stay;
      }
    }

    /**
     * `handleDeleteTool`: nothing happens without a loaded tool, without a route id, or when the
     * confirmation is declined; otherwise the route's id is deleted and the browser goes home, or
     * an error is shown when the deletion fails.
     */
    method HandleDeleteTool(routeId: Option<String>, confirmed: bool, store: TS.ToolStore, remoteDelete: String -> bool)
      returns (nav: Navigation)
      modifies this, store
      ensures tool == old(tool) && websiteUrl == old(websiteUrl) && generatedDetails == old(generatedDetails)
      ensures allCategories == old(allCategories) && manualLogoUrl == old(manualLogoUrl)
      ensures !(old(tool).Some? && Truthy(routeId) && confirmed) ==>
        nav == Stay && error == old(error) && store.tools == old(store.tools)
      ensures old(tool).Some? && Truthy(routeId) && confirmed && !StartsWith(routeId.value, "supabase-") ==>
        var i := IndexOfKey(old(store.tools), ToolId, routeId.value);
        if i < 0 then
          nav == Stay && error == Some(DeleteFailedError) && store.tools == old(store.tools)
        else
          nav == Home && error == None && store.tools == old(store.tools)[..i] + old(store.tools)[i + 1..]
      ensures old(tool).Some? && Truthy(routeId) && confirmed && StartsWith(routeId.value, "supabase-") ==>
        store.tools == old(store.tools)
        && (if remoteDelete(routeId.value[9..]) then nav == Home && error == None
            else nav == Stay && error == Some(DeleteFailedError))
    {
      if tool.None? || !Truthy(routeId) || !confirmed {
        return Stay;
      }
      error := None;
      var ok := store.DeleteTool(routeId.value, remoteDelete);
      if ok {
        nav := Home;
      } else {
        error := Some(DeleteFailedError);
        nav := Stay;
      }
    }
  }
}
