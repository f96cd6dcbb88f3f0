/**
 * The admin autofill page: a URL is extracted into an editable form, whose lists are edited entry by
 * entry, and the form is saved as a product. The extraction reply and the save outcome are inputs;
 * the handlers are atomic steps.
 */
module AdminAutofillPage {
  import opened Wrappers
  import opened Strings
  import opened Seqs
  import opened ListEditor

  const BlankUrlMessage := "Please enter a valid URL"
  const ExtractedMessage := "\U{2705} Product data extracted and autofilled! Review and edit below, then save."
  const ExtractFailedNotice := "\U{274C} Extraction failed: "
  const MissingFieldsMessage := "\U{274C} Name and description are required"
  const SavedMessage := "\U{2705} Product saved successfully to database!"
  const SaveFailedNotice := "\U{274C} Save failed: "
  const DefaultPricing := "Free"
  const SavedSource := "Closed Source"

  /**
   * The extraction service's reply. Its interface declares most fields, but the reply comes from a
   * language model and any of them may be absent, which the prefill guards against.
   */
  datatype LLMReply = LLMReply(
    name: Option<String>,
    description: Option<String>,
    features: Option<seq<String>>,
    categories: Option<seq<String>>,
    useCases: Option<seq<String>>,
    pricing: Option<String>,
    logoUrl: Option<String>,
    screenshotUrls: Option<seq<String>>,
    tags: Option<seq<String>>)

  /** The editable form: every field filled, every list with at least one input after a prefill. */
  datatype AutofillForm = AutofillForm(
    name: String,
    description: String,
    features: seq<String>,
    categories: seq<String>,
    useCases: seq<String>,
    pricing: String,
    logoUrl: String,
    screenshotUrls: seq<String>,
    tags: seq<String>)

  /** The form's fields, as `keyof` names them; the list handlers act on the array fields only. */
  datatype FormField = Name | Description | Features | Categories | UseCases | Pricing | LogoUrl | ScreenshotUrls | Tags

  predicate IsArrayField(f: FormField) {
    f.Features? || f.Categories? || f.UseCases? || f.ScreenshotUrls? || f.Tags?
  }

  /** The form the page opens with, and returns to after a save. */
  const EmptyForm := AutofillForm([], [], [[]], [[]], [[]], DefaultPricing, [], [[]], [[]])

  /** A list from the reply: kept when present and not empty, otherwise one empty input. */
  function PadList(o: Option<seq<String>>): (r: seq<String>)
    ensures |r| >= 1
    ensures o.Some? && o.value != [] ==> r == o.value
    ensures !(o.Some? && o.value != []) ==> r == [[]]
  {
    if o.Some? && |o.value| > 0 then o.value else [[]]
  }

  /** `s || ''` for an optional text. */
  function TextOr(o: Option<String>, d: String): (r: String)
    ensures o.Some? && o.value != [] ==> r == o.value
    ensures !(o.Some? && o.value != []) ==> r == d
  {
    if o.Some? && o.value != [] then o.value else d
  }

  /**
   * The prefill after a successful extraction: texts default to empty, pricing to Free, and every
   * missing or empty list becomes one empty input.
   */
  function Prefill(x: LLMReply): (f: AutofillForm)
    ensures |f.features| >= 1 && |f.categories| >= 1 && |f.useCases| >= 1 && |f.screenshotUrls| >= 1 && |f.tags| >= 1
    ensures f.name == TextOr(x.name, []) && f.description == TextOr(x.description, []) && f.logoUrl == TextOr(x.logoUrl, [])
    ensures f.pricing != [] && (x.pricing.Some? && x.pricing.value != [] ==> f.pricing == x.pricing.value)
    ensures !(x.pricing.Some? && x.pricing.value != []) ==> f.pricing == DefaultPricing
    ensures x.features.Some? && x.features.value != [] ==> f.features == x.features.value
    ensures x.tags.Some? && x.tags.value != [] ==> f.tags == x.tags.value
  {
    AutofillForm(TextOr(x.name, []), TextOr(x.description, []), PadList(x.features), PadList(x.categories),
                 PadList(x.useCases), TextOr(x.pricing, DefaultPricing), TextOr(x.logoUrl, []),
                 PadList(x.screenshotUrls), PadList(x.tags))
  }

  /** An array field's list. */
  function ListOf(f: AutofillForm, field: FormField): seq<String>
    requires IsArrayField(field)
  {
    match field
    case Features => f.features
    case Categories => f.categories
    case UseCases => f.useCases
    case ScreenshotUrls => f.screenshotUrls
    case Tags => f.tags
  }

  /** The form with an array field's list replaced and every other field kept. */
  function WithList(f: AutofillForm, field: FormField, list: seq<String>): (r: AutofillForm)
    requires IsArrayField(field)
    ensures ListOf(r, field) == list
    ensures forall g: FormField :: IsArrayField(g) && g != field ==> ListOf(r, g) == ListOf(f, g)
    ensures r.name == f.name && r.description == f.description && r.pricing == f.pricing && r.logoUrl == f.logoUrl
  {
    match field
    case Features => f.(features := list)
    case Categories => f.(categories := list)
    case UseCases => f.(useCases := list)
    case ScreenshotUrls => f.(screenshotUrls := list)
    case Tags => f.(tags := list)
  }

  /** `list.map((item, i) => i === index ? value : item)`: an index outside the list changes nothing. */
  function MapAt(list: seq<String>, index: int, value: String): (r: seq<String>)
    ensures 0 <= index < |list| ==> r == list[index := value]
    ensures !(0 <= index < |list|) ==> r == list
  {
    seq(|list|, i requires 0 <= i < |list| => if i == index then value else list[i])
  }

  /** `handleArrayChange`: the entry at the index takes the value; a text field is left as it is. */
  function ArrayChange(f: AutofillForm, field: FormField, index: int, value: String): (r: AutofillForm)
    ensures !IsArrayField(field) ==> r == f
    ensures IsArrayField(field) ==> r == WithList(f, field, MapAt(ListOf(f, field), index, value))
  {
    if IsArrayField(field) then WithList(f, field, MapAt(ListOf(f, field), index, value)) else f
  }

  /** `addArrayItem`: one empty input more at the end of an array field. */
  function AddArrayItem(f: AutofillForm, field: FormField): (r: AutofillForm)
    ensures !IsArrayField(field) ==> r == f
    ensures IsArrayField(field) ==> r == WithList(f, field, AddItem(ListOf(f, field)))
  {
    if IsArrayField(field) then WithList(f, field, AddItem(ListOf(f, field))) else f
  }

  /**
   * `removeArrayItem`: the entry goes only when the list has more than one; unlike the other
   * forms, a single entry is neither removed nor emptied.
   */
  function RemoveArrayItem(f: AutofillForm, field: FormField, index: int): (r: AutofillForm)
    ensures !(IsArrayField(field) && |ListOf(f, field)| > 1) ==> r == f
    ensures IsArrayField(field) && |ListOf(f, field)| > 1 ==> r == WithList(f, field, RemoveAt(ListOf(f, field), index))
  {
    if IsArrayField(field) && |ListOf(f, field)| > 1 then WithList(f, field, RemoveAt(ListOf(f, field), index)) else f
  }

  /** Every list of the form has at least one input. */
  predicate ListsNonEmpty(f: AutofillForm) {
    |f.features| >= 1 && |f.categories| >= 1 && |f.useCases| >= 1 && |f.screenshotUrls| >= 1 && |f.tags| >= 1
  }

  /** Replacing one list by a list with an input keeps every list with an input. */
  lemma WithListKeepsInputs(f: AutofillForm, field: FormField, list: seq<String>)
    requires IsArrayField(field) && ListsNonEmpty(f) && |list| >= 1
    ensures ListsNonEmpty(WithList(f, field, list))
  {
    match field
    case Features =>
    case Categories =>
    case UseCases =>
    case ScreenshotUrls =>
    case Tags =>
  }

  /** The list handlers keep every list with at least one input. */
  lemma ListHandlersKeepInputs(f: AutofillForm, field: FormField, index: int, value: String)
    requires ListsNonEmpty(f)
    ensures ListsNonEmpty(ArrayChange(f, field, index, value))
    ensures ListsNonEmpty(AddArrayItem(f, field))
    ensures ListsNonEmpty(RemoveArrayItem(f, field, index))
  {
    if IsArrayField(field) {
      var list := ListOf(f, field);
      assert |list| >= 1 by {
        match field
        case Features =>
        case Categories =>
        case UseCases =>
        case ScreenshotUrls =>
        case Tags =>
      }
      WithListKeepsInputs(f, field, MapAt(list, index, value));
      WithListKeepsInputs(f, field, AddItem(list));
      if |list| > 1 {
        WithListKeepsInputs(f, field, RemoveAt(list, index));
      }
    }
  }

  /** On a single entry the remove button does nothing here, where the other forms empty the entry. */
  lemma RemoveSingleEntryKeepsIt(f: AutofillForm, field: FormField, index: int)
    requires IsArrayField(field) && ListOf(f, field) == ["x"]
    ensures ListOf(RemoveArrayItem(f, field, index), field) == ["x"]
    ensures RemoveItem(ListOf(f, field), index) == [[]]
  {
  }

  /** What `handleSubmit` saves: the URL as typed, a closed source, and each list without its blank entries. */
  datatype ProductPayload = ProductPayload(
    name: String,
    description: String,
    websiteUrl: String,
    logoUrl: String,
    features: seq<String>,
    useCases: seq<String>,
    pricing: String,
    source: String,
    tags: seq<String>,
    categories: seq<String>,
    screenshotUrls: seq<String>)

  function Payload(f: AutofillForm, url: String): ProductPayload {
    ProductPayload(f.name, f.description, url, f.logoUrl, NonBlankItems(f.features), NonBlankItems(f.useCases),
                   f.pricing, SavedSource, NonBlankItems(f.tags), NonBlankItems(f.categories),
                   NonBlankItems(f.screenshotUrls))
  }

  /** Whether the form may be saved: a name and a description that are not blank. */
  predicate CanSave(f: AutofillForm) {
    !IsBlank(f.name) && !IsBlank(f.description)
  }

  /**
   * The payload's lists hold exactly the non-blank entries of the form's lists (untrimmed), and it
   * carries the name, description, URL, logo and pricing unchanged.
   */
  lemma PayloadShape(f: AutofillForm, url: String)
    ensures var p := Payload(f, url);
      && (forall x :: x in p.features <==> x in f.features && !IsBlank(x))
      && (forall x :: x in p.tags <==> x in f.tags && !IsBlank(x))
      && (forall x :: x in p.categories <==> x in f.categories && !IsBlank(x))
      && (forall x :: x in p.screenshotUrls <==> x in f.screenshotUrls && !IsBlank(x))
      && (forall x :: x in p.useCases <==> x in f.useCases && !IsBlank(x))
      && p.name == f.name && p.description == f.description && p.websiteUrl == url && p.logoUrl == f.logoUrl
      && p.source == SavedSource
  {
  }

  /** Saving the form as it opens would send empty lists: the padding inputs are blank. */
  lemma EmptyFormPayloadLists(url: String)
    ensures var p := Payload(EmptyForm, url);
      p.features == [] && p.useCases == [] && p.tags == [] && p.categories == [] && p.screenshotUrls == []
      && !CanSave(EmptyForm)
  {
    BlankPadDropped();
    assert EmptyForm.name == [] && IsBlank(EmptyForm.name);
  }

  /** The one blank padding input is dropped when the form is saved. */
  lemma BlankPadDropped()
    ensures NonBlankItems([[]]) == []
  {
    var blank: String := [];
    assert IsBlank(blank);
    assert [blank][1..] == [];
    assert Filter([blank], (x: String) => !IsBlank(x)) == [] + Filter([], (x: String) => !IsBlank(x));
  }

  /** The status line under the form; `Text` is what it shows. */
  datatype Message = NoMessage | BlankUrl | Extracted | ExtractFailed(error: String) | MissingFields | Saved
                   | SaveFailed(error: String)

  function Text(m: Message): String {
    match m
    case NoMessage => []
    case BlankUrl => BlankUrlMessage
    case Extracted => ExtractedMessage
    case ExtractFailed(e) => ExtractFailedNotice + e
    case MissingFields => MissingFieldsMessage
    case Saved => SavedMessage
    case SaveFailed(e) => SaveFailedNotice + e
  }

  /** A failure's text is its notice followed by exactly the error's own message. */
  lemma FailureTexts(e: String)
    ensures Text(ExtractFailed(e))[..|ExtractFailedNotice|] == ExtractFailedNotice
    ensures Text(ExtractFailed(e))[|ExtractFailedNotice|..] == e
    ensures Text(SaveFailed(e))[..|SaveFailedNotice|] == SaveFailedNotice
    ensures Text(SaveFailed(e))[|SaveFailedNotice|..] == e
  {
  }

  /** The page's state. */
  class AutofillPage {
    var url: String
    var extractedData: Option<LLMReply>
    var message: Message
    var formData: AutofillForm

    constructor()
      ensures url == [] && extractedData == None && message == NoMessage && formData == EmptyForm
    {
      url, extractedData, message, formData := [], None, NoMessage, EmptyForm;
    }

    /** Typing into the URL input. */
    method SetUrl(value: String)
      modifies this
      ensures url == value && extractedData == old(extractedData) && message == old(message) && formData == old(formData)
    {
      url := value;
    }

    /**
     * `handleExtract`: a blank URL only sets a message and nothing is extracted (`requested` is
     * false); a reply prefills the form; a failure clears the extracted data and keeps the form.
     */
    method HandleExtract(outcome: Result<LLMReply, String>) returns (requested: bool)
      modifies this
      ensures url == old(url)
      ensures requested <==> !IsBlank(old(url))
      ensures !requested ==>
        message == BlankUrl && extractedData == old(extractedData) && formData == old(formData)
      ensures requested && outcome.Success? ==>
        extractedData == Some(outcome.value) && formData == Prefill(outcome.value) && message == Extracted
      ensures requested && outcome.Failure? ==>
        extractedData == None && formData == old(formData) && message == ExtractFailed(outcome.error)
    {
      if IsBlank(url) {
        message := BlankUrl;
        return false;
      }
      requested := true;
      match outcome
      case Success(extracted) =>
        extractedData, formData, message := Some(extracted), Prefill(extracted), Extracted;
      case Failure(e) =>
        message, extractedData := ExtractFailed(e), None;
    }

    /** `handleArrayChange`. */
    method HandleArrayChange(field: FormField, index: int, value: String)
      modifies this
      ensures formData == ArrayChange(old(formData), field, index, value)
      ensures url == old(url) && extractedData == old(extractedData) && message == old(message)
    {
      formData := ArrayChange(formData, field, index, value);
    }

    /** `addArrayItem`. */
    method HandleAddArrayItem(field: FormField)
      modifies this
      ensures formData == AddArrayItem(old(formData), field)
      ensures url == old(url) && extractedData == old(extractedData) && message == old(message)
    {
      formData := AddArrayItem(formData, field);
    }

    /** `removeArrayItem`. */
    method HandleRemoveArrayItem(field: FormField, index: int)
      modifies this
      ensures formData == RemoveArrayItem(old(formData), field, index)
      ensures url == old(url) && extractedData == old(extractedData) && message == old(message)
    {
      formData := RemoveArrayItem(formData, field, index);
    }

    /**
     * `handleSubmit`: without a name or a description only a message is set and nothing is saved;
     * otherwise the form is saved.
     */
    method HandleSubmit(saveError: Option<String>) returns (sent: Option<ProductPayload>)
      modifies this
      ensures !CanSave(old(formData)) ==>
        sent == None && message == MissingFields
        && url == old(url) && extractedData == old(extractedData) && formData == old(formData)
      ensures CanSave(old(formData)) ==> sent == Some(Payload(old(formData), old(url)))
      ensures CanSave(old(formData)) && saveError.None? ==>
        message == Saved && url == [] && extractedData == None && formData == EmptyForm
      ensures CanSave(old(formData)) && saveError.Some? ==>
        message == SaveFailed(saveError.value)
        && url == old(url) && extractedData == old(extractedData) && formData == old(formData)
    {
      if !CanSave(formData) {
        message := MissingFields;
        return None;
      }
      var payload := Save(saveError);
      sent := Some(payload);
    }

    /**
     * The save of a complete form: the payload goes to `addProduct` (`saveError` is the failure it
     * raises, if any), and a successful save clears the URL, the extracted data and the form.
     */
    method Save(saveError: Option<String>) returns (payload: ProductPayload)
      modifies this
      ensures payload == Payload(old(formData), old(url))
      ensures saveError.None? ==> message == Saved && url == [] && extractedData == None && formData == EmptyForm
      ensures saveError.Some? ==>
        message == SaveFailed(saveError.value)
        && url == old(url) && extractedData == old(extractedData) && formData == old(formData)
    {
      payload := Payload(formData, url);
      match saveError
      case None =>
        message, url, extractedData, formData := Saved, [], None, EmptyForm;
      case Some(e) =>
        message := SaveFailed(e);
    }
  }
}
