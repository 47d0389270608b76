/**
 * The category form: a name and a description that must not be blank, the
 * trimmed data sent on create and on update, the warning that lists the
 * missing fields, and the character counter's colour.
 */
module AddCategoryForm {
  import opened Wrappers
  import opened Text
  import opened ModalDialog
  import opened JsValues

  /** `formData` and the `categoryData` input: the id is there in edit mode. */
  datatype CategoryForm = CategoryForm(id: Option<int>, name: Option<string>, description: Option<string>)

  /** `{ name: '', description: '' }`. */
  const EmptyCategory: CategoryForm := CategoryForm(None, Some(""), Some(""))

  /** What is sent: the form with both texts trimmed. */
  datatype CategoryData = CategoryData(id: Option<int>, name: string, description: string)

  datatype CategoryCall = CreateCall(data: CategoryData) | UpdateCall(id: int, data: CategoryData)

  const NameField: string := "Category Name"
  const DescriptionField: string := "Description"
  const UpdateFailed: string := "Update failed"

  /** The condition `onSubmit` checks: neither text is missing or white space only. */
  predicate FormValid(f: CategoryForm) {
    Filled(f.name) && Filled(f.description)
  }

  /**
   * The warning's list. It tests the untrimmed values, so a field of white
   * space only fails the check but is not listed.
   */
  function MissingFields(f: CategoryForm): (r: seq<string>)
    ensures NameField in r <==> !Truthy(f.name)
    ensures DescriptionField in r <==> !Truthy(f.description)
    ensures |r| <= 2
    ensures !Truthy(f.name) ==> r[0] == NameField
  {
    (if !Truthy(f.name) then [NameField] else [])
    + (if !Truthy(f.description) then [DescriptionField] else [])
  }

  /**
   * A name of white space only fails the check but is not listed: with a
   * filled description, the form is refused and the warning lists nothing.
   */
  lemma BlankNameNotListed(f: CategoryForm)
    requires Truthy(f.name) && !Filled(f.name) && Filled(f.description)
    ensures !FormValid(f) && MissingFields(f) == []
  {
  }

  /** `trimmedData`: the form with its name and description trimmed, id kept. */
  function Prepare(f: CategoryForm): (d: CategoryData)
    requires FormValid(f)
    ensures d.id == f.id
    ensures d.name == Trim(f.name.value) && d.description == Trim(f.description.value)
    ensures d.name != [] && d.description != []
  {
    CategoryData(f.id, Trim(f.name.value), Trim(f.description.value))
  }

  /** The form an edit of the sent data starts from. */
  function AsForm(d: CategoryData): CategoryForm {
    CategoryForm(d.id, Some(d.name), Some(d.description))
  }

  /** Sent data passes the check again, and preparing it once more changes nothing. */
  lemma PrepareIdempotent(f: CategoryForm)
    requires FormValid(f)
    ensures FormValid(AsForm(Prepare(f)))
    ensures Prepare(AsForm(Prepare(f))) == Prepare(f)
  {
    TrimmedNotBlank(f.name.value);
    TrimmedNotBlank(f.description.value);
    TrimIdempotent(f.name.value);
    TrimIdempotent(f.description.value);
  }

  /** What `onSubmit` does with a form: warn, send a request, or fail an update without an id. */
  datatype Outcome = ShowMissing(fields: seq<string>) | Send(call: CategoryCall) | UpdateWithoutId

  /** The decision of `onSubmit` and `updateCategory` on a form. */
  function SubmitOutcome(f: CategoryForm, isEdit: bool): Outcome
  {
    if !FormValid(f) then ShowMissing(MissingFields(f))
    else
      var data := Prepare(f);
      if !isEdit then Send(CreateCall(data))
      else if TruthyId(data.id) then Send(UpdateCall(data.id.value, data))
      else UpdateWithoutId
  }

  /**
   * An invalid form sends nothing; a valid one is sent trimmed, with its id
   * on update; an update without a truthy id sends nothing.
   */
  lemma SubmitOutcomeMeaning(f: CategoryForm, isEdit: bool)
    ensures SubmitOutcome(f, isEdit).ShowMissing? <==> !FormValid(f)
    ensures !FormValid(f) ==> SubmitOutcome(f, isEdit).fields == MissingFields(f)
    ensures FormValid(f) && !isEdit ==> SubmitOutcome(f, isEdit) == Send(CreateCall(Prepare(f)))
    ensures FormValid(f) && isEdit && TruthyId(f.id) ==>
      SubmitOutcome(f, isEdit) == Send(UpdateCall(f.id.value, Prepare(f)))
    ensures SubmitOutcome(f, isEdit).UpdateWithoutId? <==> FormValid(f) && isEdit && !TruthyId(f.id)
  {
  }

  const CountEmpty: string := "text-gray-500"
  const CountShort: string := "text-yellow-400"
  const CountGood: string := "text-green-400"
  const CountLong: string := "text-red-400"

  /** `getCharacterCountColor`: empty, short (under 10, negatives included), good (10 to 49), long. */
  function CharacterCountColor(count: int): (r: string)
    ensures r == CountEmpty <==> count == 0
    ensures r == CountShort <==> count != 0 && count < 10
    ensures r == CountGood <==> 10 <= count < 50
    ensures r == CountLong <==> count >= 50
  {
    if count == 0 then CountEmpty
    else if count < 10 then CountShort
    else if count >= 10 && count < 50 then CountGood
    else CountLong
  }

  class AddCategory {
    var isEdit: bool
    /** The `categoryData` input. */
    var categoryData: Option<CategoryForm>
    var form: CategoryForm
    var isClosing: bool
    var isSubmitting: bool
    var formSubmitted: bool
    var calls: seq<CategoryCall>
    var alerts: seq<string>
    /** The field list of each warning shown. */
    var warnings: seq<seq<string>>
    var closeEvents: nat
    var notifications: nat

    constructor (isEdit: bool)
      ensures this.isEdit == isEdit && categoryData.None? && form == EmptyCategory
      ensures !isClosing && !isSubmitting && !formSubmitted
      ensures calls == [] && alerts == [] && warnings == [] && closeEvents == 0 && notifications == 0
    {
      this.isEdit := isEdit;
      categoryData := None;
      form := EmptyCategory;
      isClosing := false;
      isSubmitting := false;
      formSubmitted := false;
      calls := [];
      alerts := [];
      warnings := [];
      closeEvents := 0;
      notifications := 0;
    }

    /**
     * The parent binds `categoryData`; `ngOnChanges` then copies it into the
     * form, or empties the form when the input is null.
     */
    method NgOnChanges(categoryDataChanged: bool, input: Option<CategoryForm>)
      modifies this`categoryData, this`form
      ensures categoryData == input
      ensures categoryDataChanged && input.Some? ==> form == input.value
      ensures categoryDataChanged && input.None? ==> form == EmptyCategory
      ensures !categoryDataChanged ==> form == old(form)
    {
      categoryData := input;
      if categoryDataChanged {
        if input.Some? {
          form := input.value;
        } else {
          form := EmptyCategory;
        }
      }
    }

    /** `onSubmit`: the form's outcome decides what is shown and what is sent. */
    method OnSubmit()
      modifies this`formSubmitted, this`isSubmitting, this`calls, this`alerts, this`warnings
      ensures formSubmitted
      ensures SubmitOutcome(form, isEdit).ShowMissing? ==>
        calls == old(calls) && isSubmitting == old(isSubmitting) && alerts == old(alerts)
        && warnings == old(warnings) + [SubmitOutcome(form, isEdit).fields]
      ensures SubmitOutcome(form, isEdit).Send? ==>
        isSubmitting && calls == old(calls) + [SubmitOutcome(form, isEdit).call]
        && alerts == old(alerts) && warnings == old(warnings)
      ensures SubmitOutcome(form, isEdit).UpdateWithoutId? ==>
        !isSubmitting && calls == old(calls) && alerts == old(alerts) + [UpdateFailed] && warnings == old(warnings)
    {
      formSubmitted := true;
      Apply(SubmitOutcome(form, isEdit));
    }

    /** What each outcome of `onSubmit` shows and sends. */
    method Apply(outcome: Outcome)
      modifies this`isSubmitting, this`calls, this`alerts, this`warnings
      ensures outcome.ShowMissing? ==>
        calls == old(calls) && isSubmitting == old(isSubmitting) && alerts == old(alerts)
        && warnings == old(warnings) + [outcome.fields]
      ensures outcome.Send? ==>
        isSubmitting && calls == old(calls) + [outcome.call] && alerts == old(alerts) && warnings == old(warnings)
      ensures outcome.UpdateWithoutId? ==>
        !isSubmitting && calls == old(calls) && alerts == old(alerts) + [UpdateFailed] && warnings == old(warnings)
    {
      match outcome
      case ShowMissing(fields) =>
        warnings := warnings + [fields];
      case Send(call) =>
        isSubmitting := true;
        calls := calls + [call];
      case UpdateWithoutId =>
        alerts := alerts + [UpdateFailed];
        isSubmitting := false;
    }

    /**
     * A save succeeded: the list is notified, the title shown, and
     * `closeModalWithDelay` ends the request and then closes the modal.
     */
    method OnSaveSuccess(title: string)
      modifies this`isSubmitting, this`isClosing, this`alerts, this`notifications
      ensures notifications == old(notifications) + 1 && alerts == old(alerts) + [title]
      ensures !isSubmitting && isClosing
    {
      notifications := notifications + 1;
      alerts := alerts + [title];
      var flags := FinishThenClose(ModalFlags(isSubmitting, isClosing));
      isSubmitting := flags.isSubmitting;
      isClosing := flags.isClosing;
    }

    /** A save failed: the error is shown and the form can be submitted again. */
    method OnSaveError(title: string)
      modifies this`isSubmitting, this`alerts
      ensures !isSubmitting && alerts == old(alerts) + [title]
    {
      alerts := alerts + [title];
      isSubmitting := false;
    }

    /** `closeModal`: ignored while a request is running. */
    method Close()
      modifies this`isClosing
      ensures ModalFlags(isSubmitting, isClosing) == CloseModal(ModalFlags(isSubmitting, old(isClosing)))
    {
      var flags := CloseModal(ModalFlags(isSubmitting, isClosing));
      isClosing := flags.isClosing;
    }

    /** The closing animation's timer: `close` is emitted and `resetForm` runs. */
    method OnCloseTimer()
      modifies this`closeEvents, this`categoryData, this`formSubmitted, this`isClosing
      ensures closeEvents == old(closeEvents) + 1
      ensures categoryData == Some(EmptyCategory) && !formSubmitted && !isClosing
      ensures form == old(form)
    {
      closeEvents := closeEvents + 1;
      ResetForm();
    }

    /** `resetForm` empties the `categoryData` input, not the form: the form keeps what was typed. */
    method ResetForm()
      modifies this`categoryData, this`formSubmitted, this`isClosing
      ensures categoryData == Some(EmptyCategory) && !formSubmitted && !isClosing
      ensures form == old(form)
    {
      categoryData := Some(EmptyCategory);
      formSubmitted := false;
      isClosing := false;
    }
  }
}
