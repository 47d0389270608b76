/**
 * The product form: which fields must be filled, the list of missing
 * fields shown to the user, the data sent on create and on update, and
 * the form's reset.
 */
module AddProductForm {
  import opened Wrappers
  import opened Text
  import opened ModalDialog
  import opened JsValues
  import opened ListOps

  /** The category control holds an id, or (from the select) a category object with its id. */
  datatype CategoryRef = CategoryId(id: int) | CategoryObject(objectId: Option<int>)

  /** `formData`: price and stock stay null until typed; name and description may be missing in input data. */
  datatype ProductForm = ProductForm(
    id: Option<int>,
    name: Option<string>,
    description: Option<string>,
    categoryId: Option<CategoryRef>,
    stock: Option<int>,
    price: Option<int>)

  const EmptyForm: ProductForm := ProductForm(None, Some(""), Some(""), None, None, None)

  datatype Category = Category(id: int, name: string)

  /** What is sent: trimmed texts and the category as a plain id. */
  datatype ProductData = ProductData(
    id: Option<int>, name: string, description: string, categoryId: Option<int>, stock: int, price: int)

  /** What create sends: the same without the id. */
  datatype NewProduct = NewProduct(name: string, description: string, categoryId: Option<int>, stock: int, price: int)

  datatype ProductCall = CreateCall(product: NewProduct) | UpdateCall(id: int, data: ProductData)

  const NameField: string := "Product Name"
  const CategoryField: string := "Category"
  const StockField: string := "Valid Stock"
  const PriceField: string := "Valid Price"
  const DescriptionField: string := "Description"

  /** The order in which the warning lists the labels. */
  const FieldOrder: seq<string> := [NameField, CategoryField, StockField, PriceField, DescriptionField]

  /** `!!formData.categoryId`: a numeric id must be non-zero; an object always counts. */
  predicate CategoryChosen(c: Option<CategoryRef>) {
    c.Some? && (c.value.CategoryId? ==> c.value.id != 0)
  }

  predicate StockValid(stock: Option<int>) {
    stock.Some? && stock.value >= 0
  }

  predicate PriceValid(price: Option<int>) {
    price.Some? && price.value > 0
  }

  /** The condition `onSubmit` checks before anything is sent. */
  predicate FormValid(f: ProductForm) {
    Filled(f.name) && Filled(f.description) && CategoryChosen(f.categoryId) && StockValid(f.stock) && PriceValid(f.price)
  }

  /** The five labels of the warning are different texts. */
  lemma FieldNamesDistinct()
    ensures NameField != CategoryField && NameField != StockField && NameField != PriceField && NameField != DescriptionField
    ensures CategoryField != StockField && CategoryField != PriceField && CategoryField != DescriptionField
    ensures StockField != PriceField && StockField != DescriptionField && PriceField != DescriptionField
  {
    assert NameField[0] == 'P' && CategoryField[0] == 'C' && StockField[0] == 'V';
    assert PriceField[0] == 'V' && DescriptionField[0] == 'D';
    assert StockField[6] == 'S' && PriceField[6] == 'P';
  }

  /**
   * `showValidationError`'s list: one label per failed test, in the order
   * name, category, stock, price, description.
   */
  function MissingFields(f: ProductForm): (r: seq<string>)
    ensures r == [] <==> FormValid(f)
    ensures NameField in r <==> !Filled(f.name)
    ensures CategoryField in r <==> !CategoryChosen(f.categoryId)
    ensures StockField in r <==> !StockValid(f.stock)
    ensures PriceField in r <==> !PriceValid(f.price)
    ensures DescriptionField in r <==> !Filled(f.description)
    ensures IsSubsequence(r, FieldOrder)
  {
    FieldNamesDistinct();
    PicksInOrder(!Filled(f.name), !CategoryChosen(f.categoryId), !StockValid(f.stock), !PriceValid(f.price), !Filled(f.description),
                 NameField, CategoryField, StockField, PriceField, DescriptionField);
    var name := Pick(!Filled(f.name), NameField);
    var category := Pick(!CategoryChosen(f.categoryId), CategoryField);
    var stock := Pick(!StockValid(f.stock), StockField);
    var price := Pick(!PriceValid(f.price), PriceField);
    var description := Pick(!Filled(f.description), DescriptionField);
    var r := name + (category + (stock + (price + description)));
    assert forall x :: x in r <==> x in name || x in category || x in stock || x in price || x in description;
    r
  }

  /** The id the backend receives for the category control. */
  function CategoryIdOf(c: CategoryRef): Option<int> {
    match c
    case CategoryId(id) => Some(id)
    case CategoryObject(objectId) => objectId
  }

  /** The prepared data of a valid form. */
  function Prepare(f: ProductForm): (d: ProductData)
    requires FormValid(f)
    ensures d.id == f.id && d.stock == f.stock.value && d.price == f.price.value
    ensures d.name == Trim(f.name.value) && d.description == Trim(f.description.value)
    ensures d.name != [] && d.description != []
    ensures f.categoryId.value.CategoryId? ==> d.categoryId == Some(f.categoryId.value.id)
    ensures f.categoryId.value.CategoryObject? ==> d.categoryId == f.categoryId.value.objectId
  {
    ProductData(f.id, Trim(f.name.value), Trim(f.description.value), CategoryIdOf(f.categoryId.value), f.stock.value, f.price.value)
  }

  /** `const { id, ...productWithoutId } = data`. */
  function WithoutId(d: ProductData): (p: NewProduct)
    ensures p.name == d.name && p.description == d.description && p.categoryId == d.categoryId
    ensures p.stock == d.stock && p.price == d.price
  {
    NewProduct(d.name, d.description, d.categoryId, d.stock, d.price)
  }

  /** `getCategoryName`: the name of the first category with that id; null for no categories or no match. */
  function GetCategoryName(categories: seq<Category>, categoryId: int): (r: Option<string>)
    ensures r.Some? <==> exists j :: 0 <= j < |categories| && categories[j].id == categoryId
    ensures r.Some? ==> exists j :: 0 <= j < |categories| && categories[j].id == categoryId && categories[j].name == r.value
                                   && forall i :: 0 <= i < j ==> categories[i].id != categoryId
    ensures categories == [] ==> r.None?
  {
    if categories == [] then None
    else if categories[0].id == categoryId then Some(categories[0].name)
    else
      var rest := GetCategoryName(categories[1..], categoryId);
      assert forall j :: 1 <= j < |categories| ==> categories[j] == categories[1..][j - 1];
      rest
  }

  /** What `onSubmit` does with a form: show the missing fields, send a request, or fail an update without an id. */
  datatype Outcome = ShowMissing(fields: seq<string>) | Send(call: ProductCall) | UpdateWithoutId

  const UpdateFailed: string := "Update failed"

  /** The decision of `onSubmit` on a form. */
  function SubmitOutcome(f: ProductForm, isEdit: bool): Outcome
  {
    if !FormValid(f) then ShowMissing(MissingFields(f))
    else
      var data := Prepare(f);
      if !isEdit then Send(CreateCall(WithoutId(data)))
      else if TruthyId(data.id) then Send(UpdateCall(data.id.value, data))
      else UpdateWithoutId
  }

  /**
   * What `onSubmit` decides: an invalid form shows its missing fields and
   * sends nothing; a valid form is sent prepared, without its id on create;
   * an update needs a truthy id.
   */
  lemma SubmitOutcomeMeaning(f: ProductForm, isEdit: bool)
    ensures SubmitOutcome(f, isEdit).ShowMissing? <==> !FormValid(f)
    ensures !FormValid(f) ==> SubmitOutcome(f, isEdit).fields == MissingFields(f) != []
    ensures FormValid(f) && !isEdit ==> SubmitOutcome(f, isEdit) == Send(CreateCall(WithoutId(Prepare(f))))
    ensures FormValid(f) && isEdit && TruthyId(f.id) ==>
      SubmitOutcome(f, isEdit) == Send(UpdateCall(f.id.value, Prepare(f)))
    ensures SubmitOutcome(f, isEdit).UpdateWithoutId? <==> FormValid(f) && isEdit && !TruthyId(f.id)
  {
  }

  class AddProduct {
    var isEdit: bool
    var form: ProductForm
    var categories: seq<Category>
    var isClosing: bool
    var isSubmitting: bool
    var formSubmitted: bool
    var calls: seq<ProductCall>
    var alerts: seq<string>
    /** The field list of each validation warning shown. */
    var warnings: seq<seq<string>>
    var closeEvents: nat
    var notifications: nat

    constructor (isEdit: bool, categories: seq<Category>)
      ensures this.isEdit == isEdit && this.categories == categories
      ensures form == EmptyForm && !isClosing && !isSubmitting && !formSubmitted
      ensures calls == [] && alerts == [] && warnings == [] && closeEvents == 0 && notifications == 0
    {
      this.isEdit := isEdit;
      this.categories := categories;
      form := EmptyForm;
      isClosing := false;
      isSubmitting := false;
      formSubmitted := false;
      calls := [];
      alerts := [];
      warnings := [];
      closeEvents := 0;
      notifications := 0;
    }

    /** `ngOnChanges`: the input product replaces the form. */
    method NgOnChanges(productDataChanged: bool, productData: Option<ProductForm>)
      modifies this`form
      ensures productDataChanged && productData.Some? ==> form == productData.value
      ensures !(productDataChanged && productData.Some?) ==> form == old(form)
    {
      if productDataChanged && productData.Some? {
        form := productData.value;
      }
    }

    /**
     * `onSubmit`: the outcome of the form decides what is shown and what is
     * sent; the form itself is not changed.
     */
    method OnSubmit()
      modifies this`formSubmitted, this`isSubmitting, this`calls, this`alerts, this`warnings
      ensures formSubmitted
      ensures SubmitOutcome(form, isEdit).ShowMissing? ==>
        calls == old(calls) && isSubmitting == old(isSubmitting) && alerts == old(alerts)
        && warnings == old(warnings) + [SubmitOutcome(form, isEdit).fields]
      ensures SubmitOutcome(form, isEdit).Send? ==>
        isSubmitting && calls == old(calls) + [SubmitOutcome(form, isEdit).call]
        && alerts == old(alerts) && warnings == old(warnings)
      ensures SubmitOutcome(form, isEdit).UpdateWithoutId? ==>
        !isSubmitting && calls == old(calls) && alerts == old(alerts) + [UpdateFailed] && warnings == old(warnings)
    {
      formSubmitted := true;
      Apply(SubmitOutcome(form, isEdit));
    }

    /** What each outcome of `onSubmit` shows and sends. */
    method Apply(outcome: Outcome)
      modifies this`isSubmitting, this`calls, this`alerts, this`warnings
      ensures outcome.ShowMissing? ==>
        calls == old(calls) && isSubmitting == old(isSubmitting) && alerts == old(alerts)
        && warnings == old(warnings) + [outcome.fields]
      ensures outcome.Send? ==>
        isSubmitting && calls == old(calls) + [outcome.call] && alerts == old(alerts) && warnings == old(warnings)
      ensures outcome.UpdateWithoutId? ==>
        !isSubmitting && calls == old(calls) && alerts == old(alerts) + [UpdateFailed] && warnings == old(warnings)
    {
      match outcome
      case ShowMissing(fields) =>
        warnings := warnings + [fields];
      case Send(call) =>
        isSubmitting := true;
        calls := calls + [call];
      case UpdateWithoutId =>
        alerts := alerts + [UpdateFailed];
        isSubmitting := false;
    }

    /** A save succeeded: the list reloads, the request is over, and the modal closes. */
    method OnSaveSuccess(title: string)
      modifies this`isSubmitting, this`isClosing, this`alerts, this`notifications
      ensures notifications == old(notifications) + 1 && alerts == old(alerts) + [title]
      ensures !isSubmitting && isClosing
    {
      notifications := notifications + 1;
      alerts := alerts + [title];
      var flags := FinishThenClose(ModalFlags(isSubmitting, isClosing));
      isSubmitting := flags.isSubmitting;
      isClosing := flags.isClosing;
    }

    /** A save failed: the error is shown and the form can be submitted again. */
    method OnSaveError(title: string)
      modifies this`isSubmitting, this`alerts
      ensures !isSubmitting && alerts == old(alerts) + [title]
    {
      alerts := alerts + [title];
      isSubmitting := false;
    }

    /** `closeModal`. */
    method Close()
      modifies this`isClosing
      ensures ModalFlags(isSubmitting, isClosing) == CloseModal(ModalFlags(isSubmitting, old(isClosing)))
    {
      var flags := CloseModal(ModalFlags(isSubmitting, isClosing));
      isClosing := flags.isClosing;
    }

    /** The closing animation's timer: `close` is emitted and the form is reset. */
    method OnCloseTimer()
      modifies this`closeEvents, this`form, this`formSubmitted, this`isClosing
      ensures closeEvents == old(closeEvents) + 1
      ensures form == EmptyForm && !formSubmitted && !isClosing
    {
      closeEvents := closeEvents + 1;
      ResetForm();
    }

    /** `resetForm`: the empty form, and neither submitted nor closing. */
    method ResetForm()
      modifies this`form, this`formSubmitted, this`isClosing
      ensures form == EmptyForm && !formSubmitted && !isClosing
    {
      form := EmptyForm;
      formSubmitted := false;
      isClosing := false;
    }
  }
}
