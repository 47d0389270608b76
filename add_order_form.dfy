/**
 * The order form: a customer and a list of item lines that never becomes
 * empty, per-line stock limits, the stock check and the payload sent to
 * the backend. HTTP calls are recorded; their responses are separate
 * handler methods.
 */
module AddOrderForm {
  import opened Wrappers
  import opened ModalDialog
  import opened JsValues
  import ListOps

  /** One line of the form; price, name and total are filled in once a product is chosen. */
  datatype FormItem = FormItem(
    productId: Option<int>,
    quantity: int,
    unitPrice: Option<int>,
    productName: Option<string>,
    totalPrice: Option<int>)

  /** The line `addItem` and the initial form hold. */
  const EmptyItem: FormItem := FormItem(None, 1, None, None, None)

  datatype Product = Product(id: int, name: string, price: int, stock: int)

  datatype OrderForm = OrderForm(id: Option<int>, userId: Option<int>, items: seq<FormItem>)

  datatype PayloadItem = PayloadItem(productId: int, quantity: int)

  datatype Payload = Payload(userId: int, items: seq<PayloadItem>)

  /** The requests the form sends. */
  datatype OrderCall = CreateCall(payload: Payload) | UpdateCall(id: int, payload: Payload)

  /** `products.find(p => p.id === id)`. */
  function FindProduct(products: seq<Product>, id: int): (r: Option<Product>)
    ensures r.Some? ==> r.value in products && r.value.id == id
    ensures r.None? <==> forall j :: 0 <= j < |products| ==> products[j].id != id
    ensures r.Some? ==> exists i :: 0 <= i < |products| && products[i] == r.value
                                   && forall j :: 0 <= j < i ==> products[j].id != id
  {
    if products == [] then None
    else if products[0].id == id then Some(products[0])
    else FindProduct(products[1..], id)
  }

  /** `getProduct`: the line's product, when the line names one (a falsy id names none). */
  function ProductOf(products: seq<Product>, item: FormItem): (r: Option<Product>)
    ensures r.Some? <==> TruthyId(item.productId) && exists j :: 0 <= j < |products| && products[j].id == item.productId.value
    ensures r.Some? ==> r.value in products && r.value.id == item.productId.value
  {
    if TruthyId(item.productId) then FindProduct(products, item.productId.value) else None
  }

  /** `getMaxQuantity`: the product's stock, or 0 without a known product. */
  function MaxQuantity(products: seq<Product>, item: FormItem): (n: int)
    ensures ProductOf(products, item).None? ==> n == 0
    ensures ProductOf(products, item).Some? ==> exists j :: 0 <= j < |products| && products[j].id == item.productId.value && n == products[j].stock
  {
    match ProductOf(products, item)
    case None => 0
    case Some(p) => p.stock
  }

  /** The condition `hasValidItems` applies to one line. */
  predicate ItemValid(products: seq<Product>, item: FormItem) {
    item.productId.Some? && item.quantity > 0 && item.quantity <= MaxQuantity(products, item)
  }

  /** `hasValidItems`: some line has a product and a quantity between 1 and its stock. */
  predicate HasValidItems(products: seq<Product>, items: seq<FormItem>) {
    exists i :: 0 <= i < |items| && ItemValid(products, items[i])
  }

  /** A line `validateStock` refuses: a known product and more than its stock. */
  predicate OverStock(products: seq<Product>, item: FormItem) {
    TruthyId(item.productId) && FindProduct(products, item.productId.value).Some?
    && item.quantity > FindProduct(products, item.productId.value).value.stock
  }

  /** A line the payload keeps: a product and a positive quantity. */
  predicate Submittable(item: FormItem) {
    item.productId.Some? && item.quantity > 0
  }

  /** What the payload keeps of a line: its product id and its quantity. */
  function PayloadItemOf(item: FormItem): (p: PayloadItem)
    requires Submittable(item)
    ensures Some(p.productId) == item.productId && p.quantity == item.quantity
  {
    PayloadItem(item.productId.value, item.quantity)
  }

  /** The payload's items: the submittable lines, in order, with just product id and quantity. */
  function PayloadItems(items: seq<FormItem>): (r: seq<PayloadItem>)
    ensures |r| <= |items|
    ensures forall k :: 0 <= k < |r| ==> r[k].quantity > 0
    ensures (exists i :: 0 <= i < |items| && Submittable(items[i])) <==> r != []
  {
    if items == [] then []
    else if Submittable(items[0]) then [PayloadItemOf(items[0])] + PayloadItems(items[1..])
    else
      assert forall i :: 1 <= i < |items| ==> items[i] == items[1..][i - 1];
      PayloadItems(items[1..])
  }

  /**
   * Which lines are sent: `filter` keeps the submittable lines, in order, and
   * `map` turns the k-th of them into the k-th payload item.
   */
  lemma {:induction false} PayloadItemsAreFilteredLines(items: seq<FormItem>)
    ensures |PayloadItems(items)| == |ListOps.Filter(items, Submittable)|
    ensures forall k :: 0 <= k < |PayloadItems(items)| ==>
      PayloadItems(items)[k] == PayloadItemOf(ListOps.Filter(items, Submittable)[k])
    decreases |items|
  {
    if items != [] {
      PayloadItemsAreFilteredLines(items[1..]);
    }
  }

  /** The payload is built line by line, so it keeps the lines' order. */
  lemma {:induction false} PayloadItemsAppend(a: seq<FormItem>, b: seq<FormItem>)
    ensures PayloadItems(a + b) == PayloadItems(a) + PayloadItems(b)
    decreases |a|
  {
    if a == [] {
      assert a + b == b;
    } else {
      assert (a + b)[0] == a[0];
      assert (a + b)[1..] == a[1..] + b;
      PayloadItemsAppend(a[1..], b);
    }
  }

  /** A form that passes `hasValidItems` never sends an empty item list. */
  lemma ValidItemsGivePayload(products: seq<Product>, items: seq<FormItem>)
    requires HasValidItems(products, items)
    ensures PayloadItems(items) != []
  {
    var i :| 0 <= i < |items| && ItemValid(products, items[i]);
    assert Submittable(items[i]);
  }

  /** `items.splice(index, 1)`: a negative index counts from the end, an index past the end removes nothing. */
  function Splice1<T>(s: seq<T>, index: int): (r: seq<T>)
    ensures index >= |s| ==> r == s
    ensures s != [] && index < |s| ==> |r| == |s| - 1
    ensures 0 <= index < |s| ==> r == s[..index] + s[index + 1..]
  {
    var start := if index < 0 then (if |s| + index > 0 then |s| + index else 0) else (if index < |s| then index else |s|);
    if start < |s| then s[..start] + s[start + 1..] else s
  }

  /** `showSuccess` as written: it calls `closeModal` while the request still counts as in flight. */
  function ShowSuccessAsWritten(m: ModalFlags): (r: ModalFlags)
    ensures m.isSubmitting ==> r == m
    ensures !m.isSubmitting ==> !r.isSubmitting && r.isClosing
  {
    CloseModal(m)
  }

  /** After a successful save, as written, the modal neither closes nor leaves the submitting state. */
  lemma SuccessLeavesModalStuck()
    ensures ShowSuccessAsWritten(ModalFlags(true, false)) == ModalFlags(true, false)
  {
  }

  class AddOrder {
    var isEdit: bool
    var form: OrderForm
    var products: seq<Product>
    var isClosing: bool
    var isSubmitting: bool
    var formSubmitted: bool
    /** The requests sent, in order. */
    var calls: seq<OrderCall>
    /** The titles of the dialogs shown, in order. */
    var alerts: seq<string>
    /** How often `close` was emitted, and how often the order list was told to reload. */
    var closeEvents: nat
    var notifications: nat

    /** The item list is never empty. */
    ghost predicate Valid()
      reads this
    {
      |form.items| >= 1
    }

    constructor (isEdit: bool, products: seq<Product>)
      ensures Valid()
      ensures this.isEdit == isEdit && this.products == products
      ensures form == OrderForm(None, None, [EmptyItem])
      ensures !isClosing && !isSubmitting && !formSubmitted
      ensures calls == [] && alerts == [] && closeEvents == 0 && notifications == 0
    {
      this.isEdit := isEdit;
      this.products := products;
      form := OrderForm(None, None, [EmptyItem]);
      isClosing := false;
      isSubmitting := false;
      formSubmitted := false;
      calls := [];
      alerts := [];
      closeEvents := 0;
      notifications := 0;
    }

    /** `ngOnChanges`: a new order replaces the form; an empty item list becomes one empty line. */
    method NgOnChanges(orderDataChanged: bool, orderData: Option<OrderForm>)
      requires Valid()
      modifies this`form
      ensures Valid()
      ensures orderDataChanged && orderData.Some? ==>
        form.id == orderData.value.id && form.userId == orderData.value.userId
        && form.items == (if |orderData.value.items| > 0 then orderData.value.items else [EmptyItem])
      ensures !(orderDataChanged && orderData.Some?) ==> form == old(form)
    {
      if orderDataChanged && orderData.Some? {
        var data := orderData.value;
        form := data.(items := if |data.items| > 0 then data.items else [EmptyItem]);
      }
    }

    /** `addItem`: one empty line at the end. */
    method AddItem()
      requires Valid()
      modifies this`form
      ensures Valid()
      ensures form == old(form).(items := old(form.items) + [EmptyItem])
    {
      form := form.(items := form.items + [EmptyItem]);
    }

    /** `removeItem`: splices the line out, but never the last remaining one. */
    method RemoveItem(index: int)
      requires Valid()
      modifies this`form
      ensures Valid()
      ensures |old(form.items)| > 1 ==> form == old(form).(items := Splice1(old(form.items), index))
      ensures |old(form.items)| <= 1 ==> form == old(form)
    {
      if |form.items| > 1 {
        form := form.(items := Splice1(form.items, index));
      }
    }

    /**
     * `onProductChange`: copies the chosen product's price and name into the
     * line and, for a positive quantity, its total.
     */
    method OnProductChange(index: int)
      requires Valid() && 0 <= index < |form.items|
      modifies this`form
      ensures Valid()
      ensures |form.items| == |old(form.items)| && form.id == old(form.id) && form.userId == old(form.userId)
      ensures forall j :: 0 <= j < |form.items| && j != index ==> form.items[j] == old(form.items[j])
      ensures var item := old(form.items[index]);
        ProductOf(products, item).None? ==> form.items[index] == item
      ensures var item := old(form.items[index]); var p := ProductOf(products, item);
        p.Some? ==>
          && form.items[index].productId == item.productId && form.items[index].quantity == item.quantity
          && form.items[index].unitPrice == Some(p.value.price)
          && form.items[index].productName == Some(p.value.name)
          && form.items[index].totalPrice == (if item.quantity > 0 then Some(p.value.price * item.quantity) else item.totalPrice)
    {
      var item := form.items[index];
      var product := ProductOf(products, item);
      if product.Some? {
        item := item.(unitPrice := Some(product.value.price), productName := Some(product.value.name));
        if item.quantity > 0 {
          item := item.(totalPrice := Some(product.value.price * item.quantity));
        }
        form := form.(items := form.items[index := item]);
      }
    }

    /**
     * `validateStock`: walks the lines and stops at the first whose known
     * product has less stock than asked for; that product is reported.
     */
    method ValidateStock() returns (ok: bool, offending: Option<Product>)
      ensures ok <==> forall i :: 0 <= i < |form.items| ==> !OverStock(products, form.items[i])
      ensures ok <==> offending.None?
      ensures !ok ==>
        exists i :: 0 <= i < |form.items| && OverStock(products, form.items[i])
          && (forall j :: 0 <= j < i ==> !OverStock(products, form.items[j]))
          && offending == FindProduct(products, form.items[i].productId.value)
    {
      var items := form.items;
      for i := 0 to |items|
        invariant forall j :: 0 <= j < i ==> !OverStock(products, items[j])
      {
        var item := items[i];
        if TruthyId(item.productId) {
          var product := FindProduct(products, item.productId.value);
          if product.Some? && item.quantity > product.value.stock {
            return false, product;
          }
        }
      }
      return true, None;
    }

    /**
     * `onSubmit`: without a customer or a valid line it warns; a line over
     * stock stops it; otherwise it marks the form as submitting and sends the
     * payload, as an update when editing (which needs an order id).
     */
    method OnSubmit()
      requires Valid()
      modifies this`formSubmitted, this`isSubmitting, this`calls, this`alerts
      ensures Valid() && formSubmitted
      ensures !TruthyId(old(form.userId)) || !HasValidItems(products, form.items) ==>
        calls == old(calls) && isSubmitting == old(isSubmitting) && alerts == old(alerts) + ["Missing Information"]
      ensures |calls| > |old(calls)| ==>
        && TruthyId(form.userId) && HasValidItems(products, form.items)
        && (forall i :: 0 <= i < |form.items| ==> !OverStock(products, form.items[i]))
        && isSubmitting
        && (isEdit ==> TruthyId(form.id))
        && calls == old(calls) + [
             if isEdit then UpdateCall(form.id.value, Payload(form.userId.value, PayloadItems(form.items)))
             else CreateCall(Payload(form.userId.value, PayloadItems(form.items)))]
      ensures (TruthyId(form.userId) && HasValidItems(products, form.items)
               && (forall i :: 0 <= i < |form.items| ==> !OverStock(products, form.items[i]))
               && (!isEdit || TruthyId(form.id))) ==> |calls| == |old(calls)| + 1
      ensures isEdit && !TruthyId(form.id) ==> calls == old(calls)
      ensures TruthyId(form.userId) && HasValidItems(products, form.items)
              && (exists i :: 0 <= i < |form.items| && OverStock(products, form.items[i])) ==>
        calls == old(calls) && isSubmitting == old(isSubmitting) && alerts == old(alerts) + ["Insufficient Stock"]
      ensures TruthyId(form.userId) && HasValidItems(products, form.items)
              && (forall i :: 0 <= i < |form.items| ==> !OverStock(products, form.items[i]))
              && isEdit && !TruthyId(form.id) ==>
        !isSubmitting && alerts == old(alerts) + ["Update failed"]
      ensures |calls| > |old(calls)| ==> alerts == old(alerts)
    {
      formSubmitted := true;
      if !TruthyId(form.userId) || !HasValidItems(products, form.items) {
        alerts := alerts + ["Missing Information"];
        return;
      }
      var ok, offending := ValidateStock();
      if !ok {
        alerts := alerts + ["Insufficient Stock"];
        return;
      }
      isSubmitting := true;
      var payload := Payload(form.userId.value, PayloadItems(form.items));
      if isEdit {
        if !TruthyId(form.id) {
          alerts := alerts + ["Update failed"];
          isSubmitting := false;
          return;
        }
        calls := calls + [UpdateCall(form.id.value, payload)];
      } else {
        calls := calls + [CreateCall(payload)];
      }
    }

    /**
     * A save succeeded: the dialog shows and the list is told to reload, but
     * the close is asked for while the request still counts as in flight, so
     * after a sent request the modal stays open and busy.
     */
    method OnSaveSuccess()
      modifies this`isSubmitting, this`isClosing, this`alerts, this`notifications
      ensures notifications == old(notifications) + 1
      ensures alerts == old(alerts) + ["Success!"]
      ensures ModalFlags(isSubmitting, isClosing) == ShowSuccessAsWritten(ModalFlags(old(isSubmitting), old(isClosing)))
      ensures old(isSubmitting) ==> isSubmitting && isClosing == old(isClosing)
      ensures !old(isSubmitting) ==> !isSubmitting && isClosing
    {
      alerts := alerts + ["Success!"];
      notifications := notifications + 1;
      var flags := ShowSuccessAsWritten(ModalFlags(isSubmitting, isClosing));
      isSubmitting := flags.isSubmitting;
      isClosing := flags.isClosing;
    }

    /** A save failed: the error is shown and the form can be submitted again. */
    method OnSaveError(title: string)
      modifies this`isSubmitting, this`alerts
      ensures !isSubmitting && alerts == old(alerts) + [title]
    {
      alerts := alerts + [title];
      isSubmitting := false;
    }

    /** `closeModal`. */
    method Close()
      modifies this`isClosing
      ensures ModalFlags(isSubmitting, isClosing) == CloseModal(ModalFlags(isSubmitting, old(isClosing)))
    {
      var flags := CloseModal(ModalFlags(isSubmitting, isClosing));
      isClosing := flags.isClosing;
    }

    /** The closing animation's timer: the flag drops and `close` is emitted. */
    method OnCloseTimer()
      modifies this`isClosing, this`closeEvents
      ensures !isClosing && closeEvents == old(closeEvents) + 1
    {
      isClosing := false;
      closeEvents := closeEvents + 1;
    }
  }
}
