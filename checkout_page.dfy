/**
 * The checkout page: its own, looser check of the form, the order payload
 * it builds from the cart, and the submit flow that guards, confirms,
 * places the order, e-mails, saves the address, clears the cart and
 * navigates.
 *
 * The browser's confirmation answer, the outcome of the remote order call
 * and the outcome of the e-mail call are parameters of the flow. What the
 * page does to the outside world (dialogs, remote calls, saving, clearing,
 * navigation) is recorded, in order, in `effects`.
 */
module CheckoutPage {
  import opened Outcomes
  import opened Ascii
  import opened CartContext
  import opened CheckoutTypes
  import opened CheckoutStorage
  import Validation

  const NameMessage := "Name must be at least 3 characters"
  const PhoneMessage := "Phone number must be exactly 10 digits"
  const AddressMessage := "Address is required"
  const PincodeMessage := "Pincode is required"

  const EmptyCartMessage := "Your cart is empty. Please add items before checkout."
  const FixErrorsMessage := "Please fix the validation errors before submitting."
  const ConfirmPrompt := "Are you sure you want to place this order?"
  const OrderFailedAlert := "Order Failed"
  const OrderFailedMessage := "Order failed. Please try again."
  const SuccessPath := "/order-success"
  const PaymentMethod := "ONLINE"

  // ---------------------------------------------------------------------
  // The page's own form check

  /** One key per flagged field, each with its message. */
  function PageErrors(nameBad: bool, phoneBad: bool, addressBad: bool, pincodeBad: bool): (r: map<Field, string>)
    ensures FullName in r <==> nameBad
    ensures PhoneNumber in r <==> phoneBad
    ensures Address in r <==> addressBad
    ensures Pincode in r <==> pincodeBad
    ensures Email !in r && Landmark !in r && DeliveryInstructions !in r
    ensures FullName in r ==> r[FullName] == NameMessage
    ensures PhoneNumber in r ==> r[PhoneNumber] == PhoneMessage
    ensures Address in r ==> r[Address] == AddressMessage
    ensures Pincode in r ==> r[Pincode] == PincodeMessage
  {
    var m0: map<Field, string> := map[];
    var m1 := if nameBad then m0[FullName := NameMessage] else m0;
    var m2 := if phoneBad then m1[PhoneNumber := PhoneMessage] else m1;
    var m3 := if addressBad then m2[Address := AddressMessage] else m2;
    if pincodeBad then m3[Pincode := PincodeMessage] else m3
  }

  /**
   * `validateFormData`: the name needs three characters after trimming,
   * the phone exactly ten digits, and the address and pincode something
   * other than whitespace. E-mail and landmark are not checked.
   */
  function ValidateFormData(data: CheckoutFormData): (r: map<Field, string>)
    ensures FullName in r <==> |Trim(data.fullName)| < 3
    ensures PhoneNumber in r <==> |DigitsOnly(data.phoneNumber)| != 10
    ensures Address in r <==> AllWhitespace(data.address)
    ensures Pincode in r <==> AllWhitespace(data.pincode)
    ensures Email !in r && Landmark !in r && DeliveryInstructions !in r
    ensures FullName in r ==> r[FullName] == NameMessage
    ensures PhoneNumber in r ==> r[PhoneNumber] == PhoneMessage
    ensures Address in r ==> r[Address] == AddressMessage
    ensures Pincode in r ==> r[Pincode] == PincodeMessage
  {
    PageErrors(
      data.fullName == "" || |Trim(data.fullName)| < 3,
      data.phoneNumber == "" || |DigitsOnly(data.phoneNumber)| != 10,
      data.address == "" || |Trim(data.address)| == 0,
      data.pincode == "" || |Trim(data.pincode)| == 0)
  }

  /**
   * A form the form component accepts passes the page's check too, except
   * that a name of exactly two characters after trimming, which the form
   * allows, is flagged by the page.
   */
  lemma FormAcceptedPageVerdict(data: CheckoutFormData)
    requires !Validation.HasValidationErrors(Validation.ValidateCheckoutForm(data))
    ensures ValidateFormData(data) == if |Trim(data.fullName)| == 2 then map[FullName := NameMessage] else map[]
  {
    Validation.FormErrorsIff(data);
    assert Validation.FieldRule(data, FullName) && Validation.FieldRule(data, PhoneNumber);
    assert Validation.FieldRule(data, Address) && Validation.FieldRule(data, Pincode);
    Validation.TrimmedLetters(data.fullName);
    assert |Trim(data.fullName)| >= 2;
    assert |DigitsOnly(data.phoneNumber)| == 10;
    assert !AllWhitespace(data.address);
    Validation.DigitsNotBlank(data.pincode);
    var r := ValidateFormData(data);
    var m: map<Field, string> := if |Trim(data.fullName)| == 2 then map[FullName := NameMessage] else map[];
    forall f ensures f in r <==> f in m {
      match f
      case FullName =>
      case _ =>
    }
    assert r.Keys == m.Keys;
  }

  // ---------------------------------------------------------------------
  // The order payload

  /** `OrderItem`: what the backend is told about one cart line. */
  datatype OrderLine = OrderLine(name: string, price: int, quantity: int)

  datatype Customer = Customer(name: string, email: string, phone: string, address: string)

  /** `OrderData` */
  datatype OrderData = OrderData(customer: Customer, items: seq<OrderLine>, totalAmount: int, paymentMethod: string)

  /** The part of the backend's reply the page reads. */
  datatype OrderResponse = OrderResponse(orderId: Option<string>, id: Option<string>)

  /** The parameters of the confirmation e-mail. */
  datatype EmailParams = EmailParams(name: string, orderId: string, totalAmount: int)

  /** `responseData?.orderId || responseData?.id || 'N/A'` */
  function OrderIdOf(response: Option<OrderResponse>): (r: string)
    ensures r != ""
    ensures response.Some? && Truthy(response.value.orderId) ==> r == response.value.orderId.value
    ensures response.Some? && !Truthy(response.value.orderId) && Truthy(response.value.id) ==> r == response.value.id.value
    ensures response.None? || (!Truthy(response.value.orderId) && !Truthy(response.value.id)) ==> r == "N/A"
  {
    if response.Some? && Truthy(response.value.orderId) then response.value.orderId.value
    else if response.Some? && Truthy(response.value.id) then response.value.id.value
    else "N/A"
  }

  function LandmarkPart(data: CheckoutFormData): string {
    if |data.landmark| != 0 then ", " + data.landmark else ""
  }

  function PincodePart(data: CheckoutFormData): string {
    if |data.pincode| != 0 then ", " + data.pincode else ""
  }

  function InstructionsPart(data: CheckoutFormData): string {
    if |data.deliveryInstructions| != 0 then " (" + data.deliveryInstructions + ")" else ""
  }

  /** The one-line address sent as `customer.address`. */
  function AddressLine(data: CheckoutFormData): string {
    data.address + LandmarkPart(data) + PincodePart(data) + InstructionsPart(data)
  }

  /**
   * The address line starts with the address, adds nothing when the other
   * three parts are empty, ends with the closing parenthesis of the
   * instructions when there are some, and else with the pincode when there
   * is one.
   */
  lemma AddressLineShape(data: CheckoutFormData)
    ensures var r := AddressLine(data);
      && |r| >= |data.address| && r[..|data.address|] == data.address
      && (r == data.address <==> data.landmark == "" && data.pincode == "" && data.deliveryInstructions == "")
      && (data.deliveryInstructions != "" ==> r[|r| - 1] == ')')
      && (data.pincode != "" && data.deliveryInstructions == "" ==>
            |r| >= |data.pincode| + 2 && r[|r| - |data.pincode| - 2..] == ", " + data.pincode)
  {
    var a, l, p, d := data.address, LandmarkPart(data), PincodePart(data), InstructionsPart(data);
    var r := a + l + p + d;
    assert r[..|a|] == a;
    assert |r| == |a| + |l| + |p| + |d|;
    assert d == "" ==> r == (a + l) + p;
  }

  /** `items.map(...)`: name, price and quantity of each cart line. */
  function OrderLines(items: seq<CartItem>): seq<OrderLine> {
    seq(|items|, i requires 0 <= i < |items| => OrderLine(items[i].item.name, items[i].item.price, items[i].quantity))
  }

  /** The sum the backend can recompute from the lines of a payload. */
  function LinesTotal(lines: seq<OrderLine>): int {
    if lines == [] then 0
    else LinesTotal(lines[..|lines| - 1]) + lines[|lines| - 1].price * lines[|lines| - 1].quantity
  }

  /** The payload built from the form and the cart; the total is the cart's price fold. */
  function BuildOrder(data: CheckoutFormData, items: seq<CartItem>): OrderData {
    OrderData(
      Customer(data.fullName, data.email, data.phoneNumber, AddressLine(data)),
      OrderLines(items),
      TotalPrice(items),
      PaymentMethod)
  }

  /** The lines of a payload add up to the cart total. */
  lemma {:induction false} LinesTotalIsCartTotal(items: seq<CartItem>)
    ensures LinesTotal(OrderLines(items)) == TotalPrice(items)
  {
    if items != [] {
      var front := items[..|items| - 1];
      assert OrderLines(items)[..|items| - 1] == OrderLines(front);
      LinesTotalIsCartTotal(front);
    }
  }

  /**
   * The payload is consistent: one line per cart line carrying its name,
   * price and quantity, a total equal to the cart total and to the sum of
   * the lines, the customer's contact fields, and online payment.
   */
  lemma PayloadConsistent(data: CheckoutFormData, items: seq<CartItem>)
    ensures var order := BuildOrder(data, items);
      && |order.items| == |items|
      && (forall i :: 0 <= i < |items| ==>
            order.items[i] == OrderLine(items[i].item.name, items[i].item.price, items[i].quantity))
      && order.totalAmount == TotalPrice(items) == LinesTotal(order.items)
      && order.customer.name == data.fullName && order.customer.email == data.email
      && order.customer.phone == data.phoneNumber
      && order.customer.address[..|data.address|] == data.address
      && order.paymentMethod == "ONLINE"
  {
    LinesTotalIsCartTotal(items);
    AddressLineShape(data);
  }

  // ---------------------------------------------------------------------
  // The submit flow

  /** What the page does to the outside world. */
  datatype Effect =
    | Confirm(prompt: string)
    | CreateOrder(order: OrderData)
    | SendEmail(params: EmailParams)
    | Alert(text: string)
    | SaveAddress(address: DeliveryAddress)
    | ClearCart
    | Navigate(path: string, orderId: string)

  /** Where a submission ends. */
  datatype Stage =
    | EmptyCart
    | Rejected
    | Declined
    | Failed(message: string)
    | Placed(response: Option<OrderResponse>)

  /** The page's check reports nothing: every one of its four rules holds. */
  predicate PageAccepts(data: CheckoutFormData) {
    && |Trim(data.fullName)| >= 3
    && |DigitsOnly(data.phoneNumber)| == 10
    && !AllWhitespace(data.address)
    && !AllWhitespace(data.pincode)
  }

  /** `Object.keys(errors).length > 0` is false exactly when all four rules hold. */
  lemma PageAcceptsIff(data: CheckoutFormData)
    ensures ValidateFormData(data) == map[] <==> PageAccepts(data)
  {
    var r := ValidateFormData(data);
    if !PageAccepts(data) {
      assert FullName in r || PhoneNumber in r || Address in r || Pincode in r;
    }
    if PageAccepts(data) {
      forall f ensures f !in r {
        match f
        case _ =>
      }
      assert r.Keys == {};
    }
  }

  /** The guards in their order: the cart, the page's check, the dialog, then the order call. */
  function StageOf(items: seq<CartItem>, accepted: bool, confirmed: bool,
                   response: Result<Option<OrderResponse>>): Stage
  {
    if items == [] then EmptyCart
    else if !accepted then Rejected
    else if !confirmed then Declined
    else if response.Err? then Failed(response.message)
    else Placed(response.value)
  }

  /** The message shown when the order call throws an error with `message`. */
  function FailureMessage(message: string): (r: string)
    ensures r != ""
    ensures message != "" ==> r == message
  {
    if message != "" then message else OrderFailedMessage
  }

  /** What follows the order call: an alert if it threw, else e-mail, save, clear and navigation. */
  function OrderEffects(stage: Stage, data: CheckoutFormData, order: OrderData): seq<Effect>
    requires stage.Failed? || stage.Placed?
  {
    if stage.Failed? then [CreateOrder(order), Alert(OrderFailedAlert)]
    else
      var orderId := OrderIdOf(stage.response);
      [CreateOrder(order), SendEmail(EmailParams(data.fullName, orderId, order.totalAmount)),
       SaveAddress(FormToAddress(data)), ClearCart, Navigate(SuccessPath, orderId)]
  }

  /** The banner error a submission that ends at `stage` leaves. */
  function StageError(stage: Stage): Option<string> {
    match stage
    case EmptyCart => Some(EmptyCartMessage)
    case Rejected => Some(FixErrorsMessage)
    case Failed(message) => Some(FailureMessage(message))
    case _ => None
  }

  /**
   * A placed order e-mails the same order id it navigates with, never an
   * empty one, and e-mails the total the payload's lines add up to, which is
   * the cart total.
   */
  lemma PlacedOrderConsistent(data: CheckoutFormData, items: seq<CartItem>, response: Option<OrderResponse>)
    ensures var fx := OrderEffects(Placed(response), data, BuildOrder(data, items));
      && |fx| == 5 && fx[0].CreateOrder? && fx[1].SendEmail? && fx[4].Navigate?
      && fx[1].params.orderId == fx[4].orderId != ""
      && fx[1].params.totalAmount == TotalPrice(items) == LinesTotal(fx[0].order.items)
  {
    LinesTotalIsCartTotal(items);
  }

  class CheckoutPage {
    const cart: Cart
    const storage: LocalStorage
    var isSubmitting: bool
    var loading: bool
    var apiError: Option<string>
    var successMessage: Option<string>
    var validationErrors: map<Field, string>
    /** What the page has done so far, oldest first. */
    var effects: seq<Effect>

    constructor(cart: Cart, storage: LocalStorage)
      ensures this.cart == cart && this.storage == storage
      ensures !isSubmitting && !loading && apiError == None && successMessage == None
      ensures validationErrors == map[] && effects == []
    {
      this.cart := cart;
      this.storage := storage;
      isSubmitting := false;
      loading := false;
      apiError := None;
      successMessage := None;
      validationErrors := map[];
      effects := [];
    }

    /**
     * `handleFormSubmit`. `confirmed` is the answer to the confirmation
     * dialog, `response` the outcome of the order call (`Err` carries the
     * thrown error's message) and `emailDelivered` the outcome of the
     * e-mail call, which no part of the new state depends on.
     */
    method HandleFormSubmit(data: CheckoutFormData, confirmed: bool, response: Result<Option<OrderResponse>>,
                            emailDelivered: bool)
      modifies this, cart, storage
      ensures var stage := StageOf(old(cart.items), PageAccepts(data), confirmed, response);
        && (stage.EmptyCart? || stage.Rejected? ==> effects == old(effects))
        && (stage.Declined? ==> effects == old(effects) + [Confirm(ConfirmPrompt)])
        && (stage.Failed? || stage.Placed? ==>
              effects == old(effects) + [Confirm(ConfirmPrompt)] + OrderEffects(stage, data, BuildOrder(data, old(cart.items))))
        && apiError == StageError(stage)
        && successMessage == None
        && validationErrors == (if stage.Rejected? then ValidateFormData(data) else map[])
        && (stage.Failed? ==> !isSubmitting && !loading)
        && (stage.Placed? ==> isSubmitting && loading)
        && (stage.EmptyCart? || stage.Rejected? || stage.Declined? ==>
              isSubmitting == old(isSubmitting) && loading == old(loading))
      // Only a placed order touches the cart and the saved address.
      ensures var stage := StageOf(old(cart.items), PageAccepts(data), confirmed, response);
        && (!stage.Placed? ==> cart.items == old(cart.items) && storage.entries == old(storage.entries))
        && (stage.Placed? ==>
              && cart.items == []
              && storage.entries == (if old(storage.Writable())
                                     then old(storage.entries)[CheckoutDataKey := JsonText(AddressToJson(FormToAddress(data)))]
                                     else old(storage.entries)))
      ensures storage.available == old(storage.available) && storage.full == old(storage.full)
    {
      validationErrors := map[];
      apiError := None;
      successMessage := None;

      var items := cart.items;
      var stage := StageOf(items, PageAccepts(data), confirmed, response);
      match stage {
        case EmptyCart =>
          apiError := Some(EmptyCartMessage);
        case Rejected =>
          validationErrors := ValidateFormData(data);
          apiError := Some(FixErrorsMessage);
        case Declined =>
          effects := effects + [Confirm(ConfirmPrompt)];
        case _ =>
          effects := effects + [Confirm(ConfirmPrompt)];
          PlaceOrder(data, items, stage);
      }
    }

    /** From the order call on, once the guards have passed and the dialog was confirmed. */
    method PlaceOrder(data: CheckoutFormData, items: seq<CartItem>, stage: Stage)
      requires stage.Failed? || stage.Placed?
      modifies this, cart, storage
      ensures effects == old(effects) + OrderEffects(stage, data, BuildOrder(data, items))
      ensures stage.Failed? ==>
        && apiError == Some(FailureMessage(stage.message)) && !isSubmitting && !loading
        && cart.items == old(cart.items) && storage.entries == old(storage.entries)
      ensures stage.Placed? ==>
        && apiError == old(apiError) && isSubmitting && loading
        && cart.items == []
        && storage.entries == (if old(storage.Writable())
                               then old(storage.entries)[CheckoutDataKey := JsonText(AddressToJson(FormToAddress(data)))]
                               else old(storage.entries))
      ensures storage.available == old(storage.available) && storage.full == old(storage.full)
      ensures successMessage == old(successMessage) && validationErrors == old(validationErrors)
    {
      isSubmitting := true;
      loading := true;
      var order := BuildOrder(data, items);
      effects := effects + [CreateOrder(order)];
      if stage.Failed? {
        effects := effects + [Alert(OrderFailedAlert)];
        apiError := Some(FailureMessage(stage.message));
        isSubmitting := false;
        loading := false;
        return;
      }
      FinishOrder(data, order, OrderIdOf(stage.response));
    }

    /** After the order call returns: e-mail, save the address, clear the cart, navigate. */
    method FinishOrder(data: CheckoutFormData, order: OrderData, orderId: string)
      modifies this, cart, storage
      ensures effects == old(effects) + [SendEmail(EmailParams(data.fullName, orderId, order.totalAmount)),
                                         SaveAddress(FormToAddress(data)), ClearCart, Navigate(SuccessPath, orderId)]
      ensures cart.items == [] && storage.available == old(storage.available) && storage.full == old(storage.full)
      ensures storage.entries == if old(storage.Writable())
                                 then old(storage.entries)[CheckoutDataKey := JsonText(AddressToJson(FormToAddress(data)))]
                                 else old(storage.entries)
      ensures isSubmitting == old(isSubmitting) && loading == old(loading) && apiError == old(apiError)
      ensures successMessage == old(successMessage) && validationErrors == old(validationErrors)
    {
      // The e-mail outcome is caught and dropped either way.
      effects := effects + [SendEmail(EmailParams(data.fullName, orderId, order.totalAmount))];
      var _ := SaveCheckoutData(storage, data);
      effects := effects + [SaveAddress(FormToAddress(data))];
      cart.ClearCart();
      effects := effects + [ClearCart];
      effects := effects + [Navigate(SuccessPath, orderId)];
    }
  }
}
