/**
 * The records the checkout works on: the seven-field form, the delivery
 * address it is saved as, and the per-field error record.
 */
module CheckoutTypes {
  import opened Outcomes

  /** The seven keys of the checkout form. */
  datatype Field = FullName | Email | PhoneNumber | Address | Landmark | Pincode | DeliveryInstructions

  const Fields: seq<Field> := [FullName, Email, PhoneNumber, Address, Landmark, Pincode, DeliveryInstructions]

  datatype CheckoutFormData = CheckoutFormData(
    fullName: string,
    email: string,
    phoneNumber: string,
    address: string,
    landmark: string,
    pincode: string,
    deliveryInstructions: string)

  datatype DeliveryAddress = DeliveryAddress(
    fullName: string,
    email: string,
    phoneNumber: string,
    address: string,
    landmark: string,
    pincode: string,
    deliveryInstructions: string)

  /** `data[field]` */
  function FieldValue(data: CheckoutFormData, f: Field): string {
    match f
    case FullName => data.fullName
    case Email => data.email
    case PhoneNumber => data.phoneNumber
    case Address => data.address
    case Landmark => data.landmark
    case Pincode => data.pincode
    case DeliveryInstructions => data.deliveryInstructions
  }

  /** `{ ...data, [field]: value }` */
  function WithField(data: CheckoutFormData, f: Field, value: string): (r: CheckoutFormData)
    ensures FieldValue(r, f) == value
    ensures forall g :: g != f ==> FieldValue(r, g) == FieldValue(data, g)
  {
    match f
    case FullName => data.(fullName := value)
    case Email => data.(email := value)
    case PhoneNumber => data.(phoneNumber := value)
    case Address => data.(address := value)
    case Landmark => data.(landmark := value)
    case Pincode => data.(pincode := value)
    case DeliveryInstructions => data.(deliveryInstructions := value)
  }

  /** A form record is fixed by its seven field values. */
  lemma FormExtensionality(a: CheckoutFormData, b: CheckoutFormData)
    requires forall f :: FieldValue(a, f) == FieldValue(b, f)
    ensures a == b
  {
    assert FieldValue(a, FullName) == FieldValue(b, FullName);
    assert FieldValue(a, Email) == FieldValue(b, Email);
    assert FieldValue(a, PhoneNumber) == FieldValue(b, PhoneNumber);
    assert FieldValue(a, Address) == FieldValue(b, Address);
    assert FieldValue(a, Landmark) == FieldValue(b, Landmark);
    assert FieldValue(a, Pincode) == FieldValue(b, Pincode);
    assert FieldValue(a, DeliveryInstructions) == FieldValue(b, DeliveryInstructions);
  }

  /** `INITIAL_CHECKOUT_FORM_DATA`: every field empty. */
  const InitialFormData := CheckoutFormData("", "", "", "", "", "", "")

  /**
   * A `ValidationErrors` record. A key that is absent and a key that holds
   * `undefined` (here `None`) both read as "no error"; the two differ only in
   * which keys the record lists.
   */
  type ValidationErrors = map<Field, Option<string>>

  /** `INITIAL_VALIDATION_ERRORS`: all seven keys present, each `undefined`. */
  const InitialErrors: ValidationErrors := map f | f in Fields :: None

  /** `errors[field]` */
  function ErrorOf(errors: ValidationErrors, f: Field): Option<string> {
    if f in errors then errors[f] else None
  }

  /** `Fields` lists every key. */
  lemma FieldsComplete()
    ensures forall f :: f in Fields
  {
    forall f ensures f in Fields {
      match f
      case FullName => assert Fields[0] == f;
      case Email => assert Fields[1] == f;
      case PhoneNumber => assert Fields[2] == f;
      case Address => assert Fields[3] == f;
      case Landmark => assert Fields[4] == f;
      case Pincode => assert Fields[5] == f;
      case DeliveryInstructions => assert Fields[6] == f;
    }
  }

  lemma InitialStates()
    ensures forall f :: FieldValue(InitialFormData, f) == ""
    ensures forall f :: f in InitialErrors && ErrorOf(InitialErrors, f) == None
  {
    FieldsComplete();
  }
}
