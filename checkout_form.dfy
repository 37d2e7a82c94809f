/**
 * The checkout form's state and its three handlers. The JSX is left out;
 * `onFocus` setters that the markup wires to each input appear as
 * `HandleFocus`, and the parent's `onSubmit` callback is recorded in
 * `submitted`.
 */
module CheckoutForm {
  import opened Outcomes
  import opened CheckoutTypes
  import opened Validation
  import opened CheckoutStorage

  /** The error `handleBlur` computes for one field from its current value. */
  function BlurError(f: Field, value: string): Option<string> {
    match f
    case FullName => ValidateFullName(value)
    case Email => ValidateEmail(value)
    case PhoneNumber => ValidatePhone(value)
    case Address => ValidateAddress(value)
    case Pincode => ValidatePincode(value)
    case Landmark => LandmarkError(value)
    case DeliveryInstructions => None
  }

  /** Blurring a field gives the same verdict the aggregate validator gives that field. */
  lemma BlurMatchesAggregate(data: CheckoutFormData, f: Field)
    ensures BlurError(f, FieldValue(data, f)) == ErrorOf(ValidateCheckoutForm(data), f)
  {
  }

  /** What the form starts with: the saved address when one reads back, else empty fields. */
  function StartingData(saved: Option<DeliveryAddress>): CheckoutFormData {
    if saved.Some? then DeliveryAddressToFormData(saved.value) else InitialFormData
  }

  class CheckoutForm {
    var formData: CheckoutFormData
    var errors: ValidationErrors
    var hasAttemptedSubmit: bool
    var focusedField: Option<Field>
    /** The records handed to `onSubmit`, oldest first. */
    var submitted: seq<CheckoutFormData>

    /** Until the first submit attempt the error record keeps its initial value. */
    predicate Valid()
      reads this
    {
      !hasAttemptedSubmit ==> errors == InitialErrors
    }

    /** The initial state, then the mount effect that loads a saved address. */
    constructor(store: LocalStorage)
      ensures formData == StartingData(ReadCheckoutData(store.available, store.entries))
      ensures errors == InitialErrors && !hasAttemptedSubmit && focusedField == None && submitted == []
      ensures Valid()
    {
      var saved := GetCheckoutData(store);
      formData := StartingData(saved);
      errors := InitialErrors;
      hasAttemptedSubmit := false;
      focusedField := None;
      submitted := [];
    }

    method HandleFocus(f: Field)
      modifies this
      ensures focusedField == Some(f)
      ensures formData == old(formData) && errors == old(errors)
      ensures hasAttemptedSubmit == old(hasAttemptedSubmit) && submitted == old(submitted)
    {
      focusedField := Some(f);
    }

    /** `handleBlur`: before the first submit attempt only the focus changes. */
    method HandleBlur(f: Field)
      requires Valid()
      modifies this
      ensures Valid()
      ensures focusedField == None
      ensures formData == old(formData) && hasAttemptedSubmit == old(hasAttemptedSubmit) && submitted == old(submitted)
      ensures !old(hasAttemptedSubmit) ==> errors == old(errors)
      ensures old(hasAttemptedSubmit) ==> errors == old(errors)[f := BlurError(f, FieldValue(formData, f))]
      ensures old(hasAttemptedSubmit) ==> ErrorOf(errors, f) == ErrorOf(ValidateCheckoutForm(formData), f)
    {
      focusedField := None;
      if !hasAttemptedSubmit {
        return;
      }
      var error := BlurError(f, FieldValue(formData, f));
      errors := errors[f := error];
      BlurMatchesAggregate(formData, f);
    }

    /** `handleChange`: the typed text is sanitised; after an attempt, that field's error is cleared. */
    method HandleChange(f: Field, value: string)
      requires Valid()
      modifies this
      ensures Valid()
      ensures formData == WithField(old(formData), f, SanitizeInput(value))
      ensures forall i :: 0 <= i < |FieldValue(formData, f)| ==>
        FieldValue(formData, f)[i] != '<' && FieldValue(formData, f)[i] != '>'
      ensures errors == if old(hasAttemptedSubmit) && Truthy(ErrorOf(old(errors), f)) then old(errors)[f := None] else old(errors)
      ensures hasAttemptedSubmit == old(hasAttemptedSubmit) && focusedField == old(focusedField) && submitted == old(submitted)
    {
      var sanitized := SanitizeInput(value);
      formData := WithField(formData, f, sanitized);
      if hasAttemptedSubmit && Truthy(ErrorOf(errors, f)) {
        errors := errors[f := None];
      }
    }

    /** `handleSubmit`: record the attempt, show every field's verdict, and submit only a form with no error. */
    method HandleSubmit()
      requires Valid()
      modifies this
      ensures Valid()
      ensures formData == old(formData) && focusedField == old(focusedField)
      ensures hasAttemptedSubmit && errors == ValidateCheckoutForm(old(formData))
      ensures submitted == old(submitted) + (if HasValidationErrors(errors) then [] else [formData])
    {
      var data := formData;
      var validationErrors := ValidateCheckoutForm(data);
      hasAttemptedSubmit := true;
      errors := validationErrors;
      if !HasValidationErrors(validationErrors) {
        submitted := submitted + [data];
      }
    }
  }
}
