/**
 * The phone sign-in service: the ordered phone-number check, the input
 * guards of sending and verifying a one-time code, and the single
 * reCAPTCHA verifier slot the service keeps between calls.
 *
 * The identity provider is not modelled: what its sign-in and confirm
 * calls return is a parameter. A verifier is identified by a serial
 * number, so that "the old verifier was cleared" can be stated.
 */
module OtpService {
  import opened Outcomes
  import opened Ascii

  const RequiredMessage := "Phone number is required"
  const CountryCodeMessage := "Phone number must include country code (e.g., +91 for India)"
  const TooShortMessage := "Phone number must be at least 10 digits"
  const OtpLengthMessage := "Please enter a valid 6-digit OTP"
  const NoConfirmationMessage := "Please request OTP first"
  const DefaultContainer := "recaptcha-container"
  const MinPhoneDigits := 10
  const OtpLength := 6

  /** The result of `validatePhoneNumber`. */
  datatype PhoneCheck = PhoneCheck(valid: bool, error: Option<string>)

  /**
   * `validatePhoneNumber`: required, then a leading `+` on the text as
   * typed, then at least ten digits; the first failing check decides the
   * message, and there is no upper bound.
   */
  function ValidatePhoneNumber(phone: string): (r: PhoneCheck)
    ensures r.valid <==> r.error.None?
    ensures r.valid <==> |phone| > 0 && phone[0] == '+' && |DigitsOnly(phone)| >= MinPhoneDigits
    ensures AllWhitespace(phone) ==> r.error == Some(RequiredMessage)
    ensures !AllWhitespace(phone) && phone[0] != '+' ==> r.error == Some(CountryCodeMessage)
    ensures !AllWhitespace(phone) && phone[0] == '+' && |DigitsOnly(phone)| < MinPhoneDigits ==>
      r.error == Some(TooShortMessage)
  {
    if phone == [] || |Trim(phone)| == 0 then PhoneCheck(false, Some(RequiredMessage))
    else if phone[0] != '+' then PhoneCheck(false, Some(CountryCodeMessage))
    else if |DigitsOnly(phone)| < MinPhoneDigits then PhoneCheck(false, Some(TooShortMessage))
    else PhoneCheck(true, None)
  }

  /** A `+` followed by any number of digits, ten or more, is accepted: no upper bound. */
  lemma PlusAndDigitsAccepted(digits: string)
    requires forall i :: 0 <= i < |digits| ==> IsDigit(digits[i])
    requires |digits| >= MinPhoneDigits
    ensures ValidatePhoneNumber("+" + digits) == PhoneCheck(true, None)
  {
    var plus := "+";
    DigitsOnlyConcat(plus, digits);
    DigitsOnlyOfDigits(digits);
    assert DigitsOnly(plus) == [];
    assert ("+" + digits)[0] == '+';
  }

  /**
   * The `+` check looks at the text as typed, not the trimmed text: a
   * leading blank fails it even when a well-formed number follows.
   */
  lemma LeadingBlankFailsCountryCode(rest: string)
    requires !AllWhitespace(rest)
    ensures ValidatePhoneNumber(" " + rest) == PhoneCheck(false, Some(CountryCodeMessage))
  {
    var s := " " + rest;
    var k :| 0 <= k < |rest| && !IsWhitespace(rest[k]);
    assert s[k + 1] == rest[k];
    assert s[0] == ' ';
  }

  /** A reCAPTCHA verifier, numbered in order of creation. */
  datatype Verifier = Verifier(serial: nat, containerId: string)

  /** What the provider hands back after a code was sent. */
  datatype Confirmation = Confirmation(verificationId: string)

  datatype User = User(uid: string)

  /** An error the provider reports. */
  datatype AuthError = AuthError(code: string, message: string)

  /** The outcome of the provider's sign-in call. */
  datatype SignIn = CodeSent(confirmation: Confirmation) | SignInFailed(error: AuthError)

  /** The outcome of the provider's confirm call. */
  datatype Confirm = Confirmed(user: User) | ConfirmFailed(error: AuthError)

  /** The messages `sendOtp` gives for the provider errors it recognises. */
  const SendErrorMessages: map<string, string> := map[
    "auth/invalid-phone-number" := "Invalid phone number format. Please use international format (e.g., +919876543210)",
    "auth/too-many-requests" := "Too many requests. Please try again later.",
    "auth/quota-exceeded" := "SMS quota exceeded. Please contact support.",
    "auth/captcha-check-failed" := "reCAPTCHA verification failed. Please refresh and try again.",
    "auth/missing-phone-number" := "Phone number is required.",
    "auth/api-key-not-valid" := "Firebase API key is invalid. Please check your Firebase configuration."]

  /** The messages `verifyOtp` gives for the provider errors it recognises. */
  const VerifyErrorMessages: map<string, string> := map[
    "auth/invalid-verification-code" := "Invalid OTP code. Please check and try again.",
    "auth/code-expired" := "OTP has expired. Please request a new one.",
    "auth/session-expired" := "Session expired. Please start over."]

  /**
   * The message thrown for a provider error: the recognised codes have their
   * own text, any other error passes its own message on, and a fallback
   * covers an error with no message.
   */
  function ErrorMessage(messages: map<string, string>, fallback: string, e: AuthError): (r: string)
    requires fallback != "" && forall c :: c in messages ==> messages[c] != ""
    ensures r != ""
    ensures e.code in messages ==> r == messages[e.code]
    ensures e.code !in messages && e.message != "" ==> r == e.message
    ensures e.code !in messages && e.message == "" ==> r == fallback
  {
    if e.code in messages then messages[e.code]
    else if e.message != "" then e.message
    else fallback
  }

  /** The message `sendOtp` throws for a provider error. */
  function SendErrorMessage(e: AuthError): (r: string)
    ensures r != ""
    ensures e.code in SendErrorMessages ==> r == SendErrorMessages[e.code]
    ensures e.code == "auth/too-many-requests" ==> r == "Too many requests. Please try again later."
    ensures e.code !in SendErrorMessages && e.message != "" ==> r == e.message
    ensures e.code !in SendErrorMessages && e.message == "" ==> r == "Failed to send OTP. Please try again."
  {
    ErrorMessage(SendErrorMessages, "Failed to send OTP. Please try again.", e)
  }

  /** The message `verifyOtp` throws for a provider error. */
  function VerifyErrorMessage(e: AuthError): (r: string)
    ensures r != ""
    ensures e.code in VerifyErrorMessages ==> r == VerifyErrorMessages[e.code]
    ensures e.code == "auth/code-expired" ==> r == "OTP has expired. Please request a new one."
    ensures e.code !in VerifyErrorMessages && e.message != "" ==> r == e.message
    ensures e.code !in VerifyErrorMessages && e.message == "" ==> r == "Failed to verify OTP. Please try again."
  {
    ErrorMessage(VerifyErrorMessages, "Failed to verify OTP. Please try again.", e)
  }

  /**
   * `verifyOtp`: a code that is not exactly six characters long is refused,
   * then a missing confirmation, and only then is the provider asked. Only
   * the length is checked, not that the characters are digits.
   */
  function VerifyOtp(confirmation: Option<Confirmation>, otp: string, outcome: Confirm): (r: Result<User>)
    ensures |otp| != OtpLength ==> r == Err(OtpLengthMessage)
    ensures |otp| == OtpLength && confirmation.None? ==> r == Err(NoConfirmationMessage)
    ensures r.Ok? <==> |otp| == OtpLength && confirmation.Some? && outcome.Confirmed?
    ensures r.Ok? ==> r.value == outcome.user
    ensures |otp| == OtpLength && confirmation.Some? && outcome.ConfirmFailed? ==> r == Err(VerifyErrorMessage(outcome.error))
    ensures r.Err? ==> r.message != ""
  {
    if otp == [] || |otp| != OtpLength then Err(OtpLengthMessage)
    else if confirmation.None? then Err(NoConfirmationMessage)
    else match outcome
      case Confirmed(user) => Ok(user)
      case ConfirmFailed(e) => Err(VerifyErrorMessage(e))
  }

  /**
   * The service's module state: the verifier slot, how many verifiers were
   * created, and the serials of those cleared, in order.
   */
  class OtpSession {
    var recaptchaVerifier: Option<Verifier>
    var created: nat
    var cleared: seq<nat>

    /**
     * No verifier leaks: every verifier created so far is either the one in
     * the slot, which is the newest and not cleared, or has been cleared,
     * and none was cleared twice.
     */
    predicate Valid()
      reads this
    {
      && (recaptchaVerifier.Some? ==> recaptchaVerifier.value.serial == created - 1 && created > 0)
      && (forall s :: 0 <= s < created ==> s in cleared || (recaptchaVerifier.Some? && recaptchaVerifier.value.serial == s))
      && (forall i :: 0 <= i < |cleared| ==> cleared[i] < created)
      && (recaptchaVerifier.Some? ==> recaptchaVerifier.value.serial !in cleared)
      && (forall i, j :: 0 <= i < j < |cleared| ==> cleared[i] != cleared[j])
    }

    constructor()
      ensures recaptchaVerifier == None && created == 0 && cleared == []
      ensures Valid()
    {
      recaptchaVerifier := None;
      created := 0;
      cleared := [];
    }

    /** `initializeRecaptcha`: clear the verifier in the slot, if any, and put a new one there. */
    method InitializeRecaptcha(containerId: string) returns (v: Verifier)
      requires Valid()
      modifies this
      ensures Valid()
      ensures v == Verifier(old(created), containerId) && recaptchaVerifier == Some(v)
      ensures created == old(created) + 1
      ensures cleared == old(cleared) + (if old(recaptchaVerifier).Some? then [old(recaptchaVerifier).value.serial] else [])
    {
      if recaptchaVerifier.Some? {
        cleared := cleared + [recaptchaVerifier.value.serial];
      }
      v := Verifier(created, containerId);
      created := created + 1;
      recaptchaVerifier := Some(v);
    }

    /** `clearRecaptcha`: clear and empty the slot; with an empty slot, nothing happens. */
    method ClearRecaptcha()
      requires Valid()
      modifies this
      ensures Valid()
      ensures recaptchaVerifier == None && created == old(created)
      ensures cleared == old(cleared) + (if old(recaptchaVerifier).Some? then [old(recaptchaVerifier).value.serial] else [])
      ensures old(recaptchaVerifier).None? ==> cleared == old(cleared)
    {
      if recaptchaVerifier.Some? {
        cleared := cleared + [recaptchaVerifier.value.serial];
        recaptchaVerifier := None;
      }
    }

    /**
     * `sendOtp`: an invalid number is refused before any verifier is made;
     * otherwise a fresh verifier is installed and the provider asked, and
     * on failure the slot is cleared and the provider's error turned into
     * a message.
     */
    method SendOtp(phone: string, signIn: SignIn) returns (r: Result<Confirmation>)
      requires Valid()
      modifies this
      ensures Valid()
      ensures !ValidatePhoneNumber(phone).valid ==>
        && r == Err(ValidatePhoneNumber(phone).error.value)
        && recaptchaVerifier == old(recaptchaVerifier) && created == old(created) && cleared == old(cleared)
      ensures ValidatePhoneNumber(phone).valid ==> created == old(created) + 1
      ensures ValidatePhoneNumber(phone).valid && signIn.CodeSent? ==>
        && r == Ok(signIn.confirmation)
        && recaptchaVerifier == Some(Verifier(old(created), DefaultContainer))
      ensures ValidatePhoneNumber(phone).valid && signIn.SignInFailed? ==>
        && r == Err(SendErrorMessage(signIn.error))
        && recaptchaVerifier == None
        && old(created) in cleared
    {
      var validation := ValidatePhoneNumber(phone);
      if !validation.valid {
        return Err(validation.error.value);
      }
      var appVerifier := InitializeRecaptcha(DefaultContainer);
      match signIn {
        case CodeSent(confirmation) =>
          r := Ok(confirmation);
        case SignInFailed(e) =>
          ClearRecaptcha();
          r := Err(SendErrorMessage(e));
      }
    }
  }
}
