/**
 * The checkout field validators, the input sanitiser, the aggregate form
 * validator and the two display formatters. A validator returns `None` for
 * `undefined` (the value is accepted) or `Some(message)`.
 *
 * Regular-expression character classes are read over ASCII: `\s` is
 * `Ascii.IsWhitespace`, `\d` is `Ascii.IsDigit`, `\w` is `Ascii.IsWordChar`.
 */
module Validation {
  import opened Outcomes
  import opened Ascii
  import opened CheckoutTypes

  /** `validateRequired(value, fieldName)` */
  function ValidateRequired(value: string, fieldName: string): (r: Option<string>)
    ensures r.Some? <==> AllWhitespace(value)
    ensures r.Some? ==> r.value == fieldName + " is required"
  {
    if Trim(value) == [] then Some(fieldName + " is required") else None
  }

  // ---------------------------------------------------------------------
  // Phone number and pincode

  /** A ten-digit Indian mobile number: it starts with 6, 7, 8 or 9. */
  predicate IsMobileNumber(digits: string) {
    |digits| == 10 && '6' <= digits[0] <= '9'
  }

  /** `validatePhone`: the verdict depends only on whether the text is blank and on its digits. */
  function ValidatePhone(phone: string): (r: Option<string>)
    ensures AllWhitespace(phone) ==> r == Some("Phone number is required")
    ensures !AllWhitespace(phone) && |DigitsOnly(phone)| != 10 ==> r == Some("Phone number must be exactly 10 digits")
    ensures !AllWhitespace(phone) && |DigitsOnly(phone)| == 10 ==>
      r == if IsMobileNumber(DigitsOnly(phone)) then None else Some("Phone number must start with 6, 7, 8, or 9")
  {
    DigitsOnlyTrim(phone);
    var trimmed := Trim(phone);
    if trimmed == [] then Some("Phone number is required")
    else
      var digits := DigitsOnly(trimmed);
      if |digits| != 10 then Some("Phone number must be exactly 10 digits")
      else if !('6' <= digits[0] <= '9') then Some("Phone number must start with 6, 7, 8, or 9")
      else None
  }

  /** A phone number is accepted exactly when its digits form a mobile number, whatever else it holds. */
  lemma PhoneAccepted(phone: string)
    ensures ValidatePhone(phone).None? <==> IsMobileNumber(DigitsOnly(phone))
  {
    if AllWhitespace(phone) {
      NoDigitsInWhitespace(phone);
    }
  }

  lemma PhoneExampleAccepted()
    ensures ValidatePhone("9876543210") == None
  {
    PhoneDigitsVerdict("9876543210");
  }

  /** A phone number made only of digits is judged on those digits alone. */
  lemma PhoneDigitsVerdict(digits: string)
    requires |digits| > 0 && forall i :: 0 <= i < |digits| ==> IsDigit(digits[i])
    ensures ValidatePhone(digits) ==
      if |digits| != 10 then Some("Phone number must be exactly 10 digits")
      else if IsMobileNumber(digits) then None
      else Some("Phone number must start with 6, 7, 8, or 9")
  {
    DigitsOnlyOfDigits(digits);
    assert !IsWhitespace(digits[0]);
  }

  /** Ten digits that do not start with 6 to 9 are refused. */
  lemma PhoneExampleWrongStart()
    ensures ValidatePhone("1234567890") == Some("Phone number must start with 6, 7, 8, or 9")
  {
    PhoneDigitsVerdict("1234567890");
  }

  lemma PhoneExampleTooShort()
    ensures ValidatePhone("12345") == Some("Phone number must be exactly 10 digits")
  {
    PhoneDigitsVerdict("12345");
  }

  /** `validatePincode` */
  function ValidatePincode(pincode: string): (r: Option<string>)
    ensures AllWhitespace(pincode) ==> r == Some("Pincode is required")
    ensures !AllWhitespace(pincode) ==> r == if |DigitsOnly(pincode)| == 6 then None else Some("Pincode must be exactly 6 digits")
  {
    DigitsOnlyTrim(pincode);
    var trimmed := Trim(pincode);
    if trimmed == [] then Some("Pincode is required")
    else
      var digits := DigitsOnly(trimmed);
      if |digits| != 6 then Some("Pincode must be exactly 6 digits") else None
  }

  /** A pincode is accepted exactly when it holds six digits. */
  lemma PincodeAccepted(pincode: string)
    ensures ValidatePincode(pincode).None? <==> |DigitsOnly(pincode)| == 6
  {
    if AllWhitespace(pincode) {
      NoDigitsInWhitespace(pincode);
    }
  }

  // ---------------------------------------------------------------------
  // Name and address

  /** The characters `[a-zA-Z\s]` matches. */
  predicate LetterOrSpace(c: char) { IsLetter(c) || IsWhitespace(c) }

  predicate LettersAndSpaces(s: string) { forall i :: 0 <= i < |s| ==> LetterOrSpace(s[i]) }

  /** `validateFullName` */
  function ValidateFullName(name: string): (r: Option<string>)
    ensures r == Some("Full name is required") <==> AllWhitespace(name)
    ensures !AllWhitespace(name) && |Trim(name)| < 2 ==> r == Some("Full name must be at least 2 characters")
    ensures |Trim(name)| >= 2 && !LettersAndSpaces(Trim(name)) ==> r == Some("Full name can only contain letters and spaces")
    ensures r.None? <==>
      LettersAndSpaces(name) && exists i, j :: 0 <= i < j < |name| && IsLetter(name[i]) && IsLetter(name[j])
  {
    TrimmedLetters(name);
    var trimmed := Trim(name);
    if trimmed == [] then Some("Full name is required")
    else if |trimmed| < 2 then Some("Full name must be at least 2 characters")
    else if !LettersAndSpaces(trimmed) then Some("Full name can only contain letters and spaces")
    else None
  }

  /**
   * The trimmed text is two or more letters and spaces exactly when the whole
   * text is letters and spaces with at least two letters in it.
   */
  lemma TrimmedLetters(s: string)
    ensures |Trim(s)| >= 2 && LettersAndSpaces(Trim(s)) <==>
      LettersAndSpaces(s) && exists i, j :: 0 <= i < j < |s| && IsLetter(s[i]) && IsLetter(s[j])
  {
    var lo, hi := TrimBounds(s);
    var t := Trim(s);
    if |t| >= 2 && LettersAndSpaces(t) {
      forall k | 0 <= k < |s| ensures LetterOrSpace(s[k]) {
        if lo <= k < hi { assert s[k] == t[k - lo]; }
      }
      assert t[0] == s[lo] && t[|t| - 1] == s[hi - 1];
      assert LetterOrSpace(t[0]) && LetterOrSpace(t[|t| - 1]);
    }
    if LettersAndSpaces(s) && exists i, j :: 0 <= i < j < |s| && IsLetter(s[i]) && IsLetter(s[j]) {
      var i, j :| 0 <= i < j < |s| && IsLetter(s[i]) && IsLetter(s[j]);
      assert lo <= i && j < hi;
      forall k | 0 <= k < |t| ensures LetterOrSpace(t[k]) {
        assert t[k] == s[lo + k];
      }
    }
  }

  /** `validateAddress` */
  function ValidateAddress(address: string): (r: Option<string>)
    ensures r == Some("Address is required") <==> AllWhitespace(address)
    ensures !AllWhitespace(address) && |Trim(address)| < 10 ==> r == Some("Address must be at least 10 characters")
    ensures r.None? <==>
      exists i, j :: 0 <= i && i + 9 <= j < |address| && !IsWhitespace(address[i]) && !IsWhitespace(address[j])
  {
    TrimSpan(address, 10);
    var trimmed := Trim(address);
    if trimmed == [] then Some("Address is required")
    else if |trimmed| < 10 then Some("Address must be at least 10 characters")
    else None
  }

  /** The landmark rule of `validateCheckoutForm`, repeated in the form's blur handler. */
  function LandmarkError(landmark: string): (r: Option<string>)
    ensures r.Some? <==> |Trim(landmark)| == 1
    ensures r.Some? ==> r.value == "Landmark must be at least 2 characters"
  {
    var trimmed := Trim(landmark);
    if trimmed != [] && |trimmed| < 2 then Some("Landmark must be at least 2 characters") else None
  }

  // ---------------------------------------------------------------------
  // E-mail address

  /** The characters `[^\s@]` matches. */
  predicate EmailChar(c: char) { !IsWhitespace(c) && c != '@' }

  /** `[^\s@]+` */
  predicate EmailPart(s: string) { s != [] && forall i :: 0 <= i < |s| ==> EmailChar(s[i]) }

  /** `^[^\s@]+@[^\s@]+\.[^\s@]+$` matches `s`, with its `@` at `at` and its `.` at `dot`. */
  ghost predicate EmailMatchAt(s: string, at: int, dot: int) {
    0 < at < dot < |s| && s[at] == '@' && s[dot] == '.'
    && EmailPart(s[..at]) && EmailPart(s[at + 1..dot]) && EmailPart(s[dot + 1..])
  }

  /** The regular expression matches `s` at some pair of split points. */
  ghost predicate MatchesEmailPattern(s: string) {
    exists at, dot :: EmailMatchAt(s, at, dot)
  }

  /** The position of the first `@` in `s`, or `|s|`. */
  function IndexOfAt(s: string): (i: nat)
    ensures i <= |s|
    ensures i < |s| ==> s[i] == '@'
    ensures forall k :: 0 <= k < i ==> s[k] != '@'
  {
    if s == [] || s[0] == '@' then 0 else 1 + IndexOfAt(s[1..])
  }

  /**
   * The shape the pattern demands: no whitespace, exactly one `@`, something
   * before it, and a `.` in the domain that is neither its first nor its last
   * character.
   */
  predicate EmailShape(s: string) {
    var at := IndexOfAt(s);
    0 < at < |s| && NoWhitespace(s)
    && (forall k :: at < k < |s| ==> s[k] != '@')
    && (exists dot :: at + 1 < dot < |s| - 1 && s[dot] == '.')
  }

  lemma EmailShapeIsPattern(s: string)
    ensures EmailShape(s) <==> MatchesEmailPattern(s)
  {
    if EmailShape(s) {
      var at := IndexOfAt(s);
      var dot :| at + 1 < dot < |s| - 1 && s[dot] == '.';
      var local, host, top := s[..at], s[at + 1..dot], s[dot + 1..];
      forall i | 0 <= i < |local| ensures EmailChar(local[i]) { assert local[i] == s[i]; }
      forall i | 0 <= i < |host| ensures EmailChar(host[i]) { assert host[i] == s[at + 1 + i]; }
      forall i | 0 <= i < |top| ensures EmailChar(top[i]) { assert top[i] == s[dot + 1 + i]; }
      assert EmailMatchAt(s, at, dot);
    }
    if MatchesEmailPattern(s) {
      var at, dot :| EmailMatchAt(s, at, dot);
      forall k | 0 <= k < |s| ensures !IsWhitespace(s[k]) && (k != at ==> s[k] != '@') {
        if k < at { assert s[..at][k] == s[k]; }
        else if at < k < dot { assert s[at + 1..dot][k - at - 1] == s[k]; }
        else if dot < k { assert s[dot + 1..][k - dot - 1] == s[k]; }
      }
      assert IndexOfAt(s) == at;
    }
  }

  /** `validateEmail` */
  function ValidateEmail(email: string): (r: Option<string>)
    ensures r == Some("Email is required") <==> AllWhitespace(email)
    ensures r.Some? && !AllWhitespace(email) ==> r == Some("Please enter a valid email address")
    ensures r.None? <==> MatchesEmailPattern(Trim(email))
  {
    EmailShapeIsPattern(Trim(email));
    var trimmed := Trim(email);
    if trimmed == [] then Some("Email is required")
    else if !EmailShape(trimmed) then Some("Please enter a valid email address")
    else None
  }

  // ---------------------------------------------------------------------
  // sanitizeInput

  /** `replace(/[<>]/g, '')` */
  function StripAngles(s: string): (r: string)
    ensures |r| <= |s|
    ensures forall i :: 0 <= i < |r| ==> r[i] != '<' && r[i] != '>' && r[i] in s
  {
    if s == [] then []
    else (if s[0] == '<' || s[0] == '>' then [] else [s[0]]) + StripAngles(s[1..])
  }

  const JavascriptScheme := "javascript:"

  /** `replace(/javascript:/gi, '')`: matches are removed left to right without overlapping. */
  function StripJavascript(s: string): (r: string)
    ensures |r| <= |s|
    ensures forall i :: 0 <= i < |r| ==> r[i] in s
    decreases |s|
  {
    if s == [] then []
    else if |s| >= |JavascriptScheme| && ToLower(s[..|JavascriptScheme|]) == JavascriptScheme then
      StripJavascript(s[|JavascriptScheme|..])
    else [s[0]] + StripJavascript(s[1..])
  }

  /** The length of the run of `\w` characters `s` starts with. */
  function WordRun(s: string): (n: nat)
    ensures n <= |s|
    ensures forall i :: 0 <= i < n ==> IsWordChar(s[i])
    ensures n < |s| ==> !IsWordChar(s[n])
  {
    if s == [] || !IsWordChar(s[0]) then 0 else 1 + WordRun(s[1..])
  }

  /** The text `on\w+=` matches, case-insensitively. */
  predicate IsHandlerText(m: string) {
    |m| >= 4 && LowerChar(m[0]) == 'o' && LowerChar(m[1]) == 'n' && m[|m| - 1] == '='
    && forall i :: 2 <= i < |m| - 1 ==> IsWordChar(m[i])
  }

  /** The length of the `on\w+=` match at the start of `s`, or 0 when there is none. */
  function HandlerMatch(s: string): (n: nat)
    ensures n <= |s|
  {
    if |s| >= 2 && LowerChar(s[0]) == 'o' && LowerChar(s[1]) == 'n' then
      var w := WordRun(s[2..]);
      if w >= 1 && 2 + w < |s| && s[2 + w] == '=' then 3 + w else 0
    else 0
  }

  /**
   * `HandlerMatch` finds the one prefix the pattern matches: no prefix
   * matches when it returns 0, and otherwise exactly the prefix of that
   * length matches.
   */
  lemma HandlerMatchIsPattern(s: string)
    ensures forall m :: 0 < m <= |s| ==> (IsHandlerText(s[..m]) <==> m == HandlerMatch(s))
  {
    var n := HandlerMatch(s);
    forall m | 0 < m <= |s| ensures IsHandlerText(s[..m]) <==> m == n {
      if IsHandlerText(s[..m]) {
        var w := WordRun(s[2..]);
        forall i | 0 <= i < m - 3 ensures IsWordChar(s[2..][i]) {
          assert s[2..][i] == s[..m][2 + i];
        }
        assert !IsWordChar(s[..m][m - 1]);
        assert w == m - 3;
      }
      if m == n && n > 0 {
        var w := WordRun(s[2..]);
        forall i | 2 <= i < m - 1 ensures IsWordChar(s[..m][i]) {
          assert s[..m][i] == s[2..][i - 2];
        }
      }
    }
  }

  /** `replace(/on\w+=/gi, '')`: matches are removed left to right without overlapping. */
  function StripHandlers(s: string): (r: string)
    ensures |r| <= |s|
    ensures forall i :: 0 <= i < |r| ==> r[i] in s
    decreases |s|
  {
    if s == [] then []
    else
      var n := HandlerMatch(s);
      if n > 0 then StripHandlers(s[n..]) else [s[0]] + StripHandlers(s[1..])
  }

  /** `sanitizeInput`: the three removals, in order. Later passes only delete, so no angle bracket comes back. */
  function SanitizeInput(input: string): (r: string)
    ensures |r| <= |input|
    ensures forall i :: 0 <= i < |r| ==> r[i] != '<' && r[i] != '>'
  {
    var a := StripAngles(input);
    var b := StripJavascript(a);
    var c := StripHandlers(b);
    assert forall i :: 0 <= i < |c| ==> c[i] in a;
    c
  }

  /** Text without `<`, `>`, `:` or `=` passes through the sanitiser unchanged. */
  lemma SanitizeKeepsPlainText(s: string)
    requires forall i :: 0 <= i < |s| ==> s[i] !in "<>:="
    ensures SanitizeInput(s) == s
  {
    AnglesAbsent(s);
    SchemeAbsent(s);
    HandlersAbsent(s);
  }

  lemma {:induction false} AnglesAbsent(s: string)
    requires forall i :: 0 <= i < |s| ==> s[i] != '<' && s[i] != '>'
    ensures StripAngles(s) == s
  {
    if s != [] {
      AnglesAbsent(s[1..]);
    }
  }

  lemma {:induction false} SchemeAbsent(s: string)
    requires forall i :: 0 <= i < |s| ==> s[i] != ':'
    ensures StripJavascript(s) == s
    decreases |s|
  {
    if s != [] {
      var k := |JavascriptScheme|;
      if |s| >= k {
        assert ToLower(s[..k])[k - 1] == LowerChar(s[k - 1]) != ':';
      }
      SchemeAbsent(s[1..]);
    }
  }

  lemma {:induction false} HandlersAbsent(s: string)
    requires forall i :: 0 <= i < |s| ==> s[i] != '='
    ensures StripHandlers(s) == s
    decreases |s|
  {
    if s != [] {
      assert HandlerMatch(s) == 0;
      HandlersAbsent(s[1..]);
    }
  }

  /** Stripping angle brackets works character by character: it distributes over concatenation. */
  lemma {:induction false} StripAnglesConcat(a: string, b: string)
    ensures StripAngles(a + b) == StripAngles(a) + StripAngles(b)
    decreases |a|
  {
    if a == [] {
      assert a + b == b;
    } else {
      assert (a + b)[0] == a[0];
      assert (a + b)[1..] == a[1..] + b;
      StripAnglesConcat(a[1..], b);
    }
  }

  /** A case-insensitive `javascript:` starts at position `i` of `s`. */
  predicate SchemeAt(s: string, i: int) {
    0 <= i && i + |JavascriptScheme| <= |s| && ToLower(s[i..i + |JavascriptScheme|]) == JavascriptScheme
  }

  lemma {:induction false} NoSchemeKept(s: string)
    requires forall i :: !SchemeAt(s, i)
    ensures StripJavascript(s) == s
    decreases |s|
  {
    if s != [] {
      assert !SchemeAt(s, 0);
      if |s| >= |JavascriptScheme| {
        assert s[..|JavascriptScheme|] == s[0..|JavascriptScheme|];
      }
      forall i ensures !SchemeAt(s[1..], i) {
        if 0 <= i && i + |JavascriptScheme| <= |s| - 1 {
          assert s[1..][i..i + |JavascriptScheme|] == s[i + 1..i + 1 + |JavascriptScheme|];
          assert !SchemeAt(s, i + 1);
        }
      }
      NoSchemeKept(s[1..]);
    }
  }

  lemma {:induction false} SchemeShortens(s: string, i: int)
    requires SchemeAt(s, i)
    ensures |StripJavascript(s)| < |s|
    decreases |s|
  {
    var k := |JavascriptScheme|;
    assert s[..k] == s[0..k];
    if !SchemeAt(s, 0) {
      assert i > 0;
      assert s[1..][i - 1..i - 1 + k] == s[i..i + k];
      assert SchemeAt(s[1..], i - 1);
      SchemeShortens(s[1..], i - 1);
    }
  }

  /** `replace(/javascript:/gi, '')` changes the text exactly when it contains the scheme, in any case. */
  lemma StripJavascriptChangesIff(s: string)
    ensures StripJavascript(s) == s <==> !exists i :: SchemeAt(s, i)
  {
    if exists i :: SchemeAt(s, i) {
      var i :| SchemeAt(s, i);
      SchemeShortens(s, i);
    } else {
      NoSchemeKept(s);
    }
  }

  /** An `on\w+=` match, in any case, starts at position `i` of `s`. */
  predicate HandlerAt(s: string, i: int) {
    0 <= i < |s| && HandlerMatch(s[i..]) > 0
  }

  lemma {:induction false} NoHandlerKept(s: string)
    requires forall i :: !HandlerAt(s, i)
    ensures StripHandlers(s) == s
    decreases |s|
  {
    if s != [] {
      assert s[0..] == s && !HandlerAt(s, 0);
      forall i ensures !HandlerAt(s[1..], i) {
        if 0 <= i < |s| - 1 {
          assert s[1..][i..] == s[i + 1..];
          assert !HandlerAt(s, i + 1);
        }
      }
      NoHandlerKept(s[1..]);
    }
  }

  lemma {:induction false} HandlerShortens(s: string, i: int)
    requires HandlerAt(s, i)
    ensures |StripHandlers(s)| < |s|
    decreases |s|
  {
    if HandlerMatch(s) == 0 {
      assert i > 0 by { assert s[0..] == s; }
      assert s[1..][i - 1..] == s[i..];
      assert HandlerAt(s[1..], i - 1);
      HandlerShortens(s[1..], i - 1);
    }
  }

  /** `replace(/on\w+=/gi, '')` changes the text exactly when some position starts a match. */
  lemma StripHandlersChangesIff(s: string)
    ensures StripHandlers(s) == s <==> !exists i :: HandlerAt(s, i)
  {
    if exists i :: HandlerAt(s, i) {
      var i :| HandlerAt(s, i);
      HandlerShortens(s, i);
    } else {
      NoHandlerKept(s);
    }
  }

  // ---------------------------------------------------------------------
  // The aggregate validator

  /** The verdict `validateCheckoutForm` records for one field; delivery instructions are never checked. */
  function FieldVerdict(data: CheckoutFormData, f: Field): Option<string> {
    match f
    case FullName => ValidateFullName(data.fullName)
    case Email => ValidateEmail(data.email)
    case PhoneNumber => ValidatePhone(data.phoneNumber)
    case Address => ValidateAddress(data.address)
    case Landmark => LandmarkError(data.landmark)
    case Pincode => ValidatePincode(data.pincode)
    case DeliveryInstructions => None
  }

  /**
   * `validateCheckoutForm`: a fresh record with a key for each failing
   * field, holding that field's verdict, and no key for the others.
   */
  function ValidateCheckoutForm(data: CheckoutFormData): (r: ValidationErrors)
    ensures forall f :: f in r <==> FieldVerdict(data, f).Some?
    ensures forall f :: ErrorOf(r, f) == FieldVerdict(data, f)
  {
    FieldsComplete();
    map f | f in Fields && FieldVerdict(data, f).Some? :: FieldVerdict(data, f)
  }

  /** `hasValidationErrors`: some key holds a value other than `undefined`. */
  predicate HasValidationErrors(errors: ValidationErrors) {
    exists f :: f in errors && errors[f].Some?
  }

  /** The rule one field must meet, stated without the messages. */
  ghost predicate FieldRule(data: CheckoutFormData, f: Field) {
    match f
    case FullName => ValidateFullName(data.fullName).None?
    case Email => MatchesEmailPattern(Trim(data.email))
    case PhoneNumber => IsMobileNumber(DigitsOnly(data.phoneNumber))
    case Address => ValidateAddress(data.address).None?
    case Landmark => |Trim(data.landmark)| != 1
    case Pincode => |DigitsOnly(data.pincode)| == 6
    case DeliveryInstructions => true
  }

  /** Every field of the form is acceptable, each by its own rule. */
  ghost predicate FormAcceptable(data: CheckoutFormData) {
    forall f :: FieldRule(data, f)
  }

  /** A field's verdict in the aggregate is clean exactly when the field meets its rule. */
  lemma FieldRuleIff(data: CheckoutFormData, f: Field)
    ensures FieldVerdict(data, f).None? <==> FieldRule(data, f)
  {
    match f
    case PhoneNumber => PhoneAccepted(data.phoneNumber);
    case Pincode => PincodeAccepted(data.pincode);
    case _ =>
  }

  /** The aggregate reports an error exactly when some field breaks its rule. */
  lemma FormErrorsIff(data: CheckoutFormData)
    ensures HasValidationErrors(ValidateCheckoutForm(data)) <==> !FormAcceptable(data)
  {
    var r := ValidateCheckoutForm(data);
    forall f ensures FieldVerdict(data, f).None? <==> FieldRule(data, f) {
      FieldRuleIff(data, f);
    }
    if HasValidationErrors(r) {
      var f :| f in r && r[f].Some?;
      assert !FieldRule(data, f);
    }
  }

  /** An error record with no keys, or with only `undefined` values, reports no error. */
  lemma NoErrorsInInitial()
    ensures !HasValidationErrors(InitialErrors)
    ensures !HasValidationErrors(map[])
  {
    InitialStates();
  }

  // ---------------------------------------------------------------------
  // Display formatters

  /** Both sides of a split of a digit string are digit strings, with or without a leading blank. */
  lemma DigitParts(d: string, k: nat)
    requires k <= |d|
    requires forall i :: 0 <= i < |d| ==> IsDigit(d[i])
    ensures DigitsOnly(d[..k]) == d[..k] && DigitsOnly(" " + d[k..]) == d[k..]
  {
    var a, b := d[..k], d[k..];
    forall i | 0 <= i < |a| ensures IsDigit(a[i]) { assert a[i] == d[i]; }
    forall i | 0 <= i < |b| ensures IsDigit(b[i]) { assert b[i] == d[k + i]; }
    DigitsOnlyOfDigits(a);
    DigitsOnlyOfDigits(b);
    assert (" " + b)[1..] == b;
  }

  /** The digits of `d[..k] + " " + d[k..]` are `d` when `d` is all digits. */
  lemma SplitDigits(d: string, k: nat)
    requires k <= |d|
    requires forall i :: 0 <= i < |d| ==> IsDigit(d[i])
    ensures DigitsOnly(d[..k] + " " + d[k..]) == d
  {
    var a, b := d[..k], d[k..];
    DigitParts(d, k);
    DigitsOnlyConcat(a, " " + b);
    assert a + " " + b == a + (" " + b);
    assert a + b == d;
  }

  /** `formatPhoneNumber`: ten digits are shown as five, a space and five; anything else is left as typed. */
  function FormatPhoneNumber(phone: string): (r: string)
    ensures DigitsOnly(r) == DigitsOnly(phone)
    ensures |DigitsOnly(phone)| == 10 ==> |r| == 11 && r[5] == ' ' && r[..5] + r[6..] == DigitsOnly(phone)
    ensures |DigitsOnly(phone)| != 10 ==> r == phone
  {
    var digits := DigitsOnly(phone);
    if |digits| == 10 then
      SplitDigits(digits, 5);
      var r := digits[..5] + " " + digits[5..];
      assert r[..5] + r[6..] == digits;
      r
    else phone
  }

  /** `formatPincode`: six digits are shown as three, a space and three; anything else is left as typed. */
  function FormatPincode(pincode: string): (r: string)
    ensures DigitsOnly(r) == DigitsOnly(pincode)
    ensures |DigitsOnly(pincode)| == 6 ==> |r| == 7 && r[3] == ' ' && r[..3] + r[4..] == DigitsOnly(pincode)
    ensures |DigitsOnly(pincode)| != 6 ==> r == pincode
  {
    var digits := DigitsOnly(pincode);
    if |digits| == 6 then
      SplitDigits(digits, 3);
      var r := digits[..3] + " " + digits[3..];
      assert r[..3] + r[4..] == digits;
      r
    else pincode
  }

  /** Text with a digit in it is not blank. */
  lemma DigitsNotBlank(s: string)
    requires DigitsOnly(s) != []
    ensures !AllWhitespace(s)
  {
    if AllWhitespace(s) { NoDigitsInWhitespace(s); }
  }

  /** Formatting twice is formatting once, and the formatted text gets the same verdict as the typed text. */
  lemma FormatPhoneStable(phone: string)
    ensures FormatPhoneNumber(FormatPhoneNumber(phone)) == FormatPhoneNumber(phone)
    ensures ValidatePhone(FormatPhoneNumber(phone)) == ValidatePhone(phone)
  {
    var r := FormatPhoneNumber(phone);
    if |DigitsOnly(phone)| == 10 {
      DigitsNotBlank(phone);
      DigitsNotBlank(r);
      assert r == r[..5] + " " + r[6..];
    }
  }

  lemma FormatPincodeStable(pincode: string)
    ensures FormatPincode(FormatPincode(pincode)) == FormatPincode(pincode)
    ensures ValidatePincode(FormatPincode(pincode)) == ValidatePincode(pincode)
  {
    var r := FormatPincode(pincode);
    if |DigitsOnly(pincode)| == 6 {
      DigitsNotBlank(pincode);
      DigitsNotBlank(r);
      assert r == r[..3] + " " + r[4..];
    }
  }
}
