# A verified model of the storefront's checkout core

This project is a Dafny model of the parts of the cd-frontend storefront (a
React and TypeScript shop for masala powders, pickles and health mixes)
that hold logic rather than markup. It covers:

- the cart store, with its merge-by-key rule and the two totals;
- the field validators, the input sanitiser and the display formatters;
- the delivery address kept in the browser's key-value store;
- the checkout form's state and its three handlers;
- the checkout page's order flow: its guards, the order payload and the
  success and failure branches;
- the product card's quantity clamp and customisation rule;
- the catalogue tables, with their image paths;
- the image-filename slugging;
- the phone sign-in service: phone validation, the send and verify guards,
  and the reCAPTCHA verifier slot.

Every module comes from one source file.

| module | file | models |
|---|---|---|
| `Outcomes` | `outcomes.dfy` | `Option` and `Result` |
| `Ascii` | `ascii.dfy` | `\s`, `\d`, `trim`, `toLowerCase` over ASCII, and digit stripping |
| `MenuData` | `menu_data.dfy` | `src/data/menuData.ts` |
| `ImageHelper` | `image_helper.dfy` | `src/utils/imageHelper.ts` |
| `CatalogueImages` | `catalogue_images.dfy` | the catalogue's `image` fields against `getProductImageUrl` |
| `CartContext` | `cart_context.dfy` | `src/context/CartContext.tsx` |
| `CheckoutTypes` | `checkout_types.dfy` | `src/types/checkout.types.ts` |
| `Validation` | `validation.dfy` | `src/utils/validation.ts` |
| `CheckoutStorage` | `checkout_storage.dfy` | `src/utils/checkoutStorage.ts`, with `localStorage` as a class |
| `CheckoutForm` | `checkout_form.dfy` | `src/components/CheckoutForm.tsx` (logic only) |
| `CheckoutPage` | `checkout_page.dfy` | `src/pages/Checkout.tsx` (logic only) |
| `ProductCard` | `product_card.dfy` | `src/components/ProductCard.tsx` (logic only) |
| `OtpService` | `otp_service.dfy` | `src/services/otpService.ts` |

Where the source updates state, the model keeps the state and updates it:

- `Cart` holds the item list;
- `LocalStorage` holds the key-value store; it may be switched off, when every access throws, or full, when only writes throw;
- `CheckoutForm`, `CheckoutPage` and `ProductCard` hold the component state;
- `OtpSession` holds the module-level verifier slot.

A method's contract ties its new state to a specification function of the
old state, for example `AddItem`, `Without`, `UpdateItems` or
`ReadCheckoutData`. Lemmas then prove what the source promises about that
function.

The outside world enters only as parameters:

- the answer to the confirmation dialog;
- the outcome of the order call;
- the outcome of the e-mail call;
- the outcome of the identity provider's sign-in and confirm calls.

On the checkout page, calls that leave the page are recorded as a sequence
of `Effect`s: the dialog, the order call, the e-mail, the alert, the save,
the cart clear and the navigation. Contracts can then state their order and
which ones happen at all.

Some facts about the source that the contracts make explicit:

- The checkout page runs its own check, `validateFormData`, on a form the
  form component has already accepted. That check is looser in every field
  but one: it needs three characters of name where the form needs two. A
  name of exactly two characters therefore passes the form and is rejected
  by the page (`CheckoutPage.FormAcceptedPageVerdict`).
- After a placed order the page leaves `isSubmitting` and `loading` set;
  only the failure branch resets them. `successMessage` is cleared at the
  start and never set.
- The outcome of the confirmation e-mail has no effect on the result.
- `validatePhoneNumber` in the sign-in service tests for the leading `+` on
  the text as typed, not on the trimmed text. It sets no upper bound on the
  digit count.
- `verifyOtp` checks only that the code is six characters long. It does not
  check that they are digits.

## Model

| member | source | states |
|---|---|---|
| `CartContext.Cart.constructor` | src/context/CartContext.tsx:26 | the cart starts empty, which is `Valid` |
| `CartContext.SpiceWins` | src/context/CartContext.tsx:31-32 | with a spice level the key is `id-<spice label>`, whatever sugar option is also passed |
| `CartContext.DefaultKey` | src/context/CartContext.tsx:31 | the customisation is `"default"` exactly when neither option is passed |
| `CartContext.KeysSeparateCustomizations` | src/context/CartContext.tsx:31-32 | two different customisations of the same item get different keys |
| `CartContext.Cart.AddToCart` | src/context/CartContext.tsx:29-43 | keeps `Valid` (no two lines share a key); the new list is `AddItem` of the old one; the item count grows by exactly the added quantity |
| `CartContext.AddExisting` | src/context/CartContext.tsx:35-40 | a present key keeps the length and raises only that entry's quantity, by exactly the added amount |
| `CartContext.AddNew` | src/context/CartContext.tsx:41 | a new key appends one entry with the given quantity and options and leaves the earlier entries unchanged |
| `CartContext.AddKeepsKeysUnique` | src/context/CartContext.tsx:35-41 | adding keeps the keys pairwise distinct, and the added key is present afterwards |
| `CartContext.AddTotalItems` | src/context/CartContext.tsx:35-41 | adding raises the item count by the quantity, whether the key is new or merged |
| `CartContext.AddNewTotalPrice` | src/context/CartContext.tsx:41 | a new key raises the total price by price times quantity |
| `CartContext.AddExistingTotalPrice` | src/context/CartContext.tsx:37-39 | a merged key raises the total price by that entry's price times the added quantity |
| `CartContext.Cart.RemoveFromCart` | src/context/CartContext.tsx:45-47 | keeps `Valid`; the new list is `Without` of the old one; the key is gone |
| `CartContext.WithoutMembers` | src/context/CartContext.tsx:46 | exactly the entries with another key survive, and the list never grows |
| `CartContext.WithoutAbsent` | src/context/CartContext.tsx:46 | removing an absent key changes nothing |
| `CartContext.WithoutConcat` | src/context/CartContext.tsx:46 | removal acts on each part of a list separately, so the order of the survivors is kept |
| `CartContext.RemovePresent` | src/context/CartContext.tsx:45-47 | with unique keys, removal cuts out exactly the one entry and lowers both totals by its share |
| `CartContext.WithoutKeepsKeysUnique` | src/context/CartContext.tsx:46 | removal keeps the keys unique |
| `CartContext.Cart.UpdateQuantity` | src/context/CartContext.tsx:49-57 | keeps `Valid`; the new list is `UpdateItems` of the old one |
| `CartContext.UpdateNonPositiveRemoves` | src/context/CartContext.tsx:50-53 | a quantity of zero or less is the same as removing the key |
| `CartContext.SetQuantityShape` | src/context/CartContext.tsx:54-56 | a positive update keeps keys and order, sets the matching entry's quantity and leaves every other entry unchanged |
| `CartContext.NoKeyUnchanged` | src/context/CartContext.tsx:54-56 | updating an absent key changes nothing |
| `CartContext.UpdateTotals` | src/context/CartContext.tsx:54-56 | a positive update moves both totals by the change in that one entry |
| `CartContext.Cart.ClearCart` | src/context/CartContext.tsx:59-61 | the list is empty, so `Valid`, and both totals are 0 |
| `CartContext.TotalsConcat` | src/context/CartContext.tsx:63-70 | both folds add up over a concatenation |
| `CartContext.TotalsPermutation` | src/context/CartContext.tsx:63-70 | both totals are the same for any reordering of the lines |
| `CartContext.TotalsPositive` | src/context/CartContext.tsx:63-70 | with positive prices and quantities, a non-empty cart has a positive total and at least one unit per line |
| `MenuData.SugarOptionsComplete` | src/data/menuData.ts:1-8 | `sugarOptions` lists each of the four sugar options exactly once |
| `MenuData.SpiceLevelsComplete` | src/data/menuData.ts:10-16 | `spiceLevels` lists each of the three spice levels exactly once |
| `MenuData.LabelsDistinct` | src/data/menuData.ts:1-16 | the seven option labels are pairwise distinct, and none is `"default"` |
| `MenuData.FlattenMembers` | src/data/menuData.ts:88 | an item is in the flattened list exactly when some category holds it |
| `MenuData.GetAllMenuItems` | src/data/menuData.ts:87-89 | the result holds exactly the items of the categories |
| `MenuData.AllItemsInOrder` | src/data/menuData.ts:87-89 | the result is the five item lists concatenated in table order: 16 items |
| `MenuData.CategoriesHoldTheirItems` | src/data/menuData.ts:33-85 | every item's `category` is the id of the category that lists it |
| `MenuData.PricesPositive` | src/data/menuData.ts:39-82 | every price is a positive whole number |
| `MenuData.ItemIdsDistinct` | src/data/menuData.ts:39-82 | item ids are pairwise distinct across the catalogue |
| `ImageHelper.GetImageFilename` | src/utils/imageHelper.ts:9-17 | the filename is the slug of the name; it is web-safe (no upper case, whitespace, `/`, `&`, en dash or double `-`) and no longer than the name |
| `ImageHelper.ChainIsSlug` | src/utils/imageHelper.ts:10-16 | the chain of replacements equals one character map followed by one collapse of `-` runs |
| `ImageHelper.SlugWebSafe` | src/utils/imageHelper.ts:11-15 | every slug is web-safe and no longer than its input |
| `ImageHelper.FilenameOfWebSafe` | src/utils/imageHelper.ts:9-17 | a web-safe name is its own filename |
| `ImageHelper.FilenameIdempotent` | src/utils/imageHelper.ts:9-17 | applying `getImageFilename` twice gives the same as once |
| `ImageHelper.LeadingWhitespaceBecomesHyphen` | src/utils/imageHelper.ts:13-16 | leading whitespace turns into a leading `-`; the final `trim` removes nothing |
| `ImageHelper.GetProductImageUrl` | src/utils/imageHelper.ts:24-34 | the URL is the directory, the filename and `.jpg` exactly for `rasam-powder`, `.png` otherwise |
| `ImageHelper.UrlDeterminesFilename` | src/utils/imageHelper.ts:24-34 | two names with the same URL have the same filename |
| `CatalogueImages.RasamImage` | src/data/menuData.ts:39 | the one `.jpg` item's image path is its computed URL |
| `CatalogueImages.MilletImage` | src/data/menuData.ts:73 | "Millet / Multigrain Powder" maps to `millet-multigrain-powder.png` |
| `CatalogueImages.CatalogueImagesMatch` | src/data/menuData.ts:39-82 | every catalogue item's `image` equals `getProductImageUrl` of its name |
| `CheckoutTypes.WithField` | src/components/CheckoutForm.tsx:79 | setting one field gives it the new value and leaves the other six unchanged |
| `CheckoutTypes.InitialStates` | src/types/checkout.types.ts:68-86 | the initial form has seven empty fields, and the initial error record lists all seven keys with no error |
| `Validation.ValidateRequired` | src/utils/validation.ts:3-9 | errs exactly on whitespace-only input, with `<field> is required` |
| `Validation.ValidatePhone` | src/utils/validation.ts:11-29 | required first, then exactly ten digits, then a first digit of 6 to 9, each with its message |
| `Validation.PhoneAccepted` | src/utils/validation.ts:11-29 | passes exactly when the digits form a ten-digit number starting with 6 to 9 |
| `Validation.PhoneDigitsVerdict` | src/utils/validation.ts:11-29 | a number typed as digits only fails on its length unless it has exactly ten, then on its first digit unless that is 6 to 9, and passes otherwise |
| `Validation.PhoneExampleAccepted` | src/utils/validation.ts:24-28 | "9876543210" passes |
| `Validation.PhoneExampleWrongStart` | src/utils/validation.ts:24-26 | "1234567890" fails on its first digit |
| `Validation.PhoneExampleTooShort` | src/utils/validation.ts:20-22 | "12345" fails on the digit count |
| `Validation.ValidatePincode` | src/utils/validation.ts:31-45 | required first, then exactly six digits |
| `Validation.PincodeAccepted` | src/utils/validation.ts:31-45 | passes exactly when there are six digits |
| `Validation.ValidateFullName` | src/utils/validation.ts:47-63 | "required" exactly on blank input; a trimmed text shorter than two characters gets the length message before the letters check; a longer one with other characters gets the letters message; passes exactly when the text is letters and whitespace with at least two letters |
| `Validation.TrimmedLetters` | src/utils/validation.ts:48-60 | "trimmed, two or more long, letters and spaces only" is the same as "letters and spaces with two letters" on the untrimmed text |
| `Validation.ValidateAddress` | src/utils/validation.ts:65-77 | "required" exactly on blank input; a non-blank text shorter than ten characters after trimming gets the length message; passes exactly when the text has two non-blank characters that span at least ten characters, both ends included |
| `Validation.EmailShapeIsPattern` | src/utils/validation.ts:86-87 | the e-mail pattern matches exactly: no whitespace, one `@` with text before it, and a `.` inside the domain |
| `Validation.ValidateEmail` | src/utils/validation.ts:79-92 | "required" exactly on blank input; any other failure is "Please enter a valid email address"; passes exactly when the trimmed text matches the pattern |
| `Validation.StripAngles` | src/utils/validation.ts:96 | the result has no `<` or `>`, only characters of the input, and is no longer |
| `Validation.StripAnglesConcat` | src/utils/validation.ts:96 | the removal works character by character: it distributes over concatenation, so the other characters survive in order |
| `Validation.StripJavascript` | src/utils/validation.ts:97 | the result keeps only characters of the input and is no longer |
| `Validation.StripJavascriptChangesIff` | src/utils/validation.ts:97 | the text changes exactly when it contains `javascript:` in any case; a match makes it strictly shorter |
| `Validation.HandlerMatchIsPattern` | src/utils/validation.ts:98 | the match length found is the only prefix that matches `on\w+=` |
| `Validation.StripHandlers` | src/utils/validation.ts:98 | the result keeps only characters of the input and is no longer |
| `Validation.StripHandlersChangesIff` | src/utils/validation.ts:98 | the text changes exactly when some position starts an `on\w+=` match in any case; a match makes it strictly shorter |
| `Validation.SanitizeInput` | src/utils/validation.ts:94-99 | the result has no `<` or `>` and is never longer than the input |
| `Validation.SanitizeKeepsPlainText` | src/utils/validation.ts:94-99 | text without `<`, `>`, `:` or `=` passes through unchanged |
| `Validation.LandmarkError` | src/utils/validation.ts:124-126 | errs exactly when the trimmed landmark is one character long |
| `Validation.ValidateCheckoutForm` | src/utils/validation.ts:101-134 | the record has a key exactly for each failing field, holding that field's own verdict; delivery instructions are never checked |
| `Validation.FieldRuleIff` | src/utils/validation.ts:101-134 | a field's verdict in the aggregate is clean exactly when the field meets its rule: a ten-digit mobile number, six pincode digits, an email of the `x@y.z` shape, a landmark that is not one character after trimming |
| `Validation.FormErrorsIff` | src/utils/validation.ts:101-138 | the aggregate reports an error exactly when some field breaks its rule |
| `Validation.NoErrorsInInitial` | src/utils/validation.ts:136-138 | neither the initial error record nor an empty one counts as an error |
| `Validation.FormatPhoneNumber` | src/utils/validation.ts:140-146 | with ten digits the result is 5 digits, a space and 5 digits; otherwise the input unchanged; the digits are always kept |
| `Validation.FormatPincode` | src/utils/validation.ts:148-154 | with six digits the result is 3 digits, a space and 3 digits; otherwise the input unchanged; the digits are always kept |
| `Validation.FormatPhoneStable` | src/utils/validation.ts:140-146 | formatting is idempotent and does not change the phone verdict |
| `Validation.FormatPincodeStable` | src/utils/validation.ts:148-154 | formatting is idempotent and does not change the pincode verdict |
| `CheckoutStorage.DeliveryAddressToFormData` | src/utils/checkoutStorage.ts:101-111 | converting back to an address gives the same address |
| `CheckoutStorage.ConversionsInverse` | src/utils/checkoutStorage.ts:10-18 | the field copy and `deliveryAddressToFormData` are inverse in both directions |
| `CheckoutStorage.ValidateStoredCheckoutData` | src/utils/checkoutStorage.ts:68-84 | true exactly for an object whose seven named fields are all strings |
| `CheckoutStorage.AddressJsonRoundTrip` | src/utils/checkoutStorage.ts:20 | a saved address passes the stored-data check and reads back field for field |
| `CheckoutStorage.SaveCheckoutData` | src/utils/checkoutStorage.ts:8-26 | saving succeeds exactly when storage is on and not full, writes only `ck_checkout_data`, and a later read gives the saved fields; a failed save leaves what a read gives unchanged, so a full store still reads back the earlier address |
| `CheckoutStorage.GetCheckoutData` | src/utils/checkoutStorage.ts:31-50 | never throws; gives a record exactly when the key holds parsable text that passes the check, `null` otherwise |
| `CheckoutStorage.ClearCheckoutData` | src/utils/checkoutStorage.ts:55-63 | removes only the key, and a later read gives `null` |
| `CheckoutStorage.HasCheckoutData` | src/utils/checkoutStorage.ts:89-96 | true exactly when storage works and the key is present, whatever it holds |
| `CheckoutStorage.SaveThenRead` | src/utils/checkoutStorage.ts:31-45 | reading after a save gives back the saved address |
| `CheckoutStorage.SaveThenRestoreForm` | src/utils/checkoutStorage.ts:31-45 | a form saved, read back and converted is the same form |
| `CheckoutStorage.ReadAfterClear` | src/utils/checkoutStorage.ts:55-63 | after the key is removed, a read gives `null` |
| `CheckoutStorage.ReadIgnoresOtherKeys` | src/utils/checkoutStorage.ts:33 | writing any other key does not change what a read gives |
| `CheckoutForm.BlurMatchesAggregate` | src/components/CheckoutForm.tsx:46-74 | the verdict on blur for a field equals the aggregate validator's verdict for that field |
| `CheckoutForm.CheckoutForm.constructor` | src/components/CheckoutForm.tsx:30-40 | starts with the saved address if one reads back, else empty fields, with no errors and no attempt |
| `CheckoutForm.CheckoutForm.HandleFocus` | src/components/CheckoutForm.tsx:118 | only the focused field changes |
| `CheckoutForm.CheckoutForm.HandleBlur` | src/components/CheckoutForm.tsx:42-75 | before an attempt the errors stay as they are; after one, exactly that field's error is set from its validator |
| `CheckoutForm.CheckoutForm.HandleChange` | src/components/CheckoutForm.tsx:77-84 | the field gets the sanitised text, which has no `<` or `>`; after an attempt, only that field's error is cleared, and only if it was set |
| `CheckoutForm.CheckoutForm.HandleSubmit` | src/components/CheckoutForm.tsx:86-98 | records the attempt, shows the aggregate result, and submits the form exactly when it has no error |
| `CheckoutPage.PageErrors` | src/pages/Checkout.tsx:35-64 | one key per flagged field with its message, and no other key |
| `CheckoutPage.ValidateFormData` | src/pages/Checkout.tsx:34-65 | flags the name exactly when it is under three characters trimmed, the phone when it does not have ten digits, and address and pincode when blank; e-mail and landmark are never flagged |
| `CheckoutPage.PageAcceptsIff` | src/pages/Checkout.tsx:86-94 | the page reports no error exactly when all four of its rules hold |
| `CheckoutPage.FormAcceptedPageVerdict` | src/pages/Checkout.tsx:38-40 | a form the form component accepts passes the page's check, except a two-character name |
| `CheckoutPage.OrderIdOf` | src/pages/Checkout.tsx:144 | the response's `orderId`, else its `id`, else `"N/A"`; never empty |
| `CheckoutPage.AddressLineShape` | src/pages/Checkout.tsx:124 | the address line starts with the address and adds nothing exactly when landmark, pincode and instructions are empty; it ends in `)` with instructions, else in `, <pincode>` with a pincode |
| `CheckoutPage.LinesTotalIsCartTotal` | src/pages/Checkout.tsx:112-114 | the payload's lines add up to the cart's total price |
| `CheckoutPage.PayloadConsistent` | src/pages/Checkout.tsx:119-133 | one line per cart line with its name, price and quantity; the total equals the cart total; contact fields copied; payment `ONLINE` |
| `CheckoutPage.FailureMessage` | src/pages/Checkout.tsx:195 | the thrown error's message, or the fallback when it is empty; never empty |
| `CheckoutPage.PlacedOrderConsistent` | src/pages/Checkout.tsx:144-185 | a placed order makes five calls in order, e-mails the id it navigates with, and e-mails the cart total |
| `CheckoutPage.CheckoutPage.constructor` | src/pages/Checkout.tsx:15-19 | not submitting, not loading, and no error, message or validation errors |
| `CheckoutPage.CheckoutPage.HandleFormSubmit` | src/pages/Checkout.tsx:67-199 | guards in order (empty cart, page check, dialog); only a placed order clears the cart and saves the address; a failure leaves both untouched and resets the flags |
| `CheckoutPage.CheckoutPage.PlaceOrder` | src/pages/Checkout.tsx:107-198 | the order call, then the failure branch (alert, error, flags reset) or the success branch (cart cleared, address saved) |
| `CheckoutPage.CheckoutPage.FinishOrder` | src/pages/Checkout.tsx:149-185 | e-mail, save, clear, navigate in that order, whatever the e-mail's outcome |
| `ProductCard.ChosenOptions` | src/components/ProductCard.tsx:36-42 | spice categories pass only the spice level, all others only the sugar option |
| `ProductCard.CardKey` | src/components/ProductCard.tsx:38-42 | the key names the category's choice and is never the `"default"` one |
| `ProductCard.CatalogueChoices` | src/components/ProductCard.tsx:26-29 | masala and pickle items get a spice choice; the other three categories get a sugar choice |
| `ProductCard.ProductCard.constructor` | src/components/ProductCard.tsx:20-22 | one unit, "With Sugar", "Medium Spicy" |
| `ProductCard.ProductCard.IncrementQuantity` | src/components/ProductCard.tsx:46 | one more, capped at 10; the quantity stays in 1..10 |
| `ProductCard.ProductCard.DecrementQuantity` | src/components/ProductCard.tsx:47 | one fewer, floored at 1; the quantity stays in 1..10 |
| `ProductCard.ProductCard.SelectSugarOption` | src/components/ProductCard.tsx:99 | sets only the sugar option |
| `ProductCard.ProductCard.SelectSpiceLevel` | src/components/ProductCard.tsx:120 | sets only the spice level |
| `ProductCard.ProductCard.HandleAddToCart` | src/components/ProductCard.tsx:36-44 | adds the chosen quantity under the category's choice, so the item count grows by that quantity, keeps the cart `Valid`, then resets the quantity to 1 |
| `OtpService.ValidatePhoneNumber` | src/services/otpService.ts:56-72 | required, then a leading `+`, then at least ten digits, each with its message; valid exactly when all three hold |
| `OtpService.PlusAndDigitsAccepted` | src/services/otpService.ts:65-71 | `+` followed by ten or more digits is valid: there is no upper bound |
| `OtpService.LeadingBlankFailsCountryCode` | src/services/otpService.ts:61-63 | a leading blank fails the country-code check, whatever follows |
| `OtpService.ErrorMessage` | src/services/otpService.ts:107-123 | never empty; a recognised code gives its own text; any other code passes a non-empty provider message through, and otherwise gives the fallback |
| `OtpService.SendErrorMessage` | src/services/otpService.ts:107-123 | never empty; each of the six known codes gets its own message, for example the rate limit; an unknown code passes the provider's message through, or gives "Failed to send OTP. Please try again." when that message is empty |
| `OtpService.VerifyErrorMessage` | src/services/otpService.ts:160-169 | never empty; each of the three known codes gets its own message, for example an expired code; an unknown code passes the provider's message through, or gives "Failed to verify OTP. Please try again." when that message is empty |
| `OtpService.VerifyOtp` | src/services/otpService.ts:135-171 | a code not six characters long is refused first, then a missing confirmation; succeeds exactly when both pass and the provider confirms; a provider failure gives `VerifyErrorMessage` of the provider's error |
| `OtpService.OtpSession.constructor` | src/services/otpService.ts:18 | the slot starts empty |
| `OtpService.OtpSession.InitializeRecaptcha` | src/services/otpService.ts:26-48 | clears the verifier in the slot, if any, and installs a new one; no verifier leaks |
| `OtpService.OtpSession.ClearRecaptcha` | src/services/otpService.ts:177-182 | the slot is empty afterwards; with an empty slot nothing changes, so a second call is a no-op |
| `OtpService.OtpSession.SendOtp` | src/services/otpService.ts:81-125 | an invalid number is refused before any verifier is made; a failed sign-in clears the slot and maps the error code |

## Left out

- Text is ASCII only. `\s`, `\d`, `\w`, `trim` and `toLowerCase` are modelled over ASCII; full Unicode semantics are not. The en dash in the filename rule is the one non-ASCII character the model knows.
- Prices are whole rupees (`nat`), as in the catalogue. Floating point is not modelled, so `Math.round(x * 100) / 100` in `getTotalPrice` is the identity here.
- `CartContext.Cart.GetTotalPrice`, `CartContext.Cart.GetTotalItems`: these read the folds `TotalPrice` and `TotalItems` and state nothing of their own. The properties of the folds are the lemmas above.
- `JSON.stringify` and `JSON.parse`: text written by `JSON.stringify` is stored as the JSON value it encodes, and any other text makes `JSON.parse` throw.
- The order call, the e-mail call (EmailJS), the confirmation dialog and the identity provider (Firebase sign-in and confirm) are not modelled. Their outcomes are parameters. The e-mail outcome is a parameter that nothing depends on, as in the source.
- The reCAPTCHA widget itself, and a failure of its constructor, are not modelled. A verifier is a serial number and its container id.
- The page's mount effect that redirects an empty cart to the home page (src/pages/Checkout.tsx:21-25) needs a router and is not modelled.
- `CheckoutPage.OrderIdOf`: the order response is untyped JSON, but `orderId` and `id` are modelled as optional strings. A numeric id, including a falsy `0`, is not covered.
- The page's unused `validateEmail` helper (src/pages/Checkout.tsx:28-31) is not modelled.
- Console logging, JSX, styling and `isCartOpen` are not modelled.
- `undefined` and `null` inputs to the validators are not modelled. Strings are always present, so `!value` is the empty-string test.
- Asynchronous interleaving is not modelled. Each handler runs to completion, and React's batched state updates appear as one step.
