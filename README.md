# nopCommerce end-to-end helpers, modelled in Dafny

This project models the decision layer of a Selenium test suite for the
nopCommerce demo shop. It covers the page objects for:

- the shopping cart;
- registration;
- login;
- the checkout steps: billing address, shipping address, shipping method and payment method.

It also covers the workflow helpers that drive these pages: registering, logging in, entering addresses,
choosing shipping and payment, and reading, updating and removing cart rows.

The browser is abstract. A `Browser.PageState` holds:

- the URL;
- the text of every input;
- the value `is_selected()` reports for each checkbox;
- the option chosen in each select;
- the rows of the cart, each a display name and a quantity text.

A `Browser.Session` object holds the current page and the ordered log of driver
calls: navigate, click, clear, send keys and select. Its invariant is that the
page is what those calls made of the starting page (`Browser.Run`).

Every page-object method and workflow is a module-level method that takes
the session and may change only it. Each is proved to make exactly the calls that a pure script function lists, and to end
with the outcome that function gives: done, or one of the exceptions the
helpers let escape. The lemmas then state what those scripts promise:

- which fields are filled, in what order, and only when;
- which branch raises;
- how the cart changes.

Files:

- `browser.dfy` — the page state, driver calls, their effect, and the session.
- `text.dfy` — `str.lower()`, `ljust(w, fill)[:w]` and `str(n)`.
- `cart.dfy`, `register.dfy`, `login.dfy`, `checkout.dfy` — the page objects.
- `workflows.dfy` — the helpers in `tests/helpers/utils.py`.

Things the site decides are parameters of the workflows:

- whether the registration success text appears, and at which URL;
- whether the logout link shows after login.

## Model

| member | source | states |
|---|---|---|
| Text.Lower | tests/helpers/utils.py:336 | `lower()` keeps the length, lower-cases each ASCII capital and leaves no capital behind |
| Text.LowerIdempotent | tests/helpers/utils.py:336 | lower-casing twice is lower-casing once, so names that differ only in case are dispatched alike |
| Text.PadTruncate | tests/helpers/utils.py:389 | `s.ljust(w, fill)[:w]` has exactly `w` characters; position `i` holds `s[i]` when `s` is long enough there, `fill` otherwise |
| Text.PadTruncateShape | tests/helpers/utils.py:389 | a short input is kept as a prefix followed by padding, a long one is cut to its first `w` characters, and an input of width `w` is unchanged |
| Text.PadTruncateIdempotent | tests/helpers/utils.py:396 | clamping an already clamped value changes nothing |
| Text.DecimalString | tests/pages/register.py:84-93 | `str(n)` is a non-empty string of decimal digits with no leading zero except for 0 itself |
| Text.DecimalRoundTrip | tests/pages/register.py:84-93 | reading `str(n)` back as a decimal gives `n` |
| Text.DecimalInjective | tests/pages/register.py:84-93 | different numbers never produce the same string |
| Text.IntString | tests/helpers/utils.py:725-727 | `str(q)` of an int is non-empty and starts with '-' exactly when `q` is negative; the same text is typed by `send_keys(quantity)` at tests/pages/cart.py:78 |
| Text.IntStringInjective | tests/helpers/utils.py:725-727 | different ints print differently, so the quantity check compares the shown text with `quantity` itself |
| Browser.FillSetsText | tests/pages/register.py:51-100 | clear-then-type leaves the input holding exactly the argument, whatever it held before, and changes nothing else |
| Browser.SetTextFrame | tests/pages/checkout.py:53-123 | setting one input leaves every other input, the checkboxes, the selects, the URL and the cart's names unchanged |
| Browser.FillTwiceKeepsLast | tests/pages/register.py:51-100 | filling an input twice leaves only the second value |
| Browser.ClickTwiceRestores | tests/pages/register.py:102-103 | clicking a checkbox twice restores the page as it was |
| Browser.FillTouches | tests/pages/checkout.py:53-123 | clear-then-type acts on its own input and on no other |
| Browser.Session.Perform | tests/pages/register.py:102-109 | one driver call is appended to the log and the page takes its effect |
| Browser.Session.ClearAndType | tests/pages/register.py:51-56 | `clear()` then `send_keys(text)` on one input, logged in that order |
| CartPage.FirstMatch | tests/pages/cart.py:52-53 | the index of the first row whose name equals the argument exactly; no earlier row matches; `None` exactly when no row matches |
| CartPage.ListProductsInCart | tests/pages/cart.py:42-46 | one name per row in row order; waiting for the product names times out on an empty cart |
| CartPage.GetProductQuantity | tests/pages/cart.py:48-56 | the quantity of the first row named exactly `product_name`, or `None` when no row is; times out on an empty cart |
| CartPage.RemoveProductFromCart | tests/pages/cart.py:58-69 | clicks the first matching row's remove button and then update, or clicks nothing when no row matches |
| CartPage.ModifyProductQuantity | tests/pages/cart.py:71-83 | clears and retypes `str(quantity)` in the first matching row, then clicks update once; no calls when no row matches |
| CartPage.RemoveEffect | tests/pages/cart.py:58-69 | removal takes out exactly the first matching row: earlier rows stay, later rows move up by one, and nothing else on the page changes; with no match the page is unchanged |
| CartPage.ModifyEffect | tests/pages/cart.py:71-83 | only the first matching row's quantity becomes `str(quantity)`; every other row and field is unchanged; with no match the page is unchanged |
| CartPage.ModifyTwiceSameAsOnce | tests/pages/cart.py:76-78 | updating to the same quantity twice leaves the page as one update does |
| CartPage.Open | tests/pages/cart.py:23-24 | navigates to the cart URL |
| RegisterPage.FieldLocatorInjective | tests/pages/register.py:19-28 | each text setter has an input of its own |
| RegisterPage.SelectGenderCases | tests/pages/register.py:41-49 | gender ignores case; "male" clicks exactly the `gender-male` radio and "female" exactly the `gender-female` radio; anything else raises `ValueError` without clicking |
| RegisterPage.SelectGender | tests/pages/register.py:41-49 | makes the calls and returns the outcome of the gender dispatch |
| RegisterPage.DateOfBirthUnpadded | tests/pages/register.py:84-93 | day, month and year go, in that order, to their own selects, as unpadded decimal strings that read back as the date's parts |
| RegisterPage.EnterDateOfBirth | tests/pages/register.py:84-93 | sends the three date parts in order |
| RegisterPage.EnterText | tests/pages/register.py:51-100 | each `enter_*` setter clears its own input and then types the argument |
| RegisterPage.ClickNewsletter | tests/pages/register.py:102-103 | clicks unconditionally, so the reported state flips |
| RegisterPage.ClickRegisterPage | tests/pages/register.py:38-39 | one click on the header's register link |
| RegisterPage.ClickRegister | tests/pages/register.py:105-106 | one click on Register |
| RegisterPage.ClickContinue | tests/pages/register.py:108-109 | one click on Continue |
| LoginPage.Open | tests/pages/login.py:20-21 | navigates to the login URL |
| LoginPage.EnterText | tests/pages/login.py:23-33 | email and password are cleared, then typed |
| LoginPage.ClickRememberMe | tests/pages/login.py:35-36 | one click on "remember me" |
| LoginPage.ClickLogin | tests/pages/login.py:38-39 | one click on the login button |
| CheckoutAddress.PrefixedLocatorInjective | tests/pages/checkout.py:21-32 | within one form, billing or shipping, every setter writes to an input of its own |
| CheckoutAddress.SelectsAreNotTextInputs | tests/pages/checkout.py:21-32 | a form's country and state selects have ids distinct from all of its text inputs |
| BillingAddressPage.ToggleCases | tests/pages/checkout.py:38-51 | for any reported state exactly one of the two toggles clicks; on a page with the checkbox, `click_ship_to_same_address` leaves it reporting not selected and `uncheck_ship_to_same_address` leaves it reporting selected, so a second call clicks nothing |
| BillingAddressPage.ClickShipToSameAddress | tests/pages/checkout.py:38-43 | clicks exactly when the checkbox reports selected |
| BillingAddressPage.UncheckShipToSameAddress | tests/pages/checkout.py:45-51 | clicks exactly when the checkbox reports not selected |
| BillingAddressPage.EnterText | tests/pages/checkout.py:53-123 | each billing setter clears its own input and then types the argument |
| BillingAddressPage.SelectCountry | tests/pages/checkout.py:79-83 | chooses the country by visible text |
| BillingAddressPage.SelectState | tests/pages/checkout.py:85-89 | chooses the state by option value |
| BillingAddressPage.ClickContinue | tests/pages/checkout.py:125-127 | one click on Continue |
| ShippingAddressPage.SelectBillingAddressAsWritten | tests/pages/checkout.py:155-159 | as written, the call fails with `AttributeError` and makes no driver call that changes the page |
| ShippingAddressPage.SelectBillingAddress | tests/pages/checkout.py:155-159 | as intended, picks the first saved address by index |
| ShippingAddressPage.SelectNewShippingAddress | tests/pages/checkout.py:161-165 | picks the option with visible text "New Address" |
| ShippingAddressPage.EnterText | tests/pages/checkout.py:167-237 | each shipping setter clears its own input and then types the argument |
| ShippingAddressPage.SelectCountry | tests/pages/checkout.py:193-197 | chooses the country by visible text |
| ShippingAddressPage.SelectState | tests/pages/checkout.py:199-203 | chooses the state by visible text, unlike the billing form |
| ShippingAddressPage.ClickContinue | tests/pages/checkout.py:239-241 | one click on Continue |
| ShippingMethodPage.SelectOption | tests/pages/checkout.py:251-272 | one click on the radio of the chosen option |
| ShippingMethodPage.ClickContinue | tests/pages/checkout.py:274-277 | one click on Continue |
| PaymentMethodPage.SelectCreditCard | tests/pages/checkout.py:302-305 | one click on `paymentmethod_1` |
| PaymentMethodPage.SelectChequeOrCash | tests/pages/checkout.py:307-310 | one click on `paymentmethod_0` |
| PaymentMethodPage.ClickContinueForChequeOrCash | tests/pages/checkout.py:312-315 | one click on the payment-info Continue |
| PaymentMethodPage.SelectCardOption | tests/pages/checkout.py:317-347 | card type and expiry are chosen by option value |
| PaymentMethodPage.EnterCardText | tests/pages/checkout.py:323-352 | holder name, number and code are cleared, then typed |
| PaymentMethodPage.ClickContinue | tests/pages/checkout.py:354-360 | one click on the payment-method Continue |
| Workflows.OptionalFillTouches | tests/helpers/utils.py:77-84 | an optional field is acted on exactly when its value is truthy |
| Workflows.RegisterUser | tests/helpers/utils.py:30-108 | makes exactly the calls of `RegisterScript` and ends with its outcome |
| Workflows.EnterRegisterRequired | tests/helpers/utils.py:66-76 | the register link, then the five required fields |
| Workflows.EnterRegisterNames | tests/helpers/utils.py:66-73 | the register link, then first and last name |
| Workflows.EnterRegisterCredentials | tests/helpers/utils.py:74-76 | email, password and confirmation, in that order |
| Workflows.SelectGenderIfGiven | tests/helpers/utils.py:77-78 | gender is dispatched only when truthy |
| Workflows.EnterRegisterOptional | tests/helpers/utils.py:79-84 | date of birth, company and newsletter, each only when given |
| Workflows.EnterRegisterCompanyIfGiven | tests/helpers/utils.py:81-82 | the company is filled only when truthy |
| Workflows.FinishRegistration | tests/helpers/utils.py:79-108 | the optional blocks after gender, then submission, with the submission's outcome |
| Workflows.SubmitRegistration | tests/helpers/utils.py:89-108 | Register, then the reaction to the site's answer |
| Workflows.AwaitConfirmation | tests/helpers/utils.py:91-108 | a timeout is swallowed; success at a URL outside the registration page raises `AssertionError`; otherwise Continue is clicked |
| Workflows.SubmitTouches | tests/helpers/utils.py:89-106 | submission acts on Register and at most on Continue |
| Workflows.RegisterFormAvoidsContinue | tests/helpers/utils.py:66-84 | nothing before the site's answer acts on Continue |
| Workflows.NoContinueWithoutConfirmation | tests/helpers/utils.py:91-108 | when nothing follows Register, Continue is never acted on |
| Workflows.RegisterFillsRequiredFirst | tests/helpers/utils.py:66-76 | registration always opens the form and then fills first name, last name, email, password and confirmation, in that order, before anything else |
| Workflows.RegisterRequiredTouches | tests/helpers/utils.py:66-76 | the required part acts on the register link and the five required inputs, and on nothing else |
| Workflows.RegisterTouchesOptional | tests/helpers/utils.py:77-84 | an optional input (gender radios, the three date-of-birth selects, company, newsletter) is acted on only through the gender or the optional blocks |
| Workflows.RegisterOptionalOnlyWhenTruthy | tests/helpers/utils.py:77-84 | gender, the day, month and year selects of the date of birth, company and newsletter are acted on only when truthy, so an empty string counts as absent |
| Workflows.DateOfBirthTouches | tests/pages/register.py:84-93 | the date of birth acts on the three date selects and on nothing else |
| Workflows.RegisterConfirmationCases | tests/helpers/utils.py:91-108 | no success text: no exception and Continue is never clicked; success at a foreign URL: `AssertionError` and Continue is never clicked; otherwise Continue is clicked right after Register |
| Workflows.EnterBillingAddress | tests/helpers/utils.py:156-229 | makes exactly the calls of `BillingActions`: one toggle, the required fields, the truthy optional ones, then Continue |
| Workflows.ToggleShipToSameAddress | tests/helpers/utils.py:200-203 | calls the toggle chosen by `ship_to_same_address` |
| Workflows.FillBillingForm | tests/helpers/utils.py:206-226 | the billing fields in source order, then Continue |
| Workflows.EnterBillingContact | tests/helpers/utils.py:206-208 | first name, last name and email, in that order |
| Workflows.EnterBillingPlace | tests/helpers/utils.py:209-213 | country, city, first address line, postal code and phone, in that order |
| Workflows.EnterBillingOptional | tests/helpers/utils.py:216-223 | company, state, second address line and fax, each only when truthy |
| Workflows.EnterBillingTextIfGiven | tests/helpers/utils.py:216-223 | an optional billing field is filled only when truthy |
| Workflows.SelectBillingStateIfGiven | tests/helpers/utils.py:218-219 | the billing state is chosen, by value, only when truthy |
| Workflows.BillingFormAvoidsToggle | tests/helpers/utils.py:205-226 | nothing after the toggle acts on the ship-to-same-address checkbox |
| Workflows.BillingPlaceAvoidsToggle | tests/helpers/utils.py:209-213 | the place fields do not act on the ship-to-same-address checkbox |
| Workflows.BillingOptionalAvoidsToggle | tests/helpers/utils.py:216-223 | the optional fields do not act on the ship-to-same-address checkbox |
| Workflows.BillingOptionalTouches | tests/helpers/utils.py:215-223 | the optional block acts on company, state, second address line and fax each exactly when its value is truthy, and on nothing else |
| Workflows.BillingRequiredAvoidsOptional | tests/helpers/utils.py:199-226 | the toggle, the required fields and Continue never act on an optional billing input |
| Workflows.BillingOnlyOptionalBlockTouches | tests/helpers/utils.py:199-226 | an optional billing input is acted on by the whole workflow exactly when the optional block acts on it |
| Workflows.BillingOptionalOnlyWhenTruthy | tests/helpers/utils.py:199-226 | `enter_billing_address` acts on the company, state, second address line and fax inputs exactly when those arguments are truthy, so an empty string counts as absent |
| Workflows.BillingTogglesOnce | tests/helpers/utils.py:200-203 | the checkbox is clicked at most once, only as the first call, and exactly when the chosen toggle's reported-state condition holds |
| Workflows.EnterShippingAddress | tests/helpers/utils.py:232-305 | as intended (see ## Findings): makes exactly the calls of `ShippingActions` for either branch, then Continue |
| Workflows.EnterShippingAddressAsWritten | tests/helpers/utils.py:276-305 | as written: the new-address branch makes the `ShippingActions` calls and ends done; the existing-address branch makes no call and raises `AttributeError` |
| Workflows.EnterNewShippingAddress | tests/helpers/utils.py:277-296 | "New Address", the required fields, then the truthy optional ones |
| Workflows.EnterShippingContact | tests/helpers/utils.py:278-281 | "New Address", then first name, last name and email |
| Workflows.EnterShippingPlace | tests/helpers/utils.py:282-286 | country, city, first address line, postal code and phone, in that order |
| Workflows.EnterShippingOptional | tests/helpers/utils.py:288-296 | company, state, second address line and fax, each only when truthy |
| Workflows.EnterShippingTextIfGiven | tests/helpers/utils.py:289-296 | an optional shipping field is filled only when truthy |
| Workflows.SelectShippingStateIfGiven | tests/helpers/utils.py:291-292 | the shipping state is chosen, by visible text, only when truthy |
| Workflows.ShippingAddressCases | tests/helpers/utils.py:276-302 | as intended (see ## Findings): the existing-address branch selects index 0 and clicks Continue, with nothing typed; the new-address branch starts with "New Address"; Continue is always last |
| Workflows.ShippingOptionalTouches | tests/helpers/utils.py:287-296 | the optional block acts on company, state, second address line and fax each exactly when its value is truthy, and on nothing else |
| Workflows.ShippingRequiredAvoidsOptional | tests/helpers/utils.py:276-302 | choosing the saved or a new address, the required fields and Continue never act on an optional shipping input |
| Workflows.ShippingOnlyOptionalBlockTouches | tests/helpers/utils.py:276-302 | an optional shipping input is acted on exactly when a new address is entered and its optional block acts on it |
| Workflows.ShippingOptionalOnlyWhenTruthy | tests/helpers/utils.py:276-302 | with a new address, the company, state, second address line and fax inputs are acted on exactly when those arguments are truthy; reusing the saved address acts on none of them |
| Workflows.ExistingAddressAsWrittenFails | tests/helpers/utils.py:297-302 | as written, reusing the saved address raises `AttributeError` before Continue is reached |
| Workflows.LoginUser | tests/helpers/utils.py:111-153 | makes exactly the calls of `LoginScript` and ends with its outcome |
| Workflows.LoginCases | tests/helpers/utils.py:135-151 | opens the login page first, types email then password, clicks "remember me" exactly when asked, submits last, and fails exactly when the logout link never shows |
| Workflows.SelectShippingMethod | tests/helpers/utils.py:308-348 | makes the calls and returns the outcome of the shipping-method dispatch |
| Workflows.ShippingMethodMapping | tests/helpers/utils.py:329-340 | the three names, in any case, click `shippingoption_2`, `shippingoption_3` or `shippingoption_1` and then Continue; any other name raises `ValueError` with no click |
| Workflows.CardDetailsClamped | tests/helpers/utils.py:388-396 | the card number sent has 18 characters and the code 3: a short input padded with '0', a long one cut |
| Workflows.SelectPaymentMethod | tests/helpers/utils.py:351-406 | makes the calls and returns the outcome of the payment dispatch |
| Workflows.EnterCardDetails | tests/helpers/utils.py:383-399 | the card branch in source order, with the clamped number and code |
| Workflows.EnterCardIdentity | tests/helpers/utils.py:384-390 | card radio, type, holder name and clamped number |
| Workflows.EnterCardValidity | tests/helpers/utils.py:392-399 | expiry month and year, clamped code, Continue |
| Workflows.PaymentMethodCases | tests/helpers/utils.py:383-406 | "card" types the clamped number and code; "cheque" or "cash" clicks its radio and both Continue buttons and types no card field; anything else raises `ValueError` with no click |
| Workflows.OpenCartEffect | tests/helpers/utils.py:654-656 | opening the cart makes no call exactly when the page is already on the cart URL, at most one call otherwise, and changes only the URL, to the cart's |
| Workflows.OpenCart | tests/helpers/utils.py:635-671 | navigates only when not already on the cart URL |
| Workflows.ListProductsInCart | tests/helpers/utils.py:674-686 | after opening the cart, the row names in order, or a timeout on an empty cart |
| Workflows.GetProductQuantity | tests/helpers/utils.py:689-702 | after opening the cart, the first exact match's quantity, or a timeout on an empty cart |
| Workflows.UpdateProductQuantityInCart | tests/helpers/utils.py:705-729 | opens the cart, makes the update calls, and ends as `UpdateOutcome` says |
| Workflows.ModifyAndCheckQuantity | tests/helpers/utils.py:719-725 | the update, then the check that the first matching row shows the new quantity |
| Workflows.UpdateQuantityCases | tests/helpers/utils.py:719-725 | the update succeeds exactly when some row carries the name; that row then shows `str(quantity)` and rows with other names are unchanged; an empty cart times out |
| Workflows.OpenThenRemoveCart | tests/helpers/utils.py:746-748 | opening the cart and removing leaves the cart without its first matching row |
| Workflows.RemoveProductFromCart | tests/helpers/utils.py:732-754 | as written: the removal calls, then a listing check that also times out on an emptied cart |
| Workflows.RemoveProductFromCartIntended | tests/helpers/utils.py:732-754 | the same calls; the check reads an emptied cart as listing no products |
| Workflows.RemoveIntendedCases | tests/helpers/utils.py:746-752 | with the intended check, removal succeeds exactly when the cart is non-empty and no two rows share the name |
| Workflows.RemoveAsWrittenCases | tests/helpers/utils.py:746-752 | as written, the outcome differs from the intended one exactly when the only row is the one removed, which times out |
| Workflows.RemoveOnlyProductTimesOut | tests/helpers/utils.py:746-752 | removing the only product times out as written and succeeds with the intended check |

## Left out

- Selenium waits are not modelled: each element wait is taken to succeed, and the trailing `until_not` / `invisibility_of_element_located` waits are dropped. The waits that decide an outcome are kept: the cart listing on an empty cart, the registration success text and the logout link. Those become outcomes or parameters.
- What the live site does with a submitted form is idealised: a quantity update shows the typed text, removal takes the row out, and navigation lands on the requested URL. For that reason the URL assertions in `open_cart` cannot fail here.
- `execute_script` scrolling, logging, `tests/conftest.py` fixtures and screenshots, and the test scenarios are not part of this model.
- The random product choice in the `add_*_to_cart` helpers, `confirm_order` and `checkout_from_cart` are not part of this model; nor are `tests/pages/products.py` and the confirm-order page object.
- The page methods that only click through navigation without any decision are not part of this model: `click_shopping_cart_page`, `click_terms_of_service`, `click_checkout`, `click_logout` and `get_field_validation_error`.
- Text.Lower: lower-cases ASCII letters only; Python's full Unicode case mapping is not modelled.
- Workflows.SelectPaymentMethod: card details are strings. Passing `None` for a card detail, which would make `ljust` raise, is not modelled.
- Browser.Step: a radio button is treated like any other element. Clicking one flips nothing unless it is listed among the page's checkboxes.
- BillingAddressPage.EnterText, ShippingAddressPage.EnterText, RegisterPage.EnterText, LoginPage.EnterText, PaymentMethodPage.EnterCardText: their `ensures` list the calls made. That the field then holds exactly the argument, and nothing else changes, is stated once for all of them, by Browser.FillSetsText and Browser.SetTextFrame.

## Findings

| source | as written | input that shows it | evidently intended | confidence | as-written member | corrected member |
|---|---|---|---|---|---|---|
| tests/pages/checkout.py:155-159 | `select_by_index(0)` is called on the element that the wait returns, which is a WebElement and not a `Select`, so it raises `AttributeError` | `enter_shipping_address(..., add_new_address=False)` | wrap the element in `Select` and pick index 0, then click Continue | not executed | ShippingAddressPage.SelectBillingAddressAsWritten, Workflows.EnterShippingAddressAsWritten, Workflows.ExistingAddressAsWrittenFails | ShippingAddressPage.SelectBillingAddress, Workflows.EnterShippingAddress |
| tests/helpers/utils.py:747-752 | the post-removal check calls `list_products_in_cart`, which waits for at least one product name, so removing the last row makes the check time out | a cart holding one row named "Fiction", removing "Fiction" | an emptied cart lists no products, so the check passes | not executed | Workflows.RemoveProductFromCart, Workflows.RemoveOnlyProductTimesOut, Workflows.RemoveAsWrittenCases | Workflows.RemoveProductFromCartIntended, Workflows.RemoveIntendedCases |
