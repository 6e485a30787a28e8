/** The text inputs shared by the billing and shipping address forms of
    the checkout (tests/pages/checkout.py). */
module CheckoutAddress {
  import opened Browser

  datatype AddressField =
    FirstName | LastName | Email | Company | City | Address1 | Address2 | ZipPostalCode | PhoneNumber | FaxNumber

  /** The part of an input's id after the form's prefix. */
  function Suffix(f: AddressField): string
  {
    match f
    case FirstName => "FirstName"
    case LastName => "LastName"
    case Email => "Email"
    case Company => "Company"
    case City => "City"
    case Address1 => "Address1"
    case Address2 => "Address2"
    case ZipPostalCode => "ZipPostalCode"
    case PhoneNumber => "PhoneNumber"
    case FaxNumber => "FaxNumber"
  }

  /** The input whose id is `prefix` followed by the field's suffix. */
  function PrefixedLocator(prefix: string, f: AddressField): Locator
  {
    Locator(Id, prefix + Suffix(f))
  }

  /** Within one form every setter writes to an input of its own. */
  lemma PrefixedLocatorInjective(prefix: string, f: AddressField, g: AddressField)
    requires f != g
    ensures PrefixedLocator(prefix, f) != PrefixedLocator(prefix, g)
  {
    assert (prefix + Suffix(f))[|prefix|..] == Suffix(f);
    assert (prefix + Suffix(g))[|prefix|..] == Suffix(g);
  }

  /** The country select of the form whose ids start with `prefix`. */
  function CountrySelectOf(prefix: string): Locator
  {
    Locator(Id, prefix + "CountryId")
  }

  /** The state select of the form whose ids start with `prefix`. */
  function StateSelectOf(prefix: string): Locator
  {
    Locator(Id, prefix + "StateProvinceId")
  }

  /** Neither select of a form shares its id with one of the form's text inputs. */
  lemma SelectsAreNotTextInputs(prefix: string, f: AddressField)
    ensures PrefixedLocator(prefix, f) != CountrySelectOf(prefix)
    ensures PrefixedLocator(prefix, f) != StateSelectOf(prefix)
  {
    assert (prefix + Suffix(f))[|prefix|..] == Suffix(f);
    assert (prefix + "CountryId")[|prefix|..] == "CountryId";
    assert (prefix + "StateProvinceId")[|prefix|..] == "StateProvinceId";
  }
}

/** The billing address step (`BillingAddress`). */
module BillingAddressPage {
  import opened Browser
  import opened CheckoutAddress

  const ShipToSameAddressCheckbox := Locator(CssSelector, ".section.ship-to-same-address")
  const Prefix := "BillingNewAddress_"
  const CountrySelect := CountrySelectOf(Prefix)
  const StateSelect := StateSelectOf(Prefix)
  const ContinueButton := Locator(CssSelector, ".new-address-next-step-button:not([disabled])")

  function FieldLocator(f: AddressField): Locator
  {
    PrefixedLocator(Prefix, f)
  }

  /** What `click_ship_to_same_address` does: click when the checkbox reports selected. */
  function ClickShipToSameAddressActions(s: PageState): seq<Action>
  {
    if Flag(s, ShipToSameAddressCheckbox) then [Click(ShipToSameAddressCheckbox)] else []
  }

  /** What `uncheck_ship_to_same_address` does: click when the checkbox reports not selected. */
  function UncheckShipToSameAddressActions(s: PageState): seq<Action>
  {
    if !Flag(s, ShipToSameAddressCheckbox) then [Click(ShipToSameAddressCheckbox)] else []
  }

  /** For any reported state exactly one of the two toggles clicks. On a page
      that has the checkbox, `click_ship_to_same_address` leaves it reporting
      not selected and `uncheck_ship_to_same_address` leaves it reporting
      selected; a second call of either then clicks nothing. */
  lemma ToggleCases(s: PageState)
    ensures (ClickShipToSameAddressActions(s) == []) != (UncheckShipToSameAddressActions(s) == [])
    ensures ShipToSameAddressCheckbox in s.checked ==>
      var after := Run(s, ClickShipToSameAddressActions(s));
      !Flag(after, ShipToSameAddressCheckbox) && ClickShipToSameAddressActions(after) == []
    ensures ShipToSameAddressCheckbox in s.checked ==>
      var after := Run(s, UncheckShipToSameAddressActions(s));
      Flag(after, ShipToSameAddressCheckbox) && UncheckShipToSameAddressActions(after) == []
  {
    var click := Click(ShipToSameAddressCheckbox);
    assert [click][1..] == [];
    assert Run(s, [click]) == Step(s, click) by {
      assert Run(Step(s, click), []) == Step(s, click);
    }
  }

  /** `click_ship_to_same_address`. */
  method ClickShipToSameAddress(b: Session)
    requires b.Valid()
    modifies b
    ensures b.Performed(ClickShipToSameAddressActions(old(b.state)))
  {
    if Flag(b.state, ShipToSameAddressCheckbox) {
      b.Perform(Click(ShipToSameAddressCheckbox));
    }
  }

  /** `uncheck_ship_to_same_address`. */
  method UncheckShipToSameAddress(b: Session)
    requires b.Valid()
    modifies b
    ensures b.Performed(UncheckShipToSameAddressActions(old(b.state)))
  {
    if !Flag(b.state, ShipToSameAddressCheckbox) {
      b.Perform(Click(ShipToSameAddressCheckbox));
    }
  }

  /** The `enter_*` setters: clear, then type, so the field ends up holding
      exactly `text` (`FillSetsText`). */
  method EnterText(b: Session, f: AddressField, text: string)
    requires b.Valid()
    modifies b
    ensures b.Performed(Fill(FieldLocator(f), text))
  {
    b.ClearAndType(FieldLocator(f), text);
  }

  /** `select_country`: by visible text. */
  method SelectCountry(b: Session, country: string)
    requires b.Valid()
    modifies b
    ensures b.Performed([Select(CountrySelect, ByVisibleText(country))])
  {
    b.Perform(Select(CountrySelect, ByVisibleText(country)));
  }

  /** `select_state`: by option value. */
  method SelectState(b: Session, state: string)
    requires b.Valid()
    modifies b
    ensures b.Performed([Select(StateSelect, ByValue(state))])
  {
    b.Perform(Select(StateSelect, ByValue(state)));
  }

  /** `click_continue`. */
  method ClickContinue(b: Session)
    requires b.Valid()
    modifies b
    ensures b.Performed([Click(ContinueButton)])
  {
    b.Perform(Click(ContinueButton));
  }
}

/** The shipping address step (`ShippingAddress`). */
module ShippingAddressPage {
  import opened Browser
  import opened CheckoutAddress

  const ShippingAddressSelect := Locator(Id, "shipping-address-select")
  const Prefix := "ShippingNewAddress_"
  const CountrySelect := CountrySelectOf(Prefix)
  const StateSelect := StateSelectOf(Prefix)
  const ContinueButton := Locator(XPath,
    "//span[@id='shipping-please-wait']/preceding-sibling::button[@class='button-1 new-address-next-step-button']")

  function FieldLocator(f: AddressField): Locator
  {
    PrefixedLocator(Prefix, f)
  }

  /** `select_billing_address` as written: it calls `select_by_index` on the
      element the wait returns, which is not a `Select`, so the call fails
      with `AttributeError` before any option is chosen. */
  method SelectBillingAddressAsWritten(b: Session) returns (r: Outcome)
    requires b.Valid()
    modifies b
    ensures b.Performed([])
    ensures r == Raised(AttributeError)
  {
    assert b.trace == old(b.trace) + [];
    return Raised(AttributeError);
  }

  /** `select_billing_address` as intended: picks the first saved address. */
  method SelectBillingAddress(b: Session)
    requires b.Valid()
    modifies b
    ensures b.Performed([Select(ShippingAddressSelect, ByIndex(0))])
  {
    b.Perform(Select(ShippingAddressSelect, ByIndex(0)));
  }

  /** `select_new_shipping_address`: the option whose text is "New Address". */
  method SelectNewShippingAddress(b: Session)
    requires b.Valid()
    modifies b
    ensures b.Performed([Select(ShippingAddressSelect, ByVisibleText("New Address"))])
  {
    b.Perform(Select(ShippingAddressSelect, ByVisibleText("New Address")));
  }

  /** The `enter_*` setters: clear, then type, so the field ends up holding
      exactly `text` (`FillSetsText`). */
  method EnterText(b: Session, f: AddressField, text: string)
    requires b.Valid()
    modifies b
    ensures b.Performed(Fill(FieldLocator(f), text))
  {
    b.ClearAndType(FieldLocator(f), text);
  }

  /** `select_country`: by visible text. */
  method SelectCountry(b: Session, country: string)
    requires b.Valid()
    modifies b
    ensures b.Performed([Select(CountrySelect, ByVisibleText(country))])
  {
    b.Perform(Select(CountrySelect, ByVisibleText(country)));
  }

  /** `select_state`: by visible text, unlike the billing form. */
  method SelectState(b: Session, state: string)
    requires b.Valid()
    modifies b
    ensures b.Performed([Select(StateSelect, ByVisibleText(state))])
  {
    b.Perform(Select(StateSelect, ByVisibleText(state)));
  }

  /** `click_continue`. */
  method ClickContinue(b: Session)
    requires b.Valid()
    modifies b
    ensures b.Performed([Click(ContinueButton)])
  {
    b.Perform(Click(ContinueButton));
  }
}

/** The shipping method step (`ShippingMethod`). */
module ShippingMethodPage {
  import opened Browser

  datatype ShippingOption = Ground | NextDayAir | SecondDayAir

  const ContinueButton := Locator(CssSelector, ".shipping-method-next-step-button")

  function RadioLocator(o: ShippingOption): Locator
  {
    match o
    case Ground => Locator(Id, "shippingoption_1")
    case NextDayAir => Locator(Id, "shippingoption_2")
    case SecondDayAir => Locator(Id, "shippingoption_3")
  }

  /** `select_ground_shipping_method`, `select_next_day_air_shipping_method`,
      `select_second_day_air_shipping_method`. */
  method SelectOption(b: Session, o: ShippingOption)
    requires b.Valid()
    modifies b
    ensures b.Performed([Click(RadioLocator(o))])
  {
    b.Perform(Click(RadioLocator(o)));
  }

  /** `click_continue`. */
  method ClickContinue(b: Session)
    requires b.Valid()
    modifies b
    ensures b.Performed([Click(ContinueButton)])
  {
    b.Perform(Click(ContinueButton));
  }
}

/** The payment method and payment information steps (`PaymentMethod`). */
module PaymentMethodPage {
  import opened Browser

  const CreditCardRadio := Locator(Id, "paymentmethod_1")
  const ChequeOrCashRadio := Locator(Id, "paymentmethod_0")
  const ContinueButton := Locator(CssSelector, ".payment-method-next-step-button")
  const ChequeOrCashContinueButton := Locator(CssSelector, ".payment-info-next-step-button")

  /** The selects of the card form, all chosen by option value. */
  datatype CardSelect = CardType | ExpiryMonth | ExpiryYear

  /** The text inputs of the card form. */
  datatype CardText = CardHolderName | CardNumber | CardCode

  function SelectLocator(c: CardSelect): Locator
  {
    match c
    case CardType => Locator(Id, "CreditCardType")
    case ExpiryMonth => Locator(Id, "ExpireMonth")
    case ExpiryYear => Locator(Id, "ExpireYear")
  }

  function TextLocator(c: CardText): Locator
  {
    match c
    case CardHolderName => Locator(Id, "CardholderName")
    case CardNumber => Locator(Id, "CardNumber")
    case CardCode => Locator(Id, "CardCode")
  }

  /** `select_credit_card_payment_method`. */
  method SelectCreditCard(b: Session)
    requires b.Valid()
    modifies b
    ensures b.Performed([Click(CreditCardRadio)])
  {
    b.Perform(Click(CreditCardRadio));
  }

  /** `select_cheque_or_cash_on_payment_method`. */
  method SelectChequeOrCash(b: Session)
    requires b.Valid()
    modifies b
    ensures b.Performed([Click(ChequeOrCashRadio)])
  {
    b.Perform(Click(ChequeOrCashRadio));
  }

  /** `click_continue_for_cheque_or_cash`. */
  method ClickContinueForChequeOrCash(b: Session)
    requires b.Valid()
    modifies b
    ensures b.Performed([Click(ChequeOrCashContinueButton)])
  {
    b.Perform(Click(ChequeOrCashContinueButton));
  }

  /** `select_card_type`, `select_card_expiry_month`, `select_card_expiry_year`. */
  method SelectCardOption(b: Session, c: CardSelect, value: string)
    requires b.Valid()
    modifies b
    ensures b.Performed([Select(SelectLocator(c), ByValue(value))])
  {
    b.Perform(Select(SelectLocator(c), ByValue(value)));
  }

  /** `enter_card_holder_name`, `enter_card_number`, `enter_card_code`: clear, then type, so the
      field ends up holding exactly `text` (`FillSetsText`). */
  method EnterCardText(b: Session, c: CardText, text: string)
    requires b.Valid()
    modifies b
    ensures b.Performed(Fill(TextLocator(c), text))
  {
    b.ClearAndType(TextLocator(c), text);
  }

  /** `click_continue`. */
  method ClickContinue(b: Session)
    requires b.Valid()
    modifies b
    ensures b.Performed([Click(ContinueButton)])
  {
    b.Perform(Click(ContinueButton));
  }
}
