/** The business workflows of tests/helpers/utils.py: each drives one or more
    page objects through a fixed sequence, fills optional fields only when
    they are given, and checks a postcondition. Every workflow method is tied
    to a script function that lists its driver calls and its outcome; the
    lemmas below state what those scripts promise. Each `if` block of a
    workflow is a method of its own here, so that every proof stays small. */
module Workflows {
  import opened Browser
  import Text
  import CartPage
  import RegisterPage
  import LoginPage
  import opened CheckoutAddress
  import BillingAddressPage
  import ShippingAddressPage
  import ShippingMethodPage
  import PaymentMethodPage

  /** Python truthiness of an optional string: given and not empty. */
  predicate Truthy(o: Option<string>)
  {
    o.Some? && o.value != ""
  }

  /** `if value: <clear and type value into l>`. */
  function OptionalFill(l: Locator, value: Option<string>): seq<Action>
  {
    if Truthy(value) then Fill(l, value.value) else []
  }

  /** An optional field is acted on only when its value is truthy, and then
      only that field is. */
  lemma OptionalFillTouches(l: Locator, value: Option<string>, m: Locator)
    ensures Touches(OptionalFill(l, value), m) <==> Truthy(value) && m == l
  {
    if Truthy(value) {
      FillTouches(l, value.value, m);
    }
  }

  /** Extending a trace in two steps is extending it by both parts at once. */
  lemma AppendAssociates(t: seq<Action>, p: seq<Action>, q: seq<Action>)
    ensures t + p + q == t + (p + q)
  {
  }

  // ---------------------------------------------------------------- register

  /** The arguments of `register_user`. */
  datatype Registration = Registration(
    firstName: string,
    lastName: string,
    email: string,
    password: string,
    confirmPassword: string,
    gender: Option<string>,
    dateOfBirth: Option<RegisterPage.Date>,
    companyName: Option<string>,
    subscribeNewsletter: bool)

  /** What the site shows after the form is submitted: the success text
      appeared while the browser was at `url`, or it never appeared before
      the wait ran out. */
  datatype RegistrationResponse = Confirmed(url: string) | NotConfirmed

  /** Following the register link and filling the two name fields. */
  function RegisterNameActions(u: Registration): seq<Action>
  {
    [Click(RegisterPage.RegisterPageButton)]
    + Fill(RegisterPage.FieldLocator(RegisterPage.FirstName), u.firstName)
    + Fill(RegisterPage.FieldLocator(RegisterPage.LastName), u.lastName)
  }

  /** Filling email, password and its confirmation. */
  function RegisterCredentialActions(u: Registration): seq<Action>
  {
    Fill(RegisterPage.FieldLocator(RegisterPage.Email), u.email)
    + Fill(RegisterPage.FieldLocator(RegisterPage.Password), u.password)
    + Fill(RegisterPage.FieldLocator(RegisterPage.ConfirmPassword), u.confirmPassword)
  }

  /** Opening the form and filling its five required fields, in order. */
  function RegisterRequiredActions(u: Registration): seq<Action>
  {
    RegisterNameActions(u) + RegisterCredentialActions(u)
  }

  /** `if gender: select_gender(gender)`. */
  function GenderIfGiven(gender: Option<string>): Script
  {
    if Truthy(gender) then RegisterPage.SelectGenderScript(gender.value) else Script([], Done)
  }

  /** `if date_of_birth: enter_date_of_birth(date_of_birth)`. */
  function DateOfBirthIfGiven(dateOfBirth: Option<RegisterPage.Date>): seq<Action>
  {
    if dateOfBirth.Some? then RegisterPage.DateOfBirthActions(dateOfBirth.value) else []
  }

  /** `if subscribe_newsletter: click_newsletter()`. */
  function NewsletterIfSubscribed(subscribe: bool): seq<Action>
  {
    if subscribe then [Click(RegisterPage.NewsletterCheckbox)] else []
  }

  /** The optional fields after gender: date of birth, company, newsletter. */
  function RegisterOptionalActions(u: Registration): seq<Action>
  {
    DateOfBirthIfGiven(u.dateOfBirth)
    + OptionalFill(RegisterPage.FieldLocator(RegisterPage.CompanyName), u.companyName)
    + NewsletterIfSubscribed(u.subscribeNewsletter)
  }

  /** What follows the click on Register. A timeout waiting for the success
      text is swallowed; success at a URL outside the registration pages is
      an assertion failure; otherwise Continue is clicked. */
  function ConfirmationScript(response: RegistrationResponse): Script
  {
    match response
    case NotConfirmed => Script([], Done)
    case Confirmed(url) =>
      if RegisterPage.Url <= url then Script([Click(RegisterPage.ContinueButton)], Done)
      else Script([], Raised(AssertionError))
  }

  /** Submitting the form and reacting to the site's answer. */
  function SubmitScript(response: RegistrationResponse): Script
  {
    Script([Click(RegisterPage.RegisterButton)] + ConfirmationScript(response).actions,
           ConfirmationScript(response).outcome)
  }

  /** What `register_user` does. An unrecognised gender stops it before any
      optional field is filled. */
  function RegisterScript(u: Registration, response: RegistrationResponse): Script
  {
    var gender := GenderIfGiven(u.gender);
    if gender.outcome.Raised? then
      Script(RegisterRequiredActions(u) + gender.actions, gender.outcome)
    else
      Script(RegisterRequiredActions(u) + gender.actions + RegisterTailActions(u, response),
             SubmitScript(response).outcome)
  }

  /** The optional blocks after gender, then submission. */
  function RegisterTailActions(u: Registration, response: RegistrationResponse): seq<Action>
  {
    RegisterOptionalActions(u) + SubmitScript(response).actions
  }

  /** `register_user`. */
  method RegisterUser(b: Session, u: Registration, response: RegistrationResponse) returns (r: Outcome)
    requires b.Valid()
    modifies b
    ensures b.Performed(RegisterScript(u, response).actions)
    ensures r == RegisterScript(u, response).outcome
  {
    EnterRegisterRequired(b, u);
    r := SelectGenderIfGiven(b, u.gender);
    ghost var done := RegisterRequiredActions(u) + GenderIfGiven(u.gender).actions;
    assert b.trace == old(b.trace) + done;
    if r.Raised? {
      RunAppend(b.start, old(b.trace), done);
      return;
    }
    r := FinishRegistration(b, u, response);
    ghost var tail := RegisterTailActions(u, response);
    AppendAssociates(old(b.trace), done, tail);
    RunAppend(b.start, old(b.trace), done + tail);
  }

  /** The five required fields, after following the register link. */
  method EnterRegisterRequired(b: Session, u: Registration)
    requires b.Valid()
    modifies b
    ensures b.Performed(RegisterRequiredActions(u))
  {
    EnterRegisterNames(b, u);
    EnterRegisterCredentials(b, u);
    RunAppend(b.start, old(b.trace), RegisterRequiredActions(u));
  }

  /** The optional blocks after gender, then submission. */
  method FinishRegistration(b: Session, u: Registration, response: RegistrationResponse) returns (r: Outcome)
    requires b.Valid()
    modifies b
    ensures b.Performed(RegisterTailActions(u, response))
    ensures r == SubmitScript(response).outcome
  {
    EnterRegisterOptional(b, u);
    r := SubmitRegistration(b, response);
    RunAppend(b.start, old(b.trace), RegisterTailActions(u, response));
  }

  /** `click_register_page()`, then the two name fields. */
  method EnterRegisterNames(b: Session, u: Registration)
    requires b.Valid()
    modifies b
    ensures b.Performed(RegisterNameActions(u))
  {
    RegisterPage.ClickRegisterPage(b);
    RegisterPage.EnterText(b, RegisterPage.FirstName, u.firstName);
    ghost var done := [Click(RegisterPage.RegisterPageButton)] + Fill(RegisterPage.FieldLocator(RegisterPage.FirstName), u.firstName);
    assert b.trace == old(b.trace) + done;
    RegisterPage.EnterText(b, RegisterPage.LastName, u.lastName);
    done := done + Fill(RegisterPage.FieldLocator(RegisterPage.LastName), u.lastName);
    assert b.trace == old(b.trace) + done;
    RunAppend(b.start, old(b.trace), done);
  }

  /** Email, password and confirmation. */
  method EnterRegisterCredentials(b: Session, u: Registration)
    requires b.Valid()
    modifies b
    ensures b.Performed(RegisterCredentialActions(u))
  {
    RegisterPage.EnterText(b, RegisterPage.Email, u.email);
    RegisterPage.EnterText(b, RegisterPage.Password, u.password);
    ghost var done := Fill(RegisterPage.FieldLocator(RegisterPage.Email), u.email)
      + Fill(RegisterPage.FieldLocator(RegisterPage.Password), u.password);
    assert b.trace == old(b.trace) + done;
    RegisterPage.EnterText(b, RegisterPage.ConfirmPassword, u.confirmPassword);
    done := done + Fill(RegisterPage.FieldLocator(RegisterPage.ConfirmPassword), u.confirmPassword);
    assert b.trace == old(b.trace) + done;
    RunAppend(b.start, old(b.trace), done);
  }

  /** `if gender: register_page.select_gender(gender)`. */
  method SelectGenderIfGiven(b: Session, gender: Option<string>) returns (r: Outcome)
    requires b.Valid()
    modifies b
    ensures b.Performed(GenderIfGiven(gender).actions)
    ensures r == GenderIfGiven(gender).outcome
  {
    r := Done;
    if Truthy(gender) {
      r := RegisterPage.SelectGender(b, gender.value);
    } else {
      assert b.trace == old(b.trace) + [];
    }
  }

  /** The date-of-birth, company and newsletter blocks, in that order. */
  method EnterRegisterOptional(b: Session, u: Registration)
    requires b.Valid()
    modifies b
    ensures b.Performed(RegisterOptionalActions(u))
  {
    if u.dateOfBirth.Some? {
      RegisterPage.EnterDateOfBirth(b, u.dateOfBirth.value);
    } else {
      assert b.trace == old(b.trace) + [];
    }
    ghost var done := DateOfBirthIfGiven(u.dateOfBirth);
    EnterRegisterCompanyIfGiven(b, u.companyName);
    done := done + OptionalFill(RegisterPage.FieldLocator(RegisterPage.CompanyName), u.companyName);
    assert b.trace == old(b.trace) + done;
    if u.subscribeNewsletter {
      RegisterPage.ClickNewsletter(b);
    }
    done := done + NewsletterIfSubscribed(u.subscribeNewsletter);
    assert b.trace == old(b.trace) + done;
    RunAppend(b.start, old(b.trace), done);
  }

  /** `if company_name: register_page.enter_company_name(company_name)`. */
  method EnterRegisterCompanyIfGiven(b: Session, companyName: Option<string>)
    requires b.Valid()
    modifies b
    ensures b.Performed(OptionalFill(RegisterPage.FieldLocator(RegisterPage.CompanyName), companyName))
  {
    if Truthy(companyName) {
      RegisterPage.EnterText(b, RegisterPage.CompanyName, companyName.value);
    } else {
      assert b.trace == old(b.trace) + [];
    }
  }

  /** `click_register()`, then the wait for the success text, the URL check
      and `click_continue()`. */
  method SubmitRegistration(b: Session, response: RegistrationResponse) returns (r: Outcome)
    requires b.Valid()
    modifies b
    ensures b.Performed(SubmitScript(response).actions)
    ensures r == SubmitScript(response).outcome
  {
    RegisterPage.ClickRegister(b);
    r := AwaitConfirmation(b, response);
    RunAppend(b.start, old(b.trace), SubmitScript(response).actions);
  }

  /** The wait for the success text, the URL check and `click_continue()`. */
  method AwaitConfirmation(b: Session, response: RegistrationResponse) returns (r: Outcome)
    requires b.Valid()
    modifies b
    ensures b.Performed(ConfirmationScript(response).actions)
    ensures r == ConfirmationScript(response).outcome
  {
    r := Done;
    match response {
      case NotConfirmed =>
        assert b.trace == old(b.trace) + [];
      case Confirmed(url) =>
        if RegisterPage.Url <= url {
          RegisterPage.ClickContinue(b);
        } else {
          r := Raised(AssertionError);
          assert b.trace == old(b.trace) + [];
        }
    }
  }

  /** The required part of the form acts on the register link and the five
      required inputs, and on nothing else. */
  lemma RegisterRequiredTouches(u: Registration, l: Locator)
    ensures Touches(RegisterRequiredActions(u), l) <==> l in RequiredRegisterInputs()
  {
    SingleTouches(Click(RegisterPage.RegisterPageButton), l);
    FillTouches(RegisterPage.FieldLocator(RegisterPage.FirstName), u.firstName, l);
    FillTouches(RegisterPage.FieldLocator(RegisterPage.LastName), u.lastName, l);
    FillTouches(RegisterPage.FieldLocator(RegisterPage.Email), u.email, l);
    FillTouches(RegisterPage.FieldLocator(RegisterPage.Password), u.password, l);
    FillTouches(RegisterPage.FieldLocator(RegisterPage.ConfirmPassword), u.confirmPassword, l);
    var head := [Click(RegisterPage.RegisterPageButton)];
    var first := Fill(RegisterPage.FieldLocator(RegisterPage.FirstName), u.firstName);
    var last := Fill(RegisterPage.FieldLocator(RegisterPage.LastName), u.lastName);
    var email := Fill(RegisterPage.FieldLocator(RegisterPage.Email), u.email);
    var password := Fill(RegisterPage.FieldLocator(RegisterPage.Password), u.password);
    var confirm := Fill(RegisterPage.FieldLocator(RegisterPage.ConfirmPassword), u.confirmPassword);
    TouchesAppend(head, first, l);
    TouchesAppend(head + first, last, l);
    TouchesAppend(email, password, l);
    TouchesAppend(email + password, confirm, l);
    TouchesAppend(RegisterNameActions(u), RegisterCredentialActions(u), l);
  }

  /** The register link and the inputs `register_user` always fills. */
  function RequiredRegisterInputs(): set<Locator>
  {
    {RegisterPage.RegisterPageButton,
     RegisterPage.FieldLocator(RegisterPage.FirstName), RegisterPage.FieldLocator(RegisterPage.LastName),
     RegisterPage.FieldLocator(RegisterPage.Email), RegisterPage.FieldLocator(RegisterPage.Password),
     RegisterPage.FieldLocator(RegisterPage.ConfirmPassword)}
  }

  /** The inputs `register_user` fills only on request. */
  function OptionalRegisterInputs(): set<Locator>
  {
    {RegisterPage.MaleGenderInput, RegisterPage.FemaleGenderInput,
     RegisterPage.DayOfBirthSelect, RegisterPage.MonthOfBirthSelect, RegisterPage.YearOfBirthSelect,
     RegisterPage.FieldLocator(RegisterPage.CompanyName), RegisterPage.NewsletterCheckbox}
  }

  /** `register_user` always opens the form and then fills first name, last
      name, email, password and confirmation, in that order, before anything else. */
  lemma RegisterFillsRequiredFirst(u: Registration, response: RegistrationResponse)
    ensures var acts := RegisterScript(u, response).actions;
      |acts| >= 11 && acts[..11] == RegisterRequiredActions(u)
      && acts[0] == Click(RegisterPage.RegisterPageButton)
      && acts[2] == SendKeys(RegisterPage.FieldLocator(RegisterPage.FirstName), u.firstName)
      && acts[10] == SendKeys(RegisterPage.FieldLocator(RegisterPage.ConfirmPassword), u.confirmPassword)
  {
    var acts := RegisterScript(u, response).actions;
    var required := RegisterRequiredActions(u);
    assert |required| == 11;
    assert acts[..11] == required;
  }

  /** An input outside the required part and the submit step is acted on by
      `register_user` only through the gender or the optional blocks. */
  lemma {:induction false} RegisterTouchesOptional(u: Registration, response: RegistrationResponse, l: Locator)
    requires l in OptionalRegisterInputs()
    ensures Touches(RegisterScript(u, response).actions, l) ==>
      Touches(GenderIfGiven(u.gender).actions, l) || Touches(RegisterOptionalActions(u), l)
  {
    RegisterRequiredTouches(u, l);
    assert !Touches(RegisterRequiredActions(u), l) by {
      assert l !in RequiredRegisterInputs();
    }
    var required := RegisterRequiredActions(u);
    var gender := GenderIfGiven(u.gender).actions;
    TouchesAppend(required, gender, l);
    if !GenderIfGiven(u.gender).outcome.Raised? {
      var submit := SubmitScript(response).actions;
      SubmitTouches(response, l);
      assert !Touches(submit, l);
      TouchesAppend(RegisterOptionalActions(u), submit, l);
      TouchesAppend(required + gender, RegisterTailActions(u, response), l);
    }
  }

  /** Submission acts on Register and, at most, on Continue. */
  lemma SubmitTouches(response: RegistrationResponse, l: Locator)
    ensures Touches(SubmitScript(response).actions, l) ==>
      l == RegisterPage.RegisterButton || l == RegisterPage.ContinueButton
  {
    SingleTouches(Click(RegisterPage.RegisterButton), l);
    SingleTouches(Click(RegisterPage.ContinueButton), l);
    TouchesAppend([Click(RegisterPage.RegisterButton)], ConfirmationScript(response).actions, l);
  }

  /** Gender, date of birth, company and newsletter are acted on only when
      they are truthy, so an empty string counts as absent. */
  lemma {:induction false} RegisterOptionalOnlyWhenTruthy(u: Registration, response: RegistrationResponse)
    ensures var acts := RegisterScript(u, response).actions;
      && (!Truthy(u.gender) ==>
            !Touches(acts, RegisterPage.MaleGenderInput) && !Touches(acts, RegisterPage.FemaleGenderInput))
      && (u.dateOfBirth.None? ==>
            && !Touches(acts, RegisterPage.DayOfBirthSelect)
            && !Touches(acts, RegisterPage.MonthOfBirthSelect)
            && !Touches(acts, RegisterPage.YearOfBirthSelect))
      && (!Truthy(u.companyName) ==> !Touches(acts, RegisterPage.FieldLocator(RegisterPage.CompanyName)))
      && (!u.subscribeNewsletter ==> !Touches(acts, RegisterPage.NewsletterCheckbox))
  {
    var company := RegisterPage.FieldLocator(RegisterPage.CompanyName);
    forall l | l in OptionalRegisterInputs()
      ensures Touches(RegisterScript(u, response).actions, l) ==>
        Touches(GenderIfGiven(u.gender).actions, l)
        || Touches(DateOfBirthIfGiven(u.dateOfBirth), l)
        || (Truthy(u.companyName) && l == company)
        || (u.subscribeNewsletter && l == RegisterPage.NewsletterCheckbox)
    {
      RegisterTouchesOptional(u, response, l);
      var dob := DateOfBirthIfGiven(u.dateOfBirth);
      var companyFill := OptionalFill(company, u.companyName);
      var news := NewsletterIfSubscribed(u.subscribeNewsletter);
      OptionalFillTouches(company, u.companyName, l);
      SingleTouches(Click(RegisterPage.NewsletterCheckbox), l);
      TouchesAppend(dob, companyFill, l);
      TouchesAppend(dob + companyFill, news, l);
    }
    if u.dateOfBirth.Some? {
      DateOfBirthTouches(u.dateOfBirth.value, RegisterPage.MaleGenderInput);
      DateOfBirthTouches(u.dateOfBirth.value, RegisterPage.FemaleGenderInput);
      DateOfBirthTouches(u.dateOfBirth.value, RegisterPage.FieldLocator(RegisterPage.CompanyName));
      DateOfBirthTouches(u.dateOfBirth.value, RegisterPage.NewsletterCheckbox);
    }
  }

  /** The date of birth goes to the three date selects and nowhere else. */
  lemma DateOfBirthTouches(d: RegisterPage.Date, l: Locator)
    ensures Touches(RegisterPage.DateOfBirthActions(d), l) <==>
      l == RegisterPage.DayOfBirthSelect || l == RegisterPage.MonthOfBirthSelect || l == RegisterPage.YearOfBirthSelect
  {
    var acts := RegisterPage.DateOfBirthActions(d);
    if l == RegisterPage.DayOfBirthSelect {
      assert Targets(acts[0], l);
    } else if l == RegisterPage.MonthOfBirthSelect {
      assert Targets(acts[1], l);
    } else if l == RegisterPage.YearOfBirthSelect {
      assert Targets(acts[2], l);
    }
  }

  /** If the success text never appears, `register_user` ends without an
      exception and never clicks Continue; if it appears at a URL outside the
      registration pages, the assertion fails and Continue is never clicked;
      otherwise Continue is clicked last, right after Register. */
  lemma RegisterConfirmationCases(u: Registration, url: string)
    requires !GenderIfGiven(u.gender).outcome.Raised?
    ensures RegisterScript(u, NotConfirmed).outcome == Done
    ensures !Touches(RegisterScript(u, NotConfirmed).actions, RegisterPage.ContinueButton)
    ensures !(RegisterPage.Url <= url) ==>
      && RegisterScript(u, Confirmed(url)).outcome == Raised(AssertionError)
      && !Touches(RegisterScript(u, Confirmed(url)).actions, RegisterPage.ContinueButton)
    ensures RegisterPage.Url <= url ==>
      && RegisterScript(u, Confirmed(url)).outcome == Done
      && var acts := RegisterScript(u, Confirmed(url)).actions;
         acts[|acts| - 2] == Click(RegisterPage.RegisterButton)
         && acts[|acts| - 1] == Click(RegisterPage.ContinueButton)
  {
    NoContinueWithoutConfirmation(u, NotConfirmed);
    if !(RegisterPage.Url <= url) {
      NoContinueWithoutConfirmation(u, Confirmed(url));
    }
  }

  /** When the site's answer leads to no click after Register, Continue is
      never acted on. */
  lemma NoContinueWithoutConfirmation(u: Registration, response: RegistrationResponse)
    requires !GenderIfGiven(u.gender).outcome.Raised?
    requires SubmitScript(response).actions == [Click(RegisterPage.RegisterButton)]
    ensures !Touches(RegisterScript(u, response).actions, RegisterPage.ContinueButton)
  {
    var c := RegisterPage.ContinueButton;
    RegisterFormAvoidsContinue(u);
    SingleTouches(Click(RegisterPage.RegisterButton), c);
    TouchesAppend(RegisterOptionalActions(u), SubmitScript(response).actions, c);
    TouchesAppend(RegisterRequiredActions(u) + GenderIfGiven(u.gender).actions, RegisterTailActions(u, response), c);
  }

  /** Until the site's answer, `register_user` does not act on Continue. */
  lemma RegisterFormAvoidsContinue(u: Registration)
    ensures !Touches(RegisterRequiredActions(u) + GenderIfGiven(u.gender).actions, RegisterPage.ContinueButton)
    ensures !Touches(RegisterOptionalActions(u), RegisterPage.ContinueButton)
  {
    var c := RegisterPage.ContinueButton;
    RegisterRequiredTouches(u, c);
    SingleTouches(Click(RegisterPage.MaleGenderInput), c);
    SingleTouches(Click(RegisterPage.FemaleGenderInput), c);
    TouchesAppend(RegisterRequiredActions(u), GenderIfGiven(u.gender).actions, c);
    var dob := DateOfBirthIfGiven(u.dateOfBirth);
    var company := OptionalFill(RegisterPage.FieldLocator(RegisterPage.CompanyName), u.companyName);
    if u.dateOfBirth.Some? {
      DateOfBirthTouches(u.dateOfBirth.value, c);
    }
    OptionalFillTouches(RegisterPage.FieldLocator(RegisterPage.CompanyName), u.companyName, c);
    SingleTouches(Click(RegisterPage.NewsletterCheckbox), c);
    TouchesAppend(dob, company, c);
    TouchesAppend(dob + company, NewsletterIfSubscribed(u.subscribeNewsletter), c);
  }

  // -------------------------------------------------------- billing address

  /** The arguments of `enter_billing_address` and `enter_shipping_address`. */
  datatype Address = Address(
    firstName: string,
    lastName: string,
    email: string,
    country: string,
    city: string,
    address1: string,
    zipCode: string,
    phoneNumber: string,
    company: Option<string>,
    state: Option<string>,
    address2: Option<string>,
    faxNumber: Option<string>)

  /** The ship-to-same-address toggle `enter_billing_address` calls. */
  function BillingToggleActions(s: PageState, shipToSameAddress: bool): seq<Action>
  {
    if shipToSameAddress then BillingAddressPage.ClickShipToSameAddressActions(s)
    else BillingAddressPage.UncheckShipToSameAddressActions(s)
  }

  /** First name, last name and email. */
  function BillingContactActions(a: Address): seq<Action>
  {
    Fill(BillingAddressPage.FieldLocator(FirstName), a.firstName)
    + Fill(BillingAddressPage.FieldLocator(LastName), a.lastName)
    + Fill(BillingAddressPage.FieldLocator(Email), a.email)
  }

  /** Country, city, first address line, postal code and phone number. */
  function BillingPlaceActions(a: Address): seq<Action>
  {
    [Select(BillingAddressPage.CountrySelect, ByVisibleText(a.country))]
    + Fill(BillingAddressPage.FieldLocator(City), a.city)
    + Fill(BillingAddressPage.FieldLocator(Address1), a.address1)
    + Fill(BillingAddressPage.FieldLocator(ZipPostalCode), a.zipCode)
    + Fill(BillingAddressPage.FieldLocator(PhoneNumber), a.phoneNumber)
  }

  /** `if state: billing_address.select_state(state)`, by option value. */
  function BillingStateIfGiven(state: Option<string>): seq<Action>
  {
    if Truthy(state) then [Select(BillingAddressPage.StateSelect, ByValue(state.value))] else []
  }

  /** The optional fields, each only when truthy. */
  function BillingOptionalActions(a: Address): seq<Action>
  {
    OptionalFill(BillingAddressPage.FieldLocator(Company), a.company)
    + BillingStateIfGiven(a.state)
    + OptionalFill(BillingAddressPage.FieldLocator(Address2), a.address2)
    + OptionalFill(BillingAddressPage.FieldLocator(FaxNumber), a.faxNumber)
  }

  /** Everything after the toggle: the form, then Continue. */
  function BillingFormActions(a: Address): seq<Action>
  {
    BillingContactActions(a) + BillingPlaceActions(a) + BillingOptionalActions(a)
    + [Click(BillingAddressPage.ContinueButton)]
  }

  /** What `enter_billing_address` does on a page in state `s`. */
  function BillingActions(s: PageState, a: Address, shipToSameAddress: bool): seq<Action>
  {
    BillingToggleActions(s, shipToSameAddress) + BillingFormActions(a)
  }

  /** `enter_billing_address`. */
  method EnterBillingAddress(b: Session, a: Address, shipToSameAddress: bool)
    requires b.Valid()
    modifies b
    ensures b.Performed(BillingActions(old(b.state), a, shipToSameAddress))
  {
    ToggleShipToSameAddress(b, shipToSameAddress);
    ghost var done := BillingToggleActions(old(b.state), shipToSameAddress);
    assert b.trace == old(b.trace) + done;
    FillBillingForm(b, a);
    done := done + BillingFormActions(a);
    assert b.trace == old(b.trace) + done;
    RunAppend(b.start, old(b.trace), done);
  }

  /** `click_ship_to_same_address()` or `uncheck_ship_to_same_address()`. */
  method ToggleShipToSameAddress(b: Session, shipToSameAddress: bool)
    requires b.Valid()
    modifies b
    ensures b.Performed(BillingToggleActions(old(b.state), shipToSameAddress))
  {
    if shipToSameAddress {
      BillingAddressPage.ClickShipToSameAddress(b);
    } else {
      BillingAddressPage.UncheckShipToSameAddress(b);
    }
  }

  /** The form of `enter_billing_address`, after the toggle. */
  method FillBillingForm(b: Session, a: Address)
    requires b.Valid()
    modifies b
    ensures b.Performed(BillingFormActions(a))
  {
    EnterBillingContact(b, a);
    EnterBillingPlace(b, a);
    ghost var done := BillingContactActions(a) + BillingPlaceActions(a);
    assert b.trace == old(b.trace) + done;
    EnterBillingOptional(b, a);
    done := done + BillingOptionalActions(a);
    assert b.trace == old(b.trace) + done;
    BillingAddressPage.ClickContinue(b);
    done := done + [Click(BillingAddressPage.ContinueButton)];
    assert b.trace == old(b.trace) + done;
    RunAppend(b.start, old(b.trace), done);
  }

  /** First name, last name and email. */
  method EnterBillingContact(b: Session, a: Address)
    requires b.Valid()
    modifies b
    ensures b.Performed(BillingContactActions(a))
  {
    BillingAddressPage.EnterText(b, FirstName, a.firstName);
    BillingAddressPage.EnterText(b, LastName, a.lastName);
    ghost var done := Fill(BillingAddressPage.FieldLocator(FirstName), a.firstName)
      + Fill(BillingAddressPage.FieldLocator(LastName), a.lastName);
    assert b.trace == old(b.trace) + done;
    BillingAddressPage.EnterText(b, Email, a.email);
    done := done + Fill(BillingAddressPage.FieldLocator(Email), a.email);
    assert b.trace == old(b.trace) + done;
    RunAppend(b.start, old(b.trace), done);
  }

  /** Country, city, first address line, postal code and phone number. */
  method EnterBillingPlace(b: Session, a: Address)
    requires b.Valid()
    modifies b
    ensures b.Performed(BillingPlaceActions(a))
  {
    BillingAddressPage.SelectCountry(b, a.country);
    BillingAddressPage.EnterText(b, City, a.city);
    ghost var done := [Select(BillingAddressPage.CountrySelect, ByVisibleText(a.country))]
      + Fill(BillingAddressPage.FieldLocator(City), a.city);
    assert b.trace == old(b.trace) + done;
    BillingAddressPage.EnterText(b, Address1, a.address1);
    done := done + Fill(BillingAddressPage.FieldLocator(Address1), a.address1);
    assert b.trace == old(b.trace) + done;
    BillingAddressPage.EnterText(b, ZipPostalCode, a.zipCode);
    done := done + Fill(BillingAddressPage.FieldLocator(ZipPostalCode), a.zipCode);
    assert b.trace == old(b.trace) + done;
    BillingAddressPage.EnterText(b, PhoneNumber, a.phoneNumber);
    done := done + Fill(BillingAddressPage.FieldLocator(PhoneNumber), a.phoneNumber);
    assert b.trace == old(b.trace) + done;
    RunAppend(b.start, old(b.trace), done);
  }

  /** Company, state, second address line and fax, each only when given. */
  method EnterBillingOptional(b: Session, a: Address)
    requires b.Valid()
    modifies b
    ensures b.Performed(BillingOptionalActions(a))
  {
    EnterBillingTextIfGiven(b, Company, a.company);
    SelectBillingStateIfGiven(b, a.state);
    ghost var done := OptionalFill(BillingAddressPage.FieldLocator(Company), a.company)
      + BillingStateIfGiven(a.state);
    assert b.trace == old(b.trace) + done;
    EnterBillingTextIfGiven(b, Address2, a.address2);
    done := done + OptionalFill(BillingAddressPage.FieldLocator(Address2), a.address2);
    assert b.trace == old(b.trace) + done;
    EnterBillingTextIfGiven(b, FaxNumber, a.faxNumber);
    done := done + OptionalFill(BillingAddressPage.FieldLocator(FaxNumber), a.faxNumber);
    assert b.trace == old(b.trace) + done;
    RunAppend(b.start, old(b.trace), done);
  }

  /** `if value: billing_address.enter_<field>(value)`. */
  method EnterBillingTextIfGiven(b: Session, f: AddressField, value: Option<string>)
    requires b.Valid()
    modifies b
    ensures b.Performed(OptionalFill(BillingAddressPage.FieldLocator(f), value))
  {
    if Truthy(value) {
      BillingAddressPage.EnterText(b, f, value.value);
    } else {
      assert b.trace == old(b.trace) + [];
    }
  }

  /** `if state: billing_address.select_state(state)`. */
  method SelectBillingStateIfGiven(b: Session, state: Option<string>)
    requires b.Valid()
    modifies b
    ensures b.Performed(BillingStateIfGiven(state))
  {
    if Truthy(state) {
      BillingAddressPage.SelectState(b, state.value);
    } else {
      assert b.trace == old(b.trace) + [];
    }
  }

  /** Nothing after the toggle acts on the ship-to-same-address checkbox. */
  lemma {:induction false} BillingFormAvoidsToggle(a: Address)
    ensures !Touches(BillingFormActions(a), BillingAddressPage.ShipToSameAddressCheckbox)
  {
    var cb := BillingAddressPage.ShipToSameAddressCheckbox;
    forall f: AddressField
      ensures BillingAddressPage.FieldLocator(f) != cb
    {
    }
    FillTouches(BillingAddressPage.FieldLocator(FirstName), a.firstName, cb);
    FillTouches(BillingAddressPage.FieldLocator(LastName), a.lastName, cb);
    FillTouches(BillingAddressPage.FieldLocator(Email), a.email, cb);
    TouchesAppend(Fill(BillingAddressPage.FieldLocator(FirstName), a.firstName),
                  Fill(BillingAddressPage.FieldLocator(LastName), a.lastName), cb);
    TouchesAppend(Fill(BillingAddressPage.FieldLocator(FirstName), a.firstName)
                  + Fill(BillingAddressPage.FieldLocator(LastName), a.lastName),
                  Fill(BillingAddressPage.FieldLocator(Email), a.email), cb);
    BillingPlaceAvoidsToggle(a);
    BillingOptionalAvoidsToggle(a);
    SingleTouches(Click(BillingAddressPage.ContinueButton), cb);
    TouchesAppend(BillingContactActions(a), BillingPlaceActions(a), cb);
    TouchesAppend(BillingContactActions(a) + BillingPlaceActions(a), BillingOptionalActions(a), cb);
    TouchesAppend(BillingContactActions(a) + BillingPlaceActions(a) + BillingOptionalActions(a),
                  [Click(BillingAddressPage.ContinueButton)], cb);
  }

  lemma BillingPlaceAvoidsToggle(a: Address)
    ensures !Touches(BillingPlaceActions(a), BillingAddressPage.ShipToSameAddressCheckbox)
  {
    var cb := BillingAddressPage.ShipToSameAddressCheckbox;
    var country := [Select(BillingAddressPage.CountrySelect, ByVisibleText(a.country))];
    var city := Fill(BillingAddressPage.FieldLocator(City), a.city);
    var line := Fill(BillingAddressPage.FieldLocator(Address1), a.address1);
    var zip := Fill(BillingAddressPage.FieldLocator(ZipPostalCode), a.zipCode);
    var phone := Fill(BillingAddressPage.FieldLocator(PhoneNumber), a.phoneNumber);
    SingleTouches(country[0], cb);
    FillTouches(BillingAddressPage.FieldLocator(City), a.city, cb);
    FillTouches(BillingAddressPage.FieldLocator(Address1), a.address1, cb);
    FillTouches(BillingAddressPage.FieldLocator(ZipPostalCode), a.zipCode, cb);
    FillTouches(BillingAddressPage.FieldLocator(PhoneNumber), a.phoneNumber, cb);
    TouchesAppend(country, city, cb);
    TouchesAppend(country + city, line, cb);
    TouchesAppend(country + city + line, zip, cb);
    TouchesAppend(country + city + line + zip, phone, cb);
  }

  lemma BillingOptionalAvoidsToggle(a: Address)
    ensures !Touches(BillingOptionalActions(a), BillingAddressPage.ShipToSameAddressCheckbox)
  {
    var cb := BillingAddressPage.ShipToSameAddressCheckbox;
    var company := OptionalFill(BillingAddressPage.FieldLocator(Company), a.company);
    var state := BillingStateIfGiven(a.state);
    var line := OptionalFill(BillingAddressPage.FieldLocator(Address2), a.address2);
    var fax := OptionalFill(BillingAddressPage.FieldLocator(FaxNumber), a.faxNumber);
    OptionalFillTouches(BillingAddressPage.FieldLocator(Company), a.company, cb);
    OptionalFillTouches(BillingAddressPage.FieldLocator(Address2), a.address2, cb);
    OptionalFillTouches(BillingAddressPage.FieldLocator(FaxNumber), a.faxNumber, cb);
    if Truthy(a.state) {
      SingleTouches(state[0], cb);
    }
    TouchesAppend(company, state, cb);
    TouchesAppend(company + state, line, cb);
    TouchesAppend(company + state + line, fax, cb);
  }

  /** The billing form clicks the ship-to-same-address checkbox at most once,
      and only as its first call: `click_ship_to_same_address` clicks it when
      it reports selected, `uncheck_ship_to_same_address` when it does not. */
  lemma {:induction false} BillingTogglesOnce(s: PageState, a: Address, shipToSameAddress: bool)
    ensures var acts := BillingActions(s, a, shipToSameAddress);
      && (forall k :: 1 <= k < |acts| ==> !Targets(acts[k], BillingAddressPage.ShipToSameAddressCheckbox))
      && (Targets(acts[0], BillingAddressPage.ShipToSameAddressCheckbox) <==>
            (if shipToSameAddress then Flag(s, BillingAddressPage.ShipToSameAddressCheckbox)
             else !Flag(s, BillingAddressPage.ShipToSameAddressCheckbox)))
  {
    var cb := BillingAddressPage.ShipToSameAddressCheckbox;
    var toggle := BillingToggleActions(s, shipToSameAddress);
    var rest := BillingFormActions(a);
    var acts := BillingActions(s, a, shipToSameAddress);
    assert |toggle| <= 1;
    assert |rest| > 0;
    BillingFormAvoidsToggle(a);
    forall k | 1 <= k < |acts|
      ensures !Targets(acts[k], cb)
    {
      assert acts[k] == rest[k - |toggle|];
    }
    if toggle == [] {
      assert acts[0] == rest[0];
    }
  }

  /** A call sequence made of four parts acts on an element exactly when one of the parts does. */
  lemma TouchesFour(p: seq<Action>, q: seq<Action>, r: seq<Action>, t: seq<Action>, l: Locator)
    ensures Touches(p + q + r + t, l) <==> Touches(p, l) || Touches(q, l) || Touches(r, l) || Touches(t, l)
  {
    TouchesAppend(p, q, l);
    TouchesAppend(p + q, r, l);
    TouchesAppend(p + q + r, t, l);
  }

  /** The billing inputs filled only on request: company, state, second
      address line and fax. */
  predicate BillingOptionalInput(l: Locator)
  {
    || l == BillingAddressPage.FieldLocator(Company)
    || l == BillingAddressPage.StateSelect
    || l == BillingAddressPage.FieldLocator(Address2)
    || l == BillingAddressPage.FieldLocator(FaxNumber)
  }

  /** The optional billing block acts on each optional input exactly when
      its value is truthy, and on nothing else. */
  lemma {:induction false} BillingOptionalTouches(a: Address, l: Locator)
    ensures Touches(BillingOptionalActions(a), l) <==>
      || (l == BillingAddressPage.FieldLocator(Company) && Truthy(a.company))
      || (l == BillingAddressPage.StateSelect && Truthy(a.state))
      || (l == BillingAddressPage.FieldLocator(Address2) && Truthy(a.address2))
      || (l == BillingAddressPage.FieldLocator(FaxNumber) && Truthy(a.faxNumber))
  {
    OptionalFillTouches(BillingAddressPage.FieldLocator(Company), a.company, l);
    OptionalFillTouches(BillingAddressPage.FieldLocator(Address2), a.address2, l);
    OptionalFillTouches(BillingAddressPage.FieldLocator(FaxNumber), a.faxNumber, l);
    if Truthy(a.state) {
      SingleTouches(Select(BillingAddressPage.StateSelect, ByValue(a.state.value)), l);
    }
    TouchesFour(OptionalFill(BillingAddressPage.FieldLocator(Company), a.company), BillingStateIfGiven(a.state),
                OptionalFill(BillingAddressPage.FieldLocator(Address2), a.address2),
                OptionalFill(BillingAddressPage.FieldLocator(FaxNumber), a.faxNumber), l);
  }

  /** The toggle, the contact fields, the place fields and Continue never
      act on an optional billing input. */
  lemma {:induction false} BillingRequiredAvoidsOptional(s: PageState, a: Address, shipToSameAddress: bool, l: Locator)
    requires BillingOptionalInput(l)
    ensures !Touches(BillingToggleActions(s, shipToSameAddress), l)
    ensures !Touches(BillingContactActions(a), l)
    ensures !Touches(BillingPlaceActions(a), l)
    ensures !Touches([Click(BillingAddressPage.ContinueButton)], l)
  {
    var prefix := BillingAddressPage.Prefix;
    forall f | f in {FirstName, LastName, Email, City, Address1, ZipPostalCode, PhoneNumber}
      ensures BillingAddressPage.FieldLocator(f) != l
    {
      SelectsAreNotTextInputs(prefix, f);
      PrefixedLocatorInjective(prefix, f, Company);
      PrefixedLocatorInjective(prefix, f, Address2);
      PrefixedLocatorInjective(prefix, f, FaxNumber);
    }
    SelectsAreNotTextInputs(prefix, Company);
    SelectsAreNotTextInputs(prefix, Address2);
    SelectsAreNotTextInputs(prefix, FaxNumber);
    var toggle := BillingToggleActions(s, shipToSameAddress);
    if toggle != [] {
      SingleTouches(toggle[0], l);
    }
    FillTouches(BillingAddressPage.FieldLocator(FirstName), a.firstName, l);
    FillTouches(BillingAddressPage.FieldLocator(LastName), a.lastName, l);
    FillTouches(BillingAddressPage.FieldLocator(Email), a.email, l);
    TouchesAppend(Fill(BillingAddressPage.FieldLocator(FirstName), a.firstName),
                  Fill(BillingAddressPage.FieldLocator(LastName), a.lastName), l);
    TouchesAppend(Fill(BillingAddressPage.FieldLocator(FirstName), a.firstName)
                  + Fill(BillingAddressPage.FieldLocator(LastName), a.lastName),
                  Fill(BillingAddressPage.FieldLocator(Email), a.email), l);
    var country := [Select(BillingAddressPage.CountrySelect, ByVisibleText(a.country))];
    SingleTouches(country[0], l);
    FillTouches(BillingAddressPage.FieldLocator(City), a.city, l);
    FillTouches(BillingAddressPage.FieldLocator(Address1), a.address1, l);
    FillTouches(BillingAddressPage.FieldLocator(ZipPostalCode), a.zipCode, l);
    FillTouches(BillingAddressPage.FieldLocator(PhoneNumber), a.phoneNumber, l);
    TouchesFour(country, Fill(BillingAddressPage.FieldLocator(City), a.city),
                Fill(BillingAddressPage.FieldLocator(Address1), a.address1),
                Fill(BillingAddressPage.FieldLocator(ZipPostalCode), a.zipCode), l);
    TouchesAppend(country + Fill(BillingAddressPage.FieldLocator(City), a.city)
                  + Fill(BillingAddressPage.FieldLocator(Address1), a.address1)
                  + Fill(BillingAddressPage.FieldLocator(ZipPostalCode), a.zipCode),
                  Fill(BillingAddressPage.FieldLocator(PhoneNumber), a.phoneNumber), l);
    SingleTouches(Click(BillingAddressPage.ContinueButton), l);
  }

  /** `enter_billing_address` acts on the company, state, second address
      line and fax inputs exactly when their values are truthy, so an empty
      string counts as absent. */
  lemma {:induction false} BillingOptionalOnlyWhenTruthy(s: PageState, a: Address, shipToSameAddress: bool)
    ensures var acts := BillingActions(s, a, shipToSameAddress);
      && (Touches(acts, BillingAddressPage.FieldLocator(Company)) <==> Truthy(a.company))
      && (Touches(acts, BillingAddressPage.StateSelect) <==> Truthy(a.state))
      && (Touches(acts, BillingAddressPage.FieldLocator(Address2)) <==> Truthy(a.address2))
      && (Touches(acts, BillingAddressPage.FieldLocator(FaxNumber)) <==> Truthy(a.faxNumber))
  {
    var prefix := BillingAddressPage.Prefix;
    PrefixedLocatorInjective(prefix, Company, Address2);
    PrefixedLocatorInjective(prefix, Company, FaxNumber);
    PrefixedLocatorInjective(prefix, Address2, FaxNumber);
    SelectsAreNotTextInputs(prefix, Company);
    SelectsAreNotTextInputs(prefix, Address2);
    SelectsAreNotTextInputs(prefix, FaxNumber);
    BillingOnlyOptionalBlockTouches(s, a, shipToSameAddress, BillingAddressPage.FieldLocator(Company));
    BillingOnlyOptionalBlockTouches(s, a, shipToSameAddress, BillingAddressPage.StateSelect);
    BillingOnlyOptionalBlockTouches(s, a, shipToSameAddress, BillingAddressPage.FieldLocator(Address2));
    BillingOnlyOptionalBlockTouches(s, a, shipToSameAddress, BillingAddressPage.FieldLocator(FaxNumber));
  }

  /** An optional billing input is acted on only through the optional block. */
  lemma {:induction false} BillingOnlyOptionalBlockTouches(s: PageState, a: Address, shipToSameAddress: bool, l: Locator)
    requires BillingOptionalInput(l)
    ensures Touches(BillingActions(s, a, shipToSameAddress), l) <==> Touches(BillingOptionalActions(a), l)
    ensures Touches(BillingOptionalActions(a), l) <==>
      || (l == BillingAddressPage.FieldLocator(Company) && Truthy(a.company))
      || (l == BillingAddressPage.StateSelect && Truthy(a.state))
      || (l == BillingAddressPage.FieldLocator(Address2) && Truthy(a.address2))
      || (l == BillingAddressPage.FieldLocator(FaxNumber) && Truthy(a.faxNumber))
  {
    BillingRequiredAvoidsOptional(s, a, shipToSameAddress, l);
    TouchesFour(BillingContactActions(a), BillingPlaceActions(a), BillingOptionalActions(a),
                [Click(BillingAddressPage.ContinueButton)], l);
    TouchesAppend(BillingToggleActions(s, shipToSameAddress), BillingFormActions(a), l);
    BillingOptionalTouches(a, l);
  }

  // ------------------------------------------------------- shipping address

  /** Choosing "New Address", then first name, last name and email. */
  function ShippingContactActions(a: Address): seq<Action>
  {
    [Select(ShippingAddressPage.ShippingAddressSelect, ByVisibleText("New Address"))]
    + Fill(ShippingAddressPage.FieldLocator(FirstName), a.firstName)
    + Fill(ShippingAddressPage.FieldLocator(LastName), a.lastName)
    + Fill(ShippingAddressPage.FieldLocator(Email), a.email)
  }

  /** Country, city, first address line, postal code and phone number. */
  function ShippingPlaceActions(a: Address): seq<Action>
  {
    [Select(ShippingAddressPage.CountrySelect, ByVisibleText(a.country))]
    + Fill(ShippingAddressPage.FieldLocator(City), a.city)
    + Fill(ShippingAddressPage.FieldLocator(Address1), a.address1)
    + Fill(ShippingAddressPage.FieldLocator(ZipPostalCode), a.zipCode)
    + Fill(ShippingAddressPage.FieldLocator(PhoneNumber), a.phoneNumber)
  }

  /** `if state: shipping_address.select_state(state)`, by visible text. */
  function ShippingStateIfGiven(state: Option<string>): seq<Action>
  {
    if Truthy(state) then [Select(ShippingAddressPage.StateSelect, ByVisibleText(state.value))] else []
  }

  /** The optional fields of a new address, each only when truthy. */
  function ShippingOptionalActions(a: Address): seq<Action>
  {
    OptionalFill(ShippingAddressPage.FieldLocator(Company), a.company)
    + ShippingStateIfGiven(a.state)
    + OptionalFill(ShippingAddressPage.FieldLocator(Address2), a.address2)
    + OptionalFill(ShippingAddressPage.FieldLocator(FaxNumber), a.faxNumber)
  }

  /** The new-address branch of `enter_shipping_address`. */
  function ShippingNewAddressActions(a: Address): seq<Action>
  {
    ShippingContactActions(a) + ShippingPlaceActions(a) + ShippingOptionalActions(a)
  }

  /** What `enter_shipping_address` does, with `select_billing_address`
      choosing the first saved address as intended. */
  function ShippingActions(a: Address, addNewAddress: bool): seq<Action>
  {
    (if addNewAddress then ShippingNewAddressActions(a)
     else [Select(ShippingAddressPage.ShippingAddressSelect, ByIndex(0))])
    + [Click(ShippingAddressPage.ContinueButton)]
  }

  /** `enter_shipping_address`. */
  method EnterShippingAddress(b: Session, a: Address, addNewAddress: bool)
    requires b.Valid()
    modifies b
    ensures b.Performed(ShippingActions(a, addNewAddress))
  {
    if addNewAddress {
      EnterNewShippingAddress(b, a);
    } else {
      ShippingAddressPage.SelectBillingAddress(b);
    }
    ShippingAddressPage.ClickContinue(b);
    RunAppend(b.start, old(b.trace), ShippingActions(a, addNewAddress));
  }

  /** The new-address branch of `enter_shipping_address`. */
  method EnterNewShippingAddress(b: Session, a: Address)
    requires b.Valid()
    modifies b
    ensures b.Performed(ShippingNewAddressActions(a))
  {
    EnterShippingContact(b, a);
    EnterShippingPlace(b, a);
    ghost var done := ShippingContactActions(a) + ShippingPlaceActions(a);
    assert b.trace == old(b.trace) + done;
    EnterShippingOptional(b, a);
    done := done + ShippingOptionalActions(a);
    assert b.trace == old(b.trace) + done;
    RunAppend(b.start, old(b.trace), done);
  }

  /** "New Address", then first name, last name and email. */
  method EnterShippingContact(b: Session, a: Address)
    requires b.Valid()
    modifies b
    ensures b.Performed(ShippingContactActions(a))
  {
    ShippingAddressPage.SelectNewShippingAddress(b);
    ShippingAddressPage.EnterText(b, FirstName, a.firstName);
    ghost var done := [Select(ShippingAddressPage.ShippingAddressSelect, ByVisibleText("New Address"))]
      + Fill(ShippingAddressPage.FieldLocator(FirstName), a.firstName);
    assert b.trace == old(b.trace) + done;
    ShippingAddressPage.EnterText(b, LastName, a.lastName);
    done := done + Fill(ShippingAddressPage.FieldLocator(LastName), a.lastName);
    assert b.trace == old(b.trace) + done;
    ShippingAddressPage.EnterText(b, Email, a.email);
    done := done + Fill(ShippingAddressPage.FieldLocator(Email), a.email);
    assert b.trace == old(b.trace) + done;
    RunAppend(b.start, old(b.trace), done);
  }

  /** Country, city, first address line, postal code and phone number. */
  method EnterShippingPlace(b: Session, a: Address)
    requires b.Valid()
    modifies b
    ensures b.Performed(ShippingPlaceActions(a))
  {
    ShippingAddressPage.SelectCountry(b, a.country);
    ShippingAddressPage.EnterText(b, City, a.city);
    ghost var done := [Select(ShippingAddressPage.CountrySelect, ByVisibleText(a.country))]
      + Fill(ShippingAddressPage.FieldLocator(City), a.city);
    assert b.trace == old(b.trace) + done;
    ShippingAddressPage.EnterText(b, Address1, a.address1);
    done := done + Fill(ShippingAddressPage.FieldLocator(Address1), a.address1);
    assert b.trace == old(b.trace) + done;
    ShippingAddressPage.EnterText(b, ZipPostalCode, a.zipCode);
    done := done + Fill(ShippingAddressPage.FieldLocator(ZipPostalCode), a.zipCode);
    assert b.trace == old(b.trace) + done;
    ShippingAddressPage.EnterText(b, PhoneNumber, a.phoneNumber);
    done := done + Fill(ShippingAddressPage.FieldLocator(PhoneNumber), a.phoneNumber);
    assert b.trace == old(b.trace) + done;
    RunAppend(b.start, old(b.trace), done);
  }

  /** Company, state, second address line and fax, each only when given. */
  method EnterShippingOptional(b: Session, a: Address)
    requires b.Valid()
    modifies b
    ensures b.Performed(ShippingOptionalActions(a))
  {
    EnterShippingTextIfGiven(b, Company, a.company);
    SelectShippingStateIfGiven(b, a.state);
    ghost var done := OptionalFill(ShippingAddressPage.FieldLocator(Company), a.company)
      + ShippingStateIfGiven(a.state);
    assert b.trace == old(b.trace) + done;
    EnterShippingTextIfGiven(b, Address2, a.address2);
    done := done + OptionalFill(ShippingAddressPage.FieldLocator(Address2), a.address2);
    assert b.trace == old(b.trace) + done;
    EnterShippingTextIfGiven(b, FaxNumber, a.faxNumber);
    done := done + OptionalFill(ShippingAddressPage.FieldLocator(FaxNumber), a.faxNumber);
    assert b.trace == old(b.trace) + done;
    RunAppend(b.start, old(b.trace), done);
  }

  /** `if value: shipping_address.enter_<field>(value)`. */
  method EnterShippingTextIfGiven(b: Session, f: AddressField, value: Option<string>)
    requires b.Valid()
    modifies b
    ensures b.Performed(OptionalFill(ShippingAddressPage.FieldLocator(f), value))
  {
    if Truthy(value) {
      ShippingAddressPage.EnterText(b, f, value.value);
    } else {
      assert b.trace == old(b.trace) + [];
    }
  }

  /** `if state: shipping_address.select_state(state)`. */
  method SelectShippingStateIfGiven(b: Session, state: Option<string>)
    requires b.Valid()
    modifies b
    ensures b.Performed(ShippingStateIfGiven(state))
  {
    if Truthy(state) {
      ShippingAddressPage.SelectState(b, state.value);
    } else {
      assert b.trace == old(b.trace) + [];
    }
  }

  /** Reusing the saved address picks its first option and types nothing;
      a new address picks "New Address" first. Either way Continue is clicked last. */
  lemma ShippingAddressCases(a: Address, addNewAddress: bool)
    ensures var acts := ShippingActions(a, addNewAddress);
      && acts[|acts| - 1] == Click(ShippingAddressPage.ContinueButton)
      && (!addNewAddress ==>
            acts == [Select(ShippingAddressPage.ShippingAddressSelect, ByIndex(0)),
                     Click(ShippingAddressPage.ContinueButton)])
      && (addNewAddress ==>
            acts[0] == Select(ShippingAddressPage.ShippingAddressSelect, ByVisibleText("New Address")))
  {
  }

  /** The shipping inputs filled only on request: company, state, second
      address line and fax. */
  predicate ShippingOptionalInput(l: Locator)
  {
    || l == ShippingAddressPage.FieldLocator(Company)
    || l == ShippingAddressPage.StateSelect
    || l == ShippingAddressPage.FieldLocator(Address2)
    || l == ShippingAddressPage.FieldLocator(FaxNumber)
  }

  /** The optional shipping block acts on each optional input exactly when
      its value is truthy, and on nothing else. */
  lemma {:induction false} ShippingOptionalTouches(a: Address, l: Locator)
    ensures Touches(ShippingOptionalActions(a), l) <==>
      || (l == ShippingAddressPage.FieldLocator(Company) && Truthy(a.company))
      || (l == ShippingAddressPage.StateSelect && Truthy(a.state))
      || (l == ShippingAddressPage.FieldLocator(Address2) && Truthy(a.address2))
      || (l == ShippingAddressPage.FieldLocator(FaxNumber) && Truthy(a.faxNumber))
  {
    OptionalFillTouches(ShippingAddressPage.FieldLocator(Company), a.company, l);
    OptionalFillTouches(ShippingAddressPage.FieldLocator(Address2), a.address2, l);
    OptionalFillTouches(ShippingAddressPage.FieldLocator(FaxNumber), a.faxNumber, l);
    if Truthy(a.state) {
      SingleTouches(Select(ShippingAddressPage.StateSelect, ByVisibleText(a.state.value)), l);
    }
    TouchesFour(OptionalFill(ShippingAddressPage.FieldLocator(Company), a.company), ShippingStateIfGiven(a.state),
                OptionalFill(ShippingAddressPage.FieldLocator(Address2), a.address2),
                OptionalFill(ShippingAddressPage.FieldLocator(FaxNumber), a.faxNumber), l);
  }

  /** The address choice, the contact fields, the place fields and Continue
      never act on an optional shipping input. */
  lemma {:induction false} ShippingRequiredAvoidsOptional(a: Address, l: Locator)
    requires ShippingOptionalInput(l)
    ensures !Touches([Select(ShippingAddressPage.ShippingAddressSelect, ByIndex(0))], l)
    ensures !Touches(ShippingContactActions(a), l)
    ensures !Touches(ShippingPlaceActions(a), l)
    ensures !Touches([Click(ShippingAddressPage.ContinueButton)], l)
  {
    var prefix := ShippingAddressPage.Prefix;
    forall f | f in {FirstName, LastName, Email, City, Address1, ZipPostalCode, PhoneNumber}
      ensures ShippingAddressPage.FieldLocator(f) != l
    {
      SelectsAreNotTextInputs(prefix, f);
      PrefixedLocatorInjective(prefix, f, Company);
      PrefixedLocatorInjective(prefix, f, Address2);
      PrefixedLocatorInjective(prefix, f, FaxNumber);
    }
    SelectsAreNotTextInputs(prefix, Company);
    SelectsAreNotTextInputs(prefix, Address2);
    SelectsAreNotTextInputs(prefix, FaxNumber);
    var saved := Select(ShippingAddressPage.ShippingAddressSelect, ByIndex(0));
    var newAddress := [Select(ShippingAddressPage.ShippingAddressSelect, ByVisibleText("New Address"))];
    SingleTouches(saved, l);
    SingleTouches(newAddress[0], l);
    FillTouches(ShippingAddressPage.FieldLocator(FirstName), a.firstName, l);
    FillTouches(ShippingAddressPage.FieldLocator(LastName), a.lastName, l);
    FillTouches(ShippingAddressPage.FieldLocator(Email), a.email, l);
    TouchesFour(newAddress, Fill(ShippingAddressPage.FieldLocator(FirstName), a.firstName),
                Fill(ShippingAddressPage.FieldLocator(LastName), a.lastName),
                Fill(ShippingAddressPage.FieldLocator(Email), a.email), l);
    var country := [Select(ShippingAddressPage.CountrySelect, ByVisibleText(a.country))];
    SingleTouches(country[0], l);
    FillTouches(ShippingAddressPage.FieldLocator(City), a.city, l);
    FillTouches(ShippingAddressPage.FieldLocator(Address1), a.address1, l);
    FillTouches(ShippingAddressPage.FieldLocator(ZipPostalCode), a.zipCode, l);
    FillTouches(ShippingAddressPage.FieldLocator(PhoneNumber), a.phoneNumber, l);
    TouchesFour(country, Fill(ShippingAddressPage.FieldLocator(City), a.city),
                Fill(ShippingAddressPage.FieldLocator(Address1), a.address1),
                Fill(ShippingAddressPage.FieldLocator(ZipPostalCode), a.zipCode), l);
    TouchesAppend(country + Fill(ShippingAddressPage.FieldLocator(City), a.city)
                  + Fill(ShippingAddressPage.FieldLocator(Address1), a.address1)
                  + Fill(ShippingAddressPage.FieldLocator(ZipPostalCode), a.zipCode),
                  Fill(ShippingAddressPage.FieldLocator(PhoneNumber), a.phoneNumber), l);
    SingleTouches(Click(ShippingAddressPage.ContinueButton), l);
  }

  /** An optional shipping input is acted on only through the optional
      block, and only when a new address is entered. */
  lemma {:induction false} ShippingOnlyOptionalBlockTouches(a: Address, addNewAddress: bool, l: Locator)
    requires ShippingOptionalInput(l)
    ensures Touches(ShippingActions(a, addNewAddress), l) <==>
      addNewAddress && Touches(ShippingOptionalActions(a), l)
    ensures Touches(ShippingOptionalActions(a), l) <==>
      || (l == ShippingAddressPage.FieldLocator(Company) && Truthy(a.company))
      || (l == ShippingAddressPage.StateSelect && Truthy(a.state))
      || (l == ShippingAddressPage.FieldLocator(Address2) && Truthy(a.address2))
      || (l == ShippingAddressPage.FieldLocator(FaxNumber) && Truthy(a.faxNumber))
  {
    ShippingRequiredAvoidsOptional(a, l);
    var choice := if addNewAddress then ShippingNewAddressActions(a)
                  else [Select(ShippingAddressPage.ShippingAddressSelect, ByIndex(0))];
    TouchesAppend(choice, [Click(ShippingAddressPage.ContinueButton)], l);
    TouchesAppend(ShippingContactActions(a), ShippingPlaceActions(a), l);
    TouchesAppend(ShippingContactActions(a) + ShippingPlaceActions(a), ShippingOptionalActions(a), l);
    ShippingOptionalTouches(a, l);
  }

  /** With a new address, `enter_shipping_address` acts on the company,
      state, second address line and fax inputs exactly when their values
      are truthy; reusing the saved address acts on none of them. */
  lemma {:induction false} ShippingOptionalOnlyWhenTruthy(a: Address, addNewAddress: bool)
    ensures var acts := ShippingActions(a, addNewAddress);
      && (Touches(acts, ShippingAddressPage.FieldLocator(Company)) <==> addNewAddress && Truthy(a.company))
      && (Touches(acts, ShippingAddressPage.StateSelect) <==> addNewAddress && Truthy(a.state))
      && (Touches(acts, ShippingAddressPage.FieldLocator(Address2)) <==> addNewAddress && Truthy(a.address2))
      && (Touches(acts, ShippingAddressPage.FieldLocator(FaxNumber)) <==> addNewAddress && Truthy(a.faxNumber))
  {
    var prefix := ShippingAddressPage.Prefix;
    PrefixedLocatorInjective(prefix, Company, Address2);
    PrefixedLocatorInjective(prefix, Company, FaxNumber);
    PrefixedLocatorInjective(prefix, Address2, FaxNumber);
    SelectsAreNotTextInputs(prefix, Company);
    SelectsAreNotTextInputs(prefix, Address2);
    SelectsAreNotTextInputs(prefix, FaxNumber);
    ShippingOnlyOptionalBlockTouches(a, addNewAddress, ShippingAddressPage.FieldLocator(Company));
    ShippingOnlyOptionalBlockTouches(a, addNewAddress, ShippingAddressPage.StateSelect);
    ShippingOnlyOptionalBlockTouches(a, addNewAddress, ShippingAddressPage.FieldLocator(Address2));
    ShippingOnlyOptionalBlockTouches(a, addNewAddress, ShippingAddressPage.FieldLocator(FaxNumber));
  }

  /** What `enter_shipping_address` does as written: with `add_new_address`
      false it calls `select_billing_address`, which raises `AttributeError`. */
  function ShippingScriptAsWritten(a: Address, addNewAddress: bool): Script
  {
    if addNewAddress then Script(ShippingActions(a, true), Done)
    else Script([], Raised(AttributeError))
  }

  /** `enter_shipping_address`, as written. */
  method EnterShippingAddressAsWritten(b: Session, a: Address, addNewAddress: bool) returns (r: Outcome)
    requires b.Valid()
    modifies b
    ensures b.Performed(ShippingScriptAsWritten(a, addNewAddress).actions)
    ensures r == ShippingScriptAsWritten(a, addNewAddress).outcome
  {
    if !addNewAddress {
      // the error propagates, so Continue is never reached
      r := ShippingAddressPage.SelectBillingAddressAsWritten(b);
      return;
    }
    EnterNewShippingAddress(b, a);
    ShippingAddressPage.ClickContinue(b);
    RunAppend(b.start, old(b.trace), ShippingActions(a, true));
    return Done;
  }

  /** As written, reusing the saved address always fails before Continue is
      clicked, where the intended code selects that address and continues. */
  lemma ExistingAddressAsWrittenFails(a: Address)
    ensures ShippingScriptAsWritten(a, false).outcome == Raised(AttributeError)
    ensures !Touches(ShippingScriptAsWritten(a, false).actions, ShippingAddressPage.ContinueButton)
    ensures Touches(ShippingActions(a, false), ShippingAddressPage.ContinueButton)
  {
    assert Targets(ShippingActions(a, false)[1], ShippingAddressPage.ContinueButton);
  }

  // ------------------------------------------------------------------- login

  /** What `login_user` does; `logoutShown` is whether the logout link became
      visible before the wait ran out. */
  function LoginScript(email: string, password: string, rememberMe: bool, logoutShown: bool): Script
  {
    Script(
      [Navigate(LoginPage.Url)]
      + Fill(LoginPage.EmailTextbox, email)
      + Fill(LoginPage.PasswordTextbox, password)
      + (if rememberMe then [Click(LoginPage.RememberMeCheckbox)] else [])
      + [Click(LoginPage.LoginButton)],
      if logoutShown then Done else Raised(Timeout))
  }

  /** `login_user`. */
  method LoginUser(b: Session, email: string, password: string, rememberMe: bool, logoutShown: bool)
    returns (r: Outcome)
    requires b.Valid()
    modifies b
    ensures b.Performed(LoginScript(email, password, rememberMe, logoutShown).actions)
    ensures r == LoginScript(email, password, rememberMe, logoutShown).outcome
  {
    LoginPage.Open(b);
    ghost var done: seq<Action> := [Navigate(LoginPage.Url)];
    LoginPage.EnterText(b, LoginPage.EmailTextbox, email);
    done := done + Fill(LoginPage.EmailTextbox, email);
    assert b.trace == old(b.trace) + done;
    LoginPage.EnterText(b, LoginPage.PasswordTextbox, password);
    done := done + Fill(LoginPage.PasswordTextbox, password);
    assert b.trace == old(b.trace) + done;
    if rememberMe {
      LoginPage.ClickRememberMe(b);
    }
    done := done + (if rememberMe then [Click(LoginPage.RememberMeCheckbox)] else []);
    assert b.trace == old(b.trace) + done;
    LoginPage.ClickLogin(b);
    done := done + [Click(LoginPage.LoginButton)];
    assert b.trace == old(b.trace) + done;
    r := if logoutShown then Done else Raised(Timeout);
    assert done == LoginScript(email, password, rememberMe, logoutShown).actions;
    RunAppend(b.start, old(b.trace), done);
  }

  /** Login opens the login page first, types the email before the password,
      ticks "remember me" only when asked, submits last, and fails only when
      the logout link never shows. */
  lemma LoginCases(email: string, password: string, rememberMe: bool, logoutShown: bool)
    ensures var s := LoginScript(email, password, rememberMe, logoutShown);
      && s.actions[0] == Navigate(LoginPage.Url)
      && s.actions[1..5] == Fill(LoginPage.EmailTextbox, email) + Fill(LoginPage.PasswordTextbox, password)
      && s.actions[|s.actions| - 1] == Click(LoginPage.LoginButton)
      && (Touches(s.actions, LoginPage.RememberMeCheckbox) <==> rememberMe)
      && (s.outcome == Done <==> logoutShown)
  {
    var s := LoginScript(email, password, rememberMe, logoutShown);
    var head := [Navigate(LoginPage.Url)] + Fill(LoginPage.EmailTextbox, email) + Fill(LoginPage.PasswordTextbox, password);
    var remember := if rememberMe then [Click(LoginPage.RememberMeCheckbox)] else [];
    var l := LoginPage.RememberMeCheckbox;
    TouchesAppend(head, remember, l);
    TouchesAppend(head + remember, [Click(LoginPage.LoginButton)], l);
    if rememberMe {
      assert Targets(remember[0], l);
    }
  }

  // -------------------------------------------------------- shipping method

  /** `method_mapping.get(shipping_method.lower())`. */
  function ShippingOptionFor(shippingMethod: string): Option<ShippingMethodPage.ShippingOption>
  {
    var key := Text.Lower(shippingMethod);
    if key == "next day" then Some(ShippingMethodPage.NextDayAir)
    else if key == "2nd day" then Some(ShippingMethodPage.SecondDayAir)
    else if key == "ground" then Some(ShippingMethodPage.Ground)
    else None
  }

  /** What `select_shipping_method` does. */
  function ShippingMethodScript(shippingMethod: string): Script
  {
    match ShippingOptionFor(shippingMethod)
    case None => Script([], Raised(ValueError))
    case Some(o) =>
      Script([Click(ShippingMethodPage.RadioLocator(o)), Click(ShippingMethodPage.ContinueButton)], Done)
  }

  /** `select_shipping_method`. */
  method SelectShippingMethod(b: Session, shippingMethod: string) returns (r: Outcome)
    requires b.Valid()
    modifies b
    ensures b.Performed(ShippingMethodScript(shippingMethod).actions)
    ensures r == ShippingMethodScript(shippingMethod).outcome
  {
    var selected := ShippingOptionFor(shippingMethod);
    if selected.None? {
      return Raised(ValueError);
    }
    ShippingMethodPage.SelectOption(b, selected.value);
    ShippingMethodPage.ClickContinue(b);
    RunAppend(b.start, old(b.trace), ShippingMethodScript(shippingMethod).actions);
    return Done;
  }

  /** The three names, in any letter case, click the radio with the id the
      page defines for them and then Continue; any other name raises
      `ValueError` before anything is clicked. */
  lemma ShippingMethodMapping(shippingMethod: string)
    ensures ShippingMethodScript(shippingMethod) == ShippingMethodScript(Text.Lower(shippingMethod))
    ensures var key := Text.Lower(shippingMethod); var s := ShippingMethodScript(shippingMethod);
      && (key == "next day" ==> s.outcome == Done && s.actions[0] == Click(Locator(Id, "shippingoption_2")))
      && (key == "2nd day" ==> s.outcome == Done && s.actions[0] == Click(Locator(Id, "shippingoption_3")))
      && (key == "ground" ==> s.outcome == Done && s.actions[0] == Click(Locator(Id, "shippingoption_1")))
      && (s.outcome == Done ==> |s.actions| == 2 && s.actions[1] == Click(ShippingMethodPage.ContinueButton))
      && (key != "next day" && key != "2nd day" && key != "ground" <==> s.outcome == Raised(ValueError))
      && (s.outcome.Raised? ==> s.actions == [])
  {
    Text.LowerIdempotent(shippingMethod);
  }

  // --------------------------------------------------------- payment method

  /** The card details `select_payment_method` uses when paying by card. */
  datatype CardDetails = CardDetails(
    cardType: string,
    holderName: string,
    number: string,
    expirationMonth: string,
    expirationYear: string,
    code: string)

  /** The card number as typed: padded with '0' and cut to 18 characters. */
  function CardNumberSent(number: string): string
  {
    Text.PadTruncate(number, 18, '0')
  }

  /** The card code as typed: padded with '0' and cut to 3 characters. */
  function CardCodeSent(code: string): string
  {
    Text.PadTruncate(code, 3, '0')
  }

  /** The card number sent is exactly 18 characters: the input followed by
      '0's when it is at most 18 long, its first 18 characters otherwise.
      The card code obeys the same rule with 3. */
  lemma CardDetailsClamped(number: string, code: string)
    ensures |CardNumberSent(number)| == 18 && |CardCodeSent(code)| == 3
    ensures |number| <= 18 ==>
      number <= CardNumberSent(number) && forall i :: |number| <= i < 18 ==> CardNumberSent(number)[i] == '0'
    ensures |number| >= 18 ==> CardNumberSent(number) == number[..18]
    ensures |code| <= 3 ==>
      code <= CardCodeSent(code) && forall i :: |code| <= i < 3 ==> CardCodeSent(code)[i] == '0'
    ensures |code| >= 3 ==> CardCodeSent(code) == code[..3]
  {
    Text.PadTruncateShape(number, 18, '0');
    Text.PadTruncateShape(code, 3, '0');
  }

  /** Choosing the card radio, then type, holder name and number. */
  function CardIdentityActions(card: CardDetails): seq<Action>
  {
    [ Click(PaymentMethodPage.CreditCardRadio),
      Select(PaymentMethodPage.SelectLocator(PaymentMethodPage.CardType), ByValue(card.cardType)) ]
    + Fill(PaymentMethodPage.TextLocator(PaymentMethodPage.CardHolderName), card.holderName)
    + Fill(PaymentMethodPage.TextLocator(PaymentMethodPage.CardNumber), CardNumberSent(card.number))
  }

  /** Expiry month and year, the card code, then Continue. */
  function CardValidityActions(card: CardDetails): seq<Action>
  {
    [ Select(PaymentMethodPage.SelectLocator(PaymentMethodPage.ExpiryMonth), ByValue(card.expirationMonth)),
      Select(PaymentMethodPage.SelectLocator(PaymentMethodPage.ExpiryYear), ByValue(card.expirationYear)) ]
    + Fill(PaymentMethodPage.TextLocator(PaymentMethodPage.CardCode), CardCodeSent(card.code))
    + [ Click(PaymentMethodPage.ContinueButton) ]
  }

  /** The card form, as `select_payment_method` fills it. */
  function CardActions(card: CardDetails): seq<Action>
  {
    CardIdentityActions(card) + CardValidityActions(card)
  }

  /** The cheque-or-cash path: radio, Continue, then the payment-info Continue. */
  const ChequeOrCashActions := [
    Click(PaymentMethodPage.ChequeOrCashRadio),
    Click(PaymentMethodPage.ContinueButton),
    Click(PaymentMethodPage.ChequeOrCashContinueButton) ]

  /** What `select_payment_method` does. */
  function PaymentMethodScript(paymentMethod: string, card: CardDetails): Script
  {
    var key := Text.Lower(paymentMethod);
    if key == "card" then Script(CardActions(card), Done)
    else if key == "cheque" || key == "cash" then Script(ChequeOrCashActions, Done)
    else Script([], Raised(ValueError))
  }

  /** `select_payment_method`. */
  method SelectPaymentMethod(b: Session, paymentMethod: string, card: CardDetails) returns (r: Outcome)
    requires b.Valid()
    modifies b
    ensures b.Performed(PaymentMethodScript(paymentMethod, card).actions)
    ensures r == PaymentMethodScript(paymentMethod, card).outcome
  {
    var key := Text.Lower(paymentMethod);
    if key == "card" {
      EnterCardDetails(b, card);
    } else if key == "cheque" || key == "cash" {
      PaymentMethodPage.SelectChequeOrCash(b);
      PaymentMethodPage.ClickContinue(b);
      PaymentMethodPage.ClickContinueForChequeOrCash(b);
      assert b.trace == old(b.trace) + ChequeOrCashActions;
      RunAppend(b.start, old(b.trace), ChequeOrCashActions);
    } else {
      return Raised(ValueError);
    }
    return Done;
  }

  /** The card branch of `select_payment_method`. */
  method EnterCardDetails(b: Session, card: CardDetails)
    requires b.Valid()
    modifies b
    ensures b.Performed(CardActions(card))
  {
    EnterCardIdentity(b, card);
    EnterCardValidity(b, card);
    RunAppend(b.start, old(b.trace), CardActions(card));
  }

  /** Card radio, type, holder name and the clamped number. */
  method EnterCardIdentity(b: Session, card: CardDetails)
    requires b.Valid()
    modifies b
    ensures b.Performed(CardIdentityActions(card))
  {
    PaymentMethodPage.SelectCreditCard(b);
    PaymentMethodPage.SelectCardOption(b, PaymentMethodPage.CardType, card.cardType);
    ghost var done := [Click(PaymentMethodPage.CreditCardRadio),
                       Select(PaymentMethodPage.SelectLocator(PaymentMethodPage.CardType), ByValue(card.cardType))];
    assert b.trace == old(b.trace) + done;
    PaymentMethodPage.EnterCardText(b, PaymentMethodPage.CardHolderName, card.holderName);
    done := done + Fill(PaymentMethodPage.TextLocator(PaymentMethodPage.CardHolderName), card.holderName);
    assert b.trace == old(b.trace) + done;
    var number := Text.PadTruncate(card.number, 18, '0');
    PaymentMethodPage.EnterCardText(b, PaymentMethodPage.CardNumber, number);
    done := done + Fill(PaymentMethodPage.TextLocator(PaymentMethodPage.CardNumber), CardNumberSent(card.number));
    assert b.trace == old(b.trace) + done;
    RunAppend(b.start, old(b.trace), done);
  }

  /** Expiry month and year, the clamped code, then Continue. */
  method EnterCardValidity(b: Session, card: CardDetails)
    requires b.Valid()
    modifies b
    ensures b.Performed(CardValidityActions(card))
  {
    PaymentMethodPage.SelectCardOption(b, PaymentMethodPage.ExpiryMonth, card.expirationMonth);
    PaymentMethodPage.SelectCardOption(b, PaymentMethodPage.ExpiryYear, card.expirationYear);
    ghost var done := [Select(PaymentMethodPage.SelectLocator(PaymentMethodPage.ExpiryMonth), ByValue(card.expirationMonth)),
                       Select(PaymentMethodPage.SelectLocator(PaymentMethodPage.ExpiryYear), ByValue(card.expirationYear))];
    assert b.trace == old(b.trace) + done;
    var code := Text.PadTruncate(card.code, 3, '0');
    PaymentMethodPage.EnterCardText(b, PaymentMethodPage.CardCode, code);
    done := done + Fill(PaymentMethodPage.TextLocator(PaymentMethodPage.CardCode), CardCodeSent(card.code));
    assert b.trace == old(b.trace) + done;
    PaymentMethodPage.ClickContinue(b);
    done := done + [Click(PaymentMethodPage.ContinueButton)];
    assert b.trace == old(b.trace) + done;
    RunAppend(b.start, old(b.trace), done);
  }

  /** Paying by card types the clamped card number and code; cheque or cash
      (any letter case) clicks its radio and both Continue buttons and types
      no card detail; any other method raises `ValueError` before any click. */
  lemma PaymentMethodCases(paymentMethod: string, card: CardDetails)
    ensures Text.Lower(paymentMethod) == "card" ==>
      var s := PaymentMethodScript(paymentMethod, card);
      && s.outcome == Done
      && SendKeys(PaymentMethodPage.TextLocator(PaymentMethodPage.CardNumber), CardNumberSent(card.number)) in s.actions
      && SendKeys(PaymentMethodPage.TextLocator(PaymentMethodPage.CardCode), CardCodeSent(card.code)) in s.actions
    ensures Text.Lower(paymentMethod) == "cheque" || Text.Lower(paymentMethod) == "cash" ==>
      var s := PaymentMethodScript(paymentMethod, card);
      && s.outcome == Done
      && s.actions == [Click(Locator(Id, "paymentmethod_0")), Click(PaymentMethodPage.ContinueButton),
                       Click(PaymentMethodPage.ChequeOrCashContinueButton)]
      && forall c: PaymentMethodPage.CardText :: !Touches(s.actions, PaymentMethodPage.TextLocator(c))
    ensures var key := Text.Lower(paymentMethod); var s := PaymentMethodScript(paymentMethod, card);
      && (key != "card" && key != "cheque" && key != "cash" <==> s.outcome.Raised?)
      && (s.outcome.Raised? ==> s.outcome.error == ValueError && s.actions == [])
  {
    var key := Text.Lower(paymentMethod);
    var s := PaymentMethodScript(paymentMethod, card);
    if key == "card" {
      var acts := CardActions(card);
      assert acts[5] == SendKeys(PaymentMethodPage.TextLocator(PaymentMethodPage.CardNumber), CardNumberSent(card.number));
      assert acts[9] == SendKeys(PaymentMethodPage.TextLocator(PaymentMethodPage.CardCode), CardCodeSent(card.code));
    }
  }

  // ------------------------------------------------------------------- cart

  /** What `open_cart` does: navigate only when not already on the cart. */
  function OpenCartActions(s: PageState): seq<Action>
  {
    if s.url != CartPage.Url then [Navigate(CartPage.Url)] else []
  }

  /** Opening the cart only changes the URL, and lands on the cart. */
  lemma OpenCartEffect(s: PageState)
    ensures Run(s, OpenCartActions(s)) == s.(url := CartPage.Url)
    ensures |OpenCartActions(s)| <= 1
    ensures OpenCartActions(s) == [] <==> s.url == CartPage.Url
  {
    if s.url != CartPage.Url {
      assert [Navigate(CartPage.Url)][1..] == [];
      assert Run(s, [Navigate(CartPage.Url)]) == Run(s.(url := CartPage.Url), []);
    }
  }

  /** `open_cart`. The URL checks that follow cannot fail here, since
      navigation lands on the requested URL. */
  method OpenCart(b: Session)
    requires b.Valid()
    modifies b
    ensures b.Performed(OpenCartActions(old(b.state)))
    ensures b.state == old(b.state).(url := CartPage.Url)
  {
    if b.state.url != CartPage.Url {
      CartPage.Open(b);
    }
    OpenCartEffect(old(b.state));
  }

  /** `list_products_in_cart`. */
  method ListProductsInCart(b: Session) returns (r: Result<seq<string>>)
    requires b.Valid()
    modifies b
    ensures b.Performed(OpenCartActions(old(b.state)))
    ensures r == if old(b.state).cart == [] then Err(Timeout) else Ok(CartPage.Names(old(b.state).cart))
  {
    OpenCart(b);
    r := CartPage.ListProductsInCart(b);
    if r.Ok? {
      assert r.value == CartPage.Names(b.state.cart);
    }
  }

  /** `get_product_quantity`. */
  method GetProductQuantity(b: Session, productName: string) returns (r: Result<Option<string>>)
    requires b.Valid()
    modifies b
    ensures b.Performed(OpenCartActions(old(b.state)))
    ensures r == if old(b.state).cart == [] then Err(Timeout)
                 else Ok(CartPage.QuantityOf(old(b.state).cart, productName))
  {
    OpenCart(b);
    r := CartPage.GetProductQuantity(b, productName);
  }

  /** How `update_product_quantity_in_cart` ends for a cart. */
  function UpdateOutcome(cart: seq<CartRow>, productName: string): Outcome
  {
    if cart == [] then Raised(Timeout)
    else if CartPage.FirstMatch(cart, productName).Some? then Done
    else Raised(AssertionError)
  }

  /** `update_product_quantity_in_cart`. */
  method UpdateProductQuantityInCart(b: Session, productName: string, quantity: int) returns (r: Outcome)
    requires b.Valid()
    modifies b
    ensures b.Performed(OpenCartActions(old(b.state)) + CartPage.ModifyActions(old(b.state).cart, productName, quantity))
    ensures r == UpdateOutcome(old(b.state).cart, productName)
  {
    OpenCart(b);
    r := ModifyAndCheckQuantity(b, productName, quantity);
    RunAppend(b.start, old(b.trace),
              OpenCartActions(old(b.state)) + CartPage.ModifyActions(old(b.state).cart, productName, quantity));
  }

  /** The update on the open cart, then the check that the first row named
      `productName` shows the new quantity. */
  method ModifyAndCheckQuantity(b: Session, productName: string, quantity: int) returns (r: Outcome)
    requires b.Valid()
    modifies b
    ensures b.Performed(CartPage.ModifyActions(old(b.state).cart, productName, quantity))
    ensures r == UpdateOutcome(old(b.state).cart, productName)
  {
    r := CartPage.ModifyProductQuantity(b, productName, quantity);
    if r.Raised? {
      return;
    }
    UpdateQuantityCases(old(b.state), productName, quantity);
    var shown := CartPage.GetProductQuantity(b, productName);
    if shown != Ok(Some(Text.IntString(quantity))) {
      r := Raised(AssertionError);
    }
  }

  /** Updating a quantity succeeds exactly when some row carries the name;
      afterwards that first row shows the new quantity and every other row is
      as it was. An empty cart times out; a missing name fails the check. */
  lemma UpdateQuantityCases(s: PageState, productName: string, quantity: int)
    ensures UpdateOutcome(s.cart, productName) == Done <==>
      exists k :: 0 <= k < |s.cart| && s.cart[k].name == productName
    ensures s.cart == [] ==> UpdateOutcome(s.cart, productName) == Raised(Timeout)
    ensures UpdateOutcome(s.cart, productName) == Done ==>
      var after := Run(s, CartPage.ModifyActions(s.cart, productName, quantity));
      CartPage.QuantityOf(after.cart, productName) == Some(Text.IntString(quantity))
      && |after.cart| == |s.cart|
      && forall j :: 0 <= j < |s.cart| && s.cart[j].name != productName ==> after.cart[j] == s.cart[j]
  {
    CartPage.ModifyEffect(s, productName, quantity);
    if UpdateOutcome(s.cart, productName) == Done {
      var i := CartPage.FirstMatch(s.cart, productName).value;
      var after := Run(s, CartPage.ModifyActions(s.cart, productName, quantity));
      assert forall j :: 0 <= j < |s.cart| ==> after.cart[j].name == s.cart[j].name;
      assert CartPage.FirstMatch(after.cart, productName) == Some(i);
    }
  }

  /** The cart after removing the first row named `productName`. */
  function CartAfterRemove(cart: seq<CartRow>, productName: string): seq<CartRow>
  {
    match CartPage.FirstMatch(cart, productName)
    case None => cart
    case Some(i) => cart[..i] + cart[i + 1..]
  }

  /** How `remove_product_from_cart` ends, as written: its final check lists
      the cart, and that listing waits for at least one product. */
  function RemoveOutcome(cart: seq<CartRow>, productName: string): Outcome
  {
    if cart == [] then Raised(Timeout)
    else
      var after := CartAfterRemove(cart, productName);
      if after == [] then Raised(Timeout)
      else if productName in CartPage.Names(after) then Raised(AssertionError)
      else Done
  }

  /** How the removal check ends when an emptied cart lists no products. */
  function RemoveOutcomeIntended(cart: seq<CartRow>, productName: string): Outcome
  {
    if cart == [] then Raised(Timeout)
    else if productName in CartPage.Names(CartAfterRemove(cart, productName)) then Raised(AssertionError)
    else Done
  }

  /** Opening the cart and removing a product leaves the cart `CartAfterRemove` shows. */
  lemma OpenThenRemoveCart(s: PageState, productName: string)
    ensures Run(s, OpenCartActions(s) + CartPage.RemoveActions(s.cart, productName)).cart
      == CartAfterRemove(s.cart, productName)
  {
    OpenCartEffect(s);
    RunAppend(s, OpenCartActions(s), CartPage.RemoveActions(s.cart, productName));
    CartPage.RemoveEffect(s.(url := CartPage.Url), productName);
  }

  /** `remove_product_from_cart`, as written. */
  method RemoveProductFromCart(b: Session, productName: string) returns (r: Outcome)
    requires b.Valid()
    modifies b
    ensures b.Performed(OpenCartActions(old(b.state)) + CartPage.RemoveActions(old(b.state).cart, productName))
    ensures r == RemoveOutcome(old(b.state).cart, productName)
  {
    OpenCart(b);
    r := CartPage.RemoveProductFromCart(b, productName);
    RunAppend(b.start, old(b.trace), OpenCartActions(old(b.state)));
    RunAppend(old(b.state), OpenCartActions(old(b.state)), CartPage.RemoveActions(old(b.state).cart, productName));
    if r.Raised? {
      return;
    }
    OpenThenRemoveCart(old(b.state), productName);
    var listed := CartPage.ListProductsInCart(b);
    if listed.Err? {
      return Raised(listed.error);
    }
    assert listed.value == CartPage.Names(b.state.cart);
    if productName in listed.value {
      return Raised(AssertionError);
    }
  }

  /** `remove_product_from_cart` with the final check reading an emptied
      cart as listing no products. */
  method RemoveProductFromCartIntended(b: Session, productName: string) returns (r: Outcome)
    requires b.Valid()
    modifies b
    ensures b.Performed(OpenCartActions(old(b.state)) + CartPage.RemoveActions(old(b.state).cart, productName))
    ensures r == RemoveOutcomeIntended(old(b.state).cart, productName)
  {
    OpenCart(b);
    r := CartPage.RemoveProductFromCart(b, productName);
    RunAppend(b.start, old(b.trace), OpenCartActions(old(b.state)));
    RunAppend(old(b.state), OpenCartActions(old(b.state)), CartPage.RemoveActions(old(b.state).cart, productName));
    if r.Raised? {
      return;
    }
    OpenThenRemoveCart(old(b.state), productName);
    var listed := CartPage.ListProductsInCart(b);
    var names := if listed.Err? then [] else listed.value;
    assert names == CartPage.Names(b.state.cart);
    if productName in names {
      return Raised(AssertionError);
    }
  }

  /** No two rows of the cart carry `productName`. */
  predicate AtMostOnce(cart: seq<CartRow>, productName: string)
  {
    forall j, k :: 0 <= j < k < |cart| && cart[j].name == productName ==> cart[k].name != productName
  }

  /** With the intended check, removal succeeds exactly when the cart is not
      empty and no two rows share the name: a duplicate survives the single
      removal and fails the check, and a missing name passes unnoticed. */
  lemma {:induction false} RemoveIntendedCases(cart: seq<CartRow>, productName: string)
    ensures RemoveOutcomeIntended(cart, productName) == Done <==>
      cart != [] && AtMostOnce(cart, productName)
  {
    if cart != [] {
      var after := CartAfterRemove(cart, productName);
      match CartPage.FirstMatch(cart, productName)
      case None =>
        assert productName !in CartPage.Names(after);
      case Some(i) =>
        if productName in CartPage.Names(after) {
          var m :| 0 <= m < |after| && CartPage.Names(after)[m] == productName;
          assert after[m] == if m < i then cart[m] else cart[m + 1];
        }
        if !AtMostOnce(cart, productName) {
          var j, k :| 0 <= j < k < |cart| && cart[j].name == productName && cart[k].name == productName;
          assert after[k - 1] == cart[k];
          assert CartPage.Names(after)[k - 1] == productName;
        }
    }
  }

  /** As written, removal also fails when it takes the last row off the
      cart, since the check's listing then times out; otherwise it agrees
      with the intended check. */
  lemma {:induction false} RemoveAsWrittenCases(cart: seq<CartRow>, productName: string)
    ensures RemoveOutcome(cart, productName) ==
      if |cart| == 1 && cart[0].name == productName then Raised(Timeout)
      else RemoveOutcomeIntended(cart, productName)
  {
    if cart != [] {
      match CartPage.FirstMatch(cart, productName)
      case None =>
      case Some(i) =>
        assert |CartAfterRemove(cart, productName)| == |cart| - 1;
    }
  }

  /** A concrete case: removing the only product in the cart times out as
      written, and succeeds with the intended check. */
  lemma RemoveOnlyProductTimesOut()
    ensures RemoveOutcome([CartRow("Fiction", "1")], "Fiction") == Raised(Timeout)
    ensures RemoveOutcomeIntended([CartRow("Fiction", "1")], "Fiction") == Done
  {
    var cart := [CartRow("Fiction", "1")];
    assert CartPage.FirstMatch(cart, "Fiction") == Some(0);
    assert CartAfterRemove(cart, "Fiction") == [];
  }
}
