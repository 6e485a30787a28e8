/** The registration page (tests/pages/register.py). */
module RegisterPage {
  import opened Browser
  import Text

  const Url := "https://demo.nopcommerce.com/register"
  const RegisterPageButton := Locator(CssSelector, ".ico-register")
  const MaleGenderInput := Locator(Id, "gender-male")
  const FemaleGenderInput := Locator(Id, "gender-female")
  const DayOfBirthSelect := Locator(Name, "DateOfBirthDay")
  const MonthOfBirthSelect := Locator(Name, "DateOfBirthMonth")
  const YearOfBirthSelect := Locator(Name, "DateOfBirthYear")
  const NewsletterCheckbox := Locator(Id, "Newsletter")
  const RegisterButton := Locator(Id, "register-button")
  const ContinueButton := Locator(XPath, "//a[text()='Continue']")

  /** The text inputs of the form; each has its own `enter_*` setter. */
  datatype TextField = FirstName | LastName | Email | Password | ConfirmPassword | CompanyName

  function FieldLocator(f: TextField): Locator
  {
    match f
    case FirstName => Locator(Id, "FirstName")
    case LastName => Locator(Id, "LastName")
    case Email => Locator(Id, "Email")
    case Password => Locator(Id, "Password")
    case ConfirmPassword => Locator(Id, "ConfirmPassword")
    case CompanyName => Locator(Id, "Company")
  }

  /** Each setter has an input of its own, so filling one leaves the others alone. */
  lemma FieldLocatorInjective(f: TextField, g: TextField)
    requires f != g
    ensures FieldLocator(f) != FieldLocator(g)
  {
  }

  /** A calendar date, as Python's `date` exposes it. */
  datatype Date = Date(year: nat, month: nat, day: nat)

  /** What `select_gender` does. */
  function SelectGenderScript(gender: string): Script
  {
    var g := Text.Lower(gender);
    if g == "male" then Script([Click(MaleGenderInput)], Done)
    else if g == "female" then Script([Click(FemaleGenderInput)], Done)
    else Script([], Raised(ValueError))
  }

  /** Gender selection ignores case, clicks the `gender-male` radio for
      "male" and the `gender-female` radio for "female", and raises `ValueError` without clicking for anything else. */
  lemma SelectGenderCases(gender: string)
    ensures SelectGenderScript(gender) == SelectGenderScript(Text.Lower(gender))
    ensures SelectGenderScript(gender).outcome.Raised? <==>
      Text.Lower(gender) != "male" && Text.Lower(gender) != "female"
    ensures SelectGenderScript(gender).outcome.Raised? ==>
      SelectGenderScript(gender).outcome.error == ValueError && SelectGenderScript(gender).actions == []
    ensures SelectGenderScript(gender).outcome.Done? ==>
      |SelectGenderScript(gender).actions| == 1 && SelectGenderScript(gender).actions[0].Click?
    ensures Text.Lower(gender) == "male" ==>
      SelectGenderScript(gender).actions == [Click(Locator(Id, "gender-male"))]
    ensures Text.Lower(gender) == "female" ==>
      SelectGenderScript(gender).actions == [Click(Locator(Id, "gender-female"))]
  {
    Text.LowerIdempotent(gender);
  }

  /** What `enter_date_of_birth` sends: day, month and year, in that order. */
  function DateOfBirthActions(d: Date): seq<Action>
  {
    [ SendKeys(DayOfBirthSelect, Text.DecimalString(d.day)),
      SendKeys(MonthOfBirthSelect, Text.DecimalString(d.month)),
      SendKeys(YearOfBirthSelect, Text.DecimalString(d.year)) ]
  }

  /** Each part of the date goes to its own select as an unpadded decimal
      string that reads back as that part. */
  lemma DateOfBirthUnpadded(d: Date)
    ensures var acts := DateOfBirthActions(d);
      && acts[0].target == DayOfBirthSelect
      && acts[1].target == MonthOfBirthSelect
      && acts[2].target == YearOfBirthSelect
      && Text.ParseDecimal(acts[0].text) == d.day
      && Text.ParseDecimal(acts[1].text) == d.month
      && Text.ParseDecimal(acts[2].text) == d.year
      && (forall k :: 0 <= k < 3 ==> acts[k].text[0] != '0' || acts[k].text == "0")
  {
    Text.DecimalRoundTrip(d.day);
    Text.DecimalRoundTrip(d.month);
    Text.DecimalRoundTrip(d.year);
  }

  /** `click_register_page`: follows the header's register link. */
  method ClickRegisterPage(b: Session)
    requires b.Valid()
    modifies b
    ensures b.Performed([Click(RegisterPageButton)])
  {
    b.Perform(Click(RegisterPageButton));
  }

  /** `select_gender`. */
  method SelectGender(b: Session, gender: string) returns (r: Outcome)
    requires b.Valid()
    modifies b
    ensures b.Performed(SelectGenderScript(gender).actions)
    ensures r == SelectGenderScript(gender).outcome
  {
    var g := Text.Lower(gender);
    if g == "male" {
      b.Perform(Click(MaleGenderInput));
    } else if g == "female" {
      b.Perform(Click(FemaleGenderInput));
    } else {
      return Raised(ValueError);
    }
    return Done;
  }

  /** `enter_first_name`, `enter_last_name`, `enter_email`, `enter_password`,
      `enter_confirm_password`, `enter_company_name`: clear, then type, so the
      field ends up holding exactly `text` (`FillSetsText`). */
  method EnterText(b: Session, f: TextField, text: string)
    requires b.Valid()
    modifies b
    ensures b.Performed(Fill(FieldLocator(f), text))
  {
    b.ClearAndType(FieldLocator(f), text);
  }

  /** `enter_date_of_birth`. */
  method EnterDateOfBirth(b: Session, dateOfBirth: Date)
    requires b.Valid()
    modifies b
    ensures b.Performed(DateOfBirthActions(dateOfBirth))
  {
    var acts := DateOfBirthActions(dateOfBirth);
    b.Perform(acts[0]);
    b.Perform(acts[1]);
    b.Perform(acts[2]);
    assert acts == [acts[0]] + [acts[1]] + [acts[2]];
    RunAppend(b.start, old(b.trace), acts);
  }

  /** `click_newsletter`: clicks whatever the checkbox shows, so a second
      call undoes the first (see `ClickTwiceRestores`). */
  method ClickNewsletter(b: Session)
    requires b.Valid()
    modifies b
    ensures b.Performed([Click(NewsletterCheckbox)])
    ensures Flag(b.state, NewsletterCheckbox) == (NewsletterCheckbox in old(b.state).checked && !Flag(old(b.state), NewsletterCheckbox))
  {
    b.Perform(Click(NewsletterCheckbox));
  }

  /** `click_register`: submits the form. */
  method ClickRegister(b: Session)
    requires b.Valid()
    modifies b
    ensures b.Performed([Click(RegisterButton)])
  {
    b.Perform(Click(RegisterButton));
  }

  /** `click_continue`: leaves the registration result page. */
  method ClickContinue(b: Session)
    requires b.Valid()
    modifies b
    ensures b.Performed([Click(ContinueButton)])
  {
    b.Perform(Click(ContinueButton));
  }
}
