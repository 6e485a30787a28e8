/** The login page (tests/pages/login.py), as far as the login workflow uses it. */
module LoginPage {
  import opened Browser

  const Url := "https://demo.nopcommerce.com/login"
  const EmailTextbox := Locator(Id, "Email")
  const PasswordTextbox := Locator(Id, "Password")
  const RememberMeCheckbox := Locator(Id, "RememberMe")
  const LoginButton := Locator(CssSelector, ".login-button")
  const LogoutButton := Locator(CssSelector, ".ico-logout")

  /** `open`: navigates to the login page. */
  method Open(b: Session)
    requires b.Valid()
    modifies b
    ensures b.Performed([Navigate(Url)])
    ensures b.state.url == Url
  {
    b.Perform(Navigate(Url));
  }

  /** `enter_email` and `enter_password`: clear, then type, so the textbox
      ends up holding exactly `text` (`FillSetsText`). */
  method EnterText(b: Session, textbox: Locator, text: string)
    requires textbox == EmailTextbox || textbox == PasswordTextbox
    requires b.Valid()
    modifies b
    ensures b.Performed(Fill(textbox, text))
  {
    b.ClearAndType(textbox, text);
  }

  /** `click_remember_me`. */
  method ClickRememberMe(b: Session)
    requires b.Valid()
    modifies b
    ensures b.Performed([Click(RememberMeCheckbox)])
  {
    b.Perform(Click(RememberMeCheckbox));
  }

  /** `click_login`. */
  method ClickLogin(b: Session)
    requires b.Valid()
    modifies b
    ensures b.Performed([Click(LoginButton)])
  {
    b.Perform(Click(LoginButton));
  }
}
