/**
 * The login screen (`LoginActivity.java`): two required-field guards on the trimmed
 * email and password, one lookup by email, and an exact comparison of passwords.
 */
module Login {
  import opened Wrappers
  import opened Text
  import opened Users
  import Signup

  datatype LoginError = EmailRequired | PasswordRequired

  datatype LoginOutcome =
    | FieldError(error: LoginError)  // a field error; no lookup is made
    | LoginOk(userId: int)           // the dashboard is started with this USER_ID
    | LoginFailed                    // "Invalid Email or Password"

  /** The store's `getUserByEmail`: the account found under an email, None (null) for any other email. */
  function GetUserByEmail(accounts: map<string, User>, email: string): (user: Option<User>)
    ensures email in accounts ==> user == Some(accounts[email])
    ensures email !in accounts ==> user == None
  {
    if email in accounts then Some(accounts[email]) else None
  }

  /**
   * `performLogin`. `accounts` stands for what the store's lookup by email finds:
   * the user table is not part of this model.
   */
  function PerformLogin(emailText: string, passwordText: string, accounts: map<string, User>): (r: LoginOutcome)
    ensures r == FieldError(EmailRequired) <==> Trim(emailText) == []
    ensures r == FieldError(PasswordRequired) <==> Trim(emailText) != [] && Trim(passwordText) == []
    ensures r.LoginOk? <==>
      && Trim(emailText) != [] && Trim(passwordText) != []
      && Trim(emailText) in accounts
      && accounts[Trim(emailText)].password == Trim(passwordText)
    ensures r.LoginOk? ==> r.userId == accounts[Trim(emailText)].id
  {
    var email, password := Trim(emailText), Trim(passwordText);
    if email == [] then FieldError(EmailRequired)
    else if password == [] then FieldError(PasswordRequired)
    else
      var user := GetUserByEmail(accounts, email);
      if user.Some? && user.value.password == password then LoginOk(user.value.id)
      else LoginFailed
  }

  /**
   * An unknown email and a wrong password end the same way: the screen does not say
   * which of the two was wrong.
   */
  lemma UnknownEmailLooksLikeWrongPassword(emailText: string, passwordText: string,
                                           unknown: map<string, User>, known: map<string, User>)
    requires Trim(emailText) != [] && Trim(passwordText) != []
    requires Trim(emailText) !in unknown
    requires Trim(emailText) in known && known[Trim(emailText)].password != Trim(passwordText)
    ensures PerformLogin(emailText, passwordText, unknown) == PerformLogin(emailText, passwordText, known) == LoginFailed
  {
  }

  /**
   * An account submitted at sign-up, once the lookup finds it under its email with
   * the id the store gave it, logs in with the sign-up password, surrounding blanks
   * or not, and with no other password.
   */
  lemma SignupCredentialsLogIn(usernameText: string, emailText: string, passwordText: string, confirmText: string,
                               addUser: User -> int, accounts: map<string, User>, id: int,
                               loginEmailText: string, loginPasswordText: string)
    requires Signup.PerformSignup(usernameText, emailText, passwordText, confirmText, addUser).Submitted?
    requires Trim(emailText) in accounts
    requires accounts[Trim(emailText)] ==
      Signup.PerformSignup(usernameText, emailText, passwordText, confirmText, addUser).user.(id := id)
    requires Trim(loginEmailText) == Trim(emailText)
    ensures PerformLogin(loginEmailText, loginPasswordText, accounts) == LoginOk(id) <==>
      Trim(loginPasswordText) == Trim(passwordText)
  {
    var submitted := Signup.PerformSignup(usernameText, emailText, passwordText, confirmText, addUser);
    assert submitted.user.password == Trim(passwordText) && Trim(emailText) != [];
    assert Utf16Length(Trim(passwordText)) >= Signup.MinPasswordLength;
    var account := accounts[Trim(emailText)];
    assert account.password == Trim(passwordText) && account.id == id;
    var r := PerformLogin(loginEmailText, loginPasswordText, accounts);
    if Trim(loginPasswordText) == Trim(passwordText) {
      assert r == LoginOk(id);
    }
  }
}
