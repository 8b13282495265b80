/**
 * The sign-up screen (`SignupActivity.java`): the guard chain over the four trimmed
 * fields, the account built from them, and the success rule on what the store's
 * `addUser` returns.
 */
module Signup {
  import opened Text
  import opened Users

  /** The minimum password length accepted at sign-up, in Java `length()` units (UTF-16). */
  const MinPasswordLength := 6

  datatype SignupError =
    | UsernameRequired
    | EmailRequired
    | PasswordRequired
    | PasswordTooShort
    | PasswordsDoNotMatch

  datatype SignupOutcome =
    | Rejected(error: SignupError)              // a field error; `addUser` is not called
    | Submitted(user: User, accepted: bool)     // `addUser(user)` was called; accepted iff it returned > 0

  /**
   * `performSignup`. `addUser` stands for the store's insert of a user, giving the
   * new row id, or a value <= 0 on failure (for instance a duplicate email).
   */
  function PerformSignup(usernameText: string, emailText: string, passwordText: string, confirmText: string,
                         addUser: User -> int): (r: SignupOutcome)
    ensures r == Rejected(UsernameRequired) <==> Trim(usernameText) == []
    ensures r == Rejected(EmailRequired) <==> Trim(usernameText) != [] && Trim(emailText) == []
    ensures r == Rejected(PasswordRequired) <==>
      Trim(usernameText) != [] && Trim(emailText) != [] && Trim(passwordText) == []
    ensures r == Rejected(PasswordTooShort) <==>
      Trim(usernameText) != [] && Trim(emailText) != [] && Trim(passwordText) != []
      && Utf16Length(Trim(passwordText)) < MinPasswordLength
    ensures r == Rejected(PasswordsDoNotMatch) <==>
      Trim(usernameText) != [] && Trim(emailText) != [] && Utf16Length(Trim(passwordText)) >= MinPasswordLength
      && Trim(passwordText) != Trim(confirmText)
    ensures r.Submitted? ==>
      && r.user == User(0, Trim(usernameText), Trim(emailText), Trim(passwordText))
      && (r.accepted <==> addUser(r.user) > 0)
  {
    var username, email := Trim(usernameText), Trim(emailText);
    var password, confirmPassword := Trim(passwordText), Trim(confirmText);
    if username == [] then Rejected(UsernameRequired)
    else if email == [] then Rejected(EmailRequired)
    else if password == [] then Rejected(PasswordRequired)
    else if Utf16Length(password) < MinPasswordLength then Rejected(PasswordTooShort)
    else if password != confirmPassword then Rejected(PasswordsDoNotMatch)
    else
      var newUser := User(0, username, email, password);
      Submitted(newUser, addUser(newUser) > 0)
  }

  /**
   * Every guard passes exactly for a non-blank username and email and a password of
   * at least six UTF-16 units, after trimming, that equals its confirmation; what is
   * handed to `addUser` then carries no surrounding blanks.
   */
  lemma SignupSubmitsExactlyValidForms(usernameText: string, emailText: string, passwordText: string,
                                       confirmText: string, addUser: User -> int)
    ensures PerformSignup(usernameText, emailText, passwordText, confirmText, addUser).Submitted? <==>
      && Trim(usernameText) != [] && Trim(emailText) != []
      && Utf16Length(Trim(passwordText)) >= MinPasswordLength && Trim(passwordText) == Trim(confirmText)
    ensures PerformSignup(usernameText, emailText, passwordText, confirmText, addUser).Submitted? ==>
      var u := PerformSignup(usernameText, emailText, passwordText, confirmText, addUser).user;
      Trim(u.username) == u.username && Trim(u.email) == u.email && Trim(u.password) == u.password
  {
    var u, e := Trim(usernameText), Trim(emailText);
    var p, c := Trim(passwordText), Trim(confirmText);
    var r := PerformSignup(usernameText, emailText, passwordText, confirmText, addUser);
    if u == [] {
      assert r == Rejected(UsernameRequired);
    } else if e == [] {
      assert r == Rejected(EmailRequired);
    } else if p == [] {
      assert r == Rejected(PasswordRequired);
    } else if Utf16Length(p) < MinPasswordLength {
      assert r == Rejected(PasswordTooShort);
    } else if p != c {
      assert r == Rejected(PasswordsDoNotMatch);
    } else {
      assert r == Submitted(User(0, u, e, p), addUser(User(0, u, e, p)) > 0);
      TrimIdempotent(usernameText);
      TrimIdempotent(emailText);
      TrimIdempotent(passwordText);
    }
  }
}
