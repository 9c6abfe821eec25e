/** The two form validators: the Login submit and the Create Account submit.
    Neither checks credentials against anything stored. */
module Forms {

  /** What a Login submit reports. */
  datatype LoginOutcome = Welcome | LoginFieldsRequired

  /** What a Create Account submit reports, in the order the checks run. */
  datatype AccountOutcome = AccountFieldsRequired | PasswordMismatch | AccountCreated

  /** The Login submit: any non-empty username with any non-empty password is
      accepted. */
  function CheckLogin(username: string, password: string): (o: LoginOutcome)
    ensures o == Welcome <==> username != [] && password != []
  {
    if username != [] && password != [] then Welcome else LoginFieldsRequired
  }

  /** The Create Account submit: missing fields first, then the confirmation. */
  function CheckNewAccount(username: string, password: string, confirm: string): (o: AccountOutcome)
    ensures o == AccountFieldsRequired <==> username == [] || password == []
    ensures o == PasswordMismatch <==> username != [] && password != [] && password != confirm
    ensures o == AccountCreated <==> username != [] && password != [] && password == confirm
  {
    if username == [] || password == [] then AccountFieldsRequired
    else if password != confirm then PasswordMismatch
    else AccountCreated
  }

  /** The missing-field error wins over a mismatch: an empty field reports
      "required" whatever the confirmation holds. */
  lemma RequiredBeforeMismatch(username: string, password: string, confirm: string, other: string)
    requires username == [] || password == []
    ensures CheckNewAccount(username, password, confirm) == CheckNewAccount(username, password, other)
  {
  }

  /** The username plays no part in the mismatch check: once both fields are
      filled, only password and confirmation decide. */
  lemma MismatchIgnoresUsername(u1: string, u2: string, password: string, confirm: string)
    requires u1 != [] && u2 != []
    ensures CheckNewAccount(u1, password, confirm) == CheckNewAccount(u2, password, confirm)
  {
  }

  /** Whatever Create Account accepts, Login accepts too, and every pair Login
      accepts would be accepted by Create Account with a matching confirmation:
      the two validators demand the same of username and password. */
  lemma CreatedImpliesLoginAccepted(username: string, password: string, confirm: string)
    ensures CheckNewAccount(username, password, confirm) == AccountCreated ==> CheckLogin(username, password) == Welcome
    ensures CheckLogin(username, password) == Welcome ==>
      CheckNewAccount(username, password, password) == AccountCreated
  {
  }
}
