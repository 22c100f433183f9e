/** The sign-up form's submit handler. */
module Register {
  import opened Common

  datatype RegisterForm = RegisterForm(name: string, email: string, password: string, confirmPassword: string)

  /** What is sent to the register call: the confirmation is dropped. */
  datatype Credentials = Credentials(name: string, email: string, password: string)

  /** The outcome of the register call. */
  datatype RegisterResult = RegisterResult(success: bool, error: Option<string>)

  /** The local checks, in their order: a mismatch is reported before a short password. */
  datatype Checked = Rejected(message: string) | Accepted(credentials: Credentials)

  const MinPasswordLength := 6

  function CheckForm(f: RegisterForm): (r: Checked)
    ensures r == Rejected("Passwords do not match") <==> f.password != f.confirmPassword
    ensures r == Rejected("Password must be at least 6 characters") <==>
      f.password == f.confirmPassword && |f.password| < MinPasswordLength
    ensures r.Accepted? <==> f.password == f.confirmPassword && |f.password| >= MinPasswordLength
    ensures r.Accepted? ==> r.credentials == Credentials(f.name, f.email, f.password)
  {
    if f.password != f.confirmPassword then Rejected("Passwords do not match")
    else if |f.password| < MinPasswordLength then Rejected("Password must be at least 6 characters")
    else Accepted(Credentials(f.name, f.email, f.password))
  }

  /** Where the page ends up: an error under the form, or the home page. */
  datatype Outcome = ShowError(message: string) | GoHome

  /**
   * handleSubmit, given what the register call answers when it is made. The call is made only
   * when the local checks pass; a failure shows the call's error, or a generic message.
   */
  function Submit(f: RegisterForm, answer: RegisterResult): (r: Outcome)
    ensures CheckForm(f).Rejected? ==> r == ShowError(CheckForm(f).message)
    ensures CheckForm(f).Accepted? ==> (r == GoHome <==> answer.success)
    ensures CheckForm(f).Accepted? && !answer.success ==>
      r == ShowError(if answer.error.Some? && answer.error.value != "" then answer.error.value else "Registration failed")
    ensures r.ShowError? ==> r.message != ""
  {
    match CheckForm(f)
    case Rejected(message) => ShowError(message)
    case Accepted(_) => if answer.success then GoHome else ShowError(StrOr(answer.error, "Registration failed"))
  }

  /** A successful sign-up needs matching passwords of at least six characters, whatever the call answers. */
  lemma GoHomeNeedsValidForm(f: RegisterForm, answer: RegisterResult)
    requires Submit(f, answer) == GoHome
    ensures f.password == f.confirmPassword && |f.password| >= MinPasswordLength && answer.success
  {
  }
}
