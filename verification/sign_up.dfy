/**
 * The sign-up button: the three fields are trimmed and checked before an
 * account is requested. The platform's e-mail address pattern is not part
 * of this model and enters as the predicate `isEmail`.
 */
module SignUp {
  import opened Common
  import opened TextInput

  const MSG_BAD_EMAIL := "Please enter a valid email address"
  const MSG_FILL_ALL := "Please fill all the fields"
  const MSG_TOO_SHORT := "Password should be at least 6 characters"
  const MSG_MISMATCH := "Password and Confirm Password do not match"

  /** An e-mail address that the pattern accepts, with a password of six characters or more, repeated. */
  predicate Acceptable(email: string, password: string, confirm: string, isEmail: string -> bool)
  {
    email != [] && isEmail(email) && |password| >= 6 && password == confirm
  }

  /**
   * `validateInputs`: the e-mail address first (empty or not matching the
   * pattern), then either password field empty, then a password under six
   * characters, then the confirmation differing.
   */
  function ValidateInputs(email: string, password: string, confirm: string, isEmail: string -> bool): (r: Outcome)
    ensures r == Accepted <==> Acceptable(email, password, confirm, isEmail)
    ensures email == [] || !isEmail(email) ==> r == Rejected(MSG_BAD_EMAIL)
    ensures email != [] && isEmail(email) && (password == [] || confirm == []) ==> r == Rejected(MSG_FILL_ALL)
    ensures email != [] && isEmail(email) && password != [] && confirm != [] && |password| < 6
      ==> r == Rejected(MSG_TOO_SHORT)
    ensures email != [] && isEmail(email) && password != [] && confirm != [] && |password| >= 6 && password != confirm
      ==> r == Rejected(MSG_MISMATCH)
  {
    if email == [] || !isEmail(email) then Rejected(MSG_BAD_EMAIL)
    else if password == [] || confirm == [] then Rejected(MSG_FILL_ALL)
    else if |password| < 6 then Rejected(MSG_TOO_SHORT)
    else if password != confirm then Rejected(MSG_MISMATCH)
    else Accepted
  }

  /**
   * The sign-up button: the trimmed e-mail address and password that the
   * account is requested with, or None when the checks refuse the fields.
   */
  function SignUpRequest(emailField: string, passwordField: string, confirmField: string, isEmail: string -> bool)
    : (r: Option<(string, string)>)
    ensures r.Some? <==> Acceptable(Trim(emailField), Trim(passwordField), Trim(confirmField), isEmail)
    ensures r.Some? ==> r.value == (Trim(emailField), Trim(passwordField))
  {
    var email, password, confirm := Trim(emailField), Trim(passwordField), Trim(confirmField);
    if ValidateInputs(email, password, confirm, isEmail) == Accepted then Some((email, password)) else None
  }

  /**
   * Surrounding whitespace never decides the outcome: fields that differ only
   * by it lead to the same request.
   */
  lemma SignUpIgnoresSurroundingSpace(emailField: string, passwordField: string, confirmField: string, isEmail: string -> bool)
    ensures SignUpRequest(emailField, passwordField, confirmField, isEmail)
      == SignUpRequest(Trim(emailField), Trim(passwordField), Trim(confirmField), isEmail)
  {
    TrimIdempotent(emailField);
    TrimIdempotent(passwordField);
    TrimIdempotent(confirmField);
  }

  /** Whatever the pattern, a password of five characters is refused, with the length message once the address passes. */
  lemma FiveCharactersRefused(isEmail: string -> bool)
    requires isEmail("a@b.co")
    ensures ValidateInputs("a@b.co", "abcde", "abcde", isEmail) == Rejected(MSG_TOO_SHORT)
    ensures SignUpRequest("a@b.co", "abcde", "abcde", isEmail) == None
  {
  }
}
