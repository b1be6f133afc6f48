/**
 * Setting the lock password: the strength rules `validatePassword` checks,
 * and the save button, which stores the trimmed password in "auth_prefs"
 * and switches the password lock on.
 */
module SetPassword {
  import opened Common
  import opened TextInput
  import opened AuthPrefs
  import opened Preferences
  import opened SessionPrefs

  const MSG_TOO_SHORT := "Password must be at least 8 characters"
  const MSG_NO_UPPERCASE := "Password must contain at least one uppercase letter"
  const MSG_NO_NUMBER := "Password must contain at least one number"
  const MSG_NO_SPECIAL := "Password must contain at least one special character"
  const MSG_VALID := "Valid password"
  const MSG_FILL_ALL := "Please fill all fields"
  const MSG_MISMATCH := "Passwords do not match"

  /** The thirty characters that count as special. */
  const SPECIAL_CHARS: set<char> := {
    '!', '@', '#', '$', '%', '^', '&', '*', '(', ')', '-', '_', '+', '=', '{',
    '}', '[', ']', '|', '\\', ':', ';', '"', '\'', '<', '>', ',', '.', '?', '/' }

  predicate IsSpecial(c: char)
  {
    c in SPECIAL_CHARS
  }

  /** What the rules ask of a password: eight characters, with an uppercase letter, a digit and a special character. */
  predicate IsStrong(password: string)
  {
    |password| >= 8 && AnyChar(password, IsUpper) && AnyChar(password, IsDigit) && AnyChar(password, IsSpecial)
  }

  /**
   * `validatePassword`: (true, "Valid password") for a strong password;
   * otherwise false and the message of the first rule broken, in the order
   * length, uppercase letter, digit, special character.
   */
  function ValidatePassword(password: string): (r: (bool, string))
    ensures r.0 <==> IsStrong(password)
    ensures r.0 <==> r.1 == MSG_VALID
    ensures |password| < 8 ==> r.1 == MSG_TOO_SHORT
    ensures |password| >= 8 && !AnyChar(password, IsUpper) ==> r.1 == MSG_NO_UPPERCASE
    ensures |password| >= 8 && AnyChar(password, IsUpper) && !AnyChar(password, IsDigit) ==> r.1 == MSG_NO_NUMBER
    ensures |password| >= 8 && AnyChar(password, IsUpper) && AnyChar(password, IsDigit) && !AnyChar(password, IsSpecial)
      ==> r.1 == MSG_NO_SPECIAL
  {
    if |password| < 8 then (false, MSG_TOO_SHORT)
    else if !AnyChar(password, IsUpper) then (false, MSG_NO_UPPERCASE)
    else if !AnyChar(password, IsDigit) then (false, MSG_NO_NUMBER)
    else if !AnyChar(password, IsSpecial) then (false, MSG_NO_SPECIAL)
    else (true, MSG_VALID)
  }

  /**
   * The save button's checks on the two fields, trimmed: neither empty, the
   * password valid, the two equal, in that order.
   */
  function SaveOutcome(passwordField: string, confirmField: string): (r: Outcome)
    ensures r == Accepted <==> IsStrong(Trim(passwordField)) && Trim(passwordField) == Trim(confirmField)
    ensures Trim(passwordField) == [] || Trim(confirmField) == [] ==> r == Rejected(MSG_FILL_ALL)
    ensures Trim(passwordField) != [] && Trim(confirmField) != [] && !IsStrong(Trim(passwordField))
      ==> r == Rejected(ValidatePassword(Trim(passwordField)).1)
  {
    var password, confirm := Trim(passwordField), Trim(confirmField);
    if password == [] || confirm == [] then Rejected(MSG_FILL_ALL)
    else
      var validation := ValidatePassword(password);
      if !validation.0 then Rejected(validation.1)
      else if password != confirm then Rejected(MSG_MISMATCH)
      else Accepted
  }

  /**
   * The save button: on acceptance "user_password" holds the trimmed
   * password and the password lock is switched on; otherwise nothing is
   * written.
   */
  method OnSavePassword(passwordField: string, confirmField: string, auth: AuthStore, session: SessionManager)
    returns (outcome: Outcome)
    modifies auth`password, session
    ensures outcome == SaveOutcome(passwordField, confirmField)
    ensures outcome == Accepted ==>
      auth.password == Some(Trim(passwordField)) && session.prefs == SetFlag(old(session.prefs), KEY_IS_PASSWORD_ENABLED, true)
    ensures outcome != Accepted ==> auth.password == old(auth.password) && session.prefs == old(session.prefs)
  {
    outcome := SaveOutcome(passwordField, confirmField);
    if outcome == Accepted {
      StorePassword(Trim(passwordField), auth, session);
    }
  }

  /** The write that ends an accepted save: the password into "user_password", the lock flag on. */
  method StorePassword(password: string, auth: AuthStore, session: SessionManager)
    modifies auth`password, session
    ensures auth.password == Some(password) && session.prefs == SetFlag(old(session.prefs), KEY_IS_PASSWORD_ENABLED, true)
  {
    auth.password := Some(password);
    session.SetPasswordEnabled(true);
  }
}

/**
 * The password lock screen: checking an entry against the stored password,
 * and the reset dialog reached after a fingerprint check.
 */
module PasswordCheck {
  import opened Common
  import opened TextInput
  import opened AuthPrefs
  import SetPassword

  const MSG_ENTER_PASSWORD := "Please enter your password"

  /** The screen's own copy of `validatePassword`, rule for rule. */
  function ValidatePassword(password: string): (bool, string)
  {
    if |password| < 8 then (false, "Password must be at least 8 characters")
    else if !AnyChar(password, IsUpper) then (false, "Password must contain at least one uppercase letter")
    else if !AnyChar(password, IsDigit) then (false, "Password must contain at least one number")
    else if !AnyChar(password, (c: char) => c in {
      '!', '@', '#', '$', '%', '^', '&', '*', '(', ')', '-', '_', '+', '=', '{',
      '}', '[', ']', '|', '\\', ':', ';', '"', '\'', '<', '>', ',', '.', '?', '/' })
    then (false, "Password must contain at least one special character")
    else (true, "Valid password")
  }

  /** The two copies give the same verdict and the same message for every password. */
  lemma ValidatorsAgree(password: string)
    ensures ValidatePassword(password) == SetPassword.ValidatePassword(password)
  {
    var special := (c: char) => c in SetPassword.SPECIAL_CHARS;
    if |password| >= 8 && AnyChar(password, IsUpper) && AnyChar(password, IsDigit) {
      assert AnyChar(password, SetPassword.IsSpecial) == AnyChar(password, special);
    }
  }

  /** What the verify button leads to. */
  datatype Verdict = EmptyEntry | Correct | Incorrect

  /**
   * The verify button: an empty (trimmed) entry is refused before any
   * comparison; otherwise the entry is compared with the stored password,
   * "" when none is stored.
   */
  function Verify(entryField: string, auth: AuthStore): (v: Verdict)
    reads auth`password
    ensures v == EmptyEntry <==> Trim(entryField) == []
    ensures v == Correct <==> Trim(entryField) != [] && auth.password == Some(Trim(entryField))
  {
    var entered := Trim(entryField);
    if entered == [] then EmptyEntry
    else if entered == auth.StoredPassword() then Correct
    else Incorrect
  }

  /** A password set through the save button opens the lock with exactly the entries that trim to it. */
  lemma SetThenVerify(passwordField: string, confirmField: string, entryField: string, auth: AuthStore)
    requires SetPassword.SaveOutcome(passwordField, confirmField) == Accepted
    requires auth.password == Some(Trim(passwordField))
    ensures Verify(entryField, auth) == Correct <==> Trim(entryField) == Trim(passwordField)
  {
  }

  /**
   * The reset dialog's checks, trimmed: neither field empty, the new
   * password valid, the two equal, in that order.
   */
  function ResetOutcome(newField: string, confirmField: string): (r: Outcome)
    ensures Trim(newField) == [] || Trim(confirmField) == [] ==> r == Rejected(MSG_ENTER_PASSWORD)
    ensures Trim(newField) != [] && Trim(confirmField) != [] && !ValidatePassword(Trim(newField)).0
      ==> r == Rejected(ValidatePassword(Trim(newField)).1)
  {
    var password, confirm := Trim(newField), Trim(confirmField);
    if password == [] || confirm == [] then Rejected(MSG_ENTER_PASSWORD)
    else
      var validation := ValidatePassword(password);
      if !validation.0 then Rejected(validation.1)
      else if password != confirm then Rejected(SetPassword.MSG_MISMATCH)
      else Accepted
  }

  /** Reset accepts exactly the pairs the save button accepts; only the empty-field message differs. */
  lemma ResetAcceptsLikeSave(newField: string, confirmField: string)
    ensures ResetOutcome(newField, confirmField) == Accepted <==> SetPassword.SaveOutcome(newField, confirmField) == Accepted
    ensures ResetOutcome(newField, confirmField) == Accepted <==> IsStrongPair(newField, confirmField)
  {
    ValidatorsAgree(Trim(newField));
  }

  /** A strong new password, repeated. */
  predicate IsStrongPair(newField: string, confirmField: string)
  {
    SetPassword.IsStrong(Trim(newField)) && Trim(newField) == Trim(confirmField)
  }

  /** The reset button: an accepted new password replaces "user_password". */
  method ResetPassword(newField: string, confirmField: string, auth: AuthStore) returns (outcome: Outcome)
    modifies auth`password
    ensures outcome == ResetOutcome(newField, confirmField)
    ensures outcome == Accepted ==> auth.password == Some(Trim(newField))
    ensures outcome != Accepted ==> auth.password == old(auth.password)
  {
    outcome := ResetOutcome(newField, confirmField);
    if outcome == Accepted {
      auth.password := Some(Trim(newField));
    }
  }
}
