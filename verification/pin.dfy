/**
 * Setting the lock PIN: a length of four or six digits chosen with a toggle
 * group, two input fields limited to that length, and the button that
 * stores the PIN and its length in "auth_prefs" and switches the PIN lock
 * on.
 */
module SetPin {
  import opened Common
  import opened TextInput
  import opened AuthPrefs
  import opened Preferences
  import opened SessionPrefs

  const MSG_FILL_ALL := "Please fill all fields"
  const MSG_ONLY_NUMBERS := "PIN must contain only numbers"
  const MSG_MISMATCH := "PINs do not match"

  /** "PIN must be exactly <n> digits". */
  function WrongLengthMessage(n: int): string
  {
    "PIN must be exactly " + IntToString(n) + " digits"
  }

  /** `matches(Regex("\\d+"))`: one or more of '0'..'9' and nothing else. */
  predicate AllDigits(s: string)
  {
    |s| >= 1 && forall i :: 0 <= i < |s| ==> IsDigit(s[i])
  }

  /**
   * The set button's checks on the two fields, trimmed: neither empty, the
   * PIN exactly `length` long, digits only, equal to the confirmation, in
   * that order.
   */
  function PinOutcome(pinField: string, confirmField: string, length: int): (r: Outcome)
    ensures r == Accepted <==>
      AllDigits(Trim(pinField)) && |Trim(pinField)| == length && Trim(pinField) == Trim(confirmField)
    ensures Trim(pinField) == [] || Trim(confirmField) == [] ==> r == Rejected(MSG_FILL_ALL)
    ensures Trim(pinField) != [] && Trim(confirmField) != [] && |Trim(pinField)| != length
      ==> r == Rejected(WrongLengthMessage(length))
    ensures Trim(pinField) != [] && Trim(confirmField) != [] && |Trim(pinField)| == length && !AllDigits(Trim(pinField))
      ==> r == Rejected(MSG_ONLY_NUMBERS)
  {
    var pin, confirm := Trim(pinField), Trim(confirmField);
    if pin == [] || confirm == [] then Rejected(MSG_FILL_ALL)
    else if |pin| != length then Rejected(WrongLengthMessage(length))
    else if !AllDigits(pin) then Rejected(MSG_ONLY_NUMBERS)
    else if pin != confirm then Rejected(MSG_MISMATCH)
    else Accepted
  }

  /** The two buttons of the length toggle group. */
  datatype LengthButton = FourDigits | SixDigits

  /** `LengthFilter(n)`: a field keeps at most `n` characters of what is typed. */
  function LengthFilter(text: string, n: nat): (r: string)
    ensures |r| <= n && |r| <= |text| && r == text[..|r|]
    ensures |text| <= n ==> r == text
  {
    if |text| <= n then text else text[..n]
  }

  /** The set-PIN screen: the chosen length and the text of the two fields. */
  class SetPinActivity {
    var selectedPinLength: int
    var pinText: string
    var confirmText: string

    /** The length is four or six, and neither field holds more characters than that. */
    predicate Valid()
      reads this
    {
      (selectedPinLength == 4 || selectedPinLength == 6)
      && |pinText| <= selectedPinLength && |confirmText| <= selectedPinLength
    }

    /** `onCreate`: four digits preselected, both fields empty. */
    constructor ()
      ensures Valid() && selectedPinLength == 4 && pinText == [] && confirmText == []
    {
      selectedPinLength, pinText, confirmText := 4, [], [];
    }

    /**
     * The toggle group's listener: checking a button selects its length and
     * clears both fields; an unchecked event changes nothing.
     */
    method OnButtonChecked(button: LengthButton, isChecked: bool)
      requires Valid()
      modifies this
      ensures Valid()
      ensures isChecked ==> selectedPinLength == (if button == FourDigits then 4 else 6) && pinText == [] && confirmText == []
      ensures !isChecked ==> selectedPinLength == old(selectedPinLength) && pinText == old(pinText) && confirmText == old(confirmText)
    {
      if isChecked {
        selectedPinLength := if button == FourDigits then 4 else 6;
        pinText, confirmText := [], [];
      }
    }

    /** Typing into the two fields, through their length filters. */
    method EnterText(pin: string, confirm: string)
      requires Valid()
      modifies this`pinText, this`confirmText
      ensures Valid()
      ensures pinText == LengthFilter(pin, selectedPinLength) && confirmText == LengthFilter(confirm, selectedPinLength)
    {
      pinText := LengthFilter(pin, selectedPinLength);
      confirmText := LengthFilter(confirm, selectedPinLength);
    }

    /**
     * The set button: on acceptance "user_pin" holds the trimmed PIN,
     * "pin_length" the chosen length, and the PIN lock is switched on;
     * otherwise nothing is written.
     */
    method OnSetPin(auth: AuthStore, session: SessionManager) returns (outcome: Outcome)
      modifies auth`pin, auth`pinLength, session
      ensures outcome == PinOutcome(old(pinText), old(confirmText), old(selectedPinLength))
      ensures outcome == Accepted ==>
        auth.pin == Some(Trim(old(pinText))) && auth.pinLength == Some(old(selectedPinLength))
        && session.prefs == SetFlag(old(session.prefs), KEY_IS_PIN_ENABLED, true)
      ensures outcome != Accepted ==>
        auth.pin == old(auth.pin) && auth.pinLength == old(auth.pinLength) && session.prefs == old(session.prefs)
    {
      var pin, length := Trim(pinText), selectedPinLength;
      outcome := PinOutcome(pinText, confirmText, length);
      if outcome == Accepted {
        StorePin(pin, length, auth, session);
      }
    }
  }

  /** The write that ends an accepted PIN: PIN and length into "auth_prefs", the lock flag on. */
  method StorePin(pin: string, length: int, auth: AuthStore, session: SessionManager)
    modifies auth`pin, auth`pinLength, session
    ensures auth.pin == Some(pin) && auth.pinLength == Some(length)
    ensures session.prefs == SetFlag(old(session.prefs), KEY_IS_PIN_ENABLED, true)
  {
    auth.pin := Some(pin);
    auth.pinLength := Some(length);
    session.SetPinEnabled(true);
  }

  /** An accepted PIN has the chosen length, four or six digits. */
  lemma AcceptedPinShape(a: SetPinActivity)
    requires a.Valid() && PinOutcome(a.pinText, a.confirmText, a.selectedPinLength) == Accepted
    ensures var pin := Trim(a.pinText); AllDigits(pin) && (|pin| == 4 || |pin| == 6)
  {
  }
}

/**
 * The PIN lock screen: the length read from "pin_length", checking an entry
 * against the stored PIN, and the reset dialog reached after a fingerprint
 * check.
 */
module PinCheck {
  import opened Common
  import opened TextInput
  import opened AuthPrefs
  import SetPin

  const MSG_ENTER_PIN := "Please enter your PIN"

  /** "Please enter a valid <n>-digit PIN". */
  function InvalidEntryMessage(n: int): string
  {
    "Please enter a valid " + IntToString(n) + "-digit PIN"
  }

  /** What the verify button leads to. */
  datatype Verdict = WrongLength(message: string) | Correct | Incorrect

  /**
   * The verify button: an entry (trimmed) that is empty or not exactly the
   * required length is refused before any comparison; otherwise it is
   * compared with the stored PIN, "" when none is stored.
   */
  function Verify(entryField: string, requiredPinLength: int, auth: AuthStore): (v: Verdict)
    reads auth`pin
    ensures v.WrongLength? <==> Trim(entryField) == [] || |Trim(entryField)| != requiredPinLength
    ensures v == Correct <==>
      Trim(entryField) != [] && |Trim(entryField)| == requiredPinLength && auth.pin == Some(Trim(entryField))
  {
    var entered := Trim(entryField);
    if entered == [] || |entered| != requiredPinLength then WrongLength(InvalidEntryMessage(requiredPinLength))
    else if entered == auth.StoredPin() then Correct
    else Incorrect
  }

  /**
   * The reset dialog's checks, trimmed: neither field empty, the new PIN
   * exactly the required length, the two equal, in that order. There is no
   * digits-only rule here.
   */
  function ResetOutcome(newField: string, confirmField: string, requiredPinLength: int): (r: Outcome)
    ensures r == Accepted <==>
      Trim(newField) != [] && |Trim(newField)| == requiredPinLength && Trim(newField) == Trim(confirmField)
    ensures Trim(newField) == [] || Trim(confirmField) == [] ==> r == Rejected(MSG_ENTER_PIN)
    ensures Trim(newField) != [] && Trim(confirmField) != [] && |Trim(newField)| != requiredPinLength
      ==> r == Rejected(SetPin.WrongLengthMessage(requiredPinLength))
  {
    var pin, confirm := Trim(newField), Trim(confirmField);
    if pin == [] || confirm == [] then Rejected(MSG_ENTER_PIN)
    else if |pin| != requiredPinLength then Rejected(SetPin.WrongLengthMessage(requiredPinLength))
    else if pin != confirm then Rejected(SetPin.MSG_MISMATCH)
    else Accepted
  }

  /** The reset dialog takes a PIN of letters that the set-PIN screen refuses. */
  lemma ResetSkipsDigitCheck()
    ensures ResetOutcome("abcd", "abcd", 4) == Accepted
    ensures SetPin.PinOutcome("abcd", "abcd", 4) == Rejected(SetPin.MSG_ONLY_NUMBERS)
  {
    assert Trim("abcd") == "abcd" by {
      TrimOfTrimmed("abcd");
    }
    assert !IsDigit("abcd"[0]);
  }

  /** Every PIN the set-PIN screen accepts, the reset dialog accepts too. */
  lemma ResetAcceptsWhatSetAccepts(newField: string, confirmField: string, length: int)
    requires SetPin.PinOutcome(newField, confirmField, length) == Accepted
    ensures ResetOutcome(newField, confirmField, length) == Accepted
  {
  }

  /** The PIN screen: the length an entry must have. */
  class PinVerificationActivity {
    var requiredPinLength: int

    /** `onCreate`: the length stored with the PIN, four when none is stored. */
    constructor (auth: AuthStore)
      ensures requiredPinLength == auth.StoredPinLength()
      ensures auth.pinLength.None? ==> requiredPinLength == 4
    {
      requiredPinLength := auth.StoredPinLength();
    }

    /** The reset button: an accepted new PIN replaces "user_pin"; "pin_length" is left as it is. */
    method ResetPin(newField: string, confirmField: string, auth: AuthStore) returns (outcome: Outcome)
      modifies auth`pin
      ensures outcome == ResetOutcome(newField, confirmField, requiredPinLength)
      ensures outcome == Accepted ==> auth.pin == Some(Trim(newField))
      ensures outcome != Accepted ==> auth.pin == old(auth.pin)
    {
      outcome := ResetOutcome(newField, confirmField, requiredPinLength);
      if outcome == Accepted {
        auth.pin := Some(Trim(newField));
      }
    }
  }

  /**
   * A PIN set through the set-PIN screen, with its length stored beside it,
   * opens the PIN screen with exactly the entries that trim to it.
   */
  lemma SetThenVerify(a: SetPin.SetPinActivity, auth: AuthStore, entryField: string)
    requires a.Valid() && SetPin.PinOutcome(a.pinText, a.confirmText, a.selectedPinLength) == Accepted
    requires auth.pin == Some(Trim(a.pinText)) && auth.pinLength == Some(a.selectedPinLength)
    ensures Verify(entryField, auth.StoredPinLength(), auth) == Correct <==> Trim(entryField) == Trim(a.pinText)
  {
  }
}
