/**
 * The "auth_prefs" preferences file the lock screens share: the lock
 * password, the PIN and the PIN's length.
 */
module AuthPrefs {
  import opened Common

  /** The stored entries; None is a key that was never written. */
  class AuthStore {
    /** `user_password`. */
    var password: Option<string>
    /** `user_pin`. */
    var pin: Option<string>
    /** `pin_length`. */
    var pinLength: Option<int>

    constructor ()
      ensures password == None && pin == None && pinLength == None
    {
      password, pin, pinLength := None, None, None;
    }

    /** `getString("user_password", "")`. */
    function StoredPassword(): string
      reads this`password
    {
      OrElse(password, "")
    }

    /** `getString("user_pin", "")`. */
    function StoredPin(): string
      reads this`pin
    {
      OrElse(pin, "")
    }

    /** `getInt("pin_length", 4)`. */
    function StoredPinLength(): int
      reads this`pinLength
    {
      OrElse(pinLength, 4)
    }
  }
}
