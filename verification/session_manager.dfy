/**
 * The SharedPreferences file "monk_temple_session" behind SessionManager: a
 * map from key to value, changed only through editors. An editor collects
 * puts and removes (a put of null is a remove) and an optional clear, and
 * applies them all at once when its `edit { }` block ends: the clear first,
 * then each key's last change. Reads inside a block see the map as it was
 * before the block.
 */
module Preferences {
  import opened Common

  datatype PrefValue = BoolV(b: bool) | StrV(s: string) | LongV(n: int)

  /** A pending editor: whether `clear()` was called, and per key its last put (Some) or remove (None). */
  datatype Editor = Editor(clear: bool, changes: map<string, Option<PrefValue>>)

  /** `apply()`: the map after the editor's changes. */
  function Commit(prefs: map<string, PrefValue>, e: Editor): (r: map<string, PrefValue>)
    ensures forall k :: k in e.changes ==> (k in r <==> e.changes[k].Some?)
    ensures forall k :: k in e.changes && e.changes[k].Some? ==> r[k] == e.changes[k].value
    ensures forall k :: k !in e.changes ==> (k in r <==> !e.clear && k in prefs)
    ensures forall k :: k !in e.changes && k in r ==> r[k] == prefs[k]
  {
    var base := if e.clear then map[] else prefs;
    map k | k in base.Keys + e.changes.Keys && (k in e.changes ==> e.changes[k].Some?) ::
      if k in e.changes then e.changes[k].value else base[k]
  }

  /** The editor of `edit { putX(key, v) }`; a null string is a remove. */
  function PutOne(key: string, v: Option<PrefValue>): Editor
  {
    Editor(false, map[key := v])
  }

  function PutString(key: string, v: Option<string>): Editor
  {
    PutOne(key, if v.Some? then Some(StrV(v.value)) else None)
  }

  function PutBool(key: string, v: bool): Editor
  {
    PutOne(key, Some(BoolV(v)))
  }

  /** `getBoolean(key, default)`; a value of another type also yields the default. */
  function GetBoolean(prefs: map<string, PrefValue>, key: string, default: bool): bool
  {
    if key in prefs && prefs[key].BoolV? then prefs[key].b else default
  }

  /** `getString(key, null)`. */
  function GetString(prefs: map<string, PrefValue>, key: string): Option<string>
  {
    if key in prefs && prefs[key].StrV? then Some(prefs[key].s) else None
  }

  /** `getLong(key, default)`. */
  function GetLong(prefs: map<string, PrefValue>, key: string, default: int): int
  {
    if key in prefs && prefs[key].LongV? then prefs[key].n else default
  }

  /** Committing a single put and reading the key back gives the value put; no other key changes. */
  lemma {:induction false} PutThenGet(prefs: map<string, PrefValue>, key: string, v: Option<string>)
    ensures GetString(Commit(prefs, PutString(key, v)), key) == v
    ensures forall k :: k != key ==> (k in Commit(prefs, PutString(key, v)) <==> k in prefs)
    ensures forall k :: k != key && k in prefs ==> Commit(prefs, PutString(key, v))[k] == prefs[k]
  {
  }

  /** A single put leaves every other key as it was, whatever its type. */
  lemma {:induction false} PutOneKeepsOthers(prefs: map<string, PrefValue>, key: string, v: Option<PrefValue>, k: string)
    requires k != key
    ensures k in Commit(prefs, PutOne(key, v)) <==> k in prefs
    ensures k in prefs ==> Commit(prefs, PutOne(key, v))[k] == prefs[k]
  {
  }

  /** A put of a value is a map update. */
  lemma {:induction false} PutOneIsUpdate(prefs: map<string, PrefValue>, key: string, v: PrefValue)
    ensures Commit(prefs, PutOne(key, Some(v))) == prefs[key := v]
  {
    var r := Commit(prefs, PutOne(key, Some(v)));
    assert r.Keys == prefs.Keys + {key};
  }

  /** Putting back the string a key already holds leaves the map as it was. */
  lemma {:induction false} PutSameIsNoop(prefs: map<string, PrefValue>, key: string, v: string)
    requires GetString(prefs, key) == Some(v)
    ensures Commit(prefs, PutString(key, Some(v))) == prefs
  {
    var r := Commit(prefs, PutString(key, Some(v)));
    assert r.Keys == prefs.Keys;
    forall k | k in r ensures r[k] == prefs[k] { }
  }
}

/**
 * SessionManager: typed accessors over the preferences, the authentication
 * flags and the derived `isAuthRequired`, and the logout and reset paths.
 * The clock is the parameter `now`.
 */
module SessionPrefs {
  import opened Common
  import opened Preferences

  const KEY_PROFILE_IMAGE_URI := "profile_image_uri"
  const KEY_USER_NAME := "user_name"
  const KEY_IS_AUTH_REQUIRED := "is_auth_required"
  const IS_FIRST_TIME := "is_first_time"
  const IS_LOGGED_IN := "is_logged_in"
  const ACCESS_TOKEN := "access_token"
  const USER_ID := "user_id"
  const USER_EMAIL := "user_email"
  const LAST_LOGIN_TIME := "last_login_time"
  const KEY_IS_BIOMETRIC_ENABLED := "is_biometric_enabled"
  const KEY_IS_PASSWORD_ENABLED := "is_password_enabled"
  const KEY_IS_PIN_ENABLED := "is_pin_enabled"
  const PERSISTENT_USER_ID := "persistent_user_id"
  const FIREBASE_UID := "firebase_uid"

  /** `isAnyAuthEnabled()`: biometric, password or PIN lock switched on. */
  function AnyAuthEnabled(prefs: map<string, PrefValue>): bool
  {
    GetBoolean(prefs, KEY_IS_BIOMETRIC_ENABLED, false) || GetBoolean(prefs, KEY_IS_PASSWORD_ENABLED, false)
      || GetBoolean(prefs, KEY_IS_PIN_ENABLED, false)
  }

  function AuthRequired(prefs: map<string, PrefValue>): bool
  {
    GetBoolean(prefs, KEY_IS_AUTH_REQUIRED, false)
  }

  /** `updateAuthRequiredStatus`: store the derived flag, writing only when it differs. */
  function UpdatedAuth(prefs: map<string, PrefValue>): (r: map<string, PrefValue>)
    ensures AuthRequired(r) == AnyAuthEnabled(prefs)
    ensures AnyAuthEnabled(r) == AnyAuthEnabled(prefs)
    ensures forall k :: k != KEY_IS_AUTH_REQUIRED ==> (k in r <==> k in prefs)
    ensures forall k :: k != KEY_IS_AUTH_REQUIRED && k in prefs ==> r[k] == prefs[k]
  {
    var any := AnyAuthEnabled(prefs);
    if AuthRequired(prefs) != any then Commit(prefs, PutBool(KEY_IS_AUTH_REQUIRED, any)) else prefs
  }

  /** Updating twice is updating once, and a map already in agreement is left alone. */
  lemma {:induction false} UpdatedAuthIdempotent(prefs: map<string, PrefValue>)
    ensures UpdatedAuth(UpdatedAuth(prefs)) == UpdatedAuth(prefs)
    ensures AuthRequired(prefs) == AnyAuthEnabled(prefs) ==> UpdatedAuth(prefs) == prefs
  {
  }

  /**
   * A flag setter: the flag's own editor is committed after the nested
   * `updateAuthRequiredStatus`, which read the flags before the change.
   */
  function SetFlag(prefs: map<string, PrefValue>, key: string, value: bool): (r: map<string, PrefValue>)
  {
    Commit(UpdatedAuth(prefs), PutBool(key, value))
  }

  /**
   * After a flag setter the flag holds the new value, while isAuthRequired is
   * the disjunction of the flags as they were BEFORE the call.
   */
  lemma {:induction false} SetFlagLagsBehind(prefs: map<string, PrefValue>, key: string, value: bool)
    requires key in {KEY_IS_BIOMETRIC_ENABLED, KEY_IS_PASSWORD_ENABLED, KEY_IS_PIN_ENABLED}
    ensures GetBoolean(SetFlag(prefs, key, value), key, false) == value
    ensures AuthRequired(SetFlag(prefs, key, value)) == AnyAuthEnabled(prefs)
  {
  }

  /** Enabling the PIN lock on a fresh store leaves isAuthRequired false until the next update. */
  lemma {:induction false} EnablingFirstLockDoesNotRequireAuth()
    ensures GetBoolean(SetFlag(map[], KEY_IS_PIN_ENABLED, true), KEY_IS_PIN_ENABLED, false)
    ensures !AuthRequired(SetFlag(map[], KEY_IS_PIN_ENABLED, true))
    ensures AuthRequired(UpdatedAuth(SetFlag(map[], KEY_IS_PIN_ENABLED, true)))
  {
    SetFlagLagsBehind(map[], KEY_IS_PIN_ENABLED, true);
  }

  /** The editor of `clearOnlyAuthenticationState`. */
  function ClearAuthEditor(): Editor
  {
    Editor(false, map[IS_LOGGED_IN := Some(BoolV(false)), ACCESS_TOKEN := None, LAST_LOGIN_TIME := None])
  }

  class SessionManager {
    var prefs: map<string, PrefValue>

    constructor (prefs: map<string, PrefValue>)
      ensures this.prefs == prefs
    {
      this.prefs := prefs;
    }

    /** `clearOnlyAuthenticationState`: logged out, no token, no last-login time; every other key kept. */
    method ClearOnlyAuthenticationState()
      modifies this
      ensures prefs == Commit(old(prefs), ClearAuthEditor())
      ensures !IsLoggedIn() && FetchAuthToken().None? && GetLastLoginTime() == 0
      ensures ACCESS_TOKEN !in prefs && LAST_LOGIN_TIME !in prefs
      ensures forall k :: k !in {IS_LOGGED_IN, ACCESS_TOKEN, LAST_LOGIN_TIME} ==>
        (k in prefs <==> k in old(prefs)) && (k in prefs ==> prefs[k] == old(prefs)[k])
    {
      prefs := Commit(prefs, ClearAuthEditor());
    }

    /** `clearAllUserData`: the editor clears everything. */
    method ClearAllUserData()
      modifies this
      ensures prefs == map[]
    {
      prefs := Commit(prefs, Editor(true, map[]));
    }

    /** `factoryReset`: the same clear. */
    method FactoryReset()
      modifies this
      ensures prefs == map[]
    {
      prefs := Commit(prefs, Editor(true, map[]));
    }

    function IsAuthRequired(): (r: bool)
      reads this
      ensures r <==> KEY_IS_AUTH_REQUIRED in prefs && prefs[KEY_IS_AUTH_REQUIRED] == BoolV(true)
    {
      AuthRequired(prefs)
    }

    /** `resetAllAuthentication`: all three locks off, then the derived flag follows. */
    method ResetAllAuthentication()
      modifies this
      ensures !IsBiometricEnabled() && !IsPasswordEnabled() && !IsPinEnabled() && !IsAuthRequired()
      ensures prefs == UpdatedAuth(Commit(old(prefs), Editor(false, map[
        KEY_IS_BIOMETRIC_ENABLED := Some(BoolV(false)), KEY_IS_PASSWORD_ENABLED := Some(BoolV(false)),
        KEY_IS_PIN_ENABLED := Some(BoolV(false))])))
    {
      prefs := Commit(prefs, Editor(false, map[
        KEY_IS_BIOMETRIC_ENABLED := Some(BoolV(false)), KEY_IS_PASSWORD_ENABLED := Some(BoolV(false)),
        KEY_IS_PIN_ENABLED := Some(BoolV(false))]));
      UpdateAuthRequiredStatus();
    }

    /** `updateAuthRequiredStatus`. */
    method UpdateAuthRequiredStatus()
      modifies this
      ensures prefs == UpdatedAuth(old(prefs))
      ensures IsAuthRequired() == IsAnyAuthEnabled()
    {
      var isAnyAuthEnabled := IsAnyAuthEnabled();
      if IsAuthRequired() != isAnyAuthEnabled {
        prefs := Commit(prefs, PutBool(KEY_IS_AUTH_REQUIRED, isAnyAuthEnabled));
      }
    }

    function IsAnyAuthEnabled(): (r: bool)
      reads this
      ensures r <==> IsBiometricEnabled() || IsPasswordEnabled() || IsPinEnabled()
    {
      AnyAuthEnabled(prefs)
    }

    function IsFirstTime(): (r: bool)
      reads this
      ensures !r <==> IS_FIRST_TIME in prefs && prefs[IS_FIRST_TIME] == BoolV(false)
    {
      GetBoolean(prefs, IS_FIRST_TIME, true)
    }

    method SetIsFirstTime(value: bool)
      modifies this
      ensures prefs == Commit(old(prefs), PutBool(IS_FIRST_TIME, value))
    {
      prefs := Commit(prefs, PutBool(IS_FIRST_TIME, value));
    }

    function IsLoggedIn(): (r: bool)
      reads this
      ensures r <==> IS_LOGGED_IN in prefs && prefs[IS_LOGGED_IN] == BoolV(true)
    {
      GetBoolean(prefs, IS_LOGGED_IN, false)
    }

    method SetIsLoggedIn(value: bool)
      modifies this
      ensures prefs == Commit(old(prefs), PutBool(IS_LOGGED_IN, value))
    {
      prefs := Commit(prefs, PutBool(IS_LOGGED_IN, value));
    }

    function IsBiometricEnabled(): (r: bool)
      reads this
      ensures r <==> KEY_IS_BIOMETRIC_ENABLED in prefs && prefs[KEY_IS_BIOMETRIC_ENABLED] == BoolV(true)
    {
      GetBoolean(prefs, KEY_IS_BIOMETRIC_ENABLED, false)
    }

    function IsPasswordEnabled(): (r: bool)
      reads this
      ensures r <==> KEY_IS_PASSWORD_ENABLED in prefs && prefs[KEY_IS_PASSWORD_ENABLED] == BoolV(true)
    {
      GetBoolean(prefs, KEY_IS_PASSWORD_ENABLED, false)
    }

    function IsPinEnabled(): (r: bool)
      reads this
      ensures r <==> KEY_IS_PIN_ENABLED in prefs && prefs[KEY_IS_PIN_ENABLED] == BoolV(true)
    {
      GetBoolean(prefs, KEY_IS_PIN_ENABLED, false)
    }

    /** The setters of the three lock flags share one shape: see SetFlag. */
    method SetBiometricEnabled(value: bool)
      modifies this
      ensures prefs == SetFlag(old(prefs), KEY_IS_BIOMETRIC_ENABLED, value)
    {
      var block := PutBool(KEY_IS_BIOMETRIC_ENABLED, value);
      UpdateAuthRequiredStatus();
      prefs := Commit(prefs, block);
    }

    method SetPasswordEnabled(value: bool)
      modifies this
      ensures prefs == SetFlag(old(prefs), KEY_IS_PASSWORD_ENABLED, value)
    {
      var block := PutBool(KEY_IS_PASSWORD_ENABLED, value);
      UpdateAuthRequiredStatus();
      prefs := Commit(prefs, block);
    }

    method SetPinEnabled(value: bool)
      modifies this
      ensures prefs == SetFlag(old(prefs), KEY_IS_PIN_ENABLED, value)
    {
      var block := PutBool(KEY_IS_PIN_ENABLED, value);
      UpdateAuthRequiredStatus();
      prefs := Commit(prefs, block);
    }

    method SaveAuthToken(token: Option<string>)
      modifies this
      ensures prefs == Commit(old(prefs), PutString(ACCESS_TOKEN, token))
    {
      prefs := Commit(prefs, PutString(ACCESS_TOKEN, token));
    }

    function FetchAuthToken(): (r: Option<string>)
      reads this
      ensures r.Some? <==> ACCESS_TOKEN in prefs && prefs[ACCESS_TOKEN].StrV?
      ensures r.Some? ==> prefs[ACCESS_TOKEN] == StrV(r.value)
    {
      GetString(prefs, ACCESS_TOKEN)
    }

    /** `saveUserDetails`: one editor with both puts. */
    method SaveUserDetails(id: Option<string>, email: Option<string>)
      modifies this
      ensures GetUserId() == id && GetUserEmail() == email
      ensures forall k :: k !in {USER_ID, USER_EMAIL} ==>
        (k in prefs <==> k in old(prefs)) && (k in prefs ==> prefs[k] == old(prefs)[k])
    {
      prefs := Commit(prefs, Editor(false, map[
        USER_ID := if id.Some? then Some(StrV(id.value)) else None,
        USER_EMAIL := if email.Some? then Some(StrV(email.value)) else None]));
    }

    function GetUserId(): (r: Option<string>)
      reads this
      ensures r.Some? <==> USER_ID in prefs && prefs[USER_ID].StrV?
      ensures r.Some? ==> prefs[USER_ID] == StrV(r.value)
    {
      GetString(prefs, USER_ID)
    }

    method SaveUserEmail(email: Option<string>)
      modifies this
      ensures prefs == Commit(old(prefs), PutString(USER_EMAIL, email))
    {
      prefs := Commit(prefs, PutString(USER_EMAIL, email));
    }

    function GetUserEmail(): (r: Option<string>)
      reads this
      ensures r.Some? <==> USER_EMAIL in prefs && prefs[USER_EMAIL].StrV?
      ensures r.Some? ==> prefs[USER_EMAIL] == StrV(r.value)
    {
      GetString(prefs, USER_EMAIL)
    }

    method UpdateLastLoginTime(now: int)
      modifies this
      ensures prefs == Commit(old(prefs), PutOne(LAST_LOGIN_TIME, Some(LongV(now))))
    {
      prefs := Commit(prefs, PutOne(LAST_LOGIN_TIME, Some(LongV(now))));
    }

    function GetLastLoginTime(): (r: int)
      reads this
      ensures LAST_LOGIN_TIME in prefs && prefs[LAST_LOGIN_TIME].LongV? ==> r == prefs[LAST_LOGIN_TIME].n
      ensures !(LAST_LOGIN_TIME in prefs && prefs[LAST_LOGIN_TIME].LongV?) ==> r == 0
    {
      GetLong(prefs, LAST_LOGIN_TIME, 0)
    }

    method SaveProfileImageUri(uri: Option<string>)
      modifies this
      ensures prefs == Commit(old(prefs), PutString(KEY_PROFILE_IMAGE_URI, uri))
    {
      prefs := Commit(prefs, PutString(KEY_PROFILE_IMAGE_URI, uri));
    }

    function GetProfileImageUri(): (r: Option<string>)
      reads this
      ensures r.Some? <==> KEY_PROFILE_IMAGE_URI in prefs && prefs[KEY_PROFILE_IMAGE_URI].StrV?
      ensures r.Some? ==> prefs[KEY_PROFILE_IMAGE_URI] == StrV(r.value)
    {
      GetString(prefs, KEY_PROFILE_IMAGE_URI)
    }

    method SaveUserName(name: Option<string>)
      modifies this
      ensures prefs == Commit(old(prefs), PutString(KEY_USER_NAME, name))
    {
      prefs := Commit(prefs, PutString(KEY_USER_NAME, name));
    }

    function GetUserName(): (r: Option<string>)
      reads this
      ensures r.Some? <==> KEY_USER_NAME in prefs && prefs[KEY_USER_NAME].StrV?
      ensures r.Some? ==> prefs[KEY_USER_NAME] == StrV(r.value)
    {
      GetString(prefs, KEY_USER_NAME)
    }

    method SaveFirebaseUid(uid: string)
      modifies this
      ensures prefs == Commit(old(prefs), PutString(FIREBASE_UID, Some(uid)))
      ensures GetFirebaseUid() == Some(uid)
    {
      prefs := Commit(prefs, PutString(FIREBASE_UID, Some(uid)));
    }

    function GetFirebaseUid(): (r: Option<string>)
      reads this
      ensures r.Some? <==> FIREBASE_UID in prefs && prefs[FIREBASE_UID].StrV?
      ensures r.Some? ==> prefs[FIREBASE_UID] == StrV(r.value)
    {
      GetString(prefs, FIREBASE_UID)
    }

    /** `clearFirebaseUid`: removes that key only. */
    method ClearFirebaseUid()
      modifies this
      ensures GetFirebaseUid().None?
      ensures prefs == old(prefs) - {FIREBASE_UID}
    {
      prefs := Commit(prefs, PutString(FIREBASE_UID, None));
    }

    method SavePersistentUserId(userId: string)
      modifies this
      ensures prefs == Commit(old(prefs), PutString(PERSISTENT_USER_ID, Some(userId)))
    {
      prefs := Commit(prefs, PutString(PERSISTENT_USER_ID, Some(userId)));
    }

    function GetPersistentUserId(): (r: Option<string>)
      reads this
      ensures r.Some? <==> PERSISTENT_USER_ID in prefs && prefs[PERSISTENT_USER_ID].StrV?
      ensures r.Some? ==> prefs[PERSISTENT_USER_ID] == StrV(r.value)
    {
      GetString(prefs, PERSISTENT_USER_ID)
    }

    /** `syncAuthenticationStatus`: the private setter runs only when the stored flag disagrees. */
    method SyncAuthenticationStatus()
      modifies this
      ensures IsAuthRequired() == IsAnyAuthEnabled()
      ensures prefs == UpdatedAuth(old(prefs))
    {
      var isAnyAuthEnabled := IsAnyAuthEnabled();
      if IsAuthRequired() != isAnyAuthEnabled {
        prefs := Commit(prefs, PutBool(KEY_IS_AUTH_REQUIRED, isAnyAuthEnabled));
      }
    }
  }

  /** Clearing the authentication state keeps uid, name, email and photo, and leaves the user logged out. */
  lemma {:induction false} LogoutKeepsIdentity(prefs: map<string, PrefValue>)
    ensures var after := Commit(prefs, ClearAuthEditor());
      && !GetBoolean(after, IS_LOGGED_IN, false)
      && GetString(after, ACCESS_TOKEN).None? && GetLong(after, LAST_LOGIN_TIME, 0) == 0
      && GetString(after, FIREBASE_UID) == GetString(prefs, FIREBASE_UID)
      && GetString(after, KEY_USER_NAME) == GetString(prefs, KEY_USER_NAME)
      && GetString(after, USER_EMAIL) == GetString(prefs, USER_EMAIL)
      && GetString(after, KEY_PROFILE_IMAGE_URI) == GetString(prefs, KEY_PROFILE_IMAGE_URI)
  {
  }

  /**
   * After a full clear every getter returns its default: first run, logged
   * out, no lock, no strings, last login 0.
   */
  lemma {:induction false} ClearedStoreDefaults(prefs: map<string, PrefValue>)
    requires prefs == Commit(prefs, Editor(true, map[]))
    ensures prefs == map[]
    ensures GetBoolean(prefs, IS_FIRST_TIME, true)
    ensures !GetBoolean(prefs, IS_LOGGED_IN, false) && !AnyAuthEnabled(prefs) && !AuthRequired(prefs)
    ensures GetString(prefs, FIREBASE_UID).None? && GetString(prefs, KEY_USER_NAME).None?
      && GetString(prefs, USER_EMAIL).None? && GetString(prefs, KEY_PROFILE_IMAGE_URI).None?
      && GetString(prefs, ACCESS_TOKEN).None? && GetString(prefs, USER_ID).None?
    ensures GetLong(prefs, LAST_LOGIN_TIME, 0) == 0
  {
    assert Commit(prefs, Editor(true, map[])).Keys == {};
  }
}
