# MonkTemple: a verified model of the session and statistics engine

MonkTemple is an Android meditation and focus timer. A user runs a countdown.
Each finished or cancelled countdown becomes a session row in a local Room
database. Sessions are synced with Firestore and summed into statistics.
Insights and charts are computed from the sessions. A password or PIN lock
guards the app.

This project models the parts of the app that decide data and rules, one
Dafny module per source component:

- **Records** (`entities.dfy`): the three Room tables and the Firestore
  documents. The same file holds the millisecond-to-`Timestamp` conversion.
- **Local store** (`local_store.dfy`): the DAO over the tables, as a class.
  `INSERT OR REPLACE`, cascading deletes, foreign keys and `AUTOINCREMENT`
  are written out.
- **Remote store** (`remote_store.dfy`): the Firestore collections, as maps
  from document id to document. An `online` flag decides whether a call
  reaches the server.
- **Two-way sync and login/logout** (`user_data_manager.dfy`): push, then a
  pull that skips sessions already present, then the statistics push.
- **Multi-device merge** (`reconciliation.dfy`, `multi_device_sync.dfy`): one
  session per completion time, newest first, the longer duration winning.
  The merge runs as a loop that counts conflicts.
- **Statistics** (`statistics_calc.dfy`, `repository.dfy`): count, total,
  average, longest, completion rate and most productive day. The repository
  also migrates ownership.
- **Background sync jobs** (`data_sync_manager.dfy`): the named-job registry
  and the status writes around a sync.
- **Preferences** (`session_manager.dfy`, `auth_prefs.dfy`): the session
  preferences, whose `edit { }` batches apply at the end of the block, and
  the lock settings.
- **Screens**: the countdown (`timer_screen.dfy`), the statistics texts and
  charts (`statistics_screen.dfy`), insights and their texts (`insights.dfy`,
  `insights_format.dfy`), customization templates (`customization.dfy`), and
  the password, PIN and sign-up checks (`password.dfy`, `pin.dfy`,
  `sign_up.dfy`, `text_input.dfy`).

Some inputs are parameters of the model rather than parts of it:

- the clock (`now`);
- the weekday, hour and day of an instant (`weekdayOf`, `hourOf`, `dayOf`),
  which the app reads from the calendar and time zone;
- the platform's e-mail pattern (`isEmail`).

Where the app computes in `Float` or `Double`, the model uses exact rationals
or millisecond sums. Where the app computes in 32-bit `Int`, the wrap-around
is written out.

`calculateMostProductiveDay` has the same body in
app/src/main/java/com/example/monktemple/RoomUser/UserRepository.kt:134-147,
app/src/main/java/com/example/monktemple/data/sync/UserDataManager.kt:527-539
and app/src/main/java/com/example/monktemple/Statistics.kt:461-477. The
single definition `StatisticsCalc.MostProductiveDay` models all three. The
same holds for the statistics formulas, which UserDataManager repeats inline.

## Model

| member | source | states |
|---|---|---|
| Common.NatToString | app/src/main/java/com/example/monktemple/Statistics.kt:484 | the decimal text of a natural number is non-empty, all digits, and one digit long exactly below 10 |
| Common.IntToString | app/src/main/java/com/example/monktemple/data/sync/UserDataManager.kt:176 | the text starts with '-' exactly for a negative number |
| Common.IntToStringInjective | app/src/main/java/com/example/monktemple/data/sync/UserDataManager.kt:176 | distinct integers print differently, so ids built from them differ |
| Common.TruncDiv | app/src/main/java/com/example/monktemple/data/sync/UserDataManager.kt:178 | Kotlin's `/` truncates toward zero: it is Euclidean division for a non-negative dividend and the negated quotient of the magnitude otherwise |
| Common.TruncRem | app/src/main/java/com/example/monktemple/data/sync/UserDataManager.kt:179 | Kotlin's `%`: dividend = divisor × quotient + remainder, with the remainder taking the dividend's sign |
| Common.Int32 | app/src/main/java/com/example/monktemple/data/sync/EnhancedSyncManager.kt:44 | a 32-bit `Int` result lies in [-2^31, 2^31), is congruent to the exact value modulo 2^32, and equals it when it fits |
| Common.Filter | app/src/main/java/com/example/monktemple/data/sync/UserDataManager.kt:477 | `filter` keeps exactly the elements satisfying the predicate and never grows the list |
| Common.Find | app/src/main/java/com/example/monktemple/data/sync/UserDataManager.kt:197-198 | `find` returns nothing exactly when no element qualifies, and otherwise the first qualifying element |
| Common.Join | app/src/main/java/com/example/monktemple/InsightsActivity.kt:154 | `joinToString` of nothing is "", of one item that item, and otherwise the first item, the separator and the join of the rest |
| Common.JoinConcat | app/src/main/java/com/example/monktemple/InsightsActivity.kt:145 | joining two non-empty lists end to end is joining each with the separator between them |
| Entities.DayLabel | app/src/main/java/com/example/monktemple/data/sync/UserDataManager.kt:530-536 | the weekday label is the three-letter name from Sun to Sat |
| Entities.DayLabelInjective | app/src/main/java/com/example/monktemple/data/sync/UserDataManager.kt:530-536 | distinct weekdays have distinct labels, so grouping by label is grouping by weekday |
| Timestamps.MillisToTimestamp | app/src/main/java/com/example/monktemple/data/sync/UserDataManager.kt:178-179 | the conversion yields a Timestamp exactly when the constructor accepts it (nanoseconds in [0, 10^9), seconds in years 1..9999), and what it yields is valid |
| Timestamps.MillisRoundTrip | app/src/main/java/com/example/monktemple/data/sync/UserDataManager.kt:241-244 | from the epoch to year 9999 the conversion succeeds, reading the instant back gives the same milliseconds, and the sync key is the milliseconds with the sub-second part dropped |
| Timestamps.MillisReadsBack | app/src/main/java/com/example/monktemple/data/sync/UserDataManager.kt:241-244 | whenever the conversion succeeds, the timestamp reads back as the same instant |
| Timestamps.NegativeFractionRejected | app/src/main/java/com/example/monktemple/data/sync/UserDataManager.kt:507-508 | a negative instant that is not a whole second makes the constructor throw |
| Timestamps.MillisToTimestampAsWritten | app/src/main/java/com/example/monktemple/data/sync/EnhancedSyncManager.kt:64-65 | the conversion with the factor 1000, as written, yields a valid Timestamp with the truncated seconds |
| Timestamps.AsWrittenDropsMillis | app/src/main/java/com/example/monktemple/data/sync/EnhancedSyncManager.kt:64-65 | with that factor every instant from the epoch reads back as its whole second |
| Timestamps.AsWrittenReadsBackWhole | app/src/main/java/com/example/monktemple/data/sync/EnhancedSyncManager.kt:64-65 | whenever the conversion as written succeeds, the timestamp reads back as a whole second |
| Timestamps.AsWrittenCounterexample | app/src/main/java/com/example/monktemple/data/sync/EnhancedSyncManager.kt:64-65 | 1500 ms is stored as 1 s + 500000 ns and reads back as 1000 ms, where the correct conversion gives 1500 |
| TextInput.TrimStart | app/src/main/java/com/example/monktemple/setPasswordActivity.kt:42-43 | `trimStart()` cuts only whitespace from the front, and what remains does not start with whitespace |
| TextInput.TrimEnd | app/src/main/java/com/example/monktemple/setPasswordActivity.kt:42-43 | `trimEnd()` cuts only whitespace from the back, and what remains does not end with whitespace |
| TextInput.Trim | app/src/main/java/com/example/monktemple/setPasswordActivity.kt:42-43 | `trim()` leaves a stretch of the text that neither starts nor ends with whitespace, and only whitespace was cut around it |
| TextInput.TrimOfTrimmed | app/src/main/java/com/example/monktemple/PasswordVerification.kt:51-52 | text without surrounding whitespace is its own trim |
| TextInput.TrimIdempotent | app/src/main/java/com/example/monktemple/signUpActivity.kt:118-120 | trimming twice is trimming once |
| TextInput.TrimEmpty | app/src/main/java/com/example/monktemple/PasswordVerification.kt:51-56 | a field trims to nothing exactly when it is all whitespace |
| Preferences.Commit | app/src/main/java/com/example/monktemple/Utlis/SessionManager.kt:34-39 | an `edit { }` block applies at its end: a key it changed holds its last put or is removed, and an untouched key survives unless the block cleared the file |
| Preferences.PutThenGet | app/src/main/java/com/example/monktemple/Utlis/SessionManager.kt:172-177 | after a single put the key reads back the value put, and every other key is as it was |
| Preferences.PutOneKeepsOthers | app/src/main/java/com/example/monktemple/Utlis/SessionManager.kt:116-118 | a single put leaves every other key as it was, whatever its type |
| Preferences.PutOneIsUpdate | app/src/main/java/com/example/monktemple/Utlis/SessionManager.kt:85-87 | a put of a value is a map update of that key |
| Preferences.PutSameIsNoop | app/src/main/java/com/example/monktemple/data/sync/UserDataManager.kt:309-324 | writing back the string a key already holds leaves the file unchanged |
| SessionPrefs.UpdatedAuth | app/src/main/java/com/example/monktemple/Utlis/SessionManager.kt:69-79 | afterwards `isAuthRequired` equals biometric ∨ password ∨ PIN enabled; the three flags and every other key are unchanged |
| SessionPrefs.UpdatedAuthIdempotent | app/src/main/java/com/example/monktemple/Utlis/SessionManager.kt:69-79 | updating twice is updating once, and a file already in agreement is left alone |
| SessionPrefs.SetFlagLagsBehind | app/src/main/java/com/example/monktemple/Utlis/SessionManager.kt:94-113 | after a flag setter the flag holds the new value, but `isAuthRequired` is the disjunction of the flags as they were before the call |
| SessionPrefs.EnablingFirstLockDoesNotRequireAuth | app/src/main/java/com/example/monktemple/Utlis/SessionManager.kt:108-113 | on an empty file, switching the PIN lock on leaves `isAuthRequired` false until the next update, which makes it true |
| SessionPrefs.SessionManager.constructor | app/src/main/java/com/example/monktemple/Utlis/SessionManager.kt:9-10 | the manager starts over the given preferences |
| SessionPrefs.SessionManager.ClearOnlyAuthenticationState | app/src/main/java/com/example/monktemple/Utlis/SessionManager.kt:32-40 | logged out, no access token, last-login time reads 0, and every other key unchanged |
| SessionPrefs.SessionManager.ClearAllUserData | app/src/main/java/com/example/monktemple/Utlis/SessionManager.kt:43-47 | the file is empty |
| SessionPrefs.SessionManager.FactoryReset | app/src/main/java/com/example/monktemple/Utlis/SessionManager.kt:151-153 | the file is empty |
| SessionPrefs.SessionManager.ResetAllAuthentication | app/src/main/java/com/example/monktemple/Utlis/SessionManager.kt:57-66 | all three lock flags and `isAuthRequired` read false |
| SessionPrefs.SessionManager.UpdateAuthRequiredStatus | app/src/main/java/com/example/monktemple/Utlis/SessionManager.kt:69-79 | the file becomes UpdatedAuth of the old one, so `isAuthRequired` agrees with the flags |
| SessionPrefs.SessionManager.SetIsFirstTime | app/src/main/java/com/example/monktemple/Utlis/SessionManager.kt:85-87 | the file after one put of `is_first_time` |
| SessionPrefs.SessionManager.SetIsLoggedIn | app/src/main/java/com/example/monktemple/Utlis/SessionManager.kt:89-91 | the file after one put of `is_logged_in` |
| SessionPrefs.SessionManager.SetBiometricEnabled | app/src/main/java/com/example/monktemple/Utlis/SessionManager.kt:94-99 | the file after the nested update and then the flag's own put (see SetFlagLagsBehind) |
| SessionPrefs.SessionManager.SetPasswordEnabled | app/src/main/java/com/example/monktemple/Utlis/SessionManager.kt:101-106 | the file after the nested update and then the flag's own put |
| SessionPrefs.SessionManager.SetPinEnabled | app/src/main/java/com/example/monktemple/Utlis/SessionManager.kt:108-113 | the file after the nested update and then the flag's own put |
| SessionPrefs.SessionManager.SaveAuthToken | app/src/main/java/com/example/monktemple/Utlis/SessionManager.kt:116-118 | the file after one put of the token; a null token removes the key |
| SessionPrefs.SessionManager.SaveUserDetails | app/src/main/java/com/example/monktemple/Utlis/SessionManager.kt:124-129 | user id and email read back as given, and every other key is unchanged |
| SessionPrefs.SessionManager.SaveUserEmail | app/src/main/java/com/example/monktemple/Utlis/SessionManager.kt:135-137 | the file after one put of the email |
| SessionPrefs.SessionManager.UpdateLastLoginTime | app/src/main/java/com/example/monktemple/Utlis/SessionManager.kt:143-145 | the file after one put of the clock reading |
| SessionPrefs.SessionManager.SaveProfileImageUri | app/src/main/java/com/example/monktemple/Utlis/SessionManager.kt:155-157 | the file after one put of the photo |
| SessionPrefs.SessionManager.SaveUserName | app/src/main/java/com/example/monktemple/Utlis/SessionManager.kt:163-165 | the file after one put of the name |
| SessionPrefs.SessionManager.SaveFirebaseUid | app/src/main/java/com/example/monktemple/Utlis/SessionManager.kt:172-177 | the uid reads back as saved |
| SessionPrefs.SessionManager.ClearFirebaseUid | app/src/main/java/com/example/monktemple/Utlis/SessionManager.kt:180-182 | the uid reads null and the file loses that key only |
| SessionPrefs.SessionManager.SavePersistentUserId | app/src/main/java/com/example/monktemple/Utlis/SessionManager.kt:185-187 | the file after one put of the persistent id |
| SessionPrefs.SessionManager.SyncAuthenticationStatus | app/src/main/java/com/example/monktemple/Utlis/SessionManager.kt:203-209 | afterwards `isAuthRequired` equals `isAnyAuthEnabled()`, and the file is UpdatedAuth of the old one |
| SessionPrefs.SessionManager.IsAuthRequired | app/src/main/java/com/example/monktemple/Utlis/SessionManager.kt:51 | `isAuthRequired` is on only when a true boolean is stored under `is_auth_required`; off when the key is absent |
| SessionPrefs.SessionManager.IsAnyAuthEnabled | app/src/main/java/com/example/monktemple/Utlis/SessionManager.kt:81-83 | true exactly when the biometric, password or PIN lock flag reads true |
| SessionPrefs.SessionManager.IsFirstTime | app/src/main/java/com/example/monktemple/Utlis/SessionManager.kt:86 | true unless a false boolean is stored under `is_first_time`: a fresh install is a first time |
| SessionPrefs.SessionManager.IsLoggedIn | app/src/main/java/com/example/monktemple/Utlis/SessionManager.kt:90 | on only when a true boolean is stored under `is_logged_in`; off when the key is absent |
| SessionPrefs.SessionManager.IsBiometricEnabled | app/src/main/java/com/example/monktemple/Utlis/SessionManager.kt:95 | on only when a true boolean is stored under its key; off when absent |
| SessionPrefs.SessionManager.IsPasswordEnabled | app/src/main/java/com/example/monktemple/Utlis/SessionManager.kt:102 | on only when a true boolean is stored under its key; off when absent |
| SessionPrefs.SessionManager.IsPinEnabled | app/src/main/java/com/example/monktemple/Utlis/SessionManager.kt:109 | on only when a true boolean is stored under its key; off when absent |
| SessionPrefs.SessionManager.FetchAuthToken | app/src/main/java/com/example/monktemple/Utlis/SessionManager.kt:120-122 | the string stored under `access_token`; null when the key is absent or holds another type |
| SessionPrefs.SessionManager.GetUserId | app/src/main/java/com/example/monktemple/Utlis/SessionManager.kt:131-133 | the string stored under `user_id`; null when absent |
| SessionPrefs.SessionManager.GetUserEmail | app/src/main/java/com/example/monktemple/Utlis/SessionManager.kt:139-141 | the string stored under `user_email`; null when absent |
| SessionPrefs.SessionManager.GetLastLoginTime | app/src/main/java/com/example/monktemple/Utlis/SessionManager.kt:147-149 | the long stored under `last_login_time`; 0 when absent |
| SessionPrefs.SessionManager.GetProfileImageUri | app/src/main/java/com/example/monktemple/Utlis/SessionManager.kt:159-161 | the string stored under `profile_image_uri`; null when absent |
| SessionPrefs.SessionManager.GetUserName | app/src/main/java/com/example/monktemple/Utlis/SessionManager.kt:167-169 | the string stored under `user_name`; null when absent |
| SessionPrefs.SessionManager.GetFirebaseUid | app/src/main/java/com/example/monktemple/Utlis/SessionManager.kt:176-178 | the string stored under `firebase_uid`; null when absent |
| SessionPrefs.SessionManager.GetPersistentUserId | app/src/main/java/com/example/monktemple/Utlis/SessionManager.kt:189-191 | the string stored under `persistent_user_id`; null when absent |
| SessionPrefs.LogoutKeepsIdentity | app/src/main/java/com/example/monktemple/Utlis/SessionManager.kt:31-40 | clearing the authentication state logs out and keeps uid, name, email and photo |
| SessionPrefs.ClearedStoreDefaults | app/src/main/java/com/example/monktemple/Utlis/SessionManager.kt:43-47 | after a full clear: first run, logged out, no lock, no auth required, every string getter null, last login 0 |
| AuthPrefs.AuthStore.constructor | app/src/main/java/com/example/monktemple/PinVerification.kt:33-34 | a fresh "auth_prefs" holds no password, PIN or PIN length |
| SetPassword.ValidatePassword | app/src/main/java/com/example/monktemple/setPasswordActivity.kt:75-98 | the verdict is true exactly for a strong password (8 or more characters with an uppercase letter, a digit and one of the 30 special characters), and exactly then the message is "Valid password"; otherwise the message is that of the first rule broken, in the order length, uppercase, digit, special |
| SetPassword.SaveOutcome | app/src/main/java/com/example/monktemple/setPasswordActivity.kt:42-60 | saving is accepted exactly when the trimmed password is strong and equals the trimmed confirmation; an empty field gives "Please fill all fields" first, then a weak password gives its validation message |
| SetPassword.OnSavePassword | app/src/main/java/com/example/monktemple/setPasswordActivity.kt:41-72 | on acceptance "user_password" holds the trimmed entry and the password lock is switched on; otherwise nothing is written |
| SetPassword.StorePassword | app/src/main/java/com/example/monktemple/setPasswordActivity.kt:63-69 | the password is stored and the password flag is set through its setter |
| PasswordCheck.ValidatorsAgree | app/src/main/java/com/example/monktemple/PasswordVerification.kt:144-167 | the lock screen's copy of `validatePassword` returns the same verdict and message as the set-password screen's on every input |
| PasswordCheck.Verify | app/src/main/java/com/example/monktemple/PasswordVerification.kt:50-78 | an empty trimmed entry is refused before any comparison; the entry is correct exactly when it is non-empty and equals the stored password |
| PasswordCheck.SetThenVerify | app/src/main/java/com/example/monktemple/PasswordVerification.kt:74-78 | after an accepted save, an entry opens the lock exactly when it trims to the saved password |
| PasswordCheck.ResetOutcome | app/src/main/java/com/example/monktemple/PasswordVerification.kt:107-126 | an empty field gives "Please enter your password" first; then a weak password gives its validation message |
| PasswordCheck.ResetAcceptsLikeSave | app/src/main/java/com/example/monktemple/PasswordVerification.kt:111-126 | the reset dialog accepts exactly the pairs the save button accepts: a strong trimmed password equal to its trimmed confirmation |
| PasswordCheck.ResetPassword | app/src/main/java/com/example/monktemple/PasswordVerification.kt:128-129 | an accepted reset stores the trimmed new password; otherwise the stored one is kept |
| SetPin.PinOutcome | app/src/main/java/com/example/monktemple/setPinActivity.kt:69-91 | a PIN is accepted exactly when the trimmed PIN is all digits, has the selected length and equals the trimmed confirmation; the messages follow the order empty field, wrong length, not only digits |
| SetPin.LengthFilter | app/src/main/java/com/example/monktemple/setPinActivity.kt:107-109 | a field keeps a prefix of the typed text no longer than the limit, and all of a text that fits |
| SetPin.SetPinActivity.constructor | app/src/main/java/com/example/monktemple/setPinActivity.kt:25 | four digits are preselected and both fields are empty |
| SetPin.SetPinActivity.OnButtonChecked | app/src/main/java/com/example/monktemple/setPinActivity.kt:59-66 | checking a button selects 4 or 6 and clears both fields; an unchecked event changes nothing; the length stays 4 or 6 |
| SetPin.SetPinActivity.EnterText | app/src/main/java/com/example/monktemple/setPinActivity.kt:107-109 | the fields hold what was typed, cut to the selected length |
| SetPin.SetPinActivity.OnSetPin | app/src/main/java/com/example/monktemple/setPinActivity.kt:69-104 | on acceptance "user_pin" holds the trimmed PIN, "pin_length" the selected length, and the PIN lock is switched on; otherwise nothing is written |
| SetPin.StorePin | app/src/main/java/com/example/monktemple/setPinActivity.kt:94-101 | PIN and length are stored and the PIN flag is set through its setter |
| SetPin.AcceptedPinShape | app/src/main/java/com/example/monktemple/setPinActivity.kt:73-91 | an accepted PIN is all digits and four or six long |
| PinCheck.Verify | app/src/main/java/com/example/monktemple/PinVerification.kt:56-84 | an entry that trims to nothing or to the wrong length is refused before any comparison; it is correct exactly when it has the required length and equals the stored PIN |
| PinCheck.ResetOutcome | app/src/main/java/com/example/monktemple/PinVerification.kt:119-135 | the reset is accepted exactly when the trimmed new PIN is non-empty, has the required length and equals the trimmed confirmation; "Please enter your PIN" for an empty field, then the length message |
| PinCheck.ResetSkipsDigitCheck | app/src/main/java/com/example/monktemple/PinVerification.kt:122-135 | the reset dialog accepts "abcd" as a four-character PIN, which the set-PIN screen refuses with "PIN must contain only numbers" |
| PinCheck.ResetAcceptsWhatSetAccepts | app/src/main/java/com/example/monktemple/PinVerification.kt:122-135 | every PIN the set-PIN screen accepts, the reset dialog accepts too |
| PinCheck.PinVerificationActivity.constructor | app/src/main/java/com/example/monktemple/PinVerification.kt:23-34 | the required length is the stored "pin_length", 4 when none is stored |
| PinCheck.PinVerificationActivity.ResetPin | app/src/main/java/com/example/monktemple/PinVerification.kt:137-138 | an accepted reset stores the trimmed new PIN and leaves "pin_length" alone; otherwise nothing changes |
| PinCheck.SetThenVerify | app/src/main/java/com/example/monktemple/PinVerification.kt:80-84 | a PIN set on the set-PIN screen, with its length stored, opens the PIN screen for exactly the entries that trim to it |
| SignUp.ValidateInputs | app/src/main/java/com/example/monktemple/signUpActivity.kt:130-148 | the inputs are accepted exactly when the email is non-empty and matches the pattern, the password has 6 or more characters and equals the confirmation; each refusal gives the message of the first check that fails |
| SignUp.SignUpRequest | app/src/main/java/com/example/monktemple/signUpActivity.kt:116-127 | an account is requested exactly when the trimmed fields pass the checks, and then with the trimmed email and password |
| SignUp.SignUpIgnoresSurroundingSpace | app/src/main/java/com/example/monktemple/signUpActivity.kt:118-120 | fields that differ only by surrounding whitespace lead to the same request |
| SignUp.FiveCharactersRefused | app/src/main/java/com/example/monktemple/signUpActivity.kt:139-142 | a five-character password is refused with the length message once the address passes, whatever the pattern |
| UserData.MatchesAsWritten | app/src/main/java/com/example/monktemple/data/sync/UserDataManager.kt:197-198 | the check as written never matches a time with a sub-second part, and on whole-second times agrees with the intended check |
| UserData.Matches | app/src/main/java/com/example/monktemple/data/sync/UserDataManager.kt:197-198 | the intended existence check: a local time matches a document exactly when it lies in the document's second (truncating toward zero for negative times) |
| UserData.PullRowsComplete | app/src/main/java/com/example/monktemple/data/sync/UserDataManager.kt:195-209 | after the pull every document read is matched by a row of the user, old or inserted, and every inserted row comes from a document that no earlier row matched |
| UserData.PullRowsNothingWhenMatched | app/src/main/java/com/example/monktemple/data/sync/UserDataManager.kt:195-200 | when every document is already matched, the pull inserts nothing |
| UserData.PushedSessionsPullNothing | app/src/main/java/com/example/monktemple/data/sync/UserDataManager.kt:172-209 | with the intended check, the pull inserts nothing for the sessions the same sync has just pushed |
| UserData.PushedTimeMatches | app/src/main/java/com/example/monktemple/data/sync/UserDataManager.kt:178-179 | a completion time that converts is matched, under the intended check, by the document it converts to |
| UserData.PullDuplicatesAsWritten | app/src/main/java/com/example/monktemple/data/sync/UserDataManager.kt:178-209 | with the check as written, a session completed at 1500 ms is pushed and then pulled back as a second row at 1000 ms; the intended check pulls nothing |
| UserData.Numbered | app/src/main/java/com/example/monktemple/RoomUser/UserDao.kt:28-29 | inserting rows one after another gives them one id each, counting up from the table's counter |
| UserData.NumberedIds | app/src/main/java/com/example/monktemple/RoomUser/UserClass.kt:21-22 | the i-th inserted row gets id base + i + 1 and keeps everything else |
| UserData.NumberedAbove | app/src/main/java/com/example/monktemple/RoomUser/UserClass.kt:21-22 | every row inserted after counter `base` has an id above it |
| UserData.StatDoc | app/src/main/java/com/example/monktemple/data/sync/UserDataManager.kt:238-251 | the document built for a statistics row carries the row's figures and its period bounds converted to Timestamps |
| UserData.StatWrite | app/src/main/java/com/example/monktemple/data/remote/FirebaseRemoteDataSource.kt:133-137 | a statistics document without an id is saved under "stat_<user>_<type>_<start seconds>" with that id set |
| UserData.StatWrites | app/src/main/java/com/example/monktemple/data/sync/UserDataManager.kt:237-254 | one write per row, in order |
| UserData.ConvertedPrefix | app/src/main/java/com/example/monktemple/data/sync/UserDataManager.kt:232-259 | `syncStatistics` saves the rows up to the first whose period does not convert, and stops there |
| UserData.ConvertedFrom | app/src/main/java/com/example/monktemple/data/sync/UserDataManager.kt:237-254 | the first row from `i` on whose period does not convert, or the end |
| UserData.PullStepIsFind | app/src/main/java/com/example/monktemple/data/sync/UserDataManager.kt:197-210 | under the check as written and under the intended one alike, the loop's `find` among the user's rows decides the same insert as the pull's definition |
| UserData.NoSessionsWithoutUser | app/src/main/java/com/example/monktemple/RoomUser/UserClass.kt:10-15 | without a users row a user owns no session, because of the foreign key |
| UserData.PullMatchesEveryDoc | app/src/main/java/com/example/monktemple/data/sync/UserDataManager.kt:192-213 | for any check that a document's own whole seconds pass (the one as written and the intended one), after a complete pull every document read is matched by a row of the user |
| UserData.KeyMillisMatches | app/src/main/java/com/example/monktemple/data/sync/UserDataManager.kt:198 | a document's own whole seconds pass both the check as written and the intended one |
| UserData.LoginRow | app/src/main/java/com/example/monktemple/data/sync/UserDataManager.kt:45-81 | the login row renews the login time; a known user keeps id, uid and creation time and takes each non-null new value; a new user is keyed by the uid and has the defaults "User", "" and "R.drawable._4" |
| UserData.LoginPrefs | app/src/main/java/com/example/monktemple/data/sync/UserDataManager.kt:37-42 | after the login writes the file reads back the uid, the email or "", the name or "User", the photo or "R.drawable._4", logged in, and the login time; every other key is as it was |
| UserData.LoginWithoutValuesKeepsProfile | app/src/main/java/com/example/monktemple/data/sync/UserDataManager.kt:75-80 | a login without new name, email or photo keeps the stored profile and only renews the login time |
| UserData.LoginTwice | app/src/main/java/com/example/monktemple/data/sync/UserDataManager.kt:75-80 | logging in again with the same values changes nothing but the login time |
| UserData.LoginDocAgreesWithRow | app/src/main/java/com/example/monktemple/data/sync/UserDataManager.kt:49-93 | the users document and the users row agree on uid, name, email and login time, and on the photo except for a new user without one |
| UserData.PushedStatisticsAreWrites | app/src/main/java/com/example/monktemple/data/sync/UserDataManager.kt:237-254 | saving the rows one by one is applying their writes in order, so the last row written under a key wins; offline nothing changes |
| UserData.SyncAppendsFreshRows | app/src/main/java/com/example/monktemple/data/sync/UserDataManager.kt:195-211 | whichever check the pull runs, the sync only appends rows, each with an id above the counter it started from |
| UserData.UserDataManager.constructor | app/src/main/java/com/example/monktemple/data/sync/UserDataManager.kt:166-167 | the manager holds the given store, remote store and preferences |
| UserData.UserDataManager.PullOne | app/src/main/java/com/example/monktemple/data/sync/UserDataManager.kt:196-210 | one document is inserted as a fresh row unless a row of the user matches it; the insert fails, changing nothing, when the user has no users row |
| UserData.UserDataManager.PullTurn | app/src/main/java/com/example/monktemple/data/sync/UserDataManager.kt:195-211 | one turn of the pull loop keeps the loop's account of the rows inserted so far |
| UserData.UserDataManager.PullRemoteSessions | app/src/main/java/com/example/monktemple/data/sync/UserDataManager.kt:192-213 | the table afterwards is the old one plus the pulled rows with fresh ids; the pull fails only when there are documents and the user has no users row; users and statistics are untouched |
| UserData.UserDataManager.PullLoop | app/src/main/java/com/example/monktemple/data/sync/UserDataManager.kt:195-211 | the loop inserts exactly the pulled rows, numbered from the counter it started from |
| UserData.UserDataManager.PushLocalSessions | app/src/main/java/com/example/monktemple/data/sync/UserDataManager.kt:172-189 | every session of the user is written as a "local_<id>" document in one batch, online only; false, with nothing written, when a time does not convert |
| UserData.UserDataManager.SyncUserDataWithFirestore | app/src/main/java/com/example/monktemple/data/sync/UserDataManager.kt:166-228 | push, then the read and pull, then the statistics push, then SUCCESS after a pull that went through and FAILED otherwise; only fresh rows are added |
| UserData.UserDataManager.FinishSync | app/src/main/java/com/example/monktemple/data/sync/UserDataManager.kt:191-226 | the read, pull, statistics push and status write after the push |
| UserData.UserDataManager.PullPhase | app/src/main/java/com/example/monktemple/data/sync/UserDataManager.kt:191-216 | the read and pull, and the statistics push when the pull went through; nothing when the push did not convert |
| UserData.UserDataManager.ReadAndPull | app/src/main/java/com/example/monktemple/data/sync/UserDataManager.kt:192-213 | the documents read are exactly the user's (none offline); the unmatched ones are inserted, after which every document read is matched by a row of the user |
| UserData.UserDataManager.SaveLoginPrefs | app/src/main/java/com/example/monktemple/data/sync/UserDataManager.kt:37-42 | the preferences become LoginPrefs of the old ones |
| UserData.UserDataManager.RecordLogin | app/src/main/java/com/example/monktemple/data/sync/UserDataManager.kt:44-93 | looks the user up by uid, writes the login row with REPLACE and saves the users document online |
| UserData.UserDataManager.WriteLoginRow | app/src/main/java/com/example/monktemple/data/sync/UserDataManager.kt:58-81 | the REPLACE keeps a known user's id, and the cascade drops that user's sessions and statistics |
| UserData.UserDataManager.LoginAndSync | app/src/main/java/com/example/monktemple/data/sync/UserDataManager.kt:44-99 | the row is stored under the uid; a new user records no status; a known user loses statistics and old sessions, and runs a full sync |
| UserData.UserDataManager.SyncKnownUser | app/src/main/java/com/example/monktemple/data/sync/UserDataManager.kt:98 | after the sync at login every row of a known user is one the sync pulled, with a fresh id, and the user has no statistics |
| UserData.UserDataManager.HandleUserAuthentication | app/src/main/java/com/example/monktemple/data/sync/UserDataManager.kt:32-115 | the preferences take the login values, the users row is LoginRow, the last status written is SUCCESS, and the persistence check passes |
| UserData.UserDataManager.LoginAndRecordSuccess | app/src/main/java/com/example/monktemple/data/sync/UserDataManager.kt:44-102 | the store half of login followed by SUCCESS as the last status |
| UserData.UserDataManager.LogoutSync | app/src/main/java/com/example/monktemple/data/sync/UserDataManager.kt:278-292 | the statuses written are LOGOUT_SYNC_IN_PROGRESS, the sync's own SUCCESS or FAILED, then LOGOUT_COMPLETE |
| UserData.UserDataManager.SyncForLogout | app/src/main/java/com/example/monktemple/data/sync/UserDataManager.kt:283-288 | the final sync records exactly one status, SUCCESS or FAILED |
| UserData.UserDataManager.HandleUserLogout | app/src/main/java/com/example/monktemple/data/sync/UserDataManager.kt:271-336 | afterwards logged out with uid, name, email and photo as before; the result is true exactly when uid, name and email were present and the uid has a users row; without a uid no status is written |
| UserData.UserDataManager.VerifyDataPersistence | app/src/main/java/com/example/monktemple/data/sync/UserDataManager.kt:542-560 | true exactly when a users row carries the uid and the preferences hold that same uid |
| UserData.UserDataManager.VerifyDataPersistenceAfterLogout | app/src/main/java/com/example/monktemple/data/sync/UserDataManager.kt:340-362 | true exactly when a uid is given, the preferences still hold it together with a name and an e-mail, and a users row carries it; false for a null uid |
| UserData.UserDataManager.ClearAuthKeepingIdentity | app/src/main/java/com/example/monktemple/data/sync/UserDataManager.kt:295-324 | the preferences end as the clear alone would leave them, and the uid read is returned |
| UserData.UserDataManager.CalculateAndSaveStatistics | app/src/main/java/com/example/monktemple/data/sync/UserDataManager.kt:472-523 | a new row with the figures over the user's COMPLETED sessions in the range is inserted when the user has a users row, then saved as a document when its bounds convert |
| UserData.UserDataManager.SyncOneStatistic | app/src/main/java/com/example/monktemple/data/sync/UserDataManager.kt:238-253 | a row whose bounds convert is saved as a document; one that does not is reported and nothing is written |
| UserData.UserDataManager.SyncStatistics | app/src/main/java/com/example/monktemple/data/sync/UserDataManager.kt:230-261 | the statistics collection after saving the user's rows up to the first that does not convert |
| UserData.UserDataManager.PushStatistics | app/src/main/java/com/example/monktemple/data/sync/UserDataManager.kt:237-254 | the loop saves the rows read, in order, up to the first that does not convert |
| LocalStore.PlaceSpec | app/src/main/java/com/example/monktemple/RoomUser/UserDao.kt:28-29 | an `INSERT OR REPLACE` into an id-ordered table keeps it strictly ascending; afterwards it holds exactly the new row and the old rows whose key differs |
| LocalStore.PlaceAbove | app/src/main/java/com/example/monktemple/RoomUser/UserClass.kt:20-21 | a row whose id is above every id goes at the end of the table |
| LocalStore.ReplaceKeepsValid | app/src/main/java/com/example/monktemple/RoomUser/User.kt:7-13 | replacing a user, with the cascade on the rows it owned, keeps the ids and the firebaseUid index unique, the child tables ordered, and every child row owned by an existing user |
| LocalStore.RecordStore.constructor | app/src/main/java/com/example/monktemple/RoomUser/UserClass.kt:7-18 | the database starts with three empty tables that satisfy the invariant |
| LocalStore.RecordStore.InsertOrUpdateUser | app/src/main/java/com/example/monktemple/RoomUser/UserDao.kt:14-15 | REPLACE evicts every user that clashes on userId or firebaseUid and, by `ON DELETE CASCADE`, their sessions and statistics, then appends the new user; the invariant is kept |
| LocalStore.RecordStore.GetUserById | app/src/main/java/com/example/monktemple/RoomUser/UserDao.kt:17-18 | None exactly when no row has that id; otherwise a stored row with that id |
| LocalStore.RecordStore.GetUserByFirebaseUid | app/src/main/java/com/example/monktemple/RoomUser/UserDao.kt:20-21 | None exactly when no row carries that uid; otherwise a stored row carrying it |
| LocalStore.RecordStore.InsertMeditationSession | app/src/main/java/com/example/monktemple/RoomUser/UserDao.kt:28-29 | succeeds exactly when the owner exists; a success stores the row in its id's place, id 0 taking the next AUTOINCREMENT value; a failure and the other tables stay as they were |
| LocalStore.RecordStore.SessionsOf | app/src/main/java/com/example/monktemple/RoomUser/UserDao.kt:52-53 | a session is returned exactly when it is stored and owned by the user |
| LocalStore.RecordStore.SessionsInRange | app/src/main/java/com/example/monktemple/RoomUser/UserDao.kt:44-49 | a session is returned exactly when it is the user's and its completion time lies between the two bounds inclusive |
| LocalStore.RecordStore.CompletedSessionsInRange | app/src/main/java/com/example/monktemple/RoomUser/UserDao.kt:64-65 | as the range query, and in addition the status is COMPLETED |
| LocalStore.RecordStore.DeleteSessionsByUserId | app/src/main/java/com/example/monktemple/RoomUser/UserDao.kt:60-61 | exactly the user's sessions are removed; the order of the rest and the other tables are unchanged |
| LocalStore.RecordStore.InsertOrUpdateStatistics | app/src/main/java/com/example/monktemple/RoomUser/UserDao.kt:69-70 | succeeds exactly when the owner exists; a success stores the row in its id's place with AUTOINCREMENT for id 0; otherwise nothing changes |
| LocalStore.RecordStore.GetStatistics | app/src/main/java/com/example/monktemple/RoomUser/UserDao.kt:72-73 | None exactly when no row matches user, period type, start and end; otherwise a stored row matching all four |
| LocalStore.RecordStore.GetStatisticsByFirebaseUid | app/src/main/java/com/example/monktemple/RoomUser/UserDao.kt:75-76 | None exactly when no row matches uid, period type, start and end; otherwise a stored row matching all four |
| LocalStore.RecordStore.StatisticsOf | app/src/main/java/com/example/monktemple/RoomUser/UserDao.kt:84-85 | a row is returned exactly when it is stored and belongs to the user |
| LocalStore.RecordStore.DeleteStatisticsByUserId | app/src/main/java/com/example/monktemple/RoomUser/UserDao.kt:87-88 | exactly the user's statistics rows are removed; nothing else changes |
| LocalStore.RecordStore.DeleteStatistics | app/src/main/java/com/example/monktemple/RoomUser/UserDao.kt:90-91 | only the rows matching all four keys are removed; nothing else changes |
| LocalStore.PlaceReplacesInPlace | app/src/main/java/com/example/monktemple/RoomUser/UserDao.kt:69-70 | a row whose id is already stored replaces that row in its position, and no other row moves |
| LocalStore.FreshSessionAppends | app/src/main/java/com/example/monktemple/RoomUser/UserClass.kt:20-21 | a session saved with id 0 gets an id above the counter and goes at the end of the table |
| LocalStore.FreshStatAppends | app/src/main/java/com/example/monktemple/RoomUser/NewStatistics.kt:21-22 | a statistics row saved with id 0 gets an id above the counter and goes at the end of the table |
| LocalStore.CountOwnedIsQueryLength | app/src/main/java/com/example/monktemple/RoomUser/UserDao.kt:56-57 | counting the user's sessions gives the length of the filtered table |
| LocalStore.SessionCountMatchesQuery | app/src/main/java/com/example/monktemple/RoomUser/UserDao.kt:52-57 | `getSessionCount(u)` equals the size of `getAllSessionsForUserImmediate(u)` |
| LocalStore.CompletedQueryIsFilteredRange | app/src/main/java/com/example/monktemple/RoomUser/UserDao.kt:44-65 | the completed-in-range filter is the range filter followed by the COMPLETED filter, order kept |
| LocalStore.CompletedInRangeIsRangeFiltered | app/src/main/java/com/example/monktemple/RoomUser/UserDao.kt:44-65 | `getCompletedSessionsInRange` returns exactly the COMPLETED rows of the range query, in the same order |
| LocalStore.FirebaseUidLookupUnique | app/src/main/java/com/example/monktemple/RoomUser/User.kt:9 | with the unique index, the uid lookup returns the one user that carries the uid |
| LocalStore.ReplaceDropsOwnRows | app/src/main/java/com/example/monktemple/RoomUser/UserClass.kt:10-14 | re-inserting an existing user deletes, by cascade, every session and statistics row it owned |
| RemoteStore.BatchDocId | app/src/main/java/com/example/monktemple/data/remote/FirebaseRemoteDataSource.kt:212-216 | a session with an id keeps it as its document id |
| RemoteStore.BatchWrites | app/src/main/java/com/example/monktemple/data/remote/FirebaseRemoteDataSource.kt:207-221 | one write per session, in order, each storing the session under its document id with the id filled in |
| RemoteStore.ApplyWritesKeys | app/src/main/java/com/example/monktemple/data/remote/FirebaseRemoteDataSource.kt:219-223 | after a batch, a document exists exactly when it existed before or some write targeted it |
| RemoteStore.ApplyWritesUntouched | app/src/main/java/com/example/monktemple/data/remote/FirebaseRemoteDataSource.kt:219-223 | a document no write targets is unchanged by the batch |
| RemoteStore.ApplyWritesAppend | app/src/main/java/com/example/monktemple/data/remote/FirebaseRemoteDataSource.kt:219-223 | one more write at the end of a batch is one more map update |
| RemoteStore.LastWriteWins | app/src/main/java/com/example/monktemple/data/remote/FirebaseRemoteDataSource.kt:219-223 | a document written more than once in a batch holds the value of its last write |
| RemoteStore.PushDocsWith | app/src/main/java/com/example/monktemple/data/sync/EnhancedSyncManager.kt:60-71 | documents for the merged sessions exist exactly when every time conversion succeeds, one per session in order with id "local_<sessionId>" and status "SYNCED" |
| RemoteStore.PushDocIdsCollideOnlyOnEqualIds | app/src/main/java/com/example/monktemple/data/sync/EnhancedSyncManager.kt:62 | two pushed sessions share a document exactly when their ids agree, and every id-0 session lands on "local_0" |
| RemoteStore.FirestoreStore.constructor | app/src/main/java/com/example/monktemple/data/remote/FirebaseRemoteDataSource.kt:11-20 | all collections start empty, with the given reachability |
| RemoteStore.FirestoreStore.SaveUser | app/src/main/java/com/example/monktemple/data/remote/FirebaseRemoteDataSource.kt:23-32 | succeeds exactly when the server is reached, and then stores the user under its id; otherwise nothing changes |
| RemoteStore.FirestoreStore.SaveSessions | app/src/main/java/com/example/monktemple/data/remote/FirebaseRemoteDataSource.kt:207-228 | the batch commits whole exactly when the server is reached, and otherwise writes nothing |
| RemoteStore.FirestoreStore.GetUserSessions | app/src/main/java/com/example/monktemple/data/remote/FirebaseRemoteDataSource.kt:92-107 | a successful read exactly when the server is reached, returning exactly the stored session documents of that user |
| RemoteStore.FirestoreStore.SaveStatistics | app/src/main/java/com/example/monktemple/data/remote/FirebaseRemoteDataSource.kt:131-149 | when reached, stores the document under its own id or "stat_<user>_<type>_<start seconds>"; otherwise nothing changes |
| RemoteStore.FirestoreStore.UpdateSyncStatus | app/src/main/java/com/example/monktemple/data/remote/FirebaseRemoteDataSource.kt:169-186 | every call is logged; when reached, the user's status document gets the status, the time and zero pending syncs |
| RemoteStore.FirestoreStore.GetSyncStatus | app/src/main/java/com/example/monktemple/data/remote/FirebaseRemoteDataSource.kt:188-204 | a failed read exactly when the server is not reached; otherwise the user's status document, or none when it is absent |
| Reconciliation.AssociateBySpec | app/src/main/java/com/example/monktemple/data/sync/EnhancedSyncManager.kt:117-118 | `associateBy` keys exactly the keys of the list, each mapped to an element carrying that key, the last such element when several do |
| Reconciliation.InsertDescSpec | app/src/main/java/com/example/monktemple/data/sync/EnhancedSyncManager.kt:121 | inserting a key into a strictly descending list keeps it strictly descending and adds exactly that key |
| Reconciliation.SortDescDistinctSpec | app/src/main/java/com/example/monktemple/data/sync/EnhancedSyncManager.kt:121 | `toSortedSet().reversed()` yields the distinct keys, strictly descending |
| Reconciliation.AllTimestampsSpec | app/src/main/java/com/example/monktemple/data/sync/EnhancedSyncManager.kt:121 | the keys walked are strictly descending and are exactly the keys of the local map and the remote map together |
| Reconciliation.ResolveAll | app/src/main/java/com/example/monktemple/data/sync/EnhancedSyncManager.kt:123-161 | one merged entry per key, in the order of the keys, each resolved by the three-way rule |
| Reconciliation.MergeSessionsWithConflictResolution | app/src/main/java/com/example/monktemple/data/sync/EnhancedSyncManager.kt:108-164 | the loop yields the merged list of the specification and counts exactly the keys both sides carry |
| Reconciliation.MergedKeys | app/src/main/java/com/example/monktemple/data/sync/EnhancedSyncManager.kt:123-161 | the merged list is as long as the key list, and each entry carries its key as completion time |
| Reconciliation.MergedIsOnePerKeyDescending | app/src/main/java/com/example/monktemple/data/sync/EnhancedSyncManager.kt:117-161 | one merged entry per distinct key of either side, with strictly decreasing completion times |
| Reconciliation.MergedCoversBothSides | app/src/main/java/com/example/monktemple/data/sync/EnhancedSyncManager.kt:117-161 | every local completion time and every remote whole-second time appears in the merged list, and no other time does |
| Reconciliation.SharedKeyKeepsLonger | app/src/main/java/com/example/monktemple/data/sync/EnhancedSyncManager.kt:128-143 | for a key both sides carry, the local session is kept when at least as long, otherwise a row with the remote duration and status; either way the duration is the larger one |
| Reconciliation.LocalOnlyKeyUnchanged | app/src/main/java/com/example/monktemple/data/sync/EnhancedSyncManager.kt:144-147 | a key only the local side carries contributes the last local session with that time, unchanged |
| Reconciliation.LastIndexSpec | app/src/main/java/com/example/monktemple/data/sync/EnhancedSyncManager.kt:117 | the position found is the last local session carrying the key |
| Reconciliation.RemoteOnlyKeyCopied | app/src/main/java/com/example/monktemple/data/sync/EnhancedSyncManager.kt:148-159 | a key only the remote side carries contributes a new row with id 0, owned by the user, with the remote duration and status |
| MultiDeviceSync.ThirtyDaysWraps | app/src/main/java/com/example/monktemple/data/sync/EnhancedSyncManager.kt:44 | thirty days in milliseconds is 2,592,000,000, which the 32-bit `Int` product wraps to -1,702,967,296 |
| MultiDeviceSync.AsWrittenKeepsOnlyFutureSessions | app/src/main/java/com/example/monktemple/data/sync/EnhancedSyncManager.kt:44 | the window as written keeps exactly the sessions completed more than 1,702,967,296 ms after now, so no past session survives |
| MultiDeviceSync.Recent | app/src/main/java/com/example/monktemple/data/sync/EnhancedSyncManager.kt:44 | the intended window keeps exactly the sessions completed within the last thirty days or later |
| MultiDeviceSync.RecentAsWritten | app/src/main/java/com/example/monktemple/data/sync/EnhancedSyncManager.kt:44 | the window as written keeps nothing the intended window drops |
| MultiDeviceSync.WindowCounterexample | app/src/main/java/com/example/monktemple/data/sync/EnhancedSyncManager.kt:44 | a session finished one second ago is kept by the intended window and dropped by the written one |
| MultiDeviceSync.PushPreservesInstants | app/src/main/java/com/example/monktemple/data/sync/EnhancedSyncManager.kt:60-71 | with the intended conversion every session from the epoch to the end of year 9999 is pushed, and its document reads back as the same instant |
| MultiDeviceSync.PushAsWrittenCounterexample | app/src/main/java/com/example/monktemple/data/sync/EnhancedSyncManager.kt:64-65 | the conversion as written pushes 1500 ms as 1 s + 500000 ns, which reads back as 1000 ms |
| MultiDeviceSync.PushDocsAsWritten | app/src/main/java/com/example/monktemple/data/sync/EnhancedSyncManager.kt:60-71 | the push as written gives one document per session, and each reads back as the whole second of its session |
| MultiDeviceSync.PushDocs | app/src/main/java/com/example/monktemple/data/sync/EnhancedSyncManager.kt:60-71 | the intended push fails only where a conversion throws, gives one document per session in order, and each document reads back as its session's instant |
| MultiDeviceSync.PerformMultiDeviceSync | app/src/main/java/com/example/monktemple/data/sync/EnhancedSyncManager.kt:37-105 | the recent local sessions and the user's remote documents are merged and pushed as one batch; success reports the merged count, zero statistics and the number of shared keys; a failed batch or conversion reports zeros and leaves the remote store unchanged |
| MultiDeviceSync.SyncStatusOf | app/src/main/java/com/example/monktemple/data/sync/EnhancedSyncManager.kt:179-196 | NO_RECENT_DATA exactly when no session lies in the last day, SYNCED exactly when one lies in the last two hours, NEEDS_SYNC otherwise |
| Repository.MovedSessions | app/src/main/java/com/example/monktemple/RoomUser/UserRepository.kt:157-160 | the session table with every row of the old owner re-owned to the new one, each in its place |
| Repository.MovedStats | app/src/main/java/com/example/monktemple/RoomUser/UserRepository.kt:166-169 | the statistics table with every row of the old owner given the new owner and uid, each in its place |
| Repository.MovedSessionsIn | app/src/main/java/com/example/monktemple/RoomUser/UserRepository.kt:157-160 | part way through the loop, exactly the already visited rows of the old owner are re-owned |
| Repository.MovedStatsIn | app/src/main/java/com/example/monktemple/RoomUser/UserRepository.kt:166-169 | part way through the loop, exactly the already visited statistics rows are re-owned |
| Repository.UserRepository.constructor | app/src/main/java/com/example/monktemple/RoomUser/UserRepository.kt:9 | the repository works on the given DAO |
| Repository.UserRepository.CalculateAndSaveStatistics | app/src/main/java/com/example/monktemple/RoomUser/UserRepository.kt:94-99 | the row is computed from the user's COMPLETED sessions in the range, so its completion rate is 100 or 0; it is appended with a fresh id exactly when the user row exists |
| Repository.UserRepository.MigrateUserData | app/src/main/java/com/example/monktemple/RoomUser/UserRepository.kt:150-182 | succeeds exactly when the target user exists or there is nothing to move; a success leaves the migrated tables, a failure changes nothing; the users table and the counters never change |
| Repository.UserRepository.MoveStatsAndDelete | app/src/main/java/com/example/monktemple/RoomUser/UserRepository.kt:162-173 | once the sessions are moved: the statistics are re-owned, then whatever the old owner still has is deleted |
| Repository.UserRepository.MoveSessions | app/src/main/java/com/example/monktemple/RoomUser/UserRepository.kt:153-160 | every session of the old owner is re-inserted under the new owner with its id, in place; a missing target fails before any change |
| Repository.UserRepository.MoveStats | app/src/main/java/com/example/monktemple/RoomUser/UserRepository.kt:162-169 | every statistics row of the old owner is re-inserted under the new owner and uid, in place; a missing target fails before any change |
| Repository.UserRepository.DeleteLeftovers | app/src/main/java/com/example/monktemple/RoomUser/UserRepository.kt:171-173 | exactly the rows the old owner still has are deleted from both tables |
| Repository.MoveOneSession | app/src/main/java/com/example/monktemple/RoomUser/UserRepository.kt:157-160 | re-inserting one row of the query at its id's position advances the table by exactly that row |
| Repository.AllSessionsMoved | app/src/main/java/com/example/monktemple/RoomUser/UserRepository.kt:157-160 | once every row of the query is moved, the table is the fully migrated one |
| Repository.MoveOneStat | app/src/main/java/com/example/monktemple/RoomUser/UserRepository.kt:166-169 | re-inserting one statistics row at its id's position advances the table by exactly that row |
| Repository.AllStatsMoved | app/src/main/java/com/example/monktemple/RoomUser/UserRepository.kt:166-169 | once every statistics row is moved, the table is the fully migrated one |
| Repository.MigrationKeepsEverySession | app/src/main/java/com/example/monktemple/RoomUser/UserRepository.kt:150-176 | between distinct users no session is lost: all keep id, time, duration and status under the new owner, and none is left with the old one |
| Repository.MigrationKeepsEveryStat | app/src/main/java/com/example/monktemple/RoomUser/UserRepository.kt:150-176 | between distinct users no statistics row is lost, and every moved row carries the new owner and uid |
| Repository.MigrationToSelfDropsSessions | app/src/main/java/com/example/monktemple/RoomUser/UserRepository.kt:150-176 | migrating a user onto itself deletes all of its sessions |
| Repository.MigrationToSelfDropsStats | app/src/main/java/com/example/monktemple/RoomUser/UserRepository.kt:150-176 | migrating a user onto itself deletes all of its statistics rows |
| Repository.MigrationLeavesOtherSessions | app/src/main/java/com/example/monktemple/RoomUser/UserRepository.kt:150-176 | sessions of other users come out unchanged and in order |
| Repository.MigrationLeavesOtherStats | app/src/main/java/com/example/monktemple/RoomUser/UserRepository.kt:150-176 | statistics rows of other users come out unchanged and in order |
| DataSync.ScheduledKeepsOneJob | app/src/main/java/com/example/monktemple/data/sync/DataSyncManager.kt:46-50 | after scheduling exactly one job runs under the user's name, no job under another name is touched, and nothing else is added |
| DataSync.ScheduleThenCancel | app/src/main/java/com/example/monktemple/data/sync/DataSyncManager.kt:76-78 | cancelling after scheduling equals cancelling alone |
| DataSync.NamedFilterThenCancel | app/src/main/java/com/example/monktemple/data/sync/DataSyncManager.kt:76-78 | when every named job carries its name as a tag, removing the named job before cancelling by that tag changes nothing |
| DataSync.CancelKeepsImmediateJob | app/src/main/java/com/example/monktemple/data/sync/DataSyncManager.kt:82-93 | a one-shot job has no tag, so cancelling the user's sync keeps it queued |
| DataSync.StatusReadsBack | app/src/main/java/com/example/monktemple/data/sync/DataSyncManager.kt:97-108 | a status written while reachable is read back for that user, and the reading for any other user is unchanged |
| DataSync.DoWork | app/src/main/java/com/example/monktemple/data/sync/DataSyncManager.kt:166-203 | without a user id: failure and no write; otherwise SYNC_IN_PROGRESS, then SUCCESS and success, or FAILED and a retry when the body throws |
| DataSync.DoWorkOutcome | app/src/main/java/com/example/monktemple/data/sync/DataSyncManager.kt:188-201 | reachable, the status reads back SUCCESS exactly when the run did not throw |
| DataSync.DataSyncManager.constructor | app/src/main/java/com/example/monktemple/data/sync/DataSyncManager.kt:19-23 | no job queued |
| DataSync.DataSyncManager.SchedulePeriodicDataSync | app/src/main/java/com/example/monktemple/data/sync/DataSyncManager.kt:31-53 | the user's periodic job, named and tagged "firestore_sync_worker:<userId>", replaces any job under that name |
| DataSync.DataSyncManager.CancelDataSync | app/src/main/java/com/example/monktemple/data/sync/DataSyncManager.kt:76-79 | exactly the jobs tagged with the user's name are removed |
| DataSync.DataSyncManager.SyncDataImmediately | app/src/main/java/com/example/monktemple/data/sync/DataSyncManager.kt:82-94 | a one-shot job with the user id and `immediate` set is appended |
| DataSync.DataSyncManager.GetSyncStatus | app/src/main/java/com/example/monktemple/data/sync/DataSyncManager.kt:97-108 | the stored status, "UNKNOWN" without a document, "ERROR" when the read fails |
| DataSync.DataSyncManager.TriggerImmediateSync | app/src/main/java/com/example/monktemple/data/sync/DataSyncManager.kt:56-73 | PENDING is written first, and then exactly one status, SUCCESS or FAILED, from the sync |
| StatisticsCalc.CompletedOf | app/src/main/java/com/example/monktemple/RoomUser/UserRepository.kt:109 | a session is kept exactly when it is in the list and COMPLETED |
| StatisticsCalc.TotalDurationAppend | app/src/main/java/com/example/monktemple/RoomUser/UserRepository.kt:113 | the summed focus time of two lists joined is the sum of their totals |
| StatisticsCalc.TotalDurationBounds | app/src/main/java/com/example/monktemple/RoomUser/UserRepository.kt:113 | with no negative duration the total is non-negative and at least every single duration |
| StatisticsCalc.Longest | app/src/main/java/com/example/monktemple/RoomUser/UserRepository.kt:115 | 0 for no sessions; otherwise a duration some session has, and no session is longer |
| StatisticsCalc.AverageBounds | app/src/main/java/com/example/monktemple/RoomUser/UserRepository.kt:114 | for non-negative durations the average lies between 0 and the longest session and is the floor of the exact mean |
| StatisticsCalc.AverageIsFloor | app/src/main/java/com/example/monktemple/RoomUser/UserRepository.kt:114 | Kotlin's truncating division equals floor division for a non-negative total |
| StatisticsCalc.LongestBoundsTotal | app/src/main/java/com/example/monktemple/RoomUser/UserRepository.kt:113-115 | the total is at most the count times the longest duration |
| StatisticsCalc.CompletionRate | app/src/main/java/com/example/monktemple/RoomUser/UserRepository.kt:116 | 0 for no attempts; within [0, 100] when completed is at most total; 100 exactly when every attempt completed |
| StatisticsCalc.FirstSeenDays | app/src/main/java/com/example/monktemple/RoomUser/UserRepository.kt:140-144 | the groups of `groupBy` are exactly the weekdays the sessions fall on, each once, none missing for a non-empty list |
| StatisticsCalc.FirstMax | app/src/main/java/com/example/monktemple/RoomUser/UserRepository.kt:146 | `maxByOrNull` picks an entry with the largest score, and every entry before it scores strictly less |
| StatisticsCalc.MostProductiveDaySpec | app/src/main/java/com/example/monktemple/RoomUser/UserRepository.kt:134-147 | "N/A" exactly for no sessions; otherwise a weekday some session falls on, whose summed focus time no weekday exceeds |
| StatisticsCalc.MostProductiveDayTieBreak | app/src/main/java/com/example/monktemple/RoomUser/UserRepository.kt:140-146 | among weekdays with the largest sum, the one met first in the list wins |
| StatisticsCalc.CalculateStatistics | app/src/main/java/com/example/monktemple/RoomUser/UserRepository.kt:101-132 | a new row (id 0) for the given user, uid and period, counting no more sessions than the list holds |
| StatisticsCalc.CompletionRateInRange | app/src/main/java/com/example/monktemple/RoomUser/UserRepository.kt:116 | for every user, period, list and calendar, the completion rate of a computed row lies in [0, 100] |
| StatisticsCalc.NoCompletedSessions | app/src/main/java/com/example/monktemple/RoomUser/UserRepository.kt:109-117 | without a COMPLETED session every figure is zero and the day is "N/A" |
| StatisticsCalc.AllCompletedSessions | app/src/main/java/com/example/monktemple/RoomUser/UserRepository.kt:109-117 | when every row is COMPLETED the count is the list length, the focus time its total, and a non-empty list has rate 100 |
| StatisticsScreen.FormatDuration | app/src/main/java/com/example/monktemple/Statistics.kt:479-489 | "0m" for a duration that is not positive; otherwise the whole hours and the remaining minutes of the whole minutes it holds |
| StatisticsScreen.FormatDurationInjective | app/src/main/java/com/example/monktemple/Statistics.kt:479-489 | two durations read the same exactly when they hold the same number of whole minutes |
| StatisticsScreen.HoursMarker | app/src/main/java/com/example/monktemple/Statistics.kt:484 | the character after the leading number is 'h' exactly when hours are shown |
| StatisticsScreen.DurationTextInjective | app/src/main/java/com/example/monktemple/Statistics.kt:484 | texts for different hours or minutes differ |
| StatisticsScreen.HoursTextInjective | app/src/main/java/com/example/monktemple/Statistics.kt:484 | with hours on both sides, equal texts mean equal hours and minutes |
| StatisticsScreen.PercentText | app/src/main/java/com/example/monktemple/Statistics.kt:440 | the rate rounded to the nearest whole number, then a percent sign |
| StatisticsScreen.DisplayStats | app/src/main/java/com/example/monktemple/Statistics.kt:417-446 | the rate shown is taken over the whole list, CANCELLED rows included; an empty list shows zeros and "N/A" |
| StatisticsScreen.DisplaysAgree | app/src/main/java/com/example/monktemple/Statistics.kt:417-456 | the cards filled from a session list equal the cards filled from the row `calculateStatistics` makes of the same list |
| StatisticsScreen.RateTextBounds | app/src/main/java/com/example/monktemple/Statistics.kt:435-440 | the rate shown is between "0%" and "100%" |
| StatisticsScreen.FillBuckets | app/src/main/java/com/example/monktemple/Statistics.kt:303-311 | each bar holds the summed duration of the sessions whose slot it is; sessions outside the bars are skipped |
| StatisticsScreen.SlotsSumSnoc | app/src/main/java/com/example/monktemple/Statistics.kt:306-311 | one more session adds its duration to the sum of the bars when its slot is among them |
| StatisticsScreen.BarsAddUpToTotal | app/src/main/java/com/example/monktemple/Statistics.kt:306-311 | when every session falls in a bar, the bars add up to the total focus time |
| StatisticsScreen.BarsOfNothing | app/src/main/java/com/example/monktemple/Statistics.kt:303 | all bars start at zero |
| StatisticsScreen.WeekIndex | app/src/main/java/com/example/monktemple/Statistics.kt:335 | Sunday goes to the last bar and the other days from Monday at 0, matching the bar's label |
| StatisticsScreen.WeekIndexBijective | app/src/main/java/com/example/monktemple/Statistics.kt:335-342 | the mapping is a bijection of the seven weekdays onto the bars 0..6, Monday first |
| StatisticsScreen.DayChartLabels | app/src/main/java/com/example/monktemple/Statistics.kt:318 | 24 labels, one per hour |
| StatisticsScreen.DayChartLabelsDistinct | app/src/main/java/com/example/monktemple/Statistics.kt:318 | exactly the hours 0, 4, ..., 20 are labelled, each label different |
| StatisticsScreen.StatisticsActivity.constructor | app/src/main/java/com/example/monktemple/Statistics.kt:45 | the screen opens on the "day" range with no sessions and no chart |
| StatisticsScreen.StatisticsActivity.OnSessionsLoaded | app/src/main/java/com/example/monktemple/Statistics.kt:236-248 | the sessions are kept, the chart of the current range is drawn and the cards show the figures of the list |
| StatisticsScreen.StatisticsActivity.DrawChart | app/src/main/java/com/example/monktemple/Statistics.kt:243-246 | hour bars for "day", Monday-first weekday bars for "week", the chart unchanged otherwise |
| StatisticsScreen.ChartsAddUp | app/src/main/java/com/example/monktemple/Statistics.kt:300-346 | every session lands on a bar of either chart, so each chart adds up to the total focus time |
| TimerScreen.Pad2 | app/src/main/java/com/example/monktemple/TimerScreen.kt:148 | `%02d`: decimal digits only, at least two of them, exactly two below 100 |
| TimerScreen.Pad2LeadingZero | app/src/main/java/com/example/monktemple/TimerScreen.kt:148 | the padded text starts with '0' exactly for a number below 10 |
| TimerScreen.Pad2Injective | app/src/main/java/com/example/monktemple/TimerScreen.kt:148 | different numbers pad to different texts |
| TimerScreen.ClockFields | app/src/main/java/com/example/monktemple/TimerScreen.kt:143-145 | the hours, minutes and seconds shown make up exactly the whole seconds left, minutes and seconds below 60 |
| TimerScreen.MinutesSecondsInjective | app/src/main/java/com/example/monktemple/TimerScreen.kt:148 | the ":mm:ss" tail tells minutes and seconds apart |
| TimerScreen.ClockTextInjective | app/src/main/java/com/example/monktemple/TimerScreen.kt:142-149 | two times show the same text exactly when they hold the same whole seconds |
| TimerScreen.FinishedText | app/src/main/java/com/example/monktemple/TimerScreen.kt:114 | no time left shows "00:00:00" |
| TimerScreen.SavedRow | app/src/main/java/com/example/monktemple/TimerScreen.kt:154-170 | nothing without a signed-in user id (null or empty); otherwise one row with id 0, that user as owner, the duration and the status |
| TimerScreen.SavedRowRecorded | app/src/main/java/com/example/monktemple/TimerScreen.kt:108-109 | handing over a whole completed run, or the elapsed part of a cancelled one, keeps every recorded row valid |
| TimerScreen.TimerActivity.constructor | app/src/main/java/com/example/monktemple/TimerScreen.kt:79-84 | a countdown of the chosen minutes in milliseconds, shown in full and started, nothing recorded |
| TimerScreen.TimerActivity.StartTimer | app/src/main/java/com/example/monktemple/TimerScreen.kt:100-126 | the countdown runs |
| TimerScreen.TimerActivity.PauseTimer | app/src/main/java/com/example/monktemple/TimerScreen.kt:128-132 | the countdown stops, the time left is kept |
| TimerScreen.TimerActivity.Toggle | app/src/main/java/com/example/monktemple/TimerScreen.kt:86-92 | the button pauses a running countdown and resumes a paused one |
| TimerScreen.TimerActivity.SaveMeditationSession | app/src/main/java/com/example/monktemple/TimerScreen.kt:154-190 | the row of `SavedRow` is handed over after those already recorded, nothing else |
| TimerScreen.TimerActivity.CancelTimer | app/src/main/java/com/example/monktemple/TimerScreen.kt:135-140 | the run is marked cancelled and stopped, and the elapsed part, between zero and the total, is handed over as CANCELLED |
| TimerScreen.TimerActivity.OnTick | app/src/main/java/com/example/monktemple/TimerScreen.kt:102-105 | the time left becomes the reported value, and the text shows it |
| TimerScreen.TimerActivity.OnFinish | app/src/main/java/com/example/monktemple/TimerScreen.kt:107-121 | a run not cancelled is handed over as COMPLETED with the whole duration; then nothing is left and "00:00:00" shows |
| Insights.OptimalSessionLength | app/src/main/java/com/example/monktemple/ai/AllinsightsManager.kt:75-84 | 25 without a completed session of more than five minutes; otherwise a multiple of five, at least five, within five below the average whole minutes of those sessions |
| Insights.RoundDownToFive | app/src/main/java/com/example/monktemple/ai/AllinsightsManager.kt:83 | `(average / 5).toInt() * 5` of an average of at least five is a multiple of five, at least five, and within five below the average |
| Insights.TopThree | app/src/main/java/com/example/monktemple/ai/AllinsightsManager.kt:103-107 | three hours, ascending, each ranking before every hour left out: more focus time, or as much and earlier |
| Insights.TopThreeUnique | app/src/main/java/com/example/monktemple/ai/AllinsightsManager.kt:103-107 | the three peak hours are determined by the hour totals: two answers meeting the ranking are equal |
| Insights.HourTotals | app/src/main/java/com/example/monktemple/ai/AllinsightsManager.kt:91-100 | one total per hour of the day |
| Insights.CalculatePeakProductivityHours | app/src/main/java/com/example/monktemple/ai/AllinsightsManager.kt:86-108 | the hours returned are the top three of the hour totals, ascending |
| Insights.WeeklyTrend | app/src/main/java/com/example/monktemple/ai/AllinsightsManager.kt:110-132 | one of the five trend codes; "insufficient_data" exactly below 14 sessions; "improving" when the week before had no focus |
| Insights.Clamp | app/src/main/java/com/example/monktemple/ai/AllinsightsManager.kt:149 | `coerceIn`: the result lies in the range and equals the input when the input does |
| Insights.ConsistencyScore | app/src/main/java/com/example/monktemple/ai/AllinsightsManager.kt:155-177 | a score in [0, 1]: 0.5 below seven sessions, 0.3 with fewer than three distinct days, 0 when there is no focus time, otherwise one minus the variance clamped to [0, 1] |
| Insights.FocusScore | app/src/main/java/com/example/monktemple/ai/AllinsightsManager.kt:134-153 | a score in [0, 100], and 0 without sessions |
| Insights.FocusScoreWithinWeights | app/src/main/java/com/example/monktemple/ai/AllinsightsManager.kt:147-152 | the weights add up to 100, so the final clamp never bites and the score is the weighted sum truncated |
| Insights.Distinct | app/src/main/java/com/example/monktemple/ai/AllinsightsManager.kt:228 | `distinct()`: no duplicates, the same items as the input, the first item kept first |
| Insights.DistinctOfDistinct | app/src/main/java/com/example/monktemple/ai/AllinsightsManager.kt:228 | a list without duplicates is its own `distinct()` |
| Insights.Take | app/src/main/java/com/example/monktemple/ai/AllinsightsManager.kt:228 | `take(n)`: the first at most n items |
| Insights.BestTime | app/src/main/java/com/example/monktemple/ai/AllinsightsManager.kt:198-203 | the part of the day is one of morning, midday, afternoon and evening |
| Insights.BestTimeRanges | app/src/main/java/com/example/monktemple/ai/AllinsightsManager.kt:198-203 | hours sharing a word other than evening form one consecutive range |
| Insights.GenerateRecommendations | app/src/main/java/com/example/monktemple/ai/AllinsightsManager.kt:179-229 | between one and four different texts, the first always about the session length, and exactly the first four distinct texts added |
| Insights.CandidatesDistinct | app/src/main/java/com/example/monktemple/ai/AllinsightsManager.kt:189-226 | the texts the five blocks can add never repeat |
| Insights.RecommendationsArePrefix | app/src/main/java/com/example/monktemple/ai/AllinsightsManager.kt:189-228 | so `distinct()` drops nothing and the recommendations are the first four texts added |
| Insights.GenerateInsights | app/src/main/java/com/example/monktemple/ai/AllinsightsManager.kt:32-73 | the fixed defaults when no session is COMPLETED; otherwise every figure computed over the COMPLETED sessions, three peak hours, one to four recommendations, a score in [0, 100] |
| Insights.OptimalSessionTime | app/src/main/java/com/example/monktemple/ai/AllinsightsManager.kt:246-254 | "14:00" when there is no peak hour |
| Insights.OptimalSessionTimeIsPeak | app/src/main/java/com/example/monktemple/ai/AllinsightsManager.kt:246-254 | peak hours are never empty, so the suggested time is always the first peak hour, a real hour of the day |
| InsightsFormat.TrendLabel | app/src/main/java/com/example/monktemple/InsightsActivity.kt:132-141 | a fixed label per trend code, and "Analyzing..." exactly for a text that is no trend code |
| InsightsFormat.TrendLabelsDistinct | app/src/main/java/com/example/monktemple/InsightsActivity.kt:133-138 | the five codes get five different labels |
| InsightsFormat.EveryTrendHasLabel | app/src/main/java/com/example/monktemple/InsightsActivity.kt:95 | whatever the weekly trend comes out as, the screen shows a real label for it |
| InsightsFormat.HourLabel | app/src/main/java/com/example/monktemple/InsightsActivity.kt:146-150 | as written: 5..11 print "<h>AM", afternoon hours "<h-12>PM" (noon "12PM"), and the small hours 0..4 "<h>PM" |
| InsightsFormat.HourLabelsCollide | app/src/main/java/com/example/monktemple/InsightsActivity.kt:146-150 | as written, an hour after midnight and the same hour after noon print alike, and midnight prints "0PM" |
| InsightsFormat.ClockAgreesFromFive | app/src/main/java/com/example/monktemple/InsightsActivity.kt:146-150 | the corrected label differs from the written one only in the small hours 0..4 |
| InsightsFormat.ClockParts | app/src/main/java/com/example/monktemple/InsightsActivity.kt:146-150 | the corrected label is a number 1..12 and AM exactly before noon, and it determines the hour |
| InsightsFormat.ClockHourLabelInjective | app/src/main/java/com/example/monktemple/InsightsActivity.kt:146-150 | the corrected label names every hour of the day differently |
| InsightsFormat.ClockHourLabels | app/src/main/java/com/example/monktemple/InsightsActivity.kt:145-152 | one clock label per hour, in order |
| InsightsFormat.HourLabels | app/src/main/java/com/example/monktemple/InsightsActivity.kt:145-152 | one written label per hour, in order |
| InsightsFormat.FormatPeakHours | app/src/main/java/com/example/monktemple/InsightsActivity.kt:143-156 | as written: "Not enough data" for no hours, the single written label for one hour |
| InsightsFormat.FormatPeakHoursOnTheClock | app/src/main/java/com/example/monktemple/InsightsActivity.kt:143-156 | with clock labels: "Not enough data" for no hours, the single clock label for one hour |
| InsightsFormat.JoinEndsLikeLast | app/src/main/java/com/example/monktemple/InsightsActivity.kt:145 | a join ends with the last character of its last item |
| InsightsFormat.NotEnoughDataIffEmpty | app/src/main/java/com/example/monktemple/InsightsActivity.kt:143-156 | as written and with clock labels alike, "Not enough data" shows exactly when there are no peak hours |
| InsightsFormat.PeakHoursInOrder | app/src/main/java/com/example/monktemple/InsightsActivity.kt:145 | as written and with clock labels alike, the labels appear in input order, separated by ", " |
| InsightsFormat.LonePeakHours | app/src/main/java/com/example/monktemple/ai/AllinsightsManager.kt:103-107 | hour totals that are zero except at 9 o'clock rank hours 0, 1 and 9 as the peak |
| InsightsFormat.PeakHoursPastMidnight | app/src/main/java/com/example/monktemple/InsightsActivity.kt:143-156 | for sessions at 9 o'clock alone the peak hours show as "0PM, 1PM, 9AM" as written and as "12AM, 1AM, 9AM" on the clock |
| InsightsFormat.SmallHoursAsWritten | app/src/main/java/com/example/monktemple/InsightsActivity.kt:143-156 | the written labels of the hours 0, 1 and 9 are "0PM", "1PM" and "9AM", and they join to "0PM, 1PM, 9AM" |
| InsightsFormat.SmallHoursOnTheClock | app/src/main/java/com/example/monktemple/InsightsActivity.kt:145-152 | the clock labels of the hours 0, 1 and 9 join to "12AM, 1AM, 9AM" |
| InsightsFormat.JoinThree | app/src/main/java/com/example/monktemple/InsightsActivity.kt:145 | three items joined are the items with the separator twice between them |
| InsightsFormat.Bulleted | app/src/main/java/com/example/monktemple/InsightsActivity.kt:160 | each recommendation with "• " in front, one per recommendation |
| InsightsFormat.FormatRecommendations | app/src/main/java/com/example/monktemple/InsightsActivity.kt:158-164 | the text always starts with a bullet: the bulleted items separated by a blank line, or the fixed three-item default |
| InsightsFormat.JoinStartsLikeFirst | app/src/main/java/com/example/monktemple/InsightsActivity.kt:160 | a join begins with its first item |
| InsightsFormat.RecommendationsInOrder | app/src/main/java/com/example/monktemple/InsightsActivity.kt:160 | the recommendations appear in order: the first bulleted, a blank line, then the rest |
| InsightsFormat.SingleRecommendation | app/src/main/java/com/example/monktemple/InsightsActivity.kt:160 | a single recommendation is shown alone behind its bullet |
| Customization.ThemeNamed | app/src/main/java/com/example/monktemple/customization/CustomizationManager.kt:74 | `AppTheme.valueOf`: the theme whose name is the text, and none when no theme has that name |
| Customization.ThemeNameRoundTrip | app/src/main/java/com/example/monktemple/customization/CustomizationManager.kt:68-74 | every theme's stored name reads back as that theme |
| Customization.CurrentThemeOf | app/src/main/java/com/example/monktemple/customization/CustomizationManager.kt:72-78 | SYSTEM when nothing is stored or the stored text names no theme; otherwise the named theme |
| Customization.FindTemplate | app/src/main/java/com/example/monktemple/customization/CustomizationManager.kt:169-171 | `find`: a template with the id when one exists, none exactly when no template has it |
| Customization.FindTemplateFirst | app/src/main/java/com/example/monktemple/customization/CustomizationManager.kt:170 | the template found is the first one with the id |
| Customization.PresetDurations | app/src/main/java/com/example/monktemple/customization/CustomizationManager.kt:207-250 | each of the four presets is found under its own id and lasts 25, 15, 45 or 10 minutes |
| Customization.FindSound | app/src/main/java/com/example/monktemple/customization/CustomizationManager.kt:256 | an available sound with the id, none exactly when no sound has it |
| Customization.SoundFor | app/src/main/java/com/example/monktemple/customization/CustomizationManager.kt:121-134 | the available sound the id finds when there is one, the default bell exactly when none has that id |
| Customization.PresetSoundsAvailable | app/src/main/java/com/example/monktemple/customization/CustomizationManager.kt:121-129 | every preset's sound is one of the available sounds, so applying a preset never falls back to the default |
| Customization.TimerSoundOf | app/src/main/java/com/example/monktemple/customization/CustomizationManager.kt:99-108 | the stored profile when it reads back, the default bell when nothing is stored or it cannot be read |
| Customization.GeneratedId | app/src/main/java/com/example/monktemple/customization/CustomizationManager.kt:141 | a generated template id is never empty |
| Customization.GeneratedIdsDiffer | app/src/main/java/com/example/monktemple/customization/CustomizationManager.kt:141 | ids generated at different instants differ |
| Customization.WithId | app/src/main/java/com/example/monktemple/customization/CustomizationManager.kt:140-144 | the template keeps a non-empty id; an empty one is replaced by a generated id and nothing else changes |
| Customization.Without | app/src/main/java/com/example/monktemple/customization/CustomizationManager.kt:147 | exactly the templates whose id differs, never more than before |
| Customization.WithoutAppend | app/src/main/java/com/example/monktemple/customization/CustomizationManager.kt:147 | removing from a concatenation removes from each part |
| Customization.WithoutAbsent | app/src/main/java/com/example/monktemple/customization/CustomizationManager.kt:147 | removing an id no template has changes nothing |
| Customization.UpsertPlacesLast | app/src/main/java/com/example/monktemple/customization/CustomizationManager.kt:146-148 | after a save the template is last and is the only one with its id; the others are kept in order |
| Customization.FindAfterRemoval | app/src/main/java/com/example/monktemple/customization/CustomizationManager.kt:175 | after removal the id finds nothing and every other id finds what it found before |
| Customization.FindAfterUpsert | app/src/main/java/com/example/monktemple/customization/CustomizationManager.kt:146-148 | after a save the id finds the new template and every other id finds what it found before |
| Customization.FindAppend | app/src/main/java/com/example/monktemple/customization/CustomizationManager.kt:170 | searching a concatenation searches the first part, then the second |
| Customization.TemplateToApply | app/src/main/java/com/example/monktemple/customization/CustomizationManager.kt:253 | a saved template with the id wins over a preset with the same id |
| Customization.CustomizationManager.constructor | app/src/main/java/com/example/monktemple/customization/CustomizationManager.kt:17-30 | nothing stored: no theme, no sound, no templates |
| Customization.CustomizationManager.SetAppTheme | app/src/main/java/com/example/monktemple/customization/CustomizationManager.kt:67-70 | the theme's name is stored and reads back as that theme |
| Customization.CustomizationManager.SetTimerSound | app/src/main/java/com/example/monktemple/customization/CustomizationManager.kt:94-97 | the profile is stored and reads back unchanged |
| Customization.CustomizationManager.CurrentTheme | app/src/main/java/com/example/monktemple/customization/CustomizationManager.kt:72-78 | the theme whose name is stored; SYSTEM when nothing is stored or the name is unknown |
| Customization.CustomizationManager.TimerSound | app/src/main/java/com/example/monktemple/customization/CustomizationManager.kt:99-108 | the stored profile when it reads back; the default bell when nothing is stored or it cannot be read |
| Customization.CustomizationManager.SessionTemplateWithId | app/src/main/java/com/example/monktemple/customization/CustomizationManager.kt:169-171 | a saved template with the id; none exactly when no saved template has it |
| Customization.CustomizationManager.SaveSessionTemplate | app/src/main/java/com/example/monktemple/customization/CustomizationManager.kt:137-157 | the list becomes the upsert of the template with its id; the id then finds it and every other id finds what it found before |
| Customization.CustomizationManager.DeleteSessionTemplate | app/src/main/java/com/example/monktemple/customization/CustomizationManager.kt:173-183 | every template with the id goes; the id finds nothing and other ids find what they found before |
| Customization.CustomizationManager.UseTemplate | app/src/main/java/com/example/monktemple/customization/CustomizationManager.kt:254-257 | the template's theme reads back and its sound, or the default bell, is stored |
| Customization.CustomizationManager.ApplyTemplate | app/src/main/java/com/example/monktemple/customization/CustomizationManager.kt:252-259 | the template chosen is the saved one before the preset; its theme and sound are set; with no template nothing changes |

## Left out

- Coroutines, `Dispatchers` and `withContext` are left out. Every suspending call is one sequential step.
- WorkManager's execution is left out. A scheduled job is an entry in a list and runs when the caller runs it.
- The `CountDownTimer` callbacks are left out. `onTick` and `onFinish` are methods whose preconditions say a countdown is running.
- Broadcasts, toasts, hints, dialogs, navigation, logging and `debugPrintAllData` are left out. They change no modelled state.
- The calendar and the time zone are parameters: `weekdayOf`, `hourOf` and `dayOf` of an instant. `getTodayRange` and `getWeekRange` (UserDataManager.kt:564-606, Statistics.kt:263-298) are left out, and a range is a parameter pair.
- The clock is the parameter `now`.
- Floating point is left out. `completionRate` is an exact rational. Chart buckets and insights durations are millisecond sums.
- Insights: the trend compares exact rationals where the app compares doubles.
- Insights: the daily-focus variance (`Math.pow` over doubles, AllinsightsManager.kt:155-177) is the parameter `variance`. Only its clamping and the score built on it are modelled.
- The insights progress bars and the "min" and "/100" texts (InsightsActivity.kt:93-94, 115-130) are left out: they are view scaling only.
- Insights.CalculatePeakProductivityHours: the hours are ranked by summed milliseconds, not by summed double minutes. The ranking agrees except where rounding of doubles would break a tie.
- The stub sync bodies are left out, because they only wait: `performComprehensiveSync` and `performLightSync` (DataSyncManager.kt:205-223).
- `DataSyncManager.mergeSessions`, which returns an empty list, is left out, and so is the commented-out `syncWithConflictResolution` around it (DataSyncManager.kt:111-147).
- `queueSessionForRetry` (UserDataManager.kt:263-267) is left out: it only logs.
- `enableOfflineMode` of DataSyncManager and of EnhancedSyncManager, and `forceSync`, are left out. They only toggle Firestore's network or call the modelled sync again.
- Of UserDataManager, `saveMeditationSession`, `recoverUserData`, `getUserData` and `updateUserStatistics` are left out. No modelled operation calls them, and their parts (insert, push, statistics save) are modelled on their own.
- Of the remote data source, `getUserFromFirestore`, `updateUserLastSync`, `saveSessionToFirestore`, `getSessionsInRange`, `getUserStatisticsFromFirestore` and `deleteUserData` are left out. No modelled operation uses them.
- Remote query results come in no particular order; the model does not keep Firestore's `orderBy` on completion time.
- RemoteStore.BatchDocId: a session document without an id is named after its position in the batch. The source uses the object's hash code, which the model cannot compute.
- The LiveData queries of the DAO (UserDao.kt:24, 33, 41, 79, 82) and their repository wrappers are left out. They are the immediate queries with observation added.
- `refreshData` of UserRepository is left out: it only re-posts LiveData.
- The Gson encoding of stored values is left out. The model stores the values themselves, with a "cannot be read" case for a stored sound.
- `exportSettings`, `importSettings`, the UI preferences and `playTimerSound` are left out. They are JSON or MediaPlayer code only.
- `applyTheme` (style resources) is left out.
- The statistics screen's range buttons, `loadDataForCurrentRange` and the chart click listener are left out. The screen starts from the sessions it loaded.
- TimerScreen's save through the view model is asynchronous. The model records the row handed over and leaves the database write out.
- Negative minutes in the timer's intent are not modelled: the minutes are a natural number.
- Text classes cover ASCII only: `isWhitespace`, `isUpperCase` and `isDigit`. A field's length counts characters, not UTF-16 units.
- SetPin.LengthFilter: typing through the filter is a truncation of the whole text. Android's edit-by-edit filtering is left out.
- The platform's e-mail pattern is the parameter `isEmail`.
- Firebase account creation is left out. `SignUp.SignUpRequest` returns the address and password the account would be requested with.
- The fingerprint step before a lock reset is left out. The reset dialog is reached directly.
- DataSync.DataSyncManager.TriggerImmediateSync: states that PENDING comes first and that the one further status is SUCCESS or FAILED, but not which of the two the sync wrote. The choice is stated by `UserData.UserDataManager.SyncUserDataWithFirestore`.
- UserData.UserDataManager.PullOne: runs the intended same-second existence check (`Matches`), not the exact `seconds * 1000` equality of UserDataManager.kt:197-198 (see Findings); the lemmas about the pull hold for both checks.
- UserData.UserDataManager.PullTurn: runs the intended same-second existence check (`Matches`), not the exact `seconds * 1000` equality of UserDataManager.kt:197-198 (see Findings); the lemmas about the pull hold for both checks.
- UserData.UserDataManager.PullRemoteSessions: runs the intended same-second existence check (`Matches`), not the exact `seconds * 1000` equality of UserDataManager.kt:197-198 (see Findings); the lemmas about the pull hold for both checks.
- UserData.UserDataManager.PullLoop: runs the intended same-second existence check (`Matches`), not the exact `seconds * 1000` equality of UserDataManager.kt:197-198 (see Findings); the lemmas about the pull hold for both checks.
- UserData.UserDataManager.ReadAndPull: runs the intended same-second existence check (`Matches`), not the exact `seconds * 1000` equality of UserDataManager.kt:197-198 (see Findings); the lemmas about the pull hold for both checks.
- UserData.UserDataManager.PullPhase: runs the intended same-second existence check (`Matches`), not the exact `seconds * 1000` equality of UserDataManager.kt:197-198 (see Findings); the lemmas about the pull hold for both checks.
- UserData.UserDataManager.FinishSync: runs the intended same-second existence check (`Matches`), not the exact `seconds * 1000` equality of UserDataManager.kt:197-198 (see Findings); the lemmas about the pull hold for both checks.
- UserData.UserDataManager.SyncUserDataWithFirestore: runs the intended same-second existence check (`Matches`), not the exact `seconds * 1000` equality of UserDataManager.kt:197-198 (see Findings); the lemmas about the pull hold for both checks.
- UserData.UserDataManager.LoginAndSync: reaches the pull through SyncUserDataWithFirestore, so it runs the intended same-second existence check, not the exact equality of UserDataManager.kt:197-198 (see Findings).
- UserData.UserDataManager.SyncKnownUser: reaches the pull through SyncUserDataWithFirestore, so it runs the intended same-second existence check, not the exact equality of UserDataManager.kt:197-198 (see Findings).
- UserData.UserDataManager.HandleUserAuthentication: reaches the pull through SyncUserDataWithFirestore, so it runs the intended same-second existence check, not the exact equality of UserDataManager.kt:197-198 (see Findings).
- UserData.UserDataManager.LoginAndRecordSuccess: reaches the pull through SyncUserDataWithFirestore, so it runs the intended same-second existence check, not the exact equality of UserDataManager.kt:197-198 (see Findings).
- UserData.UserDataManager.LogoutSync: reaches the pull through SyncUserDataWithFirestore, so it runs the intended same-second existence check, not the exact equality of UserDataManager.kt:197-198 (see Findings).
- UserData.UserDataManager.SyncForLogout: reaches the pull through SyncUserDataWithFirestore, so it runs the intended same-second existence check, not the exact equality of UserDataManager.kt:197-198 (see Findings).
- UserData.UserDataManager.HandleUserLogout: reaches the pull through SyncUserDataWithFirestore, so it runs the intended same-second existence check, not the exact equality of UserDataManager.kt:197-198 (see Findings).
- DataSync.DataSyncManager.TriggerImmediateSync: reaches the pull through SyncUserDataWithFirestore, so it runs the intended same-second existence check, not the exact equality of UserDataManager.kt:197-198 (see Findings).
- MultiDeviceSync.PerformMultiDeviceSync: merges the sessions of the intended thirty-day window (`Recent`) and pushes them with the intended conversion (`PushDocs`). The wrapped window of EnhancedSyncManager.kt:44 and the `* 1000` nanoseconds of EnhancedSyncManager.kt:64-65 are modelled separately as `RecentAsWritten` and `PushDocsAsWritten` (see Findings).
- The lemmas about a pulled or pushed document use the intended conversions, except where a lemma names the form as written.
- The security, fingerprint and face helpers, the community features and the other screens are not part of this model.

## Findings

| source | as written | input that shows it | evidently intended | confidence | as-written member | corrected member |
|---|---|---|---|---|---|---|
| app/src/main/java/com/example/monktemple/data/sync/EnhancedSyncManager.kt:44 | the 30-day span `30 * 24 * 60 * 60 * 1000` is 32-bit `Int` arithmetic and wraps to -1,702,967,296, so the window keeps only sessions completed more than 19.7 days in the future | a session completed 1000 ms before `now` is dropped from the multi-device sync | keep the sessions completed within the last 2,592,000,000 ms | not executed | MultiDeviceSync.AsWrittenKeepsOnlyFutureSessions, MultiDeviceSync.WindowCounterexample | MultiDeviceSync.Recent |
| app/src/main/java/com/example/monktemple/data/sync/EnhancedSyncManager.kt:64-65 | the nanosecond field is `(ms % 1000) * 1000`, so the milliseconds are lost | a session at 1500 ms is pushed as 1 s + 500,000 ns and reads back as 1000 ms | `(ms % 1000) * 1000000`, as UserDataManager.kt:178-179 computes it | not executed | MultiDeviceSync.PushAsWrittenCounterexample, Timestamps.AsWrittenCounterexample | MultiDeviceSync.PushPreservesInstants, Timestamps.MillisRoundTrip |
| app/src/main/java/com/example/monktemple/data/sync/UserDataManager.kt:197-198 | a document counts as present locally only when a row's time equals its whole seconds times 1000 | a session at 1500 ms is pushed and then pulled back as a second row at 1000 ms in the same sync | a row whose time lies in the document's second counts as present, so a sync does not duplicate its own sessions | not executed | UserData.PullDuplicatesAsWritten | UserData.PushedSessionsPullNothing |
| app/src/main/java/com/example/monktemple/InsightsActivity.kt:146-149 | hours 0 to 4 fall into the PM branch unchanged | hour 0 prints "0PM", and hours 1 and 13 both print "1PM" | a twelve-hour clock label: 12AM for midnight and AM for every hour before noon | not executed | InsightsFormat.HourLabelsCollide, InsightsFormat.FormatPeakHours, InsightsFormat.PeakHoursPastMidnight | InsightsFormat.ClockHourLabelInjective, InsightsFormat.FormatPeakHoursOnTheClock, InsightsFormat.SmallHoursOnTheClock |
