/** The settings edits of backend/routes/api.js: the excluded-library and untracked-user toggles,
    API key removal and creation, the task-interval update and the credential change, each on the
    `app_config` row. */
module ApiSettings {
  import opened Wrappers
  import opened AppConfig

  const Ok := 200
  const BadRequest := 400
  const NotFound := 404
  const Unavailable := 503

  /** A member of a request body that may be missing, hold a list, or hold a single value. */
  datatype BodyValue = Missing | ListValue | Single(text: string)

  // ---- Toggles

  /** `list.filter((item) => item !== x)`: every occurrence of `x` is dropped, the rest keep their order. */
  function RemoveAll(list: seq<string>, x: string): (r: seq<string>)
    ensures forall y :: y in r <==> y in list && y != x
    ensures |r| <= |list|
  {
    if list == [] then [] else (if list[0] == x then [] else [list[0]]) + RemoveAll(list[1..], x)
  }

  /** A list without `x` is left as it is by removing `x`. */
  lemma {:induction false} RemoveAbsent(list: seq<string>, x: string)
    requires x !in list
    ensures RemoveAll(list, x) == list
  {
    if list != [] {
      RemoveAbsent(list[1..], x);
    }
  }

  /** Removing `x` from `list + [x]` gives `list` back when `list` has no `x`. */
  lemma {:induction false} RemoveAppended(list: seq<string>, x: string)
    requires x !in list
    ensures RemoveAll(list + [x], x) == list
  {
    if list == [] {
      assert [x][1..] == [];
    } else {
      assert (list + [x])[1..] == list[1..] + [x];
      RemoveAppended(list[1..], x);
    }
  }

  /** The toggle: a listed id is removed (every occurrence), an unlisted one appended. */
  function Toggled(list: seq<string>, x: string): seq<string>
  {
    if x in list then RemoveAll(list, x) else list + [x]
  }

  /** A toggle flips the membership of its id and of no other id. */
  lemma ToggleFlips(list: seq<string>, x: string)
    ensures x in Toggled(list, x) <==> x !in list
    ensures forall y :: y != x ==> (y in Toggled(list, x) <==> y in list)
  {
  }

  /** Toggling twice restores membership; starting from an unlisted id it restores the list itself. */
  lemma ToggleTwice(list: seq<string>, x: string)
    ensures forall y :: y in Toggled(Toggled(list, x), x) <==> y in list
    ensures x !in list ==> Toggled(Toggled(list, x), x) == list
  {
    ToggleFlips(list, x);
    ToggleFlips(Toggled(list, x), x);
    if x !in list {
      RemoveAppended(list, x);
    }
  }

  /** `POST /setExcludedLibraries`. */
  method SetExcludedLibraries(config: ConfigRow, libraryId: Option<string>) returns (status: int)
    modifies config`settings
    ensures libraryId.None? ==> status == BadRequest && config.settings == old(config.settings)
    ensures libraryId.Some? && !config.present ==> status == NotFound && config.settings == old(config.settings)
    ensures libraryId.Some? && config.present ==>
              status == Ok
              && config.settings == old(config.settings).(excludedLibraries := Toggled(old(config.settings.excludedLibraries), libraryId.value))
  {
    if libraryId.None? {
      return BadRequest;
    }
    if !config.present {
      return NotFound;
    }
    var libraries := config.settings.excludedLibraries;
    if libraryId.value in libraries {
      libraries := RemoveAll(libraries, libraryId.value);
    } else {
      libraries := libraries + [libraryId.value];
    }
    config.settings := config.settings.(excludedLibraries := libraries);
    status := Ok;
  }

  /** `POST /setUntrackedUsers`; on success the reply is the new list. */
  method SetUntrackedUsers(config: ConfigRow, userId: BodyValue) returns (status: int, users: seq<string>)
    modifies config`settings
    ensures !userId.Single? ==> status == BadRequest && config.settings == old(config.settings)
    ensures userId.Single? && !config.present ==> status == NotFound && config.settings == old(config.settings)
    ensures userId.Single? && config.present ==>
              && status == Ok && users == Toggled(old(config.settings.excludedUsers), userId.text)
              && config.settings == old(config.settings).(excludedUsers := users)
  {
    users := [];
    if !userId.Single? {
      return BadRequest, users;
    }
    if !config.present {
      return NotFound, users;
    }
    users := config.settings.excludedUsers;
    if userId.text in users {
      users := RemoveAll(users, userId.text);
    } else {
      users := users + [userId.text];
    }
    config.settings := config.settings.(excludedUsers := users);
    status := Ok;
  }

  // ---- API keys

  /** `!key`: JavaScript falsiness of a string member. */
  predicate Falsy(s: Option<string>)
  {
    s.None? || s.value == ""
  }

  predicate HasKey(keys: seq<ApiKey>, key: string)
  {
    exists i :: 0 <= i < |keys| && keys[i].key == key
  }

  /** `keys.filter((obj) => obj.key !== key)`. */
  function RemoveKey(keys: seq<ApiKey>, key: string): (r: seq<ApiKey>)
    ensures forall e :: e in r <==> e in keys && e.key != key
    ensures !HasKey(r, key)
  {
    if keys == [] then []
    else (if keys[0].key == key then [] else [keys[0]]) + RemoveKey(keys[1..], key)
  }

  /** Removing a key leaves the list as it was exactly when no entry carries that key, and a
      removal that finds one shortens the list. */
  lemma {:induction false} RemoveKeyExact(keys: seq<ApiKey>, key: string)
    ensures !HasKey(keys, key) <==> RemoveKey(keys, key) == keys
    ensures HasKey(keys, key) ==> |RemoveKey(keys, key)| < |keys|
  {
    if keys != [] {
      RemoveKeyExact(keys[1..], key);
      if HasKey(keys[1..], key) {
        var i :| 0 <= i < |keys[1..]| && keys[1..][i].key == key;
        assert keys[i + 1].key == key;
      }
      if HasKey(keys, key) && keys[0].key != key {
        var i :| 0 <= i < |keys| && keys[i].key == key;
        assert keys[1..][i - 1].key == key;
      }
      RemoveKeyShorter(keys[1..], key);
      if RemoveKey(keys, key) == keys {
        assert keys[0].key != key;
      }
    }
  }

  lemma {:induction false} RemoveKeyShorter(keys: seq<ApiKey>, key: string)
    ensures |RemoveKey(keys, key)| <= |keys|
  {
    if keys != [] {
      RemoveKeyShorter(keys[1..], key);
    }
  }

  /** `DELETE /keys`. */
  method DeleteKey(config: ConfigRow, key: Option<string>) returns (status: int)
    modifies config`apiKeys
    ensures Falsy(key) ==> status == BadRequest && config.apiKeys == old(config.apiKeys)
    ensures !Falsy(key) && !HasKey(old(config.apiKeys), key.value) ==> status == NotFound && config.apiKeys == old(config.apiKeys)
    ensures !Falsy(key) && HasKey(old(config.apiKeys), key.value) ==>
              status == Ok && config.apiKeys == (if config.present then RemoveKey(old(config.apiKeys), key.value) else old(config.apiKeys))
  {
    if Falsy(key) {
      return BadRequest;
    }
    var keys := config.apiKeys;
    if HasKey(keys, key.value) {
      if config.present {
        config.apiKeys := RemoveKey(keys, key.value);
      }
      status := Ok;
    } else {
      status := NotFound;
    }
  }

  /** `POST /keys`, the fresh key `uuid` given; on success the reply is the new list. */
  method AddKey(config: ConfigRow, name: Option<string>, uuid: string) returns (status: int, keys: seq<ApiKey>)
    modifies config`apiKeys
    ensures Falsy(name) ==> status == BadRequest && config.apiKeys == old(config.apiKeys)
    ensures !Falsy(name) ==> status == Ok && keys == old(config.apiKeys) + [ApiKey(name.value, uuid)]
    ensures !Falsy(name) ==> config.apiKeys == if config.present then keys else old(config.apiKeys)
  {
    keys := config.apiKeys;
    if name.None? {
      return BadRequest, keys;
    }
    if name.value == "" {
      return BadRequest, keys;
    }
    keys := keys + [ApiKey(name.value, uuid)];
    if config.present {
      config.apiKeys := keys;
    }
    status := Ok;
  }

  // ---- Task interval

  /** `POST /setTaskSettings`; on success the reply is the new `Tasks` object. */
  method SetTaskSettings(config: ConfigRow, taskName: Option<string>, interval: Option<int>)
    returns (status: int, tasks: map<string, TaskSettings>)
    modifies config`settings
    ensures (taskName.None? || interval.None?) ==> status == BadRequest && config.settings == old(config.settings)
    ensures taskName.Some? && interval.Some? && !config.present ==> status == NotFound && config.settings == old(config.settings)
    ensures taskName.Some? && interval.Some? && config.present ==>
              && status == Ok
              && tasks == old(config.settings.tasks)[taskName.value := TaskSettings(interval)]
              && config.settings == old(config.settings).(tasks := tasks)
  {
    tasks := config.settings.tasks;
    if taskName.None? || interval.None? {
      return BadRequest, tasks;
    }
    if !config.present {
      return NotFound, tasks;
    }
    var entry := if taskName.value in tasks then tasks[taskName.value] else TaskSettings(None);
    tasks := tasks[taskName.value := entry.(interval := interval)];
    config.settings := config.settings.(tasks := tasks);
    status := Ok;
  }

  // ---- Credentials

  /** The reply of `POST /updateCredentials`. */
  datatype CredentialReply = CredentialReply(status: int, isValid: bool, errorMessage: string)

  /** The reply and the two column writes (None: no `UPDATE`) of one credential request. */
  datatype CredentialOutcome = CredentialOutcome(reply: CredentialReply, userWrite: Option<string>, passwordWrite: Option<string>)

  const InvalidParameters := "Invalid Parameters"
  const EmptyUsername := "Username cannot be empty"
  const SamePassword := "New Password cannot be the same as Old Password"
  const WrongPassword := "Old Password is Invalid"

  /** `stored === given` between a column (None: NULL) and a body member (None: undefined):
      NULL never equals undefined. */
  predicate Matches(stored: Option<string>, given: Option<string>)
  {
    stored.Some? && given == stored
  }

  /** The text a body member becomes inside the SQL template: undefined reads "undefined". */
  function TemplateText(s: Option<string>): string
  {
    if s.Some? then s.value else "undefined"
  }

  /** The username write: issued when a username is given and differs from the stored one. */
  function UserWrite(appUser: Option<string>, username: Option<string>): Option<string>
  {
    if username.Some? && appUser != username then username else None
  }

  /** The password step, once the request has passed the guards: the stored password must match
      the current one and differ from the new one. */
  function PasswordStep(appPassword: Option<string>, username: Option<string>, current: Option<string>, newPassword: Option<string>, appUser: Option<string>): CredentialOutcome
  {
    var user := UserWrite(appUser, username);
    if !Matches(appPassword, current) then CredentialOutcome(CredentialReply(BadRequest, false, WrongPassword), user, None)
    else if Matches(appPassword, newPassword) then CredentialOutcome(CredentialReply(BadRequest, false, SamePassword), user, None)
    else CredentialOutcome(CredentialReply(Ok, true, ""), user, Some(TemplateText(newPassword)))
  }

  /** The guards ahead of the password step: config error, nothing given, empty username. */
  function Guards(configError: Option<string>, username: Option<string>, current: Option<string>, newPassword: Option<string>): Option<CredentialReply>
  {
    if configError.Some? then Some(CredentialReply(Unavailable, false, configError.value))
    else if username.None? && current.None? && newPassword.None? then Some(CredentialReply(BadRequest, false, InvalidParameters))
    else if username == Some("") then Some(CredentialReply(BadRequest, false, EmptyUsername))
    else None
  }

  /** `updateCredentials` as written: the password step is skipped only when both passwords are
      missing, so a request with the current password and no new one reaches the `UPDATE`, which
      then stores the text "undefined". */
  function CredentialsAsWritten(configError: Option<string>, appUser: Option<string>, appPassword: Option<string>,
                                username: Option<string>, current: Option<string>, newPassword: Option<string>): (r: CredentialOutcome)
    ensures configError.Some? ==> r.reply.status == Unavailable && !r.reply.isValid && r.userWrite.None? && r.passwordWrite.None?
    ensures configError.None? && username.None? && current.None? && newPassword.None? ==>
              r == CredentialOutcome(CredentialReply(BadRequest, false, InvalidParameters), None, None)
    ensures configError.None? && username == Some("") ==> r.reply.status == BadRequest && r.userWrite.None? && r.passwordWrite.None?
    ensures r.reply.status == Ok <==> r.reply.isValid && r.passwordWrite.Some?
    ensures !r.reply.isValid ==> r.reply.status != Ok && r.passwordWrite.None?
    ensures r.userWrite.Some? <==>
              configError.None? && username.Some? && username.value != "" && appUser != username
    ensures r.userWrite.Some? ==> r.userWrite == username
    ensures r.passwordWrite.Some? <==>
              && configError.None? && username != Some("") && (current.Some? || newPassword.Some?)
              && Matches(appPassword, current) && !Matches(appPassword, newPassword)
    ensures r.passwordWrite.Some? ==> r.passwordWrite == Some(TemplateText(newPassword))
    ensures configError.None? && username != Some("") && (current.Some? || newPassword.Some?) && !Matches(appPassword, current) ==>
              r.reply == CredentialReply(BadRequest, false, WrongPassword)
  {
    var guard := Guards(configError, username, current, newPassword);
    if guard.Some? then CredentialOutcome(guard.value, None, None)
    else if current.None? && newPassword.None? then CredentialOutcome(CredentialReply(BadRequest, true, ""), UserWrite(appUser, username), None)
    else PasswordStep(appPassword, username, current, newPassword, appUser)
  }

  /** `updateCredentials` as intended: no password is written without a new password. A request
      with the right current password and no new one is answered like one with no password at all;
      every other request, a wrong or missing current password included, is answered as written. */
  function Credentials(configError: Option<string>, appUser: Option<string>, appPassword: Option<string>,
                       username: Option<string>, current: Option<string>, newPassword: Option<string>): (r: CredentialOutcome)
    ensures configError.Some? ==> r.reply.status == Unavailable && !r.reply.isValid && r.userWrite.None? && r.passwordWrite.None?
    ensures configError.None? && username.None? && current.None? && newPassword.None? ==>
              r == CredentialOutcome(CredentialReply(BadRequest, false, InvalidParameters), None, None)
    ensures configError.None? && username == Some("") ==> r.reply.status == BadRequest && r.userWrite.None? && r.passwordWrite.None?
    ensures r.reply.status == Ok <==> r.reply.isValid && r.passwordWrite.Some?
    ensures !r.reply.isValid ==> r.reply.status != Ok && r.passwordWrite.None?
    ensures r.userWrite.Some? <==>
              configError.None? && username.Some? && username.value != "" && appUser != username
    ensures r.userWrite.Some? ==> r.userWrite == username
    ensures r.passwordWrite.Some? <==>
              && configError.None? && username != Some("") && newPassword.Some?
              && Matches(appPassword, current) && !Matches(appPassword, newPassword)
    ensures r.passwordWrite.Some? ==> r.passwordWrite == newPassword
    ensures configError.None? && username != Some("") && (current.Some? || newPassword.Some?) && !Matches(appPassword, current) ==>
              r.reply == CredentialReply(BadRequest, false, WrongPassword)
    ensures configError.None? && username != Some("") && current.None? && newPassword.Some? ==>
              r.reply == CredentialReply(BadRequest, false, WrongPassword) && r.passwordWrite.None?
  {
    var guard := Guards(configError, username, current, newPassword);
    if guard.Some? then CredentialOutcome(guard.value, None, None)
    else if newPassword.None? && (current.None? || Matches(appPassword, current)) then
      CredentialOutcome(CredentialReply(BadRequest, true, ""), UserWrite(appUser, username), None)
    else PasswordStep(appPassword, username, current, newPassword, appUser)
  }

  /** The correction changes exactly one kind of request: the right current password with no new
      one. There the code as written stores "undefined" and answers 200, and the intended version
      writes no password and answers 400 as for a request without passwords. */
  lemma CredentialsCorrectionScope(configError: Option<string>, appUser: Option<string>, appPassword: Option<string>,
                                   username: Option<string>, current: Option<string>, newPassword: Option<string>)
    ensures var fixed := Credentials(configError, appUser, appPassword, username, current, newPassword);
            var written := CredentialsAsWritten(configError, appUser, appPassword, username, current, newPassword);
            var affected := configError.None? && username != Some("") && newPassword.None? && Matches(appPassword, current);
            && (!affected ==> fixed == written)
            && (affected ==> written.passwordWrite == Some("undefined") && written.reply == CredentialReply(Ok, true, "")
                             && fixed.passwordWrite.None? && fixed.reply == CredentialReply(BadRequest, true, "")
                             && fixed.userWrite == written.userWrite)
  {
  }

  /** As written, a request carrying the right current password and no new one sets the stored
      password to the text "undefined"; the intended version changes nothing. */
  lemma CredentialsAsWrittenStoresUndefined()
    ensures CredentialsAsWritten(None, Some("admin"), Some("pw"), None, Some("pw"), None).passwordWrite == Some("undefined")
    ensures Credentials(None, Some("admin"), Some("pw"), None, Some("pw"), None).passwordWrite.None?
  {
  }

  /** `POST /updateCredentials` against the row, with `configError` the error `getConfig` reports.
      The route follows the code as written (`CredentialsAsWritten`). */
  method UpdateCredentials(config: ConfigRow, configError: Option<string>, username: Option<string>,
                           current: Option<string>, newPassword: Option<string>) returns (reply: CredentialReply)
    modifies config`appUser, config`appPassword
    ensures var r := CredentialsAsWritten(configError, old(config.appUser), old(config.appPassword), username, current, newPassword);
            && reply == r.reply
            && config.appUser == (if config.present && r.userWrite.Some? then r.userWrite else old(config.appUser))
            && config.appPassword == (if config.present && r.passwordWrite.Some? then r.passwordWrite else old(config.appPassword))
  {
    var storedUser, storedPassword := config.appUser, config.appPassword;
    if configError.Some? {
      return CredentialReply(Unavailable, false, configError.value);
    }
    if username.None? && current.None? && newPassword.None? {
      return CredentialReply(BadRequest, false, InvalidParameters);
    }
    if username == Some("") {
      return CredentialReply(BadRequest, false, EmptyUsername);
    }
    if username.Some? && storedUser != username && config.present {
      config.appUser := username;
    }
    if current.None? && newPassword.None? {
      return CredentialReply(BadRequest, true, "");
    }
    reply := CredentialReply(Ok, true, "");
    if Matches(storedPassword, current) {
      if Matches(storedPassword, newPassword) {
        reply := CredentialReply(BadRequest, false, SamePassword);
      } else if config.present {
        config.appPassword := Some(TemplateText(newPassword));
      }
    } else {
      reply := CredentialReply(BadRequest, false, WrongPassword);
    }
  }
}
