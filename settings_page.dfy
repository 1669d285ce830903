/** The account settings page (client/src/pages/Settings.tsx): the profile
    and password forms, account deletion, and the loading, error, success
    and navigation state each handler leaves behind. The authentication
    context's `updateUser` and the browser's `confirm` are parameters; the
    two `fetch` calls are a request trace plus an outcome parameter. */
module SettingsPage {
  import opened Wrappers
  import RegisterPage
  import Text

  const ProfileSaved: string := "Profile updated successfully!"
  const ProfileFallback: string := "Failed to update profile"
  const ShortNewPasswordError: string := "New password must be at least 6 characters"
  const MismatchError: string := "Passwords do not match"
  const PasswordSaved: string := "Password updated successfully!"
  const PasswordFallback: string := "Failed to update password"
  const DeleteFailed: string := "Failed to delete account"
  const MinPasswordLength: nat := 6

  /** The body `response.json()` yields: parsed (with or without a
      `message`), or text that is not JSON, which makes it throw. */
  datatype JsonBody = Parsed(message: Option<string>) | Malformed(parseError: string)

  /** How an awaited `fetch` ends: it throws (network failure), or a
      response arrives with its `ok` flag and body. */
  datatype FetchOutcome = NetworkFailure(message: string) | Response(ok: bool, body: JsonBody)

  /** A request the page sends itself, with its `Authorization` header. */
  datatype FetchRequest =
    | ChangePassword(authorization: string, currentPassword: string, newPassword: string)
    | DeleteAccount(authorization: string)

  /** `err.message || fallback`. */
  function ErrorText(message: string, fallback: string): string
  {
    if message != [] then message else fallback
  }

  /** `Bearer ${localStorage.getItem('token')}`: a missing token is
      interpolated as the text "null". */
  function BearerOf(token: Option<string>): (r: string)
    ensures token.Some? ==> r == "Bearer " + token.value
    ensures token.None? ==> r == "Bearer null"
  {
    "Bearer " + (if token.Some? then token.value else "null")
  }

  /** The password form's checks in their order: the length first, then
      the match. */
  function PasswordFormError(newPassword: string, confirmPassword: string): (r: Option<string>)
    ensures r.None? <==> Text.Utf16Length(newPassword) >= MinPasswordLength && newPassword == confirmPassword
    ensures Text.Utf16Length(newPassword) < MinPasswordLength ==> r == Some(ShortNewPasswordError)
    ensures Text.Utf16Length(newPassword) >= MinPasswordLength && newPassword != confirmPassword ==> r == Some(MismatchError)
  {
    if Text.Utf16Length(newPassword) < MinPasswordLength then Some(ShortNewPasswordError)
    else if newPassword != confirmPassword then Some(MismatchError)
    else None
  }

  /** The settings page and the sign-up page accept the same passwords, in
      the same order of checks, though their length messages differ. */
  lemma PasswordRulesAgree(password: string, confirmPassword: string)
    ensures PasswordFormError(password, confirmPassword).None? <==> RegisterPage.FormError(password, confirmPassword).None?
    ensures PasswordFormError(password, confirmPassword) == Some(MismatchError)
      <==> RegisterPage.FormError(password, confirmPassword) == Some(RegisterPage.MismatchError)
  {
  }

  /** The error the password handler shows for a response, if any: the
      body is read before `ok` is looked at, so a body that is not JSON
      fails the update even on an ok response. */
  function PasswordOutcomeError(outcome: FetchOutcome): (r: Option<string>)
    ensures r.None? <==> outcome.Response? && outcome.ok && outcome.body.Parsed?
    ensures r.Some? ==> r.value != []
  {
    match outcome
    case NetworkFailure(m) => Some(ErrorText(m, PasswordFallback))
    case Response(ok, Malformed(e)) => Some(ErrorText(e, PasswordFallback))
    case Response(ok, Parsed(m)) =>
      if ok then None
      else Some(ErrorText(if m.Some? then m.value else "", PasswordFallback))
  }

  /** A refused update shows the server's message when it sent one and the
      fallback otherwise. */
  lemma RefusedPasswordShowsServerMessage(message: Option<string>)
    ensures message.Some? && message.value != [] ==>
      PasswordOutcomeError(Response(false, Parsed(message))) == Some(message.value)
    ensures message.None? || message.value == [] ==>
      PasswordOutcomeError(Response(false, Parsed(message))) == Some(PasswordFallback)
  {
  }

  class Settings {
    var name: string
    var email: string
    var currentPassword: string
    var newPassword: string
    var confirmPassword: string
    var loading: bool
    var error: string
    var success: string
    /** The route the page navigated to, when it did. */
    var location: Option<string>
    /** Whether the authentication context's `logout` was called. */
    var loggedOut: bool
    /** The profile updates handed to `updateUser`, in order. */
    var profileUpdates: seq<(string, string)>
    /** The requests the page sent, in order. */
    var requests: seq<FetchRequest>

    /** The initial state: the signed-in user's name and email, or empty. */
    constructor (userName: Option<string>, userEmail: Option<string>)
      ensures name == (if userName.Some? then userName.value else "")
      ensures email == (if userEmail.Some? then userEmail.value else "")
      ensures currentPassword == "" && newPassword == "" && confirmPassword == ""
      ensures !loading && error == "" && success == "" && location.None? && !loggedOut
      ensures profileUpdates == [] && requests == []
    {
      name := if userName.Some? then userName.value else "";
      email := if userEmail.Some? then userEmail.value else "";
      currentPassword := "";
      newPassword := "";
      confirmPassword := "";
      loading := false;
      error := "";
      success := "";
      location := None;
      loggedOut := false;
      profileUpdates := [];
      requests := [];
    }

    /** `handleUpdateProfile`: clears both messages, hands name and email
        to `updateUser`, reports the outcome and ends with loading off. */
    method HandleUpdateProfile(outcome: Result<()>)
      modifies this
      ensures profileUpdates == old(profileUpdates) + [(name, email)]
      ensures !loading
      ensures outcome.Ok? ==> success == ProfileSaved && error == ""
      ensures outcome.Err? ==> success == "" && error == ErrorText(outcome.message, ProfileFallback)
      ensures name == old(name) && email == old(email) && currentPassword == old(currentPassword)
      ensures newPassword == old(newPassword) && confirmPassword == old(confirmPassword)
      ensures location == old(location) && loggedOut == old(loggedOut) && requests == old(requests)
    {
      error := "";
      success := "";
      loading := true;
      profileUpdates := profileUpdates + [(name, email)];
      if outcome.Ok? {
        success := ProfileSaved;
      } else {
        error := ErrorText(outcome.message, ProfileFallback);
      }
      loading := false;
    }

    /** `handleUpdatePassword`: clears both messages; a failed check sets
        its message and sends nothing; otherwise the change is sent with
        the stored token, and success clears the three password fields. */
    method HandleUpdatePassword(token: Option<string>, outcome: FetchOutcome)
      modifies this
      ensures name == old(name) && email == old(email) && location == old(location)
      ensures loggedOut == old(loggedOut) && profileUpdates == old(profileUpdates)
      ensures PasswordFormError(old(newPassword), old(confirmPassword)).Some? ==>
        && error == PasswordFormError(old(newPassword), old(confirmPassword)).value && success == ""
        && requests == old(requests) && loading == old(loading)
        && currentPassword == old(currentPassword) && newPassword == old(newPassword)
        && confirmPassword == old(confirmPassword)
      ensures PasswordFormError(old(newPassword), old(confirmPassword)).None? ==>
        && requests == old(requests) + [ChangePassword(BearerOf(token), old(currentPassword), old(newPassword))]
        && !loading
      ensures PasswordFormError(old(newPassword), old(confirmPassword)).None? && PasswordOutcomeError(outcome).None? ==>
        && success == PasswordSaved && error == ""
        && currentPassword == "" && newPassword == "" && confirmPassword == ""
      ensures PasswordFormError(old(newPassword), old(confirmPassword)).None? && PasswordOutcomeError(outcome).Some? ==>
        && error == PasswordOutcomeError(outcome).value && success == ""
        && currentPassword == old(currentPassword) && newPassword == old(newPassword)
        && confirmPassword == old(confirmPassword)
    {
      error := "";
      success := "";
      if Text.Utf16Length(newPassword) < MinPasswordLength {
        error := ShortNewPasswordError;
        return;
      }
      if newPassword != confirmPassword {
        error := MismatchError;
        return;
      }
      loading := true;
      requests := requests + [ChangePassword(BearerOf(token), currentPassword, newPassword)];
      match outcome {
        case NetworkFailure(m) =>
          error := ErrorText(m, PasswordFallback);
        case Response(ok, Malformed(e)) =>
          error := ErrorText(e, PasswordFallback);
        case Response(ok, Parsed(m)) =>
          if !ok {
            error := ErrorText(ErrorText(if m.Some? then m.value else "", PasswordFallback), PasswordFallback);
          } else {
            success := PasswordSaved;
            currentPassword := "";
            newPassword := "";
            confirmPassword := "";
          }
      }
      loading := false;
    }

    /** `handleDeleteAccount`: nothing happens unless the user confirms;
        otherwise the deletion is sent, an ok response logs out and goes to
        the home page, and anything else shows an error. Neither message is
        cleared beforehand. */
    method HandleDeleteAccount(confirmed: bool, token: Option<string>, outcome: FetchOutcome)
      modifies this
      ensures name == old(name) && email == old(email) && success == old(success)
      ensures currentPassword == old(currentPassword) && newPassword == old(newPassword)
      ensures confirmPassword == old(confirmPassword) && profileUpdates == old(profileUpdates)
      ensures !confirmed ==>
        && requests == old(requests) && loading == old(loading) && error == old(error)
        && location == old(location) && loggedOut == old(loggedOut)
      ensures confirmed ==> requests == old(requests) + [DeleteAccount(BearerOf(token))] && !loading
      ensures confirmed && outcome.Response? && outcome.ok ==>
        loggedOut && location == Some("/") && error == old(error)
      ensures confirmed && outcome.Response? && !outcome.ok ==>
        error == DeleteFailed && location == old(location) && loggedOut == old(loggedOut)
      ensures confirmed && outcome.NetworkFailure? ==>
        error == ErrorText(outcome.message, DeleteFailed) && location == old(location) && loggedOut == old(loggedOut)
    {
      if !confirmed {
        return;
      }
      loading := true;
      requests := requests + [DeleteAccount(BearerOf(token))];
      if outcome.NetworkFailure? {
        error := ErrorText(outcome.message, DeleteFailed);
      } else if !outcome.ok {
        error := DeleteFailed;
      } else {
        loggedOut := true;
        location := Some("/");
      }
      loading := false;
    }
  }
}
