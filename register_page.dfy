/** The sign-up page (client/src/pages/Register.tsx): the form's fields, the
    checks `handleSubmit` applies before it registers, and the error, loading
    and navigation state around the call. The registration itself (the
    authentication context's `register`) is an outcome parameter. */
module RegisterPage {
  import opened Wrappers
  import UserModel
  import Text

  const ShortPasswordError: string := "Password must be at least 6 characters long"
  const MismatchError: string := "Passwords do not match"
  const RegisterFallback: string := "Registration failed. Please try again."
  const MinPasswordLength: nat := 6

  /** A call of `register`, and whether the loading indicator was on while
      it ran. */
  datatype RegisterCall = RegisterCall(name: string, email: string, password: string, loadingShown: bool)

  /** The form's checks in their order: the length first, then the match. */
  function FormError(password: string, confirmPassword: string): (r: Option<string>)
    ensures r.None? <==> Text.Utf16Length(password) >= MinPasswordLength && password == confirmPassword
    ensures Text.Utf16Length(password) < MinPasswordLength ==> r == Some(ShortPasswordError)
    ensures Text.Utf16Length(password) >= MinPasswordLength && password != confirmPassword ==> r == Some(MismatchError)
  {
    if Text.Utf16Length(password) < MinPasswordLength then Some(ShortPasswordError)
    else if password != confirmPassword then Some(MismatchError)
    else None
  }

  /** The length check comes first: a short password that also differs
      from its confirmation reports the length. */
  lemma ShortMismatchReportsLength(password: string, confirmPassword: string)
    requires Text.Utf16Length(password) < MinPasswordLength && password != confirmPassword
    ensures FormError(password, confirmPassword) == Some(ShortPasswordError)
  {
  }

  /** A password the form lets through is one the server's schema accepts,
      and the other way round. */
  lemma ClientPasswordRuleMatchesServer(password: string)
    ensures FormError(password, password).None? <==> UserModel.PasswordError(Some(password)).None?
  {
  }

  /** Length is counted as `password.length` counts it, in UTF-16 code
      units: three characters beyond U+FFFF already make six, so such a
      password passes the length check. */
  lemma AstralPasswordLongEnough()
    ensures FormError("\U{1F600}\U{1F600}\U{1F600}", "\U{1F600}\U{1F600}\U{1F600}").None?
  {
    var p := "\U{1F600}\U{1F600}\U{1F600}";
    assert |p| == 3 && p[0] as int > 0xFFFF && p[1] as int > 0xFFFF && p[2] as int > 0xFFFF;
    assert p[..1][..0] == [];
    assert Text.Utf16Length(p[..1]) == 2;
    assert p[..2][..1] == p[..1];
    assert Text.Utf16Length(p[..2]) == 4;
    assert p[..|p| - 1] == p[..2];
    assert Text.Utf16Length(p) == 6;
  }

  class Register {
    var name: string
    var email: string
    var password: string
    var confirmPassword: string
    var error: string
    var loading: bool
    /** The route the page navigated to, when it did. */
    var location: Option<string>
    /** Every call of `register`, in order. */
    var registerCalls: seq<RegisterCall>

    constructor ()
      ensures name == "" && email == "" && password == "" && confirmPassword == ""
      ensures error == "" && !loading && location.None? && registerCalls == []
    {
      name := "";
      email := "";
      password := "";
      confirmPassword := "";
      error := "";
      loading := false;
      location := None;
      registerCalls := [];
    }

    /** Typing in the form. */
    method Fill(newName: string, newEmail: string, newPassword: string, newConfirm: string)
      modifies this
      ensures name == newName && email == newEmail && password == newPassword && confirmPassword == newConfirm
      ensures error == old(error) && loading == old(loading) && location == old(location)
      ensures registerCalls == old(registerCalls)
    {
      name := newName;
      email := newEmail;
      password := newPassword;
      confirmPassword := newConfirm;
    }

    /** `handleSubmit`: clears the error; a failed check sets its message
        and registers nobody, leaving the loading flag alone; otherwise
        `register` is called once with the loading indicator on, success
        navigates to the dashboard, a failure shows its message (or the
        fallback), and loading ends off. */
    method HandleSubmit(outcome: Result<()>)
      modifies this
      ensures name == old(name) && email == old(email) && password == old(password)
      ensures confirmPassword == old(confirmPassword)
      ensures FormError(password, confirmPassword).Some? ==>
        && error == FormError(password, confirmPassword).value
        && registerCalls == old(registerCalls) && location == old(location) && loading == old(loading)
      ensures FormError(password, confirmPassword).None? ==>
        && registerCalls == old(registerCalls) + [RegisterCall(name, email, password, true)]
        && !loading
      ensures FormError(password, confirmPassword).None? && outcome.Ok? ==>
        error == "" && location == Some("/dashboard")
      ensures FormError(password, confirmPassword).None? && outcome.Err? ==>
        && error == (if outcome.message != [] then outcome.message else RegisterFallback)
        && location == old(location)
    {
      error := "";
      if Text.Utf16Length(password) < MinPasswordLength {
        error := ShortPasswordError;
        return;
      }
      if password != confirmPassword {
        error := MismatchError;
        return;
      }
      loading := true;
      registerCalls := registerCalls + [RegisterCall(name, email, password, loading)];
      if outcome.Ok? {
        location := Some("/dashboard");
      } else {
        error := if outcome.message != [] then outcome.message else RegisterFallback;
      }
      loading := false;
    }
  }
}
