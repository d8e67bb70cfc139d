/** The sign-up form: the order of its password checks, the state each path
    leaves, and where a successful sign-up leads. */
module Register {
  import opened Wrappers
  import RouteHistory

  const MismatchError: string := "As senhas não coincidem"
  const TooShortError: string := "A senha deve ter pelo menos 6 caracteres"

  /** The form's own checks: mismatch first, then a password under 6 characters. */
  function PasswordError(password: string, confirmPassword: string): (e: Option<string>)
    ensures password != confirmPassword ==> e == Some(MismatchError)
    ensures password == confirmPassword && |password| < 6 ==> e == Some(TooShortError)
    ensures e.None? <==> password == confirmPassword && |password| >= 6
  {
    if password != confirmPassword then Some(MismatchError)
    else if |password| < 6 then Some(TooShortError)
    else None
  }

  /** A short password that does not match its confirmation reports the mismatch. */
  lemma MismatchReportedFirst(password: string, confirmPassword: string)
    requires password != confirmPassword && |password| < 6
    ensures PasswordError(password, confirmPassword) == Some(MismatchError)
    ensures MismatchError != TooShortError
  {
  }

  /** Where the page goes two seconds after a successful sign-up: the restored
      route, else a non-empty string `from` of the navigation state, else the
      dashboard. */
  function RedirectTarget(lastRoute: Option<string>, from: Option<string>): (target: string)
    ensures lastRoute.Some? && lastRoute.value != "" ==> target == lastRoute.value
    ensures (lastRoute.None? || lastRoute.value == "") && from.Some? && from.value != "" ==> target == from.value
    ensures (lastRoute.None? || lastRoute.value == "") && (from.None? || from.value == "") ==> target == "/dashboard"
  {
    if lastRoute.Some? && lastRoute.value != "" then lastRoute.value
    else if from.Some? && from.value != "" then from.value
    else "/dashboard"
  }

  /** The target as written: the restore runs while the page's path is
      "/register", one of the paths nothing is restored on. */
  function TargetAsWritten(storage: map<string, string>, now: int, from: Option<string>): string {
    RedirectTarget(RouteHistory.Restore(RouteHistory.LastRoute(storage, now), "/register"), from)
  }

  /** As written the saved route never decides the target, however fresh it is. */
  lemma SavedRouteNeverUsed(storage: map<string, string>, now: int, from: Option<string>)
    ensures TargetAsWritten(storage, now, from) == RedirectTarget(None, from)
  {
    RouteHistory.NoRestoreWhereNotSaved(RouteHistory.LastRoute(storage, now), "/register");
  }

  /** A route saved a minute before sign-up, with no `from`: the page goes to the
      dashboard instead. */
  lemma FreshRouteIgnored()
    ensures TargetAsWritten(RouteHistory.Saved(map[], "/dashboard/integrations", 0), 60000, None) == "/dashboard"
  {
    SavedRouteNeverUsed(RouteHistory.Saved(map[], "/dashboard/integrations", 0), 60000, None);
  }

  /** The target with the saved route taken as `getLastRoute` returns it. */
  function Target(storage: map<string, string>, now: int, from: Option<string>): string {
    RedirectTarget(RouteHistory.LastRoute(storage, now), from)
  }

  /** A route saved at most thirty minutes before sign-up is where the page goes. */
  lemma FreshRouteRestored(storage: map<string, string>, pathname: string, saved: nat, now: int, from: Option<string>)
    requires pathname != "" && now - saved <= 1800000
    ensures Target(RouteHistory.Saved(storage, pathname, saved), now, from) == pathname
  {
    RouteHistory.SavedRouteValidity(storage, pathname, saved, now);
  }

  /** Without a valid saved route the corrected target is the one as written. */
  lemma TargetsAgreeWithoutRoute(storage: map<string, string>, now: int, from: Option<string>)
    requires RouteHistory.LastRoute(storage, now).None?
    ensures Target(storage, now, from) == TargetAsWritten(storage, now, from)
  {
  }

  /** The form's state. */
  class RegisterForm {
    var name: string
    var email: string
    var password: string
    var confirmPassword: string
    var loading: bool
    var error: string
    var success: bool

    constructor()
      ensures name == [] && email == [] && password == [] && confirmPassword == []
      ensures !loading && error == [] && !success
    {
      name, email, password, confirmPassword := [], [], [], [];
      loading, error, success := false, [], false;
    }

    /** `handleSubmit`. `signUpError` is the message of the error `signUp`
        answers with, if any; `signUpCalled` says whether `signUp` was called. A
        rejected password clears `loading` without calling `signUp`; a sign-up
        error is shown and clears `loading`; a success sets `success` and leaves
        `loading` set. Only a success changes `success`. */
    method HandleSubmit(signUpError: Option<string>) returns (signUpCalled: bool)
      modifies this
      ensures signUpCalled <==> PasswordError(password, confirmPassword).None?
      ensures !signUpCalled ==> error == PasswordError(password, confirmPassword).value && !loading
      ensures signUpCalled && signUpError.Some? ==> error == signUpError.value && !loading
      ensures signUpCalled && signUpError.None? ==> error == [] && loading && success
      ensures !(signUpCalled && signUpError.None?) ==> success == old(success)
      ensures name == old(name) && email == old(email)
      ensures password == old(password) && confirmPassword == old(confirmPassword)
    {
      loading := true;
      error := [];
      var check := PasswordError(password, confirmPassword);
      if check.Some? {
        error := check.value;
        loading := false;
        return false;
      }
      signUpCalled := true;
      if signUpError.Some? {
        error := signUpError.value;
        loading := false;
      } else {
        success := true;
      }
    }
  }
}
