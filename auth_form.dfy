/**
 * The sign-in / sign-up form (src/components/AuthForm.jsx): the password
 * checks that run before any call to the authentication service, and the
 * error, success and loading state a submit leaves behind. The service's
 * answer is a parameter.
 */
module AuthForm {
  import opened Wrappers
  import opened Text

  const MismatchError := "Passwords do not match"
  const TooShortError := "Password must be at least 6 characters"
  const FallbackError := "An error occurred"
  const SignUpSuccess := "Account created! Please check your email to verify your account."
  const SignInSuccess := "Signed in successfully!"
  const MinPasswordLength := 6

  /** Only the mode string "signup" asks for a confirmation; any other mode signs in. */
  predicate IsSignUp(mode: string) {
    mode == "signup"
  }

  /** JavaScript's `length`: UTF-16 code units, two for a character outside the Basic Multilingual Plane. */
  function Utf16Length(s: string): (n: nat)
    ensures |s| <= n <= 2 * |s|
  {
    if s == [] then 0 else (if s[0] as int > 0xFFFF then 2 else 1) + Utf16Length(s[1..])
  }

  /** A password of Basic Multilingual Plane characters is as long as JavaScript counts it. */
  lemma {:induction false} Utf16LengthOfBmp(s: string)
    requires forall i :: 0 <= i < |s| ==> s[i] as int <= 0xFFFF
    ensures Utf16Length(s) == |s|
  {
    if s != [] {
      Utf16LengthOfBmp(s[1..]);
    }
  }

  /**
   * The error the checks raise before any service call, if any: in sign-up
   * mode a mismatch comes first, then a password shorter than six.
   */
  function Validate(mode: string, password: string, confirmation: string): (e: Option<string>)
    ensures e == Some(MismatchError) <==> IsSignUp(mode) && password != confirmation
    ensures e == Some(TooShortError) <==>
      (!IsSignUp(mode) || password == confirmation) && Utf16Length(password) < MinPasswordLength
    ensures e == None <==>
      (!IsSignUp(mode) || password == confirmation) && Utf16Length(password) >= MinPasswordLength
  {
    if IsSignUp(mode) && password != confirmation then Some(MismatchError)
    else if Utf16Length(password) < MinPasswordLength then Some(TooShortError)
    else None
  }

  /** Signing in never looks at the confirmation field. */
  lemma SignInIgnoresConfirmation(mode: string, password: string, c1: string, c2: string)
    requires !IsSignUp(mode)
    ensures Validate(mode, password, c1) == Validate(mode, password, c2)
  {
  }

  /**
   * Once the confirmation check passes, six or more characters always pass
   * the length check and fewer than three never do; for Basic Multilingual
   * Plane passwords the bound is exactly six characters.
   */
  lemma LengthBoundary(mode: string, password: string, confirmation: string)
    requires !IsSignUp(mode) || password == confirmation
    ensures |password| >= MinPasswordLength ==> Validate(mode, password, confirmation) == None
    ensures 2 * |password| < MinPasswordLength ==> Validate(mode, password, confirmation) == Some(TooShortError)
    ensures (forall i :: 0 <= i < |password| ==> password[i] as int <= 0xFFFF) ==>
      (Validate(mode, password, confirmation) == None <==> |password| >= MinPasswordLength)
  {
    if forall i :: 0 <= i < |password| ==> password[i] as int <= 0xFFFF {
      Utf16LengthOfBmp(password);
    }
  }

  /** The request the form makes of the authentication service. */
  datatype AuthCall = SignUpCall(email: string, password: string) | SignInCall(email: string, password: string)

  /** What the service call does: resolve, or throw an error with an optional message. */
  datatype AuthOutcome = Resolved | Rejected(message: Option<string>)

  function SuccessText(mode: string): string {
    if IsSignUp(mode) then SignUpSuccess else SignInSuccess
  }

  class Form {
    var error: string
    var success: string
    var loading: bool

    constructor ()
      ensures error == "" && success == "" && !loading
    {
      error, success, loading := "", "", false;
    }

    /**
     * `handleSubmit`. Both messages are cleared first. A failed check sets
     * its error and makes no call. Otherwise the mode's call is made; it
     * ends with the mode's success text or the thrown message (or a
     * fallback), and loading false.
     */
    method HandleSubmit(mode: string, email: string, password: string, confirmation: string, outcome: AuthOutcome)
      returns (call: Option<AuthCall>)
      modifies this
      ensures Validate(mode, password, confirmation).Some? ==>
        call == None && error == Validate(mode, password, confirmation).value
        && success == "" && loading == old(loading)
      ensures Validate(mode, password, confirmation).None? ==>
        call == Some(if IsSignUp(mode) then SignUpCall(email, password) else SignInCall(email, password))
        && !loading
      ensures Validate(mode, password, confirmation).None? && outcome.Resolved? ==>
        success == SuccessText(mode) && error == ""
      ensures Validate(mode, password, confirmation).None? && outcome.Rejected? ==>
        error == OrElse(outcome.message, FallbackError) && success == ""
    {
      error := "";
      success := "";
      if IsSignUp(mode) && password != confirmation {
        error := MismatchError;
        return None;
      }
      if Utf16Length(password) < MinPasswordLength {
        error := TooShortError;
        return None;
      }
      loading := true;
      if IsSignUp(mode) {
        call := Some(SignUpCall(email, password));
      } else {
        call := Some(SignInCall(email, password));
      }
      if outcome.Resolved? {
        success := SuccessText(mode);
      } else {
        error := OrElse(outcome.message, FallbackError);
      }
      loading := false;
    }
  }

  /** Whatever happens, a submit that makes no call leaves an error to show, and a failed call does too. */
  lemma RefusalsAreExplained(mode: string, password: string, confirmation: string, message: Option<string>)
    ensures Validate(mode, password, confirmation).Some? ==> Validate(mode, password, confirmation).value != ""
    ensures OrElse(message, FallbackError) != ""
  {
  }
}
