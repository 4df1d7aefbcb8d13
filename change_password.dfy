/**
 The change-password page (change-password.js): five requirement indicators
 that mirror the policy on every keystroke, and the submit handler that runs
 the validation gate, disables the button while the identity provider updates
 the password, re-enables it on failure and, on success, redirects by role.
 */
module ChangePassword {
  import opened Wrappers
  import opened JsStrings
  import opened PasswordPolicy
  import opened AdminRoutes

  const ValidClass := "valid"
  const InvalidClass := "invalid"

  const ChangeLabel := "Change Password"
  const ChangingLabel := "Changing Password..."
  const GenericErrorMessage := "An error occurred. Please try again."
  const SuccessMessage := "Password changed successfully! Redirecting..."
  const AdminRole := "admin"

  /** A requirement indicator element; its `classList` as a set of class names. */
  class Indicator {
    var classList: set<string>

    constructor (classes: set<string>)
      ensures classList == classes
    {
      classList := classes;
    }

    /** The element carries exactly one of `valid`/`invalid`, namely `valid` when `met`. */
    predicate Shows(met: bool)
      reads this
    {
      (ValidClass in classList <==> met) && (InvalidClass in classList <==> !met)
    }

    /** Removes the opposite class, then adds the matching one; every other
        class is left as it was. */
    method Reflect(met: bool)
      modifies this
      ensures Shows(met)
      ensures classList - {ValidClass, InvalidClass} == old(classList) - {ValidClass, InvalidClass}
    {
      if met {
        classList := classList - {InvalidClass};
        classList := classList + {ValidClass};
      } else {
        classList := classList - {ValidClass};
        classList := classList + {InvalidClass};
      }
    }
  }

  /** What the provider calls that follow a successful validation came to. */
  datatype UpdateOutcome =
    | Updated                        // updateUser succeeded; the flag write returned, with or without an error
    | UpdateFailed(message: string)  // updateUser returned an error carrying `message`
    | Threw                          // updateUser or the flag write raised

  /** Where the page sends the user after a successful change: the admin
      window exactly when the looked-up role is `admin`, the dashboard for any
      other role or a missing row. */
  function RedirectLocation(role: Option<string>, ctx: Context): (url: string)
    ensures role == Some(AdminRole) ==> url == ResolveAdminLocation(ctx)
    ensures role != Some(AdminRole) ==> url == ResolveUserDashboardLocation(ctx)
  {
    if role.Some? && role.value == AdminRole then ResolveAdminLocation(ctx)
    else ResolveUserDashboardLocation(ctx)
  }

  /** The form's elements and the state the handlers change. */
  class ChangePasswordForm {
    const reqLength: Indicator
    const reqUppercase: Indicator
    const reqLowercase: Indicator
    const reqNumber: Indicator
    const reqSpecial: Indicator

    var errorMessage: string
    var successMessage: string
    var submitDisabled: bool
    var submitLabel: string
    /** The last value assigned to `window.location.href`, if any. */
    var navigation: Option<string>

    /** The five indicators are distinct elements. */
    ghost predicate Valid()
      reads this
    {
      reqLength != reqUppercase && reqLength != reqLowercase && reqLength != reqNumber && reqLength != reqSpecial
      && reqUppercase != reqLowercase && reqUppercase != reqNumber && reqUppercase != reqSpecial
      && reqLowercase != reqNumber && reqLowercase != reqSpecial
      && reqNumber != reqSpecial
    }

    /** The indicators show the five requirements evaluated on `password`. */
    predicate IndicatorsShow(password: string)
      reads this, reqLength, reqUppercase, reqLowercase, reqNumber, reqSpecial
    {
      var p := Evaluate(password);
      reqLength.Shows(p.length) && reqUppercase.Shows(p.uppercase) && reqLowercase.Shows(p.lowercase)
      && reqNumber.Shows(p.number) && reqSpecial.Shows(p.special)
    }

    constructor ()
      ensures Valid() && fresh(reqLength) && fresh(reqUppercase) && fresh(reqLowercase) && fresh(reqNumber) && fresh(reqSpecial)
      ensures errorMessage == "" && successMessage == ""
      ensures !submitDisabled && submitLabel == ChangeLabel && navigation == None
    {
      reqLength := new Indicator({});
      reqUppercase := new Indicator({});
      reqLowercase := new Indicator({});
      reqNumber := new Indicator({});
      reqSpecial := new Indicator({});
      errorMessage, successMessage := "", "";
      submitDisabled, submitLabel := false, ChangeLabel;
      navigation := None;
    }

    /** The `input` handler: mirrors the five requirements, evaluated on the
        raw (untrimmed) value, into the indicators, one after the other. */
    method OnInput(password: string)
      requires Valid()
      modifies reqLength, reqUppercase, reqLowercase, reqNumber, reqSpecial
      ensures IndicatorsShow(password)
      ensures reqLength.classList - {ValidClass, InvalidClass} == old(reqLength.classList) - {ValidClass, InvalidClass}
      ensures reqUppercase.classList - {ValidClass, InvalidClass} == old(reqUppercase.classList) - {ValidClass, InvalidClass}
      ensures reqLowercase.classList - {ValidClass, InvalidClass} == old(reqLowercase.classList) - {ValidClass, InvalidClass}
      ensures reqNumber.classList - {ValidClass, InvalidClass} == old(reqNumber.classList) - {ValidClass, InvalidClass}
      ensures reqSpecial.classList - {ValidClass, InvalidClass} == old(reqSpecial.classList) - {ValidClass, InvalidClass}
    {
      reqLength.Reflect(Utf16Length(password) >= MinLength);
      reqUppercase.Reflect(Test(Uppercase, password));
      reqLowercase.Reflect(Test(Lowercase, password));
      reqNumber.Reflect(Test(Digit, password));
      reqSpecial.Reflect(Test(Special, password));
    }

    /** The `submit` handler up to the provider call: clears both messages,
        runs the validation gate on the trimmed values and, when it passes,
        disables the button and returns the trimmed password to send. When it
        fails, the first failing check's message is shown, nothing is sent
        and the button is left alone. */
    method BeginSubmit(newValue: string, confirmValue: string) returns (request: Option<string>)
      modifies this
      ensures successMessage == "" && navigation == old(navigation)
      ensures match Validate(Trim(newValue), Trim(confirmValue))
        case Some(failed) =>
          request == None && errorMessage == Message(failed)
          && submitDisabled == old(submitDisabled) && submitLabel == old(submitLabel)
        case None =>
          request == Some(Trim(newValue)) && errorMessage == ""
          && submitDisabled && submitLabel == ChangingLabel
    {
      errorMessage := "";
      successMessage := "";
      var newPass := Trim(newValue);
      var confirmPass := Trim(confirmValue);
      var failed := Validate(newPass, confirmPass);
      if failed.Some? {
        errorMessage := Message(failed.value);
        return None;
      }
      submitDisabled := true;
      submitLabel := ChangingLabel;
      request := Some(newPass);
    }

    /** The rest of the `submit` handler, once the provider has answered: an
        update error shows the provider's message and re-enables the button;
        an exception shows the generic message and re-enables it; success
        shows the success message, keeps the button disabled and navigates to
        the window chosen by role. */
    method FinishSubmit(outcome: UpdateOutcome, role: Option<string>, ctx: Context)
      modifies this
      ensures match outcome
        case UpdateFailed(message) =>
          errorMessage == message && successMessage == old(successMessage)
          && !submitDisabled && submitLabel == ChangeLabel && navigation == old(navigation)
        case Threw =>
          errorMessage == GenericErrorMessage && successMessage == old(successMessage)
          && !submitDisabled && submitLabel == ChangeLabel && navigation == old(navigation)
        case Updated =>
          errorMessage == old(errorMessage) && successMessage == SuccessMessage
          && submitDisabled == old(submitDisabled) && submitLabel == old(submitLabel)
          && navigation == Some(RedirectLocation(role, ctx))
    {
      match outcome
      case UpdateFailed(message) =>
        errorMessage := message;
        submitDisabled := false;
        submitLabel := ChangeLabel;
      case Threw =>
        errorMessage := GenericErrorMessage;
        submitDisabled := false;
        submitLabel := ChangeLabel;
      case Updated =>
        successMessage := SuccessMessage;
        navigation := Some(RedirectLocation(role, ctx));
    }
  }

  /** A whole submission: after BeginSubmit, the provider is contacted only
      with a request; then FinishSubmit settles the button. A refused
      submission leaves the button as it was and shows the first failing
      check's message; a failed update always leaves it enabled and labelled
      `Change Password`, shows the provider's or the generic message and does
      not navigate; a successful one leaves it disabled. The request sent is
      the trimmed new password. */
  method Submit(form: ChangePasswordForm, newValue: string, confirmValue: string,
                outcome: UpdateOutcome, role: Option<string>, ctx: Context)
    returns (sent: Option<string>)
    modifies form
    ensures sent.Some? <==> SubmitError(newValue, confirmValue) == None
    ensures sent.None? ==> form.submitDisabled == old(form.submitDisabled) && form.navigation == old(form.navigation)
    ensures sent.None? ==>
      form.submitLabel == old(form.submitLabel)
      && Some(form.errorMessage) == SubmitError(newValue, confirmValue) && form.successMessage == ""
    ensures sent.Some? ==> sent.value == Trim(newValue)
    ensures sent.Some? && !outcome.Updated? ==>
      !form.submitDisabled && form.submitLabel == ChangeLabel && form.navigation == old(form.navigation)
    ensures sent.Some? && outcome.UpdateFailed? ==> form.errorMessage == outcome.message && form.successMessage == ""
    ensures sent.Some? && outcome.Threw? ==> form.errorMessage == GenericErrorMessage && form.successMessage == ""
    ensures sent.Some? && outcome.Updated? ==>
      form.submitDisabled && form.submitLabel == ChangingLabel && form.errorMessage == ""
      && form.successMessage == SuccessMessage && form.navigation == Some(RedirectLocation(role, ctx))
  {
    sent := form.BeginSubmit(newValue, confirmValue);
    if sent.Some? {
      form.FinishSubmit(outcome, role, ctx);
    }
  }
}
