/**
 * app/perfil/password.tsx: the change-password form. Submitting rebuilds the whole error map from
 * the three fields and calls the backend only when that map is empty; a rejection mentioning the
 * current password is shown on that field, any other one as an alert.
 */
module ChangePassword {
  import opened JsText

  datatype Field = CurrentPassword | NewPassword | ConfirmPassword

  const RequiredMessage := "Este campo es obligatorio"
  const MismatchMessage := "Las contraseñas no coinciden"
  const WrongCurrentMessage := "Contraseña actual incorrecta"
  const CurrentPasswordHint := "contraseña actual"
  const DefaultFailureMessage := "No se pudo actualizar la contraseña"

  /** How updateUserPassword settles: resolved, or rejected with `error.message || ""`. */
  datatype UpdateOutcome = Updated | Rejected(message: string)

  /** The alerts the form shows. */
  datatype Notice = SuccessAlert | ErrorAlert(message: string)

  /**
   * The error map a submit builds: a required-field error for each empty field, and a mismatch
   * error on the confirmation when both new fields are filled in and differ.
   */
  ghost predicate DescribesErrors(e: map<Field, string>, current: string, next: string, confirm: string) {
    && (CurrentPassword in e <==> current == "")
    && (NewPassword in e <==> next == "")
    && (ConfirmPassword in e <==> confirm == "" || (next != "" && next != confirm))
    && (CurrentPassword in e ==> e[CurrentPassword] == RequiredMessage)
    && (NewPassword in e ==> e[NewPassword] == RequiredMessage)
    && (ConfirmPassword in e ==> e[ConfirmPassword] == if confirm == "" then RequiredMessage else MismatchMessage)
  }

  /** The description fixes the map: a submit's errors depend on the three fields alone. */
  lemma DescribesErrorsUnique(e1: map<Field, string>, e2: map<Field, string>, current: string, next: string, confirm: string)
    requires DescribesErrors(e1, current, next, confirm) && DescribesErrors(e2, current, next, confirm)
    ensures e1 == e2
  {
    forall f: Field
      ensures f in e1 <==> f in e2
      ensures f in e1 ==> e1[f] == e2[f]
    {
      match f
      case CurrentPassword =>
      case NewPassword =>
      case ConfirmPassword =>
    }
    assert e1.Keys == e2.Keys;
  }

  /** The `newErrors` object of handleChangePassword, filled key by key. */
  method BuildErrors(current: string, next: string, confirm: string) returns (e: map<Field, string>)
    ensures DescribesErrors(e, current, next, confirm)
    ensures e == map[] <==> current != "" && next != "" && next == confirm
  {
    e := map[];
    if current == "" {
      e := e[CurrentPassword := RequiredMessage];
    }
    if next == "" {
      e := e[NewPassword := RequiredMessage];
    }
    if confirm == "" {
      e := e[ConfirmPassword := RequiredMessage];
    }
    if next != "" && confirm != "" && next != confirm {
      e := e[ConfirmPassword := MismatchMessage];
    }
    if e != map[] {
      assert CurrentPassword in e || NewPassword in e || ConfirmPassword in e;
    }
  }

  class ChangePasswordForm {
    var currentPassword: string
    var newPassword: string
    var confirmPassword: string
    var errors: map<Field, string>
    /** The `updateUserPassword(current, next)` calls made so far. */
    var updateCalls: seq<(string, string)>
    /** The alerts shown so far. */
    var notices: seq<Notice>

    constructor ()
      ensures currentPassword == "" && newPassword == "" && confirmPassword == ""
      ensures errors == map[] && updateCalls == [] && notices == []
    {
      currentPassword, newPassword, confirmPassword := "", "", "";
      errors, updateCalls, notices := map[], [], [];
    }

    /** Typing in the current-password field blanks that field's error and no other. */
    method EditCurrentPassword(text: string)
      modifies this
      ensures currentPassword == text && errors == old(errors)[CurrentPassword := ""]
      ensures forall f :: f != CurrentPassword && f in old(errors) ==> f in errors && errors[f] == old(errors)[f]
      ensures newPassword == old(newPassword) && confirmPassword == old(confirmPassword)
      ensures updateCalls == old(updateCalls) && notices == old(notices)
    {
      currentPassword := text;
      errors := errors[CurrentPassword := ""];
    }

    /** Typing in the new-password field leaves the errors alone. */
    method EditNewPassword(text: string)
      modifies this
      ensures newPassword == text && errors == old(errors)
      ensures currentPassword == old(currentPassword) && confirmPassword == old(confirmPassword)
      ensures updateCalls == old(updateCalls) && notices == old(notices)
    {
      newPassword := text;
    }

    /** Typing in the confirmation field leaves the errors alone. */
    method EditConfirmPassword(text: string)
      modifies this
      ensures confirmPassword == text && errors == old(errors)
      ensures currentPassword == old(currentPassword) && newPassword == old(newPassword)
      ensures updateCalls == old(updateCalls) && notices == old(notices)
    {
      confirmPassword := text;
    }

    /**
     * handleChangePassword: `outcome` is how updateUserPassword settles if it is called. No length
     * or strength rule is applied: the backend is called iff the fields are filled in and the
     * two new ones agree.
     */
    method HandleChangePassword(outcome: UpdateOutcome) returns (called: bool)
      modifies this
      ensures called <==> old(currentPassword) != "" && old(newPassword) != "" && old(newPassword) == old(confirmPassword)
      ensures currentPassword == old(currentPassword) && newPassword == old(newPassword) && confirmPassword == old(confirmPassword)
      ensures !called ==> DescribesErrors(errors, currentPassword, newPassword, confirmPassword)
      ensures !called ==> updateCalls == old(updateCalls) && notices == old(notices)
      ensures called ==> updateCalls == old(updateCalls) + [(currentPassword, newPassword)]
      ensures called && outcome.Updated? ==> errors == map[] && notices == old(notices) + [SuccessAlert]
      ensures called && outcome.Rejected? && Includes(outcome.message, CurrentPasswordHint) ==>
        errors == map[CurrentPassword := WrongCurrentMessage] && notices == old(notices)
      ensures called && outcome.Rejected? && !Includes(outcome.message, CurrentPasswordHint) ==>
        errors == map[] && notices == old(notices) + [ErrorAlert(if Truthy(outcome.message) then outcome.message else DefaultFailureMessage)]
    {
      var newErrors := BuildErrors(currentPassword, newPassword, confirmPassword);
      errors := newErrors;
      if newErrors != map[] {
        return false;
      }
      called := true;
      updateCalls := updateCalls + [(currentPassword, newPassword)];
      match outcome
      case Updated =>
        notices := notices + [SuccessAlert];
      case Rejected(msg) =>
        if Includes(msg, CurrentPasswordHint) {
          errors := map[CurrentPassword := WrongCurrentMessage];
        } else {
          notices := notices + [ErrorAlert(if Truthy(msg) then msg else DefaultFailureMessage)];
        }
    }
  }
}
