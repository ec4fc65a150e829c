/** The password change page (`PasswordChange`): the same four password
    rules as sign-up, the checklist under the input, the confirmation
    notice, the submit guards and the state of the save button. The backend
    update is outside the model: its error text is a parameter. */
module PasswordChange {
  import opened Common
  import opened Text
  import opened Auth

  /** What `handleSubmit` does: refuse an invalid new password, then refuse
      a confirmation that differs, then ask the backend for the update. */
  datatype SubmitOutcome = Invalid | Mismatch | Update(password: string)

  function SubmitStep(newPassword: string, confirmPassword: string): (r: SubmitOutcome)
    ensures r == Invalid <==> PasswordErrors(newPassword) != []
    ensures r == Mismatch <==> PasswordErrors(newPassword) == [] && newPassword != confirmPassword
    ensures r.Update? ==> r.password == newPassword == confirmPassword
  {
    if PasswordErrors(newPassword) != [] then Invalid
    else if newPassword != confirmPassword then Mismatch
    else Update(newPassword)
  }

  /** The backend is asked to store only a password meeting every rule and
      typed the same way twice. */
  lemma UpdateOnlyWhenValid(newPassword: string, confirmPassword: string)
    ensures SubmitStep(newPassword, confirmPassword).Update? <==>
      (forall r :: Meets(newPassword, r)) && newPassword == confirmPassword
  {
  }

  /** The save button is disabled while the update is in flight, while the
      new password breaks a rule, and while the two entries differ. */
  predicate SaveDisabled(loading: bool, newPassword: string, confirmPassword: string)
  {
    loading || PasswordErrors(newPassword) != [] || newPassword != confirmPassword
  }

  /** When nothing is loading, the button is enabled exactly when a click
      would reach the backend; while loading it is always disabled. */
  lemma EnabledExactlyWhenSubmitProceeds(loading: bool, newPassword: string, confirmPassword: string)
    ensures !SaveDisabled(loading, newPassword, confirmPassword) <==>
      !loading && SubmitStep(newPassword, confirmPassword).Update?
  {
  }

  /** The notice under the confirmation: none while it is empty, otherwise
      whether the two entries match. */
  function MatchNotice(newPassword: string, confirmPassword: string): (r: Option<bool>)
    ensures r == None <==> confirmPassword == ""
    ensures r.Some? ==> (r.value <==> newPassword == confirmPassword)
  {
    if confirmPassword == "" then None else Some(newPassword == confirmPassword)
  }

  /** The checklist under the new password: each requirement in rule order,
      with whether it is met. */
  function Checklist(newPassword: string): (r: seq<(string, bool)>)
    ensures |r| == 4
    ensures forall i :: 0 <= i < 4 ==> r[i] == (Message(RuleAt(i)), Meets(newPassword, RuleAt(i)))
  {
    seq(4, i requires 0 <= i < 4 => (Message(RuleAt(i)), Meets(newPassword, RuleAt(i))))
  }

  function RuleAt(i: int): Rule
    requires 0 <= i < 4
  {
    if i == 0 then MinLength else if i == 1 then Uppercase else if i == 2 then Lowercase else Digit
  }

  /** A requirement is ticked exactly when its message is not among the
      password's errors. */
  lemma ChecklistAgreesWithErrors(newPassword: string, i: int)
    requires 0 <= i < 4
    ensures Checklist(newPassword)[i].1 <==> Checklist(newPassword)[i].0 !in PasswordErrors(newPassword)
  {
    ErrorReported(newPassword, RuleAt(i));
  }

  /** The message shown when the backend refuses the update. */
  function UpdateErrorMessage(backendMessage: string): (r: string)
    ensures Contains(backendMessage, "same_password") ==> r == "رمز عبور جدید نمی‌تواند با رمز قبلی یکسان باشد"
    ensures !Contains(backendMessage, "same_password") ==> r == "خطا در تغییر رمز عبور: " + backendMessage
  {
    if Contains(backendMessage, "same_password") then "رمز عبور جدید نمی‌تواند با رمز قبلی یکسان باشد"
    else "خطا در تغییر رمز عبور: " + backendMessage
  }
}
