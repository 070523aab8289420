/**
 * The worker's "Change Password" screen: three guarded checks, then a password-only
 * update of the worker's row in `careworkers`.
 */
module ChangePassword {
  import opened Wrappers
  import opened Records
  import opened Toasts
  import opened Sessions

  datatype PasswordForm = PasswordForm(currentPassword: string, newPassword: string, confirmPassword: string)

  const SettingsRoute: string := "/care-worker-dashboard/settings"

  /**
   * The verification query `.eq("careworkerid", id).eq("password", current).single()`:
   * it yields a row only when exactly one row matches both, and not when the request fails.
   */
  predicate CurrentPasswordVerified(rows: seq<Record>, workerId: string, current: string, requestFails: bool) {
    !requestFails && CountWhere2(rows, "careworkerid", Text(workerId), "password", Text(current)) == 1
  }

  /** The update sent: the password column and nothing else. */
  function PasswordPatch(newPassword: string): (patch: Record)
    ensures patch.Keys == {"password"}
    ensures patch["password"] == Text(newPassword)
  {
    map["password" := Text(newPassword)]
  }

  class ChangePasswordPage {
    var form: PasswordForm

    constructor ()
      ensures form == PasswordForm("", "", "")
    {
      form := PasswordForm("", "", "");
    }

    method Edit(f: PasswordForm)
      modifies this
      ensures form == f
    {
      form := f;
    }

    /**
     * `handleSubmit`.  The checks run in order (session, confirmation, current
     * password) and each failure stops before any write; only a successful update
     * navigates back to the settings page.
     */
    method HandleSubmit(workers: RecordTable, session: Option<WorkerSession>, verifyFails: bool, updateFails: bool)
      returns (toast: Toast, navigateTo: Option<string>)
      modifies workers
      ensures !HasWorkerId(session) ==>
        workers.rows == old(workers.rows) && navigateTo == None && toast == ErrorToast("Session not found")
      ensures HasWorkerId(session) && form.newPassword != form.confirmPassword ==>
        workers.rows == old(workers.rows) && navigateTo == None && toast == ErrorToast("New passwords do not match")
      ensures HasWorkerId(session) && form.newPassword == form.confirmPassword
              && !CurrentPasswordVerified(old(workers.rows), session.value.workerId, form.currentPassword, verifyFails) ==>
        workers.rows == old(workers.rows) && navigateTo == None && toast == ErrorToast("Current password is incorrect")
      ensures HasWorkerId(session) && form.newPassword == form.confirmPassword
              && CurrentPasswordVerified(old(workers.rows), session.value.workerId, form.currentPassword, verifyFails)
              && updateFails ==>
        workers.rows == old(workers.rows) && navigateTo == None
        && toast == ErrorToast("Failed to update password. Please try again.")
      ensures HasWorkerId(session) && form.newPassword == form.confirmPassword
              && CurrentPasswordVerified(old(workers.rows), session.value.workerId, form.currentPassword, verifyFails)
              && !updateFails ==>
        workers.rows == UpdateWhere(old(workers.rows), "careworkerid", Text(session.value.workerId), PasswordPatch(form.newPassword))
        && navigateTo == Some(SettingsRoute) && toast == SuccessToast("Password updated successfully")
    {
      navigateTo := None;
      if !HasWorkerId(session) {
        toast := ErrorToast("Session not found");
        return;
      }
      if form.newPassword != form.confirmPassword {
        toast := ErrorToast("New passwords do not match");
        return;
      }
      var workerId := session.value.workerId;
      if !CurrentPasswordVerified(workers.rows, workerId, form.currentPassword, verifyFails) {
        toast := ErrorToast("Current password is incorrect");
        return;
      }
      var ok := workers.Update("careworkerid", Text(workerId), PasswordPatch(form.newPassword), updateFails);
      if !ok {
        toast := ErrorToast("Failed to update password. Please try again.");
        return;
      }
      toast := SuccessToast("Password updated successfully");
      navigateTo := Some(SettingsRoute);
    }
  }

  /**
   * A successful change rewrites only the password of the worker's rows: every other
   * column of those rows and every other row stays as it was, and the new password is
   * what the next verification query will find.
   */
  lemma OnlyPasswordChanges(rows: seq<Record>, workerId: string, newPassword: string, i: int, column: string)
    requires 0 <= i < |rows|
    ensures var updated := UpdateWhere(rows, "careworkerid", Text(workerId), PasswordPatch(newPassword));
      (Get(rows[i], "careworkerid") != Text(workerId) ==> updated[i] == rows[i])
      && (Get(rows[i], "careworkerid") == Text(workerId) && column != "password" ==> Get(updated[i], column) == Get(rows[i], column))
      && (Get(rows[i], "careworkerid") == Text(workerId) ==> Get(updated[i], "password") == Text(newPassword))
  {
  }

  /** After a successful change, at least one row matches the worker's id and the new password. */
  lemma {:induction false} NewPasswordVerifies(rows: seq<Record>, workerId: string, current: string, newPassword: string)
    requires CountWhere2(rows, "careworkerid", Text(workerId), "password", Text(current)) == 1
    ensures CountWhere2(UpdateWhere(rows, "careworkerid", Text(workerId), PasswordPatch(newPassword)),
                        "careworkerid", Text(workerId), "password", Text(newPassword)) >= 1
  {
    var updated := UpdateWhere(rows, "careworkerid", Text(workerId), PasswordPatch(newPassword));
    var i :| 0 <= i < |rows| && Get(rows[i], "careworkerid") == Text(workerId) && Get(rows[i], "password") == Text(current);
    assert Get(updated[i], "careworkerid") == Text(workerId);
    assert Get(updated[i], "password") == Text(newPassword);
  }

  /**
   * When the worker's id is held by one row only, the `.single()` verification with the
   * new password succeeds after a successful change, so the next change can start from it.
   */
  lemma NewPasswordVerifiesOnce(rows: seq<Record>, workerId: string, current: string, newPassword: string)
    requires KeyUnique(rows, "careworkerid", Text(workerId))
    requires CurrentPasswordVerified(rows, workerId, current, false)
    ensures CurrentPasswordVerified(
      UpdateWhere(rows, "careworkerid", Text(workerId), PasswordPatch(newPassword)), workerId, newPassword, false)
  {
    var updated := UpdateWhere(rows, "careworkerid", Text(workerId), PasswordPatch(newPassword));
    NewPasswordVerifies(rows, workerId, current, newPassword);
    assert forall i :: 0 <= i < |rows| ==> Get(updated[i], "careworkerid") == Get(rows[i], "careworkerid");
    CountWhere2Unique(updated, "careworkerid", Text(workerId), "password", Text(newPassword));
  }

  /**
   * Two rows with the same id and password: both take the new password, so the
   * `.single()` verification sees two rows and the next change is refused.
   */
  lemma DuplicateIdFailsVerification(newPassword: string)
    ensures var rows := [map["careworkerid" := Text("W1"), "password" := Text("a")],
                         map["careworkerid" := Text("W1"), "password" := Text("a")]];
      !CurrentPasswordVerified(rows, "W1", "a", false)
      && !CurrentPasswordVerified(
        UpdateWhere(rows, "careworkerid", Text("W1"), PasswordPatch(newPassword)), "W1", newPassword, false)
  {
    var rows := [map["careworkerid" := Text("W1"), "password" := Text("a")],
                 map["careworkerid" := Text("W1"), "password" := Text("a")]];
    var updated := UpdateWhere(rows, "careworkerid", Text("W1"), PasswordPatch(newPassword));
    assert Get(rows[0], "careworkerid") == Text("W1") && Get(rows[1], "careworkerid") == Text("W1");
    assert Get(updated[0], "password") == Text(newPassword) && Get(updated[1], "password") == Text(newPassword);
    assert updated[1..][1..] == [] && rows[1..][1..] == [];
  }
}
