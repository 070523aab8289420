/**
 * The worker's "Settings" screen: the profile form, its save (with an optional
 * password change) against the `careworkers` table, and the notification and
 * security switches.
 */
module WorkerSettings {
  import opened Wrappers
  import opened Records
  import opened Toasts
  import opened Sessions
  import opened SettingsToggle

  const DefaultNotificationSettings: seq<Setting> := [
    Setting("shift-alerts", "Shift Alerts", "Get notified about new available shifts", true),
    Setting("timesheet-reminders", "Timesheet Reminders", "Receive reminders to submit timesheets", true),
    Setting("payslip-notifications", "Payslip Notifications", "Get notified when new payslips are available", true)]

  const DefaultSecuritySettings: seq<Setting> := [
    Setting("2fa", "Two-Factor Authentication", "Add an extra layer of security to your account", false),
    Setting("login-alerts", "Login Alerts", "Get notified of new login attempts", true)]

  /** All three notifications start on; two-factor starts off and login alerts on. */
  lemma DefaultSettings()
    ensures forall i :: 0 <= i < |DefaultNotificationSettings| ==> DefaultNotificationSettings[i].enabled
    ensures IsEnabled(DefaultNotificationSettings, "shift-alerts")
    ensures IsEnabled(DefaultNotificationSettings, "timesheet-reminders")
    ensures IsEnabled(DefaultNotificationSettings, "payslip-notifications")
    ensures !IsEnabled(DefaultSecuritySettings, "2fa") && IsEnabled(DefaultSecuritySettings, "login-alerts")
  {
  }

  /**
   * The profile form.  `newPassword` and `confirmPassword` are read by the save but
   * start out absent (`undefined`).
   */
  datatype Profile = Profile(
    firstName: string,
    lastName: string,
    email: string,
    phone: string,
    address: string,
    role: string,
    experience: string,
    availability: string,
    newPassword: Option<string>,
    confirmPassword: Option<string>)

  const InitialProfile: Profile := Profile("", "", "", "", "", "", "", "", None, None)

  /** `profile.newPassword` is truthy. */
  predicate PasswordChangeRequested(p: Profile) {
    p.newPassword.Some? && p.newPassword.value != ""
  }

  /** A requested new password that the confirmation does not repeat. */
  predicate PasswordsMismatch(p: Profile) {
    PasswordChangeRequested(p) && p.confirmPassword != p.newPassword
  }

  /** The five profile columns always sent. */
  function ProfileColumns(p: Profile): (columns: Record)
    ensures columns.Keys == {"first_name", "last_name", "email", "phone", "address"}
    ensures "password" !in columns && Get(columns, "email") == Text(p.email)
  {
    map["first_name" := Text(p.firstName), "last_name" := Text(p.lastName), "email" := Text(p.email),
        "phone" := Text(p.phone), "address" := Text(p.address)]
  }

  /**
   * What a save sends: the five profile columns, plus `password` exactly when a new
   * password was typed (the mismatch case never reaches the update).
   */
  function SavePayload(p: Profile): (payload: Record)
    ensures ProfileColumns(p).Keys <= payload.Keys
    ensures forall k :: k in ProfileColumns(p) ==> payload[k] == ProfileColumns(p)[k]
    ensures "password" in payload <==> PasswordChangeRequested(p)
    ensures PasswordChangeRequested(p) ==> payload["password"] == Text(p.newPassword.value)
    ensures payload.Keys == ProfileColumns(p).Keys + (if PasswordChangeRequested(p) then {"password"} else {})
  {
    if PasswordChangeRequested(p) then ProfileColumns(p)["password" := Text(p.newPassword.value)]
    else ProfileColumns(p)
  }

  /** The success message depends only on whether a password was sent. */
  function SaveMessage(p: Profile): (message: string)
    ensures message == "Profile and password updated successfully" <==> "password" in SavePayload(p)
  {
    if PasswordChangeRequested(p) then "Profile and password updated successfully" else "Profile updated successfully"
  }

  class WorkerSettingsPage {
    var profile: Profile
    var notificationSettings: seq<Setting>
    var securitySettings: seq<Setting>

    constructor ()
      ensures profile == InitialProfile
      ensures notificationSettings == DefaultNotificationSettings && securitySettings == DefaultSecuritySettings
    {
      profile := InitialProfile;
      notificationSettings := DefaultNotificationSettings;
      securitySettings := DefaultSecuritySettings;
    }

    method EditProfile(p: Profile)
      modifies this`profile
      ensures profile == p
    {
      profile := p;
    }

    method ToggleNotification(id: string)
      modifies this`notificationSettings
      ensures notificationSettings == ToggleSetting(old(notificationSettings), id)
    {
      notificationSettings := ToggleSetting(notificationSettings, id);
    }

    method ToggleSecurity(id: string)
      modifies this`securitySettings
      ensures securitySettings == ToggleSetting(old(securitySettings), id)
    {
      securitySettings := ToggleSetting(securitySettings, id);
    }

    /**
     * `handleSaveChanges`.  Checks run in this order: a signed-in worker, then the
     * password confirmation; only then is the worker's row updated.  On success a
     * typed password is cleared from the form.
     */
    method HandleSaveChanges(workers: RecordTable, session: Option<WorkerSession>, fails: bool) returns (toast: Toast)
      modifies this`profile, workers
      ensures !HasWorkerId(session) ==>
        workers.rows == old(workers.rows) && profile == old(profile) && toast == ErrorToast("Session not found")
      ensures HasWorkerId(session) && PasswordsMismatch(old(profile)) ==>
        workers.rows == old(workers.rows) && profile == old(profile) && toast == ErrorToast("Passwords do not match")
      ensures HasWorkerId(session) && !PasswordsMismatch(old(profile)) && fails ==>
        workers.rows == old(workers.rows) && profile == old(profile)
        && toast == ErrorToast("Failed to update profile. Please try again.")
      ensures HasWorkerId(session) && !PasswordsMismatch(old(profile)) && !fails ==>
        workers.rows == UpdateWhere(old(workers.rows), "careworkerid", Text(session.value.workerId), SavePayload(old(profile)))
        && toast == SuccessToast(SaveMessage(old(profile)))
        && profile == (if PasswordChangeRequested(old(profile))
                       then old(profile).(newPassword := Some(""), confirmPassword := Some(""))
                       else old(profile))
    {
      if !HasWorkerId(session) {
        toast := ErrorToast("Session not found");
        return;
      }
      var updateData := ProfileColumns(profile);
      if profile.newPassword.Some? && profile.newPassword.value != "" {
        if profile.newPassword != profile.confirmPassword {
          toast := ErrorToast("Passwords do not match");
          return;
        }
        updateData := updateData["password" := Text(profile.newPassword.value)];
      }
      var ok := workers.Update("careworkerid", Text(session.value.workerId), updateData, fails);
      if !ok {
        toast := ErrorToast("Failed to update profile. Please try again.");
        return;
      }
      if profile.newPassword.Some? && profile.newPassword.value != "" {
        toast := SuccessToast("Profile and password updated successfully");
        profile := profile.(newPassword := Some(""), confirmPassword := Some(""));
      } else {
        toast := SuccessToast("Profile updated successfully");
      }
    }
  }

  /** A successful save leaves every other worker's row untouched, and the saved row carries the form's values. */
  lemma SaveTouchesOnlyThisWorker(rows: seq<Record>, workerId: string, p: Profile, i: int)
    requires 0 <= i < |rows|
    ensures Get(rows[i], "careworkerid") != Text(workerId) ==>
      UpdateWhere(rows, "careworkerid", Text(workerId), SavePayload(p))[i] == rows[i]
    ensures Get(rows[i], "careworkerid") == Text(workerId) ==>
      Get(UpdateWhere(rows, "careworkerid", Text(workerId), SavePayload(p))[i], "email") == Text(p.email)
  {
    assert "email" in ProfileColumns(p);
  }
}
