/**
 * The care home's "Settings" screen: the care-home details form, filled from the
 * registration record of the signed-in manager, and the notification and security
 * switches.
 */
module CareHomeSettings {
  import opened Wrappers
  import opened SettingsToggle

  const DefaultNotificationSettings: seq<Setting> := [
    Setting("new-shifts", "New Shift Alerts", "Get notified when new shifts are posted", true),
    Setting("shift-updates", "Shift Updates", "Receive updates about shift changes or cancellations", true),
    Setting("worker-reports", "Worker Reports", "Get notified about new worker reports or incidents", true),
    Setting("timesheet-approvals", "Timesheet Approvals", "Notifications for timesheet approval requests", false)]

  const DefaultSecuritySettings: seq<Setting> := [
    Setting("2fa", "Two-Factor Authentication", "Add an extra layer of security to your account", false),
    Setting("login-alerts", "Login Alerts", "Get notified of new login attempts", true)]

  /** Timesheet approvals start off, the other notifications on; two-factor off, login alerts on. */
  lemma DefaultSettings()
    ensures IsEnabled(DefaultNotificationSettings, "new-shifts")
    ensures IsEnabled(DefaultNotificationSettings, "shift-updates")
    ensures IsEnabled(DefaultNotificationSettings, "worker-reports")
    ensures !IsEnabled(DefaultNotificationSettings, "timesheet-approvals")
    ensures !IsEnabled(DefaultSecuritySettings, "2fa") && IsEnabled(DefaultSecuritySettings, "login-alerts")
  {
  }

  datatype CareHome = CareHome(name: string, address: string, phone: string, email: string)

  const InitialCareHome: CareHome := CareHome("", "", "", "")

  datatype Field = Name | Address | Phone | Email

  function FieldOf(c: CareHome, f: Field): string {
    match f
    case Name => c.name
    case Address => c.address
    case Phone => c.phone
    case Email => c.email
  }

  /** `setCareHome({ ...careHome, [field]: value })` */
  function EditField(c: CareHome, f: Field, value: string): (r: CareHome)
    ensures FieldOf(r, f) == value
    ensures forall g :: g != f ==> FieldOf(r, g) == FieldOf(c, g)
  {
    match f
    case Name => c.(name := value)
    case Address => c.(address := value)
    case Phone => c.(phone := value)
    case Email => c.(email := value)
  }

  /** Typing the old value back changes nothing; the last edit of a field wins. */
  lemma EditFieldLaws(c: CareHome, f: Field, v: string, w: string)
    ensures EditField(c, f, FieldOf(c, f)) == c
    ensures EditField(EditField(c, f, v), f, w) == EditField(c, f, w)
  {
  }

  /** A row of `carehomereg`, with the four columns the screen selects. */
  datatype RegistrationRow = RegistrationRow(careHomeName: string, businessAddress: string, managerPhone: string, managerEmail: string)

  /** The rows whose `manager_email` matches. */
  function RowsFor(rows: seq<RegistrationRow>, email: string): (matching: seq<RegistrationRow>)
    ensures |matching| <= |rows|
    ensures forall i :: 0 <= i < |matching| ==> matching[i].managerEmail == email
    ensures forall r :: r in rows && r.managerEmail == email ==> r in matching
  {
    if rows == [] then []
    else (if rows[0].managerEmail == email then [rows[0]] else []) + RowsFor(rows[1..], email)
  }

  /**
   * `fetchCareHomeDetails`: only with a signed-in user's email is anything looked up;
   * a failed request leaves the form as it was; `.single()` succeeds only when exactly
   * one registration matches, and the form then takes that row's name, address, phone
   * and email.
   */
  function FetchCareHome(current: CareHome, userEmail: Option<string>, rows: seq<RegistrationRow>, fails: bool): (c: CareHome)
    ensures userEmail.None? || userEmail.value == "" ==> c == current
    ensures fails ==> c == current
    ensures userEmail.Some? && userEmail.value != "" && |RowsFor(rows, userEmail.value)| != 1 ==> c == current
    ensures userEmail.Some? && userEmail.value != "" && !fails && |RowsFor(rows, userEmail.value)| == 1 ==>
      c.email == userEmail.value && RowsFor(rows, userEmail.value)[0] in rows
      && c == CareHome(RowsFor(rows, userEmail.value)[0].careHomeName, RowsFor(rows, userEmail.value)[0].businessAddress,
                       RowsFor(rows, userEmail.value)[0].managerPhone, RowsFor(rows, userEmail.value)[0].managerEmail)
  {
    if userEmail.None? || userEmail.value == "" || fails then current
    else
      var matching := RowsFor(rows, userEmail.value);
      if |matching| != 1 then current
      else
        assert matching[0] in matching;
        RowsForSubset(rows, userEmail.value, matching[0]);
        CareHome(matching[0].careHomeName, matching[0].businessAddress, matching[0].managerPhone, matching[0].managerEmail)
  }

  lemma {:induction false} RowsForSubset(rows: seq<RegistrationRow>, email: string, r: RegistrationRow)
    requires r in RowsFor(rows, email)
    ensures r in rows
  {
    if rows != [] {
      var head := if rows[0].managerEmail == email then [rows[0]] else [];
      if r in head {
        assert r == rows[0];
      } else {
        assert r in RowsFor(rows[1..], email);
        RowsForSubset(rows[1..], email, r);
      }
    }
  }

  /** Signed out, the form keeps its blank initial details. */
  lemma SignedOutKeepsBlank(rows: seq<RegistrationRow>, fails: bool)
    ensures FetchCareHome(InitialCareHome, None, rows, fails) == InitialCareHome
  {
  }
}
