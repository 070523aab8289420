/**
 * The care worker's registration form: a flat record of personal, next-of-kin,
 * professional and document fields with two agreement checkboxes, submitted as one
 * new row of `careworkers` with a generated id and password.
 */
module Registration {
  import opened Wrappers
  import opened Records
  import opened Toasts
  import opened JsStrings

  /** The fields that start as empty text. */
  const TextFields: seq<string> := [
    "title", "first_name", "last_name", "date_of_birth", "email", "phone", "address", "nationality",
    "nok_full_name", "nok_email", "nok_phone", "nok_relationship",
    "preferred_role", "years_experience", "availability", "transport", "nmc_pin", "national_insurance"]

  /** The file inputs, which start as `null`. */
  const DocumentFields: seq<string> := ["resume", "training_certificates", "right_to_work_doc", "dbs_certificate"]

  /** `initialFormState` */
  const InitialFormState: Record := map[
    "title" := Text(""), "first_name" := Text(""), "last_name" := Text(""), "date_of_birth" := Text(""),
    "email" := Text(""), "phone" := Text(""), "address" := Text(""), "nationality" := Text(""),
    "nok_full_name" := Text(""), "nok_email" := Text(""), "nok_phone" := Text(""), "nok_relationship" := Text(""),
    "preferred_role" := Text(""), "years_experience" := Text(""), "availability" := Text(""), "transport" := Text(""),
    "resume" := Null, "training_certificates" := Null, "nmc_pin" := Text(""),
    "right_to_work_doc" := Null, "dbs_certificate" := Null, "national_insurance" := Text(""),
    "terms_agreed" := Flag(false), "privacy_agreed" := Flag(false)]

  const SignInRoute: string := "/worker-signin"

  const SuccessNotice: Toast := Toast("Registration Successful",
    "Thank you for your registration. Your account setup is pending and you will be notified by email when approved.", false)

  const FailureNotice: Toast := Toast("Registration Failed",
    "There was an error submitting your registration. Please try again.", true)

  /** The submit button: `disabled={!formData.terms_agreed || !formData.privacy_agreed}`. */
  function SubmitEnabled(form: Record): (enabled: bool)
    ensures enabled ==> "terms_agreed" in form && "privacy_agreed" in form
  {
    Truthy(Get(form, "terms_agreed")) && Truthy(Get(form, "privacy_agreed"))
  }

  /** The NMC PIN input and its review line: `formData.preferred_role === "nurse"`. */
  function NmcShown(form: Record): (shown: bool)
    ensures shown ==> "preferred_role" in form
  {
    Get(form, "preferred_role") == Text("nurse")
  }

  /** The "Uploaded Documents" list of the review tab: one item per truthy file field, in this order. */
  function UploadedDocuments(form: Record): (items: seq<string>)
    ensures "Resume" in items <==> Truthy(Get(form, "resume"))
    ensures "Training Certificates" in items <==> Truthy(Get(form, "training_certificates"))
    ensures "Right to Work Document" in items <==> Truthy(Get(form, "right_to_work_doc"))
    ensures "DBS Certificate" in items <==> Truthy(Get(form, "dbs_certificate"))
    ensures |items| <= 4
  {
    (if Truthy(Get(form, "resume")) then ["Resume"] else [])
    + (if Truthy(Get(form, "training_certificates")) then ["Training Certificates"] else [])
    + (if Truthy(Get(form, "right_to_work_doc")) then ["Right to Work Document"] else [])
    + (if Truthy(Get(form, "dbs_certificate")) then ["DBS Certificate"] else [])
  }

  /** `Math.random().toString(36).slice(-8)` */
  function GeneratedPassword(random: string): (password: string)
    ensures |password| <= 8
    ensures |random| >= 8 ==> |password| == 8 && password == random[|random| - 8..]
  {
    SliceLast(random, 8)
  }

  /** `Math.random().toString(36).substring(2, 10)`: the "0." prefix is skipped. */
  function GeneratedWorkerId(random: string): (id: string)
    ensures |id| <= 8
    ensures |random| >= 10 ==> id == random[2..10]
    ensures 2 <= |random| <= 10 ==> id == random[2..]
  {
    Substring(random, 2, 10)
  }

  /** `{ ...formData, careworkerid, password }`: every form field, then the two generated columns. */
  function WorkerRow(form: Record, workerId: string, password: string): (row: Record)
    ensures row.Keys == form.Keys + {"careworkerid", "password"}
    ensures Get(row, "careworkerid") == Text(workerId) && Get(row, "password") == Text(password)
    ensures forall k :: k != "careworkerid" && k != "password" ==> Get(row, k) == Get(form, k)
  {
    Spread(form, map["careworkerid" := Text(workerId), "password" := Text(password)])
  }

  /** The form opens blank: every text field empty and no document chosen. */
  lemma InitialFormBlank()
    ensures forall i :: 0 <= i < |TextFields| ==> Get(InitialFormState, TextFields[i]) == Text("")
    ensures forall i :: 0 <= i < |DocumentFields| ==> Get(InitialFormState, DocumentFields[i]) == Null
  {
  }

  /** Both agreements start unticked, so submit starts disabled; no NMC field and no document is listed. */
  lemma InitialFormGates()
    ensures Get(InitialFormState, "terms_agreed") == Flag(false) && Get(InitialFormState, "privacy_agreed") == Flag(false)
    ensures !SubmitEnabled(InitialFormState)
    ensures !NmcShown(InitialFormState)
    ensures UploadedDocuments(InitialFormState) == []
  {
  }

  /** Ticking both boxes enables submit, and unticking either disables it again. */
  lemma AgreementGate(form: Record, terms: bool, privacy: bool)
    ensures SubmitEnabled(SetField(SetField(form, "terms_agreed", Flag(terms)), "privacy_agreed", Flag(privacy)))
            <==> terms && privacy
  {
  }

  /** Choosing the nurse role shows the NMC field; any other role hides it. */
  lemma NurseOnlyNmc(form: Record, role: string)
    ensures NmcShown(SetField(form, "preferred_role", Text(role))) <==> role == "nurse"
  {
  }

  class RegistrationPage {
    var formData: Record

    constructor ()
      ensures formData == InitialFormState
    {
      formData := InitialFormState;
    }

    /** `handleInputChange(field, value)` */
    method HandleInputChange(field: string, value: Value)
      modifies this
      ensures formData == SetField(old(formData), field, value)
    {
      formData := SetField(formData, field, value);
    }

    /**
     * `handleSubmit`: one insert into `careworkers`.  A failed insert shows the failure
     * notice and goes nowhere; a successful one navigates to worker sign-in when rows
     * come back (`data` is truthy).  The form itself is never cleared.
     */
    method HandleSubmit(workers: RecordTable, randomPassword: string, randomId: string, fails: bool, dataReturned: bool)
      returns (toast: Option<Toast>, navigateTo: Option<string>)
      modifies workers
      ensures formData == old(formData)
      ensures fails ==> workers.rows == old(workers.rows) && toast == Some(FailureNotice) && navigateTo == None
      ensures !fails ==>
        workers.rows == old(workers.rows) + [WorkerRow(formData, GeneratedWorkerId(randomId), GeneratedPassword(randomPassword))]
      ensures !fails && dataReturned ==> toast == Some(SuccessNotice) && navigateTo == Some(SignInRoute)
      ensures !fails && !dataReturned ==> toast == None && navigateTo == None
    {
      var password := GeneratedPassword(randomPassword);
      var workerId := GeneratedWorkerId(randomId);
      var ok := workers.Insert(WorkerRow(formData, workerId, password), fails);
      if !ok {
        toast := Some(FailureNotice);
        navigateTo := None;
        return;
      }
      if dataReturned {
        toast := Some(SuccessNotice);
        navigateTo := Some(SignInRoute);
      } else {
        toast := None;
        navigateTo := None;
      }
    }
  }
}
