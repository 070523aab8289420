/**
 * The care home's registration form: business, inspection, insurance and manager
 * fields with three agreement checkboxes, submitted as one new row of `carehomes`
 * with a generated id and password, after which the form is cleared.
 */
module CareHomeRegistration {
  import opened Records
  import opened Toasts
  import opened JsStrings

  /** The fields that start as empty text. */
  const TextFields: seq<string> := [
    "care_home_name", "business_type", "registration_number", "vat_number", "business_address", "postcode",
    "cqc_number", "last_inspection_date", "cqc_rating", "insurance_expiry", "key_policies",
    "manager_name", "manager_email", "manager_phone", "manager_nmc"]

  /** The three agreement checkboxes, which start unticked. */
  const AgreementFields: seq<string> := ["terms_agreed", "policies_agreed", "updates_agreed"]

  /** `initialFormState` */
  const InitialFormState: Record := map[
    "care_home_name" := Text(""), "business_type" := Text(""), "registration_number" := Text(""),
    "vat_number" := Text(""), "business_address" := Text(""), "postcode" := Text(""),
    "cqc_number" := Text(""), "last_inspection_date" := Text(""), "cqc_rating" := Text(""),
    "insurance_expiry" := Text(""), "key_policies" := Text(""),
    "manager_name" := Text(""), "manager_email" := Text(""), "manager_phone" := Text(""), "manager_nmc" := Text(""),
    "terms_agreed" := Flag(false), "policies_agreed" := Flag(false), "updates_agreed" := Flag(false)]

  /** The success toast has a title only. */
  const SuccessNotice: Toast := Toast("Registration Successful", "", false)

  const FailureNotice: Toast := Toast("Registration Failed",
    "There was an error submitting your registration. Please try again.", true)

  /** The form opens blank: every text field empty and every agreement unticked. */
  lemma InitialFormBlank()
    ensures forall i :: 0 <= i < |TextFields| ==> Get(InitialFormState, TextFields[i]) == Text("")
    ensures forall i :: 0 <= i < |AgreementFields| ==> Get(InitialFormState, AgreementFields[i]) == Flag(false)
  {
  }

  /** `Math.random().toString(36).substring(2, 10)` */
  function GeneratedPassword(random: string): (password: string)
    ensures |password| <= 8
    ensures |random| >= 10 ==> password == random[2..10]
  {
    Substring(random, 2, 10)
  }

  /** `` `CH${Math.random().toString(36).substring(2, 8)}`.toUpperCase() `` */
  function GeneratedCareHomeId(random: string): (id: string)
    ensures 2 <= |id| <= 8 && id[..2] == "CH"
    ensures forall i :: 0 <= i < |id| ==> !IsLowerAscii(id[i])
    ensures |random| >= 8 ==> |id| == 8 && id[2..] == UpperAscii(random[2..8])
  {
    var raw := "CH" + Substring(random, 2, 8);
    assert raw[0] == 'C' && raw[1] == 'H';
    UpperAscii(raw)
  }

  /** `{ ...formData, carehomeid, password }`: every form field, then the two generated columns. */
  function CareHomeRow(form: Record, careHomeId: string, password: string): (row: Record)
    ensures row.Keys == form.Keys + {"carehomeid", "password"}
    ensures Get(row, "carehomeid") == Text(careHomeId) && Get(row, "password") == Text(password)
    ensures forall k :: k != "carehomeid" && k != "password" ==> Get(row, k) == Get(form, k)
  {
    Spread(form, map["carehomeid" := Text(careHomeId), "password" := Text(password)])
  }

  class CareHomeRegistrationPage {
    var formData: Record

    constructor ()
      ensures formData == InitialFormState
    {
      formData := InitialFormState;
    }

    /** `handleInputChange(field, value)` */
    method HandleInputChange(field: string, value: Value)
      modifies this
      ensures formData == SetField(old(formData), field, value)
    {
      formData := SetField(formData, field, value);
    }

    /** `resetForm`, which the Cancel button calls directly. */
    method ResetForm()
      modifies this
      ensures formData == InitialFormState
    {
      formData := InitialFormState;
    }

    /**
     * `handleSubmit`, which is not gated on the agreement checkboxes: one insert into
     * `carehomes`; on success the form is cleared, on failure it is kept for another try.
     */
    method HandleSubmit(careHomes: RecordTable, randomPassword: string, randomId: string, fails: bool)
      returns (toast: Toast)
      modifies this, careHomes
      ensures fails ==> careHomes.rows == old(careHomes.rows) && formData == old(formData) && toast == FailureNotice
      ensures !fails ==>
        careHomes.rows == old(careHomes.rows)
          + [CareHomeRow(old(formData), GeneratedCareHomeId(randomId), GeneratedPassword(randomPassword))]
        && formData == InitialFormState && toast == SuccessNotice
    {
      var password := GeneratedPassword(randomPassword);
      var careHomeId := GeneratedCareHomeId(randomId);
      var ok := careHomes.Insert(CareHomeRow(formData, careHomeId, password), fails);
      if !ok {
        toast := FailureNotice;
        return;
      }
      toast := SuccessNotice;
      ResetForm();
    }
  }

  /** A random text such as "0.k3x9ab7q" gives the id "CHK3X9AB". */
  lemma CareHomeIdExample()
    ensures GeneratedCareHomeId("0.k3x9ab7q") == "CHK3X9AB"
  {
    assert Substring("0.k3x9ab7q", 2, 8) == "k3x9ab";
    assert "CH" + "k3x9ab" == "CHk3x9ab";
    var up := UpperAscii("CHk3x9ab");
    assert up[0] == 'C' && up[1] == 'H' && up[3] == '3' && up[5] == '9';
    assert up[2] == 'K' && up[4] == 'X' && up[6] == 'A' && up[7] == 'B';
    assert up == "CHK3X9AB";
  }
}
