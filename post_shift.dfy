/**
 * The care home's "Post Shift" form: its state, the submit that inserts a new open
 * shift owned by the signed-in care home, and the Reset button.
 */
module PostShift {
  import opened Wrappers
  import opened Shifts
  import opened Toasts
  import opened Sessions

  /** The form state; rate and staff count are kept as the text typed in. */
  datatype ShiftForm = ShiftForm(
    date: string,
    startTime: string,
    endTime: string,
    role: string,
    hourlyRate: string,
    staffRequired: string,
    paidBreak: bool,
    requiredSkills: string,
    specialRequirements: string)

  /** The initial state, which is also what a successful submit resets to. */
  const InitialForm: ShiftForm := ShiftForm("", "", "", "", "", "1", false, "", "")

  /**
   * `shiftData` under the id the data store assigns.  `rate` and `staff` are the
   * results of `parseFloat(hourly_rate)` and `parseInt(staff_required)`.
   */
  function NewShiftRow(form: ShiftForm, careHomeId: string, newId: ShiftId, rate: real, staff: int): (row: ShiftRow)
    ensures row.status == Active && row.workerId == None && row.workerName == None
    ensures row.careHomeId == careHomeId && row.shiftId == newId
  {
    ShiftRow(
      newId, careHomeId, form.date, form.startTime, form.endTime, form.role, rate, staff,
      form.paidBreak, form.requiredSkills, form.specialRequirements, Active, None, None)
  }

  /**
   * The inserted row is open, owned by the signed-in care home, has no worker, and
   * copies the form's date, times, role, break flag, skills and requirements verbatim.
   */
  lemma NewShiftRowFields(form: ShiftForm, careHomeId: string, newId: ShiftId, rate: real, staff: int)
    ensures var row := NewShiftRow(form, careHomeId, newId, rate, staff);
      row.status == Active && row.careHomeId == careHomeId && row.shiftId == newId
      && row.workerId == None && row.workerName == None
      && row.date == form.date && row.startTime == form.startTime && row.endTime == form.endTime
      && row.role == form.role && row.paidBreak == form.paidBreak
      && row.requiredSkills == form.requiredSkills && row.specialRequirements == form.specialRequirements
      && row.hourlyRate == rate && row.staffRequired == staff
  {
  }

  /** A freshly posted shift appears among the open shifts and in no other status. */
  lemma PostedShiftIsOpen(t: Table, form: ShiftForm, careHomeId: string, newId: ShiftId, rate: real, staff: int)
    requires newId !in t
    ensures var r := WithNewShift(t, NewShiftRow(form, careHomeId, newId, rate, staff));
      newId in r && r[newId].status == Active && r[newId].careHomeId == careHomeId
      && (forall k :: k in t ==> k in r && r[k] == t[k])
  {
  }

  class PostShiftPage {
    var form: ShiftForm

    constructor ()
      ensures form == InitialForm
    {
      form := InitialForm;
    }

    /** Typing into the form replaces the form state. */
    method Edit(newForm: ShiftForm)
      modifies this
      ensures form == newForm
    {
      form := newForm;
    }

    /**
     * `handleSubmit`.  Without a care-home id it fails before any insert.  A failed
     * insert reports the store's message and leaves the form as typed.  A successful
     * insert reports the new id and resets the form.
     */
    method HandleSubmit(table: ShiftTable, session: Option<CareHomeSession>, rate: real, staff: int,
                        newId: ShiftId, fails: bool, failMessage: string)
      returns (toast: Toast)
      requires table.Valid()
      requires newId !in table.rows
      modifies this, table
      ensures table.Valid()
      ensures !HasCareHomeId(session) ==>
        table.rows == old(table.rows) && form == old(form)
        && toast == ErrorToast("Error posting shift: Care home ID not found")
      ensures HasCareHomeId(session) && fails ==>
        table.rows == old(table.rows) && form == old(form)
        && toast == ErrorToast("Error posting shift: " + failMessage)
      ensures HasCareHomeId(session) && !fails ==>
        table.rows == WithNewShift(old(table.rows), NewShiftRow(old(form), session.value.careHomeId, newId, rate, staff))
        && form == InitialForm
        && toast == SuccessToast("Shift posted successfully. ID: " + newId)
    {
      if !HasCareHomeId(session) {
        toast := ErrorToast("Error posting shift: Care home ID not found");
        return;
      }
      var row := NewShiftRow(form, session.value.careHomeId, newId, rate, staff);
      var ok := table.Insert(row, fails);
      if !ok {
        toast := ErrorToast("Error posting shift: " + failMessage);
        return;
      }
      toast := SuccessToast("Shift posted successfully. ID: " + newId);
      form := InitialForm;
    }

    /** The Reset button copies the form unchanged: it resets nothing. */
    method Reset()
      modifies this
      ensures form == old(form)
    {
      form := form.(date := form.date);
    }
  }
}
