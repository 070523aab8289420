/**
 * The worker's "Timesheets" screen: sample timesheets in two tabs, and the dialog
 * in which a pending timesheet must be signed before it can be submitted.
 */
module WorkerTimesheets {
  import opened Wrappers
  import ShiftHours

  datatype Timesheet = Timesheet(
    id: string,
    shiftId: string,
    date: string,
    careHome: string,
    startTime: string,
    endTime: string,
    hours: real,
    rate: real,
    status: string)

  const MockTimesheets: map<string, seq<Timesheet>> := map[
    "pending" := [Timesheet("TS001", "SH001", "2024-03-25", "Sunshine Care Home", "07:00", "15:00", 8.0, 25.0, "pending")],
    "approved" := [Timesheet("TS002", "SH002", "2024-03-24", "Oak Lodge", "14:00", "22:00", 8.0, 20.0, "approved")]]

  /** Every sample timesheet sits in the tab of its own status; totals are 200 and 160. */
  lemma MockTimesheetsConsistent()
    ensures forall k, i :: k in MockTimesheets && 0 <= i < |MockTimesheets[k]| ==> MockTimesheets[k][i].status == k
    ensures Total(MockTimesheets["pending"][0]) == 200.0
    ensures Total(MockTimesheets["approved"][0]) == 160.0
  {
  }

  /** The Total cell and the dialog's total: hours × rate. */
  function Total(t: Timesheet): (total: real)
    ensures t.hours >= 0.0 && t.rate >= 0.0 ==> total >= 0.0
    ensures t.hours == 0.0 || t.rate == 0.0 ==> total == 0.0
  {
    t.hours * t.rate
  }

  /** The total is the shift pay rule applied to the logged hours. */
  lemma TotalIsPay(t: Timesheet)
    ensures ShiftHours.TimesRate(Some(t.hours), t.rate) == Some(Total(t))
  {
    var pay := ShiftHours.TimesRate(Some(t.hours), t.rate);
    assert pay.Some? && pay.value == Total(t);
  }

  /** At a fixed non-negative rate, more hours never give a smaller total. */
  lemma TotalMonotone(t: Timesheet, u: Timesheet)
    requires u.rate == t.rate >= 0.0 && t.hours <= u.hours
    ensures Total(t) <= Total(u)
  {
    var extra := u.hours - t.hours;
    assert Total(u) == Total(t) + extra * t.rate;
    assert extra * t.rate >= 0.0;
  }

  /** The signature area and the submit button exist only for pending timesheets. */
  predicate SignableInDialog(t: Timesheet) {
    t.status == "pending"
  }

  /** `SignatureCanvas`: a click area that remembers it was signed and tells its owner. */
  class SignatureCanvas {
    var signed: bool

    constructor ()
      ensures !signed
    {
      signed := false;
    }

    /** `handleSign`: marks the area signed and runs `onSign`, which sets the table's flag. */
    method HandleSign(owner: TimesheetTable)
      modifies this, owner
      ensures signed
      ensures owner.isSigned && owner.selected == old(owner.selected) && owner.canvas == old(owner.canvas)
    {
      signed := true;
      owner.OnSign();
    }
  }

  /** `TimesheetTable`'s state: the open timesheet, the signed flag and the dialog's canvas. */
  class TimesheetTable {
    var selected: Option<Timesheet>
    var isSigned: bool
    var canvas: SignatureCanvas?

    constructor ()
      ensures selected == None && !isSigned && canvas == null
    {
      selected := None;
      isSigned := false;
      canvas := null;
    }

    /** The Submit Timesheet button is enabled only once signed. */
    predicate SubmitEnabled()
      reads this
    {
      isSigned
    }

    /** Opening a row selects it and forgets any earlier signature; pending rows get a fresh, unsigned canvas. */
    method Open(t: Timesheet)
      modifies this
      ensures selected == Some(t) && !isSigned && !SubmitEnabled()
      ensures SignableInDialog(t) ==> canvas != null && fresh(canvas) && !canvas.signed
      ensures !SignableInDialog(t) ==> canvas == null
    {
      selected := Some(t);
      isSigned := false;
      if SignableInDialog(t) {
        canvas := new SignatureCanvas();
      } else {
        canvas := null;
      }
    }

    /** The `onSign` callback passed to the canvas. */
    method OnSign()
      modifies this`isSigned
      ensures isSigned && SubmitEnabled()
    {
      isSigned := true;
    }

    /**
     * A click on Submit Timesheet: disabled until signed; once signed, `handleSubmit`
     * clears the selection.  The timesheets themselves are never changed.
     */
    method ClickSubmit(timesheets: map<string, seq<Timesheet>>) returns (submitted: bool, after: map<string, seq<Timesheet>>)
      modifies this`selected
      ensures submitted == old(isSigned)
      ensures submitted ==> selected == None
      ensures !submitted ==> selected == old(selected)
      ensures after == timesheets
    {
      submitted := isSigned;
      if submitted {
        selected := None;
      }
      after := timesheets;
    }
  }

  /** Open a pending row, sign it, submit: the selection is cleared; skipping the signature submits nothing. */
  method SignThenSubmit(table: TimesheetTable, t: Timesheet, sign: bool) returns (submitted: bool)
    requires SignableInDialog(t)
    modifies table
    ensures submitted == sign
    ensures submitted ==> table.selected == None
    ensures !submitted ==> table.selected == Some(t)
  {
    table.Open(t);
    if sign {
      table.canvas.HandleSign(table);
    }
    var after;
    submitted, after := table.ClickSubmit(MockTimesheets);
  }
}
