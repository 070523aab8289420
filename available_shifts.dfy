/**
 * The worker's "Available Shifts" screen: the list of open ("active") shifts with their
 * care home, and the Apply action that turns a shift into a pending application.
 */
module AvailableShifts {
  import opened Wrappers
  import opened Shifts
  import opened ShiftHours
  import opened Grouping
  import opened Toasts
  import opened Sessions

  /** One card of the list. */
  datatype AvailableShift = AvailableShift(
    shiftId: ShiftId,
    date: string,
    role: string,
    careHome: string,
    postcode: string,
    startTime: string,
    endTime: string,
    hours: Option<real>,
    rate: real)

  /** The `map` applied to each fetched row. */
  function FormatAvailable(f: FetchedShift): (card: AvailableShift)
    ensures card.shiftId == f.row.shiftId && card.rate == f.row.hourlyRate
    ensures card.careHome == CareHomeName(f) && card.postcode == CareHomePostcode(f)
    ensures card.hours == CalculateHours(f.row.startTime, f.row.endTime)
  {
    AvailableShift(
      f.row.shiftId, f.row.date, f.row.role, CareHomeName(f), CareHomePostcode(f),
      f.row.startTime, f.row.endTime, CalculateHours(f.row.startTime, f.row.endTime), f.row.hourlyRate)
  }

  function FetchedStatus(f: FetchedShift): string {
    f.row.status
  }

  /** The query filtered on `status = "active"`, then formatted, in table order. */
  function Listing(rows: seq<FetchedShift>): (cards: seq<AvailableShift>)
    ensures |cards| <= |rows|
  {
    Selected(rows, FetchedStatus, Active, FormatAvailable)
  }

  /**
   * Adding a row to the table adds its card at the end exactly when the row is active;
   * together with `Listing([]) == []` this pins the list down completely.
   */
  lemma ListingSnoc(rows: seq<FetchedShift>, f: FetchedShift)
    ensures Listing([]) == []
    ensures Listing(rows + [f]) == Listing(rows) + (if f.row.status == Active then [FormatAvailable(f)] else [])
  {
    SelectedAppend(rows, [f], FetchedStatus, Active, FormatAvailable);
    assert Selected([f], FetchedStatus, Active, FormatAvailable)
        == (if f.row.status == Active then [FormatAvailable(f)] else []) + Selected([f][1..], FetchedStatus, Active, FormatAvailable);
  }

  /** A shift with no joined care home, or empty names, shows "Unknown"; the card keeps the row's hours and rate. */
  lemma CardFields(f: FetchedShift)
    ensures f.careHome.None? ==> FormatAvailable(f).careHome == "Unknown" && FormatAvailable(f).postcode == "Unknown"
    ensures f.careHome.Some? && f.careHome.value.careHomeName.Some? && f.careHome.value.careHomeName.value != ""
            ==> FormatAvailable(f).careHome == f.careHome.value.careHomeName.value
    ensures FormatAvailable(f).hours == CalculateHours(f.row.startTime, f.row.endTime)
    ensures FormatAvailable(f).rate == f.row.hourlyRate
  {
  }

  /** The screen's list state. */
  class AvailableShiftsPage {
    var shifts: seq<AvailableShift>

    constructor ()
      ensures shifts == []
    {
      shifts := [];
    }

    /** The "N shifts available" count. */
    function ShownCount(): nat
      reads this
    {
      |shifts|
    }

    /** `fetchAvailableShifts`: a failed query leaves the list as it was. */
    method FetchAvailableShifts(result: Option<seq<FetchedShift>>)
      modifies this
      ensures shifts == if result.Some? then Listing(result.value) else old(shifts)
      ensures result.Some? ==> ShownCount() <= |result.value|
    {
      if result.Some? {
        shifts := Listing(result.value);
      }
    }
  }

  /**
   * `handleApplyShift`: without a signed-in worker nothing is sent; otherwise the row
   * becomes pending under this worker's id and name, whatever its current status.
   */
  method HandleApplyShift(table: ShiftTable, session: Option<WorkerSession>, shiftId: ShiftId, fails: bool)
    returns (toast: Toast)
    requires table.Valid()
    modifies table
    ensures table.Valid()
    ensures !HasWorkerId(session) ==>
      table.rows == old(table.rows) && toast == ErrorToast("You must be logged in to apply for shifts")
    ensures HasWorkerId(session) ==>
      table.rows == (if fails then old(table.rows)
                     else WithApplicant(old(table.rows), shiftId, session.value.workerId, session.value.name))
    ensures HasWorkerId(session) ==>
      toast == (if fails then ErrorToast("Failed to apply for shift") else SuccessToast("Successfully applied for shift"))
  {
    if !HasWorkerId(session) {
      toast := ErrorToast("You must be logged in to apply for shifts");
      return;
    }
    var ok := table.UpdateApplicant(shiftId, session.value.workerId, session.value.name, fails);
    if ok {
      toast := SuccessToast("Successfully applied for shift");
    } else {
      toast := ErrorToast("Failed to apply for shift");
    }
  }

  /** After a successful apply, the shift no longer appears among the open shifts. */
  lemma AppliedShiftLeavesListing(t: Table, id: ShiftId, worker: string, name: string)
    requires id in t
    ensures WithApplicant(t, id, worker, name)[id].status != Active
  {
  }
}
