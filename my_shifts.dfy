/**
 * The worker's "My Shifts" screen: the worker's own shifts sorted into three tabs,
 * pending, approved and completed; rows with any other status are not shown.
 */
module MyShifts {
  import opened Wrappers
  import opened Shifts
  import opened ShiftHours
  import opened Grouping
  import opened Sessions

  /** One row of a tab. */
  datatype MyShift = MyShift(
    id: ShiftId,
    date: string,
    careHome: string,
    role: string,
    shiftType: string,
    startTime: string,
    endTime: string,
    hours: Option<real>,
    rate: real,
    status: Status)

  /** `formattedShift`; the shift type is always "Day". */
  function FormatMyShift(f: FetchedShift): (s: MyShift)
    ensures s.shiftType == "Day" && s.status == f.row.status && s.id == f.row.shiftId
    ensures s.careHome == CareHomeName(f) && s.rate == f.row.hourlyRate
    ensures s.hours == CalculateHours(f.row.startTime, f.row.endTime)
  {
    MyShift(
      f.row.shiftId, f.row.date, CareHomeName(f), f.row.role, "Day",
      f.row.startTime, f.row.endTime, CalculateHours(f.row.startTime, f.row.endTime), f.row.hourlyRate, f.row.status)
  }

  function FetchedStatus(f: FetchedShift): string {
    f.row.status
  }

  /** The three statuses the reduce keeps. */
  predicate IsMyStatus(status: string) {
    status == Pending || status == Approved || status == Completed
  }

  /** The reduce's seed, which is also the screen's initial state. */
  const EmptyMyShifts: Buckets<MyShift> := map[Pending := [], Approved := [], Completed := []]

  /** The filtering reduce of `fetchShifts`. */
  function GroupMyShifts(data: seq<FetchedShift>): (tabs: Buckets<MyShift>)
    ensures Pending in tabs && Approved in tabs && Completed in tabs
    ensures forall k :: !IsMyStatus(k) ==> Bucket(tabs, k) == []
  {
    GroupBy(data, EmptyMyShifts, FetchedStatus, IsMyStatus, FormatMyShift)
  }

  /** The query `.eq("worker_id", workerId)`: the rows assigned to this worker, in table order. */
  function RowsOfWorker(rows: seq<FetchedShift>, workerId: string): (mine: seq<FetchedShift>)
    ensures forall i :: 0 <= i < |mine| ==> mine[i].row.workerId == Some(workerId)
    ensures forall f :: f in rows && f.row.workerId == Some(workerId) ==> f in mine
    ensures forall f :: f in mine ==> f in rows
  {
    if rows == [] then []
    else (if rows[0].row.workerId == Some(workerId) then [rows[0]] else []) + RowsOfWorker(rows[1..], workerId)
  }

  /** The filter distributes over concatenation, so the worker's rows keep their table order. */
  lemma {:induction false} RowsOfWorkerAppend(a: seq<FetchedShift>, b: seq<FetchedShift>, workerId: string)
    ensures RowsOfWorker(a + b, workerId) == RowsOfWorker(a, workerId) + RowsOfWorker(b, workerId)
  {
    if a == [] {
      assert a + b == b;
    } else {
      assert (a + b)[0] == a[0];
      assert (a + b)[1..] == a[1..] + b;
      RowsOfWorkerAppend(a[1..], b, workerId);
    }
  }

  /** Each kept status's tab holds exactly that status's rows in fetch order; any other status has no tab. */
  lemma MyShiftsBucket(data: seq<FetchedShift>, status: Status)
    ensures IsMyStatus(status) ==> Bucket(GroupMyShifts(data), status) == Selected(data, FetchedStatus, status, FormatMyShift)
    ensures !IsMyStatus(status) ==> status !in GroupMyShifts(data)
  {
    GroupByBucket(data, EmptyMyShifts, FetchedStatus, IsMyStatus, FormatMyShift, status);
    MyShiftsKeys(data);
  }

  /** Whatever is fetched, the result has exactly the three tabs. */
  lemma MyShiftsKeys(data: seq<FetchedShift>)
    ensures GroupMyShifts(data).Keys == {Pending, Approved, Completed}
  {
    GroupByKeys(data, EmptyMyShifts, FetchedStatus, IsMyStatus, FormatMyShift);
    assert KeptKeys(data, FetchedStatus, IsMyStatus) <= {Pending, Approved, Completed};
  }

  /** A fetched row with another status (active, rejected, ...) leaves the tabs as they were. */
  lemma DroppedStatusIgnored(data: seq<FetchedShift>, f: FetchedShift)
    requires !IsMyStatus(f.row.status)
    ensures GroupMyShifts(data + [f]) == GroupMyShifts(data)
  {
    assert (data + [f])[..|data + [f]| - 1] == data;
  }

  /** Every shown shift is of type "Day" and keeps the status of the tab it is in. */
  lemma MyShiftFields(data: seq<FetchedShift>, status: Status, i: int)
    requires IsMyStatus(status)
    requires 0 <= i < |Bucket(GroupMyShifts(data), status)|
    ensures Bucket(GroupMyShifts(data), status)[i].shiftType == "Day"
    ensures Bucket(GroupMyShifts(data), status)[i].status == status
  {
    MyShiftsBucket(data, status);
    SelectedFormatted(data, status, i);
  }

  lemma {:induction false} SelectedFormatted(data: seq<FetchedShift>, status: Status, i: int)
    requires 0 <= i < |Selected(data, FetchedStatus, status, FormatMyShift)|
    ensures Selected(data, FetchedStatus, status, FormatMyShift)[i].shiftType == "Day"
    ensures Selected(data, FetchedStatus, status, FormatMyShift)[i].status == status
  {
    var head := if FetchedStatus(data[0]) == status then [FormatMyShift(data[0])] else [];
    var rest := Selected(data[1..], FetchedStatus, status, FormatMyShift);
    assert Selected(data, FetchedStatus, status, FormatMyShift) == head + rest;
    if i < |head| {
      assert Selected(data, FetchedStatus, status, FormatMyShift)[i] == FormatMyShift(data[0]);
    } else {
      assert Selected(data, FetchedStatus, status, FormatMyShift)[i] == rest[i - |head|];
      SelectedFormatted(data[1..], status, i - |head|);
    }
  }

  /**
   * `fetchShifts` as seen by the tabs: without a signed-in worker, or when the query
   * fails, the tabs stay as they were; otherwise they are the grouping of the worker's rows.
   */
  function FetchMyShifts(current: Buckets<MyShift>, session: Option<WorkerSession>, rows: Option<seq<FetchedShift>>)
    : (tabs: Buckets<MyShift>)
    ensures !HasWorkerId(session) || rows.None? ==> tabs == current
    ensures HasWorkerId(session) && rows.Some? ==> tabs.Keys == {Pending, Approved, Completed}
    ensures HasWorkerId(session) && rows.Some? ==>
      forall status :: IsMyStatus(status) ==>
        tabs[status] == Selected(RowsOfWorker(rows.value, session.value.workerId), FetchedStatus, status, FormatMyShift)
  {
    if !HasWorkerId(session) || rows.None? then current
    else
      var mine := RowsOfWorker(rows.value, session.value.workerId);
      MyShiftsKeys(mine);
      MyShiftsBucket(mine, Pending);
      MyShiftsBucket(mine, Approved);
      MyShiftsBucket(mine, Completed);
      GroupMyShifts(mine)
  }

  /** Signed out, the screen never leaves its initial three empty tabs. */
  lemma SignedOutStaysEmpty(rows: Option<seq<FetchedShift>>)
    ensures FetchMyShifts(EmptyMyShifts, None, rows) == EmptyMyShifts
    ensures Bucket(EmptyMyShifts, Pending) == [] && Bucket(EmptyMyShifts, Approved) == [] && Bucket(EmptyMyShifts, Completed) == []
  {
  }

  /** The Total column: hours × rate, undefined when the hours are not a number. */
  function RowTotal(s: MyShift): (total: Option<real>)
    ensures total.Some? <==> s.hours.Some?
    ensures total.Some? ==> total.value == s.hours.value * s.rate
    ensures total.Some? && s.rate == 0.0 ==> total.value == 0.0
    ensures total.Some? && s.hours.value == 0.0 ==> total.value == 0.0
  {
    TimesRate(s.hours, s.rate)
  }

  /** A 09:00-17:00 shift at 12.50 an hour totals 100. */
  lemma RowTotalExample(f: FetchedShift)
    requires f.row.startTime == "09:00" && f.row.endTime == "17:00" && f.row.hourlyRate == 12.5
    ensures RowTotal(FormatMyShift(f)) == Some(100.0)
  {
    assert CalculateHours("09:00", "17:00") == Some(8.0) by {
      assert FormatTime(ClockTime(9, 0)) == "09:00";
      assert FormatTime(ClockTime(17, 0)) == "17:00";
      ParseFormat(ClockTime(9, 0));
      ParseFormat(ClockTime(17, 0));
    }
  }

  /** The Total column of a fetched shift is the pay the shift-management table shows for the same row. */
  lemma RowTotalIsShiftPay(f: FetchedShift)
    ensures RowTotal(FormatMyShift(f)) == ShiftPay(f.row.startTime, f.row.endTime, f.row.hourlyRate)
  {
  }
}
