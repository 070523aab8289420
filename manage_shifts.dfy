/**
 * The care home's "Manage Shifts" screen: fetched rows grouped into four status tabs,
 * and the Approve / Reject decisions on pending applications.
 */
module ManageShifts {
  import opened Wrappers
  import opened Shifts
  import opened ShiftHours
  import opened Grouping
  import opened Toasts
  import opened Sessions

  /** A shift as the table shows it. */
  datatype ManagedShift = ManagedShift(
    id: ShiftId,
    date: string,
    time: string,
    role: string,
    hours: Option<real>,
    staffRequired: int,
    pay: Option<real>,
    status: Status,
    workerId: Option<string>,
    workerName: Option<string>)

  /** The object literal built for each fetched row. */
  function ManagedView(row: ShiftRow): ManagedShift {
    ManagedShift(
      row.shiftId, row.date, row.startTime + " - " + row.endTime, row.role,
      CalculateHours(row.startTime, row.endTime), row.staffRequired,
      ShiftPay(row.startTime, row.endTime, row.hourlyRate),
      row.status, row.workerId, row.workerName)
  }

  function StatusOf(row: ShiftRow): string {
    row.status
  }

  /** `emptyShifts`: the four tabs, all empty. */
  const EmptyShifts: Buckets<ManagedShift> := map[Active := [], Pending := [], Approved := [], Rejected := []]

  /** The `reduce` in `fetchShifts`, seeded with `emptyShifts`; every row is kept. */
  function GroupShifts(data: seq<ShiftRow>): (tabs: Buckets<ManagedShift>)
    ensures Active in tabs && Pending in tabs && Approved in tabs && Rejected in tabs
  {
    GroupBy(data, EmptyShifts, StatusOf, (s: string) => true, ManagedView)
  }

  /**
   * Each status's bucket holds the views of exactly the rows with that status, in
   * fetch order.  This is also what the seed gives back when nothing was fetched: the
   * seed itself is never altered.
   */
  lemma GroupShiftsBucket(data: seq<ShiftRow>, status: Status)
    ensures Bucket(GroupShifts(data), status) == Selected(data, StatusOf, status, ManagedView)
    ensures GroupShifts([]) == EmptyShifts
  {
    GroupByBucket(data, EmptyShifts, StatusOf, (s: string) => true, ManagedView, status);
  }

  /** The tabs present are the four standard ones plus any other status a row carries. */
  lemma GroupShiftsKeys(data: seq<ShiftRow>)
    ensures GroupShifts(data).Keys
         == {Active, Pending, Approved, Rejected} + (set i | 0 <= i < |data| :: data[i].status)
  {
    GroupByKeys(data, EmptyShifts, StatusOf, (s: string) => true, ManagedView);
    assert KeptKeys(data, StatusOf, (s: string) => true) == (set i | 0 <= i < |data| :: data[i].status);
  }

  /** When every row has one of the four standard statuses, the tabs together hold every row once. */
  lemma GroupShiftsSizes(data: seq<ShiftRow>)
    requires forall i :: 0 <= i < |data| ==> data[i].status in [Active, Pending, Approved, Rejected]
    ensures |Bucket(GroupShifts(data), Active)| + |Bucket(GroupShifts(data), Pending)|
          + |Bucket(GroupShifts(data), Approved)| + |Bucket(GroupShifts(data), Rejected)| == |data|
  {
    var keys := [Active, Pending, Approved, Rejected];
    SelectionsPartition(data, StatusOf, ManagedView, keys);
    GroupShiftsBucket(data, Active);
    GroupShiftsBucket(data, Pending);
    GroupShiftsBucket(data, Approved);
    GroupShiftsBucket(data, Rejected);
    var k1, k2, k3 := keys[1..], keys[1..][1..], keys[1..][1..][1..];
    assert k1 == [Pending, Approved, Rejected] && k2 == [Approved, Rejected] && k3 == [Rejected];
    assert k3[1..] == [];
    assert TotalSelected(data, StatusOf, ManagedView, k3) == |Selected(data, StatusOf, Rejected, ManagedView)|;
    assert TotalSelected(data, StatusOf, ManagedView, k2)
        == |Selected(data, StatusOf, Approved, ManagedView)| + TotalSelected(data, StatusOf, ManagedView, k3);
    assert TotalSelected(data, StatusOf, ManagedView, k1)
        == |Selected(data, StatusOf, Pending, ManagedView)| + TotalSelected(data, StatusOf, ManagedView, k2);
    assert TotalSelected(data, StatusOf, ManagedView, keys)
        == |Selected(data, StatusOf, Active, ManagedView)| + TotalSelected(data, StatusOf, ManagedView, k1);
  }

  /** The screen's state. */
  class ManageShiftsPage {
    var activeTab: Status
    var shifts: Buckets<ManagedShift>
    var dialogOpen: bool

    constructor ()
      ensures activeTab == Active && shifts == EmptyShifts && !dialogOpen
    {
      activeTab := Active;
      shifts := EmptyShifts;
      dialogOpen := false;
    }

    /** The Worker column is shown on every tab except "active". */
    predicate ShowsWorkerColumn()
      reads this
    {
      activeTab != Active
    }

    /** The View Worker dialog with Approve and Reject is offered on the pending tab only. */
    predicate ShowsDecisionDialog()
      reads this
    {
      activeTab == Pending
    }

    method SelectTab(tab: Status)
      modifies this`activeTab
      ensures activeTab == tab
      ensures ShowsWorkerColumn() <==> tab != Active
      ensures ShowsDecisionDialog() <==> tab == Pending
    {
      activeTab := tab;
    }

    /**
     * `fetchShifts` (run on mount and again on every change notification): without a
     * care-home id, or when the query fails, the tabs keep their contents; otherwise
     * they are replaced by the grouping of this care home's rows of the table.
     */
    method FetchShifts(session: Option<CareHomeSession>, table: Option<seq<ShiftRow>>)
      modifies this`shifts
      ensures shifts == if HasCareHomeId(session) && table.Some?
        then GroupShifts(RowsOfCareHome(table.value, session.value.careHomeId)) else old(shifts)
    {
      if !HasCareHomeId(session) {
        return;
      }
      if table.None? {
        return;
      }
      shifts := GroupShifts(RowsOfCareHome(table.value, session.value.careHomeId));
    }

    /** `handleApproveShift`: sets "approved" whatever the row's current status. */
    method HandleApproveShift(table: ShiftTable, shiftId: ShiftId, fails: bool) returns (toast: Toast)
      requires table.Valid()
      modifies table, this`dialogOpen
      ensures table.Valid()
      ensures table.rows == if fails then old(table.rows) else WithStatus(old(table.rows), shiftId, Approved)
      ensures dialogOpen == (old(dialogOpen) && fails)
      ensures toast == if fails then ErrorToast("Failed to approve shift") else SuccessToast("Shift approved successfully")
    {
      var ok := table.UpdateStatus(shiftId, Approved, fails);
      if ok {
        toast := SuccessToast("Shift approved successfully");
        dialogOpen := false;
      } else {
        toast := ErrorToast("Failed to approve shift");
      }
    }

    /** `handleRejectShift`: sets "rejected" whatever the row's current status. */
    method HandleRejectShift(table: ShiftTable, shiftId: ShiftId, fails: bool) returns (toast: Toast)
      requires table.Valid()
      modifies table, this`dialogOpen
      ensures table.Valid()
      ensures table.rows == if fails then old(table.rows) else WithStatus(old(table.rows), shiftId, Rejected)
      ensures dialogOpen == (old(dialogOpen) && fails)
      ensures toast == if fails then ErrorToast("Failed to reject shift") else SuccessToast("Shift rejected successfully")
    {
      var ok := table.UpdateStatus(shiftId, Rejected, fails);
      if ok {
        toast := SuccessToast("Shift rejected successfully");
        dialogOpen := false;
      } else {
        toast := ErrorToast("Failed to reject shift");
      }
    }
  }

  /** A decision on the pending tab touches one row's status and nothing else: worker fields stay. */
  lemma ApproveKeepsWorker(t: Table, id: ShiftId)
    requires id in t
    ensures WithStatus(t, id, Approved)[id].workerId == t[id].workerId
    ensures WithStatus(t, id, Approved)[id].workerName == t[id].workerName
    ensures WithStatus(t, id, Rejected)[id].workerId == t[id].workerId
    ensures WithStatus(t, id, Rejected)[id].workerName == t[id].workerName
  {
  }
}
