/**
 * The remote `shifts` table, as a map from shift id to row, and the three single-row
 * updates the screens send to it: set the status (approve, reject), attach an
 * applicant (apply), and insert a new row (post).  None of them looks at the row's
 * current status.
 */
module Shifts {
  import opened Wrappers

  type ShiftId = string
  type Status = string

  const Active: Status := "active"
  const Pending: Status := "pending"
  const Approved: Status := "approved"
  const Rejected: Status := "rejected"
  const Completed: Status := "completed"

  /** One row of the `shifts` table. */
  datatype ShiftRow = ShiftRow(
    shiftId: ShiftId,
    careHomeId: string,
    date: string,
    startTime: string,
    endTime: string,
    role: string,
    hourlyRate: real,
    staffRequired: int,
    paidBreak: bool,
    requiredSkills: string,
    specialRequirements: string,
    status: Status,
    workerId: Option<string>,
    workerName: Option<string>)

  type Table = map<ShiftId, ShiftRow>

  /** The joined `carehomes(care_home_name, postcode)` columns; either may be null. */
  datatype CareHomeJoin = CareHomeJoin(careHomeName: Option<string>, postcode: Option<string>)

  /** A row as the worker screens fetch it, with the owning care home joined in (or missing). */
  datatype FetchedShift = FetchedShift(row: ShiftRow, careHome: Option<CareHomeJoin>)

  /** `value || "Unknown"`: a missing or empty text falls back to "Unknown". */
  function OrUnknown(v: Option<string>): (s: string)
    ensures v.None? || v.value == "" ==> s == "Unknown"
    ensures v.Some? && v.value != "" ==> s == v.value
  {
    if v.Some? && v.value != "" then v.value else "Unknown"
  }

  /** `shift.carehomes?.care_home_name || "Unknown"` */
  function CareHomeName(f: FetchedShift): string {
    OrUnknown(if f.careHome.Some? then f.careHome.value.careHomeName else None)
  }

  /** `shift.carehomes?.postcode || "Unknown"` */
  function CareHomePostcode(f: FetchedShift): string {
    OrUnknown(if f.careHome.Some? then f.careHome.value.postcode else None)
  }


  /** The query `.eq("care_home_id", id)`: the rows this care home owns, in table order. */
  function RowsOfCareHome(rows: seq<ShiftRow>, careHomeId: string): (mine: seq<ShiftRow>)
    ensures |mine| <= |rows|
    ensures forall i :: 0 <= i < |mine| ==> mine[i].careHomeId == careHomeId
    ensures forall r :: r in rows && r.careHomeId == careHomeId ==> r in mine
    ensures forall r :: r in mine ==> r in rows
  {
    if rows == [] then []
    else (if rows[0].careHomeId == careHomeId then [rows[0]] else []) + RowsOfCareHome(rows[1..], careHomeId)
  }

  /** The filter distributes over concatenation, so the kept rows stay in table order. */
  lemma {:induction false} RowsOfCareHomeAppend(a: seq<ShiftRow>, b: seq<ShiftRow>, careHomeId: string)
    ensures RowsOfCareHome(a + b, careHomeId) == RowsOfCareHome(a, careHomeId) + RowsOfCareHome(b, careHomeId)
  {
    if a == [] {
      assert a + b == b;
    } else {
      assert (a + b)[0] == a[0];
      assert (a + b)[1..] == a[1..] + b;
      RowsOfCareHomeAppend(a[1..], b, careHomeId);
    }
  }

  /** Each row sits under its own id. */
  predicate KeyedById(t: Table) {
    forall id :: id in t ==> t[id].shiftId == id
  }

  /**
   * `update({ status }).eq("shift_id", id)`: the matching row, whatever its current
   * status, gets the new status and keeps every other field; no other row changes; an
   * unknown id matches nothing.
   */
  function WithStatus(t: Table, id: ShiftId, status: Status): (r: Table)
    ensures r.Keys == t.Keys
    ensures id in t ==> r[id] == t[id].(status := status)
    ensures forall k :: k in t && k != id ==> r[k] == t[k]
    ensures KeyedById(t) ==> KeyedById(r)
  {
    if id in t then t[id := t[id].(status := status)] else t
  }

  /**
   * `update({ status: "pending", worker_id, worker_name }).eq("shift_id", id)`: the
   * matching row becomes pending with the applicant attached, replacing any earlier
   * applicant; the other fields and the other rows are untouched.
   */
  function WithApplicant(t: Table, id: ShiftId, workerId: string, workerName: string): (r: Table)
    ensures r.Keys == t.Keys
    ensures id in t ==> r[id].status == Pending
    ensures id in t ==> r[id].workerId == Some(workerId) && r[id].workerName == Some(workerName)
    ensures id in t ==> r[id] == t[id].(status := r[id].status, workerId := r[id].workerId, workerName := r[id].workerName)
    ensures forall k :: k in t && k != id ==> r[k] == t[k]
    ensures KeyedById(t) ==> KeyedById(r)
  {
    if id in t then t[id := t[id].(status := Pending, workerId := Some(workerId), workerName := Some(workerName))]
    else t
  }

  /** `insert([row])` under a fresh id: one row more, the existing rows untouched. */
  function WithNewShift(t: Table, row: ShiftRow): (r: Table)
    requires row.shiftId !in t
    ensures r.Keys == t.Keys + {row.shiftId}
    ensures r[row.shiftId] == row
    ensures forall k :: k in t ==> r[k] == t[k]
    ensures KeyedById(t) ==> KeyedById(r)
  {
    t[row.shiftId := row]
  }

  /** An application that arrives after the approval sends the approved shift back to pending. */
  lemma ApplyAfterApproveLosesApproval(t: Table, id: ShiftId, worker: string, name: string)
    requires id in t
    ensures WithApplicant(WithStatus(t, id, Approved), id, worker, name)[id].status == Pending
  {
  }

  /** Approve and reject are not guarded: the last decision simply wins. */
  lemma LastDecisionWins(t: Table, id: ShiftId, first: Status, second: Status)
    ensures WithStatus(WithStatus(t, id, first), id, second) == WithStatus(t, id, second)
  {
  }

  /** The `shifts` table, updated one atomic request at a time. */
  class ShiftTable {
    var rows: Table

    ghost predicate Valid()
      reads this
    {
      KeyedById(rows)
    }

    constructor (initial: Table)
      requires KeyedById(initial)
      ensures Valid() && rows == initial
    {
      rows := initial;
    }

    /** Sets one row's status; a failed request changes nothing. */
    method UpdateStatus(id: ShiftId, status: Status, fails: bool) returns (ok: bool)
      requires Valid()
      modifies this
      ensures Valid()
      ensures ok == !fails
      ensures rows == if fails then old(rows) else WithStatus(old(rows), id, status)
    {
      ok := !fails;
      if ok && id in rows {
        rows := rows[id := rows[id].(status := status)];
      }
    }

    /** Marks one row pending with the applicant; a failed request changes nothing. */
    method UpdateApplicant(id: ShiftId, workerId: string, workerName: string, fails: bool) returns (ok: bool)
      requires Valid()
      modifies this
      ensures Valid()
      ensures ok == !fails
      ensures rows == if fails then old(rows) else WithApplicant(old(rows), id, workerId, workerName)
    {
      ok := !fails;
      if ok && id in rows {
        var row := rows[id];
        rows := rows[id := row.(status := Pending, workerId := Some(workerId), workerName := Some(workerName))];
      }
    }

    /** Inserts a row under the id the data store assigned; a failed request changes nothing. */
    method Insert(row: ShiftRow, fails: bool) returns (ok: bool)
      requires Valid()
      requires row.shiftId !in rows
      modifies this
      ensures Valid()
      ensures ok == !fails
      ensures rows == if fails then old(rows) else WithNewShift(old(rows), row)
    {
      ok := !fails;
      if ok {
        rows := rows[row.shiftId := row];
      }
    }
  }
}
