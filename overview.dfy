/**
 * The care home dashboard's overview: the three headline metrics and the worker
 * availability bars.
 */
module Overview {
  import opened Wrappers
  import opened Shifts
  import opened Sessions
  import opened Grouping
  import ManageShifts

  const Urgent: Status := "urgent"

  datatype Metrics = Metrics(activeShifts: nat, availableWorkers: nat, urgentNeeds: nat)

  const InitialMetrics: Metrics := Metrics(0, 0, 0)

  /** `data.filter((s) => s.status === status).length` */
  function CountStatus(data: seq<ShiftRow>, status: Status): (n: nat)
    ensures n <= |data|
    ensures n == 0 <==> forall i :: 0 <= i < |data| ==> data[i].status != status
    ensures n == |data| <==> forall i :: 0 <= i < |data| ==> data[i].status == status
  {
    if data == [] then 0
    else (if data[0].status == status then 1 else 0) + CountStatus(data[1..], status)
  }

  lemma {:induction false} CountStatusAppend(a: seq<ShiftRow>, b: seq<ShiftRow>, status: Status)
    ensures CountStatus(a + b, status) == CountStatus(a, status) + CountStatus(b, status)
  {
    if a == [] {
      assert a + b == b;
    } else {
      assert (a + b)[1..] == a[1..] + b;
      CountStatusAppend(a[1..], b, status);
    }
  }

  /**
   * The "Active Shifts" count agrees with the size of the "active" tab of Manage
   * Shifts for the same rows (and likewise for any status).
   */
  lemma {:induction false} CountMatchesTab(data: seq<ShiftRow>, status: Status)
    ensures CountStatus(data, status) == |Bucket(ManageShifts.GroupShifts(data), status)|
  {
    ManageShifts.GroupShiftsBucket(data, status);
    CountIsSelectionSize(data, status);
  }

  lemma {:induction false} CountIsSelectionSize(data: seq<ShiftRow>, status: Status)
    ensures CountStatus(data, status) == |Selected(data, ManageShifts.StatusOf, status, ManageShifts.ManagedView)|
  {
    if data != [] {
      CountIsSelectionSize(data[1..], status);
    }
  }

  /**
   * `fetchMetrics`: nothing happens without a care-home id or when no data comes back;
   * otherwise the care home's active and urgent rows are counted and the worker figure
   * is the fixed 8.
   */
  function FetchMetrics(current: Metrics, session: Option<CareHomeSession>, table: Option<seq<ShiftRow>>): (m: Metrics)
    ensures !HasCareHomeId(session) || table.None? ==> m == current
    ensures HasCareHomeId(session) && table.Some? ==>
      var mine := RowsOfCareHome(table.value, session.value.careHomeId);
      m.availableWorkers == 8
      && m.activeShifts == |Bucket(ManageShifts.GroupShifts(mine), Active)|
      && m.urgentNeeds == |Selected(mine, ManageShifts.StatusOf, Urgent, ManageShifts.ManagedView)|
      && m.activeShifts + m.urgentNeeds <= |mine|
  {
    if !HasCareHomeId(session) || table.None? then current
    else
      var mine := RowsOfCareHome(table.value, session.value.careHomeId);
      CountsDisjoint(mine);
      CountMatchesTab(mine, Active);
      CountIsSelectionSize(mine, Urgent);
      Metrics(CountStatus(mine, Active), 8, CountStatus(mine, Urgent))
  }

  /** A row is active or urgent, never both, so the two counts never exceed the rows. */
  lemma {:induction false} CountsDisjoint(data: seq<ShiftRow>)
    ensures CountStatus(data, Active) + CountStatus(data, Urgent) <= |data|
  {
    if data != [] {
      CountsDisjoint(data[1..]);
    }
  }

  /** Signed out, the metrics keep their initial zeros. */
  lemma SignedOutMetrics(data: Option<seq<ShiftRow>>)
    ensures FetchMetrics(InitialMetrics, None, data) == Metrics(0, 0, 0)
  {
  }

  datatype BarColour = Red | Yellow | Green

  /** The availability bar's colour: below 30% red, below 60% yellow, else green. */
  function AvailabilityColour(available: int, total: int): (c: BarColour)
    ensures 0 <= total <= available ==> c == Green
    ensures available <= 0 < total ==> c == Red
  {
    if (available as real) < (total as real) * 0.3 then Red
    else if (available as real) < (total as real) * 0.6 then Yellow
    else Green
  }

  /** The colour thresholds in whole numbers: red iff 10a < 3t, yellow iff 3t <= 10a < 6t, else green. */
  lemma ColourThresholds(available: int, total: int)
    ensures AvailabilityColour(available, total) == Red <==> 10 * available < 3 * total
    ensures AvailabilityColour(available, total) == Yellow <==> 3 * total <= 10 * available < 6 * total
    ensures AvailabilityColour(available, total) == Green <==> 3 * total <= 10 * available && 6 * total <= 10 * available
    ensures total >= 0 ==> (AvailabilityColour(available, total) == Green <==> 6 * total <= 10 * available)
  {
    assert (available as real) < (total as real) * 0.3 <==> 10 * available < 3 * total;
    assert (available as real) < (total as real) * 0.6 <==> 10 * available < 6 * total;
  }

  /** More available workers never make the bar worse. */
  lemma ColourMonotone(a1: int, a2: int, total: int)
    requires a1 <= a2
    ensures AvailabilityColour(a1, total) == Green ==> AvailabilityColour(a2, total) == Green
    ensures AvailabilityColour(a2, total) == Red ==> AvailabilityColour(a1, total) == Red
  {
    ColourThresholds(a1, total);
    ColourThresholds(a2, total);
  }

  /** The bar width in percent, `available / total * 100`; undefined for a zero total. */
  function AvailabilityWidth(available: int, total: int): (w: Option<real>)
    ensures w.Some? <==> total != 0
    ensures w.Some? ==> w.value * (total as real) == (available as real) * 100.0
  {
    if total == 0 then None else Some((available as real) / (total as real) * 100.0)
  }

  /** The three bars as drawn: Morning 12/15 green at 80%, Afternoon 8/15 yellow, Night 5/10 yellow at 50%. */
  lemma AvailabilityBars()
    ensures AvailabilityColour(12, 15) == Green && AvailabilityWidth(12, 15) == Some(80.0)
    ensures AvailabilityColour(8, 15) == Yellow
    ensures AvailabilityColour(5, 10) == Yellow && AvailabilityWidth(5, 10) == Some(50.0)
  {
    ColourThresholds(12, 15);
    ColourThresholds(8, 15);
    ColourThresholds(5, 10);
  }
}
