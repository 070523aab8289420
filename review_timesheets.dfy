/**
 * The care home's "Timesheets" screen: sample timesheets in three status tabs and
 * the review dialog with its star rating, paid-break flag and comment.  Approve and
 * Reject only write to the console.
 */
module ReviewTimesheets {
  import opened Wrappers
  import ShiftHours

  datatype Timesheet = Timesheet(
    id: string,
    workerName: string,
    shiftDate: string,
    startTime: string,
    endTime: string,
    hoursWorked: real,
    hourlyRate: real,
    paidBreak: bool,
    status: string)

  /** `mockTimesheets`, keyed by tab. */
  const MockTimesheets: map<string, seq<Timesheet>> := map[
    "pending" := [
      Timesheet("TS001", "Sarah Johnson", "2024-03-20", "09:00", "17:00", 8.0, 15.0, true, "pending"),
      Timesheet("TS002", "Michael Chen", "2024-03-21", "14:00", "22:00", 8.0, 12.0, false, "pending")],
    "approved" := [
      Timesheet("TS003", "Emma Wilson", "2024-03-19", "07:00", "15:00", 8.0, 14.0, true, "approved")],
    "rejected" := [
      Timesheet("TS004", "John Davis", "2024-03-18", "15:00", "23:00", 8.0, 13.0, false, "rejected")]]

  /** Every sample timesheet sits in the tab named by its own status. */
  lemma MockBucketsConsistent()
    ensures MockTimesheets.Keys == {"pending", "approved", "rejected"}
    ensures forall k, i :: k in MockTimesheets && 0 <= i < |MockTimesheets[k]| ==> MockTimesheets[k][i].status == k
  {
  }

  /** The Total Amount cell and the dialog's total: hours worked × hourly rate. */
  function TotalAmount(t: Timesheet): (total: real)
    ensures t.hoursWorked >= 0.0 && t.hourlyRate >= 0.0 ==> total >= 0.0
    ensures t.hoursWorked == 0.0 || t.hourlyRate == 0.0 ==> total == 0.0
  {
    t.hoursWorked * t.hourlyRate
  }

  /** The total is the shift pay rule applied to the logged hours. */
  lemma TotalAmountIsPay(t: Timesheet)
    ensures ShiftHours.TimesRate(Some(t.hoursWorked), t.hourlyRate) == Some(TotalAmount(t))
  {
    var pay := ShiftHours.TimesRate(Some(t.hoursWorked), t.hourlyRate);
    assert pay.Some? && pay.value == TotalAmount(t);
  }

  /** At a fixed non-negative rate, more hours never give a smaller total. */
  lemma TotalAmountMonotone(t: Timesheet, u: Timesheet)
    requires u.hourlyRate == t.hourlyRate >= 0.0 && t.hoursWorked <= u.hoursWorked
    ensures TotalAmount(t) <= TotalAmount(u)
  {
    var extra := u.hoursWorked - t.hoursWorked;
    assert TotalAmount(u) == TotalAmount(t) + extra * t.hourlyRate;
    assert extra * t.hourlyRate >= 0.0;
  }

  /** The sample totals: 120, 96, 112 and 104. */
  lemma MockTotals()
    ensures TotalAmount(MockTimesheets["pending"][0]) == 120.0
    ensures TotalAmount(MockTimesheets["pending"][1]) == 96.0
    ensures TotalAmount(MockTimesheets["approved"][0]) == 112.0
    ensures TotalAmount(MockTimesheets["rejected"][0]) == 104.0
  {
  }

  /** The Break cell. */
  function BreakLabel(paidBreak: bool): (text: string)
    ensures text == "Paid" <==> paidBreak
    ensures text == "Unpaid" <==> !paidBreak
  {
    if paidBreak then "Paid" else "Unpaid"
  }

  /** `StarRating`: star `i` of 1..5 is drawn filled when it does not exceed the rating. */
  function Stars(rating: int): (filled: seq<bool>)
    ensures |filled| == 5
  {
    seq(5, i => i + 1 <= rating)
  }

  /** How many of the five stars are filled. */
  function FilledCount(filled: seq<bool>): nat {
    if filled == [] then 0 else (if filled[0] then 1 else 0) + FilledCount(filled[1..])
  }

  /** A rating between 0 and 5 fills exactly that many stars, the lowest ones. */
  lemma StarsFilled(rating: int)
    requires 0 <= rating <= 5
    ensures FilledCount(Stars(rating)) == rating
    ensures forall i :: 0 <= i < 5 ==> (Stars(rating)[i] <==> i < rating)
  {
    var s := Stars(rating);
    assert s == [1 <= rating, 2 <= rating, 3 <= rating, 4 <= rating, 5 <= rating];
    assert s[1..] == [2 <= rating, 3 <= rating, 4 <= rating, 5 <= rating];
    assert s[1..][1..] == [3 <= rating, 4 <= rating, 5 <= rating];
    assert s[1..][1..][1..] == [4 <= rating, 5 <= rating];
    assert s[1..][1..][1..][1..] == [5 <= rating];
    assert s[1..][1..][1..][1..][1..] == [];
    var s4 := s[1..][1..][1..][1..];
    assert FilledCount(s4) == (if 5 <= rating then 1 else 0) + FilledCount(s4[1..]);
    var s3 := s[1..][1..][1..];
    assert FilledCount(s3) == (if 4 <= rating then 1 else 0) + FilledCount(s4);
    var s2 := s[1..][1..];
    assert FilledCount(s2) == (if 3 <= rating then 1 else 0) + FilledCount(s3);
    assert FilledCount(s[1..]) == (if 2 <= rating then 1 else 0) + FilledCount(s2);
    assert FilledCount(s) == (if 1 <= rating then 1 else 0) + FilledCount(s[1..]);
  }

  /** The review state of one table. */
  class ReviewPanel {
    var selected: Option<Timesheet>
    var comment: string
    var rating: int
    var paidBreak: bool

    constructor ()
      ensures selected == None && comment == "" && rating == 0 && !paidBreak
    {
      selected := None;
      comment := "";
      rating := 0;
      paidBreak := false;
    }

    /** Review: selects the timesheet and copies its break flag; rating and comment carry over. */
    method OpenReview(t: Timesheet)
      modifies this
      ensures selected == Some(t) && paidBreak == t.paidBreak
      ensures rating == old(rating) && comment == old(comment)
    {
      selected := Some(t);
      paidBreak := t.paidBreak;
    }

    /** Clicking star `star` sets the rating to exactly that star. */
    method ClickStar(star: int)
      requires 1 <= star <= 5
      modifies this`rating
      ensures rating == star
      ensures FilledCount(Stars(rating)) == star
    {
      rating := star;
      StarsFilled(star);
    }

    method SetPaidBreak(checked: bool)
      modifies this`paidBreak
      ensures paidBreak == checked
    {
      paidBreak := checked;
    }

    method SetComment(text: string)
      modifies this`comment
      ensures comment == text
    {
      comment := text;
    }

    /** Approve and Reject only log: no state of the screen and no timesheet changes. */
    method Approve(timesheets: map<string, seq<Timesheet>>) returns (after: map<string, seq<Timesheet>>)
      ensures after == timesheets
    {
      after := timesheets;
    }

    method Reject(timesheets: map<string, seq<Timesheet>>) returns (after: map<string, seq<Timesheet>>)
      ensures after == timesheets
    {
      after := timesheets;
    }
  }

  /** Before any click no star is filled. */
  lemma NoStarsInitially()
    ensures forall i :: 0 <= i < 5 ==> !Stars(0)[i]
    ensures FilledCount(Stars(0)) == 0
  {
    StarsFilled(0);
  }
}
