/**
 * The care home's "Incident Reports" screen: the sample incidents in three status
 * tabs, the colour and label helpers of the table, and the witness checkboxes of the
 * report form.
 */
module IncidentReports {
  import opened Checklist
  import opened JsStrings

  /** `getSeverityColor` */
  function SeverityColor(severity: string): (colour: string)
    ensures colour in {"bg-blue-500", "bg-yellow-500", "bg-orange-500", "bg-red-500", "bg-gray-500"}
  {
    match severity
    case "minor" => "bg-blue-500"
    case "moderate" => "bg-yellow-500"
    case "serious" => "bg-orange-500"
    case "severe" => "bg-red-500"
    case _ => "bg-gray-500"
  }

  /** `getStatusColor` */
  function StatusColor(status: string): (colour: string)
    ensures colour in {"text-red-500", "text-green-500", "text-gray-500"}
  {
    match status
    case "reported" => "text-red-500"
    case "resolved" => "text-green-500"
    case "dismissed" => "text-gray-500"
    case _ => "text-gray-500"
  }

  /**
   * The four severities get four different colours; any other text falls back to
   * gray, which none of the four uses.
   */
  lemma SeverityColours(s: string)
    ensures SeverityColor("minor") == "bg-blue-500" && SeverityColor("moderate") == "bg-yellow-500"
    ensures SeverityColor("serious") == "bg-orange-500" && SeverityColor("severe") == "bg-red-500"
    ensures s !in {"minor", "moderate", "serious", "severe"} ==> SeverityColor(s) == "bg-gray-500"
    ensures SeverityColor(s) == "bg-gray-500" <==> s !in {"minor", "moderate", "serious", "severe"}
  {
  }

  /** Reported is red and resolved green; dismissed shares the gray of the fallback. */
  lemma StatusColours(s: string)
    ensures StatusColor("reported") == "text-red-500" && StatusColor("resolved") == "text-green-500"
    ensures StatusColor("dismissed") == "text-gray-500"
    ensures s !in {"reported", "resolved"} ==> StatusColor(s) == "text-gray-500"
    ensures StatusColor(s) == "text-gray-500" <==> s !in {"reported", "resolved"}
  {
  }

  /** `s.indexOf(c)`: the first position holding `c`, or -1. */
  function IndexOf(s: string, c: char): (i: int)
    ensures -1 <= i < |s|
    ensures i == -1 <==> c !in s
    ensures i >= 0 ==> s[i] == c && c !in s[..i]
  {
    if s == [] then -1
    else if s[0] == c then 0
    else
      var j := IndexOf(s[1..], c);
      if j == -1 then -1
      else
        assert s[..j + 1] == [s[0]] + s[1..][..j];
        j + 1
  }

  /** The first occurrence is unique: any position holding `c` with none before it is the index. */
  lemma IndexOfUnique(s: string, c: char, i: int)
    requires 0 <= i < |s| && s[i] == c && c !in s[..i]
    ensures IndexOf(s, c) == i
  {
  }

  /** `s.replace("_", " ")`: with a string pattern only the first underscore is replaced. */
  function ReplaceFirstUnderscore(s: string): (r: string)
    ensures |r| == |s|
    ensures '_' !in s ==> r == s
    ensures '_' in s ==> r[IndexOf(s, '_')] == ' '
    ensures forall k :: 0 <= k < |s| && k != IndexOf(s, '_') ==> r[k] == s[k]
  {
    var i := IndexOf(s, '_');
    seq(|s|, k requires 0 <= k < |s| => if k == i then ' ' else s[k])
  }

  /** Whatever follows the first underscore, further underscores included, is kept as it is. */
  lemma {:induction false} ReplaceAfterPrefix(a: string, b: string)
    requires '_' !in a
    ensures ReplaceFirstUnderscore(a + "_" + b) == a + " " + b
  {
    var s := a + "_" + b;
    assert s[..|a|] == a;
    IndexOfUnique(s, '_', |a|);
    var r := ReplaceFirstUnderscore(s);
    forall k | 0 <= k < |s|
      ensures r[k] == (a + " " + b)[k]
    {
    }
  }

  /** The type labels as shown in the table. */
  lemma BehaviourLabel()
    ensures ReplaceFirstUnderscore("unprofessional_behavior") == "unprofessional behavior"
  {
    ReplaceAfterPrefix("unprofessional", "behavior");
    assert "unprofessional" + "_" + "behavior" == "unprofessional_behavior";
    assert "unprofessional" + " " + "behavior" == "unprofessional behavior";
  }

  lemma ViolationLabel()
    ensures ReplaceFirstUnderscore("policy_violation") == "policy violation"
  {
    ReplaceAfterPrefix("policy", "violation");
    assert "policy" + "_" + "violation" == "policy_violation";
    assert "policy" + " " + "violation" == "policy violation";
  }

  /** A label without an underscore is kept; of two underscores only the first becomes a space. */
  lemma OnlyFirstUnderscore()
    ensures ReplaceFirstUnderscore("negligence") == "negligence"
    ensures ReplaceFirstUnderscore("a_b_c") == "a b_c"
  {
    ReplaceAfterPrefix("a", "b_c");
    assert "a" + "_" + "b_c" == "a_b_c";
    assert "a" + " " + "b_c" == "a b_c";
  }

  /** `s.charAt(0).toUpperCase() + s.slice(1)` */
  function Capitalize(s: string): (r: string)
    ensures |r| == |s|
    ensures s != [] ==> r[0] == UpperChar(s[0]) && r[1..] == s[1..]
  {
    if s == [] then "" else [UpperChar(s[0])] + s[1..]
  }

  /** Capitalising twice is capitalising once; the labels read as in the table. */
  lemma CapitalizeLabels(s: string)
    ensures Capitalize(Capitalize(s)) == Capitalize(s)
    ensures Capitalize("moderate") == "Moderate" && Capitalize("reported") == "Reported"
  {
  }

  datatype Worker = Worker(id: string, name: string, role: string)

  datatype Incident = Incident(
    id: string, date: string, time: string, location: string, reportedBy: string,
    kind: string, severity: string, status: string, accused: Worker, witnesses: seq<Worker>)

  const MockWorkers: seq<Worker> := [
    Worker("W001", "Sarah Johnson", "Registered Nurse"),
    Worker("W002", "Michael Chen", "Care Assistant"),
    Worker("W003", "Emma Wilson", "Senior Nurse"),
    Worker("W004", "John Davis", "Support Worker")]

  const MockIncidents: map<string, seq<Incident>> := map[
    "reported" := [
      Incident("INC001", "2024-03-20", "09:30", "Ward B", "Emma Wilson", "unprofessional_behavior", "moderate", "reported",
               MockWorkers[1], [MockWorkers[0], MockWorkers[2]]),
      Incident("INC002", "2024-03-19", "15:45", "Medication Room", "John Davis", "negligence", "serious", "reported",
               MockWorkers[3], [MockWorkers[2]])],
    "resolved" := [],
    "dismissed" := []]

  /** Each sample incident's status is the key of its tab; resolved and dismissed are empty. */
  lemma MockIncidentsConsistent()
    ensures MockIncidents.Keys == {"reported", "resolved", "dismissed"}
    ensures forall k, i :: k in MockIncidents && 0 <= i < |MockIncidents[k]| ==> MockIncidents[k][i].status == k
    ensures MockIncidents["resolved"] == [] && MockIncidents["dismissed"] == []
  {
  }

  /** A witness box is ticked iff the worker's id is in the list. */
  predicate WitnessChecked(witnesses: seq<string>, workerId: string) {
    workerId in witnesses
  }

  /** Ticking a witness box ticks it; unticking it unticks it and leaves the other boxes as they were. */
  lemma WitnessToggle(witnesses: seq<string>, workerId: string, other: string, checked: bool)
    ensures WitnessChecked(Toggle(witnesses, workerId, checked), workerId) == checked
    ensures other != workerId ==>
      (WitnessChecked(Toggle(witnesses, workerId, false), other) <==> WitnessChecked(witnesses, other))
  {
    if other != workerId {
      UncheckKeepsOthers(witnesses, workerId, other);
    }
  }
}
