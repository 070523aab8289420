/**
 * The care home's "Reports" screen: four report kinds, each with its own list of
 * metrics, and the custom-report form with a report-type select and one checkbox
 * per metric of the chosen kind.
 */
module Reports {
  import opened Wrappers
  import opened Checklist

  /** `ReportType` */
  datatype ReportType = Incidents | Shifts | Workers | Timesheets

  datatype ReportConfig = ReportConfig(kind: ReportType, title: string, description: string, metrics: seq<string>)

  const ReportConfigs: seq<ReportConfig> := [
    ReportConfig(Incidents, "Incident Reports", "Analyze worker misconduct, complaints, and resolutions",
      ["Total incidents", "Incidents by type", "Resolution rate", "Average resolution time", "Repeat offenders",
       "Severity distribution"]),
    ReportConfig(Shifts, "Shift Analytics", "Track shift patterns, coverage, and worker performance",
      ["Shift completion rate", "Worker punctuality", "Overtime hours", "Shift cancellations", "Coverage gaps"]),
    ReportConfig(Workers, "Worker Performance", "Evaluate worker ratings, reliability, and history",
      ["Average ratings", "Attendance rate", "Incident involvement", "Shift preferences", "Qualifications"]),
    ReportConfig(Timesheets, "Timesheet Analysis", "Review work hours, payments, and attendance patterns",
      ["Total hours worked", "Overtime trends", "Payment summaries", "Break compliance", "Time tracking accuracy"])]

  /** The state of the custom-report form. */
  datatype ReportForm = ReportForm(selectedType: ReportType, selectedMetrics: seq<string>)

  const InitialReportForm: ReportForm := ReportForm(Incidents, [])

  /** The position `find` stops at: the first config of the kind, or -1. */
  function FirstIndex(configs: seq<ReportConfig>, kind: ReportType): (i: int)
    ensures -1 <= i < |configs|
    ensures i == -1 <==> forall j :: 0 <= j < |configs| ==> configs[j].kind != kind
    ensures i >= 0 ==> configs[i].kind == kind && forall j :: 0 <= j < i ==> configs[j].kind != kind
  {
    if configs == [] then -1
    else if configs[0].kind == kind then 0
    else
      var j := FirstIndex(configs[1..], kind);
      if j == -1 then -1 else j + 1
  }

  /** `reportConfigs.find((config) => config.type === selectedType)` */
  function FindConfig(configs: seq<ReportConfig>, kind: ReportType): (found: Option<ReportConfig>)
    ensures found.None? <==> forall c :: c in configs ==> c.kind != kind
    ensures found.Some? ==> found.value in configs && found.value.kind == kind
    ensures found.Some? ==> found.value == configs[FirstIndex(configs, kind)]
  {
    var i := FirstIndex(configs, kind);
    if i < 0 then None else Some(configs[i])
  }

  /** `currentConfig` */
  function CurrentConfig(form: ReportForm): (config: Option<ReportConfig>)
    ensures config.Some? ==> config.value in ReportConfigs && config.value.kind == form.selectedType
  {
    FindConfig(ReportConfigs, form.selectedType)
  }

  /** Every report type has a config, so the metric checkboxes are always drawn. */
  lemma CurrentConfigDefined(form: ReportForm)
    ensures CurrentConfig(form).Some? && CurrentConfig(form).value.kind == form.selectedType
    ensures CurrentConfig(form).value == ReportConfigs[FirstIndex(ReportConfigs, form.selectedType)]
  {
    match form.selectedType
    case Incidents => assert ReportConfigs[0].kind == Incidents;
    case Shifts => assert ReportConfigs[1].kind == Shifts;
    case Workers => assert ReportConfigs[2].kind == Workers;
    case Timesheets => assert ReportConfigs[3].kind == Timesheets;
  }

  /** The form opens on the incident report with six metrics, none of them checked. */
  lemma InitialForm(metric: string)
    ensures CurrentConfig(InitialReportForm).Some?
    ensures CurrentConfig(InitialReportForm).value.title == "Incident Reports"
    ensures |CurrentConfig(InitialReportForm).value.metrics| == 6
    ensures !MetricChecked(InitialReportForm, metric)
  {
    assert ReportConfigs[0].kind == Incidents;
  }

  /** `checked={selectedMetrics.includes(metric)}` */
  predicate MetricChecked(form: ReportForm, metric: string) {
    metric in form.selectedMetrics
  }

  /** `onValueChange`: the type changes and the checked metrics stay as they were. */
  function ChangeType(form: ReportForm, kind: ReportType): (r: ReportForm)
    ensures r.selectedType == kind
    ensures forall m :: MetricChecked(r, m) <==> MetricChecked(form, m)
  {
    form.(selectedType := kind)
  }

  /** `onCheckedChange` of one metric's checkbox. */
  function ToggleMetric(form: ReportForm, metric: string, checked: bool): (r: ReportForm)
    ensures r.selectedType == form.selectedType
    ensures MetricChecked(r, metric) == checked
    ensures checked ==> r.selectedMetrics == form.selectedMetrics + [metric]
  {
    form.(selectedMetrics := Toggle(form.selectedMetrics, metric, checked))
  }

  /**
   * Unchecking one metric leaves every other checkbox as it was, and checking then
   * unchecking a metric that was not checked restores the selection.
   */
  lemma ToggleMetricLaws(form: ReportForm, metric: string, other: string)
    ensures other != metric ==> (MetricChecked(ToggleMetric(form, metric, false), other) <==> MetricChecked(form, other))
    ensures !MetricChecked(form, metric) ==> ToggleMetric(ToggleMetric(form, metric, true), metric, false) == form
  {
    if other != metric {
      UncheckKeepsOthers(form.selectedMetrics, metric, other);
    }
    if !MetricChecked(form, metric) {
      CheckUncheck(form.selectedMetrics, metric);
    }
  }

  /**
   * A metric checked under one report type stays selected after switching to a type
   * whose config does not list it.
   */
  lemma HiddenMetricStaysSelected()
    ensures var form := ChangeType(ToggleMetric(InitialReportForm, "Total incidents", true), Shifts);
      MetricChecked(form, "Total incidents")
      && CurrentConfig(form).Some? && "Total incidents" !in CurrentConfig(form).value.metrics
  {
    var form := ChangeType(ToggleMetric(InitialReportForm, "Total incidents", true), Shifts);
    CurrentConfigDefined(form);
    assert FirstIndex(ReportConfigs, Shifts) == 1;
  }
}
