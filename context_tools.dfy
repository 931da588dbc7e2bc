/**
 * The shared context of an autonomous backend-analysis session and the five
 * tool functions the agents call on it. The context is a string-keyed
 * mapping updated in place; here each key the session uses is a field of
 * `ProjectContext`, `None` standing for a key that is not (yet) present.
 * `Ctx` is the value of all those fields at one moment, and the pure
 * `With...` functions say what each tool makes of it.
 */
module ContextTools {
  import opened Wrappers
  import opened Strings

  datatype TaskEntry = TaskEntry(timestamp: string, task: string, details: string, completedBy: string)
  datatype FindingEntry = FindingEntry(timestamp: string, finding: string, severity: string, discoveredBy: string)
  datatype RecommendationEntry =
    RecommendationEntry(timestamp: string, recommendation: string, priority: string, effort: string, createdBy: string)
  datatype StatusEntry = StatusEntry(timestamp: string, status: string, notes: string)

  /** The `final_summary` record. */
  datatype Summary = Summary(
    project: Option<string>,
    sessionDuration: string,
    tasksCompleted: nat,
    findingsDiscovered: nat,
    recommendationsMade: nat,
    criticalIssues: nat,
    highPriorityActions: nat,
    analysisDepth: Option<string>)

  /** The context's keys at one moment. */
  datatype Ctx = Ctx(
    sessionStart: Option<string>,
    projectName: Option<string>,
    tasksCompleted: Option<seq<TaskEntry>>,
    findings: Option<seq<FindingEntry>>,
    recommendations: Option<seq<RecommendationEntry>>,
    statusHistory: Option<seq<StatusEntry>>,
    taskCount: Option<int>,
    lastTask: Option<string>,
    analysisDepth: Option<string>,
    priorityLevel: Option<string>,
    currentStatus: Option<string>,
    finalSummary: Option<Summary>)

  const DefaultProjectName := "Backend Performance Analysis"

  /** The context a session starts from; `configuredName` is the `project_name` configuration entry. */
  function InitialCtx(now: string, configuredName: Option<string>): Ctx {
    Ctx(Some(now), Some(configuredName.GetOr(DefaultProjectName)), Some([]), Some([]), Some([]), None,
        Some(0), None, Some("initial"), Some("high"), None, None)
  }

  /** Severities that deepen the analysis. */
  predicate Serious(severity: string) {
    severity == "high" || severity == "critical"
  }

  /**
   * What the tools keep true of the derived keys: `task_count` and
   * `last_task` follow the task list, `analysis_depth` is "deep" once a
   * serious finding exists, and `current_status` is the latest status.
   */
  predicate Consistent(c: Ctx) {
    && (c.tasksCompleted.Some? ==>
          var tasks := c.tasksCompleted.value;
          c.taskCount == Some(|tasks|) && (tasks != [] ==> c.lastTask == Some(tasks[|tasks| - 1].task)))
    && (forall i :: 0 <= i < |OrEmpty(c.findings)| && Serious(OrEmpty(c.findings)[i].severity) ==>
          c.analysisDepth == Some("deep"))
    && (OrEmpty(c.statusHistory) != [] ==>
          c.currentStatus == Some(OrEmpty(c.statusHistory)[|OrEmpty(c.statusHistory)| - 1].status))
  }

  lemma InitialIsConsistent(now: string, configuredName: Option<string>)
    ensures Consistent(InitialCtx(now, configuredName))
    ensures InitialCtx(now, configuredName).analysisDepth == Some("initial")
  {
  }

  // ---------------------------------------------------------------------
  // The tools as functions of the context
  // ---------------------------------------------------------------------

  /** `log_task_completion`: a missing list counts as empty. */
  function WithTaskLogged(c: Ctx, now: string, taskName: string, details: string): (r: Ctx)
    ensures var before := OrEmpty(c.tasksCompleted);
            && r.tasksCompleted.Some?
            && |r.tasksCompleted.value| == |before| + 1
            && r.tasksCompleted.value[..|before|] == before
            && r.tasksCompleted.value[|before|] == TaskEntry(now, taskName, details, "coordinator")
    ensures r.taskCount == Some(|OrEmpty(c.tasksCompleted)| + 1)
    ensures r.lastTask == Some(taskName)
    ensures r.(tasksCompleted := c.tasksCompleted, taskCount := c.taskCount, lastTask := c.lastTask) == c
    ensures Consistent(c) ==> Consistent(r)
  {
    var tasks := OrEmpty(c.tasksCompleted) + [TaskEntry(now, taskName, details, "coordinator")];
    c.(tasksCompleted := Some(tasks), taskCount := Some(|tasks|), lastTask := Some(taskName))
  }

  /** `record_finding`: "deep" exactly for a serious severity, otherwise the depth is kept. */
  function WithFinding(c: Ctx, now: string, finding: string, severity: string): (r: Ctx)
    ensures var before := OrEmpty(c.findings);
            && r.findings.Some?
            && |r.findings.value| == |before| + 1
            && r.findings.value[..|before|] == before
            && r.findings.value[|before|] == FindingEntry(now, finding, severity, "analyst")
    ensures Serious(severity) ==> r.analysisDepth == Some("deep")
    ensures !Serious(severity) ==> r.analysisDepth == c.analysisDepth
    ensures r.(findings := c.findings, analysisDepth := c.analysisDepth) == c
    ensures Consistent(c) ==> Consistent(r)
  {
    var findings := OrEmpty(c.findings) + [FindingEntry(now, finding, severity, "analyst")];
    var r := c.(findings := Some(findings));
    if Serious(severity) then r.(analysisDepth := Some("deep")) else r
  }

  /** `create_recommendation`. */
  function WithRecommendation(c: Ctx, now: string, recommendation: string, priority: string, effort: string): (r: Ctx)
    ensures var before := OrEmpty(c.recommendations);
            && r.recommendations.Some?
            && |r.recommendations.value| == |before| + 1
            && r.recommendations.value[..|before|] == before
            && r.recommendations.value[|before|] ==
                 RecommendationEntry(now, recommendation, priority, effort, "strategist")
    ensures r.(recommendations := c.recommendations) == c
    ensures Consistent(c) ==> Consistent(r)
  {
    var recs := OrEmpty(c.recommendations) + [RecommendationEntry(now, recommendation, priority, effort, "strategist")];
    c.(recommendations := Some(recs))
  }

  /** `update_project_status`. */
  function WithStatus(c: Ctx, now: string, status: string, notes: string): (r: Ctx)
    ensures var before := OrEmpty(c.statusHistory);
            && r.statusHistory.Some?
            && |r.statusHistory.value| == |before| + 1
            && r.statusHistory.value[..|before|] == before
            && r.statusHistory.value[|before|] == StatusEntry(now, status, notes)
    ensures r.currentStatus == Some(status)
    ensures r.(statusHistory := c.statusHistory, currentStatus := c.currentStatus) == c
    ensures Consistent(c) ==> Consistent(r)
  {
    var history := OrEmpty(c.statusHistory) + [StatusEntry(now, status, notes)];
    c.(statusHistory := Some(history), currentStatus := Some(status))
  }

  /** The positions of `xs` whose element `keep` accepts. */
  function KeptIndices<T>(xs: seq<T>, keep: T -> bool): set<int> {
    set i | 0 <= i < |xs| && keep(xs[i])
  }

  lemma KeptIndicesSnoc<T>(xs: seq<T>, keep: T -> bool)
    requires xs != []
    ensures var n := |xs| - 1;
            |KeptIndices(xs, keep)| == |KeptIndices(xs[..n], keep)| + (if keep(xs[n]) then 1 else 0)
  {
    var n := |xs| - 1;
    var before := KeptIndices(xs[..n], keep);
    assert KeptIndices(xs, keep) == before + (if keep(xs[n]) then {n} else {});
    assert n !in before;
  }

  /**
   * A list comprehension `[x for x in xs if keep(x)]`: every element `keep`
   * accepts, as often as it occurs, and no other; one entry per accepted
   * position.
   */
  function Filter<T(==,!new)>(xs: seq<T>, keep: T -> bool): (r: seq<T>)
    ensures |r| <= |xs|
    ensures |r| == |KeptIndices(xs, keep)|
    ensures forall x :: multiset(r)[x] == (if keep(x) then multiset(xs)[x] else 0)
    decreases |xs|
  {
    if xs == [] then []
    else
      var n := |xs| - 1;
      var rest := Filter(xs[..n], keep);
      KeptIndicesSnoc(xs, keep);
      assert xs == xs[..n] + [xs[n]];
      assert multiset(xs) == multiset(xs[..n]) + multiset{xs[n]};
      if keep(xs[n]) then rest + [xs[n]] else rest
  }

  /** Filtering keeps the order: filtering a concatenation concatenates the filtered parts. */
  lemma {:induction false} FilterAppend<T(!new)>(a: seq<T>, b: seq<T>, keep: T -> bool)
    ensures Filter(a + b, keep) == Filter(a, keep) + Filter(b, keep)
    decreases |b|
  {
    if b == [] {
      assert a + b == a;
    } else {
      var n := |b| - 1;
      assert (a + b)[..|a + b| - 1] == a + b[..n];
      assert (a + b)[|a + b| - 1] == b[n];
      FilterAppend(a, b[..n], keep);
    }
  }

  /** A single element is kept exactly when `keep` accepts it. */
  lemma FilterSingle<T(!new)>(x: T, keep: T -> bool)
    ensures Filter([x], keep) == if keep(x) then [x] else []
  {
    assert [x][..0] == [];
  }

  predicate IsCritical(f: FindingEntry) {
    f.severity == "critical"
  }

  predicate IsHighPriority(x: RecommendationEntry) {
    x.priority == "high"
  }

  /** The findings whose severity is exactly "critical". */
  function CriticalFindings(findings: seq<FindingEntry>): (r: seq<FindingEntry>)
    ensures |r| <= |findings|
    ensures |r| == |set i | 0 <= i < |findings| && IsCritical(findings[i])|
    ensures forall f :: f in r <==> f in findings && IsCritical(f)
    ensures forall f :: multiset(r)[f] == (if IsCritical(f) then multiset(findings)[f] else 0)
  {
    var r := Filter(findings, IsCritical);
    assert KeptIndices(findings, IsCritical) == set i | 0 <= i < |findings| && IsCritical(findings[i]);
    r
  }

  /** The recommendations whose priority is exactly "high". */
  function HighPriorityRecommendations(recs: seq<RecommendationEntry>): (r: seq<RecommendationEntry>)
    ensures |r| <= |recs|
    ensures |r| == |set i | 0 <= i < |recs| && IsHighPriority(recs[i])|
    ensures forall x :: x in r <==> x in recs && IsHighPriority(x)
    ensures forall x :: multiset(r)[x] == (if IsHighPriority(x) then multiset(recs)[x] else 0)
  {
    var r := Filter(recs, IsHighPriority);
    assert KeptIndices(recs, IsHighPriority) == set i | 0 <= i < |recs| && IsHighPriority(recs[i]);
    r
  }

  /** The report `generate_summary_report` builds from the context. */
  function SummaryOf(c: Ctx): (s: Summary)
    ensures s.project == c.projectName && s.analysisDepth == c.analysisDepth
    ensures s.sessionDuration == "calculated_from_start_time"
    ensures s.tasksCompleted == |OrEmpty(c.tasksCompleted)|
    ensures s.findingsDiscovered == |OrEmpty(c.findings)|
    ensures s.recommendationsMade == |OrEmpty(c.recommendations)|
    ensures s.criticalIssues == |set i | 0 <= i < |OrEmpty(c.findings)| && IsCritical(OrEmpty(c.findings)[i])|
    ensures s.highPriorityActions ==
              |set i | 0 <= i < |OrEmpty(c.recommendations)| && IsHighPriority(OrEmpty(c.recommendations)[i])|
    ensures s.criticalIssues <= s.findingsDiscovered
    ensures s.highPriorityActions <= s.recommendationsMade
    ensures s.criticalIssues == 0 <==> forall i :: 0 <= i < |OrEmpty(c.findings)| ==> !IsCritical(OrEmpty(c.findings)[i])
  {
    var critical := CriticalFindings(OrEmpty(c.findings));
    assert critical != [] ==> critical[0] in critical;
    Summary(c.projectName, "calculated_from_start_time",
            |OrEmpty(c.tasksCompleted)|, |OrEmpty(c.findings)|, |OrEmpty(c.recommendations)|,
            |critical|, |HighPriorityRecommendations(OrEmpty(c.recommendations))|,
            c.analysisDepth)
  }

  /** `generate_summary_report`: `final_summary` is the only key written. */
  function WithSummary(c: Ctx): (r: Ctx)
    ensures r.finalSummary == Some(SummaryOf(c))
    ensures r.(finalSummary := c.finalSummary) == c
    ensures Consistent(c) ==> Consistent(r)
  {
    c.(finalSummary := Some(SummaryOf(c)))
  }

  // ---------------------------------------------------------------------
  // The messages the tools return to the calling agent
  // ---------------------------------------------------------------------

  function TaskLoggedMessage(taskName: string, details: string): string {
    "Task logged: " + taskName + " - " + details
  }

  function FindingMessage(finding: string, severity: string): string {
    "Finding recorded: " + finding + " (Severity: " + severity + ")"
  }

  function RecommendationMessage(recommendation: string, priority: string, effort: string): string {
    "Recommendation created: " + recommendation + " (Priority: " + priority + ", Effort: " + effort + ")"
  }

  function SummaryMessage(s: Summary): string {
    "Summary report generated: " + NatToString(s.tasksCompleted) + " tasks, "
      + NatToString(s.findingsDiscovered) + " findings, "
      + NatToString(s.recommendationsMade) + " recommendations"
  }

  function StatusMessage(status: string): string {
    "Project status updated to: " + status
  }

  // ---------------------------------------------------------------------
  // Sequences of tool calls
  // ---------------------------------------------------------------------

  /** One tool call with its arguments (and the time it was made). */
  datatype ToolCall =
    | LogTask(now: string, taskName: string, details: string)
    | Finding(now: string, finding: string, severity: string)
    | Recommend(now: string, recommendation: string, priority: string, effort: string)
    | Report
    | Status(now: string, status: string, notes: string)

  function Apply(c: Ctx, call: ToolCall): Ctx {
    match call
    case LogTask(now, taskName, details) => WithTaskLogged(c, now, taskName, details)
    case Finding(now, finding, severity) => WithFinding(c, now, finding, severity)
    case Recommend(now, recommendation, priority, effort) => WithRecommendation(c, now, recommendation, priority, effort)
    case Report => WithSummary(c)
    case Status(now, status, notes) => WithStatus(c, now, status, notes)
  }

  function Run(c: Ctx, calls: seq<ToolCall>): Ctx
    decreases |calls|
  {
    if calls == [] then c else Run(Apply(c, calls[0]), calls[1..])
  }

  function CountTasks(calls: seq<ToolCall>): nat {
    if calls == [] then 0 else (if calls[0].LogTask? then 1 else 0) + CountTasks(calls[1..])
  }

  function CountFindings(calls: seq<ToolCall>): nat {
    if calls == [] then 0 else (if calls[0].Finding? then 1 else 0) + CountFindings(calls[1..])
  }

  function CountRecommendations(calls: seq<ToolCall>): nat {
    if calls == [] then 0 else (if calls[0].Recommend? then 1 else 0) + CountRecommendations(calls[1..])
  }

  /** Any sequence of tool calls keeps the derived keys consistent. */
  lemma {:induction false} RunKeepsConsistent(c: Ctx, calls: seq<ToolCall>)
    requires Consistent(c)
    ensures Consistent(Run(c, calls))
    decreases |calls|
  {
    if calls != [] {
      RunKeepsConsistent(Apply(c, calls[0]), calls[1..]);
    }
  }

  /** One call grows a list by one exactly when it appends to that list. */
  lemma ApplyCounts(c: Ctx, call: ToolCall)
    ensures |OrEmpty(Apply(c, call).tasksCompleted)| == |OrEmpty(c.tasksCompleted)| + (if call.LogTask? then 1 else 0)
    ensures |OrEmpty(Apply(c, call).findings)| == |OrEmpty(c.findings)| + (if call.Finding? then 1 else 0)
    ensures |OrEmpty(Apply(c, call).recommendations)| ==
              |OrEmpty(c.recommendations)| + (if call.Recommend? then 1 else 0)
  {
  }

  /** Each list grows by exactly the number of calls that append to it. */
  lemma {:induction false} RunCounts(c: Ctx, calls: seq<ToolCall>)
    ensures |OrEmpty(Run(c, calls).tasksCompleted)| == |OrEmpty(c.tasksCompleted)| + CountTasks(calls)
    ensures |OrEmpty(Run(c, calls).findings)| == |OrEmpty(c.findings)| + CountFindings(calls)
    ensures |OrEmpty(Run(c, calls).recommendations)| == |OrEmpty(c.recommendations)| + CountRecommendations(calls)
    decreases |calls|
  {
    if calls != [] {
      ApplyCounts(c, calls[0]);
      RunCounts(Apply(c, calls[0]), calls[1..]);
      assert Run(c, calls) == Run(Apply(c, calls[0]), calls[1..]);
    }
  }

  /** A report made at the end of a session counts every task, finding and recommendation the session logged. */
  lemma ReportCountsSession(now: string, configuredName: Option<string>, calls: seq<ToolCall>)
    ensures var s := SummaryOf(Run(InitialCtx(now, configuredName), calls));
            && s.tasksCompleted == CountTasks(calls)
            && s.findingsDiscovered == CountFindings(calls)
            && s.recommendationsMade == CountRecommendations(calls)
  {
    RunCounts(InitialCtx(now, configuredName), calls);
  }

  /** Once "deep", the analysis depth stays "deep" whatever tools run next. */
  lemma {:induction false} DeepIsFinal(c: Ctx, calls: seq<ToolCall>)
    requires c.analysisDepth == Some("deep")
    ensures Run(c, calls).analysisDepth == Some("deep")
    decreases |calls|
  {
    if calls != [] {
      DeepIsFinal(Apply(c, calls[0]), calls[1..]);
    }
  }

  // ---------------------------------------------------------------------
  // The context object the tools update in place
  // ---------------------------------------------------------------------

  class ProjectContext {
    var sessionStart: Option<string>
    var projectName: Option<string>
    var tasksCompleted: Option<seq<TaskEntry>>
    var findings: Option<seq<FindingEntry>>
    var recommendations: Option<seq<RecommendationEntry>>
    var statusHistory: Option<seq<StatusEntry>>
    var taskCount: Option<int>
    var lastTask: Option<string>
    var analysisDepth: Option<string>
    var priorityLevel: Option<string>
    var currentStatus: Option<string>
    var finalSummary: Option<Summary>

    function State(): Ctx
      reads this
    {
      Ctx(sessionStart, projectName, tasksCompleted, findings, recommendations, statusHistory,
          taskCount, lastTask, analysisDepth, priorityLevel, currentStatus, finalSummary)
    }

    /** The context `run_autonomous_analysis` creates. */
    constructor Initial(now: string, configuredName: Option<string>)
      ensures State() == InitialCtx(now, configuredName)
      ensures Consistent(State())
    {
      sessionStart := Some(now);
      projectName := Some(configuredName.GetOr(DefaultProjectName));
      tasksCompleted := Some([]);
      findings := Some([]);
      recommendations := Some([]);
      statusHistory := None;
      taskCount := Some(0);
      lastTask := None;
      analysisDepth := Some("initial");
      priorityLevel := Some("high");
      currentStatus := None;
      finalSummary := None;
    }

    method LogTaskCompletion(now: string, taskName: string, details: string) returns (msg: string)
      modifies this
      ensures State() == WithTaskLogged(old(State()), now, taskName, details)
      ensures msg == TaskLoggedMessage(taskName, details)
    {
      var tasks := OrEmpty(tasksCompleted);
      tasks := tasks + [TaskEntry(now, taskName, details, "coordinator")];
      tasksCompleted := Some(tasks);
      taskCount := Some(|tasks|);
      lastTask := Some(taskName);
      msg := TaskLoggedMessage(taskName, details);
    }

    /** `severity` is "medium" when the agent does not give one. */
    method RecordFinding(now: string, finding: string, severity: string := "medium") returns (msg: string)
      modifies this
      ensures State() == WithFinding(old(State()), now, finding, severity)
      ensures msg == FindingMessage(finding, severity)
    {
      var entries := OrEmpty(findings);
      entries := entries + [FindingEntry(now, finding, severity, "analyst")];
      findings := Some(entries);
      if Serious(severity) {
        analysisDepth := Some("deep");
      }
      msg := FindingMessage(finding, severity);
    }

    /** `priority` defaults to "medium" and `effort` to "unknown". */
    method CreateRecommendation(now: string, recommendation: string, priority: string := "medium",
                                effort: string := "unknown") returns (msg: string)
      modifies this
      ensures State() == WithRecommendation(old(State()), now, recommendation, priority, effort)
      ensures msg == RecommendationMessage(recommendation, priority, effort)
    {
      var entries := OrEmpty(recommendations);
      entries := entries + [RecommendationEntry(now, recommendation, priority, effort, "strategist")];
      recommendations := Some(entries);
      msg := RecommendationMessage(recommendation, priority, effort);
    }

    method GenerateSummaryReport() returns (msg: string)
      modifies this
      ensures State() == WithSummary(old(State()))
      ensures msg == SummaryMessage(SummaryOf(old(State())))
    {
      var summary := SummaryOf(State());
      finalSummary := Some(summary);
      msg := SummaryMessage(summary);
    }

    /** `notes` defaults to the empty string. */
    method UpdateProjectStatus(now: string, status: string, notes: string := "") returns (msg: string)
      modifies this
      ensures State() == WithStatus(old(State()), now, status, notes)
      ensures msg == StatusMessage(status)
    {
      var history := OrEmpty(statusHistory);
      history := history + [StatusEntry(now, status, notes)];
      statusHistory := Some(history);
      currentStatus := Some(status);
      msg := StatusMessage(status);
    }
  }
}
