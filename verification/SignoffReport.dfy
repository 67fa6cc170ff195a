/** The markdown evidence of a release signoff: its lines, and the writer (scripts/release/rc_signoff.py).
    Figures that the source formats as floats are given as text. */
module SignoffReport {
  import opened Values
  import Text

  datatype RunContext = RunContext(actor: string, repo: string, eventName: string, refName: string, commitSha: string,
                                   pullRequest: string, runId: string, runUrl: string)

  datatype GateResult = GateResult(name: string, command: seq<string>, ok: bool, exitCode: int, durationMs: nat, output: string)

  datatype SafetyResult = SafetyResult(enabled: bool, required: bool, command: seq<string>, ok: bool, exitCode: int,
                                       durationMs: nat, metaPath: string, output: string)

  datatype GovernanceResult = GovernanceResult(
    enabled: bool, advisoryOnly: bool, metricsPath: string, metricsAvailable: bool, costThreshold: string,
    rejectionThreshold: string, costRatio: Option<string>, rejectionRate: Option<string>, alerts: seq<string>,
    result: string, output: string)

  datatype SnapshotResult = SnapshotResult(
    enabled: bool, advisoryOnly: bool, path: string, available: bool, beforeCaptured: bool, afterCaptured: bool,
    runsBefore: Option<int>, runsAfter: Option<int>, output: string)

  datatype UiResult = UiResult(enabled: bool, advisoryOnly: bool, path: string, available: bool, result: string,
                               stagesPassed: Option<int>, stagesFailed: Option<int>, output: string)

  /** Everything the writer is given; `evidence` is the list of required evidence links. */
  datatype Report = Report(
    startedAt: string, endedAt: string, context: RunContext, evidence: seq<string>, missing: seq<string>,
    gates: seq<GateResult>, safety: SafetyResult, governance: GovernanceResult, snapshots: SnapshotResult, ui: UiResult)

  type Pairs = seq<(string, string)>

  // ----- Lines -----

  function Field(key: string, value: string): string {
    "- " + key + ": `" + value + "`"
  }

  function Truth(b: bool): string {
    if b then "true" else "false"
  }

  function PassFail(ok: bool): string {
    if ok then "PASS" else "FAIL"
  }

  function OrNA(value: Option<string>): string {
    if value.Some? then value.value else "n/a"
  }

  function CountOrNA(value: Option<int>): string {
    if value.Some? then Text.Numeral(value.value) else "n/a"
  }

  function FieldLines(pairs: Pairs): (lines: seq<string>)
    ensures |lines| == |pairs|
    ensures forall i :: 0 <= i < |pairs| ==> lines[i] == Field(pairs[i].0, pairs[i].1)
  {
    if pairs == [] then [] else [Field(pairs[0].0, pairs[0].1)] + FieldLines(pairs[1..])
  }

  function LinkLine(path: string, present: bool): string {
    (if present then "- [OK] `" else "- [MISSING] `") + path + "`"
  }

  function LinkLines(evidence: seq<string>, missing: seq<string>): (lines: seq<string>)
    ensures |lines| == |evidence|
    ensures forall i :: 0 <= i < |evidence| ==> lines[i] == LinkLine(evidence[i], evidence[i] !in missing)
  {
    if evidence == [] then []
    else [LinkLine(evidence[0], evidence[0] !in missing)] + LinkLines(evidence[1..], missing)
  }

  function GateLine(name: string, ok: bool): string {
    "### " + name + (if ok then ": PASS" else ": FAIL")
  }

  /** What is fenced at the end of a block; the output is one entry even when it holds several lines. */
  function Fence(output: string): seq<string> {
    ["```text", if output == "" then "(no output)" else output, "```", ""]
  }

  // ----- Blocks -----

  function ContextPairs(c: RunContext): Pairs {
    [("Actor", c.actor), ("Repository", c.repo), ("Event", c.eventName), ("Ref", c.refName), ("Commit", c.commitSha),
     ("PR Number", c.pullRequest), ("Run ID", c.runId), ("Run URL", c.runUrl)]
  }

  function GatePairs(g: GateResult): Pairs {
    [("Command", Text.Join(g.command, " ")), ("Exit Code", Text.Numeral(g.exitCode)), ("Duration Ms", Text.Digits(g.durationMs))]
  }

  function SafetySwitches(s: SafetyResult): Pairs {
    [("Enabled", Truth(s.enabled)), ("Required", Truth(s.required))]
  }

  function SafetyMode(s: SafetyResult): Pairs {
    [("Mode", if s.required then "required" else "advisory")]
  }

  function SafetyRun(s: SafetyResult): Pairs {
    [("Command", Text.Join(s.command, " ")), ("Exit Code", Text.Numeral(s.exitCode)), ("Duration Ms", Text.Digits(s.durationMs))]
  }

  function SafetyVerdict(s: SafetyResult): Pairs {
    [("Result", PassFail(s.ok)), ("Meta Path", s.metaPath)]
  }

  function SafetyPairs(s: SafetyResult): Pairs {
    SafetySwitches(s) + SafetyMode(s) + SafetyRun(s) + SafetyVerdict(s)
  }

  function GovernanceSwitches(g: GovernanceResult): Pairs {
    [("Enabled", Truth(g.enabled)), ("Advisory Only", Truth(g.advisoryOnly))]
  }

  function GovernanceFile(g: GovernanceResult): Pairs {
    [("Metrics Path", g.metricsPath), ("Metrics Available", Truth(g.metricsAvailable))]
  }

  function GovernanceThresholds(g: GovernanceResult): Pairs {
    [("Cost Utilization Threshold", g.costThreshold), ("Rejection Rate Threshold", g.rejectionThreshold)]
  }

  function GovernanceRates(g: GovernanceResult): Pairs {
    [("Cost Utilization Ratio", OrNA(g.costRatio)), ("Rejection Rate", OrNA(g.rejectionRate))]
  }

  function GovernanceAlerts(g: GovernanceResult): Pairs {
    [("Alert Count", Text.Digits(|g.alerts|)), ("Alerts", AlertText(g.alerts))]
  }

  function AlertText(alerts: seq<string>): string {
    if alerts != [] then Text.Join(alerts, ", ") else "none"
  }

  function GovernancePairs(g: GovernanceResult): Pairs {
    GovernanceSwitches(g) + GovernanceFile(g) + GovernanceThresholds(g) + GovernanceRates(g) + GovernanceAlerts(g)
    + [("Result", g.result)]
  }

  function SnapshotSwitches(s: SnapshotResult): Pairs {
    [("Enabled", Truth(s.enabled)), ("Advisory Only", Truth(s.advisoryOnly))]
  }

  function SnapshotFile(s: SnapshotResult): Pairs {
    [("Snapshot Path", s.path), ("Available", Truth(s.available))]
  }

  function SnapshotCaptures(s: SnapshotResult): Pairs {
    [("Before Captured", Truth(s.beforeCaptured)), ("After Captured", Truth(s.afterCaptured))]
  }

  function SnapshotTotals(s: SnapshotResult): Pairs {
    [("Before Runs Total", CountOrNA(s.runsBefore)), ("After Runs Total", CountOrNA(s.runsAfter))]
  }

  function SnapshotPairs(s: SnapshotResult): Pairs {
    SnapshotSwitches(s) + SnapshotFile(s) + SnapshotCaptures(s) + SnapshotTotals(s)
  }

  function UiSwitches(u: UiResult): Pairs {
    [("Enabled", Truth(u.enabled)), ("Advisory Only", Truth(u.advisoryOnly))]
  }

  function UiFile(u: UiResult): Pairs {
    [("Artifact Path", u.path), ("Available", Truth(u.available))]
  }

  function UiTotals(u: UiResult): Pairs {
    [("Stages Passed Total", CountOrNA(u.stagesPassed)), ("Stages Failed Total", CountOrNA(u.stagesFailed))]
  }

  function UiPairs(u: UiResult): Pairs {
    UiSwitches(u) + UiFile(u) + [("Result", u.result)] + UiTotals(u)
  }

  function Block(heading: string, pairs: Pairs, output: string): seq<string> {
    [heading] + FieldLines(pairs) + Fence(output)
  }

  function GateBlock(g: GateResult): seq<string> {
    Block(GateLine(g.name, g.ok), GatePairs(g), g.output)
  }

  function GateBlocks(gates: seq<GateResult>): seq<string> {
    if gates == [] then [] else GateBlocks(gates[..|gates| - 1]) + GateBlock(gates[|gates| - 1])
  }

  function OverallPass(r: Report): bool {
    r.missing == [] && (forall g <- r.gates :: g.ok) && !(r.safety.required && !r.safety.ok)
  }

  function Preamble(r: Report): seq<string> {
    ["# Release Candidate Signoff Evidence", "", Field("Started", r.startedAt), Field("Ended", r.endedAt), "",
     "## Execution Context"]
  }

  function Links(r: Report): seq<string> {
    ["## Required Evidence Links"] + LinkLines(r.evidence, r.missing) + ["", "## Gate Results"]
  }

  function Closing(r: Report): seq<string> {
    ["## Overall", Field("Result", PassFail(OverallPass(r))), ""]
  }

  /** The sections after the gates, and what comes last. */
  function SectionsWith(r: Report, closing: seq<string>): seq<string> {
    Block("## Local Data Safety", SafetyPairs(r.safety), r.safety.output)
    + (Block("## Governance Alerts", GovernancePairs(r.governance), r.governance.output)
       + (Block("## Runtime Snapshots", SnapshotPairs(r.snapshots), r.snapshots.output)
          + (Block("## UI E2E Automation", UiPairs(r.ui), r.ui.output) + closing)))
  }

  function LinesWith(r: Report, closing: seq<string>): seq<string> {
    Preamble(r)
    + (FieldLines(ContextPairs(r.context))
       + ([""] + (Links(r) + (GateBlocks(r.gates) + SectionsWith(r, closing)))))
  }

  function ReportLines(r: Report): seq<string> {
    LinesWith(r, Closing(r))
  }

  // ----- Required links -----

  /** The paths that are not there, in order. */
  function AbsentAmong(evidence: seq<string>, present: set<string>): seq<string> {
    if evidence == [] then []
    else
      AbsentAmong(evidence[..|evidence| - 1], present)
      + (if evidence[|evidence| - 1] in present then [] else [evidence[|evidence| - 1]])
  }

  lemma {:induction false} AbsentMembers(evidence: seq<string>, present: set<string>, path: string)
    ensures path in AbsentAmong(evidence, present) <==> path in evidence && path !in present
    decreases |evidence|
  {
    if evidence != [] {
      var n := |evidence| - 1;
      AbsentMembers(evidence[..n], present, path);
      assert evidence == evidence[..n] + [evidence[n]];
    }
  }

  method EnsureRequiredLinks(evidence: seq<string>, present: set<string>) returns (missing: seq<string>)
    ensures missing == AbsentAmong(evidence, present)
    ensures forall path :: path in missing <==> path in evidence && path !in present
  {
    missing := [];
    for i := 0 to |evidence|
      invariant missing == AbsentAmong(evidence[..i], present)
    {
      assert evidence[..i + 1][..i] == evidence[..i];
      if evidence[i] !in present {
        missing := missing + [evidence[i]];
      }
    }
    assert evidence[..|evidence|] == evidence;
    forall path {
      AbsentMembers(evidence, present, path);
    }
  }

  // ----- The writer -----

  lemma GateBlocksSnoc(gates: seq<GateResult>, i: nat)
    requires i < |gates|
    ensures GateBlocks(gates[..i + 1]) == GateBlocks(gates[..i]) + GateBlock(gates[i])
  {
    assert gates[..i + 1][..i] == gates[..i];
  }

  method WriteGates(gates: seq<GateResult>) returns (lines: seq<string>, allOk: bool)
    ensures lines == GateBlocks(gates)
    ensures allOk <==> forall g <- gates :: g.ok
  {
    lines, allOk := [], true;
    for i := 0 to |gates|
      invariant lines == GateBlocks(gates[..i])
      invariant allOk <==> forall j :: 0 <= j < i ==> gates[j].ok
    {
      GateBlocksSnoc(gates, i);
      lines := lines + GateBlock(gates[i]);
      allOk := allOk && gates[i].ok;
    }
    assert gates[..|gates|] == gates;
  }

  method WriteLinks(evidence: seq<string>, missing: seq<string>) returns (lines: seq<string>)
    ensures lines == LinkLines(evidence, missing)
  {
    lines := [];
    for i := 0 to |evidence|
      invariant |lines| == i
      invariant forall j :: 0 <= j < i ==> lines[j] == LinkLine(evidence[j], evidence[j] !in missing)
    {
      lines := lines + [LinkLine(evidence[i], evidence[i] !in missing)];
    }
  }

  /** Appending in order builds the nested concatenation. */
  lemma AppendedIsNested(a: seq<string>, b: seq<string>, c: seq<string>, d: seq<string>, e: seq<string>)
    ensures a + b + c + d + e == a + (b + (c + (d + e)))
  {
  }

  method WriteSections(r: Report, overallPass: bool) returns (lines: seq<string>)
    requires overallPass == OverallPass(r)
    ensures lines == SectionsWith(r, Closing(r))
  {
    var safety := Block("## Local Data Safety", SafetyPairs(r.safety), r.safety.output);
    var governance := Block("## Governance Alerts", GovernancePairs(r.governance), r.governance.output);
    var snapshots := Block("## Runtime Snapshots", SnapshotPairs(r.snapshots), r.snapshots.output);
    var ui := Block("## UI E2E Automation", UiPairs(r.ui), r.ui.output);
    var closing := ["## Overall", Field("Result", PassFail(overallPass)), ""];
    AppendedIsNested(safety, governance, snapshots, ui, closing);
    lines := safety;
    lines := lines + governance;
    lines := lines + snapshots;
    lines := lines + ui;
    lines := lines + closing;
  }

  method WriteReport(r: Report) returns (text: string)
    ensures text == Text.Join(ReportLines(r), "\n")
  {
    var links := WriteLinks(r.evidence, r.missing);
    links := ["## Required Evidence Links"] + links + ["", "## Gate Results"];
    var gates, overallPass := WriteGates(r.gates);
    overallPass := r.missing == [] && overallPass;
    if r.safety.required && !r.safety.ok {
      overallPass := false;
    }
    var sections := WriteSections(r, overallPass);
    var preamble, context := Preamble(r), FieldLines(ContextPairs(r.context));
    AppendedIsNested(preamble, context, [""], links, gates + sections);
    var lines := preamble;
    lines := lines + context;
    lines := lines + [""];
    lines := lines + links;
    lines := lines + (gates + sections);
    text := Text.Join(lines, "\n");
  }
}
