/** The report of a release: its three gates, its data-safety check and its required links. */
module SignoffRelease {
  import opened Values
  import opened SignoffReport
  import opened SignoffParser
  import opened SignoffRoundTrip
  import opened SignoffTheorems
  import opened SignoffVerdict
  import opened SignoffGates
  import opened SignoffParts
  import Text

  // ----- The commands of a release -----

  const ARCHITECTURE := "scripts/architecture/"
  const RELEASE := "scripts/release/"

  const PYTEST_ARGUMENTS := ["-m", "pytest", "-q"]
  const LAYERS_ARGUMENTS := [ARCHITECTURE + "validate_layers.py"]
  const IMPORTS_ARGUMENTS := [ARCHITECTURE + "scan_forbidden_imports.py"]
  const DATA_SAFETY_ARGUMENTS := [RELEASE + "local_data_safety.py", "validate", "--meta-out", ".local/db-validate-meta.json"]

  /** The name of a gate and what its command hands to the interpreter. */
  predicate RunsGate(exe: string, g: GateResult, name: string, arguments: seq<string>) {
    g.name == name && g.command == [exe] + arguments
  }

  /** The results of the three release gates, run with one interpreter; verdicts, exit codes, durations and outputs
      are any. */
  predicate AreReleaseGates(exe: string, gates: seq<GateResult>) {
    && |gates| == 3
    && RunsGate(exe, gates[0], "pytest", PYTEST_ARGUMENTS)
    && RunsGate(exe, gates[1], "validate_layers", LAYERS_ARGUMENTS)
    && RunsGate(exe, gates[2], "scan_forbidden_imports", IMPORTS_ARGUMENTS)
  }

  lemma {:induction false} JoinStarts(exe: string, script: string, more: seq<string>)
    ensures exe + " " + script <= Text.Join([exe] + ([script] + more), " ")
  {
    assert ([exe] + ([script] + more))[1..] == [script] + more;
    assert ([script] + more)[1..] == more;
  }

  /** The last gate runs another script than the data-safety check. */
  lemma CommandsDiffer(exe: string)
    ensures Text.Join([exe] + IMPORTS_ARGUMENTS, " ") != Text.Join([exe] + DATA_SAFETY_ARGUMENTS, " ")
  {
    var scan, validate := IMPORTS_ARGUMENTS[0], DATA_SAFETY_ARGUMENTS[0];
    assert IMPORTS_ARGUMENTS == [scan] + IMPORTS_ARGUMENTS[1..];
    assert DATA_SAFETY_ARGUMENTS == [validate] + DATA_SAFETY_ARGUMENTS[1..];
    ScriptsDiffer();
    DifferentScripts(exe, scan, IMPORTS_ARGUMENTS[1..], validate, DATA_SAFETY_ARGUMENTS[1..]);
  }

  lemma ScriptsDiffer()
    ensures IMPORTS_ARGUMENTS[0][8] == 'a' && |IMPORTS_ARGUMENTS[0]| > 8
    ensures DATA_SAFETY_ARGUMENTS[0][8] == 'r' && |DATA_SAFETY_ARGUMENTS[0]| > 8
  {
    assert ARCHITECTURE[8] == 'a' && RELEASE[8] == 'r';
  }

  lemma {:induction false} DifferentScripts(exe: string, a: string, x: seq<string>, b: string, y: seq<string>)
    requires |a| > 8 && |b| > 8 && a[8] != b[8]
    ensures Text.Join([exe] + ([a] + x), " ") != Text.Join([exe] + ([b] + y), " ")
  {
    JoinStarts(exe, a, x);
    JoinStarts(exe, b, y);
    var s, t := exe + " " + a, exe + " " + b;
    assert s[|exe| + 9] == a[8] && t[|exe| + 9] == b[8];
  }

  /** No release report gets its gates back from its own text: the last one is read with the command of the
      data-safety check. */
  lemma ReleaseGatesNeverComeBack(r: Report, exe: string)
    requires Printable(r) && AreReleaseGates(exe, r.gates) && r.safety.command == [exe] + DATA_SAFETY_ARGUMENTS
    ensures WrittenAndParsed(r).gates != GatesBack(r.gates)
    ensures var gates := WrittenAndParsed(r).gates;
      |gates| == 3 && gates[2].name == r.gates[2].name && gates[2].command == Text.Join(r.safety.command, " ")
  {
    CommandsDiffer(exe);
    LastGateComesBackIff(r);
    ParseUndoesWrite(r);
  }

  // ----- The required links -----

  const PLANS := "docs/plans/"
  const OPERATIONS := "docs/operations/"
  const ROADMAP := "docs/roadmap/"

  const REQUIRED_EVIDENCE_LINKS := [
    PLANS + "tenant-tool-execution-architecture.md",
    OPERATIONS + "byoc-artifact-integrity-dashboard.md",
    PLANS + "docs-inventory-master.md",
    OPERATIONS + "release-candidate-signoff-checklist.md",
    ROADMAP + "alignment-audit-schema.md"
  ]

  lemma DirectoriesPrint()
    ensures Text.IsOneLine(PLANS) && Text.IsOneLine(OPERATIONS) && Text.IsOneLine(ROADMAP)
  {
  }

  lemma PlansPrint()
    ensures Text.IsOneLine("tenant-tool-execution-architecture.md") && Text.IsOneLine("docs-inventory-master.md")
  {
  }

  lemma DashboardPrints()
    ensures Text.IsOneLine("byoc-artifact-integrity-dashboard.md")
  {
  }

  lemma ChecklistPrints()
    ensures Text.IsOneLine("release-candidate-signoff-checklist.md")
  {
  }

  lemma RequiredLinksPrint(i: nat)
    requires i < |REQUIRED_EVIDENCE_LINKS|
    ensures Text.IsOneLine(REQUIRED_EVIDENCE_LINKS[i])
  {
    DirectoriesPrint();
    PlansPrint();
    DashboardPrints();
    ChecklistPrints();
    match i
    case 0 => OneLineConcat(PLANS, "tenant-tool-execution-architecture.md");
    case 1 => OneLineConcat(OPERATIONS, "byoc-artifact-integrity-dashboard.md");
    case 2 => OneLineConcat(PLANS, "docs-inventory-master.md");
    case 3 => OneLineConcat(OPERATIONS, "release-candidate-signoff-checklist.md");
    case _ => OneLineConcat(ROADMAP, "alignment-audit-schema.md");
  }

  // ----- The rest of a plain report -----

  const PLAIN_CONTEXT := RunContext("", "", "", "", "", "", "", "")
  const PLAIN_GOVERNANCE := GovernanceResult(true, true, "", false, "0.9", "0.1", None, None, [], "PASS", "")
  const PLAIN_SNAPSHOTS := SnapshotResult(true, true, "", false, false, false, None, None, "")
  const PLAIN_UI := UiResult(true, true, "", false, "PASS", None, None, "")

  function ReleaseSafety(exe: string): SafetyResult {
    SafetyResult(true, false, [exe] + DATA_SAFETY_ARGUMENTS, true, 0, 0, ".local/db-validate-meta.json", "")
  }

  lemma NoOutputIsQuiet(place: Place)
    ensures AreQuiet(place, OutputLines(""))
  {
    var shown := "(no output)";
    assert Text.IsOneLine(shown);
    Text.OneLineSplits(shown);
    Text.StripIsIdentity(shown);
    assert shown[0] == '(';
    assert IsQuiet(place, shown);
  }

  lemma PairPrints(a: string, x: string, b: string, y: string)
    requires Text.IsOneLine(a) && Text.IsOneLine(x) && Text.IsOneLine(b) && Text.IsOneLine(y)
    ensures OneLinePairs([(a, x), (b, y)])
  {
  }

  lemma PairsConcat(a: Pairs, b: Pairs)
    requires OneLinePairs(a) && OneLinePairs(b)
    ensures OneLinePairs(a + b)
  {
  }

  lemma PlainContextPrints()
    ensures OneLinePairs(ContextPairs(PLAIN_CONTEXT))
  {
    var a, b := [("Actor", ""), ("Repository", "")], [("Event", ""), ("Ref", "")];
    var c, d := [("Commit", ""), ("PR Number", "")], [("Run ID", ""), ("Run URL", "")];
    PlainSourcePrints();
    PlainRunContextPrints();
    assert ContextPairs(PLAIN_CONTEXT) == a + b + c + d;
    PairsConcat(a, b);
    PairsConcat(a + b, c);
    PairsConcat(a + b + c, d);
  }

  lemma PlainSourcePrints()
    ensures OneLinePairs([("Actor", ""), ("Repository", "")]) && OneLinePairs([("Event", ""), ("Ref", "")])
  {
    PairPrints("Actor", "", "Repository", "");
    PairPrints("Event", "", "Ref", "");
  }

  lemma PlainRunContextPrints()
    ensures OneLinePairs([("Commit", ""), ("PR Number", "")]) && OneLinePairs([("Run ID", ""), ("Run URL", "")])
  {
    PairPrints("Commit", "", "PR Number", "");
    PairPrints("Run ID", "", "Run URL", "");
  }

  lemma ReleaseSafetyPrints(exe: string)
    requires Text.IsOneLine(exe)
    ensures OneLinePairs(SafetyPairs(ReleaseSafety(exe)))
  {
    var s := ReleaseSafety(exe);
    SafetyVerdictPrints(exe);
    SafetyModePrints(exe);
    SafetyRunPrints(exe);
    PairsConcat(SafetySwitches(s), SafetyMode(s));
    PairsConcat(SafetySwitches(s) + SafetyMode(s), SafetyRun(s));
    PairsConcat(SafetySwitches(s) + SafetyMode(s) + SafetyRun(s), SafetyVerdict(s));
  }

  lemma SafetyVerdictPrints(exe: string)
    ensures OneLinePairs(SafetySwitches(ReleaseSafety(exe))) && OneLinePairs(SafetyVerdict(ReleaseSafety(exe)))
  {
    OptionsPrint();
    PairPrints("Enabled", "true", "Required", "false");
    PairPrints("Result", "PASS", "Meta Path", ".local/db-validate-meta.json");
  }

  lemma SafetyModePrints(exe: string)
    ensures OneLinePairs(SafetyMode(ReleaseSafety(exe)))
  {
    assert Text.IsOneLine("Mode") && Text.IsOneLine("advisory");
  }

  lemma SafetyRunPrints(exe: string)
    requires Text.IsOneLine(exe)
    ensures OneLinePairs(SafetyRun(ReleaseSafety(exe)))
  {
    SafetyArgumentsPrint();
    JoinIsOneLine([exe] + DATA_SAFETY_ARGUMENTS);
    RunPrints([exe] + DATA_SAFETY_ARGUMENTS, 0, 0);
  }

  lemma PlainSwitchesPrint()
    ensures OneLinePairs(GovernanceSwitches(PLAIN_GOVERNANCE)) && OneLinePairs(GovernanceFile(PLAIN_GOVERNANCE))
    ensures OneLinePairs(SnapshotSwitches(PLAIN_SNAPSHOTS)) && OneLinePairs(UiSwitches(PLAIN_UI))
  {
    PairPrints("Enabled", "true", "Advisory Only", "true");
    PairPrints("Metrics Path", "", "Metrics Available", "false");
  }

  lemma PlainCapturesPrint()
    ensures OneLinePairs(SnapshotFile(PLAIN_SNAPSHOTS)) && OneLinePairs(SnapshotCaptures(PLAIN_SNAPSHOTS))
  {
    PairPrints("Snapshot Path", "", "Available", "false");
    PairPrints("Before Captured", "false", "After Captured", "false");
  }

  lemma PlainTotalsPrint()
    ensures OneLinePairs(SnapshotTotals(PLAIN_SNAPSHOTS)) && OneLinePairs(UiFile(PLAIN_UI)) && OneLinePairs(UiTotals(PLAIN_UI))
  {
    PairPrints("Before Runs Total", "n/a", "After Runs Total", "n/a");
    PairPrints("Artifact Path", "", "Available", "false");
    PairPrints("Stages Passed Total", "n/a", "Stages Failed Total", "n/a");
  }

  lemma PlainFiguresPrint()
    ensures OneLinePairs(GovernanceThresholds(PLAIN_GOVERNANCE)) && OneLinePairs(GovernanceRates(PLAIN_GOVERNANCE))
  {
    PairPrints("Cost Utilization Threshold", "0.9", "Rejection Rate Threshold", "0.1");
    PairPrints("Cost Utilization Ratio", "n/a", "Rejection Rate", "n/a");
  }

  lemma PlainAlertsPrint()
    ensures OneLinePairs(GovernanceAlerts(PLAIN_GOVERNANCE)) && OneLinePairs([("Result", PLAIN_GOVERNANCE.result)])
  {
    PairPrints("Alert Count", "0", "Alerts", "none");
  }

  lemma PlainGovernancePrints()
    ensures OneLinePairs(GovernancePairs(PLAIN_GOVERNANCE))
  {
    var g := PLAIN_GOVERNANCE;
    PlainSwitchesPrint();
    PlainFiguresPrint();
    PlainAlertsPrint();
    PairsConcat(GovernanceSwitches(g), GovernanceFile(g));
    PairsConcat(GovernanceSwitches(g) + GovernanceFile(g), GovernanceThresholds(g));
    PairsConcat(GovernanceSwitches(g) + GovernanceFile(g) + GovernanceThresholds(g), GovernanceRates(g));
    var front := GovernanceSwitches(g) + GovernanceFile(g) + GovernanceThresholds(g) + GovernanceRates(g);
    PairsConcat(front, GovernanceAlerts(g));
    PairsConcat(front + GovernanceAlerts(g), [("Result", g.result)]);
  }

  lemma PlainSnapshotsPrint()
    ensures OneLinePairs(SnapshotPairs(PLAIN_SNAPSHOTS))
  {
    var s := PLAIN_SNAPSHOTS;
    PlainSwitchesPrint();
    PlainCapturesPrint();
    PlainTotalsPrint();
    PairsConcat(SnapshotSwitches(s), SnapshotFile(s));
    PairsConcat(SnapshotSwitches(s) + SnapshotFile(s), SnapshotCaptures(s));
    PairsConcat(SnapshotSwitches(s) + SnapshotFile(s) + SnapshotCaptures(s), SnapshotTotals(s));
  }

  lemma PlainUiPrints()
    ensures OneLinePairs(UiPairs(PLAIN_UI))
  {
    var u := PLAIN_UI;
    PlainSwitchesPrint();
    PlainTotalsPrint();
    PairsConcat(UiSwitches(u), UiFile(u));
    assert OneLinePairs([("Result", u.result)]);
    PairsConcat(UiSwitches(u) + UiFile(u), [("Result", u.result)]);
    PairsConcat(UiSwitches(u) + UiFile(u) + [("Result", u.result)], UiTotals(u));
  }

  // ----- Release reports that print cleanly -----

  lemma {:induction false} JoinIsOneLine(parts: seq<string>)
    requires forall i :: 0 <= i < |parts| ==> Text.IsOneLine(parts[i])
    ensures Text.IsOneLine(Text.Join(parts, " "))
  {
    if |parts| > 1 {
      JoinIsOneLine(parts[1..]);
      assert Text.IsOneLine(" ");
      OneLineConcat(parts[0], " ");
      OneLineConcat(parts[0] + " ", Text.Join(parts[1..], " "));
    }
  }

  lemma {:induction false} RunPrints(command: seq<string>, exitCode: int, durationMs: nat)
    requires Text.IsOneLine(Text.Join(command, " "))
    ensures OneLinePairs([("Command", Text.Join(command, " ")), ("Exit Code", Text.Numeral(exitCode)),
                          ("Duration Ms", Text.Digits(durationMs))])
  {
    Text.NumeralIsPlain(exitCode);
    Text.DigitsArePlain(durationMs);
    assert Text.IsOneLine("Command") && Text.IsOneLine("Exit Code") && Text.IsOneLine("Duration Ms");
  }

  lemma ArchitecturePrints()
    ensures Text.IsOneLine(ARCHITECTURE) && Text.IsOneLine(RELEASE) && Text.IsOneLine("validate_layers.py")
  {
  }

  lemma ScriptsPrint()
    ensures Text.IsOneLine("scan_forbidden_imports.py") && Text.IsOneLine("local_data_safety.py")
  {
  }

  lemma OptionsPrint()
    ensures Text.IsOneLine("validate") && Text.IsOneLine("--meta-out") && Text.IsOneLine(".local/db-validate-meta.json")
    ensures Text.IsOneLine("-m") && Text.IsOneLine("pytest") && Text.IsOneLine("-q")
  {
  }

  predicate AreOneLine(parts: seq<string>) {
    forall i :: 0 <= i < |parts| ==> Text.IsOneLine(parts[i])
  }

  lemma SafetyArgumentsPrint()
    ensures AreOneLine(DATA_SAFETY_ARGUMENTS)
  {
    ArchitecturePrints();
    ScriptsPrint();
    OptionsPrint();
    OneLineConcat(RELEASE, "local_data_safety.py");
  }

  lemma GateArgumentsPrint()
    ensures AreOneLine(PYTEST_ARGUMENTS) && AreOneLine(LAYERS_ARGUMENTS) && AreOneLine(IMPORTS_ARGUMENTS)
  {
    ArchitecturePrints();
    ScriptsPrint();
    OptionsPrint();
    OneLineConcat(ARCHITECTURE, "validate_layers.py");
    OneLineConcat(ARCHITECTURE, "scan_forbidden_imports.py");
  }

  lemma GatePrints(exe: string, g: GateResult, name: string, arguments: seq<string>)
    requires RunsGate(exe, g, name, arguments) && Text.IsOneLine(exe) && Text.IsOneLine(name) && AreOneLine(arguments)
    ensures OneLineGate(g)
  {
    JoinIsOneLine(g.command);
    RunPrints(g.command, g.exitCode, g.durationMs);
  }

  lemma NamesPrint()
    ensures IsKey("pytest") && Text.IsOneLine("pytest") && IsKey("validate_layers") && Text.IsOneLine("validate_layers")
    ensures IsKey("scan_forbidden_imports") && Text.IsOneLine("scan_forbidden_imports")
  {
  }

  lemma ReleaseGatesPrint(exe: string, gates: seq<GateResult>)
    requires Text.IsOneLine(exe) && AreReleaseGates(exe, gates)
    ensures AreNamed(gates) && forall i :: 0 <= i < |gates| ==> OneLineGate(gates[i])
  {
    NamesPrint();
    GateArgumentsPrint();
    GatePrints(exe, gates[0], "pytest", PYTEST_ARGUMENTS);
    GatePrints(exe, gates[1], "validate_layers", LAYERS_ARGUMENTS);
    GatePrints(exe, gates[2], "scan_forbidden_imports", IMPORTS_ARGUMENTS);
  }

  /** A release report on the given gates; the sections show no output. */
  function ReleaseReport(exe: string, missing: seq<string>, gates: seq<GateResult>): Report {
    Report("", "", PLAIN_CONTEXT, REQUIRED_EVIDENCE_LINKS, missing, gates, ReleaseSafety(exe), PLAIN_GOVERNANCE, PLAIN_SNAPSHOTS,
           PLAIN_UI)
  }

  lemma RequiredLinksAreOneLine()
    ensures AreOneLine(REQUIRED_EVIDENCE_LINKS)
  {
    forall i | 0 <= i < |REQUIRED_EVIDENCE_LINKS| ensures Text.IsOneLine(REQUIRED_EVIDENCE_LINKS[i]) {
      RequiredLinksPrint(i);
    }
  }

  lemma ReleaseFieldsPrint(exe: string, missing: seq<string>, gates: seq<GateResult>)
    requires Text.IsOneLine(exe) && AreReleaseGates(exe, gates)
    ensures OneLineFields(ReleaseReport(exe, missing, gates)) && AreNamed(gates)
  {
    PlainContextPrints();
    ReleaseSafetyPrints(exe);
    PlainGovernancePrints();
    PlainSnapshotsPrint();
    PlainUiPrints();
    ReleaseGatesPrint(exe, gates);
    RequiredLinksAreOneLine();
  }

  lemma ReleaseSectionsAreQuiet(exe: string, missing: seq<string>, gates: seq<GateResult>)
    ensures QuietSections(ReleaseReport(exe, missing, gates))
  {
    NoOutputIsQuiet(InSection(SafetySection));
    NoOutputIsQuiet(InSection(GovernanceSection));
    NoOutputIsQuiet(InSection(SnapshotsSection));
    NoOutputIsQuiet(InSection(UiSection));
  }

  /** A release report is printable when the interpreter's path is one line and its gates' outputs are quiet. */
  lemma ReleaseReportPrints(exe: string, missing: seq<string>, gates: seq<GateResult>)
    requires Text.IsOneLine(exe) && AreReleaseGates(exe, gates)
    requires forall i :: 0 <= i < |gates| ==> AreQuiet(InGate, OutputLines(gates[i].output))
    ensures Printable(ReleaseReport(exe, missing, gates))
  {
    ReleaseGatesPrint(exe, gates);
    ReleaseFieldsPrint(exe, missing, gates);
    ReleaseSectionsAreQuiet(exe, missing, gates);
    forall i | 0 <= i < |gates|
      ensures GatePrintable(gates[i])
    {
      GateIsPrintable(gates[i]);
    }
  }

  lemma GateIsPrintable(g: GateResult)
    requires IsKey(g.name) && OneLineGate(g) && AreQuiet(InGate, OutputLines(g.output))
    ensures GatePrintable(g)
  {
  }

  /** So there are release reports whose gates do not come back: all of those, whatever verdicts, exit codes and
      durations they hold. */
  lemma {:induction false} QuietReleaseLosesItsLastGate(exe: string, missing: seq<string>, gates: seq<GateResult>)
    requires Text.IsOneLine(exe) && AreReleaseGates(exe, gates)
    requires forall i :: 0 <= i < |gates| ==> AreQuiet(InGate, OutputLines(gates[i].output))
    ensures WrittenAndParsed(ReleaseReport(exe, missing, gates)).gates != GatesBack(gates)
  {
    ReleaseReportPrints(exe, missing, gates);
    ReleaseGatesNeverComeBack(ReleaseReport(exe, missing, gates), exe);
  }

  // ----- A gate shown in captured output -----

  lemma ShownLine(name: string, ok: bool)
    requires IsKey(name) && Text.IsOneLine(name)
    ensures OutputLines(GateLine(name, ok)) == [GateLine(name, ok)] && AreLoose([GateLine(name, ok)])
    ensures HeadingsIn([GateLine(name, ok)]) == [(name, ok)]
  {
    GateLineIsOneLine(name, ok);
    Text.OneLineSplits(GateLine(name, ok));
    GateLineReads(name, ok);
    OneHeading(GateLine(name, ok));
  }

  lemma {:induction false} OneHeading(line: string)
    ensures HeadingsIn([line]) == HeadIn(KindOf(line))
  {
    assert [line][1..] == [];
  }

  lemma NothingShown()
    ensures AreLoose(OutputLines("")) && HeadingsIn(OutputLines("")) == [] && StayInSection(OutputLines(""))
  {
    NoOutputIsQuiet(InGate);
    NoOutputIsQuiet(InSection(UiSection));
    var lines := OutputLines("");
    forall i | 0 <= i < |lines|
      ensures KindOf(lines[i]) == Plain && !EndsSection(lines[i])
    {
      QuietInGate(lines[i]);
      QuietEndsNothing(InGate, lines[i]);
    }
    LooseSeen(lines);
  }

  lemma {:induction false} WithShownSnoc(front: seq<GateResult>, g: GateResult)
    ensures WithShown(front + [g]) == WithShown(front) + ([(g.name, g.ok)] + HeadingsIn(OutputLines(g.output)))
  {
    assert (front + [g])[..|front|] == front;
  }

  lemma {:induction false} QuietGateSnoc(front: seq<GateResult>, g: GateResult)
    requires HeadingsIn(OutputLines(g.output)) == []
    ensures WithShown(front + [g]) == WithShown(front) + [(g.name, g.ok)]
  {
    WithShownSnoc(front, g);
    Unlengthened([(g.name, g.ok)], HeadingsIn(OutputLines(g.output)));
  }

  lemma {:induction false} FirstGateShows(g: GateResult, shown: Head)
    requires HeadingsIn(OutputLines(g.output)) == [shown]
    ensures WithShown([g]) == [(g.name, g.ok), shown]
  {
    assert [] + [g] == [g];
    WithShownSnoc([], g);
  }

  lemma {:induction false} TwoShown(a: GateResult, b: GateResult, shown: Head)
    requires HeadingsIn(OutputLines(a.output)) == [shown] && HeadingsIn(OutputLines(b.output)) == []
    ensures WithShown([a, b]) == [(a.name, a.ok), shown, (b.name, b.ok)]
  {
    FirstGateShows(a, shown);
    QuietGateSnoc([a], b);
    assert [a] + [b] == [a, b];
  }

  lemma {:induction false} ThreeShown(a: GateResult, b: GateResult, c: GateResult, shown: Head)
    requires HeadingsIn(OutputLines(a.output)) == [shown]
    requires HeadingsIn(OutputLines(b.output)) == [] && HeadingsIn(OutputLines(c.output)) == []
    ensures WithShown([a, b, c]) == [(a.name, a.ok), shown, (b.name, b.ok), (c.name, c.ok)]
  {
    TwoShown(a, b, shown);
    QuietGateSnoc([a, b], c);
    assert [a, b] + [c] == [a, b, c];
  }

  lemma ReleaseSectionsStay(exe: string, missing: seq<string>, gates: seq<GateResult>)
    ensures SectionsStay(ReleaseReport(exe, missing, gates))
  {
    NothingShown();
  }

  lemma ShowsNothingOfGates(g: GateResult)
    requires g.output == ""
    ensures AreLoose(OutputLines(g.output)) && HeadingsIn(OutputLines(g.output)) == []
  {
    NothingShown();
  }

  lemma ShowsOneLine(g: GateResult, name: string, ok: bool)
    requires IsKey(name) && Text.IsOneLine(name) && g.output == GateLine(name, ok)
    ensures AreLoose(OutputLines(g.output)) && HeadingsIn(OutputLines(g.output)) == [(name, ok)]
  {
    ShownLine(name, ok);
  }

  lemma ThreeLoose(gates: seq<GateResult>)
    requires |gates| == 3 && AreLoose(OutputLines(gates[0].output)) && AreLoose(OutputLines(gates[1].output))
    requires AreLoose(OutputLines(gates[2].output))
    ensures GatesAreLoose(gates)
  {
    forall i | 0 <= i < |gates|
      ensures AreLoose(OutputLines(gates[i].output))
    {
      assert i == 0 || i == 1 || i == 2;
    }
  }

  lemma ThreeAre(gates: seq<GateResult>)
    requires |gates| == 3
    ensures gates == [gates[0], gates[1], gates[2]]
  {
  }

  lemma {:induction false} ShownInGates(gates: seq<GateResult>, name: string, ok: bool)
    requires IsKey(name) && Text.IsOneLine(name) && ShowsOneGate(gates, name, ok)
    ensures GatesAreLoose(gates)
    ensures WithShown(gates) ==
            [(gates[0].name, gates[0].ok), (name, ok), (gates[1].name, gates[1].ok), (gates[2].name, gates[2].ok)]
  {
    var a, b, c := gates[0], gates[1], gates[2];
    ShowsOneLine(a, name, ok);
    ShowsNothingOfGates(b);
    ShowsNothingOfGates(c);
    ThreeLoose(gates);
    ThreeAre(gates);
    ThreeShown(a, b, c, (name, ok));
  }

  predicate ShowsOneGate(gates: seq<GateResult>, name: string, ok: bool) {
    |gates| == 3 && gates[0].output == GateLine(name, ok) && gates[1].output == "" && gates[2].output == ""
  }

  /** A release report whose tests print one line that looks like a gate: the line is read as one gate more. */
  lemma ShownGateIsRead(exe: string, name: string, ok: bool, gates: seq<GateResult>)
    requires Text.IsOneLine(exe) && AreReleaseGates(exe, gates) && IsKey(name) && Text.IsOneLine(name)
    requires ShowsOneGate(gates, name, ok)
    ensures Heads(WrittenAndParsed(ReleaseReport(exe, [], gates)).gates) ==
            [(gates[0].name, gates[0].ok), (name, ok), (gates[1].name, gates[1].ok), (gates[2].name, gates[2].ok)]
  {
    ShownInGates(gates, name, ok);
    ReleaseFieldsPrint(exe, [], gates);
    ReleaseSectionsStay(exe, [], gates);
    ShownGatesAreRead(ReleaseReport(exe, [], gates));
  }

  /** If the line says FAIL, the report of a passed release is read with the verdict PASS and a failed gate. */
  lemma ShownFailureMisleads(exe: string, name: string, gates: seq<GateResult>)
    requires Text.IsOneLine(exe) && AreReleaseGates(exe, gates) && IsKey(name) && Text.IsOneLine(name)
    requires ShowsOneGate(gates, name, false) && gates[0].ok && gates[1].ok && gates[2].ok
    ensures var p := WrittenAndParsed(ReleaseReport(exe, [], gates)); p.overall == "PASS" && !Recomputed(p)
  {
    ShownGateIsRead(exe, name, false, gates);
    FailedHead(WrittenAndParsed(ReleaseReport(exe, [], gates)), 1);
    PassedRelease(exe, gates);
  }

  lemma {:induction false} FailedHead(p: Parsed, i: nat)
    requires i < |p.gates| && !Heads(p.gates)[i].1
    ensures !Recomputed(p)
  {
    HeadsOk(p.gates);
  }

  lemma ThreePassed(gates: seq<GateResult>)
    requires |gates| == 3 && gates[0].ok && gates[1].ok && gates[2].ok
    ensures AllPassed(gates)
  {
    forall g | g in gates
      ensures g.ok
    {
      var i :| 0 <= i < |gates| && gates[i] == g;
      assert i == 0 || i == 1 || i == 2;
    }
  }

  lemma PassedReport(r: Report)
    requires r.missing == [] && AllPassed(r.gates) && !r.safety.required
    ensures WrittenAndParsed(r).overall == "PASS"
  {
    VerdictAlwaysComesBack(r);
  }

  lemma PassedRelease(exe: string, gates: seq<GateResult>)
    requires |gates| == 3 && gates[0].ok && gates[1].ok && gates[2].ok
    ensures WrittenAndParsed(ReleaseReport(exe, [], gates)).overall == "PASS"
  {
    ThreePassed(gates);
    PassedReport(ReleaseReport(exe, [], gates));
  }

  // ----- A gate hidden by captured output -----

  lemma OverallLine()
    ensures OutputLines("## Overall") == ["## Overall"] && HoldsNoGate(["## Overall"])
    ensures ModeAfterLines(AtTop, ["## Overall"]) == Seeking
  {
    HeadingsAreOneLine();
    Text.OneLineSplits("## Overall");
    HeadingKind("## Overall");
    SectionKinds();
    OneOverall("## Overall");
  }

  lemma {:induction false} OneOverall(line: string)
    requires KindOf(line) == OverallHeading
    ensures ModeAfterLines(AtTop, [line]) == Seeking
  {
    FirstSeen(AtTop, [line]);
    assert [line][1..] == [];
  }

  lemma NoOutputHoldsNoGate()
    ensures HoldsNoGate(OutputLines(""))
  {
    NothingShown();
    LooseSeen(OutputLines(""));
  }

  lemma ThreeHoldNoGate(gates: seq<GateResult>)
    requires |gates| == 3 && HoldsNoGate(OutputLines(gates[0].output)) && HoldsNoGate(OutputLines(gates[1].output))
    requires HoldsNoGate(OutputLines(gates[2].output))
    ensures GatesHoldNoGate(gates)
  {
    forall i | 0 <= i < |gates|
      ensures HoldsNoGate(OutputLines(gates[i].output))
    {
      assert i == 0 || i == 1 || i == 2;
    }
  }

  lemma ReleaseSectionsHoldNoGate(exe: string, missing: seq<string>, gates: seq<GateResult>)
    ensures SectionsHoldNoGate(ReleaseReport(exe, missing, gates))
  {
    NoOutputHoldsNoGate();
  }

  lemma FirstGateHides(gates: seq<GateResult>)
    requires |gates| == 3 && ModeAfterLines(AtTop, OutputLines(gates[0].output)) == Seeking
    ensures !AllLeaveAtTop(gates[..|gates| - 1])
  {
    assert gates[..|gates| - 1][0] == gates[0];
    assert !LeavesAtTop(gates[..|gates| - 1][0].output);
  }

  /** A release report whose tests print the heading of the overall result: gates after it are not read. */
  lemma HeadingHidesGates(exe: string, missing: seq<string>, gates: seq<GateResult>)
    requires Text.IsOneLine(exe) && AreReleaseGates(exe, gates)
    requires gates[0].output == "## Overall" && gates[1].output == "" && gates[2].output == ""
    ensures Heads(WrittenAndParsed(ReleaseReport(exe, missing, gates)).gates) != HeadsOf(gates)
  {
    OverallLine();
    NoOutputHoldsNoGate();
    ThreeHoldNoGate(gates);
    FirstGateHides(gates);
    ReleaseFieldsPrint(exe, missing, gates);
    ReleaseSectionsHoldNoGate(exe, missing, gates);
    GatesAllReadIff(ReleaseReport(exe, missing, gates));
  }
}
