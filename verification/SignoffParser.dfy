/** The parser of the signoff evidence (scripts/release/parse_rc_signoff.py). */
module SignoffParser {
  import opened Values
  import Text

  datatype Link = Link(path: string, ok: bool)

  datatype Gate = Gate(name: string, ok: bool, command: string, exitCode: Option<int>, durationMs: Option<nat>)

  datatype DataSafety = DataSafety(enabled: bool, required: bool, mode: string, command: string, exitCode: Option<int>,
                                   durationMs: Option<nat>, result: string, ok: Option<bool>, metaPath: string)

  /** What stands for a figure: nothing, its text, or a count. A text no count can be read from makes the
      source raise. */
  datatype Count = NoCount | Counted(n: int) | Unreadable(text: string)

  datatype Governance = Governance(
    enabled: bool, advisoryOnly: bool, metricsPath: string, metricsAvailable: bool, costThreshold: Option<string>,
    rejectionThreshold: Option<string>, costRatio: Option<string>, rejectionRate: Option<string>, alertCount: nat,
    alerts: seq<string>, result: string)

  datatype Snapshots = Snapshots(enabled: bool, advisoryOnly: bool, path: string, available: bool, beforeCaptured: bool,
                                 afterCaptured: bool, runsBefore: Count, runsAfter: Count)

  datatype UiRun = UiRun(enabled: bool, advisoryOnly: bool, path: string, available: bool, result: string,
                         stagesPassed: Count, stagesFailed: Count)

  datatype Sections = Sections(safety: DataSafety, governance: Governance, snapshots: Snapshots, ui: UiRun)

  datatype Parsed = Parsed(startedAt: string, endedAt: string, context: map<string, string>, links: seq<Link>,
                           gates: seq<Gate>, sections: Sections, overall: string)

  const NO_SECTIONS := Sections(
    DataSafety(false, false, "advisory", "", None, None, "", None, ""),
    Governance(false, true, "", false, None, None, None, None, 0, [], "UNAVAILABLE"),
    Snapshots(false, true, "", false, false, false, NoCount, NoCount),
    UiRun(false, true, "", false, "UNAVAILABLE", NoCount, NoCount))

  const START := Parsed("", "", map[], [], [], NO_SECTIONS, "FAIL")

  // ----- Matching one line -----

  /** What stands between a prefix and a suffix. */
  function Between(prefix: string, line: string, suffix: string): Option<string> {
    if |prefix| + |suffix| <= |line| && prefix <= line && line[|line| - |suffix|..] == suffix
    then Some(line[|prefix|..|line| - |suffix|])
    else None
  }

  function BeforeColon(s: string): string {
    if s == "" || s[0] == ':' then "" else [s[0]] + BeforeColon(s[1..])
  }

  /** The key and value of a line "- key: `value`"; the key is not empty and has no colon. */
  function FieldOf(line: string): Option<(string, string)> {
    if "- " <= line then
      var key := BeforeColon(line[2..]);
      var value := Between("- " + key + ": `", line, "`");
      if key != "" && value.Some? then Some((key, value.value)) else None
    else None
  }

  function LinkOf(line: string): Option<Link> {
    var ok, missing := Between("- [OK] `", line, "`"), Between("- [MISSING] `", line, "`");
    if ok.Some? then Some(Link(ok.value, true))
    else if missing.Some? then Some(Link(missing.value, false))
    else None
  }

  function GateOf(line: string): Option<Gate> {
    var pass, fail := Between("### ", line, ": PASS"), Between("### ", line, ": FAIL");
    if pass.Some? && pass.value != "" && ':' !in pass.value then Some(Gate(pass.value, true, "", None, None))
    else if fail.Some? && fail.value != "" && ':' !in fail.value then Some(Gate(fail.value, false, "", None, None))
    else None
  }

  /** The sections that are read to the next heading. */
  datatype Section = SafetySection | GovernanceSection | SnapshotsSection | UiSection

  datatype LineKind =
    | Started(value: string)
    | Ended(value: string)
    | ContextHeading
    | LinksHeading
    | GateHeading(gate: Gate)
    | SectionHeading(section: Section)
    | OverallHeading
    | Plain

  /** What the main loop makes of a line. */
  function KindOf(raw: string): LineKind {
    var line := Text.Strip(raw);
    var field := FieldOf(line);
    if "- Started:" <= line then (if field.Some? then Started(field.value.1) else Plain)
    else if "- Ended:" <= line then (if field.Some? then Ended(field.value.1) else Plain)
    else if "### " <= line then (if GateOf(line).Some? then GateHeading(GateOf(line).value) else Plain)
    else KindOfHeading(line)
  }

  /** The sections the main loop knows by their headings. */
  function KindOfHeading(line: string): LineKind {
    if line == "## Execution Context" then ContextHeading
    else if line == "## Required Evidence Links" then LinksHeading
    else if line == "## Local Data Safety" then SectionHeading(SafetySection)
    else if line == "## Governance Alerts" then SectionHeading(GovernanceSection)
    else if line == "## Runtime Snapshots" then SectionHeading(SnapshotsSection)
    else if line == "## UI E2E Automation" then SectionHeading(UiSection)
    else if line == "## Overall" then OverallHeading
    else Plain
  }

  // ----- Reading sections; each gives back the lines it did not consume -----

  /** The name a key is filed under: stripped, in lower case, with underscores for blanks. */
  function KeyName(key: string): string {
    Underscored(Text.Strip(key))
  }

  function Underscored(s: string): string {
    seq(|s|, i requires 0 <= i < |s| => UnderscoredChar(s[i]))
  }

  function UnderscoredChar(c: char): char {
    if c == ' ' then '_' else if 'A' <= c <= 'Z' then c + ('a' - 'A') else c
  }

  function ReadContext(lines: seq<string>, context: map<string, string>): (r: (map<string, string>, seq<string>))
    ensures |r.1| <= |lines|
  {
    if lines == [] then (context, lines)
    else
      var field := FieldOf(Text.Strip(lines[0]));
      if field.None? then (context, lines) else ReadContext(lines[1..], context[KeyName(field.value.0) := field.value.1])
  }

  function ReadLinks(lines: seq<string>, links: seq<Link>): (r: (seq<Link>, seq<string>))
    ensures |r.1| <= |lines|
  {
    if lines == [] then (links, lines)
    else
      var link := LinkOf(Text.Strip(lines[0]));
      if link.None? then (links, lines) else ReadLinks(lines[1..], links + [link.value])
  }

  function GateWith(gate: Gate, field: Option<(string, string)>): Gate {
    if field.None? then gate
    else
      match field.value.0
      case "Command" => gate.(command := field.value.1)
      case "Exit Code" =>
        var code := Text.ParseInt(field.value.1);
        if code.Some? then gate.(exitCode := code) else gate
      case "Duration Ms" =>
        var duration := Text.ParseNat(field.value.1);
        if duration.Some? then gate.(durationMs := duration) else gate
      case _ => gate
  }

  predicate EndsGate(raw: string) {
    var line := Text.Strip(raw);
    "### " <= line || line == "## Overall"
  }

  function ReadGate(lines: seq<string>, gate: Gate): Gate {
    if lines == [] || EndsGate(lines[0]) then gate
    else ReadGate(lines[1..], GateWith(gate, FieldOf(Text.Strip(lines[0]))))
  }

  function SafetyWith(safety: DataSafety, field: Option<(string, string)>): DataSafety {
    if field.None? then safety
    else
      var value := field.value.1;
      match field.value.0
      case "Enabled" => safety.(enabled := TruthOr(value, safety.enabled))
      case "Required" => safety.(required := TruthOr(value, safety.required))
      case "Mode" => if value in ["advisory", "required"] then safety.(mode := value) else safety
      case "Command" => safety.(command := value)
      case "Exit Code" =>
        var code := Text.ParseInt(value);
        if code.Some? then safety.(exitCode := code) else safety
      case "Duration Ms" =>
        var duration := Text.ParseNat(value);
        if duration.Some? then safety.(durationMs := duration) else safety
      case "Result" =>
        if value in ["PASS", "FAIL"] then safety.(result := value, ok := Some(value == "PASS")) else safety
      case "Meta Path" => safety.(metaPath := value)
      case _ => safety
  }

  function TruthOr(value: string, default: bool): bool {
    if value == "true" then true else if value == "false" then false else default
  }

  /** A figure's text, none for "n/a"; a value with a backtick does not match. */
  function FigureOr(value: string, default: Option<string>): Option<string> {
    if '`' in value then default else if Text.Strip(value) == "n/a" then None else Some(Text.Strip(value))
  }

  function CountOr(value: string, default: Count): Count {
    if '`' in value then default
    else if Text.Strip(value) == "n/a" then NoCount
    else
      var n := Text.ParseInt(Text.Strip(value));
      if n.Some? then Counted(n.value) else Unreadable(Text.Strip(value))
  }

  /** The items between commas, stripped, without the blank ones. */
  function Items(s: string): seq<string> {
    var item := Text.Strip(BeforeComma(s));
    (if item == "" then [] else [item]) + (if |BeforeComma(s)| == |s| then [] else Items(s[|BeforeComma(s)| + 1..]))
  }

  function BeforeComma(s: string): (head: string)
    ensures |head| <= |s|
  {
    if s == "" || s[0] == ',' then "" else [s[0]] + BeforeComma(s[1..])
  }

  function AlertsOf(value: string): seq<string> {
    var raw := Text.Strip(value);
    if raw == "" || raw == "none" then [] else Items(raw)
  }

  function GovernanceWith(g: Governance, field: Option<(string, string)>): Governance {
    if field.None? then g
    else
      var value := field.value.1;
      match field.value.0
      case "Enabled" => g.(enabled := TruthOr(value, g.enabled))
      case "Advisory Only" => g.(advisoryOnly := TruthOr(value, g.advisoryOnly))
      case "Metrics Path" => g.(metricsPath := value)
      case "Metrics Available" => g.(metricsAvailable := TruthOr(value, g.metricsAvailable))
      case "Cost Utilization Threshold" => g.(costThreshold := FigureOr(value, g.costThreshold))
      case "Rejection Rate Threshold" => g.(rejectionThreshold := FigureOr(value, g.rejectionThreshold))
      case "Cost Utilization Ratio" => g.(costRatio := FigureOr(value, g.costRatio))
      case "Rejection Rate" => g.(rejectionRate := FigureOr(value, g.rejectionRate))
      case "Alert Count" =>
        var count := Text.ParseNat(value);
        if count.Some? then g.(alertCount := count.value) else g
      case "Alerts" => g.(alerts := AlertsOf(value))
      case "Result" => if value in ["PASS", "ALERT", "UNAVAILABLE"] then g.(result := value) else g
      case _ => g
  }

  function SnapshotsWith(s: Snapshots, field: Option<(string, string)>): Snapshots {
    if field.None? then s
    else
      var value := field.value.1;
      match field.value.0
      case "Enabled" => s.(enabled := TruthOr(value, s.enabled))
      case "Advisory Only" => s.(advisoryOnly := TruthOr(value, s.advisoryOnly))
      case "Snapshot Path" => s.(path := value)
      case "Available" => s.(available := TruthOr(value, s.available))
      case "Before Captured" => s.(beforeCaptured := TruthOr(value, s.beforeCaptured))
      case "After Captured" => s.(afterCaptured := TruthOr(value, s.afterCaptured))
      case "Before Runs Total" => s.(runsBefore := CountOr(value, s.runsBefore))
      case "After Runs Total" => s.(runsAfter := CountOr(value, s.runsAfter))
      case _ => s
  }

  function UiWith(u: UiRun, field: Option<(string, string)>): UiRun {
    if field.None? then u
    else
      var value := field.value.1;
      match field.value.0
      case "Enabled" => u.(enabled := TruthOr(value, u.enabled))
      case "Advisory Only" => u.(advisoryOnly := TruthOr(value, u.advisoryOnly))
      case "Artifact Path" => u.(path := value)
      case "Available" => u.(available := TruthOr(value, u.available))
      case "Result" => if value in ["PASS", "FAIL", "UNAVAILABLE"] then u.(result := value) else u
      case "Stages Passed Total" => u.(stagesPassed := CountOr(value, u.stagesPassed))
      case "Stages Failed Total" => u.(stagesFailed := CountOr(value, u.stagesFailed))
      case _ => u
  }

  function SectionWith(k: Section, s: Sections, field: Option<(string, string)>): Sections {
    match k
    case SafetySection => s.(safety := SafetyWith(s.safety, field))
    case GovernanceSection => s.(governance := GovernanceWith(s.governance, field))
    case SnapshotsSection => s.(snapshots := SnapshotsWith(s.snapshots, field))
    case UiSection => s.(ui := UiWith(s.ui, field))
  }

  predicate EndsSection(raw: string) {
    "## " <= Text.Strip(raw)
  }

  function ReadSection(k: Section, lines: seq<string>, s: Sections): (r: (Sections, seq<string>))
    ensures |r.1| <= |lines|
  {
    if lines == [] || EndsSection(lines[0]) then (s, lines)
    else ReadSection(k, lines[1..], SectionWith(k, s, FieldOf(Text.Strip(lines[0]))))
  }

  function ResultOf(raw: string): Option<string> {
    var field := FieldOf(Text.Strip(raw));
    if field.Some? && field.value.0 == "Result" && field.value.1 in ["PASS", "FAIL"] then Some(field.value.1) else None
  }

  function ReadOverall(lines: seq<string>, overall: string): (r: (string, seq<string>))
    ensures |r.1| <= |lines|
  {
    if lines == [] then (overall, lines)
    else if ResultOf(lines[0]).Some? then (ResultOf(lines[0]).value, lines)
    else ReadOverall(lines[1..], overall)
  }

  /** What a line of this kind does, given the lines after it: the new state and the lines left. */
  function Handle(kind: LineKind, rest: seq<string>, p: Parsed): (r: (Parsed, seq<string>))
    ensures |r.1| <= |rest|
  {
    match kind
    case Started(value) => (p.(startedAt := value), rest)
    case Ended(value) => (p.(endedAt := value), rest)
    case ContextHeading =>
      var r := ReadContext(rest, p.context);
      (p.(context := r.0), r.1)
    case LinksHeading =>
      var r := ReadLinks(rest, p.links);
      (p.(links := r.0), r.1)
    case GateHeading(gate) => (p.(gates := p.gates + [ReadGate(rest, gate)]), rest)
    case SectionHeading(k) =>
      var r := ReadSection(k, rest, p.sections);
      (p.(sections := r.0), r.1)
    case OverallHeading =>
      var r := ReadOverall(rest, p.overall);
      (p.(overall := r.0), r.1)
    case Plain => (p, rest)
  }

  /** The main loop over the lines still to read. */
  function Scan(lines: seq<string>, p: Parsed): Parsed
    decreases |lines|
  {
    if lines == [] then p
    else
      var r := Handle(KindOf(lines[0]), lines[1..], p);
      Scan(r.1, r.0)
  }

  function MissingLinks(links: seq<Link>): seq<string> {
    if links == [] then []
    else MissingLinks(links[..|links| - 1]) + (if links[|links| - 1].ok then [] else [links[|links| - 1].path])
  }

  function FailedGates(gates: seq<Gate>): seq<string> {
    if gates == [] then []
    else FailedGates(gates[..|gates| - 1]) + (if gates[|gates| - 1].ok then [] else [gates[|gates| - 1].name])
  }

  // ----- Texts that lack a part -----

  /** Stripped, none of the lines is this one. */
  ghost predicate Lacks(lines: seq<string>, heading: string) {
    forall line :: line in lines ==> Text.Strip(line) != heading
  }

  /** Stripped, none of the lines starts like this. */
  ghost predicate NoneStarts(lines: seq<string>, start: string) {
    forall line :: line in lines ==> !(start <= Text.Strip(line))
  }

  ghost function KindsIn(lines: seq<string>): set<LineKind> {
    set line | line in lines :: KindOf(line)
  }

  lemma {:induction false} ContextLeavesLines(lines: seq<string>, context: map<string, string>)
    ensures forall line :: line in ReadContext(lines, context).1 ==> line in lines
  {
    if lines != [] {
      var field := FieldOf(Text.Strip(lines[0]));
      if field.Some? {
        ContextLeavesLines(lines[1..], context[KeyName(field.value.0) := field.value.1]);
      }
    }
  }

  lemma {:induction false} LinksLeaveLines(lines: seq<string>, links: seq<Link>)
    ensures forall line :: line in ReadLinks(lines, links).1 ==> line in lines
  {
    if lines != [] {
      var link := LinkOf(Text.Strip(lines[0]));
      if link.Some? {
        LinksLeaveLines(lines[1..], links + [link.value]);
      }
    }
  }

  lemma {:induction false} SectionLeavesLines(k: Section, lines: seq<string>, s: Sections)
    ensures forall line :: line in ReadSection(k, lines, s).1 ==> line in lines
    ensures SameSections(k, ReadSection(k, lines, s).0, s)
  {
    if lines != [] && !EndsSection(lines[0]) {
      SectionLeavesLines(k, lines[1..], SectionWith(k, s, FieldOf(Text.Strip(lines[0]))));
    }
  }

  lemma {:induction false} OverallLeavesLines(lines: seq<string>, overall: string)
    ensures forall line :: line in ReadOverall(lines, overall).1 ==> line in lines
  {
    if lines != [] && ResultOf(lines[0]).None? {
      OverallLeavesLines(lines[1..], overall);
    }
  }

  /** The sections other than this one are the same. */
  ghost predicate SameSections(k: Section, a: Sections, b: Sections) {
    && (k != SafetySection ==> a.safety == b.safety) && (k != GovernanceSection ==> a.governance == b.governance)
    && (k != SnapshotsSection ==> a.snapshots == b.snapshots) && (k != UiSection ==> a.ui == b.ui)
  }

  /** What a line of this kind leaves as it was. */
  ghost predicate OnlyItsPart(kind: LineKind, before: Parsed, after: Parsed) {
    && (!kind.Started? ==> after.startedAt == before.startedAt) && (!kind.Ended? ==> after.endedAt == before.endedAt)
    && (!kind.ContextHeading? ==> after.context == before.context) && (!kind.LinksHeading? ==> after.links == before.links)
    && (!kind.GateHeading? ==> after.gates == before.gates) && (!kind.OverallHeading? ==> after.overall == before.overall)
    && (!kind.SectionHeading? ==> after.sections == before.sections)
    && (kind.SectionHeading? ==> SameSections(kind.section, after.sections, before.sections))
  }

  lemma {:induction false} HandleKeeps(kind: LineKind, rest: seq<string>, p: Parsed)
    ensures var r := Handle(kind, rest, p); OnlyItsPart(kind, p, r.0) && forall line :: line in r.1 ==> line in rest
  {
    match kind
    case ContextHeading => ContextLeavesLines(rest, p.context);
    case LinksHeading => LinksLeaveLines(rest, p.links);
    case SectionHeading(k) => SectionLeavesLines(k, rest, p.sections);
    case OverallHeading => OverallLeavesLines(rest, p.overall);
    case _ =>
  }

  /** The kinds of line a text has decide which parts of the result can differ from the start. */
  ghost predicate UnreadParts(kinds: set<LineKind>, before: Parsed, after: Parsed) {
    && ((forall kind :: kind in kinds ==> !kind.Started?) ==> after.startedAt == before.startedAt)
    && ((forall kind :: kind in kinds ==> !kind.Ended?) ==> after.endedAt == before.endedAt)
    && ((forall kind :: kind in kinds ==> !kind.GateHeading?) ==> after.gates == before.gates)
    && (ContextHeading !in kinds ==> after.context == before.context)
    && (LinksHeading !in kinds ==> after.links == before.links)
    && (OverallHeading !in kinds ==> after.overall == before.overall)
    && (SectionHeading(SafetySection) !in kinds ==> after.sections.safety == before.sections.safety)
    && (SectionHeading(GovernanceSection) !in kinds ==> after.sections.governance == before.sections.governance)
    && (SectionHeading(SnapshotsSection) !in kinds ==> after.sections.snapshots == before.sections.snapshots)
    && (SectionHeading(UiSection) !in kinds ==> after.sections.ui == before.sections.ui)
  }

  lemma UnreadThrough(kind: LineKind, left: set<LineKind>, all: set<LineKind>, before: Parsed, middle: Parsed, after: Parsed)
    requires OnlyItsPart(kind, before, middle) && UnreadParts(left, middle, after)
    requires kind in all && left <= all
    ensures UnreadParts(all, before, after)
  {
  }

  lemma KindsAmong(left: seq<string>, lines: seq<string>)
    requires forall line :: line in left ==> line in lines
    ensures KindsIn(left) <= KindsIn(lines)
  {
  }

  lemma FirstKind(lines: seq<string>)
    requires lines != []
    ensures KindOf(lines[0]) in KindsIn(lines) && forall line :: line in lines[1..] ==> line in lines
  {
    assert lines[0] in lines;
  }

  lemma {:induction false} ScanLeavesUnread(lines: seq<string>, p: Parsed)
    ensures UnreadParts(KindsIn(lines), p, Scan(lines, p))
    decreases |lines|
  {
    if lines != [] {
      var kind := KindOf(lines[0]);
      var r := Handle(kind, lines[1..], p);
      HandleKeeps(kind, lines[1..], p);
      FirstKind(lines);
      KindsAmong(r.1, lines);
      ScanLeavesUnread(r.1, r.0);
      UnreadThrough(kind, KindsIn(r.1), KindsIn(lines), p, r.0, Scan(r.1, r.0));
    }
  }

  lemma KindNeedsHeading(line: string)
    ensures KindOf(line) == ContextHeading ==> Text.Strip(line) == "## Execution Context"
    ensures KindOf(line) == LinksHeading ==> Text.Strip(line) == "## Required Evidence Links"
    ensures KindOf(line) == SectionHeading(SafetySection) ==> Text.Strip(line) == "## Local Data Safety"
    ensures KindOf(line) == SectionHeading(GovernanceSection) ==> Text.Strip(line) == "## Governance Alerts"
    ensures KindOf(line) == SectionHeading(SnapshotsSection) ==> Text.Strip(line) == "## Runtime Snapshots"
    ensures KindOf(line) == SectionHeading(UiSection) ==> Text.Strip(line) == "## UI E2E Automation"
    ensures KindOf(line) == OverallHeading ==> Text.Strip(line) == "## Overall"
    ensures KindOf(line).Started? ==> "- Started:" <= Text.Strip(line)
    ensures KindOf(line).Ended? ==> "- Ended:" <= Text.Strip(line)
    ensures KindOf(line).GateHeading? ==> "### " <= Text.Strip(line)
  {
  }

  /** What is answered for the parts a text lacks. */
  ghost predicate HasDefaults(lines: seq<string>, p: Parsed) {
    && (NoneStarts(lines, "- Started:") ==> p.startedAt == "") && (NoneStarts(lines, "- Ended:") ==> p.endedAt == "")
    && (Lacks(lines, "## Execution Context") ==> p.context == map[])
    && (Lacks(lines, "## Required Evidence Links") ==> p.links == [])
    && (NoneStarts(lines, "### ") ==> p.gates == [])
    && (Lacks(lines, "## Local Data Safety") ==> IsNoSafety(p.sections.safety))
    && (Lacks(lines, "## Governance Alerts") ==> IsNoGovernance(p.sections.governance))
    && (Lacks(lines, "## Runtime Snapshots") ==> IsNoSnapshots(p.sections.snapshots))
    && (Lacks(lines, "## UI E2E Automation") ==> IsNoUiRun(p.sections.ui))
    && (Lacks(lines, "## Overall") ==> p.overall == "FAIL")
  }

  ghost predicate IsNoSafety(s: DataSafety) {
    && !s.enabled && !s.required && s.mode == "advisory" && s.command == "" && s.exitCode == None && s.durationMs == None
    && s.result == "" && s.ok == None && s.metaPath == ""
  }

  ghost predicate IsNoGovernance(g: Governance) {
    && !g.enabled && g.advisoryOnly && g.metricsPath == "" && !g.metricsAvailable && g.costThreshold == None
    && g.rejectionThreshold == None && g.costRatio == None && g.rejectionRate == None && g.alertCount == 0 && g.alerts == []
    && g.result == "UNAVAILABLE"
  }

  ghost predicate IsNoSnapshots(s: Snapshots) {
    && !s.enabled && s.advisoryOnly && s.path == "" && !s.available && !s.beforeCaptured && !s.afterCaptured
    && s.runsBefore == NoCount && s.runsAfter == NoCount
  }

  ghost predicate IsNoUiRun(u: UiRun) {
    && !u.enabled && u.advisoryOnly && u.path == "" && !u.available && u.result == "UNAVAILABLE"
    && u.stagesPassed == NoCount && u.stagesFailed == NoCount
  }

  ghost predicate StartsEmpty(p: Parsed) {
    && p.startedAt == "" && p.endedAt == "" && p.context == map[] && p.links == [] && p.gates == [] && p.overall == "FAIL"
    && IsNoSafety(p.sections.safety) && IsNoGovernance(p.sections.governance) && IsNoSnapshots(p.sections.snapshots)
    && IsNoUiRun(p.sections.ui)
  }

  lemma StartIsEmpty()
    ensures StartsEmpty(START)
  {
  }

  lemma LacksOpening(lines: seq<string>)
    ensures NoneStarts(lines, "- Started:") ==> forall kind :: kind in KindsIn(lines) ==> !kind.Started?
    ensures NoneStarts(lines, "- Ended:") ==> forall kind :: kind in KindsIn(lines) ==> !kind.Ended?
    ensures NoneStarts(lines, "### ") ==> forall kind :: kind in KindsIn(lines) ==> !kind.GateHeading?
  {
    forall line | line in lines {
      KindNeedsHeading(line);
    }
  }

  lemma LacksLists(lines: seq<string>)
    ensures Lacks(lines, "## Execution Context") ==> ContextHeading !in KindsIn(lines)
    ensures Lacks(lines, "## Required Evidence Links") ==> LinksHeading !in KindsIn(lines)
    ensures Lacks(lines, "## Overall") ==> OverallHeading !in KindsIn(lines)
  {
    forall line | line in lines {
      KindNeedsHeading(line);
    }
  }

  lemma LacksSections(lines: seq<string>)
    ensures Lacks(lines, "## Local Data Safety") ==> SectionHeading(SafetySection) !in KindsIn(lines)
    ensures Lacks(lines, "## Governance Alerts") ==> SectionHeading(GovernanceSection) !in KindsIn(lines)
    ensures Lacks(lines, "## Runtime Snapshots") ==> SectionHeading(SnapshotsSection) !in KindsIn(lines)
    ensures Lacks(lines, "## UI E2E Automation") ==> SectionHeading(UiSection) !in KindsIn(lines)
  {
    forall line | line in lines {
      KindNeedsHeading(line);
    }
  }

  lemma {:induction false} UnreadIsDefault(lines: seq<string>, start: Parsed, p: Parsed)
    requires StartsEmpty(start) && UnreadParts(KindsIn(lines), start, p)
    ensures HasDefaults(lines, p)
  {
    LacksOpening(lines);
    LacksLists(lines);
    LacksSections(lines);
  }

  /** A part that the text lacks is answered as not there: nothing enabled, required or measured, and no pass. */
  lemma {:induction false} LackingPartsAreDefault(lines: seq<string>)
    ensures HasDefaults(lines, Scan(lines, START))
  {
    ScanLeavesUnread(lines, START);
    StartIsEmpty();
    UnreadIsDefault(lines, START, Scan(lines, START));
  }

  // ----- The parser -----

  method ParseContext(lines: seq<string>, start: nat, context: map<string, string>) returns (read: map<string, string>, idx: nat)
    requires start <= |lines|
    ensures start <= idx <= |lines| && (read, lines[idx..]) == ReadContext(lines[start..], context)
  {
    read, idx := context, start;
    while idx < |lines|
      invariant start <= idx <= |lines|
      invariant ReadContext(lines[idx..], read) == ReadContext(lines[start..], context)
    {
      assert lines[idx..][0] == lines[idx] && lines[idx..][1..] == lines[idx + 1..];
      var parsed := FieldOf(Text.Strip(lines[idx]));
      if parsed.None? {
        break;
      }
      read := read[KeyName(parsed.value.0) := parsed.value.1];
      idx := idx + 1;
    }
  }

  method ParseLinks(lines: seq<string>, start: nat, links: seq<Link>) returns (read: seq<Link>, idx: nat)
    requires start <= |lines|
    ensures start <= idx <= |lines| && (read, lines[idx..]) == ReadLinks(lines[start..], links)
  {
    read, idx := links, start;
    while idx < |lines|
      invariant start <= idx <= |lines|
      invariant ReadLinks(lines[idx..], read) == ReadLinks(lines[start..], links)
    {
      assert lines[idx..][0] == lines[idx] && lines[idx..][1..] == lines[idx + 1..];
      var parsed := LinkOf(Text.Strip(lines[idx]));
      if parsed.None? {
        break;
      }
      read := read + [parsed.value];
      idx := idx + 1;
    }
  }

  method ParseGate(lines: seq<string>, start: nat, gate: Gate) returns (read: Gate)
    requires start <= |lines|
    ensures read == ReadGate(lines[start..], gate)
  {
    read := gate;
    var cursor := start;
    while cursor < |lines|
      invariant start <= cursor <= |lines|
      invariant ReadGate(lines[cursor..], read) == ReadGate(lines[start..], gate)
    {
      if EndsGate(lines[cursor]) {
        break;
      }
      read := GateWith(read, FieldOf(Text.Strip(lines[cursor])));
      cursor := cursor + 1;
    }
  }

  method ParseSection(k: Section, lines: seq<string>, start: nat, sections: Sections) returns (read: Sections, cursor: nat)
    requires start <= |lines|
    ensures start <= cursor <= |lines| && (read, lines[cursor..]) == ReadSection(k, lines[start..], sections)
  {
    read, cursor := sections, start;
    while cursor < |lines|
      invariant start <= cursor <= |lines|
      invariant ReadSection(k, lines[cursor..], read) == ReadSection(k, lines[start..], sections)
    {
      if EndsSection(lines[cursor]) {
        break;
      }
      assert lines[cursor..][0] == lines[cursor] && lines[cursor..][1..] == lines[cursor + 1..];
      read := SectionWith(k, read, FieldOf(Text.Strip(lines[cursor])));
      cursor := cursor + 1;
    }
  }

  method ParseOverall(lines: seq<string>, start: nat, overall: string) returns (read: string, idx: nat)
    requires start <= |lines|
    ensures start <= idx <= |lines| && (read, lines[idx..]) == ReadOverall(lines[start..], overall)
  {
    read, idx := overall, start;
    while idx < |lines|
      invariant start <= idx <= |lines| && read == overall
      invariant ReadOverall(lines[idx..], overall) == ReadOverall(lines[start..], overall)
    {
      var parsed := ResultOf(lines[idx]);
      if parsed.Some? {
        read := parsed.value;
        break;
      }
      idx := idx + 1;
    }
  }

  /** One turn of the main loop, for a line of this kind. */
  method ParseLine(kind: LineKind, lines: seq<string>, after: nat, p: Parsed) returns (read: Parsed, idx: nat)
    requires after <= |lines|
    ensures after <= idx <= |lines| && (read, lines[idx..]) == Handle(kind, lines[after..], p)
  {
    read, idx := p, after;
    match kind {
      case Started(value) => read := p.(startedAt := value);
      case Ended(value) => read := p.(endedAt := value);
      case ContextHeading =>
        var context;
        context, idx := ParseContext(lines, idx, p.context);
        read := p.(context := context);
      case LinksHeading =>
        var links;
        links, idx := ParseLinks(lines, idx, p.links);
        read := p.(links := links);
      case GateHeading(heading) =>
        var gate := ParseGate(lines, idx, heading);
        read := p.(gates := p.gates + [gate]);
      case SectionHeading(k) =>
        var sections;
        sections, idx := ParseSection(k, lines, idx, p.sections);
        read := p.(sections := sections);
      case OverallHeading =>
        var overall;
        overall, idx := ParseOverall(lines, idx, p.overall);
        read := p.(overall := overall);
      case Plain =>
    }
  }

  lemma NoPass()
    ensures "FAIL" != "PASS"
  {
    assert "FAIL"[0] == 'F' && "PASS"[0] == 'P';
  }

  method ParseMarkdown(content: string) returns (p: Parsed, missing: seq<string>, failed: seq<string>, passed: bool)
    ensures p == Scan(Text.SplitLines(content), START)
    ensures missing == MissingLinks(p.links) && failed == FailedGates(p.gates) && passed == (p.overall == "PASS")
    ensures HasDefaults(Text.SplitLines(content), p)
    ensures Lacks(Text.SplitLines(content), "## Overall") ==> !passed
  {
    var lines := Text.SplitLines(content);
    var idx := 0;
    p := START;
    while idx < |lines|
      invariant 0 <= idx <= |lines|
      invariant Scan(lines[idx..], p) == Scan(lines, START)
    {
      assert lines[idx..][0] == lines[idx] && lines[idx..][1..] == lines[idx + 1..];
      p, idx := ParseLine(KindOf(lines[idx]), lines, idx + 1, p);
    }
    LackingPartsAreDefault(lines);
    NoPass();
    missing, failed, passed := MissingLinks(p.links), FailedGates(p.gates), p.overall == "PASS";
  }
}
