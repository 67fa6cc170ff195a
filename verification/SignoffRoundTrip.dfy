/** Parsing a written report: what comes back, and what does not. */
module SignoffRoundTrip {
  import opened Values
  import opened SignoffReport
  import opened SignoffParser
  import Text

  // ----- Field lines -----

  predicate IsKey(key: string) {
    key != "" && ':' !in key
  }

  predicate AreKeys(pairs: Pairs) {
    forall i :: 0 <= i < |pairs| ==> IsKey(pairs[i].0) && pairs[i].0 != "Started" && pairs[i].0 != "Ended"
  }

  lemma {:induction false} BeforeColonOf(key: string, rest: string)
    requires ':' !in key
    ensures BeforeColon(key + ":" + rest) == key
  {
    if key == "" {
      assert (key + ":" + rest)[0] == ':';
    } else {
      assert (key + ":" + rest)[0] == key[0];
      assert (key + ":" + rest)[1..] == key[1..] + ":" + rest;
      BeforeColonOf(key[1..], rest);
    }
  }

  lemma BetweenOf(prefix: string, value: string, suffix: string)
    ensures Between(prefix, prefix + value + suffix, suffix) == Some(value)
  {
    var line := prefix + value + suffix;
    assert line[|prefix|..|line| - |suffix|] == value;
  }

  lemma FieldReads(key: string, value: string)
    requires IsKey(key)
    ensures Text.Strip(Field(key, value)) == Field(key, value)
    ensures FieldOf(Field(key, value)) == Some((key, value))
  {
    var line := Field(key, value);
    Text.StripIsIdentity(line);
    assert line[2..] == key + ":" + (" `" + value + "`");
    BeforeColonOf(key, " `" + value + "`");
    BetweenOf("- " + key + ": `", value, "`");
    assert line == ("- " + key + ": `") + value + "`";
  }

  /** A line that starts with "- key:" has that key, if it is a field line at all. */
  lemma PrefixIsKey(line: string, key: string)
    requires ':' !in key && "- " + key + ":" <= line && FieldOf(line).Some?
    ensures FieldOf(line).value.0 == key
  {
    var start := "- " + key + ":";
    assert line == start + line[|start|..];
    assert line[2..] == key + ":" + line[|start|..];
    BeforeColonOf(key, line[|start|..]);
  }

  lemma TimeField(key: string, value: string)
    requires key == "Started" || key == "Ended"
    ensures "- Started:" <= Field(key, value) <==> key == "Started"
    ensures "- Ended:" <= Field(key, value) <==> key == "Ended"
  {
    var line := Field(key, value);
    assert line[2] == key[0];
    if key == "Started" {
      assert line[..10] == "- Started:";
    } else {
      assert line[..8] == "- Ended:";
    }
  }

  lemma TimeFields(value: string)
    ensures KindOf(Field("Started", value)) == Started(value) && KindOf(Field("Ended", value)) == Ended(value)
  {
    FieldReads("Started", value);
    FieldReads("Ended", value);
    TimeField("Started", value);
    TimeField("Ended", value);
  }

  // ----- Headings -----

  predicate IsHeading(line: string) {
    line in ["## Execution Context", "## Required Evidence Links", "## Gate Results", "## Local Data Safety",
             "## Governance Alerts", "## Runtime Snapshots", "## UI E2E Automation", "## Overall"]
  }

  lemma HeadingLines(line: string)
    requires IsHeading(line)
    ensures Text.Strip(line) == line && FieldOf(line).None? && LinkOf(line).None? && EndsSection(line)
    ensures EndsGate(line) <==> line == "## Overall"
  {
    assert line[0] == '#' && line[1] == '#' && line[2] == ' ';
    Text.StripIsIdentity(line);
    assert line[..3] == "## ";
  }

  lemma HeadingKind(line: string)
    requires IsHeading(line)
    ensures KindOf(line) == KindOfHeading(line)
  {
    HeadingLines(line);
    assert line[0] == '#' && line[2] == ' ';
  }

  lemma SectionKinds()
    ensures KindOfHeading("## Execution Context") == ContextHeading
    ensures KindOfHeading("## Required Evidence Links") == LinksHeading
    ensures KindOfHeading("## Gate Results") == Plain
    ensures KindOfHeading("## Local Data Safety") == SectionHeading(SafetySection)
    ensures KindOfHeading("## Governance Alerts") == SectionHeading(GovernanceSection)
    ensures KindOfHeading("## Runtime Snapshots") == SectionHeading(SnapshotsSection)
    ensures KindOfHeading("## UI E2E Automation") == SectionHeading(UiSection)
    ensures KindOfHeading("## Overall") == OverallHeading
  {
    assert "## Local Data Safety"[3] == 'L';
    assert "## Execution Context"[3] == 'E';
    assert "## Governance Alerts"[3] == 'G';
    assert "## Runtime Snapshots"[3] == 'R';
    assert "## UI E2E Automation"[3] == 'U';
  }

  lemma NoHeading(line: string)
    requires !("## " <= line)
    ensures !IsHeading(line) && KindOfHeading(line) == Plain
  {
    if IsHeading(line) {
      HeadingLines(line);
    }
  }

  lemma UntimedKind(raw: string)
    requires var line := Text.Strip(raw); !("- Started:" <= line) && !("- Ended:" <= line) && !("### " <= line)
    ensures KindOf(raw) == KindOfHeading(Text.Strip(raw))
  {
  }

  lemma TimelessKind(raw: string)
    requires FieldOf(Text.Strip(raw)).None? && !("### " <= Text.Strip(raw))
    ensures KindOf(raw) == Plain || KindOf(raw) == KindOfHeading(Text.Strip(raw))
  {
  }

  /** A dash line whose key is not a time is nothing to the main loop. */
  lemma DashLineIsPlain(line: string)
    requires line != "" && line[0] == '-' && Text.Strip(line) == line
    requires FieldOf(line).Some? && FieldOf(line).value.0 != "Started" && FieldOf(line).value.0 != "Ended"
    ensures KindOf(line) == Plain
  {
    QuietFieldIsUntimed(line);
    UntimedKind(line);
    NoHeading(line);
  }

  lemma DashLineEndsNothing(line: string)
    requires line != "" && line[0] == '-' && Text.Strip(line) == line
    ensures !EndsGate(line) && !EndsSection(line)
  {
    NoHeading(line);
  }

  lemma PlainField(key: string, value: string)
    requires IsKey(key) && key != "Started" && key != "Ended"
    ensures KindOf(Field(key, value)) == Plain && !EndsGate(Field(key, value)) && !EndsSection(Field(key, value))
  {
    FieldReads(key, value);
    DashLineIsPlain(Field(key, value));
    DashLineEndsNothing(Field(key, value));
  }

  lemma GateLineReads(name: string, ok: bool)
    requires IsKey(name)
    ensures KindOf(GateLine(name, ok)) == GateHeading(Gate(name, ok, "", None, None)) && EndsGate(GateLine(name, ok))
  {
    var line := GateLine(name, ok);
    var suffix := if ok then ": PASS" else ": FAIL";
    Text.StripIsIdentity(line);
    assert line == "### " + name + suffix;
    assert line[..4] == "### " && line[2] == '#';
    BetweenOf("### ", name, suffix);
    assert line[|line| - 6..] == suffix && suffix[2] == (if ok then 'P' else 'F');
    assert ok <==> line[|line| - 6..] == ": PASS";
  }

  lemma LinkLineReads(path: string, ok: bool)
    ensures Text.Strip(LinkLine(path, ok)) == LinkLine(path, ok) && LinkOf(LinkLine(path, ok)) == Some(Link(path, ok))
  {
    var line := LinkLine(path, ok);
    Text.StripIsIdentity(line);
    BetweenOf(if ok then "- [OK] `" else "- [MISSING] `", path, "`");
    assert line[3] == if ok then 'O' else 'M';
    assert "- [OK] `"[3] == 'O' && "- [MISSING] `"[3] == 'M';
  }

  // ----- Quiet lines -----

  /** Where captured output stands: in a gate's block or in that of a section. */
  datatype Place = InGate | InSection(section: Section)

  predicate IsGateKey(key: string) {
    key == "Command" || key == "Exit Code" || key == "Duration Ms"
  }

  /** The keys the loop over a section looks for. */
  predicate IsSectionKey(k: Section, key: string) {
    match k
    case SafetySection =>
      IsGateKey(key) || key == "Enabled" || key == "Required" || key == "Mode" || key == "Result" || key == "Meta Path"
    case GovernanceSection =>
      || key == "Enabled" || key == "Advisory Only" || key == "Metrics Path" || key == "Metrics Available"
      || key == "Cost Utilization Threshold" || key == "Rejection Rate Threshold" || key == "Cost Utilization Ratio"
      || key == "Rejection Rate" || key == "Alert Count" || key == "Alerts" || key == "Result"
    case SnapshotsSection =>
      || key == "Enabled" || key == "Advisory Only" || key == "Snapshot Path" || key == "Available" || key == "Before Captured"
      || key == "After Captured" || key == "Before Runs Total" || key == "After Runs Total"
    case UiSection =>
      || key == "Enabled" || key == "Advisory Only" || key == "Artifact Path" || key == "Available" || key == "Result"
      || key == "Stages Passed Total" || key == "Stages Failed Total"
  }

  /** The keys a loop that passes the place looks for; the last gate's loop passes the sections too. */
  predicate IsReadKey(place: Place, key: string) {
    match place
    case InGate => IsGateKey(key) || key == "Started" || key == "Ended"
    case InSection(k) => IsGateKey(key) || IsSectionKey(k, key)
  }

  /** A line of captured output that the parser takes for nothing else: stripped, it is no heading of the second
      or third level, and no field line with a key looked for in this place. */
  predicate IsQuiet(place: Place, raw: string) {
    var line := Text.Strip(raw);
    !("## " <= line) && !("### " <= line) && (FieldOf(line).Some? ==> !IsReadKey(place, FieldOf(line).value.0))
  }

  predicate AreQuiet(place: Place, lines: seq<string>) {
    forall i :: 0 <= i < |lines| ==> IsQuiet(place, lines[i])
  }

  lemma QuietEndsNothing(place: Place, raw: string)
    requires IsQuiet(place, raw)
    ensures !EndsGate(raw) && !EndsSection(raw)
  {
    NoHeading(Text.Strip(raw));
  }

  lemma QuietInGate(raw: string)
    requires IsQuiet(InGate, raw)
    ensures KindOf(raw) == Plain
  {
    NoHeading(Text.Strip(raw));
    if FieldOf(Text.Strip(raw)).None? {
      TimelessKind(raw);
    } else {
      QuietFieldIsUntimed(Text.Strip(raw));
      UntimedKind(raw);
    }
  }

  lemma QuietFieldIsUntimed(line: string)
    requires FieldOf(line).Some? && FieldOf(line).value.0 != "Started" && FieldOf(line).value.0 != "Ended"
    ensures !("- Started:" <= line) && !("- Ended:" <= line)
  {
    if "- Started:" <= line {
      PrefixIsKey(line, "Started");
    }
    if "- Ended:" <= line {
      PrefixIsKey(line, "Ended");
    }
  }

  lemma QuietKeepsGate(place: Place, raw: string, g: Gate)
    requires IsQuiet(place, raw)
    ensures GateWith(g, FieldOf(Text.Strip(raw))) == g
  {
  }

  lemma QuietKeepsSection(k: Section, raw: string, s: Sections)
    requires IsQuiet(InSection(k), raw)
    ensures SectionWith(k, s, FieldOf(Text.Strip(raw))) == s
  {
    var field := FieldOf(Text.Strip(raw));
    if field.Some? {
      OtherKeysKeepSection(k, s, field.value.0, field.value.1);
    }
  }

  lemma OtherKeysKeepSection(k: Section, s: Sections, key: string, value: string)
    requires !IsSectionKey(k, key)
    ensures SectionWith(k, s, Some((key, value))) == s
  {
  }

  // ----- Passing over known lines -----

  function GateFields(gate: Gate, pairs: Pairs): Gate
    decreases pairs
  {
    if pairs == [] then gate else GateFields(GateWith(gate, Some(pairs[0])), pairs[1..])
  }

  function SectionFields(k: Section, s: Sections, pairs: Pairs): Sections
    decreases pairs
  {
    if pairs == [] then s else SectionFields(k, SectionWith(k, s, Some(pairs[0])), pairs[1..])
  }

  function ContextFields(context: map<string, string>, pairs: Pairs): map<string, string>
    decreases pairs
  {
    if pairs == [] then context else ContextFields(context[KeyName(pairs[0].0) := pairs[0].1], pairs[1..])
  }

  lemma Cons(line: string, a: seq<string>, rest: seq<string>)
    ensures ([line] + a) + rest == [line] + (a + rest)
    ensures ([line] + a)[0] == line && ([line] + a)[1..] == a
  {
  }

  lemma {:induction false} ScanOne(line: string, rest: seq<string>, p: Parsed)
    ensures var r := Handle(KindOf(line), rest, p); Scan([line] + rest, p) == Scan(r.1, r.0)
  {
    Cons(line, rest, []);
  }

  lemma {:induction false} ReadGateFields(pairs: Pairs, rest: seq<string>, gate: Gate)
    requires AreKeys(pairs)
    ensures ReadGate(FieldLines(pairs) + rest, gate) == ReadGate(rest, GateFields(gate, pairs))
  {
    if pairs == [] {
      assert FieldLines(pairs) + rest == rest;
    } else {
      var line, more := Field(pairs[0].0, pairs[0].1), FieldLines(pairs[1..]);
      Cons(line, more, rest);
      Cons(line, more + rest, []);
      FieldReads(pairs[0].0, pairs[0].1);
      PlainField(pairs[0].0, pairs[0].1);
      ReadGateFields(pairs[1..], rest, GateWith(gate, Some(pairs[0])));
    }
  }

  lemma {:induction false} ReadSectionFields(k: Section, pairs: Pairs, rest: seq<string>, s: Sections)
    requires AreKeys(pairs)
    ensures ReadSection(k, FieldLines(pairs) + rest, s) == ReadSection(k, rest, SectionFields(k, s, pairs))
  {
    if pairs == [] {
      assert FieldLines(pairs) + rest == rest;
    } else {
      var line, more := Field(pairs[0].0, pairs[0].1), FieldLines(pairs[1..]);
      Cons(line, more, rest);
      Cons(line, more + rest, []);
      FieldReads(pairs[0].0, pairs[0].1);
      PlainField(pairs[0].0, pairs[0].1);
      ReadSectionFields(k, pairs[1..], rest, SectionWith(k, s, Some(pairs[0])));
    }
  }

  lemma {:induction false} ReadContextFields(pairs: Pairs, rest: seq<string>, context: map<string, string>)
    requires AreKeys(pairs) && (rest != [] ==> FieldOf(Text.Strip(rest[0])).None?)
    ensures ReadContext(FieldLines(pairs) + rest, context) == (ContextFields(context, pairs), rest)
  {
    if pairs == [] {
      assert FieldLines(pairs) + rest == rest;
    } else {
      var line, more := Field(pairs[0].0, pairs[0].1), FieldLines(pairs[1..]);
      Cons(line, more, rest);
      Cons(line, more + rest, []);
      FieldReads(pairs[0].0, pairs[0].1);
      ReadContextFields(pairs[1..], rest, context[KeyName(pairs[0].0) := pairs[0].1]);
    }
  }

  lemma {:induction false} ScanPlain(line: string, rest: seq<string>, p: Parsed)
    requires KindOf(line) == Plain
    ensures Scan([line] + rest, p) == Scan(rest, p)
  {
    ScanOne(line, rest, p);
  }

  lemma {:induction false} PlainLinesPass(lines: seq<string>, rest: seq<string>, p: Parsed)
    requires forall i :: 0 <= i < |lines| ==> KindOf(lines[i]) == Plain
    ensures Scan(lines + rest, p) == Scan(rest, p)
  {
    if lines == [] {
      assert lines + rest == rest;
    } else {
      var line, more := lines[0], lines[1..];
      assert lines + rest == [line] + (more + rest);
      ScanPlain(line, more + rest, p);
      PlainLinesPass(more, rest, p);
    }
  }

  lemma {:induction false} ScanFields(pairs: Pairs, rest: seq<string>, p: Parsed)
    requires AreKeys(pairs)
    ensures Scan(FieldLines(pairs) + rest, p) == Scan(rest, p)
  {
    var lines := FieldLines(pairs);
    forall i | 0 <= i < |lines|
      ensures KindOf(lines[i]) == Plain
    {
      PlainField(pairs[i].0, pairs[i].1);
    }
    PlainLinesPass(lines, rest, p);
  }

  /** Quiet lines of a gate's output change nothing, whichever loop meets them. */
  lemma {:induction false} QuietGateLinesPass(lines: seq<string>, rest: seq<string>, p: Parsed)
    requires AreQuiet(InGate, lines)
    ensures Scan(lines + rest, p) == Scan(rest, p)
  {
    forall i | 0 <= i < |lines|
      ensures KindOf(lines[i]) == Plain
    {
      QuietInGate(lines[i]);
    }
    PlainLinesPass(lines, rest, p);
  }

  lemma {:induction false} GateSkipsQuietLines(place: Place, lines: seq<string>, rest: seq<string>, gate: Gate)
    requires AreQuiet(place, lines)
    ensures ReadGate(lines + rest, gate) == ReadGate(rest, gate)
  {
    if lines == [] {
      assert lines + rest == rest;
    } else {
      var line, more := lines[0], lines[1..];
      assert lines + rest == [line] + (more + rest);
      assert ([line] + (more + rest))[1..] == more + rest;
      QuietEndsNothing(place, line);
      QuietKeepsGate(place, line, gate);
      GateSkipsQuietLines(place, more, rest, gate);
    }
  }

  lemma {:induction false} SectionSkipsQuietLines(k: Section, lines: seq<string>, rest: seq<string>, s: Sections)
    requires AreQuiet(InSection(k), lines)
    ensures ReadSection(k, lines + rest, s) == ReadSection(k, rest, s)
  {
    if lines == [] {
      assert lines + rest == rest;
    } else {
      var line, more := lines[0], lines[1..];
      assert lines + rest == [line] + (more + rest);
      assert ([line] + (more + rest))[1..] == more + rest;
      QuietEndsNothing(InSection(k), line);
      QuietKeepsSection(k, line, s);
      SectionSkipsQuietLines(k, more, rest, s);
    }
  }

  lemma {:induction false} ReadLinkLines(evidence: seq<string>, missing: seq<string>, rest: seq<string>, links: seq<Link>)
    requires rest != [] ==> LinkOf(Text.Strip(rest[0])).None?
    ensures ReadLinks(LinkLines(evidence, missing) + rest, links) == (links + LinksOf(evidence, missing), rest)
  {
    if evidence == [] {
      assert LinkLines(evidence, missing) + rest == rest;
      assert links + LinksOf(evidence, missing) == links;
    } else {
      var link := Link(evidence[0], evidence[0] !in missing);
      var line, more := LinkLine(link.path, link.ok), LinkLines(evidence[1..], missing);
      Cons(line, more, rest);
      Cons(line, more + rest, []);
      LinkLineReads(link.path, link.ok);
      ReadLinkLines(evidence[1..], missing, rest, links + [link]);
      assert links + [link] + LinksOf(evidence[1..], missing) == links + LinksOf(evidence, missing);
    }
  }

  // ----- What a report comes back as -----

  function LinksOf(evidence: seq<string>, missing: seq<string>): (links: seq<Link>)
    ensures |links| == |evidence|
    ensures forall i :: 0 <= i < |links| ==> links[i] == Link(evidence[i], evidence[i] !in missing)
  {
    if evidence == [] then [] else [Link(evidence[0], evidence[0] !in missing)] + LinksOf(evidence[1..], missing)
  }

  function GateBack(g: GateResult): Gate {
    Gate(g.name, g.ok, Text.Join(g.command, " "), Some(g.exitCode), Some(g.durationMs))
  }

  function SafetyBack(s: SafetyResult): DataSafety {
    DataSafety(s.enabled, s.required, if s.required then "required" else "advisory", Text.Join(s.command, " "), Some(s.exitCode),
               Some(s.durationMs), PassFail(s.ok), Some(s.ok), s.metaPath)
  }

  /** The last gate's fields are overwritten by those of the data-safety block. */
  function Overwritten(g: Gate, s: SafetyResult): Gate {
    g.(command := Text.Join(s.command, " "), exitCode := Some(s.exitCode), durationMs := Some(s.durationMs))
  }

  function GatesBack(gates: seq<GateResult>): (back: seq<Gate>)
    ensures |back| == |gates|
    ensures forall i :: 0 <= i < |back| ==> back[i] == GateBack(gates[i])
  {
    if gates == [] then [] else GatesBack(gates[..|gates| - 1]) + [GateBack(gates[|gates| - 1])]
  }

  /** A figure comes back unless it is unreadable as one. */
  function FigureBack(figure: string): Option<string> {
    FigureOr(figure, None)
  }

  function CountBack(count: Option<int>): Count {
    if count.Some? then Counted(count.value) else NoCount
  }

  function GovernanceBack(g: GovernanceResult): Governance {
    Governance(g.enabled, g.advisoryOnly, g.metricsPath, g.metricsAvailable, FigureBack(g.costThreshold),
               FigureBack(g.rejectionThreshold), FigureBack(OrNA(g.costRatio)), FigureBack(OrNA(g.rejectionRate)), |g.alerts|,
               AlertsOf(AlertText(g.alerts)),
               if g.result in ["PASS", "ALERT", "UNAVAILABLE"] then g.result else "UNAVAILABLE")
  }

  function SnapshotsBack(s: SnapshotResult): Snapshots {
    Snapshots(s.enabled, s.advisoryOnly, s.path, s.available, s.beforeCaptured, s.afterCaptured, CountBack(s.runsBefore),
              CountBack(s.runsAfter))
  }

  function UiBack(u: UiResult): UiRun {
    UiRun(u.enabled, u.advisoryOnly, u.path, u.available,
          if u.result in ["PASS", "FAIL", "UNAVAILABLE"] then u.result else "UNAVAILABLE",
          CountBack(u.stagesPassed), CountBack(u.stagesFailed))
  }

  function SectionsBack(r: Report): Sections {
    Sections(SafetyBack(r.safety), GovernanceBack(r.governance), SnapshotsBack(r.snapshots), UiBack(r.ui))
  }

  function GatesRecovered(gates: seq<GateResult>, safety: SafetyResult): seq<Gate> {
    var n := |gates|;
    if n == 0 then [] else GatesBack(gates[..n - 1]) + [Overwritten(GateBack(gates[n - 1]), safety)]
  }

  function Recovered(r: Report): Parsed {
    Parsed(r.startedAt, r.endedAt, ContextFields(map[], ContextPairs(r.context)), LinksOf(r.evidence, r.missing),
           GatesRecovered(r.gates, r.safety), SectionsBack(r), PassFail(OverallPass(r)))
  }

  // ----- What the blocks leave behind -----

  lemma {:induction false} GateFieldsSplit(gate: Gate, a: Pairs, b: Pairs)
    ensures GateFields(gate, a + b) == GateFields(GateFields(gate, a), b)
    decreases |a|
  {
    if a == [] {
      assert a + b == b;
    } else {
      assert (a + b)[0] == a[0] && (a + b)[1..] == a[1..] + b;
      GateFieldsSplit(GateWith(gate, Some(a[0])), a[1..], b);
    }
  }

  lemma {:induction false} OtherFieldsKeepGate(gate: Gate, pairs: Pairs)
    requires forall i :: 0 <= i < |pairs| ==> !IsGateKey(pairs[i].0)
    ensures GateFields(gate, pairs) == gate
  {
    if pairs != [] {
      assert !IsGateKey(pairs[0].0);
      OtherFieldsKeepGate(gate, pairs[1..]);
    }
  }

  /** Read as a gate's lines, the data-safety block puts its own command, exit code and duration there. */
  lemma {:induction false} SafetyOverwritesGate(gate: Gate, s: SafetyResult)
    ensures GateFields(gate, SafetyPairs(s)) == Overwritten(gate, s)
  {
    var g := GateResult(gate.name, s.command, gate.ok, s.exitCode, s.durationMs, "");
    var front := SafetySwitches(s) + SafetyMode(s);
    GateFieldsSplit(gate, front + SafetyRun(s), SafetyVerdict(s));
    GateFieldsSplit(gate, front, SafetyRun(s));
    OtherFieldsKeepGate(gate, front);
    GatePairsOverwrite(gate, g);
    OtherFieldsKeepGate(GateFields(gate, SafetyRun(s)), SafetyVerdict(s));
  }

  lemma {:induction false} GatePairsOverwrite(gate: Gate, g: GateResult)
    ensures GateFields(gate, GatePairs(g)) ==
            gate.(command := Text.Join(g.command, " "), exitCode := Some(g.exitCode), durationMs := Some(g.durationMs))
  {
    var pairs := GatePairs(g);
    Text.ParseNumeral(g.exitCode);
    Text.ParseDigits(g.durationMs);
    var commanded := gate.(command := Text.Join(g.command, " "));
    var exited := commanded.(exitCode := Some(g.exitCode));
    assert GateWith(gate, Some(pairs[0])) == commanded;
    assert GateWith(commanded, Some(pairs[1])) == exited;
    assert GateWith(exited, Some(pairs[2])) == exited.(durationMs := Some(g.durationMs));
    assert GateFields(gate, pairs) == GateFields(commanded, pairs[1..]);
    assert pairs[1..][0] == pairs[1] && pairs[1..][1..] == pairs[2..];
    assert pairs[2..][0] == pairs[2] && pairs[2..][1..] == pairs[3..];
    assert pairs[3..] == [] && GateFields(exited, pairs[2..]) == GateFields(exited.(durationMs := Some(g.durationMs)), pairs[3..]);
  }

  lemma {:induction false} AdvisoryFieldsKeepGate(gate: Gate, r: Report)
    ensures GateFields(gate, GovernancePairs(r.governance)) == gate
    ensures GateFields(gate, SnapshotPairs(r.snapshots)) == gate
    ensures GateFields(gate, UiPairs(r.ui)) == gate
  {
    OtherFieldsKeepGate(gate, GovernancePairs(r.governance));
    OtherFieldsKeepGate(gate, SnapshotPairs(r.snapshots));
    OtherFieldsKeepGate(gate, UiPairs(r.ui));
  }

  lemma {:induction false} SectionFieldsSplit(k: Section, s: Sections, a: Pairs, b: Pairs)
    ensures SectionFields(k, s, a + b) == SectionFields(k, SectionFields(k, s, a), b)
    decreases |a|
  {
    if a == [] {
      assert a + b == b;
    } else {
      assert (a + b)[0] == a[0] && (a + b)[1..] == a[1..] + b;
      SectionFieldsSplit(k, SectionWith(k, s, Some(a[0])), a[1..], b);
    }
  }

  lemma {:induction false} TwoFields(k: Section, a: (string, string), b: (string, string), s0: Sections,
                                     s1: Sections, s2: Sections)
    requires SectionWith(k, s0, Some(a)) == s1 && SectionWith(k, s1, Some(b)) == s2
    ensures SectionFields(k, s0, [a, b]) == s2
  {
    assert [a, b][1..] == [b];
    assert SectionFields(k, s1, [b]) == SectionFields(k, s2, [b][1..]) == s2;
  }

  lemma {:induction false} OneField(k: Section, pair: (string, string), s0: Sections, s1: Sections)
    requires SectionWith(k, s0, Some(pair)) == s1
    ensures SectionFields(k, s0, [pair]) == s1
  {
    assert [pair][1..] == [];
  }

  lemma {:induction false} FourParts(k: Section, s: Sections, a: Pairs, b: Pairs, c: Pairs, d: Pairs)
    ensures SectionFields(k, s, a + b + c + d) ==
            SectionFields(k, SectionFields(k, SectionFields(k, SectionFields(k, s, a), b), c), d)
  {
    SectionFieldsSplit(k, s, a + b + c, d);
    SectionFieldsSplit(k, s, a + b, c);
    SectionFieldsSplit(k, s, a, b);
  }

  lemma TruthReads(truth: bool, default: bool)
    ensures TruthOr(Truth(truth), default) == truth
  {
    assert "true"[0] == 't' && "false"[0] == 'f';
  }

  // ----- The data-safety block -----

  lemma {:induction false} SafetySwitchesBack(s: SafetyResult, b: Sections)
    ensures SectionFields(SafetySection, b, SafetySwitches(s)) ==
            b.(safety := b.safety.(enabled := s.enabled, required := s.required))
  {
    TruthReads(s.enabled, b.safety.enabled);
    TruthReads(s.required, b.safety.required);
    var s1 := b.(safety := b.safety.(enabled := s.enabled));
    TwoFields(SafetySection, SafetySwitches(s)[0], SafetySwitches(s)[1], b, s1,
              s1.(safety := s1.safety.(required := s.required)));
  }

  lemma {:induction false} SafetyModeBack(s: SafetyResult, b: Sections)
    ensures SectionFields(SafetySection, b, SafetyMode(s)) ==
            b.(safety := b.safety.(mode := if s.required then "required" else "advisory"))
  {
    OneField(SafetySection, SafetyMode(s)[0], b, b.(safety := b.safety.(mode := if s.required then "required" else "advisory")));
  }

  lemma {:induction false} SafetyRunBack(s: SafetyResult, b: Sections)
    ensures SectionFields(SafetySection, b, SafetyRun(s)) ==
            b.(safety := b.safety.(command := Text.Join(s.command, " "), exitCode := Some(s.exitCode), durationMs := Some(s.durationMs)))
  {
    var run := SafetyRun(s);
    Text.ParseNumeral(s.exitCode);
    Text.ParseDigits(s.durationMs);
    var s1 := b.(safety := b.safety.(command := Text.Join(s.command, " ")));
    var s2 := s1.(safety := s1.safety.(exitCode := Some(s.exitCode)));
    var s3 := s2.(safety := s2.safety.(durationMs := Some(s.durationMs)));
    assert run == [run[0]] + [run[1], run[2]];
    SectionFieldsSplit(SafetySection, b, [run[0]], [run[1], run[2]]);
    OneField(SafetySection, run[0], b, s1);
    TwoFields(SafetySection, run[1], run[2], s1, s2, s3);
  }

  lemma {:induction false} SafetyVerdictBack(s: SafetyResult, b: Sections)
    ensures SectionFields(SafetySection, b, SafetyVerdict(s)) ==
            b.(safety := b.safety.(result := PassFail(s.ok), ok := Some(s.ok), metaPath := s.metaPath))
  {
    var s1 := b.(safety := b.safety.(result := PassFail(s.ok), ok := Some(s.ok)));
    TwoFields(SafetySection, SafetyVerdict(s)[0], SafetyVerdict(s)[1], b, s1,
              s1.(safety := s1.safety.(metaPath := s.metaPath)));
  }

  lemma {:induction false} SafetyFieldsBack(s: SafetyResult, b: Sections)
    ensures SectionFields(SafetySection, b, SafetyPairs(s)) == b.(safety := SafetyBack(s))
  {
    FourParts(SafetySection, b, SafetySwitches(s), SafetyMode(s), SafetyRun(s), SafetyVerdict(s));
    SafetySwitchesBack(s, b);
    var s1 := SectionFields(SafetySection, b, SafetySwitches(s));
    SafetyModeBack(s, s1);
    var s2 := SectionFields(SafetySection, s1, SafetyMode(s));
    SafetyRunBack(s, s2);
    SafetyVerdictBack(s, SectionFields(SafetySection, s2, SafetyRun(s)));
  }

  // ----- The advisory sections -----

  lemma CountReads(count: Option<int>, default: Count)
    ensures CountOr(CountOrNA(count), default) == CountBack(count)
  {
    if count.Some? {
      var text := Text.Numeral(count.value);
      Text.ParseNumeral(count.value);
      Text.NumeralIsPlain(count.value);
      Text.StripIsIdentity(text);
      assert "n/a"[0] == 'n' && text[0] != 'n';
    } else {
      Text.StripIsIdentity("n/a");
    }
  }

  lemma {:induction false} SnapshotSwitchesBack(s: SnapshotResult, b: Sections)
    ensures SectionFields(SnapshotsSection, b, SnapshotSwitches(s)) ==
            b.(snapshots := b.snapshots.(enabled := s.enabled, advisoryOnly := s.advisoryOnly))
  {
    TruthReads(s.enabled, b.snapshots.enabled);
    TruthReads(s.advisoryOnly, b.snapshots.advisoryOnly);
    var s1 := b.(snapshots := b.snapshots.(enabled := s.enabled));
    TwoFields(SnapshotsSection, SnapshotSwitches(s)[0], SnapshotSwitches(s)[1], b, s1,
              s1.(snapshots := s1.snapshots.(advisoryOnly := s.advisoryOnly)));
  }

  lemma {:induction false} SnapshotFileBack(s: SnapshotResult, b: Sections)
    ensures SectionFields(SnapshotsSection, b, SnapshotFile(s)) ==
            b.(snapshots := b.snapshots.(path := s.path, available := s.available))
  {
    TruthReads(s.available, b.snapshots.available);
    var s1 := b.(snapshots := b.snapshots.(path := s.path));
    TwoFields(SnapshotsSection, SnapshotFile(s)[0], SnapshotFile(s)[1], b, s1,
              s1.(snapshots := s1.snapshots.(available := s.available)));
  }

  lemma {:induction false} SnapshotCapturesBack(s: SnapshotResult, b: Sections)
    ensures SectionFields(SnapshotsSection, b, SnapshotCaptures(s)) ==
            b.(snapshots := b.snapshots.(beforeCaptured := s.beforeCaptured, afterCaptured := s.afterCaptured))
  {
    TruthReads(s.beforeCaptured, b.snapshots.beforeCaptured);
    TruthReads(s.afterCaptured, b.snapshots.afterCaptured);
    var s1 := b.(snapshots := b.snapshots.(beforeCaptured := s.beforeCaptured));
    TwoFields(SnapshotsSection, SnapshotCaptures(s)[0], SnapshotCaptures(s)[1], b, s1,
              s1.(snapshots := s1.snapshots.(afterCaptured := s.afterCaptured)));
  }

  lemma {:induction false} SnapshotTotalsBack(s: SnapshotResult, b: Sections)
    ensures SectionFields(SnapshotsSection, b, SnapshotTotals(s)) ==
            b.(snapshots := b.snapshots.(runsBefore := CountBack(s.runsBefore), runsAfter := CountBack(s.runsAfter)))
  {
    CountReads(s.runsBefore, b.snapshots.runsBefore);
    CountReads(s.runsAfter, b.snapshots.runsAfter);
    var s1 := b.(snapshots := b.snapshots.(runsBefore := CountBack(s.runsBefore)));
    TwoFields(SnapshotsSection, SnapshotTotals(s)[0], SnapshotTotals(s)[1], b, s1,
              s1.(snapshots := s1.snapshots.(runsAfter := CountBack(s.runsAfter))));
  }

  lemma {:induction false} SnapshotFieldsBack(s: SnapshotResult, b: Sections)
    ensures SectionFields(SnapshotsSection, b, SnapshotPairs(s)) == b.(snapshots := SnapshotsBack(s))
  {
    FourParts(SnapshotsSection, b, SnapshotSwitches(s), SnapshotFile(s), SnapshotCaptures(s), SnapshotTotals(s));
    SnapshotSwitchesBack(s, b);
    var s1 := SectionFields(SnapshotsSection, b, SnapshotSwitches(s));
    SnapshotFileBack(s, s1);
    var s2 := SectionFields(SnapshotsSection, s1, SnapshotFile(s));
    SnapshotCapturesBack(s, s2);
    SnapshotTotalsBack(s, SectionFields(SnapshotsSection, s2, SnapshotCaptures(s)));
  }

  lemma {:induction false} UiSwitchesBack(u: UiResult, b: Sections)
    ensures SectionFields(UiSection, b, UiSwitches(u)) ==
            b.(ui := b.ui.(enabled := u.enabled, advisoryOnly := u.advisoryOnly))
  {
    TruthReads(u.enabled, b.ui.enabled);
    TruthReads(u.advisoryOnly, b.ui.advisoryOnly);
    var s1 := b.(ui := b.ui.(enabled := u.enabled));
    TwoFields(UiSection, UiSwitches(u)[0], UiSwitches(u)[1], b, s1, s1.(ui := s1.ui.(advisoryOnly := u.advisoryOnly)));
  }

  lemma {:induction false} UiFileBack(u: UiResult, b: Sections)
    ensures SectionFields(UiSection, b, UiFile(u)) == b.(ui := b.ui.(path := u.path, available := u.available))
  {
    TruthReads(u.available, b.ui.available);
    var s1 := b.(ui := b.ui.(path := u.path));
    TwoFields(UiSection, UiFile(u)[0], UiFile(u)[1], b, s1, s1.(ui := s1.ui.(available := u.available)));
  }

  lemma {:induction false} UiTotalsBack(u: UiResult, b: Sections)
    ensures SectionFields(UiSection, b, UiTotals(u)) ==
            b.(ui := b.ui.(stagesPassed := CountBack(u.stagesPassed), stagesFailed := CountBack(u.stagesFailed)))
  {
    CountReads(u.stagesPassed, b.ui.stagesPassed);
    CountReads(u.stagesFailed, b.ui.stagesFailed);
    var s1 := b.(ui := b.ui.(stagesPassed := CountBack(u.stagesPassed)));
    TwoFields(UiSection, UiTotals(u)[0], UiTotals(u)[1], b, s1,
              s1.(ui := s1.ui.(stagesFailed := CountBack(u.stagesFailed))));
  }

  lemma {:induction false} UiFieldsBack(u: UiResult, b: Sections)
    requires b.ui.result == "UNAVAILABLE"
    ensures SectionFields(UiSection, b, UiPairs(u)) == b.(ui := UiBack(u))
  {
    FourParts(UiSection, b, UiSwitches(u), UiFile(u), [("Result", u.result)], UiTotals(u));
    UiSwitchesBack(u, b);
    var s1 := SectionFields(UiSection, b, UiSwitches(u));
    UiFileBack(u, s1);
    var s2 := SectionFields(UiSection, s1, UiFile(u));
    UiVerdictBack(u, s2);
    UiTotalsBack(u, SectionFields(UiSection, s2, [("Result", u.result)]));
  }

  lemma {:induction false} UiVerdictBack(u: UiResult, b: Sections)
    requires b.ui.result == "UNAVAILABLE"
    ensures SectionFields(UiSection, b, [("Result", u.result)]) == b.(ui := b.ui.(result := UiBack(u).result))
  {
    OneField(UiSection, ("Result", u.result), b, b.(ui := b.ui.(result := UiBack(u).result)));
  }

  lemma {:induction false} GovernanceSwitchesBack(g: GovernanceResult, b: Sections)
    ensures SectionFields(GovernanceSection, b, GovernanceSwitches(g)) ==
            b.(governance := b.governance.(enabled := g.enabled, advisoryOnly := g.advisoryOnly))
  {
    TruthReads(g.enabled, b.governance.enabled);
    TruthReads(g.advisoryOnly, b.governance.advisoryOnly);
    var s1 := b.(governance := b.governance.(enabled := g.enabled));
    TwoFields(GovernanceSection, GovernanceSwitches(g)[0], GovernanceSwitches(g)[1], b, s1,
              s1.(governance := s1.governance.(advisoryOnly := g.advisoryOnly)));
  }

  lemma {:induction false} GovernanceFileBack(g: GovernanceResult, b: Sections)
    ensures SectionFields(GovernanceSection, b, GovernanceFile(g)) ==
            b.(governance := b.governance.(metricsPath := g.metricsPath, metricsAvailable := g.metricsAvailable))
  {
    TruthReads(g.metricsAvailable, b.governance.metricsAvailable);
    var s1 := b.(governance := b.governance.(metricsPath := g.metricsPath));
    TwoFields(GovernanceSection, GovernanceFile(g)[0], GovernanceFile(g)[1], b, s1,
              s1.(governance := s1.governance.(metricsAvailable := g.metricsAvailable)));
  }

  /** No figure has been read yet. */
  predicate NoFigures(g: Governance) {
    g.costThreshold.None? && g.rejectionThreshold.None? && g.costRatio.None? && g.rejectionRate.None?
  }

  lemma {:induction false} GovernanceThresholdsBack(g: GovernanceResult, b: Sections)
    requires NoFigures(b.governance)
    ensures SectionFields(GovernanceSection, b, GovernanceThresholds(g)) ==
            b.(governance := b.governance.(costThreshold := FigureBack(g.costThreshold),
                                           rejectionThreshold := FigureBack(g.rejectionThreshold)))
  {
    var s1 := b.(governance := b.governance.(costThreshold := FigureBack(g.costThreshold)));
    TwoFields(GovernanceSection, GovernanceThresholds(g)[0], GovernanceThresholds(g)[1], b, s1,
              s1.(governance := s1.governance.(rejectionThreshold := FigureBack(g.rejectionThreshold))));
  }

  lemma {:induction false} GovernanceRatesBack(g: GovernanceResult, b: Sections)
    requires b.governance.costRatio.None? && b.governance.rejectionRate.None?
    ensures SectionFields(GovernanceSection, b, GovernanceRates(g)) ==
            b.(governance := b.governance.(costRatio := FigureBack(OrNA(g.costRatio)),
                                           rejectionRate := FigureBack(OrNA(g.rejectionRate))))
  {
    var s1 := b.(governance := b.governance.(costRatio := FigureBack(OrNA(g.costRatio))));
    TwoFields(GovernanceSection, GovernanceRates(g)[0], GovernanceRates(g)[1], b, s1,
              s1.(governance := s1.governance.(rejectionRate := FigureBack(OrNA(g.rejectionRate)))));
  }

  lemma {:induction false} GovernanceAlertsBack(g: GovernanceResult, b: Sections)
    ensures SectionFields(GovernanceSection, b, GovernanceAlerts(g)) ==
            b.(governance := b.governance.(alertCount := |g.alerts|, alerts := AlertsOf(AlertText(g.alerts))))
  {
    Text.ParseDigits(|g.alerts|);
    var s1 := b.(governance := b.governance.(alertCount := |g.alerts|));
    TwoFields(GovernanceSection, GovernanceAlerts(g)[0], GovernanceAlerts(g)[1], b, s1,
              s1.(governance := s1.governance.(alerts := AlertsOf(AlertText(g.alerts)))));
  }

  lemma {:induction false} GovernanceVerdictBack(g: GovernanceResult, b: Sections)
    requires b.governance.result == "UNAVAILABLE"
    ensures SectionFields(GovernanceSection, b, [("Result", g.result)]) ==
            b.(governance := b.governance.(result := GovernanceBack(g).result))
  {
    OneField(GovernanceSection, ("Result", g.result), b, b.(governance := b.governance.(result := GovernanceBack(g).result)));
  }

  lemma {:induction false} GovernanceFieldsBack(g: GovernanceResult, b: Sections)
    requires NoFigures(b.governance) && b.governance.result == "UNAVAILABLE"
    ensures SectionFields(GovernanceSection, b, GovernancePairs(g)) == b.(governance := GovernanceBack(g))
  {
    var front := GovernanceSwitches(g) + GovernanceFile(g) + GovernanceThresholds(g) + GovernanceRates(g);
    var verdict := [("Result", g.result)];
    SectionFieldsSplit(GovernanceSection, b, front + GovernanceAlerts(g), verdict);
    SectionFieldsSplit(GovernanceSection, b, front, GovernanceAlerts(g));
    FourParts(GovernanceSection, b, GovernanceSwitches(g), GovernanceFile(g), GovernanceThresholds(g), GovernanceRates(g));
    GovernanceSwitchesBack(g, b);
    var s1 := SectionFields(GovernanceSection, b, GovernanceSwitches(g));
    GovernanceFileBack(g, s1);
    var s2 := SectionFields(GovernanceSection, s1, GovernanceFile(g));
    GovernanceThresholdsBack(g, s2);
    var s3 := SectionFields(GovernanceSection, s2, GovernanceThresholds(g));
    GovernanceRatesBack(g, s3);
    var s4 := SectionFields(GovernanceSection, s3, GovernanceRates(g));
    GovernanceAlertsBack(g, s4);
    GovernanceVerdictBack(g, SectionFields(GovernanceSection, s4, GovernanceAlerts(g)));
  }

  // ----- Keys -----

  lemma ContextKeys(c: RunContext)
    ensures AreKeys(ContextPairs(c))
  {
  }

  lemma GateKeys(g: GateResult)
    ensures AreKeys(GatePairs(g))
  {
  }

  lemma SafetyKeys(s: SafetyResult)
    ensures AreKeys(SafetyPairs(s))
  {
  }

  lemma GovernanceKeys(g: GovernanceResult)
    ensures AreKeys(GovernancePairs(g))
  {
  }

  lemma SnapshotKeys(s: SnapshotResult)
    ensures AreKeys(SnapshotPairs(s))
  {
  }

  lemma UiKeys(u: UiResult)
    ensures AreKeys(UiPairs(u))
  {
  }
}
