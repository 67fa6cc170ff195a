/** The round trip of the signoff evidence: write, split into lines, parse. */
module SignoffTheorems {
  import opened Values
  import opened SignoffReport
  import opened SignoffParser
  import opened SignoffRoundTrip
  import Text

  // ----- Reports that print cleanly -----

  predicate OneLinePairs(pairs: Pairs) {
    forall i :: 0 <= i < |pairs| ==> Text.IsOneLine(pairs[i].0) && Text.IsOneLine(pairs[i].1)
  }

  /** The lines a block's output becomes. */
  function OutputLines(output: string): seq<string> {
    Text.SplitLines((if output == "" then "(no output)" else output) + "\n")
  }

  predicate OneLineGate(g: GateResult) {
    Text.IsOneLine(g.name) && OneLinePairs(GatePairs(g))
  }

  predicate GatePrintable(g: GateResult) {
    IsKey(g.name) && OneLineGate(g) && AreQuiet(InGate, OutputLines(g.output))
  }

  predicate OneLineSections(r: Report) {
    && OneLinePairs(SafetyPairs(r.safety)) && OneLinePairs(GovernancePairs(r.governance))
    && OneLinePairs(SnapshotPairs(r.snapshots)) && OneLinePairs(UiPairs(r.ui))
  }

  predicate QuietSections(r: Report) {
    && AreQuiet(InSection(SafetySection), OutputLines(r.safety.output))
    && AreQuiet(InSection(GovernanceSection), OutputLines(r.governance.output))
    && AreQuiet(InSection(SnapshotsSection), OutputLines(r.snapshots.output))
    && AreQuiet(InSection(UiSection), OutputLines(r.ui.output))
  }

  /** No field holds a line break; the captured output is any. */
  predicate OneLineFields(r: Report) {
    && Text.IsOneLine(r.startedAt) && Text.IsOneLine(r.endedAt) && OneLinePairs(ContextPairs(r.context))
    && (forall i :: 0 <= i < |r.evidence| ==> Text.IsOneLine(r.evidence[i]))
    && (forall i :: 0 <= i < |r.gates| ==> OneLineGate(r.gates[i]))
    && OneLineSections(r)
  }

  /** No field holds a line break, gate names are neither empty nor hold a colon, and every line of captured
      output is quiet. */
  predicate Printable(r: Report) {
    OneLineFields(r) && (forall i :: 0 <= i < |r.gates| ==> GatePrintable(r.gates[i])) && QuietSections(r)
  }

  // ----- The lines of the text -----

  function Tail(output: string): seq<string> {
    ["```text"] + (OutputLines(output) + ["```", ""])
  }

  function SplitBlock(heading: string, pairs: Pairs, output: string): seq<string> {
    [heading] + (FieldLines(pairs) + Tail(output))
  }

  function GateLines(g: GateResult): seq<string> {
    SplitBlock(GateLine(g.name, g.ok), GatePairs(g), g.output)
  }

  function SplitGates(gates: seq<GateResult>): seq<string> {
    if gates == [] then []
    else
      SplitGates(gates[..|gates| - 1]) + GateLines(gates[|gates| - 1])
  }

  function End(r: Report): seq<string> {
    ["## Overall", Field("Result", PassFail(OverallPass(r)))]
  }

  function SplitSections(r: Report): seq<string> {
    SplitBlock("## Local Data Safety", SafetyPairs(r.safety), r.safety.output)
    + (SplitBlock("## Governance Alerts", GovernancePairs(r.governance), r.governance.output)
       + (SplitBlock("## Runtime Snapshots", SnapshotPairs(r.snapshots), r.snapshots.output)
          + (SplitBlock("## UI E2E Automation", UiPairs(r.ui), r.ui.output) + End(r))))
  }

  function SplitReport(r: Report): seq<string> {
    Preamble(r)
    + (FieldLines(ContextPairs(r.context))
       + ([""] + (Links(r) + (SplitGates(r.gates) + SplitSections(r)))))
  }

  lemma OneLineConcat(a: string, b: string)
    requires Text.IsOneLine(a) && Text.IsOneLine(b)
    ensures Text.IsOneLine(a + b)
  {
  }

  lemma MarksAreOneLine()
    ensures Text.IsOneLine("- ") && Text.IsOneLine(": `") && Text.IsOneLine("`") && Text.IsOneLine("- [OK] `")
    ensures Text.IsOneLine("- [MISSING] `") && Text.IsOneLine("### ") && Text.IsOneLine(": PASS") && Text.IsOneLine(": FAIL")
    ensures Text.IsOneLine("```text") && Text.IsOneLine("```") && Text.IsOneLine("")
  {
  }

  lemma HeadingsAreOneLine()
    ensures Text.IsOneLine("## Local Data Safety") && Text.IsOneLine("## Governance Alerts")
    ensures Text.IsOneLine("## Runtime Snapshots") && Text.IsOneLine("## UI E2E Automation")
    ensures Text.IsOneLine("## Overall")
  {
  }

  lemma EarlyHeadingsAreOneLine()
    ensures Text.IsOneLine("## Execution Context") && Text.IsOneLine("## Required Evidence Links")
    ensures Text.IsOneLine("## Gate Results")
  {
  }

  lemma TitleIsOneLine()
    ensures Text.IsOneLine("# Release Candidate Signoff Evidence")
  {
  }

  lemma FieldIsOneLine(key: string, value: string)
    requires Text.IsOneLine(key) && Text.IsOneLine(value)
    ensures Text.IsOneLine(Field(key, value))
  {
    MarksAreOneLine();
    OneLineConcat("- ", key);
    OneLineConcat("- " + key, ": `");
    OneLineConcat("- " + key + ": `", value);
    OneLineConcat("- " + key + ": `" + value, "`");
  }

  lemma LinkLineIsOneLine(path: string, present: bool)
    requires Text.IsOneLine(path)
    ensures Text.IsOneLine(LinkLine(path, present))
  {
    MarksAreOneLine();
    var mark := if present then "- [OK] `" else "- [MISSING] `";
    OneLineConcat(mark, path);
    OneLineConcat(mark + path, "`");
  }

  lemma GateLineIsOneLine(name: string, ok: bool)
    requires Text.IsOneLine(name)
    ensures Text.IsOneLine(GateLine(name, ok))
  {
    MarksAreOneLine();
    OneLineConcat("### ", name);
    OneLineConcat("### " + name, if ok then ": PASS" else ": FAIL");
  }

  lemma {:induction false} FieldLinesAreOneLine(pairs: Pairs)
    requires OneLinePairs(pairs)
    ensures Text.Broken(FieldLines(pairs)) == FieldLines(pairs)
  {
    forall i | 0 <= i < |pairs|
      ensures Text.IsOneLine(FieldLines(pairs)[i])
    {
      FieldIsOneLine(pairs[i].0, pairs[i].1);
    }
    Text.BrokenLines(FieldLines(pairs));
  }

  lemma FenceSplits(output: string)
    ensures Text.Broken(Fence(output)) == Tail(output)
  {
    var shown := if output == "" then "(no output)" else output;
    MarksAreOneLine();
    FencedBreaks("```text", shown, "```", "");
    assert Fence(output) == ["```text"] + ([shown] + ["```", ""]);
  }

  lemma {:induction false} FencedBreaks(open: string, shown: string, close: string, blank: string)
    requires Text.IsOneLine(open) && Text.IsOneLine(close) && Text.IsOneLine(blank)
    ensures Text.Broken([open] + ([shown] + [close, blank])) == [open] + (Text.SplitLines(shown + "\n") + [close, blank])
  {
    Text.BrokenConcat([open], [shown] + [close, blank]);
    Text.BrokenConcat([shown], [close, blank]);
    Text.BrokenLines([open]);
    Text.BrokenLines([close, blank]);
    assert Text.Broken([shown]) == Text.SplitLines(shown + "\n");
  }

  lemma BlockSplits(heading: string, pairs: Pairs, output: string)
    requires Text.IsOneLine(heading) && OneLinePairs(pairs)
    ensures Text.Broken(Block(heading, pairs, output)) == SplitBlock(heading, pairs, output)
  {
    Regroup([heading], FieldLines(pairs), Fence(output));
    Text.BrokenConcat([heading], FieldLines(pairs) + Fence(output));
    Text.BrokenConcat(FieldLines(pairs), Fence(output));
    Text.BrokenLines([heading]);
    FieldLinesAreOneLine(pairs);
    FenceSplits(output);
  }

  lemma {:induction false} GatesSplit(gates: seq<GateResult>)
    requires forall i :: 0 <= i < |gates| ==> OneLineGate(gates[i])
    ensures Text.Broken(GateBlocks(gates)) == SplitGates(gates)
  {
    if gates != [] {
      var front, g := gates[..|gates| - 1], gates[|gates| - 1];
      GatesSplit(front);
      assert OneLineGate(g);
      GateLineIsOneLine(g.name, g.ok);
      BlockSplits(GateLine(g.name, g.ok), GatePairs(g), g.output);
      Text.BrokenConcat(GateBlocks(front), GateBlock(g));
    }
  }

  lemma EndIsLines(r: Report)
    ensures Text.Broken(End(r)) == End(r)
  {
    HeadingsAreOneLine();
    assert Text.IsOneLine("Result") && Text.IsOneLine("PASS") && Text.IsOneLine("FAIL");
    FieldIsOneLine("Result", PassFail(OverallPass(r)));
    Text.BrokenLines(End(r));
  }

  lemma SectionsSplit(r: Report)
    requires OneLineSections(r)
    ensures Text.Broken(SectionsWith(r, End(r))) == SplitSections(r)
  {
    var safety := Block("## Local Data Safety", SafetyPairs(r.safety), r.safety.output);
    var governance := Block("## Governance Alerts", GovernancePairs(r.governance), r.governance.output);
    var snapshots := Block("## Runtime Snapshots", SnapshotPairs(r.snapshots), r.snapshots.output);
    var ui := Block("## UI E2E Automation", UiPairs(r.ui), r.ui.output);
    HeadingsAreOneLine();
    BlockSplits("## Local Data Safety", SafetyPairs(r.safety), r.safety.output);
    BlockSplits("## Governance Alerts", GovernancePairs(r.governance), r.governance.output);
    BlockSplits("## Runtime Snapshots", SnapshotPairs(r.snapshots), r.snapshots.output);
    BlockSplits("## UI E2E Automation", UiPairs(r.ui), r.ui.output);
    EndIsLines(r);
    FiveBroken(safety, governance, snapshots, ui, End(r));
  }

  lemma {:induction false} FiveBroken(a: seq<string>, b: seq<string>, c: seq<string>, d: seq<string>, e: seq<string>)
    ensures Text.Broken(a + (b + (c + (d + e)))) ==
            Text.Broken(a) + (Text.Broken(b) + (Text.Broken(c) + (Text.Broken(d) + Text.Broken(e))))
  {
    Text.BrokenConcat(d, e);
    Text.BrokenConcat(c, d + e);
    Text.BrokenConcat(b, c + (d + e));
    Text.BrokenConcat(a, b + (c + (d + e)));
  }

  lemma LinksAreLines(r: Report)
    requires OneLineFields(r)
    ensures Text.Broken(Links(r)) == Links(r)
  {
    var lines := LinkLines(r.evidence, r.missing);
    EarlyHeadingsAreOneLine();
    MarksAreOneLine();
    forall i | 0 <= i < |lines|
      ensures Text.IsOneLine(lines[i])
    {
      LinkLineIsOneLine(r.evidence[i], r.evidence[i] !in r.missing);
    }
    Text.BrokenLines(["## Required Evidence Links"]);
    Text.BrokenLines(lines);
    Text.BrokenLines(["", "## Gate Results"]);
    Text.BrokenConcat(["## Required Evidence Links"], lines);
    Text.BrokenConcat(["## Required Evidence Links"] + lines, ["", "## Gate Results"]);
  }

  lemma PreambleIsLines(r: Report)
    requires Text.IsOneLine(r.startedAt) && Text.IsOneLine(r.endedAt)
    ensures Text.Broken(Preamble(r)) == Preamble(r)
  {
    EarlyHeadingsAreOneLine();
    TitleIsOneLine();
    assert Text.IsOneLine("") && Text.IsOneLine("Started") && Text.IsOneLine("Ended");
    FieldIsOneLine("Started", r.startedAt);
    FieldIsOneLine("Ended", r.endedAt);
    Text.BrokenLines(Preamble(r));
  }

  lemma ReportSplits(r: Report)
    requires OneLineFields(r)
    ensures Text.Broken(LinesWith(r, End(r))) == SplitReport(r)
  {
    var context, sections := FieldLines(ContextPairs(r.context)), SectionsWith(r, End(r));
    SectionsSplit(r);
    GatesSplit(r.gates);
    LinksAreLines(r);
    PreambleIsLines(r);
    FieldLinesAreOneLine(ContextPairs(r.context));
    Text.OneLineSplits("");
    assert Text.Broken([""]) == [""];
    Text.BrokenConcat(GateBlocks(r.gates), sections);
    FiveBroken(Preamble(r), context, [""], Links(r), GateBlocks(r.gates) + sections);
  }

  lemma Regroup(a: seq<string>, b: seq<string>, last: seq<string>)
    ensures a + (b + last) == (a + b) + last
  {
  }

  /** The report ends with an empty line, so its text splits into exactly the lines before that. */
  lemma TextSplits(r: Report)
    requires OneLineFields(r)
    ensures Text.SplitLines(Text.Join(ReportLines(r), "\n")) == SplitReport(r)
  {
    var front := LinesWith(r, End(r));
    LastLineIsEmpty(r);
    Text.SplitJoined(front);
    ReportSplits(r);
  }

  lemma LastLineIsEmpty(r: Report)
    ensures ReportLines(r) == LinesWith(r, End(r)) + [""]
  {
    var safety := Block("## Local Data Safety", SafetyPairs(r.safety), r.safety.output);
    var governance := Block("## Governance Alerts", GovernancePairs(r.governance), r.governance.output);
    var snapshots := Block("## Runtime Snapshots", SnapshotPairs(r.snapshots), r.snapshots.output);
    var ui := Block("## UI E2E Automation", UiPairs(r.ui), r.ui.output);
    var context, gates, links := FieldLines(ContextPairs(r.context)), GateBlocks(r.gates), Links(r);
    var e, last := End(r), [""];
    assert Closing(r) == e + last;
    NineParts(Preamble(r), context, [""], links, gates, safety, governance, snapshots, ui, e, last);
  }

  lemma NineParts(a: seq<string>, b: seq<string>, c: seq<string>, d: seq<string>, e: seq<string>, f: seq<string>,
                  g: seq<string>, h: seq<string>, i: seq<string>, j: seq<string>, last: seq<string>)
    ensures a + (b + (c + (d + (e + (f + (g + (h + (i + (j + last)))))))))
         == (a + (b + (c + (d + (e + (f + (g + (h + (i + j))))))))) + last
  {
    Regroup(i, j, last);
    Regroup(h, i + j, last);
    Regroup(g, h + (i + j), last);
    Regroup(f, g + (h + (i + j)), last);
    Regroup(e, f + (g + (h + (i + j))), last);
    Regroup(d, e + (f + (g + (h + (i + j)))), last);
    Regroup(c, d + (e + (f + (g + (h + (i + j))))), last);
    Regroup(b, c + (d + (e + (f + (g + (h + (i + j)))))), last);
    Regroup(a, b + (c + (d + (e + (f + (g + (h + (i + j))))))), last);
  }

  // ----- Parsing block by block -----

  lemma TailIsQuiet(place: Place, output: string)
    requires AreQuiet(place, OutputLines(output))
    ensures AreQuiet(place, Tail(output))
  {
    FenceIsQuiet(place);
    var lines, output' := Tail(output), OutputLines(output);
    forall i | 0 <= i < |lines|
      ensures IsQuiet(place, lines[i])
    {
      if 0 < i <= |output'| {
        assert lines[i] == output'[i - 1];
      }
    }
  }

  lemma {:induction false} BlockAssociates(heading: string, pairs: Pairs, output: string, rest: seq<string>)
    ensures SplitBlock(heading, pairs, output) + rest == [heading] + (FieldLines(pairs) + (Tail(output) + rest))
  {
  }

  lemma BlockStarts(heading: string, pairs: Pairs, output: string, rest: seq<string>)
    ensures SplitBlock(heading, pairs, output) + rest != [] && (SplitBlock(heading, pairs, output) + rest)[0] == heading
  {
  }

  lemma {:induction false} ReadBlock(k: Section, pairs: Pairs, output: string, rest: seq<string>, b: Sections)
    requires AreKeys(pairs) && AreQuiet(InSection(k), OutputLines(output)) && rest != [] && EndsSection(rest[0])
    ensures ReadSection(k, FieldLines(pairs) + (Tail(output) + rest), b) == (SectionFields(k, b, pairs), rest)
  {
    var after := SectionFields(k, b, pairs);
    ReadSectionFields(k, pairs, Tail(output) + rest, b);
    TailIsQuiet(InSection(k), output);
    SectionSkipsQuietLines(k, Tail(output), rest, after);
  }

  lemma {:induction false} ScanBlock(k: Section, heading: string, pairs: Pairs, output: string, rest: seq<string>, p: Parsed)
    requires KindOf(heading) == SectionHeading(k)
    requires AreKeys(pairs) && AreQuiet(InSection(k), OutputLines(output)) && rest != [] && EndsSection(rest[0])
    ensures Scan(SplitBlock(heading, pairs, output) + rest, p) == Scan(rest, p.(sections := SectionFields(k, p.sections, pairs)))
  {
    BlockAssociates(heading, pairs, output, rest);
    ScanOne(heading, FieldLines(pairs) + (Tail(output) + rest), p);
    ReadBlock(k, pairs, output, rest, p.sections);
  }

  /** What a gate's scan makes of a later section. */
  lemma {:induction false} ReadGateBlock(k: Section, heading: string, pairs: Pairs, output: string,
                                         rest: seq<string>, gate: Gate)
    requires IsHeading(heading) && heading != "## Overall" && AreKeys(pairs) && AreQuiet(InSection(k), OutputLines(output))
    ensures ReadGate(SplitBlock(heading, pairs, output) + rest, gate) == ReadGate(rest, GateFields(gate, pairs))
  {
    var more := FieldLines(pairs) + (Tail(output) + rest);
    BlockAssociates(heading, pairs, output, rest);
    Cons(heading, more, []);
    HeadingLines(heading);
    ReadGateFields(pairs, Tail(output) + rest, gate);
    TailIsQuiet(InSection(k), output);
    GateSkipsQuietLines(InSection(k), Tail(output), rest, GateFields(gate, pairs));
  }

  lemma {:induction false} ScanGateHead(g: GateResult, rest: seq<string>, p: Parsed)
    requires IsKey(g.name)
    ensures Scan([GateLine(g.name, g.ok)] + (FieldLines(GatePairs(g)) + rest), p)
         == Scan(rest, p.(gates := p.gates + [ReadGate(rest, GateBack(g))]))
  {
    var line, pairs, gate := GateLine(g.name, g.ok), GatePairs(g), Gate(g.name, g.ok, "", None, None);
    ScanGateLine(g.name, g.ok, FieldLines(pairs) + rest, p);
    GateKeys(g);
    ReadGateFields(pairs, rest, gate);
    GatePairsOverwrite(gate, g);
    ScanFields(pairs, rest, p.(gates := p.gates + [ReadGate(rest, GateBack(g))]));
  }

  lemma {:induction false} ScanGateBlock(g: GateResult, rest: seq<string>, p: Parsed)
    requires GatePrintable(g)
    ensures Scan(GateLines(g) + rest, p) == Scan(rest, p.(gates := p.gates + [ReadGate(rest, GateBack(g))]))
  {
    BlockAssociates(GateLine(g.name, g.ok), GatePairs(g), g.output, rest);
    ScanGateHead(g, Tail(g.output) + rest, p);
    TailIsQuiet(InGate, g.output);
    GateSkipsQuietLines(InGate, Tail(g.output), rest, GateBack(g));
    QuietGateLinesPass(Tail(g.output), rest, p.(gates := p.gates + [ReadGate(rest, GateBack(g))]));
  }

  lemma {:induction false} GatesSnoc(front: seq<GateResult>, g: GateResult, rest: seq<string>)
    ensures SplitGates(front + [g]) + rest == SplitGates(front) + (GateLines(g) + rest)
    ensures GatesBack(front + [g]) == GatesBack(front) + [GateBack(g)]
  {
    assert (front + [g])[..|front|] == front;
    Regroup(SplitGates(front), GateLines(g), rest);
  }

  lemma GateStarts(g: GateResult, rest: seq<string>)
    requires IsKey(g.name)
    ensures GateLines(g) + rest != [] && EndsGate((GateLines(g) + rest)[0])
  {
    BlockStarts(GateLine(g.name, g.ok), GatePairs(g), g.output, rest);
    GateLineReads(g.name, g.ok);
  }

  lemma GatesAppend(a: seq<Gate>, b: seq<Gate>, gate: Gate)
    ensures a + b + [gate] == a + (b + [gate])
  {
  }

  lemma {:induction false} ScanGatesSnoc(front: seq<GateResult>, g: GateResult, rest: seq<string>, p: Parsed)
    requires GatePrintable(g)
    requires Scan(SplitGates(front) + (GateLines(g) + rest), p) ==
             Scan(GateLines(g) + rest, p.(gates := p.gates + GatesBack(front)))
    ensures Scan(SplitGates(front + [g]) + rest, p) ==
            Scan(rest, p.(gates := p.gates + (GatesBack(front) + [ReadGate(rest, GateBack(g))])))
  {
    GatesSnoc(front, g, rest);
    ScanGateBlock(g, rest, p.(gates := p.gates + GatesBack(front)));
    GatesAppend(p.gates, GatesBack(front), ReadGate(rest, GateBack(g)));
  }

  /** Gates followed by a line that ends a gate come back as they are. */
  lemma {:induction false} ScanGates(gates: seq<GateResult>, rest: seq<string>, p: Parsed)
    requires forall i :: 0 <= i < |gates| ==> GatePrintable(gates[i])
    requires rest != [] && EndsGate(rest[0])
    ensures Scan(SplitGates(gates) + rest, p) == Scan(rest, p.(gates := p.gates + GatesBack(gates)))
  {
    if gates == [] {
      assert SplitGates(gates) + rest == rest && p.gates + GatesBack(gates) == p.gates;
    } else {
      var front, g := gates[..|gates| - 1], gates[|gates| - 1];
      assert gates == front + [g] && GatePrintable(g);
      GateStarts(g, rest);
      ScanGates(front, GateLines(g) + rest, p);
      ScanGatesSnoc(front, g, rest, p);
    }
  }

  /** The last gate's scan runs on to the overall heading, over the data-safety fields. */
  lemma {:induction false} LastGateReadsOn(r: Report, gate: Gate)
    requires Printable(r)
    ensures ReadGate(SplitSections(r), gate) == Overwritten(gate, r.safety)
  {
    var ui := SplitBlock("## UI E2E Automation", UiPairs(r.ui), r.ui.output) + End(r);
    var snapshots := SplitBlock("## Runtime Snapshots", SnapshotPairs(r.snapshots), r.snapshots.output) + ui;
    var governance := SplitBlock("## Governance Alerts", GovernancePairs(r.governance), r.governance.output) + snapshots;
    SafetyKeys(r.safety);
    GovernanceKeys(r.governance);
    SnapshotKeys(r.snapshots);
    UiKeys(r.ui);
    var gate' := Overwritten(gate, r.safety);
    SafetyOverwritesGate(gate, r.safety);
    AdvisoryFieldsKeepGate(gate', r);
    ReadGateBlock(SafetySection, "## Local Data Safety", SafetyPairs(r.safety), r.safety.output, governance, gate);
    ReadGateBlock(GovernanceSection, "## Governance Alerts", GovernancePairs(r.governance), r.governance.output, snapshots, gate');
    ReadGateBlock(SnapshotsSection, "## Runtime Snapshots", SnapshotPairs(r.snapshots), r.snapshots.output, ui, gate');
    ReadGateBlock(UiSection, "## UI E2E Automation", UiPairs(r.ui), r.ui.output, End(r), gate');
    HeadingLines("## Overall");
  }

  lemma FiveThen(a: string, b: string, c: string, d: string, e: string, rest: seq<string>)
    ensures [a, b, c, d, e] + rest == [a] + ([b] + ([c] + ([d] + ([e] + rest))))
  {
  }

  lemma {:induction false} ScanTwo(a: string, b: string, rest: seq<string>, p: Parsed)
    requires KindOf(a) == Plain && KindOf(b) == Plain
    ensures Scan([a] + ([b] + rest), p) == Scan(rest, p)
  {
    ScanOne(a, [b] + rest, p);
    ScanOne(b, rest, p);
  }

  lemma {:induction false} ScanTimes(started: string, ended: string, from: string, to: string, rest: seq<string>, p: Parsed)
    requires KindOf(started) == Started(from) && KindOf(ended) == Ended(to)
    ensures Scan([started] + ([ended] + rest), p) == Scan(rest, p.(startedAt := from, endedAt := to))
  {
    ScanOne(started, [ended] + rest, p);
    ScanOne(ended, rest, p.(startedAt := from));
  }

  lemma {:induction false} ScanOpening(title: string, blank: string, started: string, ended: string, from: string, to: string,
                    rest: seq<string>, p: Parsed)
    requires KindOf(title) == Plain && KindOf(blank) == Plain
    requires KindOf(started) == Started(from) && KindOf(ended) == Ended(to)
    ensures Scan([title, blank, started, ended, blank] + rest, p) == Scan(rest, p.(startedAt := from, endedAt := to))
  {
    FiveThen(title, blank, started, ended, blank, rest);
    ScanTwo(title, blank, [started] + ([ended] + ([blank] + rest)), p);
    ScanTimes(started, ended, from, to, [blank] + rest, p);
    ScanOne(blank, rest, p.(startedAt := from, endedAt := to));
  }

  lemma TitleLine(line: string)
    requires IsTitle(line)
    ensures KindOf(line) == Plain
  {
    Text.StripIsIdentity(line);
    NoHeading(line);
  }

  lemma BlankLine(line: string)
    requires line == ""
    ensures KindOf(line) == Plain && FieldOf(Text.Strip(line)).None? && LinkOf(Text.Strip(line)).None?
  {
  }

  lemma {:induction false} ScanContext(heading: string, pairs: Pairs, blank: string, rest: seq<string>, p: Parsed)
    requires KindOf(heading) == ContextHeading && AreKeys(pairs) && p.context == map[]
    requires KindOf(blank) == Plain && FieldOf(Text.Strip(blank)).None?
    ensures Scan([heading] + (FieldLines(pairs) + ([blank] + rest)), p) == Scan(rest, p.(context := ContextFields(map[], pairs)))
  {
    ScanOne(heading, FieldLines(pairs) + ([blank] + rest), p);
    ReadContextFields(pairs, [blank] + rest, map[]);
    ScanOne(blank, rest, p.(context := ContextFields(map[], pairs)));
  }

  lemma {:induction false} ScanLinks(heading: string, evidence: seq<string>, missing: seq<string>, blank: string,
                                     results: string,
                  rest: seq<string>, p: Parsed)
    requires KindOf(heading) == LinksHeading && KindOf(results) == Plain
    requires KindOf(blank) == Plain && LinkOf(Text.Strip(blank)).None?
    ensures Scan([heading] + (LinkLines(evidence, missing) + ([blank] + ([results] + rest))), p) ==
            Scan(rest, p.(links := p.links + LinksOf(evidence, missing)))
  {
    var after := [blank] + ([results] + rest);
    var p' := p.(links := p.links + LinksOf(evidence, missing));
    ScanOne(heading, LinkLines(evidence, missing) + after, p);
    ReadLinkLines(evidence, missing, after, p.links);
    ScanOne(blank, [results] + rest, p');
    ScanOne(results, rest, p');
  }

  lemma ResultLine(verdict: string)
    requires verdict == "PASS" || verdict == "FAIL"
    ensures KindOf(Field("Result", verdict)) == Plain && ResultOf(Field("Result", verdict)) == Some(verdict)
  {
    assert IsKey("Result");
    FieldReads("Result", verdict);
    PlainField("Result", verdict);
  }

  lemma {:induction false} ScanOverall(heading: string, line: string, verdict: string, p: Parsed)
    requires KindOf(heading) == OverallHeading && KindOf(line) == Plain && ResultOf(line) == Some(verdict)
    ensures Scan([heading] + [line], p) == p.(overall := verdict)
  {
    ScanOne(heading, [line], p);
    assert [line] == [line] + [];
    ScanOne(line, [], p.(overall := verdict));
  }

  lemma {:induction false} ScanEnd(r: Report, p: Parsed)
    ensures Scan(End(r), p) == p.(overall := PassFail(OverallPass(r)))
  {
    var verdict := PassFail(OverallPass(r));
    assert End(r) == ["## Overall"] + [Field("Result", verdict)];
    HeadingKind("## Overall");
    SectionKinds();
    ResultLine(verdict);
    ScanOverall("## Overall", Field("Result", verdict), verdict, p);
  }

  function AllSections(b: Sections, p1: Pairs, p2: Pairs, p3: Pairs, p4: Pairs): Sections {
    var governed := SectionFields(GovernanceSection, SectionFields(SafetySection, b, p1), p2);
    SectionFields(UiSection, SectionFields(SnapshotsSection, governed, p3), p4)
  }

  /** The sections after the gates, whatever their headings and fields are. */
  lemma {:induction false} ScanFour(h1: string, h2: string, h3: string, h4: string, p1: Pairs, p2: Pairs, p3: Pairs, p4: Pairs,
                 o1: string, o2: string, o3: string, o4: string, end: seq<string>, p: Parsed)
    requires KindOf(h1) == SectionHeading(SafetySection) && KindOf(h2) == SectionHeading(GovernanceSection)
    requires KindOf(h3) == SectionHeading(SnapshotsSection) && KindOf(h4) == SectionHeading(UiSection)
    requires EndsSection(h2) && EndsSection(h3) && EndsSection(h4) && end != [] && EndsSection(end[0])
    requires AreKeys(p1) && AreKeys(p2) && AreKeys(p3) && AreKeys(p4)
    requires AreQuiet(InSection(SafetySection), OutputLines(o1)) && AreQuiet(InSection(GovernanceSection), OutputLines(o2))
    requires AreQuiet(InSection(SnapshotsSection), OutputLines(o3)) && AreQuiet(InSection(UiSection), OutputLines(o4))
    ensures Scan(SplitBlock(h1, p1, o1) + (SplitBlock(h2, p2, o2) + (SplitBlock(h3, p3, o3) + (SplitBlock(h4, p4, o4) + end))), p)
         == Scan(end, p.(sections := AllSections(p.sections, p1, p2, p3, p4)))
  {
    var l4 := SplitBlock(h4, p4, o4) + end;
    var l3 := SplitBlock(h3, p3, o3) + l4;
    var l2 := SplitBlock(h2, p2, o2) + l3;
    BlockStarts(h4, p4, o4, end);
    BlockStarts(h3, p3, o3, l4);
    BlockStarts(h2, p2, o2, l3);
    var q1 := p.(sections := SectionFields(SafetySection, p.sections, p1));
    var q2 := q1.(sections := SectionFields(GovernanceSection, q1.sections, p2));
    var q3 := q2.(sections := SectionFields(SnapshotsSection, q2.sections, p3));
    ScanBlock(SafetySection, h1, p1, o1, l2, p);
    ScanBlock(GovernanceSection, h2, p2, o2, l3, q1);
    ScanBlock(SnapshotsSection, h3, p3, o3, l4, q2);
    ScanBlock(UiSection, h4, p4, o4, end, q3);
  }

  lemma AllSectionsBack(r: Report)
    ensures AllSections(NO_SECTIONS, SafetyPairs(r.safety), GovernancePairs(r.governance), SnapshotPairs(r.snapshots), UiPairs(r.ui))
            == SectionsBack(r)
  {
    SafetyFieldsBack(r.safety, NO_SECTIONS);
    var s1 := NO_SECTIONS.(safety := SafetyBack(r.safety));
    GovernanceFieldsBack(r.governance, s1);
    var s2 := s1.(governance := GovernanceBack(r.governance));
    SnapshotFieldsBack(r.snapshots, s2);
    UiFieldsBack(r.ui, s2.(snapshots := SnapshotsBack(r.snapshots)));
  }

  lemma {:induction false} ScanSections(r: Report, p: Parsed)
    requires Printable(r) && p.sections == NO_SECTIONS
    ensures Scan(SplitSections(r), p) == p.(sections := SectionsBack(r), overall := PassFail(OverallPass(r)))
  {
    KnownHeadings();
    SafetyKeys(r.safety);
    GovernanceKeys(r.governance);
    SnapshotKeys(r.snapshots);
    UiKeys(r.ui);
    AllSectionsBack(r);
    ScanFour("## Local Data Safety", "## Governance Alerts", "## Runtime Snapshots", "## UI E2E Automation",
             SafetyPairs(r.safety), GovernancePairs(r.governance), SnapshotPairs(r.snapshots), UiPairs(r.ui),
             r.safety.output, r.governance.output, r.snapshots.output, r.ui.output, End(r), p);
    ScanEnd(r, p.(sections := SectionsBack(r)));
  }

  lemma KnownHeadings()
    ensures KindOf("## Local Data Safety") == SectionHeading(SafetySection)
    ensures KindOf("## Governance Alerts") == SectionHeading(GovernanceSection)
    ensures KindOf("## Runtime Snapshots") == SectionHeading(SnapshotsSection)
    ensures KindOf("## UI E2E Automation") == SectionHeading(UiSection)
    ensures EndsSection("## Governance Alerts") && EndsSection("## Runtime Snapshots")
    ensures EndsSection("## UI E2E Automation") && EndsSection("## Overall")
  {
    HeadingKind("## Local Data Safety");
    HeadingKind("## Governance Alerts");
    HeadingKind("## Runtime Snapshots");
    HeadingKind("## UI E2E Automation");
    HeadingLines("## Governance Alerts");
    HeadingLines("## Runtime Snapshots");
    HeadingLines("## UI E2E Automation");
    HeadingLines("## Overall");
    SectionKinds();
  }

  /** All gates but the last come back as they are; the last one reads on. */
  lemma {:induction false} ScanGatesReadingOn(gates: seq<GateResult>, rest: seq<string>, p: Parsed)
    requires gates != [] && p.gates == [] && forall i :: 0 <= i < |gates| ==> GatePrintable(gates[i])
    ensures var n := |gates| - 1;
      Scan(SplitGates(gates) + rest, p) ==
      Scan(rest, p.(gates := GatesBack(gates[..n]) + [ReadGate(rest, GateBack(gates[n]))]))
  {
    var front, g := gates[..|gates| - 1], gates[|gates| - 1];
    assert gates == front + [g] && GatePrintable(g);
    ScanFrontGates(front, g, rest, p);
    ScanGatesSnoc(front, g, rest, p);
    assert p.gates + (GatesBack(front) + [ReadGate(rest, GateBack(g))]) == GatesBack(front) + [ReadGate(rest, GateBack(g))];
  }

  lemma {:induction false} ScanFrontGates(front: seq<GateResult>, g: GateResult, rest: seq<string>, p: Parsed)
    requires GatePrintable(g) && forall i :: 0 <= i < |front| ==> GatePrintable(front[i])
    ensures Scan(SplitGates(front) + (GateLines(g) + rest), p) ==
            Scan(GateLines(g) + rest, p.(gates := p.gates + GatesBack(front)))
  {
    GateStarts(g, rest);
    ScanGates(front, GateLines(g) + rest, p);
  }

  lemma {:induction false} ScanGatesAndSections(r: Report, p: Parsed)
    requires Printable(r) && p.gates == [] && p.sections == NO_SECTIONS
    ensures Scan(SplitGates(r.gates) + SplitSections(r), p) ==
            p.(gates := Recovered(r).gates, sections := SectionsBack(r), overall := PassFail(OverallPass(r)))
  {
    var rest := SplitSections(r);
    if r.gates == [] {
      assert SplitGates(r.gates) + rest == rest;
      ScanSections(r, p);
    } else {
      var n := |r.gates| - 1;
      ScanGatesReadingOn(r.gates, rest, p);
      LastGateReadsOn(r, GateBack(r.gates[n]));
      ScanSections(r, p.(gates := Recovered(r).gates));
    }
  }

  // ----- The round trip -----

  lemma {:induction false} ScanPreamble(r: Report, rest: seq<string>, p: Parsed)
    requires p.context == map[]
    ensures Scan(Preamble(r) + (FieldLines(ContextPairs(r.context)) + ([""] + rest)), p) ==
            Scan(rest, p.(startedAt := r.startedAt, endedAt := r.endedAt, context := ContextFields(map[], ContextPairs(r.context))))
  {
    ContextKeys(r.context);
    SectionKinds();
    ScanKnownParts("# Release Candidate Signoff Evidence", "", Field("Started", r.startedAt), Field("Ended", r.endedAt),
                   "## Execution Context", r.startedAt, r.endedAt, ContextPairs(r.context), rest, p);
  }

  predicate IsTitle(line: string) {
    |line| > 3 && line[0] == '#' && line[1] == ' ' && !Text.IsSpace(line[|line| - 1])
  }

  lemma {:induction false} ScanKnownParts(title: string, blank: string, started: string, ended: string,
                                          heading: string, from: string, to: string,
                       pairs: Pairs, rest: seq<string>, p: Parsed)
    requires IsTitle(title) && blank == "" && started == Field("Started", from) && ended == Field("Ended", to)
    requires IsHeading(heading) && KindOfHeading(heading) == ContextHeading && AreKeys(pairs) && p.context == map[]
    ensures Scan([title, blank, started, ended, blank, heading] + (FieldLines(pairs) + ([blank] + rest)), p) ==
            Scan(rest, p.(startedAt := from, endedAt := to, context := ContextFields(map[], pairs)))
  {
    TimeFields(from);
    TimeFields(to);
    TitleLine(title);
    BlankLine(blank);
    HeadingKind(heading);
    ScanParts(title, blank, started, ended, heading, from, to, pairs, rest, p);
  }

  lemma {:induction false} ScanParts(title: string, blank: string, started: string, ended: string, heading: string,
                                     from: string, to: string,
                  pairs: Pairs, rest: seq<string>, p: Parsed)
    requires KindOf(title) == Plain && KindOf(blank) == Plain && FieldOf(Text.Strip(blank)).None? && AreKeys(pairs)
    requires KindOf(started) == Started(from) && KindOf(ended) == Ended(to) && KindOf(heading) == ContextHeading
    requires p.context == map[]
    ensures Scan([title, blank, started, ended, blank, heading] + (FieldLines(pairs) + ([blank] + rest)), p) ==
            Scan(rest, p.(startedAt := from, endedAt := to, context := ContextFields(map[], pairs)))
  {
    var more := FieldLines(pairs) + ([blank] + rest);
    SixLines(title, blank, started, ended, heading, more);
    ScanOpening(title, blank, started, ended, from, to, [heading] + more, p);
    ScanContext(heading, pairs, blank, rest, p.(startedAt := from, endedAt := to));
  }

  lemma SixLines(title: string, blank: string, started: string, ended: string, heading: string, rest: seq<string>)
    ensures [title, blank, started, ended, blank, heading] + rest == [title, blank, started, ended, blank] + ([heading] + rest)
  {
  }

  lemma {:induction false} ScanAllLinks(r: Report, rest: seq<string>, p: Parsed)
    ensures Scan(Links(r) + rest, p) == Scan(rest, p.(links := p.links + LinksOf(r.evidence, r.missing)))
  {
    var lines := LinkLines(r.evidence, r.missing);
    EarlyHeadings();
    BlankLine("");
    LinksAssociate("## Required Evidence Links", lines, "", "## Gate Results", rest);
    ScanLinks("## Required Evidence Links", r.evidence, r.missing, "", "## Gate Results", rest, p);
  }

  lemma LinksAssociate(h: string, lines: seq<string>, blank: string, results: string, rest: seq<string>)
    ensures ([h] + lines + [blank, results]) + rest == [h] + (lines + ([blank] + ([results] + rest)))
  {
  }

  lemma EarlyHeadings()
    ensures KindOf("## Execution Context") == ContextHeading && KindOf("## Required Evidence Links") == LinksHeading
    ensures KindOf("## Gate Results") == Plain
  {
    HeadingKind("## Execution Context");
    HeadingKind("## Required Evidence Links");
    HeadingKind("## Gate Results");
    SectionKinds();
  }

  lemma ScanReport(r: Report)
    requires Printable(r)
    ensures Scan(SplitReport(r), START) == Recovered(r)
  {
    var rest := SplitGates(r.gates) + SplitSections(r);
    var p := START.(startedAt := r.startedAt, endedAt := r.endedAt, context := ContextFields(map[], ContextPairs(r.context)));
    ScanPreamble(r, Links(r) + rest, START);
    ScanAllLinks(r, rest, p);
    assert p.links + LinksOf(r.evidence, r.missing) == LinksOf(r.evidence, r.missing);
    ScanGatesAndSections(r, p.(links := LinksOf(r.evidence, r.missing)));
  }

  /** Parsing a printable report gives back its times, context, evidence links, gate names and verdicts in
      order, data-safety block and overall verdict, and the other gate fields except the last gate's. */
  lemma ParseUndoesWrite(r: Report)
    requires Printable(r)
    ensures Scan(Text.SplitLines(Text.Join(ReportLines(r), "\n")), START) == Recovered(r)
  {
    TextSplits(r);
    ScanReport(r);
  }

  /** The report as it is written to a file and parsed back. */
  function WrittenAndParsed(r: Report): Parsed {
    Scan(Text.SplitLines(Text.Join(ReportLines(r), "\n")), START)
  }

  /** Gate names and verdicts come back in order, and all fields of all gates but the last. */
  lemma GateNamesAndVerdictsComeBack(r: Report)
    requires Printable(r)
    ensures var gates := WrittenAndParsed(r).gates;
      && |gates| == |r.gates|
      && (forall i :: 0 <= i < |r.gates| ==> gates[i].name == r.gates[i].name && gates[i].ok == r.gates[i].ok)
      && (forall i :: 0 <= i < |r.gates| - 1 ==> gates[i] == GateBack(r.gates[i]))
  {
    ParseUndoesWrite(r);
    RecoveredGates(r);
  }

  lemma RecoveredGates(r: Report)
    ensures Recovered(r).gates == GatesRecovered(r.gates, r.safety)
    ensures |Recovered(r).gates| == |r.gates|
    ensures forall i :: 0 <= i < |r.gates| ==>
      Recovered(r).gates[i].name == r.gates[i].name && Recovered(r).gates[i].ok == r.gates[i].ok
    ensures forall i :: 0 <= i < |r.gates| - 1 ==> Recovered(r).gates[i] == GateBack(r.gates[i])
  {
    GatesRecoveredEach(r.gates, r.safety);
  }

  lemma GatesRecoveredEach(gates: seq<GateResult>, safety: SafetyResult)
    ensures var back := GatesRecovered(gates, safety);
      && |back| == |gates|
      && (forall i :: 0 <= i < |gates| ==> back[i].name == gates[i].name && back[i].ok == gates[i].ok)
      && (forall i :: 0 <= i < |gates| - 1 ==> back[i] == GateBack(gates[i]))
  {
  }

  /** All gates come back unchanged exactly when the last one happens to agree with the data-safety block. */
  lemma LastGateComesBackIff(r: Report)
    requires Printable(r)
    ensures WrittenAndParsed(r).gates == GatesBack(r.gates) <==> LastGateAgrees(r.gates, r.safety)
  {
    ParseUndoesWrite(r);
    RecoveredGates(r);
    GatesOverwritten(r.gates, r.safety);
  }

  /** The last gate, if any, ran the command of the data-safety check, with the same exit code and duration. */
  predicate LastGateAgrees(gates: seq<GateResult>, safety: SafetyResult) {
    gates != [] ==>
      var g := gates[|gates| - 1];
      && Text.Join(g.command, " ") == Text.Join(safety.command, " ")
      && g.exitCode == safety.exitCode && g.durationMs == safety.durationMs
  }

  lemma {:induction false} GatesOverwritten(gates: seq<GateResult>, safety: SafetyResult)
    ensures GatesRecovered(gates, safety) == GatesBack(gates) <==> LastGateAgrees(gates, safety)
  {
    if gates != [] {
      var n := |gates|;
      assert GatesBack(gates)[n - 1] == GateBack(gates[n - 1]);
      assert GatesBack(gates) == GatesBack(gates[..n - 1]) + [GateBack(gates[n - 1])];
    }
  }

  lemma {:induction false} NoneMissingIff(links: seq<Link>)
    ensures MissingLinks(links) == [] <==> forall i :: 0 <= i < |links| ==> links[i].ok
  {
    if links != [] {
      NoneMissingIff(links[..|links| - 1]);
    }
  }

  lemma {:induction false} NoneFailedIff(gates: seq<Gate>)
    ensures FailedGates(gates) == [] <==> forall i :: 0 <= i < |gates| ==> gates[i].ok
  {
    if gates != [] {
      var front, last := gates[..|gates| - 1], gates[|gates| - 1];
      NoneFailedIff(front);
      assert gates == front + [last];
    }
  }

  /** The verdict as a reader of the parsed parts would work it out. */
  predicate Recomputed(p: Parsed) {
    MissingLinks(p.links) == [] && FailedGates(p.gates) == [] && !(p.sections.safety.required && p.sections.safety.ok == Some(false))
  }

  lemma {:induction false} LinksRecomputed(evidence: seq<string>, missing: seq<string>)
    ensures MissingLinks(LinksOf(evidence, missing)) == [] <==> forall path <- evidence :: path !in missing
  {
    var links := LinksOf(evidence, missing);
    NoneMissingIff(links);
    if path :| path in evidence && path in missing {
      var i :| 0 <= i < |evidence| && evidence[i] == path;
      assert !links[i].ok;
    }
  }

  lemma {:induction false} GatesRecomputed(parsed: seq<Gate>, gates: seq<GateResult>)
    requires |parsed| == |gates| && forall i :: 0 <= i < |gates| ==> parsed[i].ok == gates[i].ok
    ensures FailedGates(parsed) == [] <==> forall g <- gates :: g.ok
  {
    NoneFailedIff(parsed);
    if g :| g in gates && !g.ok {
      var i :| 0 <= i < |gates| && gates[i] == g;
      assert !parsed[i].ok;
    }
  }

  /** The parsed verdict is the one the parsed parts give, for every report whose missing links are among the
      required ones. */
  lemma VerdictMatchesParts(r: Report)
    requires Printable(r) && forall path <- r.missing :: path in r.evidence
    ensures WrittenAndParsed(r).overall == "PASS" <==> Recomputed(WrittenAndParsed(r))
  {
    ParseUndoesWrite(r);
    RecoveredVerdictIff(r);
    if r.missing != [] {
      assert r.missing[0] in r.evidence && r.missing[0] in r.missing;
    }
  }

  /** The same of any list of missing links: the two part only over links that are missing but not listed. */
  lemma RecoveredVerdictIff(r: Report)
    ensures (Recovered(r).overall == "PASS" <==> Recomputed(Recovered(r))) <==>
      !(r.missing != [] && (forall path <- r.evidence :: path !in r.missing)
        && (forall g <- r.gates :: g.ok) && !(r.safety.required && !r.safety.ok))
  {
    LinksRecomputed(r.evidence, r.missing);
    RecoveredGates(r);
    GatesRecomputed(Recovered(r).gates, r.gates);
    VerdictText(OverallPass(r));
  }

  /** The missing links and failed gates a reader gets are those the report was written for, in order. */
  lemma {:induction false} FailuresComeBack(r: Report, present: set<string>)
    requires Printable(r) && r.missing == AbsentAmong(r.evidence, present)
    ensures MissingLinks(WrittenAndParsed(r).links) == r.missing
    ensures FailedGates(WrittenAndParsed(r).gates) == FailedNames(r.gates)
  {
    ParseUndoesWrite(r);
    AbsentIsMissing(r.evidence, r.evidence, present);
    RecoveredGates(r);
    FailedByName(Recovered(r).gates, r.gates);
  }

  function FailedNames(gates: seq<GateResult>): seq<string> {
    if gates == [] then []
    else FailedNames(gates[..|gates| - 1]) + (if gates[|gates| - 1].ok then [] else [gates[|gates| - 1].name])
  }

  lemma {:induction false} FailedByName(parsed: seq<Gate>, gates: seq<GateResult>)
    requires |parsed| == |gates| && forall i :: 0 <= i < |gates| ==> parsed[i].name == gates[i].name && parsed[i].ok == gates[i].ok
    ensures FailedGates(parsed) == FailedNames(gates)
    decreases |gates|
  {
    if gates != [] {
      FailedByName(parsed[..|gates| - 1], gates[..|gates| - 1]);
    }
  }

  lemma {:induction false} AbsentIsMissing(front: seq<string>, evidence: seq<string>, present: set<string>)
    requires forall path <- front :: path in evidence
    ensures MissingLinks(LinksOf(front, AbsentAmong(evidence, present))) == AbsentAmong(front, present)
    decreases |front|
  {
    if front != [] {
      var n := |front| - 1;
      AbsentIsMissing(front[..n], evidence, present);
      AbsentMembers(evidence, present, front[n]);
      var all, less := LinksOf(front, AbsentAmong(evidence, present)), LinksOf(front[..n], AbsentAmong(evidence, present));
      assert all[..n] == less;
    }
  }

  lemma VerdictText(ok: bool)
    ensures PassFail(ok) == "PASS" <==> ok
  {
    assert "FAIL"[0] == 'F' && "PASS"[0] == 'P';
  }

  ghost predicate AddsGate(lines: seq<string>, rest: seq<string>, p: Parsed, g: GateResult, extra: Gate) {
    Scan(lines, p) == Scan(rest, p.(gates := p.gates + [GateBack(g), extra]))
  }

  /** Captured output that looks like a gate is read as one more gate: the quiet-output condition is needed. */
  lemma EmbeddedGateIsCounted(g: GateResult, name: string, ok: bool, rest: seq<string>, p: Parsed)
    requires IsKey(g.name) && IsKey(name) && Text.IsOneLine(name) && g.output == GateLine(name, ok)
    ensures exists extra: Gate :: (
      && extra.name == name && extra.ok == ok
      && AddsGate(GateLines(g) + rest, rest, p, g, extra))
  {
    var fence := ["```", ""] + rest;
    var more := [g.output] + fence;
    var p1 := p.(gates := p.gates + [GateBack(g)]);
    GateLineIsOneLine(name, ok);
    Text.OneLineSplits(g.output);
    assert Tail(g.output) + rest == ["```text"] + more;
    BlockAssociates(GateLine(g.name, g.ok), GatePairs(g), g.output, rest);
    ScanGateHead(g, ["```text"] + more, p);
    GateLineReads(name, ok);
    FenceIsQuiet(InGate);
    GateSkipsQuietLines(InGate, ["```text"], more, GateBack(g));
    QuietGateLinesPass(["```text"], more, p1);
    assert ReadGate(more, GateBack(g)) == GateBack(g);
    var extra := EmbeddedGate(name, ok, rest, p1);
    assert p1.gates + [extra] == p.gates + [GateBack(g), extra];
  }

  lemma {:induction false} ScanGateLine(name: string, ok: bool, rest: seq<string>, p: Parsed)
    requires IsKey(name)
    ensures Scan([GateLine(name, ok)] + rest, p) ==
            Scan(rest, p.(gates := p.gates + [ReadGate(rest, Gate(name, ok, "", None, None))]))
  {
    GateLineReads(name, ok);
    ScanGateAs(GateLine(name, ok), Gate(name, ok, "", None, None), rest, p);
  }

  lemma {:induction false} ScanGateAs(line: string, gate: Gate, rest: seq<string>, p: Parsed)
    requires KindOf(line) == GateHeading(gate)
    ensures Scan([line] + rest, p) == Scan(rest, p.(gates := p.gates + [ReadGate(rest, gate)]))
  {
    ScanOne(line, rest, p);
  }

  lemma EmbeddedGate(name: string, ok: bool, rest: seq<string>, p: Parsed) returns (extra: Gate)
    requires IsKey(name)
    ensures extra.name == name && extra.ok == ok
    ensures Scan([GateLine(name, ok)] + (["```", ""] + rest), p) == Scan(rest, p.(gates := p.gates + [extra]))
  {
    var fence, gate := ["```", ""], Gate(name, ok, "", None, None);
    extra := ReadGate(fence + rest, gate);
    ScanGateLine(name, ok, fence + rest, p);
    ReadGateKeepsVerdict(fence + rest, gate);
    FenceIsQuiet(InGate);
    QuietGateLinesPass(fence, rest, p.(gates := p.gates + [extra]));
  }

  lemma FenceIsQuiet(place: Place)
    ensures AreQuiet(place, ["```text"]) && AreQuiet(place, ["```", ""])
  {
    Text.StripIsIdentity("```text");
    Text.StripIsIdentity("```");
    Text.StripIsIdentity("");
    assert IsQuiet(place, "```text") && IsQuiet(place, "```") && IsQuiet(place, "");
  }

  lemma {:induction false} ReadGateKeepsVerdict(lines: seq<string>, gate: Gate)
    ensures ReadGate(lines, gate).name == gate.name && ReadGate(lines, gate).ok == gate.ok
  {
    if lines != [] {
      ReadGateKeepsVerdict(lines[1..], GateWith(gate, FieldOf(Text.Strip(lines[0]))));
    }
  }
}
