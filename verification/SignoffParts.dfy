/** Reports whose captured outputs stay in their blocks: which gates are read, and when the verdict agrees with the
    parts read. */
module SignoffParts {
  import opened Values
  import opened SignoffReport
  import opened SignoffParser
  import opened SignoffRoundTrip
  import opened SignoffTheorems
  import opened SignoffVerdict
  import opened SignoffGates
  import Text

  // ----- Outputs that stay in their blocks -----

  /** After such a line the main loop has the next one. */
  predicate IsLoose(line: string) {
    var kind := KindOf(line);
    kind.GateHeading? || kind.Started? || kind.Ended? || kind.Plain?
  }

  predicate AreLoose(lines: seq<string>) {
    forall i :: 0 <= i < |lines| ==> IsLoose(lines[i])
  }

  predicate GatesAreLoose(gates: seq<GateResult>) {
    forall i :: 0 <= i < |gates| ==> AreLoose(OutputLines(gates[i].output))
  }

  /** No line ends the section it stands in. */
  predicate StayInSection(lines: seq<string>) {
    forall i :: 0 <= i < |lines| ==> !EndsSection(lines[i])
  }

  predicate SectionsStay(r: Report) {
    && StayInSection(OutputLines(r.safety.output)) && StayInSection(OutputLines(r.governance.output))
    && StayInSection(OutputLines(r.snapshots.output)) && StayInSection(OutputLines(r.ui.output))
  }

  /** No field holds a line break, gates are named, and no line of captured output opens or ends a section. Lines
      that look like gates, fields or results may well be among them. */
  predicate OutputsStay(r: Report) {
    OneLineFields(r) && AreNamed(r.gates) && GatesAreLoose(r.gates) && SectionsStay(r)
  }

  // ----- The gates shown -----

  function HeadingsIn(lines: seq<string>): seq<Head> {
    if lines == [] then [] else HeadIn(KindOf(lines[0])) + HeadingsIn(lines[1..])
  }

  /** Each written gate, and after it the gate headings of its output. */
  function WithShown(gates: seq<GateResult>): seq<Head> {
    if gates == [] then []
    else
      var g := gates[|gates| - 1];
      WithShown(gates[..|gates| - 1]) + ([(g.name, g.ok)] + HeadingsIn(OutputLines(g.output)))
  }

  lemma LooseKind(kind: LineKind)
    requires kind.GateHeading? || kind.Started? || kind.Ended? || kind.Plain?
    ensures ModeBelow(kind) == AtTop && (HeadIn(kind) == [] <==> !kind.GateHeading?)
  {
  }

  lemma {:induction false} LooseSeen(lines: seq<string>)
    requires AreLoose(lines)
    ensures SeenInLines(AtTop, lines) == HeadingsIn(lines) && ModeAfterLines(AtTop, lines) == AtTop
    ensures HeadingsIn(lines) == [] <==> HoldsNoGate(lines)
  {
    if lines != [] {
      assert IsLoose(lines[0]);
      LooseKind(KindOf(lines[0]));
      FirstSeen(AtTop, lines);
      LooseSeen(lines[1..]);
      NoGateCons(lines);
    }
  }

  lemma NoGateCons(lines: seq<string>)
    requires lines != []
    ensures HoldsNoGate(lines) <==> !IsGateHeading(lines[0]) && HoldsNoGate(lines[1..])
  {
    if !IsGateHeading(lines[0]) && HoldsNoGate(lines[1..]) {
      forall i | 0 <= i < |lines|
        ensures !IsGateHeading(lines[i])
      {
        if i > 0 {
          assert lines[i] == lines[1..][i - 1];
        }
      }
    }
  }

  lemma {:induction false} LooseGatesSeen(gates: seq<GateResult>)
    requires GatesAreLoose(gates)
    ensures SeenInGates(gates) == WithShown(gates) && ModeAfterGates(gates) == AtTop
  {
    if gates != [] {
      var n := |gates| - 1;
      assert AreLoose(OutputLines(gates[n].output));
      LooseGatesSeen(gates[..n]);
      LooseSeen(OutputLines(gates[n].output));
    }
  }

  lemma LooseGatesLeave(gates: seq<GateResult>)
    requires GatesAreLoose(gates)
    ensures AllLeaveAtTop(gates) && (ShowNoGate(gates) <==> GatesHoldNoGate(gates))
  {
    forall i | 0 <= i < |gates|
      ensures LeavesAtTop(gates[i].output) && (ShowsNoGate(gates[i].output) <==> HoldsNoGate(OutputLines(gates[i].output)))
    {
      LooseSeen(OutputLines(gates[i].output));
    }
  }

  lemma {:induction false} SkippedLines(lines: seq<string>)
    requires StayInSection(lines)
    ensures SeenInLines(Skipping, lines) == [] && ModeAfterLines(Skipping, lines) == Skipping
  {
    if lines != [] {
      assert !EndsSection(lines[0]);
      FirstSeen(Skipping, lines);
      SkippedLines(lines[1..]);
    }
  }

  lemma {:induction false} SectionHeadingSeen(m: Mode, k: Section, heading: string)
    requires KindOf(heading) == SectionHeading(k) && EndsSection(heading) && m != Seeking
    ensures SeenInLines(m, [heading]) == [] && ModeAfterLines(m, [heading]) == Skipping
  {
    FirstSeen(m, [heading]);
    assert [heading][1..] == [];
  }

  lemma {:induction false} FieldsSkipped(pairs: Pairs)
    requires AreKeys(pairs)
    ensures SeenInLines(Skipping, FieldLines(pairs)) == [] && ModeAfterLines(Skipping, FieldLines(pairs)) == Skipping
  {
    var lines := FieldLines(pairs);
    forall i | 0 <= i < |lines|
      ensures !EndsSection(lines[i])
    {
      PlainField(pairs[i].0, pairs[i].1);
    }
    SkippedLines(lines);
  }

  lemma {:induction false} BlockSeen(m: Mode, k: Section, heading: string, pairs: Pairs, output: string, rest: seq<string>)
    requires KindOf(heading) == SectionHeading(k) && EndsSection(heading) && m != Seeking
    requires AreKeys(pairs) && StayInSection(OutputLines(output))
    ensures SeenInLines(m, SplitBlock(heading, pairs, output) + rest) == SeenInLines(Skipping, rest)
  {
    BlockAssociates(heading, pairs, output, rest);
    SectionHeadingSeen(m, k, heading);
    FieldsSkipped(pairs);
    TailSeen(Skipping, output);
    SkippedLines(OutputLines(output));
    FirstUnseen(m, [heading], FieldLines(pairs) + (Tail(output) + rest));
    UnseenFirst(Skipping, FieldLines(pairs), Tail(output) + rest);
    UnseenFirst(Skipping, Tail(output), rest);
  }

  lemma {:induction false} FirstUnseen(m: Mode, a: seq<string>, b: seq<string>)
    requires SeenInLines(m, a) == []
    ensures SeenInLines(m, a + b) == SeenInLines(ModeAfterLines(m, a), b)
  {
    LinesSeen(m, a, b);
  }

  /** The four sections one after the other, whatever their headings and fields are. */
  lemma {:induction false} FourSeen(h1: string, h2: string, h3: string, h4: string, p1: Pairs, p2: Pairs, p3: Pairs, p4: Pairs,
                                    o1: string, o2: string, o3: string, o4: string, end: seq<string>)
    requires KindOf(h1) == SectionHeading(SafetySection) && KindOf(h2) == SectionHeading(GovernanceSection)
    requires KindOf(h3) == SectionHeading(SnapshotsSection) && KindOf(h4) == SectionHeading(UiSection)
    requires EndsSection(h1) && EndsSection(h2) && EndsSection(h3) && EndsSection(h4)
    requires AreKeys(p1) && AreKeys(p2) && AreKeys(p3) && AreKeys(p4)
    requires StayInSection(OutputLines(o1)) && StayInSection(OutputLines(o2))
    requires StayInSection(OutputLines(o3)) && StayInSection(OutputLines(o4))
    requires SeenInLines(Skipping, end) == []
    ensures SeenInLines(AtTop, SplitBlock(h1, p1, o1)
                               + (SplitBlock(h2, p2, o2) + (SplitBlock(h3, p3, o3) + (SplitBlock(h4, p4, o4) + end)))) == []
  {
    var ui := SplitBlock(h4, p4, o4) + end;
    var snapshots := SplitBlock(h3, p3, o3) + ui;
    var governance := SplitBlock(h2, p2, o2) + snapshots;
    BlockSeen(AtTop, SafetySection, h1, p1, o1, governance);
    BlockSeen(Skipping, GovernanceSection, h2, p2, o2, snapshots);
    BlockSeen(Skipping, SnapshotsSection, h3, p3, o3, ui);
    BlockSeen(Skipping, UiSection, h4, p4, o4, end);
  }

  lemma {:induction false} SectionsUnseen(r: Report)
    requires SectionsStay(r)
    ensures SeenInLines(AtTop, SplitSections(r)) == []
  {
    KnownHeadings();
    HeadingLines("## Local Data Safety");
    SafetyKeys(r.safety);
    GovernanceKeys(r.governance);
    SnapshotKeys(r.snapshots);
    UiKeys(r.ui);
    EndShowsNothing(r);
    FourSeen("## Local Data Safety", "## Governance Alerts", "## Runtime Snapshots", "## UI E2E Automation",
             SafetyPairs(r.safety), GovernancePairs(r.governance), SnapshotPairs(r.snapshots), UiPairs(r.ui),
             r.safety.output, r.governance.output, r.snapshots.output, r.ui.output, End(r));
  }

  /** The gates read are the written ones, each followed by the gate headings of its output. */
  lemma ShownGatesAreRead(r: Report)
    requires OutputsStay(r)
    ensures Heads(WrittenAndParsed(r).gates) == WithShown(r.gates)
  {
    GatesReadAre(r);
    LooseGatesSeen(r.gates);
    SectionsUnseen(r);
    Unlengthened(SeenInGates(r.gates), SeenInLines(AtTop, SplitSections(r)));
  }

  /** So they are the written ones exactly when no line of a gate's output is a gate heading. */
  lemma GatesAreWrittenIff(r: Report)
    requires OutputsStay(r)
    ensures Heads(WrittenAndParsed(r).gates) == HeadsOf(r.gates) <==> GatesHoldNoGate(r.gates)
  {
    LooseGatesLeave(r.gates);
    SectionsUnseen(r);
    GatesComeBackIff(r);
  }

  // ----- The links and the data-safety block -----

  lemma {:induction false} LooseLinesPass(lines: seq<string>, rest: seq<string>, p: Parsed) returns (q: Parsed)
    requires AreLoose(lines)
    ensures Scan(lines + rest, p) == Scan(rest, q) && q.links == p.links && q.sections == p.sections
  {
    if lines == [] {
      assert lines + rest == rest;
      q := p;
    } else {
      LooseFirst(lines);
      FirstThenRest(lines, rest);
      var p1 := LooseLinePasses(lines[0], lines[1..] + rest, p);
      q := LooseLinesPass(lines[1..], rest, p1);
    }
  }

  lemma FirstThenRest(lines: seq<string>, rest: seq<string>)
    requires lines != []
    ensures lines + rest == [lines[0]] + (lines[1..] + rest)
  {
  }

  lemma LooseFirst(lines: seq<string>)
    requires AreLoose(lines) && lines != []
    ensures IsLoose(lines[0]) && AreLoose(lines[1..])
  {
  }

  lemma {:induction false} LooseLinePasses(line: string, rest: seq<string>, p: Parsed) returns (q: Parsed)
    requires IsLoose(line)
    ensures Scan([line] + rest, p) == Scan(rest, q) && q.links == p.links && q.sections == p.sections
  {
    ScanOne(line, rest, p);
    LooseHandled(KindOf(line), rest, p);
    q := Handle(KindOf(line), rest, p).0;
  }

  lemma LooseHandled(kind: LineKind, rest: seq<string>, p: Parsed)
    requires kind.GateHeading? || kind.Started? || kind.Ended? || kind.Plain?
    ensures var r := Handle(kind, rest, p); r.1 == rest && r.0.links == p.links && r.0.sections == p.sections
  {
  }

  lemma {:induction false} LooseConcat(a: seq<string>, b: seq<string>)
    requires AreLoose(a) && AreLoose(b)
    ensures AreLoose(a + b)
  {
  }

  lemma {:induction false} LooseFields(pairs: Pairs)
    requires AreKeys(pairs)
    ensures AreLoose(FieldLines(pairs))
  {
    var lines := FieldLines(pairs);
    forall i | 0 <= i < |lines|
      ensures IsLoose(lines[i])
    {
      PlainField(pairs[i].0, pairs[i].1);
    }
  }

  lemma {:induction false} LooseFence()
    ensures AreLoose(["```text"]) && AreLoose(["```", ""])
  {
    FenceIsIdle();
  }

  lemma {:induction false} LooseGateLines(g: GateResult)
    requires IsKey(g.name) && AreLoose(OutputLines(g.output))
    ensures AreLoose(GateLines(g))
  {
    GateLineReads(g.name, g.ok);
    GateKeys(g);
    LooseFields(GatePairs(g));
    LooseFence();
    LooseConcat(OutputLines(g.output), ["```", ""]);
    LooseConcat(["```text"], OutputLines(g.output) + ["```", ""]);
    LooseConcat(FieldLines(GatePairs(g)), Tail(g.output));
    assert AreLoose([GateLine(g.name, g.ok)]);
    LooseConcat([GateLine(g.name, g.ok)], FieldLines(GatePairs(g)) + Tail(g.output));
  }

  lemma {:induction false} LooseGates(gates: seq<GateResult>)
    requires AreNamed(gates) && GatesAreLoose(gates)
    ensures AreLoose(SplitGates(gates))
  {
    if gates != [] {
      var n := |gates| - 1;
      LooseGates(gates[..n]);
      assert IsKey(gates[n].name) && AreLoose(OutputLines(gates[n].output));
      LooseGateLines(gates[n]);
      LooseConcat(SplitGates(gates[..n]), GateLines(gates[n]));
    }
  }

  /** The data-safety block after the field lines among these lines. */
  function SafetyAfter(s: DataSafety, lines: seq<string>): DataSafety
    decreases lines
  {
    if lines == [] then s else SafetyAfter(SafetyWith(s, FieldOf(Text.Strip(lines[0]))), lines[1..])
  }

  /** What of the data-safety block is read: its fields, and those its output shows. */
  function SafetyRead(s: SafetyResult): DataSafety {
    SafetyAfter(SafetyBack(s), OutputLines(s.output))
  }

  lemma {:induction false} SafetyAfterConcat(s: DataSafety, a: seq<string>, b: seq<string>)
    ensures SafetyAfter(s, a + b) == SafetyAfter(SafetyAfter(s, a), b)
    decreases |a|
  {
    if a == [] {
      assert a + b == b;
    } else {
      assert (a + b)[0] == a[0] && (a + b)[1..] == a[1..] + b;
      SafetyAfterConcat(SafetyWith(s, FieldOf(Text.Strip(a[0]))), a[1..], b);
    }
  }

  lemma {:induction false} NoFieldsNoChange(s: DataSafety, lines: seq<string>)
    requires forall i :: 0 <= i < |lines| ==> FieldOf(Text.Strip(lines[i])).None?
    ensures SafetyAfter(s, lines) == s
  {
    if lines != [] {
      assert FieldOf(Text.Strip(lines[0])).None?;
      NoFieldsNoChange(s, lines[1..]);
    }
  }

  lemma FenceHoldsNoFields()
    ensures FieldOf(Text.Strip("```text")).None? && FieldOf(Text.Strip("```")).None? && FieldOf(Text.Strip("")).None?
  {
    Text.StripIsIdentity("```text");
    Text.StripIsIdentity("```");
  }

  lemma {:induction false} FencedSafety(s: DataSafety, open: string, shown: seq<string>, close: seq<string>)
    requires FieldOf(Text.Strip(open)).None? && forall i :: 0 <= i < |close| ==> FieldOf(Text.Strip(close[i])).None?
    ensures SafetyAfter(s, [open] + (shown + close)) == SafetyAfter(s, shown)
  {
    NoFieldsNoChange(s, [open]);
    SafetyAfterConcat(s, [open], shown + close);
    SafetyAfterConcat(s, shown, close);
    NoFieldsNoChange(SafetyAfter(s, shown), close);
  }

  lemma {:induction false} TailSafety(s: DataSafety, output: string)
    ensures SafetyAfter(s, Tail(output)) == SafetyAfter(s, OutputLines(output))
  {
    FenceHoldsNoFields();
    FencedSafety(s, "```text", OutputLines(output), ["```", ""]);
  }

  lemma {:induction false} TailStays(output: string)
    requires StayInSection(OutputLines(output))
    ensures StayInSection(Tail(output))
  {
    FenceIsIdle();
  }

  /** What a section's loop makes of the data-safety block, whose fields only its own section sets. */
  function SafetyBelow(k: Section, s: DataSafety, lines: seq<string>): DataSafety {
    if k == SafetySection then SafetyAfter(s, lines) else s
  }

  lemma {:induction false} ReadThrough(k: Section, lines: seq<string>, rest: seq<string>, s: Sections)
    requires StayInSection(lines) && rest != [] && EndsSection(rest[0])
    ensures var r := ReadSection(k, lines + rest, s); r.1 == rest && r.0.safety == SafetyBelow(k, s.safety, lines)
  {
    if lines == [] {
      assert lines + rest == rest;
    } else {
      assert !EndsSection(lines[0]);
      assert (lines + rest)[0] == lines[0] && (lines + rest)[1..] == lines[1..] + rest;
      ReadThrough(k, lines[1..], rest, SectionWith(k, s, FieldOf(Text.Strip(lines[0]))));
    }
  }

  lemma {:induction false} OtherFieldsKeepSafety(k: Section, s: Sections, pairs: Pairs)
    requires k != SafetySection
    ensures SectionFields(k, s, pairs).safety == s.safety
    decreases |pairs|
  {
    if pairs != [] {
      OtherFieldsKeepSafety(k, SectionWith(k, s, Some(pairs[0])), pairs[1..]);
    }
  }

  /** The data-safety block after a section has been read: `own` is what the section's fields make of it. */
  lemma {:induction false} BlockRead(k: Section, heading: string, pairs: Pairs, output: string, rest: seq<string>,
                                     p: Parsed) returns (q: Parsed)
    requires KindOf(heading) == SectionHeading(k) && AreKeys(pairs) && StayInSection(OutputLines(output))
    requires rest != [] && EndsSection(rest[0])
    ensures Scan(SplitBlock(heading, pairs, output) + rest, p) == Scan(rest, q) && q.links == p.links
    ensures q.sections.safety == SafetyBelow(k, SectionFields(k, p.sections, pairs).safety, OutputLines(output))
  {
    BlockAssociates(heading, pairs, output, rest);
    ScanOne(heading, FieldLines(pairs) + (Tail(output) + rest), p);
    ReadSectionFields(k, pairs, Tail(output) + rest, p.sections);
    TailStays(output);
    ReadThrough(k, Tail(output), rest, SectionFields(k, p.sections, pairs));
    TailSafety(SectionFields(k, p.sections, pairs).safety, output);
    q := p.(sections := ReadSection(k, FieldLines(pairs) + (Tail(output) + rest), p.sections).0);
  }

  lemma {:induction false} OtherBlockRead(k: Section, heading: string, pairs: Pairs, output: string, rest: seq<string>,
                                          p: Parsed) returns (q: Parsed)
    requires KindOf(heading) == SectionHeading(k) && AreKeys(pairs) && StayInSection(OutputLines(output))
    requires rest != [] && EndsSection(rest[0]) && k != SafetySection
    ensures Scan(SplitBlock(heading, pairs, output) + rest, p) == Scan(rest, q) && q.links == p.links
    ensures q.sections.safety == p.sections.safety
  {
    q := BlockRead(k, heading, pairs, output, rest, p);
    OtherFieldsKeepSafety(k, p.sections, pairs);
  }

  lemma {:induction false} SectionsRead(r: Report, p: Parsed)
    requires SectionsStay(r)
    ensures var q := Scan(SplitSections(r), p); q.links == p.links && q.sections.safety == SafetyRead(r.safety)
  {
    KnownHeadings();
    SafetyKeys(r.safety);
    GovernanceKeys(r.governance);
    SnapshotKeys(r.snapshots);
    UiKeys(r.ui);
    var ui := SplitBlock("## UI E2E Automation", UiPairs(r.ui), r.ui.output) + End(r);
    var snapshots := SplitBlock("## Runtime Snapshots", SnapshotPairs(r.snapshots), r.snapshots.output) + ui;
    var governance := SplitBlock("## Governance Alerts", GovernancePairs(r.governance), r.governance.output) + snapshots;
    SafetyFieldsBack(r.safety, p.sections);
    var p1 := BlockRead(SafetySection, "## Local Data Safety", SafetyPairs(r.safety), r.safety.output, governance, p);
    var p2 := OtherBlockRead(GovernanceSection, "## Governance Alerts", GovernancePairs(r.governance), r.governance.output,
                             snapshots, p1);
    var p3 := OtherBlockRead(SnapshotsSection, "## Runtime Snapshots", SnapshotPairs(r.snapshots), r.snapshots.output, ui, p2);
    var p4 := OtherBlockRead(UiSection, "## UI E2E Automation", UiPairs(r.ui), r.ui.output, End(r), p3);
    ScanEnd(r, p4);
  }

  lemma {:induction false} OpeningRead(r: Report, rest: seq<string>, p: Parsed) returns (q: Parsed)
    requires p.context == map[] && p.links == []
    ensures Scan(Preamble(r) + (FieldLines(ContextPairs(r.context)) + ([""] + (Links(r) + rest))), p) == Scan(rest, q)
    ensures q.links == LinksOf(r.evidence, r.missing)
  {
    var p1 := p.(startedAt := r.startedAt, endedAt := r.endedAt, context := ContextFields(map[], ContextPairs(r.context)));
    ScanPreamble(r, Links(r) + rest, p);
    ScanAllLinks(r, rest, p1);
    q := p1.(links := p1.links + LinksOf(r.evidence, r.missing));
  }

  lemma {:induction false} ScannedParts(r: Report, p: Parsed)
    requires OutputsStay(r) && p.context == map[] && p.links == []
    ensures var q := Scan(SplitReport(r), p);
      q.links == LinksOf(r.evidence, r.missing) && q.sections.safety == SafetyRead(r.safety)
  {
    var p1 := OpeningRead(r, SplitGates(r.gates) + SplitSections(r), p);
    LooseGates(r.gates);
    var p2 := LooseLinesPass(SplitGates(r.gates), SplitSections(r), p1);
    SectionsRead(r, p2);
  }

  /** The links are read as written, and the data-safety block with what its output shows. */
  lemma PartsRead(r: Report)
    requires OutputsStay(r)
    ensures WrittenAndParsed(r).links == LinksOf(r.evidence, r.missing)
    ensures WrittenAndParsed(r).sections.safety == SafetyRead(r.safety)
  {
    TextSplits(r);
    ScannedParts(r, START);
  }

  // ----- When verdict and parts agree -----

  predicate HoldsFailedGate(lines: seq<string>) {
    exists i :: 0 <= i < |lines| && IsGateHeading(lines[i]) && !KindOf(lines[i]).gate.ok
  }

  predicate ShowFailedGate(gates: seq<GateResult>) {
    exists i :: 0 <= i < |gates| && HoldsFailedGate(OutputLines(gates[i].output))
  }

  predicate AllOk(heads: seq<Head>) {
    forall i :: 0 <= i < |heads| ==> heads[i].1
  }

  lemma AllOkConcat(a: seq<Head>, b: seq<Head>)
    ensures AllOk(a + b) <==> AllOk(a) && AllOk(b)
  {
    if AllOk(a + b) {
      forall i | 0 <= i < |a| ensures a[i].1 {
        assert (a + b)[i] == a[i];
      }
      forall i | 0 <= i < |b| ensures b[i].1 {
        assert (a + b)[|a| + i] == b[i];
      }
    }
  }

  lemma {:induction false} ShownAreOk(lines: seq<string>)
    ensures AllOk(HeadingsIn(lines)) <==> !HoldsFailedGate(lines)
  {
    if lines != [] {
      ShownAreOk(lines[1..]);
      AllOkConcat(HeadIn(KindOf(lines[0])), HeadingsIn(lines[1..]));
      FailedCons(lines);
    }
  }

  lemma FailedCons(lines: seq<string>)
    requires lines != []
    ensures HoldsFailedGate(lines) <==> !AllOk(HeadIn(KindOf(lines[0]))) || HoldsFailedGate(lines[1..])
  {
    OneHead(KindOf(lines[0]));
    if HoldsFailedGate(lines[1..]) {
      var i :| 0 <= i < |lines[1..]| && IsGateHeading(lines[1..][i]) && !KindOf(lines[1..][i]).gate.ok;
      assert lines[i + 1] == lines[1..][i];
    }
    if HoldsFailedGate(lines) {
      var i :| 0 <= i < |lines| && IsGateHeading(lines[i]) && !KindOf(lines[i]).gate.ok;
      if i > 0 {
        assert lines[1..][i - 1] == lines[i];
      }
    }
  }

  lemma OneHead(kind: LineKind)
    ensures AllOk(HeadIn(kind)) <==> (kind.GateHeading? ==> kind.gate.ok)
  {
    if kind.GateHeading? && !kind.gate.ok {
      assert !HeadIn(kind)[0].1;
    }
  }

  predicate AllPassed(gates: seq<GateResult>) {
    forall g <- gates :: g.ok
  }

  lemma AllPassedSnoc(front: seq<GateResult>, g: GateResult)
    ensures AllPassed(front + [g]) <==> AllPassed(front) && g.ok
  {
    assert forall x <- front + [g] :: x in front || x == g;
    assert g in front + [g];
  }

  lemma OneOk(name: string, ok: bool)
    ensures AllOk([(name, ok)]) <==> ok
  {
    var heads: seq<Head> := [(name, ok)];
    assert heads[0].1 == ok;
  }

  lemma {:induction false} WithShownOk(gates: seq<GateResult>)
    ensures AllOk(WithShown(gates)) <==> AllPassed(gates) && !ShowFailedGate(gates)
  {
    if gates != [] {
      var n := |gates| - 1;
      var front, g := gates[..n], gates[n];
      assert gates == front + [g];
      WithShownOk(front);
      LastShownOk(front, g);
      AllPassedSnoc(front, g);
      ShowFailedSnoc(front, g);
    }
  }

  lemma {:induction false} LastShownOk(front: seq<GateResult>, g: GateResult)
    ensures AllOk(WithShown(front + [g])) <==>
            AllOk(WithShown(front)) && g.ok && !HoldsFailedGate(OutputLines(g.output))
  {
    assert (front + [g])[..|front|] == front;
    OneOk(g.name, g.ok);
    ShownAreOk(OutputLines(g.output));
    AllOkConcat([(g.name, g.ok)], HeadingsIn(OutputLines(g.output)));
    AllOkConcat(WithShown(front), [(g.name, g.ok)] + HeadingsIn(OutputLines(g.output)));
  }

  lemma ShowFailedSnoc(front: seq<GateResult>, g: GateResult)
    ensures ShowFailedGate(front + [g]) <==> ShowFailedGate(front) || HoldsFailedGate(OutputLines(g.output))
  {
    var all := front + [g];
    assert all[|front|] == g;
    if ShowFailedGate(front) {
      var i :| 0 <= i < |front| && HoldsFailedGate(OutputLines(front[i].output));
      assert all[i] == front[i];
    }
  }

  lemma {:induction false} HeadsOk(gates: seq<Gate>)
    ensures FailedGates(gates) == [] <==> AllOk(Heads(gates))
  {
    NoneFailedIff(gates);
    if AllOk(Heads(gates)) {
      forall i | 0 <= i < |gates| ensures gates[i].ok {
        assert Heads(gates)[i].1;
      }
    }
  }

  predicate FailsSafety(s: DataSafety) {
    s.required && s.ok == Some(false)
  }

  /** The parts read are in order when no listed link is missing, every gate and every gate shown passed, and the
      data-safety block as its output leaves it does not fail. */
  predicate PartsInOrder(r: Report) {
    && (forall path <- r.evidence :: path !in r.missing) && AllPassed(r.gates)
    && !ShowFailedGate(r.gates) && !FailsSafety(SafetyRead(r.safety))
  }

  lemma {:induction false} RecomputedIff(r: Report)
    requires OutputsStay(r)
    ensures Recomputed(WrittenAndParsed(r)) <==> PartsInOrder(r)
  {
    PartsRead(r);
    ShownGatesAreRead(r);
    LinksRecomputed(r.evidence, r.missing);
    HeadsOk(WrittenAndParsed(r).gates);
    WithShownOk(r.gates);
  }

  /** The verdict is always the written one, so it parts from the parts read exactly when these mislead: when a
      report that passed shows a failed gate or a failed data-safety check in its output, or the output of a failed
      one hides the failure, or a missing link is not among the listed ones. */
  lemma VerdictMatchesPartsIff(r: Report)
    requires OutputsStay(r)
    ensures (WrittenAndParsed(r).overall == "PASS" <==> Recomputed(WrittenAndParsed(r))) <==>
            ((forall path <- r.evidence :: path !in r.missing) && AllPassed(r.gates) ==>
              (r.missing == [] && !(r.safety.required && !r.safety.ok) <==>
                !ShowFailedGate(r.gates) && !FailsSafety(SafetyRead(r.safety))))
  {
    RecomputedIff(r);
    VerdictAlwaysComesBack(r);
    VerdictText(OverallPass(r));
  }
}
