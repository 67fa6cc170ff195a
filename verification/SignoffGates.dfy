/** Which gates the parser reads, whatever the captured outputs hold. */
module SignoffGates {
  import opened Values
  import opened SignoffReport
  import opened SignoffParser
  import opened SignoffRoundTrip
  import opened SignoffTheorems
  import Text

  // ----- The gates a pass over the lines sees -----

  type Head = (string, bool)

  function Heads(gates: seq<Gate>): (heads: seq<Head>)
    ensures |heads| == |gates|
  {
    seq(|gates|, i requires 0 <= i < |gates| => (gates[i].name, gates[i].ok))
  }

  /** The names and verdicts the report was written with. */
  function HeadsOf(gates: seq<GateResult>): (heads: seq<Head>)
    ensures |heads| == |gates|
  {
    seq(|gates|, i requires 0 <= i < |gates| => (gates[i].name, gates[i].ok))
  }

  /** Whether the main loop has the next line, or a section's loop, or the search for the overall result. */
  datatype Mode = AtTop | Skipping | Seeking

  predicate IsGateHeading(line: string) {
    KindOf(line).GateHeading?
  }

  /** The gate announced to the main loop. */
  function HeadIn(kind: LineKind): seq<Head> {
    match kind
    case GateHeading(gate) => [(gate.name, gate.ok)]
    case _ => []
  }

  /** Who has the line after one the main loop has read. */
  function ModeBelow(kind: LineKind): Mode {
    match kind
    case SectionHeading(_) => Skipping
    case OverallHeading => Seeking
    case _ => AtTop
  }

  /** What the loops look for in a line. */
  datatype Glance = Glance(kind: LineKind, endsSection: bool, isResult: bool)

  function GlanceAt(line: string): Glance {
    Glance(KindOf(line), EndsSection(line), ResultOf(line).Some?)
  }

  function Glances(lines: seq<string>): (glances: seq<Glance>)
    ensures |glances| == |lines|
    ensures forall i :: 0 <= i < |lines| ==> glances[i] == GlanceAt(lines[i])
  {
    seq(|lines|, i requires 0 <= i < |lines| => GlanceAt(lines[i]))
  }

  predicate IsSkipped(m: Mode, g: Glance) {
    match m
    case AtTop => false
    case Skipping => !g.endsSection
    case Seeking => !g.isResult
  }

  function NextMode(m: Mode, g: Glance): Mode {
    if IsSkipped(m, g) then m else ModeBelow(g.kind)
  }

  function SeenAt(m: Mode, g: Glance): seq<Head> {
    if IsSkipped(m, g) then [] else HeadIn(g.kind)
  }

  /** The gates announced to the main loop. */
  function SeenIn(m: Mode, glances: seq<Glance>): seq<Head>
    decreases |glances|
  {
    if glances == [] then [] else SeenAt(m, glances[0]) + SeenIn(NextMode(m, glances[0]), glances[1..])
  }

  function ModeAfter(m: Mode, glances: seq<Glance>): Mode
    decreases |glances|
  {
    if glances == [] then m else ModeAfter(NextMode(m, glances[0]), glances[1..])
  }

  lemma {:induction false} SeenConcat(m: Mode, a: seq<Glance>, b: seq<Glance>)
    ensures SeenIn(m, a + b) == SeenIn(m, a) + SeenIn(ModeAfter(m, a), b)
    ensures ModeAfter(m, a + b) == ModeAfter(ModeAfter(m, a), b)
    decreases |a|
  {
    if a == [] {
      assert a + b == b;
    } else {
      assert (a + b)[0] == a[0] && (a + b)[1..] == a[1..] + b;
      SeenConcat(NextMode(m, a[0]), a[1..], b);
    }
  }

  lemma GlancesConcat(a: seq<string>, b: seq<string>)
    ensures Glances(a + b) == Glances(a) + Glances(b)
  {
  }

  function SeenInLines(m: Mode, lines: seq<string>): seq<Head> {
    SeenIn(m, Glances(lines))
  }

  function ModeAfterLines(m: Mode, lines: seq<string>): Mode {
    ModeAfter(m, Glances(lines))
  }

  lemma {:induction false} LinesSeen(m: Mode, a: seq<string>, b: seq<string>)
    ensures SeenInLines(m, a + b) == SeenInLines(m, a) + SeenInLines(ModeAfterLines(m, a), b)
    ensures ModeAfterLines(m, a + b) == ModeAfterLines(ModeAfterLines(m, a), b)
  {
    GlancesConcat(a, b);
    SeenConcat(m, Glances(a), Glances(b));
  }

  lemma {:induction false} FirstSeen(m: Mode, lines: seq<string>)
    requires lines != []
    ensures var g := GlanceAt(lines[0]);
      && SeenInLines(m, lines) == SeenAt(m, g) + SeenInLines(NextMode(m, g), lines[1..])
      && ModeAfterLines(m, lines) == ModeAfterLines(NextMode(m, g), lines[1..])
  {
    assert Glances(lines)[1..] == Glances(lines[1..]);
  }

  // ----- The parser reads the gates that are seen -----

  /** The main loop has the next line, and no gate was announced. */
  predicate Passes(line: string) {
    ModeBelow(KindOf(line)) == AtTop && HeadIn(KindOf(line)) == []
  }

  lemma DashLinePasses(raw: string)
    requires "- " <= Text.Strip(raw)
    ensures Passes(raw)
  {
    var line := Text.Strip(raw);
    assert line[0] == '-';
    NoHeading(line);
  }

  lemma FieldLinePasses(raw: string)
    requires FieldOf(Text.Strip(raw)).Some?
    ensures Passes(raw)
  {
    DashLinePasses(raw);
  }

  lemma LinkLinePasses(raw: string)
    requires LinkOf(Text.Strip(raw)).Some?
    ensures Passes(raw)
  {
    var line := Text.Strip(raw);
    assert line[0] == '-' && line[1] == ' ';
    assert line[..2] == "- ";
    DashLinePasses(raw);
  }

  lemma {:induction false} ContextSees(lines: seq<string>, context: map<string, string>)
    ensures SeenInLines(AtTop, ReadContext(lines, context).1) == SeenInLines(AtTop, lines)
  {
    if lines != [] {
      var field := FieldOf(Text.Strip(lines[0]));
      if field.Some? {
        FieldLinePasses(lines[0]);
        FirstSeen(AtTop, lines);
        ContextSees(lines[1..], context[KeyName(field.value.0) := field.value.1]);
      }
    }
  }

  lemma {:induction false} LinksSee(lines: seq<string>, links: seq<Link>)
    ensures SeenInLines(AtTop, ReadLinks(lines, links).1) == SeenInLines(AtTop, lines)
  {
    if lines != [] {
      var link := LinkOf(Text.Strip(lines[0]));
      if link.Some? {
        LinkLinePasses(lines[0]);
        FirstSeen(AtTop, lines);
        LinksSee(lines[1..], links + [link.value]);
      }
    }
  }

  lemma {:induction false} SectionSees(k: Section, lines: seq<string>, s: Sections)
    ensures SeenInLines(AtTop, ReadSection(k, lines, s).1) == SeenInLines(Skipping, lines)
  {
    if lines != [] {
      FirstSeen(Skipping, lines);
      FirstSeen(AtTop, lines);
    }
    if lines != [] && !EndsSection(lines[0]) {
      SectionSees(k, lines[1..], SectionWith(k, s, FieldOf(Text.Strip(lines[0]))));
    }
  }

  lemma {:induction false} OverallSees(lines: seq<string>, overall: string)
    ensures SeenInLines(AtTop, ReadOverall(lines, overall).1) == SeenInLines(Seeking, lines)
  {
    if lines != [] {
      FirstSeen(Seeking, lines);
      FirstSeen(AtTop, lines);
    }
    if lines != [] && ResultOf(lines[0]).None? {
      OverallSees(lines[1..], overall);
    }
  }

  lemma HeadsSnoc(gates: seq<Gate>, gate: Gate)
    ensures Heads(gates + [gate]) == Heads(gates) + [(gate.name, gate.ok)]
  {
  }

  /** One line of a kind: what it adds to the gates, and what is seen in the lines left. */
  lemma {:induction false} LineSees(kind: LineKind, rest: seq<string>, p: Parsed)
    ensures var r := Handle(kind, rest, p);
      SeenInLines(AtTop, r.1) == SeenInLines(ModeBelow(kind), rest) && Heads(r.0.gates) == Heads(p.gates) + HeadIn(kind)
  {
    match kind
    case ContextHeading => ContextSees(rest, p.context);
    case LinksHeading => LinksSee(rest, p.links);
    case GateHeading(gate) =>
      ReadGateKeepsVerdict(rest, gate);
      HeadsSnoc(p.gates, ReadGate(rest, gate));
    case SectionHeading(k) => SectionSees(k, rest, p.sections);
    case OverallHeading => OverallSees(rest, p.overall);
    case _ =>
  }

  lemma {:induction false} TopSees(line: string, rest: seq<string>)
    ensures SeenInLines(AtTop, [line] + rest) == HeadIn(KindOf(line)) + SeenInLines(ModeBelow(KindOf(line)), rest)
  {
    Cons(line, rest, []);
    FirstSeen(AtTop, [line] + rest);
  }

  lemma {:induction false} LineThenRest(line: string, kind: LineKind, rest: seq<string>, p: Parsed, parsed: Parsed)
    requires SeenInLines(AtTop, [line] + rest) == HeadIn(kind) + SeenInLines(ModeBelow(kind), rest)
    requires var r := Handle(kind, rest, p); Heads(parsed.gates) == Heads(r.0.gates) + SeenInLines(AtTop, r.1)
    ensures Heads(parsed.gates) == Heads(p.gates) + SeenInLines(AtTop, [line] + rest)
  {
    LineSees(kind, rest, p);
    HeadsAssociate(Heads(p.gates), HeadIn(kind), SeenInLines(ModeBelow(kind), rest));
  }

  lemma HeadsAssociate(a: seq<Head>, b: seq<Head>, c: seq<Head>)
    ensures (a + b) + c == a + (b + c)
  {
  }

  lemma {:induction false} ScanSees(lines: seq<string>, p: Parsed)
    ensures Heads(Scan(lines, p).gates) == Heads(p.gates) + SeenInLines(AtTop, lines)
    decreases |lines|
  {
    if lines != [] {
      var line, rest := lines[0], lines[1..];
      var r := Handle(KindOf(line), rest, p);
      assert lines == [line] + rest;
      ScanOne(line, rest, p);
      TopSees(line, rest);
      ScanSees(r.1, r.0);
      LineThenRest(line, KindOf(line), rest, p, Scan(r.1, r.0));
    }
  }

  lemma NoneBefore(gates: seq<Gate>, seen: seq<Head>)
    requires gates == []
    ensures Heads(gates) + seen == seen
  {
  }

  lemma {:induction false} ScanSeesAll(lines: seq<string>, p: Parsed)
    requires p.gates == []
    ensures Heads(Scan(lines, p).gates) == SeenInLines(AtTop, lines)
  {
    ScanSees(lines, p);
    NoneBefore(p.gates, SeenInLines(AtTop, lines));
  }

  /** The gates parsed from the text of any report are those a pass over its lines sees. */
  lemma ParsedGatesAreSeen(r: Report)
    ensures Heads(WrittenAndParsed(r).gates) == SeenInLines(AtTop, Text.SplitLines(Text.Join(ReportLines(r), "\n")))
  {
    ScanSeesAll(Text.SplitLines(Text.Join(ReportLines(r), "\n")), START);
  }

  // ----- What is seen in the parts of a report -----

  predicate AllPass(lines: seq<string>) {
    forall i :: 0 <= i < |lines| ==> Passes(lines[i])
  }

  lemma {:induction false} PassingLines(lines: seq<string>)
    requires AllPass(lines)
    ensures SeenInLines(AtTop, lines) == [] && ModeAfterLines(AtTop, lines) == AtTop
  {
    if lines != [] {
      FirstSeen(AtTop, lines);
      PassingLines(lines[1..]);
    }
  }

  /** A line that changes nothing in any mode. */
  predicate IsIdle(line: string) {
    KindOf(line) == Plain && !EndsSection(line) && ResultOf(line).None?
  }

  lemma {:induction false} IdleLines(m: Mode, lines: seq<string>)
    requires forall i :: 0 <= i < |lines| ==> IsIdle(lines[i])
    ensures SeenInLines(m, lines) == [] && ModeAfterLines(m, lines) == m
  {
    if lines != [] {
      assert IsIdle(lines[0]);
      FirstSeen(m, lines);
      IdleLines(m, lines[1..]);
    }
  }

  lemma FenceIsIdle()
    ensures IsIdle("```text") && IsIdle("```") && IsIdle("")
  {
    FenceIsQuiet(InGate);
    BlankLine("");
    QuietLineIsIdle("```text");
    QuietLineIsIdle("```");
  }

  lemma QuietLineIsIdle(line: string)
    requires IsQuiet(InGate, line) && FieldOf(Text.Strip(line)).None?
    ensures IsIdle(line)
  {
    QuietInGate(line);
  }

  lemma FieldIsIdle(key: string, value: string)
    requires IsGateKey(key)
    ensures IsIdle(Field(key, value))
  {
    assert IsKey(key);
    FieldReads(key, value);
    PlainField(key, value);
  }

  lemma {:induction false} GateFieldsAreIdle(m: Mode, g: GateResult)
    ensures SeenInLines(m, FieldLines(GatePairs(g))) == [] && ModeAfterLines(m, FieldLines(GatePairs(g))) == m
  {
    var pairs := GatePairs(g);
    forall i | 0 <= i < |pairs|
      ensures IsIdle(FieldLines(pairs)[i])
    {
      FieldIsIdle(pairs[i].0, pairs[i].1);
    }
    IdleLines(m, FieldLines(pairs));
  }

  /** A fence shows what its output shows. */
  lemma {:induction false} TailSeen(m: Mode, output: string)
    ensures SeenInLines(m, Tail(output)) == SeenInLines(m, OutputLines(output))
    ensures ModeAfterLines(m, Tail(output)) == ModeAfterLines(m, OutputLines(output))
  {
    FenceIsIdle();
    FencedSeen(m, "```text", OutputLines(output), ["```", ""]);
  }

  lemma {:induction false} FencedSeen(m: Mode, open: string, shown: seq<string>, close: seq<string>)
    requires IsIdle(open) && forall i :: 0 <= i < |close| ==> IsIdle(close[i])
    ensures SeenInLines(m, [open] + (shown + close)) == SeenInLines(m, shown)
    ensures ModeAfterLines(m, [open] + (shown + close)) == ModeAfterLines(m, shown)
  {
    IdleLines(m, [open]);
    LinesSeen(m, [open], shown + close);
    LinesSeen(m, shown, close);
    IdleLines(ModeAfterLines(m, shown), close);
  }

  lemma GateLineEndsNoSearch(name: string, ok: bool)
    requires IsKey(name)
    ensures var line := GateLine(name, ok); !EndsSection(line) && ResultOf(line).None?
  {
    var line := GateLine(name, ok);
    Text.StripIsIdentity(line);
    assert line[0] == '#' && line[2] == '#';
  }

  /** A written gate is seen only by the main loop. */
  function WrittenHead(m: Mode, g: GateResult): seq<Head> {
    if m == AtTop then [(g.name, g.ok)] else []
  }

  lemma {:induction false} GateLineSeen(m: Mode, g: GateResult)
    requires IsKey(g.name)
    ensures var line := [GateLine(g.name, g.ok)]; SeenInLines(m, line) == WrittenHead(m, g) && ModeAfterLines(m, line) == m
  {
    GateLineReads(g.name, g.ok);
    GateLineEndsNoSearch(g.name, g.ok);
    HeadingSeen(m, GateLine(g.name, g.ok), Gate(g.name, g.ok, "", None, None));
  }

  lemma {:induction false} HeadingSeen(m: Mode, line: string, gate: Gate)
    requires KindOf(line) == GateHeading(gate) && !EndsSection(line) && ResultOf(line).None?
    ensures SeenInLines(m, [line]) == (if m == AtTop then [(gate.name, gate.ok)] else []) && ModeAfterLines(m, [line]) == m
  {
    FirstSeen(m, [line]);
    assert [line][1..] == [];
  }

  lemma {:induction false} GateSeen(m: Mode, g: GateResult)
    requires IsKey(g.name)
    ensures SeenInLines(m, GateLines(g)) == WrittenHead(m, g) + SeenInLines(m, OutputLines(g.output))
    ensures ModeAfterLines(m, GateLines(g)) == ModeAfterLines(m, OutputLines(g.output))
  {
    GateLineSeen(m, g);
    GateFieldsAreIdle(m, g);
    TailSeen(m, g.output);
    ThenIdle(m, [GateLine(g.name, g.ok)], FieldLines(GatePairs(g)), Tail(g.output));
  }

  lemma {:induction false} UnseenFirst(m: Mode, a: seq<string>, b: seq<string>)
    requires SeenInLines(m, a) == [] && ModeAfterLines(m, a) == m
    ensures SeenInLines(m, a + b) == SeenInLines(m, b) && ModeAfterLines(m, a + b) == ModeAfterLines(m, b)
  {
    LinesSeen(m, a, b);
  }

  lemma {:induction false} ThenIdle(m: Mode, a: seq<string>, b: seq<string>, c: seq<string>)
    requires ModeAfterLines(m, a) == m && SeenInLines(m, b) == [] && ModeAfterLines(m, b) == m
    ensures SeenInLines(m, a + (b + c)) == SeenInLines(m, a) + SeenInLines(m, c)
    ensures ModeAfterLines(m, a + (b + c)) == ModeAfterLines(m, c)
  {
    UnseenFirst(m, b, c);
    LinesSeen(m, a, b + c);
  }

  /** Who has the line after the gates. */
  function ModeAfterGates(gates: seq<GateResult>): Mode {
    if gates == [] then AtTop
    else ModeAfterLines(ModeAfterGates(gates[..|gates| - 1]), OutputLines(gates[|gates| - 1].output))
  }

  /** The gates seen in the written ones and their outputs. */
  function SeenInGates(gates: seq<GateResult>): seq<Head> {
    if gates == [] then []
    else
      var front, g := gates[..|gates| - 1], gates[|gates| - 1];
      SeenInGates(front) + (WrittenHead(ModeAfterGates(front), g) + SeenInLines(ModeAfterGates(front), OutputLines(g.output)))
  }

  predicate AreNamed(gates: seq<GateResult>) {
    forall i :: 0 <= i < |gates| ==> IsKey(gates[i].name)
  }

  lemma {:induction false} GatesSeen(gates: seq<GateResult>)
    requires AreNamed(gates)
    ensures SeenInLines(AtTop, SplitGates(gates)) == SeenInGates(gates)
    ensures ModeAfterLines(AtTop, SplitGates(gates)) == ModeAfterGates(gates)
  {
    if gates != [] {
      var front, g := gates[..|gates| - 1], gates[|gates| - 1];
      GatesSeen(front);
      LinesSeen(AtTop, SplitGates(front), GateLines(g));
      GateSeen(ModeAfterGates(front), g);
    }
  }

  // ----- What comes before the gates -----

  lemma TimePasses(value: string)
    ensures Passes(Field("Started", value)) && Passes(Field("Ended", value))
  {
    TimeFields(value);
  }

  lemma EarlyHeadingsPass()
    ensures Passes("## Execution Context") && Passes("## Required Evidence Links") && Passes("## Gate Results")
  {
    EarlyHeadings();
  }

  lemma TitlePasses()
    ensures Passes("# Release Candidate Signoff Evidence") && Passes("")
  {
    TitleLine("# Release Candidate Signoff Evidence");
    BlankLine("");
  }

  lemma {:induction false} PreambleSeen(r: Report)
    ensures SeenInLines(AtTop, Preamble(r)) == [] && ModeAfterLines(AtTop, Preamble(r)) == AtTop
  {
    TitlePasses();
    TimePasses(r.startedAt);
    TimePasses(r.endedAt);
    EarlyHeadingsPass();
    ThreePass("# Release Candidate Signoff Evidence", "", Field("Started", r.startedAt));
    ThreePass(Field("Ended", r.endedAt), "", "## Execution Context");
    SixUnseen("# Release Candidate Signoff Evidence", "", Field("Started", r.startedAt), Field("Ended", r.endedAt),
              "## Execution Context");
  }

  predicate IsUnseen(lines: seq<string>) {
    SeenInLines(AtTop, lines) == [] && ModeAfterLines(AtTop, lines) == AtTop
  }

  lemma {:induction false} SixUnseen(title: string, blank: string, started: string, ended: string, heading: string)
    requires IsUnseen([title, blank, started]) && IsUnseen([ended, blank, heading])
    ensures IsUnseen([title, blank, started, ended, blank, heading])
  {
    TwoUnseen([title, blank, started], [ended, blank, heading]);
    assert [title, blank, started] + [ended, blank, heading] == [title, blank, started, ended, blank, heading];
  }

  lemma {:induction false} ThreePass(a: string, b: string, c: string)
    requires Passes(a) && Passes(b) && Passes(c)
    ensures SeenInLines(AtTop, [a, b, c]) == [] && ModeAfterLines(AtTop, [a, b, c]) == AtTop
  {
    PassingLines([a, b, c]);
  }

  lemma {:induction false} TwoUnseen(a: seq<string>, b: seq<string>)
    requires SeenInLines(AtTop, a) == [] && ModeAfterLines(AtTop, a) == AtTop
    requires SeenInLines(AtTop, b) == [] && ModeAfterLines(AtTop, b) == AtTop
    ensures SeenInLines(AtTop, a + b) == [] && ModeAfterLines(AtTop, a + b) == AtTop
  {
    UnseenFirst(AtTop, a, b);
  }

  lemma {:induction false} ContextSeen(r: Report)
    ensures SeenInLines(AtTop, FieldLines(ContextPairs(r.context))) == []
    ensures ModeAfterLines(AtTop, FieldLines(ContextPairs(r.context))) == AtTop
  {
    var pairs := ContextPairs(r.context);
    ContextKeys(r.context);
    forall i | 0 <= i < |pairs|
      ensures Passes(FieldLines(pairs)[i])
    {
      PlainField(pairs[i].0, pairs[i].1);
    }
    PassingLines(FieldLines(pairs));
  }

  lemma {:induction false} BlankSeen(blank: string)
    requires blank == ""
    ensures SeenInLines(AtTop, [blank]) == [] && ModeAfterLines(AtTop, [blank]) == AtTop
  {
    BlankLine(blank);
    PassingLines([blank]);
  }

  lemma {:induction false} LinksSeen(r: Report)
    ensures SeenInLines(AtTop, Links(r)) == [] && ModeAfterLines(AtTop, Links(r)) == AtTop
  {
    var lines := LinkLines(r.evidence, r.missing);
    EarlyHeadingsPass();
    TitlePasses();
    forall i | 0 <= i < |lines|
      ensures Passes(lines[i])
    {
      LinkLineReads(r.evidence[i], r.evidence[i] !in r.missing);
      LinkLinePasses(lines[i]);
    }
    LinksPass("## Required Evidence Links", lines, "", "## Gate Results");
  }

  lemma {:induction false} LinksPass(heading: string, lines: seq<string>, blank: string, results: string)
    requires Passes(heading) && AllPass(lines) && Passes(blank) && Passes(results)
    ensures SeenInLines(AtTop, [heading] + lines + [blank, results]) == []
    ensures ModeAfterLines(AtTop, [heading] + lines + [blank, results]) == AtTop
  {
    PassingLines([heading] + lines + [blank, results]);
  }

  lemma {:induction false} FourUnseen(a: seq<string>, b: seq<string>, c: seq<string>, d: seq<string>, rest: seq<string>)
    requires SeenInLines(AtTop, a) == [] && ModeAfterLines(AtTop, a) == AtTop
    requires SeenInLines(AtTop, b) == [] && ModeAfterLines(AtTop, b) == AtTop
    requires SeenInLines(AtTop, c) == [] && ModeAfterLines(AtTop, c) == AtTop
    requires SeenInLines(AtTop, d) == [] && ModeAfterLines(AtTop, d) == AtTop
    ensures SeenInLines(AtTop, a + (b + (c + (d + rest)))) == SeenInLines(AtTop, rest)
  {
    UnseenFirst(AtTop, a, b + (c + (d + rest)));
    UnseenFirst(AtTop, b, c + (d + rest));
    UnseenFirst(AtTop, c, d + rest);
    UnseenFirst(AtTop, d, rest);
  }

  lemma {:induction false} OpeningSeen(r: Report, rest: seq<string>)
    ensures SeenInLines(AtTop, Preamble(r) + (FieldLines(ContextPairs(r.context)) + ([""] + (Links(r) + rest)))) ==
            SeenInLines(AtTop, rest)
  {
    PreambleSeen(r);
    ContextSeen(r);
    BlankSeen("");
    LinksSeen(r);
    FourUnseen(Preamble(r), FieldLines(ContextPairs(r.context)), [""], Links(r), rest);
  }

  /** The gates parsed from a report without line breaks in its fields: the written ones that the main loop gets to
      see, and what it sees in the captured outputs. */
  lemma GatesReadAre(r: Report)
    requires OneLineFields(r) && AreNamed(r.gates)
    ensures Heads(WrittenAndParsed(r).gates) == SeenInGates(r.gates) + SeenInLines(ModeAfterGates(r.gates), SplitSections(r))
  {
    ParsedGatesAreSeen(r);
    TextSplits(r);
    OpeningSeen(r, SplitGates(r.gates) + SplitSections(r));
    LinesSeen(AtTop, SplitGates(r.gates), SplitSections(r));
    GatesSeen(r.gates);
  }

  // ----- When all gates come back -----

  /** The main loop has the line after the output. */
  predicate LeavesAtTop(output: string) {
    ModeAfterLines(AtTop, OutputLines(output)) == AtTop
  }

  predicate AllLeaveAtTop(gates: seq<GateResult>) {
    forall i :: 0 <= i < |gates| ==> LeavesAtTop(gates[i].output)
  }

  predicate ShowsNoGate(output: string) {
    SeenInLines(AtTop, OutputLines(output)) == []
  }

  lemma OneMore(seen: seq<Head>, written: seq<Head>, head: Head, extra: seq<Head>)
    requires |seen| >= |written| && (|seen| == |written| ==> seen == written)
    ensures var more := seen + ([head] + extra);
      && |more| >= |written| + 1 && (|more| == |written| + 1 ==> more == written + [head])
      && (more == written + [head] <==> seen == written && extra == [])
  {
  }

  lemma NoMore(seen: seq<Head>, written: seq<Head>, extra: seq<Head>)
    requires |seen| >= |written| && (|seen| == |written| ==> seen == written)
    ensures seen + extra == written <==> seen == written && extra == []
  {
  }

  lemma HeadsOfSnoc(front: seq<GateResult>, g: GateResult)
    ensures HeadsOf(front + [g]) == HeadsOf(front) + [(g.name, g.ok)]
  {
  }

  predicate ShowNoGate(gates: seq<GateResult>) {
    forall i :: 0 <= i < |gates| ==> ShowsNoGate(gates[i].output)
  }

  lemma ShowNoGateSnoc(front: seq<GateResult>, g: GateResult)
    ensures ShowNoGate(front + [g]) <==> ShowNoGate(front) && ShowsNoGate(g.output)
  {
    assert (front + [g])[|front|] == g;
    if ShowNoGate(front + [g]) {
      forall i | 0 <= i < |front|
        ensures ShowsNoGate(front[i].output)
      {
        assert (front + [g])[i] == front[i];
      }
    }
  }

  lemma {:induction false} GatesAtTop(gates: seq<GateResult>)
    requires AllLeaveAtTop(gates)
    ensures ModeAfterGates(gates) == AtTop && |SeenInGates(gates)| >= |gates|
    ensures |SeenInGates(gates)| == |gates| ==> SeenInGates(gates) == HeadsOf(gates)
    ensures SeenInGates(gates) == HeadsOf(gates) <==> ShowNoGate(gates)
  {
    if gates != [] {
      var n := |gates| - 1;
      var front, g := gates[..n], gates[n];
      assert gates == front + [g] && LeavesAtTop(g.output);
      GatesAtTop(front);
      HeadsOfSnoc(front, g);
      ShowNoGateSnoc(front, g);
      OneMore(SeenInGates(front), HeadsOf(front), (g.name, g.ok), SeenInLines(AtTop, OutputLines(g.output)));
    }
  }

  /** When every gate's output leaves the main loop in charge, names and verdicts come back as written exactly when
      no output shows it a gate. */
  lemma GatesComeBackIff(r: Report)
    requires OneLineFields(r) && AreNamed(r.gates) && AllLeaveAtTop(r.gates)
    ensures Heads(WrittenAndParsed(r).gates) == HeadsOf(r.gates) <==>
      ShowNoGate(r.gates) && SeenInLines(AtTop, SplitSections(r)) == []
  {
    GatesReadAre(r);
    GatesAtTop(r.gates);
    NoMore(SeenInGates(r.gates), HeadsOf(r.gates), SeenInLines(AtTop, SplitSections(r)));
  }

  // ----- Outputs without gate headings -----

  predicate HoldsNoGate(lines: seq<string>) {
    forall i :: 0 <= i < |lines| ==> !IsGateHeading(lines[i])
  }

  lemma {:induction false} NoGateSeen(m: Mode, lines: seq<string>)
    requires HoldsNoGate(lines)
    ensures SeenInLines(m, lines) == []
  {
    NoGateGlanced(m, Glances(lines));
  }

  lemma {:induction false} NoGateGlanced(m: Mode, glances: seq<Glance>)
    requires forall i :: 0 <= i < |glances| ==> !glances[i].kind.GateHeading?
    ensures SeenIn(m, glances) == []
    decreases |glances|
  {
    if glances != [] {
      NoGateGlanced(NextMode(m, glances[0]), glances[1..]);
    }
  }

  ghost predicate ShowsNothing(lines: seq<string>) {
    forall m :: SeenInLines(m, lines) == []
  }

  lemma {:induction false} NoGateShown(lines: seq<string>)
    requires HoldsNoGate(lines)
    ensures ShowsNothing(lines)
  {
    forall m ensures SeenInLines(m, lines) == [] {
      NoGateSeen(m, lines);
    }
  }

  lemma {:induction false} NothingTwice(a: seq<string>, b: seq<string>)
    requires ShowsNothing(a) && ShowsNothing(b)
    ensures ShowsNothing(a + b)
  {
    forall m ensures SeenInLines(m, a + b) == [] {
      LinesSeen(m, a, b);
    }
  }

  /** No line of a section's output is a gate heading. */
  predicate SectionsHoldNoGate(r: Report) {
    && HoldsNoGate(OutputLines(r.safety.output)) && HoldsNoGate(OutputLines(r.governance.output))
    && HoldsNoGate(OutputLines(r.snapshots.output)) && HoldsNoGate(OutputLines(r.ui.output))
  }

  lemma {:induction false} FieldsShowNothing(pairs: Pairs)
    requires AreKeys(pairs)
    ensures ShowsNothing(FieldLines(pairs))
  {
    var fields := FieldLines(pairs);
    forall i | 0 <= i < |fields|
      ensures !IsGateHeading(fields[i])
    {
      PlainField(pairs[i].0, pairs[i].1);
    }
    NoGateShown(fields);
  }

  lemma {:induction false} TailShowsNothing(output: string)
    requires HoldsNoGate(OutputLines(output))
    ensures ShowsNothing(Tail(output))
  {
    NoGateShown(OutputLines(output));
    forall m ensures SeenInLines(m, Tail(output)) == [] {
      TailSeen(m, output);
    }
  }

  lemma {:induction false} BlockShowsNothing(k: Section, heading: string, pairs: Pairs, output: string)
    requires KindOf(heading) == SectionHeading(k) && AreKeys(pairs) && HoldsNoGate(OutputLines(output))
    ensures ShowsNothing(SplitBlock(heading, pairs, output))
  {
    NoGateShown([heading]);
    FieldsShowNothing(pairs);
    TailShowsNothing(output);
    NothingTwice(FieldLines(pairs), Tail(output));
    NothingTwice([heading], FieldLines(pairs) + Tail(output));
  }

  lemma {:induction false} EndShowsNothing(r: Report)
    ensures ShowsNothing(End(r))
  {
    HeadingKind("## Overall");
    SectionKinds();
    ResultLine(PassFail(OverallPass(r)));
    NoGateShown(End(r));
  }

  lemma {:induction false} NothingInFive(a: seq<string>, b: seq<string>, c: seq<string>, d: seq<string>, e: seq<string>)
    requires ShowsNothing(a) && ShowsNothing(b) && ShowsNothing(c) && ShowsNothing(d) && ShowsNothing(e)
    ensures ShowsNothing(a + (b + (c + (d + e))))
  {
    NothingTwice(d, e);
    NothingTwice(c, d + e);
    NothingTwice(b, c + (d + e));
    NothingTwice(a, b + (c + (d + e)));
  }

  lemma {:induction false} SectionsShowNothing(r: Report)
    requires SectionsHoldNoGate(r)
    ensures ShowsNothing(SplitSections(r))
  {
    KnownHeadings();
    SafetyKeys(r.safety);
    GovernanceKeys(r.governance);
    SnapshotKeys(r.snapshots);
    UiKeys(r.ui);
    BlockShowsNothing(SafetySection, "## Local Data Safety", SafetyPairs(r.safety), r.safety.output);
    BlockShowsNothing(GovernanceSection, "## Governance Alerts", GovernancePairs(r.governance), r.governance.output);
    BlockShowsNothing(SnapshotsSection, "## Runtime Snapshots", SnapshotPairs(r.snapshots), r.snapshots.output);
    BlockShowsNothing(UiSection, "## UI E2E Automation", UiPairs(r.ui), r.ui.output);
    EndShowsNothing(r);
    NothingInFive(SplitBlock("## Local Data Safety", SafetyPairs(r.safety), r.safety.output),
                  SplitBlock("## Governance Alerts", GovernancePairs(r.governance), r.governance.output),
                  SplitBlock("## Runtime Snapshots", SnapshotPairs(r.snapshots), r.snapshots.output),
                  SplitBlock("## UI E2E Automation", UiPairs(r.ui), r.ui.output), End(r));
  }

  predicate GatesHoldNoGate(gates: seq<GateResult>) {
    forall i :: 0 <= i < |gates| ==> HoldsNoGate(OutputLines(gates[i].output))
  }

  lemma AllLeaveSnoc(front: seq<GateResult>, g: GateResult)
    ensures AllLeaveAtTop(front + [g]) <==> AllLeaveAtTop(front) && LeavesAtTop(g.output)
  {
    assert (front + [g])[|front|] == g;
    if AllLeaveAtTop(front + [g]) {
      forall i | 0 <= i < |front|
        ensures LeavesAtTop(front[i].output)
      {
        assert (front + [g])[i] == front[i];
      }
    }
  }

  lemma OneOrNone(seen: seq<Head>, written: seq<Head>, head: Head, more: seq<Head>)
    requires |seen| <= |written| && (|seen| == |written| ==> seen == written) && (more == [head] || more == [])
    ensures |seen + more| <= |written| + 1 && (|seen + more| == |written| + 1 ==> seen + more == written + [head])
    ensures seen + more == written + [head] <==> seen == written && more == [head]
  {
  }

  lemma Unlengthened(seen: seq<Head>, extra: seq<Head>)
    requires extra == []
    ensures seen + extra == seen
  {
  }

  lemma {:induction false} SeenSnoc(front: seq<GateResult>, g: GateResult)
    requires HoldsNoGate(OutputLines(g.output))
    ensures SeenInGates(front + [g]) == SeenInGates(front) + WrittenHead(ModeAfterGates(front), g)
    ensures ModeAfterGates(front + [g]) == ModeAfterLines(ModeAfterGates(front), OutputLines(g.output))
  {
    assert (front + [g])[..|front|] == front;
    NoGateSeen(ModeAfterGates(front), OutputLines(g.output));
    Unlengthened(WrittenHead(ModeAfterGates(front), g), SeenInLines(ModeAfterGates(front), OutputLines(g.output)));
  }

  lemma {:induction false} GatesWithoutHeadings(gates: seq<GateResult>)
    requires GatesHoldNoGate(gates)
    ensures var seen := SeenInGates(gates);
      && |seen| <= |gates| && (|seen| == |gates| ==> seen == HeadsOf(gates))
      && (seen == HeadsOf(gates) && ModeAfterGates(gates) == AtTop <==> AllLeaveAtTop(gates))
      && (gates != [] ==> (seen == HeadsOf(gates) <==> AllLeaveAtTop(gates[..|gates| - 1])))
  {
    if gates != [] {
      var n := |gates| - 1;
      var front, g := gates[..n], gates[n];
      assert gates == front + [g] && HoldsNoGate(OutputLines(g.output));
      GatesWithoutHeadings(front);
      SeenSnoc(front, g);
      HeadsOfSnoc(front, g);
      AllLeaveSnoc(front, g);
      OneOrNone(SeenInGates(front), HeadsOf(front), (g.name, g.ok), WrittenHead(ModeAfterGates(front), g));
    }
  }

  lemma OnlyWrittenGates(r: Report)
    requires OneLineFields(r) && AreNamed(r.gates) && SectionsHoldNoGate(r)
    ensures Heads(WrittenAndParsed(r).gates) == SeenInGates(r.gates)
  {
    GatesReadAre(r);
    SectionsShowNothing(r);
    Unlengthened(SeenInGates(r.gates), SeenInLines(ModeAfterGates(r.gates), SplitSections(r)));
  }

  lemma {:induction false} SeenThenReadIff(heads: seq<Head>, gates: seq<GateResult>)
    requires heads == SeenInGates(gates) && GatesHoldNoGate(gates) && gates != []
    ensures heads == HeadsOf(gates) <==> AllLeaveAtTop(gates[..|gates| - 1])
  {
    GatesWithoutHeadings(gates);
  }

  /** When no line of output is a gate heading, names and verdicts come back as written exactly when the output of
      every gate but the last leaves the main loop in charge. */
  lemma GatesAllReadIff(r: Report)
    requires OneLineFields(r) && AreNamed(r.gates) && GatesHoldNoGate(r.gates) && SectionsHoldNoGate(r) && r.gates != []
    ensures Heads(WrittenAndParsed(r).gates) == HeadsOf(r.gates) <==> AllLeaveAtTop(r.gates[..|r.gates| - 1])
  {
    OnlyWrittenGates(r);
    SeenThenReadIff(Heads(WrittenAndParsed(r).gates), r.gates);
  }
}
