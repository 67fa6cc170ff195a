/** What the parser reads from any text: each field is the one that the last readable line for it gives. */
module SignoffReading {
  import opened Values
  import opened SignoffReport
  import opened SignoffParser
  import opened SignoffRoundTrip
  import Text

  // ----- Which lines are read -----

  lemma BetweenIff(prefix: string, line: string, suffix: string, value: string)
    ensures Between(prefix, line, suffix) == Some(value) <==> line == prefix + value + suffix
  {
    if Between(prefix, line, suffix) == Some(value) {
      assert line == line[..|prefix|] + line[|prefix|..|line| - |suffix|] + line[|line| - |suffix|..];
    }
    if line == prefix + value + suffix {
      BetweenOf(prefix, value, suffix);
    }
  }

  lemma {:induction false} BeforeColonHasNone(s: string)
    ensures ':' !in BeforeColon(s)
  {
    if s != "" && s[0] != ':' {
      BeforeColonHasNone(s[1..]);
    }
  }

  /** A line is read as a field exactly when it is the written form of that field, its key neither empty nor with a
      colon. */
  lemma FieldOfIff(line: string, key: string, value: string)
    ensures FieldOf(line) == Some((key, value)) <==> line == Field(key, value) && IsKey(key)
  {
    if FieldOf(line) == Some((key, value)) {
      BeforeColonHasNone(line[2..]);
      BetweenIff("- " + key + ": `", line, "`", value);
    }
    if line == Field(key, value) && IsKey(key) {
      FieldReads(key, value);
    }
  }

  lemma LinkOfIff(line: string, path: string, ok: bool)
    ensures LinkOf(line) == Some(Link(path, ok)) <==> line == LinkLine(path, ok)
  {
    BetweenIff("- [OK] `", line, "`", path);
    BetweenIff("- [MISSING] `", line, "`", path);
    if line == LinkLine(path, ok) {
      LinkLineReads(path, ok);
    }
  }

  lemma GateOfIff(line: string, name: string, ok: bool)
    ensures GateOf(line) == Some(Gate(name, ok, "", None, None)) <==> line == GateLine(name, ok) && IsKey(name)
  {
    BetweenIff("### ", line, ": PASS", name);
    BetweenIff("### ", line, ": FAIL", name);
    if line == GateLine(name, ok) && IsKey(name) {
      GateLineReads(name, ok);
      Text.StripIsIdentity(line);
    }
  }

  /** The search for the overall result ends at a written result line, and at no other. */
  lemma ResultOfIff(raw: string, verdict: string)
    ensures ResultOf(raw) == Some(verdict) <==>
      Text.Strip(raw) == Field("Result", verdict) && (verdict == "PASS" || verdict == "FAIL")
  {
    assert IsKey("Result");
    FieldOfIff(Text.Strip(raw), "Result", verdict);
    if ResultOf(raw) == Some(verdict) {
      assert FieldOf(Text.Strip(raw)) == Some(("Result", verdict));
    }
  }

  /** A context value is filed under its key without the blanks around it, capital letters made small and blanks made
      underscores. */
  lemma KeyNameIs(a: string, key: string, b: string)
    requires Text.IsBlank(a) && Text.IsBlank(b)
    requires key != "" && Text.IsVisible(key[0]) && Text.IsVisible(key[|key| - 1])
    ensures var name := KeyName(a + key + b);
      && |name| == |key|
      && forall i :: 0 <= i < |key| ==>
           && (key[i] == ' ' ==> name[i] == '_')
           && ('A' <= key[i] <= 'Z' ==> 'a' <= name[i] <= 'z' && name[i] - 'a' == key[i] - 'A')
           && (key[i] != ' ' && !('A' <= key[i] <= 'Z') ==> name[i] == key[i])
  {
    Text.StripIs(a, key, b);
  }

  // ----- The last line for a field -----

  /** The value a line gives for a key, if it is one that counts. */
  function GivenBy(line: string, key: string, counts: string -> bool): Option<string> {
    var field := FieldOf(Text.Strip(line));
    if field.Some? && field.value.0 == key && counts(field.value.1) then Some(field.value.1) else None
  }

  function LastGiven(lines: seq<string>, key: string, counts: string -> bool): Option<string> {
    if lines == [] then None
    else
      var last := GivenBy(lines[|lines| - 1], key, counts);
      if last.Some? then last else LastGiven(lines[..|lines| - 1], key, counts)
  }

  /** It is that of the last line that gives one. */
  lemma {:induction false} LastGivenIsLast(lines: seq<string>, key: string, counts: string -> bool, i: nat)
    requires i < |lines| && GivenBy(lines[i], key, counts).Some?
    requires forall j :: i < j < |lines| ==> GivenBy(lines[j], key, counts).None?
    ensures LastGiven(lines, key, counts) == GivenBy(lines[i], key, counts)
    decreases |lines|
  {
    if i < |lines| - 1 {
      var front := lines[..|lines| - 1];
      assert front[i] == lines[i] && forall j :: i < j < |front| ==> front[j] == lines[j];
      LastGivenIsLast(front, key, counts, i);
    }
  }

  lemma {:induction false} NoneGivenIff(lines: seq<string>, key: string, counts: string -> bool)
    ensures LastGiven(lines, key, counts).None? <==> forall i :: 0 <= i < |lines| ==> GivenBy(lines[i], key, counts).None?
    decreases |lines|
  {
    if lines != [] {
      NoneGivenIff(lines[..|lines| - 1], key, counts);
    }
  }

  lemma {:induction false} LastGivenConcat(a: seq<string>, b: seq<string>, key: string, counts: string -> bool)
    ensures LastGiven(a + b, key, counts) ==
            if LastGiven(b, key, counts).Some? then LastGiven(b, key, counts) else LastGiven(a, key, counts)
    decreases |b|
  {
    if b == [] {
      assert a + b == a;
    } else {
      assert (a + b)[..|a + b| - 1] == a + b[..|b| - 1];
      LastGivenConcat(a, b[..|b| - 1], key, counts);
    }
  }

  // ----- The lines of a section -----

  /** The lines up to the next heading of the second level. */
  function Body(lines: seq<string>): (body: seq<string>)
    ensures |body| <= |lines|
  {
    if lines == [] || EndsSection(lines[0]) then [] else [lines[0]] + Body(lines[1..])
  }

  /** The lines left after one of this kind. */
  function LeftAfter(kind: LineKind, rest: seq<string>): (left: seq<string>)
    ensures |left| <= |rest|
  {
    match kind
    case ContextHeading => ReadContext(rest, map[]).1
    case LinksHeading => ReadLinks(rest, []).1
    case SectionHeading(_) => rest[|Body(rest)|..]
    case OverallHeading => ReadOverall(rest, "").1
    case _ => rest
  }

  /** The lines of all sections of this kind, in order. */
  function BodiesOf(k: Section, lines: seq<string>): seq<string>
    decreases |lines|
  {
    if lines == [] then []
    else
      (if KindOf(lines[0]) == SectionHeading(k) then Body(lines[1..]) else [])
      + BodiesOf(k, LeftAfter(KindOf(lines[0]), lines[1..]))
  }

  lemma {:induction false} ContextLeft(lines: seq<string>, a: map<string, string>, b: map<string, string>)
    ensures ReadContext(lines, a).1 == ReadContext(lines, b).1
  {
    if lines != [] {
      var field := FieldOf(Text.Strip(lines[0]));
      if field.Some? {
        ContextLeft(lines[1..], a[KeyName(field.value.0) := field.value.1], b[KeyName(field.value.0) := field.value.1]);
      }
    }
  }

  lemma {:induction false} LinksLeft(lines: seq<string>, a: seq<Link>, b: seq<Link>)
    ensures ReadLinks(lines, a).1 == ReadLinks(lines, b).1
  {
    if lines != [] {
      var link := LinkOf(Text.Strip(lines[0]));
      if link.Some? {
        LinksLeft(lines[1..], a + [link.value], b + [link.value]);
      }
    }
  }

  lemma {:induction false} OverallLeft(lines: seq<string>, a: string, b: string)
    ensures ReadOverall(lines, a).1 == ReadOverall(lines, b).1
  {
    if lines != [] && ResultOf(lines[0]).None? {
      OverallLeft(lines[1..], a, b);
    }
  }

  /** All the lines of a section, read one by one. */
  function AfterBody(k: Section, s: Sections, body: seq<string>): Sections
    decreases body
  {
    if body == [] then s else AfterBody(k, SectionWith(k, s, FieldOf(Text.Strip(body[0]))), body[1..])
  }

  lemma {:induction false} SectionIsBody(k: Section, lines: seq<string>, s: Sections)
    ensures ReadSection(k, lines, s) == (AfterBody(k, s, Body(lines)), lines[|Body(lines)|..])
  {
    if lines != [] && !EndsSection(lines[0]) {
      var next := SectionWith(k, s, FieldOf(Text.Strip(lines[0])));
      SectionIsBody(k, lines[1..], next);
      BodyCons(lines[0], Body(lines[1..]));
      assert lines[1..][|Body(lines[1..])|..] == lines[|Body(lines[1..])| + 1..];
    }
  }

  lemma BodyCons(line: string, body: seq<string>)
    ensures ([line] + body)[0] == line && ([line] + body)[1..] == body
  {
  }

  // ----- One field -----

  /** The section's loop sets this field from the lines of this key that count, and no other line or loop does. */
  ghost predicate Reads<T(!new)>(k: Section, get: Sections -> T, key: string, counts: string -> bool, means: string -> T) {
    && (forall s, field :: get(SectionWith(k, s, field)) ==
          if field.Some? && field.value.0 == key && counts(field.value.1) then means(field.value.1) else get(s))
    && (forall j, s, field :: j != k ==> get(SectionWith(j, s, field)) == get(s))
  }

  function Meant<T>(given: Option<string>, means: string -> T, default: T): T {
    if given.Some? then means(given.value) else default
  }

  lemma {:induction false} OneLineReads<T(!new)>(k: Section, get: Sections -> T, key: string, counts: string -> bool,
                                                 means: string -> T, line: string, s: Sections)
    requires Reads(k, get, key, counts, means)
    ensures get(SectionWith(k, s, FieldOf(Text.Strip(line)))) == Meant(LastGiven([line], key, counts), means, get(s))
  {
    var field := FieldOf(Text.Strip(line));
    assert [line][..0] == [];
    assert get(SectionWith(k, s, field)) ==
      if field.Some? && field.value.0 == key && counts(field.value.1) then means(field.value.1) else get(s);
  }

  lemma {:induction false} BodyReads<T(!new)>(k: Section, get: Sections -> T, key: string, counts: string -> bool,
                                              means: string -> T, body: seq<string>, s: Sections)
    requires Reads(k, get, key, counts, means)
    ensures get(AfterBody(k, s, body)) == Meant(LastGiven(body, key, counts), means, get(s))
    decreases |body|
  {
    if body != [] {
      OneLineReads(k, get, key, counts, means, body[0], s);
      BodyReads(k, get, key, counts, means, body[1..], SectionWith(k, s, FieldOf(Text.Strip(body[0]))));
      assert body == [body[0]] + body[1..];
      LastGivenConcat([body[0]], body[1..], key, counts);
    }
  }

  lemma {:induction false} OtherBody<T(!new)>(j: Section, k: Section, get: Sections -> T, key: string, counts: string -> bool,
                                              means: string -> T, body: seq<string>, s: Sections)
    requires Reads(k, get, key, counts, means) && j != k
    ensures get(AfterBody(j, s, body)) == get(s)
    decreases |body|
  {
    if body != [] {
      OtherBody(j, k, get, key, counts, means, body[1..], SectionWith(j, s, FieldOf(Text.Strip(body[0]))));
    }
  }

  /** What one line, with the lines its loop consumes, does to the field. */
  lemma {:induction false} HandleReads<T(!new)>(kind: LineKind, k: Section, get: Sections -> T, key: string,
                                                counts: string -> bool, means: string -> T, rest: seq<string>, p: Parsed)
    requires Reads(k, get, key, counts, means)
    ensures var r := Handle(kind, rest, p);
      && r.1 == LeftAfter(kind, rest)
      && get(r.0.sections) ==
         Meant(LastGiven(if kind == SectionHeading(k) then Body(rest) else [], key, counts), means, get(p.sections))
  {
    match kind
    case ContextHeading => ContextLeft(rest, p.context, map[]);
    case LinksHeading => LinksLeft(rest, p.links, []);
    case OverallHeading => OverallLeft(rest, p.overall, "");
    case SectionHeading(j) =>
      SectionIsBody(j, rest, p.sections);
      if j == k {
        BodyReads(k, get, key, counts, means, Body(rest), p.sections);
      } else {
        OtherBody(j, k, get, key, counts, means, Body(rest), p.sections);
      }
    case _ =>
  }

  /** The field holds what the last line for it in a section of its kind means, or what it held before. */
  lemma {:induction false} ScanReads<T(!new)>(k: Section, get: Sections -> T, key: string, counts: string -> bool,
                                              means: string -> T, lines: seq<string>, p: Parsed)
    requires Reads(k, get, key, counts, means)
    ensures get(Scan(lines, p).sections) == Meant(LastGiven(BodiesOf(k, lines), key, counts), means, get(p.sections))
    decreases |lines|
  {
    if lines != [] {
      var kind, rest := KindOf(lines[0]), lines[1..];
      var r := Handle(kind, rest, p);
      HandleReads(kind, k, get, key, counts, means, rest, p);
      ScanReads(k, get, key, counts, means, r.1, r.0);
      LastGivenConcat(if kind == SectionHeading(k) then Body(rest) else [], BodiesOf(k, r.1), key, counts);
    }
  }

  // ----- What counts for a field, and what it means -----

  predicate IsTruth(v: string) {
    v == "true" || v == "false"
  }

  predicate IsAny(v: string) {
    true
  }

  predicate IsMode(v: string) {
    v == "advisory" || v == "required"
  }

  predicate IsVerdict(v: string) {
    v == "PASS" || v == "FAIL"
  }

  predicate IsInteger(v: string) {
    Text.ParseInt(v).Some?
  }

  predicate IsNatural(v: string) {
    Text.ParseNat(v).Some?
  }

  function IsTrue(v: string): bool {
    v == "true"
  }

  function Itself(v: string): string {
    v
  }

  function Passed(v: string): Option<bool> {
    Some(v == "PASS")
  }

  /** A step over a record sets this field from the lines of this key that count, and only from them. */
  ghost predicate Sets<R(!new), T>(step: (R, Option<(string, string)>) -> R, get: R -> T, key: string, counts: string -> bool,
                                   means: string -> T) {
    forall r, field :: get(step(r, field)) ==
      if field.Some? && field.value.0 == key && counts(field.value.1) then means(field.value.1) else get(r)
  }

  // ----- The data-safety block -----

  lemma {:induction false} SafetyFieldRead<T(!new)>(get: DataSafety -> T, key: string, counts: string -> bool,
                                                    means: string -> T, lines: seq<string>, p: Parsed)
    requires Sets(SafetyWith, get, key, counts, means)
    ensures get(Scan(lines, p).sections.safety) ==
            Meant(LastGiven(BodiesOf(SafetySection, lines), key, counts), means, get(p.sections.safety))
  {
    ScanReads(SafetySection, (s: Sections) => get(s.safety), key, counts, means, lines, p);
  }

  lemma EnabledLine(s: DataSafety, key: string, value: string)
    ensures key == "Enabled" && IsTruth(value) ==> SafetyWith(s, Some((key, value))).enabled == IsTrue(value)
    ensures !(key == "Enabled" && IsTruth(value)) ==> SafetyWith(s, Some((key, value))).enabled == s.enabled
  {
  }

  const ENABLED: DataSafety -> bool := (s: DataSafety) => s.enabled

  lemma {:induction false} SafetyEnabledRead(lines: seq<string>, p: Parsed)
    ensures Scan(lines, p).sections.safety.enabled ==
            Meant(LastGiven(BodiesOf(SafetySection, lines), "Enabled", IsTruth), IsTrue, p.sections.safety.enabled)
  {
    forall s, field
      ensures SafetyWith(s, field).enabled ==
        if field.Some? && field.value.0 == "Enabled" && IsTruth(field.value.1) then IsTrue(field.value.1) else s.enabled
    {
      if field.Some? {
        EnabledLine(s, field.value.0, field.value.1);
      }
    }
    SafetyFieldRead(ENABLED, "Enabled", IsTruth, IsTrue, lines, p);
  }

  lemma RequiredLine(s: DataSafety, key: string, value: string)
    ensures key == "Required" && IsTruth(value) ==> SafetyWith(s, Some((key, value))).required == IsTrue(value)
    ensures !(key == "Required" && IsTruth(value)) ==> SafetyWith(s, Some((key, value))).required == s.required
  {
  }

  const REQUIRED: DataSafety -> bool := (s: DataSafety) => s.required

  lemma {:induction false} SafetyRequiredRead(lines: seq<string>, p: Parsed)
    ensures Scan(lines, p).sections.safety.required ==
            Meant(LastGiven(BodiesOf(SafetySection, lines), "Required", IsTruth), IsTrue, p.sections.safety.required)
  {
    forall s, field
      ensures SafetyWith(s, field).required ==
        if field.Some? && field.value.0 == "Required" && IsTruth(field.value.1) then IsTrue(field.value.1) else s.required
    {
      if field.Some? {
        RequiredLine(s, field.value.0, field.value.1);
      }
    }
    SafetyFieldRead(REQUIRED, "Required", IsTruth, IsTrue, lines, p);
  }

  lemma ModeLine(s: DataSafety, key: string, value: string)
    ensures key == "Mode" && IsMode(value) ==> SafetyWith(s, Some((key, value))).mode == value
    ensures !(key == "Mode" && IsMode(value)) ==> SafetyWith(s, Some((key, value))).mode == s.mode
  {
  }

  const MODE: DataSafety -> string := (s: DataSafety) => s.mode

  lemma {:induction false} SafetyModeRead(lines: seq<string>, p: Parsed)
    ensures Scan(lines, p).sections.safety.mode ==
            Meant(LastGiven(BodiesOf(SafetySection, lines), "Mode", IsMode), Itself, p.sections.safety.mode)
  {
    forall s, field
      ensures SafetyWith(s, field).mode ==
        if field.Some? && field.value.0 == "Mode" && IsMode(field.value.1) then field.value.1 else s.mode
    {
      if field.Some? {
        ModeLine(s, field.value.0, field.value.1);
      }
    }
    SafetyFieldRead(MODE, "Mode", IsMode, Itself, lines, p);
  }

  lemma CommandLine(s: DataSafety, key: string, value: string)
    ensures key == "Command" ==> SafetyWith(s, Some((key, value))).command == value
    ensures !(key == "Command") ==> SafetyWith(s, Some((key, value))).command == s.command
  {
  }

  const COMMAND: DataSafety -> string := (s: DataSafety) => s.command

  lemma {:induction false} SafetyCommandRead(lines: seq<string>, p: Parsed)
    ensures Scan(lines, p).sections.safety.command ==
            Meant(LastGiven(BodiesOf(SafetySection, lines), "Command", IsAny), Itself, p.sections.safety.command)
  {
    forall s, field
      ensures SafetyWith(s, field).command ==
        if field.Some? && field.value.0 == "Command" then field.value.1 else s.command
    {
      if field.Some? {
        CommandLine(s, field.value.0, field.value.1);
      }
    }
    SafetyFieldRead(COMMAND, "Command", IsAny, Itself, lines, p);
  }

  lemma ExitCodeLine(s: DataSafety, key: string, value: string)
    ensures key == "Exit Code" && IsInteger(value) ==> SafetyWith(s, Some((key, value))).exitCode == Text.ParseInt(value)
    ensures !(key == "Exit Code" && IsInteger(value)) ==> SafetyWith(s, Some((key, value))).exitCode == s.exitCode
  {
  }

  const EXIT_CODE: DataSafety -> Option<int> := (s: DataSafety) => s.exitCode

  lemma {:induction false} SafetyExitCodeRead(lines: seq<string>, p: Parsed)
    ensures Scan(lines, p).sections.safety.exitCode ==
            Meant(LastGiven(BodiesOf(SafetySection, lines), "Exit Code", IsInteger), Text.ParseInt, p.sections.safety.exitCode)
  {
    forall s, field
      ensures SafetyWith(s, field).exitCode ==
        if field.Some? && field.value.0 == "Exit Code" && IsInteger(field.value.1) then Text.ParseInt(field.value.1) else s.exitCode
    {
      if field.Some? {
        ExitCodeLine(s, field.value.0, field.value.1);
      }
    }
    SafetyFieldRead(EXIT_CODE, "Exit Code", IsInteger, Text.ParseInt, lines, p);
  }

  lemma DurationMsLine(s: DataSafety, key: string, value: string)
    ensures key == "Duration Ms" && IsNatural(value) ==> SafetyWith(s, Some((key, value))).durationMs == Text.ParseNat(value)
    ensures !(key == "Duration Ms" && IsNatural(value)) ==> SafetyWith(s, Some((key, value))).durationMs == s.durationMs
  {
  }

  const DURATION_MS: DataSafety -> Option<nat> := (s: DataSafety) => s.durationMs

  lemma {:induction false} SafetyDurationMsRead(lines: seq<string>, p: Parsed)
    ensures Scan(lines, p).sections.safety.durationMs ==
            Meant(LastGiven(BodiesOf(SafetySection, lines), "Duration Ms", IsNatural), Text.ParseNat, p.sections.safety.durationMs)
  {
    forall s, field
      ensures SafetyWith(s, field).durationMs ==
        if field.Some? && field.value.0 == "Duration Ms" && IsNatural(field.value.1) then Text.ParseNat(field.value.1)
        else s.durationMs
    {
      if field.Some? {
        DurationMsLine(s, field.value.0, field.value.1);
      }
    }
    SafetyFieldRead(DURATION_MS, "Duration Ms", IsNatural, Text.ParseNat, lines, p);
  }

  lemma MetaPathLine(s: DataSafety, key: string, value: string)
    ensures key == "Meta Path" ==> SafetyWith(s, Some((key, value))).metaPath == value
    ensures !(key == "Meta Path") ==> SafetyWith(s, Some((key, value))).metaPath == s.metaPath
  {
  }

  const META_PATH: DataSafety -> string := (s: DataSafety) => s.metaPath

  lemma {:induction false} SafetyMetaPathRead(lines: seq<string>, p: Parsed)
    ensures Scan(lines, p).sections.safety.metaPath ==
            Meant(LastGiven(BodiesOf(SafetySection, lines), "Meta Path", IsAny), Itself, p.sections.safety.metaPath)
  {
    forall s, field
      ensures SafetyWith(s, field).metaPath ==
        if field.Some? && field.value.0 == "Meta Path" then field.value.1 else s.metaPath
    {
      if field.Some? {
        MetaPathLine(s, field.value.0, field.value.1);
      }
    }
    SafetyFieldRead(META_PATH, "Meta Path", IsAny, Itself, lines, p);
  }

  lemma VerdictLine(s: DataSafety, key: string, value: string)
    requires key == "Result"
    ensures var r := SafetyWith(s, Some((key, value)));
      if IsVerdict(value) then r.result == value && r.ok == Some(value == "PASS") else r.result == s.result && r.ok == s.ok
  {
  }

  lemma NoVerdictLine(s: DataSafety, key: string, value: string)
    requires key != "Result"
    ensures var r := SafetyWith(s, Some((key, value))); r.result == s.result && r.ok == s.ok
  {
  }

  const RESULT: DataSafety -> string := (s: DataSafety) => s.result

  const OK: DataSafety -> Option<bool> := (s: DataSafety) => s.ok

  lemma ResultIsSet()
    ensures Sets(SafetyWith, RESULT, "Result", IsVerdict, Itself) && Sets(SafetyWith, OK, "Result", IsVerdict, Passed)
  {
    forall s, field
      ensures var r := SafetyWith(s, field);
        if field.Some? && field.value.0 == "Result" && IsVerdict(field.value.1)
        then r.result == field.value.1 && r.ok == Passed(field.value.1)
        else r.result == s.result && r.ok == s.ok
    {
      if field.Some? && field.value.0 == "Result" {
        VerdictLine(s, field.value.0, field.value.1);
      } else if field.Some? {
        NoVerdictLine(s, field.value.0, field.value.1);
      }
    }
  }

  lemma {:induction false} SafetyResultRead(lines: seq<string>, p: Parsed)
    ensures var given := LastGiven(BodiesOf(SafetySection, lines), "Result", IsVerdict);
      && Scan(lines, p).sections.safety.result == Meant(given, Itself, p.sections.safety.result)
      && Scan(lines, p).sections.safety.ok == Meant(given, Passed, p.sections.safety.ok)
  {
    ResultIsSet();
    SafetyFieldRead(RESULT, "Result", IsVerdict, Itself, lines, p);
    SafetyFieldRead(OK, "Result", IsVerdict, Passed, lines, p);
  }

  /** Each field is the one that the last line for it gives, or says that there is none. */
  ghost predicate SafetyIsRead(body: seq<string>, s: DataSafety) {
    && s.enabled == Meant(LastGiven(body, "Enabled", IsTruth), IsTrue, false)
    && s.required == Meant(LastGiven(body, "Required", IsTruth), IsTrue, false)
    && s.mode == Meant(LastGiven(body, "Mode", IsMode), Itself, "advisory")
    && s.command == Meant(LastGiven(body, "Command", IsAny), Itself, "")
    && s.exitCode == Meant(LastGiven(body, "Exit Code", IsInteger), Text.ParseInt, None)
    && s.durationMs == Meant(LastGiven(body, "Duration Ms", IsNatural), Text.ParseNat, None)
    && s.result == Meant(LastGiven(body, "Result", IsVerdict), Itself, "")
    && s.ok == Meant(LastGiven(body, "Result", IsVerdict), Passed, None)
    && s.metaPath == Meant(LastGiven(body, "Meta Path", IsAny), Itself, "")
  }

  /** The data-safety block read from any text: field by field the last line for it in the block's sections decides. */
  lemma {:induction false} SafetyRead(lines: seq<string>, p: Parsed)
    requires IsNoSafety(p.sections.safety)
    ensures SafetyIsRead(BodiesOf(SafetySection, lines), Scan(lines, p).sections.safety)
  {
    SafetyEnabledRead(lines, p);
    SafetyRequiredRead(lines, p);
    SafetyModeRead(lines, p);
    SafetyCommandRead(lines, p);
    SafetyExitCodeRead(lines, p);
    SafetyDurationMsRead(lines, p);
    SafetyResultRead(lines, p);
    SafetyMetaPathRead(lines, p);
  }

  lemma {:induction false} SafetyReadFromStart(lines: seq<string>)
    ensures SafetyIsRead(BodiesOf(SafetySection, lines), Scan(lines, START).sections.safety)
  {
    StartIsEmpty();
    SafetyRead(lines, START);
  }

  // ----- A gate -----

  /** The lines a gate is read from: those up to the next gate or the overall heading, other sections included. */
  function GateBody(lines: seq<string>): seq<string> {
    if lines == [] || EndsGate(lines[0]) then [] else [lines[0]] + GateBody(lines[1..])
  }

  lemma {:induction false} OneLineOfGate<T(!new)>(get: Gate -> T, key: string, counts: string -> bool, means: string -> T,
                                                  line: string, gate: Gate)
    requires Sets(GateWith, get, key, counts, means)
    ensures get(GateWith(gate, FieldOf(Text.Strip(line)))) == Meant(LastGiven([line], key, counts), means, get(gate))
  {
    assert [line][..0] == [];
  }

  lemma {:induction false} GateFieldRead<T(!new)>(get: Gate -> T, key: string, counts: string -> bool, means: string -> T,
                                                  lines: seq<string>, gate: Gate)
    requires Sets(GateWith, get, key, counts, means)
    ensures get(ReadGate(lines, gate)) == Meant(LastGiven(GateBody(lines), key, counts), means, get(gate))
    decreases |lines|
  {
    if lines != [] && !EndsGate(lines[0]) {
      OneLineOfGate(get, key, counts, means, lines[0], gate);
      GateFieldRead(get, key, counts, means, lines[1..], GateWith(gate, FieldOf(Text.Strip(lines[0]))));
      LastGivenConcat([lines[0]], GateBody(lines[1..]), key, counts);
    }
  }

  lemma GateFieldLine(gate: Gate, key: string, value: string)
    ensures var g := GateWith(gate, Some((key, value)));
      && g.name == gate.name && g.ok == gate.ok
      && g.command == (if key == "Command" then value else gate.command)
      && g.exitCode == (if key == "Exit Code" && IsInteger(value) then Text.ParseInt(value) else gate.exitCode)
      && g.durationMs == (if key == "Duration Ms" && IsNatural(value) then Text.ParseNat(value) else gate.durationMs)
  {
  }

  const GATE_COMMAND: Gate -> string := (g: Gate) => g.command
  const GATE_EXIT_CODE: Gate -> Option<int> := (g: Gate) => g.exitCode
  const GATE_DURATION: Gate -> Option<nat> := (g: Gate) => g.durationMs

  lemma GateFieldsAreSet()
    ensures Sets(GateWith, GATE_COMMAND, "Command", IsAny, Itself)
    ensures Sets(GateWith, GATE_EXIT_CODE, "Exit Code", IsInteger, Text.ParseInt)
    ensures Sets(GateWith, GATE_DURATION, "Duration Ms", IsNatural, Text.ParseNat)
  {
    forall g: Gate, field: Option<(string, string)>
      ensures var h := GateWith(g, field);
        && (field.None? ==> h == g)
        && (field.Some? ==>
              var (key, value) := field.value;
              && h.command == (if key == "Command" then value else g.command)
              && h.exitCode == (if key == "Exit Code" && IsInteger(value) then Text.ParseInt(value) else g.exitCode)
              && h.durationMs == (if key == "Duration Ms" && IsNatural(value) then Text.ParseNat(value) else g.durationMs))
    {
      if field.Some? {
        GateFieldLine(g, field.value.0, field.value.1);
      }
    }
  }

  /** A gate read from any text: the last line for each field decides, and nothing else is known of it. */
  lemma {:induction false} GateRead(lines: seq<string>, gate: Gate)
    requires gate.command == "" && gate.exitCode == None && gate.durationMs == None
    ensures var g, body := ReadGate(lines, gate), GateBody(lines);
      && g.command == Meant(LastGiven(body, "Command", IsAny), Itself, "")
      && g.exitCode == Meant(LastGiven(body, "Exit Code", IsInteger), Text.ParseInt, None)
      && g.durationMs == Meant(LastGiven(body, "Duration Ms", IsNatural), Text.ParseNat, None)
  {
    GateFieldsAreSet();
    GateFieldRead(GATE_COMMAND, "Command", IsAny, Itself, lines, gate);
    GateFieldRead(GATE_EXIT_CODE, "Exit Code", IsInteger, Text.ParseInt, lines, gate);
    GateFieldRead(GATE_DURATION, "Duration Ms", IsNatural, Text.ParseNat, lines, gate);
  }

  // ----- Figures and totals -----

  /** A figure is its stripped text, and "n/a" is none; a value with a backtick is no figure and changes nothing. */
  lemma FigureMeans(value: string, before: Option<string>)
    ensures '`' in value ==> FigureOr(value, before) == before
    ensures '`' !in value && Text.Strip(value) == "n/a" ==> FigureOr(value, before) == None
    ensures '`' !in value && Text.Strip(value) != "n/a" ==> FigureOr(value, before) == Some(Text.Strip(value))
  {
  }

  /** A total is the count its stripped text denotes, and "n/a" is none; a text that denotes no count is not readable. */
  lemma TotalMeans(value: string, before: Count)
    ensures '`' in value ==> CountOr(value, before) == before
    ensures '`' !in value && Text.Strip(value) == "n/a" ==> CountOr(value, before) == NoCount
    ensures '`' !in value && Text.Strip(value) != "n/a" ==>
      match Text.ParseInt(Text.Strip(value))
      case Some(n) => CountOr(value, before) == Counted(n)
      case None => CountOr(value, before) == Unreadable(Text.Strip(value))
  {
  }
}
