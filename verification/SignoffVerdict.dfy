/** The verdict of a written report comes back, whatever the captured outputs hold. */
module SignoffVerdict {
  import opened Values
  import opened SignoffReport
  import opened SignoffParser
  import opened SignoffRoundTrip
  import opened SignoffTheorems
  import Text

  // ----- The text of any report ends with its verdict -----

  /** The overall heading and a result line. */
  predicate IsEnd(end: seq<string>, verdict: string) {
    && |end| == 2
    && KindOf(end[0]) == OverallHeading && EndsSection(end[0])
    && FieldOf(Text.Strip(end[0])).None? && LinkOf(Text.Strip(end[0])).None?
    && KindOf(end[1]) == Plain && ResultOf(end[1]) == Some(verdict)
  }

  lemma EndOfReport(r: Report)
    ensures IsEnd(End(r), PassFail(OverallPass(r)))
  {
    HeadingLines("## Overall");
    HeadingKind("## Overall");
    SectionKinds();
    ResultLine(PassFail(OverallPass(r)));
  }

  lemma TextEnds(r: Report)
    ensures Text.SplitLines(Text.Join(ReportLines(r), "\n")) == Text.Broken(LinesWith(r, [])) + End(r)
  {
    LastLineIsEmpty(r);
    Text.SplitJoined(LinesWith(r, End(r)));
    EndIsLast(r, End(r));
    Text.BrokenConcat(LinesWith(r, []), End(r));
    EndIsLines(r);
  }

  lemma EndIsLast(r: Report, end: seq<string>)
    ensures LinesWith(r, end) == LinesWith(r, []) + end
  {
    var safety := Block("## Local Data Safety", SafetyPairs(r.safety), r.safety.output);
    var governance := Block("## Governance Alerts", GovernancePairs(r.governance), r.governance.output);
    var snapshots := Block("## Runtime Snapshots", SnapshotPairs(r.snapshots), r.snapshots.output);
    var ui := Block("## UI E2E Automation", UiPairs(r.ui), r.ui.output);
    var context, gates, links := FieldLines(ContextPairs(r.context)), GateBlocks(r.gates), Links(r);
    assert [] + end == end;
    NineParts(Preamble(r), context, [""], links, gates, safety, governance, snapshots, ui, [], end);
  }

  // ----- No reader runs past the end -----

  lemma Next(x: seq<string>, end: seq<string>)
    requires x != []
    ensures (x + end)[0] == x[0] && (x + end)[1..] == x[1..] + end
  {
  }

  lemma {:induction false} ContextStops(x: seq<string>, end: seq<string>, verdict: string, context: map<string, string>)
    returns (y: seq<string>)
    requires IsEnd(end, verdict)
    ensures ReadContext(x + end, context).1 == y + end && |y| <= |x|
  {
    y := x;
    if x == [] {
      assert x + end == end;
    } else {
      Next(x, end);
      var field := FieldOf(Text.Strip(x[0]));
      if field.Some? {
        y := ContextStops(x[1..], end, verdict, context[KeyName(field.value.0) := field.value.1]);
      }
    }
  }

  lemma {:induction false} LinksStop(x: seq<string>, end: seq<string>, verdict: string, links: seq<Link>)
    returns (y: seq<string>)
    requires IsEnd(end, verdict)
    ensures ReadLinks(x + end, links).1 == y + end && |y| <= |x|
  {
    y := x;
    if x == [] {
      assert x + end == end;
    } else {
      Next(x, end);
      var link := LinkOf(Text.Strip(x[0]));
      if link.Some? {
        y := LinksStop(x[1..], end, verdict, links + [link.value]);
      }
    }
  }

  lemma {:induction false} SectionStops(k: Section, x: seq<string>, end: seq<string>, verdict: string, s: Sections)
    returns (y: seq<string>)
    requires IsEnd(end, verdict)
    ensures ReadSection(k, x + end, s).1 == y + end && |y| <= |x|
  {
    y := x;
    if x == [] {
      assert x + end == end;
    } else {
      Next(x, end);
      if !EndsSection(x[0]) {
        y := SectionStops(k, x[1..], end, verdict, SectionWith(k, s, FieldOf(Text.Strip(x[0]))));
      }
    }
  }

  /** A search for the result either finds one before the end, or the verdict. */
  lemma {:induction false} OverallStops(x: seq<string>, end: seq<string>, verdict: string, overall: string)
    returns (y: seq<string>)
    requires IsEnd(end, verdict)
    ensures |y| <= |x|
    ensures ReadOverall(x + end, overall).1 == y + end || ReadOverall(x + end, overall) == (verdict, [end[1]])
  {
    y := x;
    if x == [] {
      assert x + end == [end[0]] + [end[1]];
      assert (x + end)[1..] == [end[1]];
      assert ReadOverall([end[1]], overall) == (verdict, [end[1]]);
    } else {
      Next(x, end);
      if ResultOf(x[0]).None? {
        y := OverallStops(x[1..], end, verdict, overall);
      }
    }
  }

  lemma {:induction false} LastLine(line: string, p: Parsed)
    requires KindOf(line) == Plain
    ensures Scan([line], p) == p
  {
    assert [line] == [line] + [];
    ScanOne(line, [], p);
  }

  /** What is left after a line of any kind still ends with the end, or the verdict has been read. */
  lemma {:induction false} LineLeavesEnd(kind: LineKind, x: seq<string>, end: seq<string>, verdict: string, p: Parsed)
    returns (y: seq<string>)
    requires IsEnd(end, verdict)
    ensures |y| <= |x|
    ensures var r := Handle(kind, x + end, p);
      r.1 == y + end || (r.1 == [end[1]] && r.0.overall == verdict)
  {
    y := x;
    match kind
    case ContextHeading => y := ContextStops(x, end, verdict, p.context);
    case LinksHeading => y := LinksStop(x, end, verdict, p.links);
    case SectionHeading(k) => y := SectionStops(k, x, end, verdict, p.sections);
    case OverallHeading => y := OverallStops(x, end, verdict, p.overall);
    case _ =>
  }

  lemma {:induction false} EndAlone(heading: string, line: string, verdict: string, p: Parsed)
    requires KindOf(heading) == OverallHeading && KindOf(line) == Plain && ResultOf(line) == Some(verdict)
    ensures Scan([heading, line], p).overall == verdict
  {
    ScanOverall(heading, line, verdict, p);
    assert [heading] + [line] == [heading, line];
  }

  lemma {:induction false} VerdictStands(x: seq<string>, end: seq<string>, verdict: string, p: Parsed)
    requires IsEnd(end, verdict)
    ensures Scan(x + end, p).overall == verdict
    decreases |x|
  {
    if x == [] {
      assert x + end == [end[0], end[1]];
      EndAlone(end[0], end[1], verdict, p);
    } else {
      Next(x, end);
      var r := Handle(KindOf(x[0]), x[1..] + end, p);
      var y := LineLeavesEnd(KindOf(x[0]), x[1..], end, verdict, p);
      if r.1 == y + end {
        VerdictStands(y, end, verdict, r.0);
      } else {
        LastLine(end[1], r.0);
      }
    }
  }

  /** Whatever the fields and the captured outputs of a report hold, the verdict parsed from its text is the one
      it was written with: no output can forge a release. */
  lemma VerdictAlwaysComesBack(r: Report)
    ensures WrittenAndParsed(r).overall == PassFail(OverallPass(r))
  {
    TextEnds(r);
    EndOfReport(r);
    VerdictStands(Text.Broken(LinesWith(r, [])), End(r), PassFail(OverallPass(r)), START);
  }
}
