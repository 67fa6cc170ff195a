/** The advisory fields of the signoff evidence that come back, and when. */
module SignoffFields {
  import opened Values
  import opened SignoffReport
  import opened SignoffParser
  import opened SignoffRoundTrip
  import opened SignoffTheorems
  import Text

  // ----- Stripping -----

  lemma {:induction false} StripLeftStarts(s: string)
    ensures Text.StripLeft(s) == "" || !Text.IsSpace(Text.StripLeft(s)[0])
    ensures |Text.StripLeft(s)| <= |s| && forall c :: c in Text.StripLeft(s) ==> c in s
  {
    if s != "" && Text.IsSpace(s[0]) {
      StripLeftStarts(s[1..]);
    }
  }

  lemma {:induction false} StripRightEnds(s: string)
    ensures var t := Text.StripRight(s);
      && t <= s && (t == "" || !Text.IsSpace(t[|t| - 1]))
      && forall c :: c in t ==> c in s
  {
    if s != "" && Text.IsSpace(s[|s| - 1]) {
      StripRightEnds(s[..|s| - 1]);
    }
  }

  /** A stripped string has no white space at its ends and no character that was not there. */
  lemma StripEnds(s: string)
    ensures var t := Text.Strip(s);
      && (t != "" ==> !Text.IsSpace(t[0]) && !Text.IsSpace(t[|t| - 1]))
      && forall c :: c in t ==> c in s
  {
    StripLeftStarts(s);
    StripRightEnds(Text.StripLeft(s));
  }

  // ----- Alerts -----

  /** An alert that survives being joined with commas and split again. */
  predicate IsItem(alert: string) {
    alert != "" && Text.Strip(alert) == alert && ',' !in alert
  }

  predicate AreItems(alerts: seq<string>) {
    forall i :: 0 <= i < |alerts| ==> IsItem(alerts[i])
  }

  lemma {:induction false} BeforeCommaHasNone(s: string)
    ensures BeforeComma(s) <= s && ',' !in BeforeComma(s)
    ensures |BeforeComma(s)| < |s| ==> s[|BeforeComma(s)|] == ','
  {
    if s != "" && s[0] != ',' {
      BeforeCommaHasNone(s[1..]);
    }
  }

  lemma {:induction false} BeforeCommaOf(head: string, rest: string)
    requires ',' !in head
    ensures BeforeComma(head + "," + rest) == head && BeforeComma(head) == head
  {
    var s := head + "," + rest;
    if head != "" {
      assert s[0] == head[0] && s[1..] == head[1..] + "," + rest;
      BeforeCommaOf(head[1..], rest);
    }
  }

  lemma StrippedIsItem(s: string)
    requires ',' !in s && Text.Strip(s) != ""
    ensures IsItem(Text.Strip(s))
  {
    StripEnds(s);
    Text.StripIsIdentity(Text.Strip(s));
  }

  lemma {:induction false} ItemsAreItems(s: string)
    ensures AreItems(Items(s))
    decreases |s|
  {
    var head := BeforeComma(s);
    BeforeCommaHasNone(s);
    if Text.Strip(head) != "" {
      StrippedIsItem(head);
    }
    if |head| < |s| {
      ItemsAreItems(s[|head| + 1..]);
    }
  }

  /** A blank in front changes no item. */
  lemma {:induction false} ItemsAfterBlank(s: string)
    ensures Items(" " + s) == Items(s)
  {
    var t := " " + s;
    assert t[1..] == s && t[0] == ' ';
    var head := BeforeComma(s);
    assert BeforeComma(t) == " " + head;
    assert (" " + head)[1..] == head;
    assert Text.StripLeft(" " + head) == Text.StripLeft(head);
    if |head| < |s| {
      assert t[|head| + 2..] == s[|head| + 1..];
    }
  }

  lemma {:induction false} ItemsCons(first: string, more: string)
    requires IsItem(first)
    ensures Items(first + "," + (" " + more)) == [first] + Items(more)
  {
    var all := first + "," + (" " + more);
    BeforeCommaOf(first, " " + more);
    assert all[|first| + 1..] == " " + more;
    ItemsAfterBlank(more);
  }

  lemma {:induction false} ItemsOfOne(item: string)
    requires IsItem(item)
    ensures Items(item) == [item]
  {
    BeforeCommaOf(item, "");
  }

  lemma {:induction false} JoinedFirst(first: string, rest: seq<string>)
    requires rest != []
    ensures Text.Join([first] + rest, ", ") == first + "," + (" " + Text.Join(rest, ", "))
  {
    assert ([first] + rest)[1..] == rest;
    CommaBlank(first, Text.Join(rest, ", "));
  }

  lemma CommaBlank(a: string, b: string)
    ensures a + ", " + b == a + "," + (" " + b)
  {
  }

  lemma {:induction false} ItemsOfJoin(alerts: seq<string>)
    requires alerts != [] && AreItems(alerts)
    ensures Items(Text.Join(alerts, ", ")) == alerts
    decreases |alerts|
  {
    var first, rest := alerts[0], alerts[1..];
    assert IsItem(first) && alerts == [first] + rest;
    if rest == [] {
      ItemsOfOne(first);
    } else {
      JoinedFirst(first, rest);
      ItemsCons(first, Text.Join(rest, ", "));
      ItemsOfJoin(rest);
    }
  }

  lemma {:induction false} JoinEnds(alerts: seq<string>)
    requires alerts != [] && AreItems(alerts)
    ensures var all := Text.Join(alerts, ", ");
      && all != "" && !Text.IsSpace(all[0]) && !Text.IsSpace(all[|all| - 1]) && alerts[0] <= all
      && (|alerts| > 1 ==> ',' in all)
    decreases |alerts|
  {
    StripEnds(alerts[0]);
    assert IsItem(alerts[0]);
    if |alerts| > 1 {
      JoinEnds(alerts[1..]);
      var more := Text.Join(alerts[1..], ", ");
      assert Text.Join(alerts, ", ") == alerts[0] + ", " + more;
      assert Text.Join(alerts, ", ")[|alerts[0]|] == ',';
    }
  }

  /** The alerts come back exactly when each is a stripped, non-empty text without commas and they are not the
      single alert "none". */
  lemma AlertsComeBackIff(alerts: seq<string>)
    ensures AlertsOf(AlertText(alerts)) == alerts <==> AreItems(alerts) && alerts != ["none"]
    ensures alerts == [] ==> AlertText(alerts) == "none"
  {
    Text.StripIsIdentity("none");
    if alerts != [] && AreItems(alerts) {
      var all := Text.Join(alerts, ", ");
      JoinEnds(alerts);
      Text.StripIsIdentity(all);
      ItemsOfJoin(alerts);
      if all == "none" {
        assert ',' !in "none";
        assert alerts == [alerts[0]] && all == alerts[0];
      }
    }
    ItemsAreItems(Text.Strip(AlertText(alerts)));
  }

  /** A figure comes back exactly when it is stripped, holds no backtick and is not the mark of a missing one. */
  lemma FigureComesBackIff(figure: string)
    ensures FigureBack(figure) == Some(figure) <==> '`' !in figure && Text.Strip(figure) == figure && figure != "n/a"
  {
    StripEnds(figure);
    Text.StripIsIdentity(Text.Strip(figure));
    Text.StripIsIdentity("n/a");
  }

  predicate FiguresReadable(g: GovernanceResult) {
    && IsFigure(g.costThreshold) && IsFigure(g.rejectionThreshold)
    && (g.costRatio.Some? ==> IsFigure(g.costRatio.value)) && (g.rejectionRate.Some? ==> IsFigure(g.rejectionRate.value))
  }

  predicate IsFigure(figure: string) {
    '`' !in figure && Text.Strip(figure) == figure && figure != "n/a"
  }

  lemma MissingFigure()
    ensures FigureBack("n/a") == None
  {
    Text.StripIsIdentity("n/a");
  }

  /** The advisory sections of a printable report come back whole when the figures, alerts and results are ones
      the parser can read. */
  lemma AdvisorySectionsComeBack(r: Report)
    requires Printable(r) && FiguresReadable(r.governance)
    requires AreItems(r.governance.alerts) && r.governance.alerts != ["none"]
    requires r.governance.result in ["PASS", "ALERT", "UNAVAILABLE"] && r.ui.result in ["PASS", "FAIL", "UNAVAILABLE"]
    ensures var s, g := WrittenAndParsed(r).sections, r.governance;
      && s.governance == Governance(g.enabled, g.advisoryOnly, g.metricsPath, g.metricsAvailable, Some(g.costThreshold),
                                    Some(g.rejectionThreshold), g.costRatio, g.rejectionRate, |g.alerts|, g.alerts, g.result)
      && s.snapshots == SnapshotsBack(r.snapshots)
      && s.ui == UiBack(r.ui) && s.ui.result == r.ui.result
  {
    ParseUndoesWrite(r);
    AlertsComeBackIff(r.governance.alerts);
    FiguresComeBack(r.governance);
  }

  lemma FiguresComeBack(g: GovernanceResult)
    requires FiguresReadable(g)
    ensures FigureBack(g.costThreshold) == Some(g.costThreshold) && FigureBack(g.rejectionThreshold) == Some(g.rejectionThreshold)
    ensures FigureBack(OrNA(g.costRatio)) == g.costRatio && FigureBack(OrNA(g.rejectionRate)) == g.rejectionRate
  {
    MissingFigure();
  }

  // ----- The execution context -----

  lemma NameOf(key: string, name: string)
    requires key != "" && !Text.IsSpace(key[0]) && !Text.IsSpace(key[|key| - 1])
    requires |key| == |name| && forall i :: 0 <= i < |key| ==> UnderscoredChar(key[i]) == name[i]
    ensures KeyName(key) == name
  {
    Text.StripIsIdentity(key);
  }

  lemma ActorName()
    ensures KeyName("Actor") == "actor"
  {
    NameOf("Actor", "actor");
  }

  lemma RepositoryName()
    ensures KeyName("Repository") == "repository"
  {
    NameOf("Repository", "repository");
  }

  lemma EventName()
    ensures KeyName("Event") == "event"
  {
    NameOf("Event", "event");
  }

  lemma RefName()
    ensures KeyName("Ref") == "ref"
  {
    NameOf("Ref", "ref");
  }

  lemma CommitName()
    ensures KeyName("Commit") == "commit"
  {
    NameOf("Commit", "commit");
  }

  lemma PrNumberName()
    ensures KeyName("PR Number") == "pr_number"
  {
    NameOf("PR Number", "pr_number");
  }

  lemma RunIdName()
    ensures KeyName("Run ID") == "run_id"
  {
    NameOf("Run ID", "run_id");
  }

  lemma RunUrlName()
    ensures KeyName("Run URL") == "run_url"
  {
    NameOf("Run URL", "run_url");
  }

  /** The context as the parser files it. */
  function FiledContext(c: RunContext): map<string, string> {
    map["actor" := c.actor, "repository" := c.repo, "event" := c.eventName, "ref" := c.refName, "commit" := c.commitSha,
        "pr_number" := c.pullRequest, "run_id" := c.runId, "run_url" := c.runUrl]
  }

  lemma {:induction false} ContextFieldsSplit(context: map<string, string>, a: Pairs, b: Pairs)
    ensures ContextFields(context, a + b) == ContextFields(ContextFields(context, a), b)
    decreases |a|
  {
    if a == [] {
      assert a + b == b;
    } else {
      assert (a + b)[0] == a[0] && (a + b)[1..] == a[1..] + b;
      ContextFieldsSplit(context[KeyName(a[0].0) := a[0].1], a[1..], b);
    }
  }

  lemma {:induction false} TwoContextFields(context: map<string, string>, a: (string, string), b: (string, string),
                                            nameA: string, nameB: string)
    requires KeyName(a.0) == nameA && KeyName(b.0) == nameB
    ensures ContextFields(context, [a, b]) == context[nameA := a.1][nameB := b.1]
  {
    assert [a, b][1..] == [b] && [b][1..] == [];
    assert ContextFields(context, [a, b]) == ContextFields(context[nameA := a.1], [b]);
    assert ContextFields(context[nameA := a.1], [b]) == ContextFields(context[nameA := a.1][nameB := b.1], []);
  }

  lemma ContextHead(c: RunContext)
    ensures ContextFields(map[], [("Actor", c.actor), ("Repository", c.repo)] + [("Event", c.eventName), ("Ref", c.refName)]) ==
            map["actor" := c.actor]["repository" := c.repo]["event" := c.eventName]["ref" := c.refName]
  {
    var a, b := [("Actor", c.actor), ("Repository", c.repo)], [("Event", c.eventName), ("Ref", c.refName)];
    ContextFieldsSplit(map[], a, b);
    ActorName();
    RepositoryName();
    EventName();
    RefName();
    TwoContextFields(map[], a[0], a[1], "actor", "repository");
    TwoContextFields(map["actor" := c.actor]["repository" := c.repo], b[0], b[1], "event", "ref");
  }

  lemma {:induction false} ContextTail(c: RunContext, context: map<string, string>)
    ensures ContextFields(context, [("Commit", c.commitSha), ("PR Number", c.pullRequest)]
                                   + [("Run ID", c.runId), ("Run URL", c.runUrl)]) ==
            context["commit" := c.commitSha]["pr_number" := c.pullRequest]["run_id" := c.runId]["run_url" := c.runUrl]
  {
    var a, b := [("Commit", c.commitSha), ("PR Number", c.pullRequest)], [("Run ID", c.runId), ("Run URL", c.runUrl)];
    ContextFieldsSplit(context, a, b);
    CommitName();
    PrNumberName();
    RunIdName();
    RunUrlName();
    TwoContextFields(context, a[0], a[1], "commit", "pr_number");
    TwoContextFields(context["commit" := c.commitSha]["pr_number" := c.pullRequest], b[0], b[1], "run_id", "run_url");
  }

  /** The execution context comes back, each value under its key in lower case and with underscores. */
  lemma ContextComesBack(r: Report)
    requires Printable(r)
    ensures WrittenAndParsed(r).context == FiledContext(r.context)
  {
    ParseUndoesWrite(r);
    ContextFiled(r.context);
  }

  lemma ContextFiled(c: RunContext)
    ensures ContextFields(map[], ContextPairs(c)) == FiledContext(c)
  {
    var head := [("Actor", c.actor), ("Repository", c.repo)] + [("Event", c.eventName), ("Ref", c.refName)];
    var tail := [("Commit", c.commitSha), ("PR Number", c.pullRequest)] + [("Run ID", c.runId), ("Run URL", c.runUrl)];
    assert ContextPairs(c) == head + tail;
    ContextFieldsSplit(map[], head, tail);
    ContextHead(c);
    ContextTail(c, ContextFields(map[], head));
  }
}
