/** When the two run-control backends agree: the exact condition, for one call and for whole histories. */
module RunControlAgreement {
  import opened Values
  import opened Ordering
  import opened RunControl
  import opened RunControlTheorems
  import Text

  // ----- Restarts -----

  /** Starting a run id that is still stored: the dictionary forgets its tool calls and the tables do not,
      so they still agree exactly when there were none. */
  lemma RestartAgreesIff(records: MemoryState, db: Database, op: Operation, now: nat, cap: nat)
    requires Agree(records, db) && op.StartRun? && op.Key() in records
    ensures Agree(MemoryStep(records, op, now, cap), TablesStep(db, op, now, cap)) <==> records[op.Key()].callIds == {}
  {
    if records[op.Key()].callIds == {} {
      AgreeAfterStart(records, db, op, now, cap);
    } else {
      assert CallsOf(TablesStep(db, op, now, cap).calls, op.Key()) != MemoryStep(records, op, now, cap)[op.Key()].callIds;
    }
  }

  // ----- Prunes -----

  /** No other terminal run of its tenant that finished in the second of `first` started before it. */
  ghost predicate FirstInItsSecond(rows: map<RunKey, RunRow>, first: RunKey)
    requires first in rows && AllFinished(rows) && IsTerminal(rows[first])
  {
    forall key :: key in TerminalKeys(rows, first.0) && key != first && FinishSecond(rows[key]) == FinishSecond(rows[first]) ==>
      LexLess(StartOrder(rows[first]), StartOrder(rows[key]))
  }

  ghost predicate AllFinished(rows: map<RunKey, RunRow>) {
    forall key :: key in rows && IsTerminal(rows[key]) ==> rows[key].finishedAt.Some?
  }

  function FinishSecond(row: RunRow): nat
    requires row.finishedAt.Some?
  {
    row.finishedAt.value / MICROSECONDS
  }

  function StartOrder(row: RunRow): seq<int> {
    [row.startedAt] + Codes(row.runId)
  }

  lemma TableOrderCompares(a: RunRow, b: RunRow)
    requires a.finishedAt.Some? && b.finishedAt.Some?
    ensures LexLess(TableOrder(a), TableOrder(b)) <==>
      FinishSecond(a) < FinishSecond(b) || (FinishSecond(a) == FinishSecond(b) && LexLess(StartOrder(a), StartOrder(b)))
  {
    assert TableOrder(a)[1..] == StartOrder(a) && TableOrder(b)[1..] == StartOrder(b);
  }

  lemma MemoryOrderCompares(a: RunRow, b: RunRow)
    requires a.finishedAt.Some? && b.finishedAt.Some? && LexLess(MemoryOrder(a), MemoryOrder(b))
    ensures FinishSecond(a) <= FinishSecond(b)
  {
  }

  lemma OneVictim(keys: map<RunKey, seq<int>>, cap: nat, first: RunKey)
    requires DistinctKeys(keys) && cap > 0 && |keys| == cap + 1 && first in keys
    ensures Victims(keys, cap) == {first} <==> forall y :: y in keys && y != first ==> LexLess(keys[first], keys[y])
  {
    var low := Lowest(keys, 1);
    if forall y :: y in keys && y != first ==> LexLess(keys[first], keys[y]) {
      assert IsLowest(keys, {first}, 1);
      LowestIsUnique(keys, keys, low, {first}, 1);
    }
  }

  /** Of the tenant's terminal runs this one finished first, ties to the smallest id. */
  ghost predicate IsFirstToFinish(rows: map<RunKey, RunRow>, tenant: string, first: RunKey) {
    && first in TerminalKeys(rows, tenant)
    && forall key :: key in TerminalKeys(rows, tenant) && key != first ==> LexLess(MemoryOrder(rows[first]), MemoryOrder(rows[key]))
  }

  /** When the cap is exceeded by one, the backends remove the same run exactly when the first run to finish
      is also the first to start among those that finished in its second. */
  lemma PruneAgreesIff(rows: map<RunKey, RunRow>, tenant: string, cap: nat, first: RunKey)
    requires Keyed(rows) && AllFinished(rows) && cap > 0 && TerminalCount(rows, tenant) == cap + 1
    requires IsFirstToFinish(rows, tenant, first)
    ensures DistinctKeys(Terminals(rows, tenant, MemoryOrder)) && DistinctKeys(Terminals(rows, tenant, TableOrder))
    ensures Victims(Terminals(rows, tenant, MemoryOrder), cap) == Victims(Terminals(rows, tenant, TableOrder), cap)
      <==> FirstInItsSecond(rows, first)
  {
    var a, b := Terminals(rows, tenant, MemoryOrder), Terminals(rows, tenant, TableOrder);
    OrdersAreDistinct(rows, tenant);
    assert a.Keys == b.Keys == TerminalKeys(rows, tenant);
    assert |a| == |a.Keys| && |b| == |b.Keys|;
    OneVictim(a, cap, first);
    OneVictim(b, cap, first);
    forall key | key in b && key != first
      ensures LexLess(b[first], b[key]) <==>
        (FinishSecond(rows[key]) == FinishSecond(rows[first]) ==> LexLess(StartOrder(rows[first]), StartOrder(rows[key])))
    {
      TableOrderCompares(rows[first], rows[key]);
      MemoryOrderCompares(rows[first], rows[key]);
    }
  }

  /** If any other run of the tenant ended in the same second as the first to finish and started before it,
      the backends remove different runs. */
  lemma SameSecondParts(rows: map<RunKey, RunRow>, tenant: string, cap: nat, first: RunKey, other: RunKey)
    requires Keyed(rows) && AllFinished(rows) && cap > 0 && TerminalCount(rows, tenant) == cap + 1
    requires IsFirstToFinish(rows, tenant, first) && other in TerminalKeys(rows, tenant) && other != first
    requires FinishSecond(rows[other]) == FinishSecond(rows[first]) && LexLess(StartOrder(rows[other]), StartOrder(rows[first]))
    ensures DistinctKeys(Terminals(rows, tenant, MemoryOrder)) && DistinctKeys(Terminals(rows, tenant, TableOrder))
    ensures Victims(Terminals(rows, tenant, MemoryOrder), cap) != Victims(Terminals(rows, tenant, TableOrder), cap)
  {
    PruneAgreesIff(rows, tenant, cap, first);
    LexTrichotomy(StartOrder(rows[other]), StartOrder(rows[first]));
    assert !LexLess(StartOrder(rows[first]), StartOrder(rows[other]));
  }

  // ----- One call -----

  /** A prune of these rows leaves both backends alike: nothing overflows, or the first run to finish is also
      the first to start in its second. */
  ghost predicate PrunesAlike(rows: map<RunKey, RunRow>, tenant: string, cap: nat)
    requires AllFinished(rows)
  {
    cap == 0 || TerminalCount(rows, tenant) <= cap ||
    forall first :: IsFirstToFinish(rows, tenant, first) ==> FirstInItsSecond(rows, first)
  }

  lemma MarkedFinished(rows: map<RunKey, RunRow>, op: Operation, now: nat)
    requires AllFinished(rows)
    ensures AllFinished(MarkedRows(rows, op, now))
  {
  }

  /** What a caller can check before a call. */
  ghost predicate IsHarmless(records: MemoryState, op: Operation, now: nat, cap: nat)
    requires MemoryOk(records) && AllFinished(Rows(records))
  {
    match op
    case StartRun(_, _, _, _, _) => op.Key() in records ==> records[op.Key()].callIds == {}
    case MarkTerminal(_, _, _, _, _) =>
      op.Key() in records ==>
        (MarkedFinished(Rows(records), op, now);
         PrunesAlike(MarkedRows(Rows(records), op, now), op.tenantId, cap))
    case _ => true
  }

  lemma FirstToFinishExists(rows: map<RunKey, RunRow>, tenant: string)
    requires Keyed(rows) && TerminalCount(rows, tenant) > 0
    ensures exists first :: IsFirstToFinish(rows, tenant, first)
  {
    var keys := Terminals(rows, tenant, MemoryOrder);
    OrdersAreDistinct(rows, tenant);
    assert keys.Keys == TerminalKeys(rows, tenant) && |keys| == |keys.Keys|;
    var first := LeastExists(keys, keys.Keys);
    assert IsFirstToFinish(rows, tenant, first);
  }

  lemma SameVictimsIff(rows: map<RunKey, RunRow>, tenant: string, cap: nat)
    requires Keyed(rows) && AllFinished(rows) && (cap > 0 ==> TerminalCount(rows, tenant) <= cap + 1)
    ensures DistinctKeys(Terminals(rows, tenant, MemoryOrder)) && DistinctKeys(Terminals(rows, tenant, TableOrder))
    ensures Victims(Terminals(rows, tenant, MemoryOrder), cap) == Victims(Terminals(rows, tenant, TableOrder), cap)
      <==> PrunesAlike(rows, tenant, cap)
  {
    var a, b := Terminals(rows, tenant, MemoryOrder), Terminals(rows, tenant, TableOrder);
    OrdersAreDistinct(rows, tenant);
    assert a.Keys == b.Keys == TerminalKeys(rows, tenant);
    assert |a| == |a.Keys| && |b| == |b.Keys|;
    if cap > 0 && TerminalCount(rows, tenant) > cap {
      FirstToFinishExists(rows, tenant);
      forall first | IsFirstToFinish(rows, tenant, first)
        ensures FirstInItsSecond(rows, first) <==> Victims(a, cap) == Victims(b, cap)
      {
        PruneAgreesIff(rows, tenant, cap, first);
      }
    }
  }

  lemma VictimsAreRows(rows: map<RunKey, RunRow>, tenant: string, cap: nat, order: Order)
    requires DistinctKeys(Terminals(rows, tenant, order))
    ensures Victims(Terminals(rows, tenant, order), cap) <= rows.Keys
  {
  }

  lemma TerminalAgreesIff(records: MemoryState, db: Database, op: Operation, now: nat, cap: nat)
    requires Agree(records, db) && op.MarkTerminal? && op.Key() in records && AllFinished(db.rows)
    requires cap > 0 ==> TerminalCount(MarkedRows(db.rows, op, now), op.tenantId) <= cap + 1
    ensures Agree(MemoryStep(records, op, now, cap), TablesStep(db, op, now, cap)) <==> IsHarmless(records, op, now, cap)
  {
    var rows := MarkedRows(db.rows, op, now);
    var marked := records[op.Key() := records[op.Key()].(row := TerminalRow(records[op.Key()].row, op, now))];
    AgreeWhenMarked(records, db, op, now);
    MarkedRowsKeyed(db.rows, op, now);
    MarkedFinished(db.rows, op, now);
    SameVictimsIff(rows, op.tenantId, cap);
    VictimsAreRows(rows, op.tenantId, cap, MemoryOrder);
    VictimsAreRows(rows, op.tenantId, cap, TableOrder);
    var a, b := Victims(Terminals(rows, op.tenantId, MemoryOrder), cap), Victims(Terminals(rows, op.tenantId, TableOrder), cap);
    AgreeAfterPrune(marked, db.(rows := rows), a);
    MemoryRows(records, op, now, cap);
    TableRows(db, op, now, cap);
    if a != b {
      DifferentRests(rows, a, b);
    }
  }

  lemma DifferentRests(rows: map<RunKey, RunRow>, a: set<RunKey>, b: set<RunKey>)
    requires a <= rows.Keys && b <= rows.Keys && a != b
    ensures rows - a != rows - b
  {
    var key :| key in rows && (key in a) != (key in b);
    assert (key in rows - a) != (key in rows - b);
  }

  /** What every reachable pair of states has besides agreement. */
  ghost predicate Ready(rows: map<RunKey, RunRow>, cap: nat) {
    AllFinished(rows) && (cap > 0 ==> WithinCap(rows, cap))
  }

  lemma MarkedWithinOne(rows: map<RunKey, RunRow>, op: Operation, now: nat, cap: nat)
    requires WithinCap(rows, cap)
    ensures TerminalCount(MarkedRows(rows, op, now), op.tenantId) <= cap + 1
  {
    MarkedTerminals(rows, op, now, op.tenantId);
    assert TerminalCount(rows, op.tenantId) <= cap;
    SubsetSize(TerminalKeys(MarkedRows(rows, op, now), op.tenantId), TerminalKeys(rows, op.tenantId) + {op.Key()});
  }

  /** One call keeps the backends in agreement exactly when it is harmless. */
  lemma StepAgreesIff(records: MemoryState, db: Database, op: Operation, now: nat, cap: nat)
    requires Agree(records, db) && Ready(db.rows, cap)
    ensures Agree(MemoryStep(records, op, now, cap), TablesStep(db, op, now, cap)) <==> IsHarmless(records, op, now, cap)
  {
    match op
    case StartRun(_, _, _, _, _) =>
      if op.Key() in records {
        RestartAgreesIff(records, db, op, now, cap);
      } else {
        AgreeAfterStart(records, db, op, now, cap);
      }
    case RecordToolCall(_, _, _) => AgreeAfterToolCall(records, db, op, now, cap);
    case MarkTerminal(_, _, _, _, _) =>
      if op.Key() in records {
        if cap > 0 {
          MarkedWithinOne(db.rows, op, now, cap);
        }
        TerminalAgreesIff(records, db, op, now, cap);
      }
    case RequestCancel(_, _, _) => AgreeAfterCancel(records, db, op, now, cap);
  }

  lemma StepKeepsReady(records: MemoryState, op: Operation, now: nat, cap: nat)
    requires MemoryOk(records) && Ready(Rows(records), cap)
    ensures MemoryOk(MemoryStep(records, op, now, cap)) && Ready(Rows(MemoryStep(records, op, now, cap)), cap)
  {
    MemoryRows(records, op, now, cap);
    MarkedFinished(Rows(records), op, now);
    if cap > 0 {
      StepWithinCap(Rows(records), op, now, cap, MemoryOrder);
    }
  }

  // ----- Whole histories -----

  /** The backends agree before and after every call. */
  ghost predicate AgreeThroughout(records: MemoryState, db: Database, history: seq<Call>, cap: nat)
    decreases |history|
  {
    && Agree(records, db)
    && (history != [] ==>
          AgreeThroughout(MemoryStep(records, history[0].0, history[0].1, cap),
                          TablesStep(db, history[0].0, history[0].1, cap), history[1..], cap))
  }

  ghost predicate AllHarmless(records: MemoryState, history: seq<Call>, cap: nat)
    requires MemoryOk(records) && Ready(Rows(records), cap)
    decreases |history|
  {
    history != [] ==>
      && IsHarmless(records, history[0].0, history[0].1, cap)
      && (StepKeepsReady(records, history[0].0, history[0].1, cap);
          AllHarmless(MemoryStep(records, history[0].0, history[0].1, cap), history[1..], cap))
  }

  /** The tables simulate the dictionary throughout a history exactly when each of its calls is harmless. */
  lemma {:induction false} AgreeThroughoutIff(records: MemoryState, db: Database, history: seq<Call>, cap: nat)
    requires Agree(records, db) && Ready(Rows(records), cap)
    ensures AgreeThroughout(records, db, history, cap) <==> AllHarmless(records, history, cap)
    decreases |history|
  {
    if history != [] {
      var (op, now) := history[0];
      StepAgreesIff(records, db, op, now, cap);
      StepKeepsReady(records, op, now, cap);
      if IsHarmless(records, op, now, cap) {
        AgreeThroughoutIff(MemoryStep(records, op, now, cap), TablesStep(db, op, now, cap), history[1..], cap);
      }
    }
  }

  lemma EmptyIsReady(cap: nat)
    ensures MemoryOk(map[]) && Rows(map[]) == map[] && Ready(map[], cap)
  {
    EmptyWithinCap(cap);
  }

  /** From two empty backends on: they agree throughout exactly the histories of harmless calls. */
  lemma {:induction false} AgreeFromEmptyIff(history: seq<Call>, cap: nat)
    ensures MemoryOk(map[]) && Ready(Rows(map[]), cap)
    ensures AgreeThroughout(map[], Database(map[], []), history, cap) <==> AllHarmless(map[], history, cap)
  {
    EmptyIsReady(cap);
    EmptyBackendsAgree();
    AgreeThroughoutIff(map[], Database(map[], []), history, cap);
  }

  // ----- Harmful calls happen -----

  /** Start a run, record a tool call, start it again: the backends part at the third call. */
  lemma RestartWitness(now: nat, cap: nat) returns (history: seq<Call>)
    ensures |history| == 3 && !AgreeThroughout(map[], Database(map[], []), history, cap)
    ensures AgreeThroughout(map[], Database(map[], []), history[..2], cap)
  {
    var start, call := StartRun("t", "s", "r", "c", "http"), RecordToolCall("t", "r", "x");
    history := [(start, now), (call, now), (start, now)];
    var r1 := MemoryStep(map[], start, now, cap);
    var r2 := MemoryStep(r1, call, now, cap);
    Text.StripIsIdentity("x");
    assert "x" in r2[("t", "r")].callIds;
    assert history[1..] == [(call, now), (start, now)] && history[1..][1..] == [(start, now)];
    AgreeFromEmptyIff(history, cap);
    EmptyIsReady(cap);
    StepKeepsReady(map[], start, now, cap);
    StepKeepsReady(r1, call, now, cap);
    assert !IsHarmless(r2, start, now, cap);
    assert !AllHarmless(r2, [(start, now)], cap);
    assert !AllHarmless(r1, history[1..], cap);
    var early: seq<Call> := history[..2];
    var second: seq<Call> := early[1..];
    assert early == [(start, now), (call, now)] && second == [(call, now)];
    AgreeFromEmptyIff(early, cap);
    assert AllHarmless(r2, second[1..], cap);
    assert AllHarmless(r1, second, cap);
  }

  /** Two runs of one tenant, the second to start being the first to finish, both within one second. */
  lemma LateStarterFirst(rows: map<RunKey, RunRow>, a: RunKey, b: RunKey)
    requires Keyed(rows) && AllFinished(rows) && a != b && a.0 == b.0 && TerminalKeys(rows, a.0) == {a, b}
    requires rows[a].startedAt < rows[b].startedAt && FinishSecond(rows[a]) == FinishSecond(rows[b])
    requires rows[b].finishedAt.value < rows[a].finishedAt.value
    ensures !PrunesAlike(rows, a.0, 1)
  {
    assert IsFirstToFinish(rows, a.0, b);
    assert !LexLess(StartOrder(rows[b]), StartOrder(rows[a]));
    assert !FirstInItsSecond(rows, b);
    assert |{a, b}| == 2;
  }

  /** Ending a run within the cap prunes nothing. */
  lemma UnprunedEnd(records: MemoryState, op: Operation, now: nat, cap: nat)
    requires MemoryOk(records) && op.MarkTerminal? && op.Key() in records
    requires |TerminalKeys(MarkedRows(Rows(records), op, now), op.tenantId)| <= cap
    ensures MemoryStep(records, op, now, cap) ==
            records[op.Key() := records[op.Key()].(row := TerminalRow(records[op.Key()].row, op, now))]
  {
    var marked := records[op.Key() := records[op.Key()].(row := TerminalRow(records[op.Key()].row, op, now))];
    assert Rows(marked) == MarkedRows(Rows(records), op, now);
    var keys := Terminals(Rows(marked), op.tenantId, MemoryOrder);
    assert keys.Keys == TerminalKeys(Rows(marked), op.tenantId) && |keys| == |keys.Keys|;
    assert marked - {} == marked;
  }

  lemma LastEndParts(records: MemoryState, op: Operation, now: nat, b: RunKey)
    requires MemoryOk(records) && Ready(Rows(records), 1) && op.MarkTerminal? && records.Keys == {op.Key(), b}
    requires b != op.Key() && b.0 == op.tenantId && IsTerminal(records[b].row) && EndsTerminal(op)
    requires records[op.Key()].row.startedAt < records[b].row.startedAt
    requires records[b].row.finishedAt.Some? && records[b].row.finishedAt.value < now
    requires records[b].row.finishedAt.value / MICROSECONDS == now / MICROSECONDS
    ensures !IsHarmless(records, op, now, 1)
  {
    var rows := MarkedRows(Rows(records), op, now);
    MarkedRowsKeyed(Rows(records), op, now);
    MarkedFinished(Rows(records), op, now);
    assert TerminalKeys(rows, op.tenantId) == {op.Key(), b};
    LateStarterFirst(rows, op.Key(), b);
  }

  predicate EndsTerminal(op: Operation) {
    op.MarkTerminal? && op.status in {"completed", "errored", "cancelled"}
  }

  lemma {:induction false} NotHarmlessAtFourth(r1: MemoryState, r2: MemoryState, r3: MemoryState, history: seq<Call>)
    requires |history| == 4 && MemoryOk(map[]) && MemoryOk(r1) && MemoryOk(r2) && MemoryOk(r3)
    requires r1 == MemoryStep(map[], history[0].0, history[0].1, 1) && r2 == MemoryStep(r1, history[1].0, history[1].1, 1)
    requires r3 == MemoryStep(r2, history[2].0, history[2].1, 1)
    requires Ready(Rows(map[]), 1) && Ready(Rows(r1), 1) && Ready(Rows(r2), 1) && Ready(Rows(r3), 1)
    requires !IsHarmless(r3, history[3].0, history[3].1, 1)
    ensures !AllHarmless(map[], history, 1)
  {
    assert history[3..][0] == history[3] && !AllHarmless(r3, history[3..], 1);
    assert history[2..][1..] == history[3..] && !AllHarmless(r2, history[2..], 1);
    assert history[1..][1..] == history[2..] && !AllHarmless(r1, history[1..], 1);
  }

  lemma PartsAtFourth(r1: MemoryState, r2: MemoryState, r3: MemoryState, c0: Call, c1: Call, c2: Call, c3: Call)
    requires MemoryOk(map[]) && MemoryOk(r1) && MemoryOk(r2) && MemoryOk(r3)
    requires r1 == MemoryStep(map[], c0.0, c0.1, 1) && r2 == MemoryStep(r1, c1.0, c1.1, 1) && r3 == MemoryStep(r2, c2.0, c2.1, 1)
    requires Ready(Rows(map[]), 1) && Ready(Rows(r1), 1) && Ready(Rows(r2), 1) && Ready(Rows(r3), 1)
    requires !IsHarmless(r3, c3.0, c3.1, 1)
    ensures !AgreeThroughout(map[], Database(map[], []), [c0, c1, c2, c3], 1)
  {
    NotHarmlessAtFourth(r1, r2, r3, [c0, c1, c2, c3]);
    AgreeFromEmptyIff([c0, c1, c2, c3], 1);
  }

  lemma TwoStarts(startA: Operation, startB: Operation)
    requires startA.StartRun? && startB.StartRun? && startA.Key() != startB.Key()
    ensures MemoryOk(map[]) && Ready(Rows(map[]), 1)
    ensures var r1 := MemoryStep(map[], startA, 0, 1);
      && MemoryOk(r1) && Ready(Rows(r1), 1)
      && var r2 := MemoryStep(r1, startB, 1, 1);
      && MemoryOk(r2) && Ready(Rows(r2), 1) && r2.Keys == {startA.Key(), startB.Key()}
      && r2[startA.Key()].row == StartedRow(startA, 0) && r2[startB.Key()].row == StartedRow(startB, 1)
  {
    EmptyIsReady(1);
    StepKeepsReady(map[], startA, 0, 1);
    StepKeepsReady(MemoryStep(map[], startA, 0, 1), startB, 1, 1);
  }

  /** Two runs of a tenant that end within one second, the later starter first: with a cap of one the backends
      part at the last call. */
  lemma SameSecondHistory(startA: Operation, startB: Operation, endA: Operation, endB: Operation, f: nat, g: nat)
    requires startA.StartRun? && startB.StartRun? && startA.Key() != startB.Key() && startA.tenantId == startB.tenantId
    requires EndsTerminal(endA) && EndsTerminal(endB) && endA.Key() == startA.Key() && endB.Key() == startB.Key()
    requires f < g && f / MICROSECONDS == g / MICROSECONDS
    ensures !AgreeThroughout(map[], Database(map[], []), [(startA, 0), (startB, 1), (endB, f), (endA, g)], 1)
  {
    TwoStarts(startA, startB);
    var r1 := MemoryStep(map[], startA, 0, 1);
    var r2 := MemoryStep(r1, startB, 1, 1);
    TwoEnds(r2, endA, endB, f, g);
    var r3 := MemoryStep(r2, endB, f, 1);
    PartsAtFourth(r1, r2, r3, (startA, 0), (startB, 1), (endB, f), (endA, g));
  }

  lemma TwoEnds(records: MemoryState, endA: Operation, endB: Operation, f: nat, g: nat)
    requires MemoryOk(records) && Ready(Rows(records), 1) && EndsTerminal(endA) && EndsTerminal(endB)
    requires records.Keys == {endA.Key(), endB.Key()} && endA.Key() != endB.Key() && endA.tenantId == endB.tenantId
    requires !IsTerminal(records[endA.Key()].row) && records[endA.Key()].row.startedAt < records[endB.Key()].row.startedAt
    requires f < g && f / MICROSECONDS == g / MICROSECONDS
    ensures var r := MemoryStep(records, endB, f, 1);
      MemoryOk(r) && Ready(Rows(r), 1) && !IsHarmless(r, endA, g, 1)
  {
    OneEnds(records, endB, f, endA.Key());
    LastEndParts(MemoryStep(records, endB, f, 1), endA, g, endB.Key());
  }

  lemma OneEnds(records: MemoryState, op: Operation, now: nat, other: RunKey)
    requires MemoryOk(records) && Ready(Rows(records), 1) && EndsTerminal(op)
    requires records.Keys == {other, op.Key()} && other != op.Key() && !IsTerminal(records[other].row)
    ensures var after := MemoryStep(records, op, now, 1);
      && MemoryOk(after) && Ready(Rows(after), 1) && after.Keys == records.Keys && after[other] == records[other]
      && after[op.Key()].row == TerminalRow(records[op.Key()].row, op, now)
  {
    StepKeepsReady(records, op, now, 1);
    assert TerminalKeys(MarkedRows(Rows(records), op, now), op.tenantId) == {op.Key()};
    UnprunedEnd(records, op, now, 1);
  }
}
