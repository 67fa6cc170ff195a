/** Bounded retention of both run-control backends, and when they agree. */
module RunControlTheorems {
  import opened Values
  import opened Ordering
  import opened RunControl
  import Text

  type Order = RunRow -> seq<int>

  /** One call of the registry: the operation and the time it reads from the clock. */
  type Call = (Operation, nat)

  // ----- Both backends as one machine over rows -----

  /** The rows after an operation but before any prune. */
  function MarkedRows(rows: map<RunKey, RunRow>, op: Operation, now: nat): map<RunKey, RunRow> {
    var key := op.Key();
    match op
    case StartRun(_, _, _, _, _) => rows[key := StartedRow(op, now)]
    case RecordToolCall(_, _, callId) =>
      if Text.Strip(callId) == "" || key !in rows then rows else rows[key := rows[key].(updatedAt := now)]
    case MarkTerminal(_, _, _, _, _) => if key !in rows then rows else rows[key := TerminalRow(rows[key], op, now)]
    case RequestCancel(_, _, _) => if key !in rows then rows else rows[key := CancelRow(rows[key], op, now)]
  }

  /** The runs an operation removes. */
  ghost function Removed(rows: map<RunKey, RunRow>, op: Operation, now: nat, cap: nat, order: Order): set<RunKey>
    requires Keyed(rows) && DistinctKeys(Terminals(MarkedRows(rows, op, now), op.tenantId, order))
  {
    if op.MarkTerminal? && op.Key() in rows
    then Victims(Terminals(MarkedRows(rows, op, now), op.tenantId, order), cap)
    else {}
  }

  lemma MarkedRowsKeyed(rows: map<RunKey, RunRow>, op: Operation, now: nat)
    requires Keyed(rows)
    ensures Keyed(MarkedRows(rows, op, now))
    ensures DistinctKeys(Terminals(MarkedRows(rows, op, now), op.tenantId, MemoryOrder))
    ensures DistinctKeys(Terminals(MarkedRows(rows, op, now), op.tenantId, TableOrder))
  {
    OrdersAreDistinct(MarkedRows(rows, op, now), op.tenantId);
  }

  lemma MemoryPrunedRows(records: MemoryState, tenant: string, cap: nat)
    requires MemoryOk(records)
    ensures DistinctKeys(Terminals(Rows(records), tenant, MemoryOrder))
    ensures Rows(MemoryPruned(records, tenant, cap)) == Rows(records) - Victims(Terminals(Rows(records), tenant, MemoryOrder), cap)
  {
    OrdersAreDistinct(Rows(records), tenant);
  }

  lemma MemoryRows(records: MemoryState, op: Operation, now: nat, cap: nat)
    requires MemoryOk(records)
    ensures Keyed(Rows(records)) && DistinctKeys(Terminals(MarkedRows(Rows(records), op, now), op.tenantId, MemoryOrder))
    ensures Rows(MemoryStep(records, op, now, cap)) ==
      MarkedRows(Rows(records), op, now) - Removed(Rows(records), op, now, cap, MemoryOrder)
    ensures MemoryOk(MemoryStep(records, op, now, cap))
  {
    var rows, key := Rows(records), op.Key();
    MarkedRowsKeyed(rows, op, now);
    if op.MarkTerminal? && key in records {
      var marked := records[key := records[key].(row := TerminalRow(records[key].row, op, now))];
      assert Rows(marked) == MarkedRows(rows, op, now);
      MemoryPrunedRows(marked, op.tenantId, cap);
    } else {
      assert Rows(MemoryStep(records, op, now, cap)) == MarkedRows(rows, op, now);
    }
  }

  lemma TableRows(db: Database, op: Operation, now: nat, cap: nat)
    requires TablesOk(db)
    ensures DistinctKeys(Terminals(MarkedRows(db.rows, op, now), op.tenantId, TableOrder))
    ensures TablesStep(db, op, now, cap).rows ==
      MarkedRows(db.rows, op, now) - Removed(db.rows, op, now, cap, TableOrder)
    ensures TablesOk(TablesStep(db, op, now, cap))
  {
    MarkedRowsKeyed(db.rows, op, now);
    if !(op.MarkTerminal? && op.Key() in db.rows) {
      UnprunedTableRows(db, op, now, cap);
    }
  }

  lemma UnprunedTableRows(db: Database, op: Operation, now: nat, cap: nat)
    requires TablesOk(db) && !(op.MarkTerminal? && op.Key() in db.rows)
    ensures TablesStep(db, op, now, cap).rows == MarkedRows(db.rows, op, now)
  {
  }

  // ----- Retention -----

  ghost predicate WithinCap(rows: map<RunKey, RunRow>, cap: nat) {
    forall tenant :: TerminalCount(rows, tenant) <= cap
  }

  function TerminalCount(rows: map<RunKey, RunRow>, tenant: string): nat {
    |TerminalKeys(rows, tenant)|
  }

  function TerminalKeys(rows: map<RunKey, RunRow>, tenant: string): set<RunKey> {
    set key | key in rows && key.0 == tenant && IsTerminal(rows[key])
  }

  lemma SubsetSize(a: set<RunKey>, b: set<RunKey>)
    requires a <= b
    ensures |a| <= |b|
  {
    assert |b| == |a| + |b - a|;
  }

  /** Only marking a run terminal adds a terminal run, and then only one to its own tenant. */
  lemma MarkedTerminals(rows: map<RunKey, RunRow>, op: Operation, now: nat, tenant: string)
    ensures TerminalKeys(MarkedRows(rows, op, now), tenant) <=
      TerminalKeys(rows, tenant) + if op.MarkTerminal? && tenant == op.tenantId then {op.Key()} else {}
  {
  }

  /** A prune removes exactly the overflow of one tenant: the removed runs all order before the terminal
      runs it keeps; runs of other tenants and runs that are not terminal stay. */
  lemma PruneRemovesTheOverflow(rows: map<RunKey, RunRow>, tenant: string, cap: nat, order: Order)
    requires DistinctKeys(Terminals(rows, tenant, order)) && cap > 0
    ensures var gone := Victims(Terminals(rows, tenant, order), cap);
      && gone <= TerminalKeys(rows, tenant)
      && |gone| == (if TerminalCount(rows, tenant) > cap then TerminalCount(rows, tenant) - cap else 0)
      && (forall x, y :: x in gone && y in TerminalKeys(rows, tenant) && y !in gone ==> LexLess(order(rows[x]), order(rows[y])))
      && TerminalKeys(rows - gone, tenant) == TerminalKeys(rows, tenant) - gone
      && (forall key :: key in rows && (key.0 != tenant || !IsTerminal(rows[key])) ==> key !in gone)
  {
    var keys := Terminals(rows, tenant, order);
    assert keys.Keys == TerminalKeys(rows, tenant);
    assert |keys| == |keys.Keys|;
    var gone := Victims(keys, cap);
    if |keys| > cap {
      assert IsLowest(keys, gone, |keys| - cap);
    }
  }

  lemma PruneBounds(rows: map<RunKey, RunRow>, tenant: string, cap: nat, order: Order)
    requires DistinctKeys(Terminals(rows, tenant, order)) && cap > 0
    ensures TerminalCount(rows - Victims(Terminals(rows, tenant, order), cap), tenant) <= cap
  {
    PruneRemovesTheOverflow(rows, tenant, cap, order);
    var keys, gone := TerminalKeys(rows, tenant), Victims(Terminals(rows, tenant, order), cap);
    assert |keys - gone| == |keys| - |gone|;
  }

  lemma StepWithinCap(rows: map<RunKey, RunRow>, op: Operation, now: nat, cap: nat, order: Order)
    requires Keyed(rows) && cap > 0 && WithinCap(rows, cap)
    requires DistinctKeys(Terminals(MarkedRows(rows, op, now), op.tenantId, order))
    ensures WithinCap(MarkedRows(rows, op, now) - Removed(rows, op, now, cap, order), cap)
  {
    var marked, gone := MarkedRows(rows, op, now), Removed(rows, op, now, cap, order);
    forall tenant ensures TerminalCount(marked - gone, tenant) <= cap {
      MarkedTerminals(rows, op, now, tenant);
      assert TerminalCount(rows, tenant) <= cap;
      if op.MarkTerminal? && op.Key() in rows && tenant == op.tenantId {
        PruneBounds(marked, tenant, cap, order);
      } else {
        assert TerminalKeys(marked - gone, tenant) <= TerminalKeys(rows, tenant);
        SubsetSize(TerminalKeys(marked - gone, tenant), TerminalKeys(rows, tenant));
      }
    }
  }

  ghost function MemoryAfter(records: MemoryState, history: seq<Call>, cap: nat): MemoryState
    requires MemoryOk(records)
    decreases |history|
  {
    if history == [] then records
    else
      MemoryRows(records, history[0].0, history[0].1, cap);
      MemoryAfter(MemoryStep(records, history[0].0, history[0].1, cap), history[1..], cap)
  }

  ghost function TablesAfter(db: Database, history: seq<Call>, cap: nat): Database
    requires TablesOk(db)
    decreases |history|
  {
    if history == [] then db
    else
      TableRows(db, history[0].0, history[0].1, cap);
      TablesAfter(TablesStep(db, history[0].0, history[0].1, cap), history[1..], cap)
  }

  /** With a positive cap no tenant ever holds more terminal runs than the cap, in the dictionary... */
  lemma {:induction false} MemoryRetention(records: MemoryState, history: seq<Call>, cap: nat)
    requires MemoryOk(records) && cap > 0 && WithinCap(Rows(records), cap)
    ensures WithinCap(Rows(MemoryAfter(records, history, cap)), cap)
    decreases |history|
  {
    if history != [] {
      var (op, now) := history[0];
      MemoryRows(records, op, now, cap);
      StepWithinCap(Rows(records), op, now, cap, MemoryOrder);
      MemoryRetention(MemoryStep(records, op, now, cap), history[1..], cap);
    }
  }

  /** ...and in the tables. */
  lemma {:induction false} TablesRetention(db: Database, history: seq<Call>, cap: nat)
    requires TablesOk(db) && cap > 0 && WithinCap(db.rows, cap)
    ensures WithinCap(TablesAfter(db, history, cap).rows, cap)
    decreases |history|
  {
    if history != [] {
      var (op, now) := history[0];
      TableRows(db, op, now, cap);
      StepWithinCap(db.rows, op, now, cap, TableOrder);
      TablesRetention(TablesStep(db, op, now, cap), history[1..], cap);
    }
  }

  /** Started empty, both backends hold to the cap after every history. */
  lemma {:induction false} RetentionFromEmpty(history: seq<Call>, cap: nat)
    requires cap > 0
    ensures WithinCap(Rows(MemoryAfter(map[], history, cap)), cap)
    ensures WithinCap(TablesAfter(Database(map[], []), history, cap).rows, cap)
  {
    EmptyWithinCap(cap);
    assert Rows(map[]) == map[];
    MemoryRetention(map[], history, cap);
    TablesRetention(Database(map[], []), history, cap);
  }

  lemma EmptyWithinCap(cap: nat)
    ensures WithinCap(map[], cap)
  {
    forall tenant ensures TerminalCount(map[], tenant) <= cap {
      assert TerminalKeys(map[], tenant) == {};
    }
  }

  // ----- Simulation -----

  /** The two backends hold the same runs and tool calls, and no tool call lacks its run. */
  ghost predicate Agree(records: MemoryState, db: Database) {
    && MemoryOk(records)
    && db.rows == Rows(records)
    && (forall key :: key in records ==> CallsOf(db.calls, key) == records[key].callIds)
    && NoOrphans(db)
  }

  ghost predicate NoOrphans(db: Database) {
    forall i :: 0 <= i < |db.calls| ==> db.calls[i].key in db.rows
  }

  /** Terminal runs of one tenant ended in distinct seconds. */
  ghost predicate SecondsDistinct(rows: map<RunKey, RunRow>) {
    && (forall key :: key in rows && IsTerminal(rows[key]) ==> rows[key].finishedAt.Some?)
    && (forall x, y :: x in rows && y in rows && x != y && x.0 == y.0 && IsTerminal(rows[x]) && IsTerminal(rows[y]) ==>
          rows[x].finishedAt.value / MICROSECONDS != rows[y].finishedAt.value / MICROSECONDS)
  }

  /** What a caller can check before a call: it does not start a run that is still stored, and it does not
      end a run in a second in which a stored terminal run of the tenant ended. */
  ghost predicate Separated(rows: map<RunKey, RunRow>, op: Operation, now: nat) {
    && (op.StartRun? ==> op.Key() !in rows)
    && (op.MarkTerminal? ==>
          forall key :: key in rows && key != op.Key() && key.0 == op.tenantId && IsTerminal(rows[key]) ==>
            rows[key].finishedAt.Some? && rows[key].finishedAt.value / MICROSECONDS != now / MICROSECONDS)
  }

  lemma OrdersAgree(rows: map<RunKey, RunRow>, tenant: string, x: RunKey, y: RunKey)
    requires SecondsDistinct(rows) && x in rows && y in rows && x.0 == y.0 == tenant
    requires IsTerminal(rows[x]) && IsTerminal(rows[y])
    ensures LexLess(MemoryOrder(rows[x]), MemoryOrder(rows[y])) <==> LexLess(TableOrder(rows[x]), TableOrder(rows[y]))
  {
    if x == y {
      LexTrichotomy(MemoryOrder(rows[x]), MemoryOrder(rows[x]));
      LexTrichotomy(TableOrder(rows[x]), TableOrder(rows[x]));
    } else {
      DivisionOrders(rows[x].finishedAt.value, rows[y].finishedAt.value);
    }
  }

  lemma DivisionOrders(a: nat, b: nat)
    requires a / MICROSECONDS != b / MICROSECONDS
    ensures a < b <==> a / MICROSECONDS < b / MICROSECONDS
  {
  }

  lemma TerminalsAgree(rows: map<RunKey, RunRow>, tenant: string)
    requires SecondsDistinct(rows)
    ensures var a, b := Terminals(rows, tenant, MemoryOrder), Terminals(rows, tenant, TableOrder);
      a.Keys == b.Keys && forall x, y :: x in a && y in a ==> (LexLess(a[x], a[y]) <==> LexLess(b[x], b[y]))
  {
    var a, b := Terminals(rows, tenant, MemoryOrder), Terminals(rows, tenant, TableOrder);
    forall x, y | x in a && y in a ensures LexLess(a[x], a[y]) <==> LexLess(b[x], b[y]) {
      OrdersAgree(rows, tenant, x, y);
    }
  }

  /** Tables that order the same runs alike lose the same runs. */
  lemma VictimsAgree(a: map<RunKey, seq<int>>, b: map<RunKey, seq<int>>, cap: nat)
    requires DistinctKeys(a) && DistinctKeys(b) && a.Keys == b.Keys
    requires forall x, y :: x in a && y in a ==> (LexLess(a[x], a[y]) <==> LexLess(b[x], b[y]))
    ensures Victims(a, cap) == Victims(b, cap)
  {
    assert |a| == |a.Keys| && |b| == |b.Keys|;
    if cap > 0 && |a| > cap {
      LowestIsUnique(a, b, Lowest(a, |a| - cap), Lowest(b, |b| - cap), |a| - cap);
    }
  }

  lemma SameVictims(rows: map<RunKey, RunRow>, tenant: string, cap: nat)
    requires Keyed(rows) && SecondsDistinct(rows)
    ensures DistinctKeys(Terminals(rows, tenant, MemoryOrder)) && DistinctKeys(Terminals(rows, tenant, TableOrder))
    ensures Victims(Terminals(rows, tenant, MemoryOrder), cap) == Victims(Terminals(rows, tenant, TableOrder), cap)
  {
    OrdersAreDistinct(rows, tenant);
    TerminalsAgree(rows, tenant);
    VictimsAgree(Terminals(rows, tenant, MemoryOrder), Terminals(rows, tenant, TableOrder), cap);
  }

  lemma MarkedSecondsDistinct(rows: map<RunKey, RunRow>, op: Operation, now: nat)
    requires SecondsDistinct(rows) && Separated(rows, op, now)
    ensures SecondsDistinct(MarkedRows(rows, op, now))
  {
  }

  lemma RestSecondsDistinct(rows: map<RunKey, RunRow>, gone: set<RunKey>)
    requires SecondsDistinct(rows)
    ensures SecondsDistinct(rows - gone)
  {
  }

  lemma {:induction false} CallsOfRest(calls: seq<ToolCall>, gone: set<RunKey>, key: RunKey)
    ensures CallsOf(WithoutRuns(calls, gone), key) == if key in gone then {} else CallsOf(calls, key)
    ensures forall i :: 0 <= i < |WithoutRuns(calls, gone)| ==>
      WithoutRuns(calls, gone)[i].key !in gone && WithoutRuns(calls, gone)[i] in calls
    decreases |calls|
  {
    if calls != [] {
      CallsOfRest(calls[1..], gone, key);
      CallsOfCons(calls[0], calls[1..], key);
      assert calls == [calls[0]] + calls[1..];
      if calls[0].key !in gone {
        CallsOfCons(calls[0], WithoutRuns(calls[1..], gone), key);
      }
    }
  }

  lemma CallsOfCons(call: ToolCall, calls: seq<ToolCall>, key: RunKey)
    ensures CallsOf([call] + calls, key) == CallsOf(calls, key) + if call.key == key then {call.callId} else {}
  {
    var all := [call] + calls;
    assert all[0] == call;
    forall id ensures id in CallsOf(all, key) <==> id in CallsOf(calls, key) + if call.key == key then {call.callId} else {} {
      if i :| 0 <= i < |calls| && calls[i].key == key && calls[i].callId == id {
        assert all[i + 1] == calls[i];
      }
      if i :| 0 <= i < |all| && all[i].key == key && all[i].callId == id {
        assert i == 0 || all[i] == calls[i - 1];
      }
    }
  }

  lemma CallsOfSnoc(calls: seq<ToolCall>, call: ToolCall, key: RunKey)
    ensures CallsOf(calls + [call], key) == CallsOf(calls, key) + if call.key == key then {call.callId} else {}
  {
    var all := calls + [call];
    forall id ensures id in CallsOf(all, key) <==> id in CallsOf(calls, key) + if call.key == key then {call.callId} else {} {
      if i :| 0 <= i < |calls| && calls[i].key == key && calls[i].callId == id {
        assert all[i] == calls[i];
      }
      if i :| 0 <= i < |all| && all[i].key == key && all[i].callId == id {
        assert i == |calls| || all[i] == calls[i];
      }
      assert all[|calls|] == call;
    }
  }

  // ----- One step of both -----

  lemma AgreeAfterStart(records: MemoryState, db: Database, op: Operation, now: nat, cap: nat)
    requires Agree(records, db) && op.StartRun?
    requires op.Key() in records ==> records[op.Key()].callIds == {}
    ensures Agree(MemoryStep(records, op, now, cap), TablesStep(db, op, now, cap))
  {
    MemoryRows(records, op, now, cap);
    if op.Key() !in records {
      assert CallsOf(db.calls, op.Key()) == {};
    }
  }

  lemma RecordedCall(records: MemoryState, db: Database, call: ToolCall, key: RunKey)
    requires Agree(records, db) && key in records
    ensures CallsOf(if call in db.calls then db.calls else db.calls + [call], key) ==
      records[key].callIds + if call.key == key then {call.callId} else {}
  {
    CallsOfSnoc(db.calls, call, key);
  }

  lemma AgreeAfterToolCall(records: MemoryState, db: Database, op: Operation, now: nat, cap: nat)
    requires Agree(records, db) && op.RecordToolCall?
    ensures Agree(MemoryStep(records, op, now, cap), TablesStep(db, op, now, cap))
  {
    MemoryRows(records, op, now, cap);
    var call := ToolCall(op.Key(), Text.Strip(op.callId));
    var records', db' := MemoryStep(records, op, now, cap), TablesStep(db, op, now, cap);
    if call.callId != "" && op.Key() in records {
      forall key | key in records' ensures CallsOf(db'.calls, key) == records'[key].callIds {
        RecordedCall(records, db, call, key);
      }
    }
  }

  lemma AgreeAfterCancel(records: MemoryState, db: Database, op: Operation, now: nat, cap: nat)
    requires Agree(records, db) && op.RequestCancel?
    ensures Agree(MemoryStep(records, op, now, cap), TablesStep(db, op, now, cap))
  {
    MemoryRows(records, op, now, cap);
  }

  lemma {:induction false} AgreeAfterPrune(records: MemoryState, db: Database, gone: set<RunKey>)
    requires Agree(records, db)
    ensures Agree(records - gone, Database(db.rows - gone, WithoutRuns(db.calls, gone)))
  {
    forall key | key in records - gone ensures CallsOf(WithoutRuns(db.calls, gone), key) == records[key].callIds {
      CallsOfRest(db.calls, gone, key);
    }
    var rest := WithoutRuns(db.calls, gone);
    forall i | 0 <= i < |rest| ensures rest[i].key in db.rows - gone {
      CallsOfRest(db.calls, gone, rest[i].key);
    }
    assert Rows(records - gone) == Rows(records) - gone;
  }

  lemma AgreeWhenMarked(records: MemoryState, db: Database, op: Operation, now: nat)
    requires Agree(records, db) && op.MarkTerminal? && op.Key() in records
    ensures Agree(records[op.Key() := records[op.Key()].(row := TerminalRow(records[op.Key()].row, op, now))],
                  db.(rows := MarkedRows(db.rows, op, now)))
  {
    var key := op.Key();
    var marked := records[key := records[key].(row := TerminalRow(records[key].row, op, now))];
    MarkedRowsKeyed(db.rows, op, now);
    assert Rows(marked) == MarkedRows(db.rows, op, now);
  }

  lemma AgreeAfterTerminal(records: MemoryState, db: Database, op: Operation, now: nat, cap: nat)
    requires Agree(records, db) && op.MarkTerminal?
    requires SecondsDistinct(MarkedRows(db.rows, op, now))
    ensures Agree(MemoryStep(records, op, now, cap), TablesStep(db, op, now, cap))
  {
    if op.Key() in records {
      var rows := MarkedRows(db.rows, op, now);
      AgreeWhenMarked(records, db, op, now);
      SameVictims(rows, op.tenantId, cap);
      var marked := records[op.Key() := records[op.Key()].(row := TerminalRow(records[op.Key()].row, op, now))];
      AgreeAfterPrune(marked, db.(rows := rows), Victims(Terminals(rows, op.tenantId, MemoryOrder), cap));
    }
  }

  lemma StepAgrees(records: MemoryState, db: Database, op: Operation, now: nat, cap: nat)
    requires Agree(records, db) && SecondsDistinct(db.rows) && Separated(db.rows, op, now)
    ensures Agree(MemoryStep(records, op, now, cap), TablesStep(db, op, now, cap))
    ensures SecondsDistinct(TablesStep(db, op, now, cap).rows)
  {
    MarkedSecondsDistinct(db.rows, op, now);
    TableRows(db, op, now, cap);
    RestSecondsDistinct(MarkedRows(db.rows, op, now), Removed(db.rows, op, now, cap, TableOrder));
    match op
    case StartRun(_, _, _, _, _) => AgreeAfterStart(records, db, op, now, cap);
    case RecordToolCall(_, _, _) => AgreeAfterToolCall(records, db, op, now, cap);
    case MarkTerminal(_, _, _, _, _) => AgreeAfterTerminal(records, db, op, now, cap);
    case RequestCancel(_, _, _) => AgreeAfterCancel(records, db, op, now, cap);
  }

  /** Every call of the history is separated from what is stored when it is made. */
  ghost predicate AllSeparated(db: Database, history: seq<Call>, cap: nat)
    requires TablesOk(db)
    decreases |history|
  {
    history == [] ||
    (Separated(db.rows, history[0].0, history[0].1)
     && (TableRows(db, history[0].0, history[0].1, cap);
         AllSeparated(TablesStep(db, history[0].0, history[0].1, cap), history[1..], cap)))
  }

  /** Over any history of separated calls the tables simulate the dictionary. */
  lemma {:induction false} TablesSimulateMemory(records: MemoryState, db: Database, history: seq<Call>, cap: nat)
    requires Agree(records, db) && SecondsDistinct(db.rows) && AllSeparated(db, history, cap)
    ensures Agree(MemoryAfter(records, history, cap), TablesAfter(db, history, cap))
    decreases |history|
  {
    if history != [] {
      var (op, now) := history[0];
      StepAgrees(records, db, op, now, cap);
      TablesSimulateMemory(MemoryStep(records, op, now, cap), TablesStep(db, op, now, cap), history[1..], cap);
    }
  }

  function ActiveInMemory(records: MemoryState, tenant: string): nat {
    |set key | key in records && records[key].row.tenantId == tenant && IsActive(records[key].row)|
  }

  function ActiveInTables(db: Database, tenant: string): nat {
    |set key | key in db.rows && db.rows[key].tenantId == tenant && IsActive(db.rows[key])|
  }

  /** Backends that agree answer the counting query alike. */
  lemma ActiveCountsAgree(records: MemoryState, db: Database, tenant: string)
    requires Agree(records, db)
    ensures ActiveInMemory(records, tenant) == ActiveInTables(db, tenant)
  {
    assert (set key | key in records && records[key].row.tenantId == tenant && IsActive(records[key].row))
        == (set key | key in db.rows && db.rows[key].tenantId == tenant && IsActive(db.rows[key]));
  }

  // ----- Active and ended runs -----

  /** A run is under way, perhaps with a cancel requested, or it has ended in one of three ways. */
  ghost predicate IsClassified(row: RunRow) {
    || row.status == "running" || row.status == "cancel_requested"
    || row.status == "completed" || row.status == "errored" || row.status == "cancelled"
  }

  ghost predicate AllClassified(rows: map<RunKey, RunRow>) {
    forall key :: key in rows ==> IsClassified(rows[key])
  }

  /** Runs are only ended in one of the three ways. */
  ghost predicate EndsProperly(op: Operation) {
    op.MarkTerminal? ==> op.status == "completed" || op.status == "errored" || op.status == "cancelled"
  }

  lemma MarkedClassified(rows: map<RunKey, RunRow>, op: Operation, now: nat)
    requires AllClassified(rows) && EndsProperly(op)
    ensures AllClassified(MarkedRows(rows, op, now))
  {
  }

  lemma {:induction false} HistoryClassified(records: MemoryState, history: seq<Call>, cap: nat)
    requires MemoryOk(records) && AllClassified(Rows(records))
    requires forall i :: 0 <= i < |history| ==> EndsProperly(history[i].0)
    ensures AllClassified(Rows(MemoryAfter(records, history, cap)))
    decreases |history|
  {
    if history != [] {
      var (op, now) := history[0];
      MemoryRows(records, op, now, cap);
      assert EndsProperly(history[0].0);
      MarkedClassified(Rows(records), op, now);
      HistoryClassified(MemoryStep(records, op, now, cap), history[1..], cap);
    }
  }

  ghost function RunsOf(records: MemoryState, tenant: string): set<RunKey> {
    set key | key in records && key.0 == tenant
  }

  /** A tenant's runs split into those the active count covers and those a prune may take. */
  lemma ActiveOrEnded(records: MemoryState, tenant: string)
    requires MemoryOk(records) && AllClassified(Rows(records))
    ensures ActiveInMemory(records, tenant) + |EndedRuns(Rows(records), tenant)| == |RunsOf(records, tenant)|
  {
    var active := set key | key in records && records[key].row.tenantId == tenant && IsActive(records[key].row);
    var ended := EndedRuns(Rows(records), tenant);
    forall key | key in records
      ensures records[key].row.tenantId == key.0 && (IsActive(records[key].row) <==> !IsTerminal(records[key].row))
    {
      assert Rows(records)[key] == records[key].row;
      StatusesDiffer(records[key].row);
    }
    assert active !! ended && active + ended == RunsOf(records, tenant);
  }

  lemma StatusesDiffer(row: RunRow)
    requires IsClassified(row)
    ensures IsActive(row) <==> !IsTerminal(row)
    ensures IsTerminal(row) <==> row.status == "completed" || row.status == "errored" || row.status == "cancelled"
  {
    assert "running"[0] == 'r' && "cancel_requested"[6] == '_' && "cancelled"[6] == 'l';
    assert "completed"[1] == 'o' && "errored"[0] == 'e' && "cancel_requested"[1] == 'a' && "cancelled"[1] == 'a';
  }

  /** After any history that starts empty and ends runs properly, the active count is the number of the tenant's stored
      runs less those that have ended. */
  lemma {:induction false} ActiveAfterHistory(history: seq<Call>, cap: nat, tenant: string)
    requires forall i :: 0 <= i < |history| ==> EndsProperly(history[i].0)
    ensures var records := MemoryAfter(map[], history, cap);
      ActiveInMemory(records, tenant) + |EndedRuns(Rows(records), tenant)| == |RunsOf(records, tenant)|
  {
    assert Rows(map[]) == map[];
    HistoryClassified(map[], history, cap);
    HistoryOk(map[], history, cap);
    ActiveOrEnded(MemoryAfter(map[], history, cap), tenant);
  }

  lemma {:induction false} HistoryOk(records: MemoryState, history: seq<Call>, cap: nat)
    requires MemoryOk(records)
    ensures MemoryOk(MemoryAfter(records, history, cap))
    decreases |history|
  {
    if history != [] {
      MemoryRows(records, history[0].0, history[0].1, cap);
      HistoryOk(MemoryStep(records, history[0].0, history[0].1, cap), history[1..], cap);
    }
  }

  lemma EmptyBackendsAgree()
    ensures Agree(map[], Database(map[], [])) && SecondsDistinct(map[])
  {
  }

  lemma {:induction false} PruneLeavesNoOrphans(db: Database, gone: set<RunKey>)
    requires NoOrphans(db)
    ensures NoOrphans(Database(db.rows - gone, WithoutRuns(db.calls, gone)))
  {
    var rest := WithoutRuns(db.calls, gone);
    forall i | 0 <= i < |rest| ensures rest[i].key in db.rows - gone {
      CallsOfRest(db.calls, gone, rest[i].key);
    }
  }

  lemma StepLeavesNoOrphans(db: Database, op: Operation, now: nat, cap: nat)
    requires TablesOk(db) && NoOrphans(db)
    ensures NoOrphans(TablesStep(db, op, now, cap))
  {
    if op.MarkTerminal? && op.Key() in db.rows {
      var marked := db.(rows := MarkedRows(db.rows, op, now));
      MarkedRowsKeyed(db.rows, op, now);
      PruneLeavesNoOrphans(marked, Victims(Terminals(marked.rows, op.tenantId, TableOrder), cap));
    }
  }

  /** Whatever the history, restarts included, no tool call outlives its run. */
  lemma {:induction false} NoToolCallLacksItsRun(db: Database, history: seq<Call>, cap: nat)
    requires TablesOk(db) && NoOrphans(db)
    ensures NoOrphans(TablesAfter(db, history, cap))
    decreases |history|
  {
    if history != [] {
      var (op, now) := history[0];
      TableRows(db, op, now, cap);
      StepLeavesNoOrphans(db, op, now, cap);
      NoToolCallLacksItsRun(TablesStep(db, op, now, cap), history[1..], cap);
    }
  }
}
