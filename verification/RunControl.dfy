/** The run-control state machine as two backends implement it: one dictionary of records, or one table of
    rows beside an append-only table of tool calls (src/core/run_control_registry.py). */
module RunControl {
  import opened Values
  import opened Ordering
  import Text

  type RunKey = (string, string)

  /** The columns both backends keep. Times are microseconds; a run that never ended has no finish time. */
  datatype RunRow = RunRow(
    tenantId: string,
    runId: string,
    sessionId: string,
    correlationId: string,
    transport: string,
    status: string,
    cancelRequested: bool,
    cancelReason: string,
    startedAt: nat,
    updatedAt: nat,
    finishedAt: Option<nat>,
    terminalEvent: string,
    terminalMessage: string)

  datatype RunRecord = RunRecord(row: RunRow, callIds: set<string>)

  datatype ToolCall = ToolCall(key: RunKey, callId: string)

  type MemoryState = map<RunKey, RunRecord>

  datatype Database = Database(rows: map<RunKey, RunRow>, calls: seq<ToolCall>)

  datatype Operation =
    | StartRun(tenantId: string, sessionId: string, runId: string, correlationId: string, transport: string)
    | RecordToolCall(tenantId: string, runId: string, callId: string)
    | MarkTerminal(tenantId: string, runId: string, status: string, event: string, message: string)
    | RequestCancel(tenantId: string, runId: string, reason: string)
  {
    function Key(): RunKey {
      (tenantId, runId)
    }
  }

  // ----- What one operation does to one row -----

  predicate IsTerminal(row: RunRow) {
    row.status in {"completed", "errored", "cancelled"}
  }

  predicate IsActive(row: RunRow) {
    row.status in {"running", "cancel_requested"}
  }

  function StartedRow(op: Operation, now: nat): RunRow
    requires op.StartRun?
  {
    RunRow(op.tenantId, op.runId, op.sessionId, if op.correlationId == "" then op.runId else op.correlationId,
           op.transport, "running", false, "", now, now, None, "", "")
  }

  function TerminalRow(row: RunRow, op: Operation, now: nat): RunRow
    requires op.MarkTerminal?
  {
    row.(status := op.status, terminalEvent := op.event, terminalMessage := op.message, updatedAt := now,
         finishedAt := Some(now))
  }

  function CancelRow(row: RunRow, op: Operation, now: nat): RunRow
    requires op.RequestCancel?
  {
    row.(cancelRequested := true, cancelReason := op.reason,
         status := if IsTerminal(row) then row.status else "cancel_requested", updatedAt := now)
  }

  // ----- Pruning -----

  const MICROSECONDS := 1_000_000

  /** How the dictionary orders terminal runs: by finish time, then run id. */
  function MemoryOrder(row: RunRow): seq<int> {
    [if row.finishedAt.Some? then row.finishedAt.value else row.startedAt] + Codes(row.runId)
  }

  /** How the tables order them: by finish second (a missing one first), then start time, then run id. */
  function TableOrder(row: RunRow): seq<int> {
    [if row.finishedAt.Some? then row.finishedAt.value / MICROSECONDS else -1, row.startedAt] + Codes(row.runId)
  }

  /** The terminal runs of a tenant with their sort keys. */
  function Terminals(rows: map<RunKey, RunRow>, tenantId: string, order: RunRow -> seq<int>): map<RunKey, seq<int>> {
    map key | key in rows && key.0 == tenantId && IsTerminal(rows[key]) :: order(rows[key])
  }

  /** Keys name the rows they lead to. */
  ghost predicate Keyed(rows: map<RunKey, RunRow>) {
    forall key :: key in rows ==> rows[key].tenantId == key.0 && rows[key].runId == key.1
  }

  lemma OrdersAreDistinct(rows: map<RunKey, RunRow>, tenantId: string)
    requires Keyed(rows)
    ensures DistinctKeys(Terminals(rows, tenantId, MemoryOrder)) && DistinctKeys(Terminals(rows, tenantId, TableOrder))
  {
    forall x, y | x in rows && y in rows && x.0 == y.0 && x != y
      ensures MemoryOrder(rows[x]) != MemoryOrder(rows[y]) && TableOrder(rows[x]) != TableOrder(rows[y])
    {
      if Codes(rows[x].runId) == Codes(rows[y].runId) {
        CodesInjective(rows[x].runId, rows[y].runId);
      }
      assert MemoryOrder(rows[x])[1..] == Codes(rows[x].runId) && MemoryOrder(rows[y])[1..] == Codes(rows[y].runId);
      assert TableOrder(rows[x])[2..] == Codes(rows[x].runId) && TableOrder(rows[y])[2..] == Codes(rows[y].runId);
    }
  }

  /** The runs a prune removes: none without a cap, else as many of the lowest terminal runs as exceed it. */
  ghost function Victims(keys: map<RunKey, seq<int>>, cap: nat): set<RunKey>
    requires DistinctKeys(keys)
  {
    if cap == 0 || |keys| <= cap then {} else Lowest(keys, |keys| - cap)
  }

  // ----- The dictionary -----

  function Rows(records: MemoryState): map<RunKey, RunRow> {
    map key | key in records :: records[key].row
  }

  ghost predicate MemoryOk(records: MemoryState) {
    Keyed(Rows(records))
  }

  ghost function MemoryPruned(records: MemoryState, tenantId: string, cap: nat): MemoryState
    requires MemoryOk(records)
  {
    OrdersAreDistinct(Rows(records), tenantId);
    records - Victims(Terminals(Rows(records), tenantId, MemoryOrder), cap)
  }

  ghost function MemoryStep(records: MemoryState, op: Operation, now: nat, cap: nat): MemoryState
    requires MemoryOk(records)
  {
    var key := op.Key();
    match op
    case StartRun(_, _, _, _, _) => records[key := RunRecord(StartedRow(op, now), {})]
    case RecordToolCall(_, _, callId) =>
      if Text.Strip(callId) == "" || key !in records then records
      else
        var r := records[key];
        records[key := RunRecord(r.row.(updatedAt := now), r.callIds + {Text.Strip(callId)})]
    case MarkTerminal(_, _, _, _, _) =>
      if key !in records then records
      else
        var marked := records[key := records[key].(row := TerminalRow(records[key].row, op, now))];
        assert MemoryOk(marked);
        MemoryPruned(marked, op.tenantId, cap)
    case RequestCancel(_, _, _) =>
      if key !in records then records
      else records[key := records[key].(row := CancelRow(records[key].row, op, now))]
  }

  // ----- The tables -----

  function CallsOf(calls: seq<ToolCall>, key: RunKey): set<string> {
    set i | 0 <= i < |calls| && calls[i].key == key :: calls[i].callId
  }

  /** The table without the rows of one run. */
  function WithoutRun(calls: seq<ToolCall>, key: RunKey): seq<ToolCall> {
    if calls == [] then []
    else if calls[0].key == key then WithoutRun(calls[1..], key)
    else [calls[0]] + WithoutRun(calls[1..], key)
  }

  function WithoutRuns(calls: seq<ToolCall>, keys: set<RunKey>): seq<ToolCall> {
    if calls == [] then []
    else if calls[0].key in keys then WithoutRuns(calls[1..], keys)
    else [calls[0]] + WithoutRuns(calls[1..], keys)
  }

  ghost predicate TablesOk(db: Database) {
    Keyed(db.rows)
  }

  ghost function TablesPruned(db: Database, tenantId: string, cap: nat): Database
    requires TablesOk(db)
  {
    OrdersAreDistinct(db.rows, tenantId);
    var victims := Victims(Terminals(db.rows, tenantId, TableOrder), cap);
    Database(db.rows - victims, WithoutRuns(db.calls, victims))
  }

  ghost function TablesStep(db: Database, op: Operation, now: nat, cap: nat): Database
    requires TablesOk(db)
  {
    var key := op.Key();
    match op
    case StartRun(_, _, _, _, _) => db.(rows := db.rows[key := StartedRow(op, now)])
    case RecordToolCall(_, _, callId) =>
      if Text.Strip(callId) == "" || key !in db.rows then db
      else
        var call := ToolCall(key, Text.Strip(callId));
        Database(db.rows[key := db.rows[key].(updatedAt := now)], if call in db.calls then db.calls else db.calls + [call])
    case MarkTerminal(_, _, _, _, _) =>
      if key !in db.rows then db
      else
        var marked := db.(rows := db.rows[key := TerminalRow(db.rows[key], op, now)]);
        assert TablesOk(marked);
        TablesPruned(marked, op.tenantId, cap)
    case RequestCancel(_, _, _) =>
      if key !in db.rows then db
      else db.(rows := db.rows[key := CancelRow(db.rows[key], op, now)])
  }

  // ----- What the calls promise, field by field -----

  /** A run starts running: not cancelled, not finished, correlated by its own id for want of another. */
  ghost predicate IsNewRun(op: Operation, now: nat, row: RunRow)
    requires op.StartRun?
  {
    && row.tenantId == op.tenantId && row.runId == op.runId && row.sessionId == op.sessionId && row.transport == op.transport
    && (op.correlationId != "" ==> row.correlationId == op.correlationId)
    && (op.correlationId == "" ==> row.correlationId == op.runId)
    && row.status == "running" && !row.cancelRequested && row.cancelReason == ""
    && row.startedAt == now && row.updatedAt == now && row.finishedAt == None
    && row.terminalEvent == "" && row.terminalMessage == ""
  }

  /** What a call other than a start never changes. */
  ghost predicate SameRun(before: RunRow, after: RunRow) {
    && after.tenantId == before.tenantId && after.runId == before.runId && after.sessionId == before.sessionId
    && after.correlationId == before.correlationId && after.transport == before.transport && after.startedAt == before.startedAt
  }

  ghost predicate SameEnd(before: RunRow, after: RunRow) {
    && after.finishedAt == before.finishedAt
    && after.terminalEvent == before.terminalEvent && after.terminalMessage == before.terminalMessage
  }

  /** Only the time of the last update is new. */
  ghost predicate IsTouched(before: RunRow, now: nat, after: RunRow) {
    && SameRun(before, after) && SameEnd(before, after) && after.status == before.status
    && after.cancelRequested == before.cancelRequested && after.cancelReason == before.cancelReason && after.updatedAt == now
  }

  /** The request is on record; a run that has not ended says so in its status. */
  ghost predicate IsCancelRequested(before: RunRow, reason: string, now: nat, after: RunRow) {
    && SameRun(before, after) && SameEnd(before, after)
    && after.cancelRequested && after.cancelReason == reason && after.updatedAt == now
    && (before.status == "completed" || before.status == "errored" || before.status == "cancelled" ==>
          after.status == before.status)
    && (before.status != "completed" && before.status != "errored" && before.status != "cancelled" ==>
          after.status == "cancel_requested")
  }

  ghost predicate IsMarked(before: RunRow, op: Operation, now: nat, after: RunRow)
    requires op.MarkTerminal?
  {
    && SameRun(before, after) && after.cancelRequested == before.cancelRequested && after.cancelReason == before.cancelReason
    && after.status == op.status && after.terminalEvent == op.event && after.terminalMessage == op.message
    && after.updatedAt == now && after.finishedAt == Some(now)
  }

  /** Every other entry is as it was. */
  ghost predicate OthersKept<V(!new)>(before: map<RunKey, V>, key: RunKey, after: map<RunKey, V>) {
    forall other :: other != key ==>
      (other in after <==> other in before) && (other in before ==> after[other] == before[other])
  }

  // ----- What a prune promises -----

  /** The ended runs of a tenant. */
  ghost function EndedRuns(rows: map<RunKey, RunRow>, tenantId: string): set<RunKey> {
    set key | key in rows && key.0 == tenantId
              && (rows[key].status == "completed" || rows[key].status == "errored" || rows[key].status == "cancelled")
  }

  /** The dictionary's notion of which run ended first: by finish time, then run id; the start stands in for a missing
      finish. */
  ghost predicate EndedBefore(x: RunRow, y: RunRow) {
    var a := if x.finishedAt.Some? then x.finishedAt.value else x.startedAt;
    var b := if y.finishedAt.Some? then y.finishedAt.value else y.startedAt;
    a < b || (a == b && ComesBefore(x.runId, y.runId))
  }

  /** The tables' notion: by the second of the finish, a missing one first, then the start, then the run id. */
  ghost predicate EndedSecondsBefore(x: RunRow, y: RunRow) {
    var a := if x.finishedAt.Some? then x.finishedAt.value / 1_000_000 else -1;
    var b := if y.finishedAt.Some? then y.finishedAt.value / 1_000_000 else -1;
    a < b || (a == b && (x.startedAt < y.startedAt || (x.startedAt == y.startedAt && ComesBefore(x.runId, y.runId))))
  }

  /** Without a cap nothing goes. With one, as many of the tenant's ended runs go as exceed it, each of them before every
      one that stays; no other run goes and none changes. */
  ghost predicate PrunesFirstEnded(before: map<RunKey, RunRow>, tenantId: string, cap: nat, after: map<RunKey, RunRow>,
                                   first: (RunRow, RunRow) -> bool) {
    && (cap == 0 ==> after == before)
    && (forall key :: key in after ==> key in before && after[key] == before[key])
    && (forall key :: key in before && key !in after ==> key in EndedRuns(before, tenantId))
    && (forall x, y :: x in before && x !in after && y in EndedRuns(after, tenantId) ==> first(before[x], before[y]))
    && (cap > 0 ==>
          |EndedRuns(after, tenantId)| == if |EndedRuns(before, tenantId)| <= cap then |EndedRuns(before, tenantId)| else cap)
  }

  lemma {:induction false} PrependedOrder(a: int, x: seq<int>, b: int, y: seq<int>)
    ensures LexLess([a] + x, [b] + y) <==> a < b || (a == b && LexLess(x, y))
  {
    assert ([a] + x)[1..] == x && ([b] + y)[1..] == y;
  }

  lemma OrdersMean(x: RunRow, y: RunRow)
    ensures LexLess(MemoryOrder(x), MemoryOrder(y)) <==> EndedBefore(x, y)
    ensures LexLess(TableOrder(x), TableOrder(y)) <==> EndedSecondsBefore(x, y)
  {
    CodesOrder(x.runId, y.runId);
    PrependedOrder(MemoryOrder(x)[0], Codes(x.runId), MemoryOrder(y)[0], Codes(y.runId));
    PrependedTwice(TableOrder(x)[0], x.startedAt, Codes(x.runId), TableOrder(y)[0], y.startedAt, Codes(y.runId));
  }

  lemma {:induction false} PrependedTwice(a: int, a': int, x: seq<int>, b: int, b': int, y: seq<int>)
    ensures LexLess([a, a'] + x, [b, b'] + y) <==> a < b || (a == b && (a' < b' || (a' == b' && LexLess(x, y))))
  {
    assert [a, a'] + x == [a] + ([a'] + x) && [b, b'] + y == [b] + ([b'] + y);
    PrependedOrder(a, [a'] + x, b, [b'] + y);
    PrependedOrder(a', x, b', y);
  }

  lemma TerminalsAreEnded(rows: map<RunKey, RunRow>, tenantId: string, order: RunRow -> seq<int>)
    ensures Terminals(rows, tenantId, order).Keys == EndedRuns(rows, tenantId)
    ensures |Terminals(rows, tenantId, order)| == |EndedRuns(rows, tenantId)|
  {
    var keys := Terminals(rows, tenantId, order);
    assert |keys| == |keys.Keys|;
  }

  lemma EndedWithout(rows: map<RunKey, RunRow>, tenantId: string, gone: set<RunKey>)
    requires gone <= EndedRuns(rows, tenantId)
    ensures EndedRuns(rows - gone, tenantId) == EndedRuns(rows, tenantId) - gone
    ensures |EndedRuns(rows - gone, tenantId)| == |EndedRuns(rows, tenantId)| - |gone|
  {
    var ended := EndedRuns(rows, tenantId);
    assert |ended - gone| == |ended| - |gone|;
  }

  ghost predicate OrdersAs(order: RunRow -> seq<int>, first: (RunRow, RunRow) -> bool) {
    forall x, y :: LexLess(order(x), order(y)) <==> first(x, y)
  }

  /** Removing the victims of an order prunes what that order puts first. */
  lemma VictimsAreFirstEnded(rows: map<RunKey, RunRow>, tenantId: string, cap: nat, order: RunRow -> seq<int>,
                             first: (RunRow, RunRow) -> bool)
    requires DistinctKeys(Terminals(rows, tenantId, order))
    requires OrdersAs(order, first)
    ensures PrunesFirstEnded(rows, tenantId, cap, rows - Victims(Terminals(rows, tenantId, order), cap), first)
  {
    var keys := Terminals(rows, tenantId, order);
    var gone := Victims(keys, cap);
    TerminalsAreEnded(rows, tenantId, order);
    if cap == 0 || |keys| <= cap {
      assert rows - gone == rows;
    } else {
      assert IsLowest(keys, gone, |keys| - cap);
      EndedWithout(rows, tenantId, gone);
      forall x, y | x in rows && x in gone && y in EndedRuns(rows, tenantId) - gone ensures first(rows[x], rows[y]) {
        assert LexLess(keys[x], keys[y]);
      }
    }
  }

  lemma MemoryPrunes(records: MemoryState, tenantId: string, cap: nat)
    requires MemoryOk(records)
    ensures PrunesFirstEnded(Rows(records), tenantId, cap, Rows(MemoryPruned(records, tenantId, cap)), EndedBefore)
    ensures forall key :: key in MemoryPruned(records, tenantId, cap) ==> records[key] == MemoryPruned(records, tenantId, cap)[key]
  {
    OrdersAreDistinct(Rows(records), tenantId);
    OrdersHaveMeaning();
    VictimsAreFirstEnded(Rows(records), tenantId, cap, MemoryOrder, EndedBefore);
    RowsWithout(records, Victims(Terminals(Rows(records), tenantId, MemoryOrder), cap));
  }

  lemma RowsWith(records: MemoryState, key: RunKey, row: RunRow)
    requires key in records
    ensures Rows(records[key := records[key].(row := row)]) == Rows(records)[key := row]
  {
  }

  lemma RowsWithout(records: MemoryState, gone: set<RunKey>)
    ensures Rows(records - gone) == Rows(records) - gone
  {
  }

  lemma OrdersHaveMeaning()
    ensures OrdersAs(MemoryOrder, EndedBefore) && OrdersAs(TableOrder, EndedSecondsBefore)
  {
    forall x, y
      ensures LexLess(MemoryOrder(x), MemoryOrder(y)) <==> EndedBefore(x, y)
      ensures LexLess(TableOrder(x), TableOrder(y)) <==> EndedSecondsBefore(x, y)
    {
      OrdersMean(x, y);
    }
  }

  lemma TablesPrune(db: Database, tenantId: string, cap: nat)
    requires TablesOk(db)
    ensures PrunesFirstEnded(db.rows, tenantId, cap, TablesPruned(db, tenantId, cap).rows, EndedSecondsBefore)
  {
    OrdersAreDistinct(db.rows, tenantId);
    OrdersHaveMeaning();
    VictimsAreFirstEnded(db.rows, tenantId, cap, TableOrder, EndedSecondsBefore);
  }

  /** The tool calls of the runs that went are gone, and no others. */
  ghost predicate CallsFollow(rows: map<RunKey, RunRow>, calls: seq<ToolCall>, rows': map<RunKey, RunRow>, calls': seq<ToolCall>) {
    forall call :: call in calls' <==> call in calls && !(call.key in rows && call.key !in rows')
  }

  lemma KeptCallsFollow(rows: map<RunKey, RunRow>, calls: seq<ToolCall>)
    ensures CallsFollow(rows, calls, rows, calls)
  {
  }

  lemma {:induction false} WithoutRunsMembers(calls: seq<ToolCall>, keys: set<RunKey>)
    ensures forall call :: call in WithoutRuns(calls, keys) <==> call in calls && call.key !in keys
    decreases |calls|
  {
    if calls != [] {
      WithoutRunsMembers(calls[1..], keys);
    }
  }

  // ----- The registries as they are written -----

  ghost function Firsts(s: seq<RunKey>, n: nat): set<RunKey>
    requires n <= |s|
  {
    set i | 0 <= i < n :: s[i]
  }

  lemma FirstsAdd(s: seq<RunKey>, n: nat)
    requires n < |s|
    ensures Firsts(s, n + 1) == Firsts(s, n) + {s[n]}
  {
  }

  /** The runs to remove: nothing without a cap or an overflow, else the overflow in sorted order. */
  method SelectVictims(keys: map<RunKey, seq<int>>, cap: nat) returns (oldest: seq<RunKey>)
    requires DistinctKeys(keys)
    ensures Firsts(oldest, |oldest|) == Victims(keys, cap)
  {
    oldest := [];
    if cap <= 0 {
      return;
    }
    if |keys| <= cap {
      return;
    }
    oldest := TakeLowest(keys, |keys| - cap);
    assert Firsts(oldest, |oldest|) == Lowest(keys, |keys| - cap);
  }

  method PopAll(records: MemoryState, oldest: seq<RunKey>) returns (rest: MemoryState)
    ensures rest == records - Firsts(oldest, |oldest|)
  {
    rest := records;
    for k := 0 to |oldest|
      invariant rest == records - Firsts(oldest, k)
    {
      FirstsAdd(oldest, k);
      rest := rest - {oldest[k]};
    }
  }

  /** Deletes the tool calls and the row of each run in turn. */
  method DeleteAll(db: Database, oldest: seq<RunKey>) returns (rest: Database)
    ensures rest == Database(db.rows - Firsts(oldest, |oldest|), WithoutRuns(db.calls, Firsts(oldest, |oldest|)))
  {
    rest := db;
    WithoutNone(db.calls);
    assert Firsts(oldest, 0) == {};
    for k := 0 to |oldest|
      invariant rest.rows == db.rows - Firsts(oldest, k)
      invariant rest.calls == WithoutRuns(db.calls, Firsts(oldest, k))
    {
      FirstsAdd(oldest, k);
      WithoutOneMore(db.calls, Firsts(oldest, k), oldest[k]);
      rest := rest.(calls := WithoutRun(rest.calls, oldest[k]));
      rest := rest.(rows := rest.rows - {oldest[k]});
    }
  }

  lemma PruneKeepsKeyed(rows: map<RunKey, RunRow>, gone: set<RunKey>)
    requires Keyed(rows)
    ensures Keyed(rows - gone)
  {
  }

  class RunControlRegistry {
    var records: MemoryState
    const cap: nat

    constructor (maxTerminalRecordsPerTenant: int)
      ensures records == map[] && MemoryOk(records)
      ensures cap == if maxTerminalRecordsPerTenant > 0 then maxTerminalRecordsPerTenant else 0
    {
      records := map[];
      cap := if maxTerminalRecordsPerTenant > 0 then maxTerminalRecordsPerTenant else 0;
    }

    method Start(op: Operation, now: nat)
      requires MemoryOk(records) && op.StartRun?
      modifies this
      ensures records == MemoryStep(old(records), op, now, cap) && MemoryOk(records)
      ensures op.Key() in records && IsNewRun(op, now, records[op.Key()].row) && records[op.Key()].callIds == {}
      ensures OthersKept(old(records), op.Key(), records)
    {
      records := records[op.Key() := RunRecord(StartedRow(op, now), {})];
    }

    method AddToolCall(op: Operation, now: nat) returns (ok: bool)
      requires MemoryOk(records) && op.RecordToolCall?
      modifies this
      ensures records == MemoryStep(old(records), op, now, cap) && MemoryOk(records)
      ensures ok <==> Text.Strip(op.callId) != "" && op.Key() in old(records)
      ensures !ok ==> records == old(records)
      ensures ok ==>
        && op.Key() in records && IsTouched(old(records)[op.Key()].row, now, records[op.Key()].row)
        && records[op.Key()].callIds == old(records)[op.Key()].callIds + {Text.Strip(op.callId)}
        && OthersKept(old(records), op.Key(), records)
    {
      var normalized := Text.Strip(op.callId);
      if normalized == "" {
        return false;
      }
      if op.Key() !in records {
        return false;
      }
      var record := records[op.Key()];
      records := records[op.Key() := record.(callIds := record.callIds + {normalized}, row := record.row.(updatedAt := now))];
      return true;
    }

    method Finish(op: Operation, now: nat) returns (ok: bool)
      requires MemoryOk(records) && op.MarkTerminal?
      modifies this
      ensures records == MemoryStep(old(records), op, now, cap) && MemoryOk(records)
      ensures ok <==> op.Key() in old(records)
      ensures !ok ==> records == old(records)
      ensures ok ==> exists row ::
        && IsMarked(old(records)[op.Key()].row, op, now, row)
        && PrunesFirstEnded(Rows(old(records))[op.Key() := row], op.tenantId, cap, Rows(records), EndedBefore)
      ensures forall key :: key in records ==> key in old(records) && records[key].callIds == old(records)[key].callIds
    {
      if op.Key() !in records {
        return false;
      }
      ghost var row := TerminalRow(records[op.Key()].row, op, now);
      records := records[op.Key() := records[op.Key()].(row := TerminalRow(records[op.Key()].row, op, now))];
      RowsWith(old(records), op.Key(), row);
      Prune(op.tenantId);
      assert IsMarked(old(records)[op.Key()].row, op, now, row);
      return true;
    }

    /** Collects the terminal runs of the tenant, sorts them and pops the overflow. */
    method Prune(tenantId: string)
      requires MemoryOk(records)
      modifies this
      ensures records == MemoryPruned(old(records), tenantId, cap) && MemoryOk(records)
      ensures PrunesFirstEnded(Rows(old(records)), tenantId, cap, Rows(records), EndedBefore)
      ensures forall key :: key in records ==> key in old(records) && records[key] == old(records)[key]
    {
      ghost var before := records;
      OrdersAreDistinct(Rows(records), tenantId);
      var oldest := SelectVictims(Terminals(Rows(records), tenantId, MemoryOrder), cap);
      PruneKeepsKeyed(Rows(records), Firsts(oldest, |oldest|));
      assert Rows(records - Firsts(oldest, |oldest|)) == Rows(records) - Firsts(oldest, |oldest|);
      records := PopAll(records, oldest);
      MemoryPrunes(before, tenantId, cap);
    }

    method Cancel(op: Operation, now: nat) returns (ok: bool)
      requires MemoryOk(records) && op.RequestCancel?
      modifies this
      ensures records == MemoryStep(old(records), op, now, cap) && MemoryOk(records)
      ensures ok <==> op.Key() in old(records)
      ensures !ok ==> records == old(records)
      ensures ok ==>
        && op.Key() in records && IsCancelRequested(old(records)[op.Key()].row, op.reason, now, records[op.Key()].row)
        && records[op.Key()].callIds == old(records)[op.Key()].callIds
        && OthersKept(old(records), op.Key(), records)
    {
      if op.Key() !in records {
        return false;
      }
      records := records[op.Key() := records[op.Key()].(row := CancelRow(records[op.Key()].row, op, now))];
      return true;
    }
  }

  class SQLiteRunControlRegistry {
    var rows: map<RunKey, RunRow>
    var calls: seq<ToolCall>
    const cap: nat

    constructor (maxTerminalRecordsPerTenant: int)
      ensures Tables() == Database(map[], []) && TablesOk(Tables())
      ensures cap == if maxTerminalRecordsPerTenant > 0 then maxTerminalRecordsPerTenant else 0
    {
      rows, calls := map[], [];
      cap := if maxTerminalRecordsPerTenant > 0 then maxTerminalRecordsPerTenant else 0;
    }

    function Tables(): Database
      reads this
    {
      Database(rows, calls)
    }

    method Start(op: Operation, now: nat)
      requires TablesOk(Tables()) && op.StartRun?
      modifies this
      ensures Tables() == TablesStep(old(Tables()), op, now, cap) && TablesOk(Tables())
      ensures op.Key() in rows && IsNewRun(op, now, rows[op.Key()])
      ensures OthersKept(old(rows), op.Key(), rows) && calls == old(calls)
    {
      rows := rows[op.Key() := StartedRow(op, now)];
    }

    method AddToolCall(op: Operation, now: nat) returns (ok: bool)
      requires TablesOk(Tables()) && op.RecordToolCall?
      modifies this
      ensures Tables() == TablesStep(old(Tables()), op, now, cap) && TablesOk(Tables())
      ensures ok <==> Text.Strip(op.callId) != "" && op.Key() in old(rows)
      ensures !ok ==> rows == old(rows) && calls == old(calls)
      ensures ok ==>
        && op.Key() in rows && IsTouched(old(rows)[op.Key()], now, rows[op.Key()]) && OthersKept(old(rows), op.Key(), rows)
        && var call := ToolCall(op.Key(), Text.Strip(op.callId));
           calls == if call in old(calls) then old(calls) else old(calls) + [call]
    {
      var normalized := Text.Strip(op.callId);
      if normalized == "" {
        return false;
      }
      if op.Key() !in rows {
        return false;
      }
      if ToolCall(op.Key(), normalized) !in calls {
        calls := calls + [ToolCall(op.Key(), normalized)];
      }
      rows := rows[op.Key() := rows[op.Key()].(updatedAt := now)];
      return true;
    }

    method Finish(op: Operation, now: nat) returns (ok: bool)
      requires TablesOk(Tables()) && op.MarkTerminal?
      modifies this
      ensures Tables() == TablesStep(old(Tables()), op, now, cap) && TablesOk(Tables())
      ensures ok <==> op.Key() in old(rows)
      ensures !ok ==> rows == old(rows) && calls == old(calls)
      ensures ok ==> exists row ::
        && IsMarked(old(rows)[op.Key()], op, now, row)
        && PrunesFirstEnded(old(rows)[op.Key() := row], op.tenantId, cap, rows, EndedSecondsBefore)
      ensures CallsFollow(old(rows), old(calls), rows, calls)
    {
      if op.Key() !in rows {
        KeptCallsFollow(rows, calls);
        return false;
      }
      ghost var row := TerminalRow(rows[op.Key()], op, now);
      rows := rows[op.Key() := TerminalRow(rows[op.Key()], op, now)];
      Prune(op.tenantId);
      assert IsMarked(old(rows)[op.Key()], op, now, row);
      return true;
    }

    /** Selects the overflow of terminal runs in table order and deletes them one by one. */
    method Prune(tenantId: string)
      requires TablesOk(Tables())
      modifies this
      ensures Tables() == TablesPruned(old(Tables()), tenantId, cap) && TablesOk(Tables())
      ensures PrunesFirstEnded(old(rows), tenantId, cap, rows, EndedSecondsBefore)
      ensures CallsFollow(old(rows), old(calls), rows, calls)
    {
      TablesPrune(Tables(), tenantId, cap);
      ghost var before := Tables();
      OrdersAreDistinct(rows, tenantId);
      var oldest := SelectVictims(Terminals(rows, tenantId, TableOrder), cap);
      PruneKeepsKeyed(rows, Firsts(oldest, |oldest|));
      var rest := DeleteAll(Database(rows, calls), oldest);
      rows, calls := rest.rows, rest.calls;
      WithoutRunsMembers(before.calls, Firsts(oldest, |oldest|));
    }

    method Cancel(op: Operation, now: nat) returns (ok: bool)
      requires TablesOk(Tables()) && op.RequestCancel?
      modifies this
      ensures Tables() == TablesStep(old(Tables()), op, now, cap) && TablesOk(Tables())
      ensures ok <==> op.Key() in old(rows)
      ensures calls == old(calls) && (!ok ==> rows == old(rows))
      ensures ok ==>
        && op.Key() in rows && IsCancelRequested(old(rows)[op.Key()], op.reason, now, rows[op.Key()])
        && OthersKept(old(rows), op.Key(), rows)
    {
      if op.Key() !in rows {
        return false;
      }
      rows := rows[op.Key() := CancelRow(rows[op.Key()], op, now)];
      return true;
    }
  }

  lemma {:induction false} WithoutNone(calls: seq<ToolCall>)
    ensures WithoutRuns(calls, {}) == calls
    decreases |calls|
  {
    if calls != [] {
      WithoutNone(calls[1..]);
    }
  }

  /** Deleting run by run deletes them all, and keeps the rest in order. */
  lemma {:induction false} WithoutOneMore(calls: seq<ToolCall>, keys: set<RunKey>, key: RunKey)
    ensures WithoutRun(WithoutRuns(calls, keys), key) == WithoutRuns(calls, keys + {key})
    decreases |calls|
  {
    if calls != [] {
      WithoutOneMore(calls[1..], keys, key);
      if calls[0].key !in keys {
        assert WithoutRuns(calls, keys)[1..] == WithoutRuns(calls[1..], keys);
      }
    }
  }
}
