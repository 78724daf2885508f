/** Rows that outlive their result: query and query_array release the stored result and keep
    `row` (MySQL/Mysql.cpp, lines 130 and 164). */
module StaleRows {
  import opened Base
  import opened Results
  import opened ResultLaws
  import opened Handoff
  import opened HandoffInvariant

  /** What happens to the result slot; `Noted` is the query thread's write of `state`. */
  datatype Op = Ask(queued: bool, ret: int) | Store(got: Option<Table>) | Give | Read(c: CursorCall) | Noted(ret: int)

  /** What was done, and what came of it. */
  datatype Entry = Entry(op: Op, sight: Sight)

  /** What a choice means for the slot, if anything. */
  function EntryOf(s: Conn, c: Choice): Option<Entry> {
    match c
    case Worker(_) => if s.worker.Recording? then Some(Entry(Noted(s.worker.ret), Sought)) else None
    case Tick(_) => None
    case Native(n, _) =>
      if !s.connected then None
      else match n
        case Connect(_) => None
        case MysqlQuery(_, resultId, _, ret) => Some(Entry(Ask(resultId != -1, ret), Sought))
        case MysqlQueryArray(_, resultId, _, ret) => Some(Entry(Ask(resultId != -1, ret), Sought))
        case MysqlStoreResult(got) => Some(Entry(Store(got), Sought))
        case MysqlFreeResult => Some(Entry(Give, Sought))
        case MysqlCursor(call) => Some(Entry(Read(call), Cursor(s.slot, call).1))
  }

  /** What an interleaving does to the slot, event by event. */
  function Trace(s: Conn, schedule: seq<Choice>): seq<Entry> {
    if schedule == [] then []
    else match EntryOf(Run(s, Init(schedule)), Last(schedule))
      case None => Trace(s, Init(schedule))
      case Some(e) => Trace(s, Init(schedule)) + [e]
  }

  /** From the trace alone: is a row still in hand? */
  predicate RowKept(t: seq<Entry>) {
    if t == [] then false
    else
      var e := Last(t);
      if e.op.Give? then false
      else if e.op.Read? && !e.sight.NoResult? && !e.sight.Sought? then !e.sight.NoRow?
      else RowKept(Init(t))
  }

  /** From the trace alone: was a query issued while a row was in hand, with neither
      free_result nor an advancing fetch after it? */
  predicate AskedOverRow(t: seq<Entry>) {
    if t == [] then false
    else
      var e := Last(t);
      if e.op.Give? || (e.op.Read? && Advances(e.op.c) && !e.sight.NoResult?) then false
      else if e.op.Ask? then AskedOverRow(Init(t)) || (RowKept(Init(t)) && ResultKept(Init(t)))
      else AskedOverRow(Init(t))
  }

  /** From the trace alone: is a result stored? */
  predicate ResultKept(t: seq<Entry>) {
    if t == [] then false
    else
      var e := Last(t);
      if e.op.Give? || e.op.Ask? then false
      else if e.op.Read? then !e.sight.NoResult?
      else ResultKept(Init(t)) || (e.op.Store? && StatusIn(Init(t)) == 0 && e.op.got.Some?)
  }

  /** From the trace alone: the status a store is judged by. */
  function StatusIn(t: seq<Entry>): int {
    if t == [] then -1
    else
      var e := Last(t);
      if e.op.Give? then -1
      else if e.op.Ask? && !e.op.queued then e.op.ret
      else if e.op.Noted? then e.op.ret
      else StatusIn(Init(t))
  }

  predicate Tells(t: seq<Entry>, s: Slot) {
    && (RowKept(t) <==> s.row.Some?)
    && (ResultKept(t) <==> s.result.Some?)
    && StatusIn(t) == s.state
    && (AskedOverRow(t) <==> s.row.Some? && (s.result.None? || s.row.value.owner != s.result.value.id))
  }

  // ---- one event ------------------------------------------------------------------------------

  lemma AskTells(t: seq<Entry>, s: Slot, queued: bool, ret: int)
    requires Tells(t, s)
    ensures Tells(t + [Entry(Ask(queued, ret), Sought)], if queued then Release(s) else QueryNow(s, ret))
  {
    assert Init(t + [Entry(Ask(queued, ret), Sought)]) == t;
  }

  lemma StoreTells(t: seq<Entry>, s: Slot, got: Option<Table>)
    requires Tells(t, s) && Sound(s)
    ensures Tells(t + [Entry(Store(got), Sought)], StoreResult(s, got).0)
  {
    assert Init(t + [Entry(Store(got), Sought)]) == t;
    StoreExactly(s, got);
    hide Conserved;
  }

  lemma GiveTells(t: seq<Entry>, s: Slot)
    requires Tells(t, s)
    ensures Tells(t + [Entry(Give, Sought)], FreeResult(s))
  {
  }

  lemma ReadTells(t: seq<Entry>, s: Slot, c: CursorCall)
    requires Tells(t, s) && Sound(s)
    ensures Tells(t + [Entry(Read(c), Cursor(s, c).1)], Cursor(s, c).0)
  {
    assert Init(t + [Entry(Read(c), Cursor(s, c).1)]) == t;
    hide Conserved;
  }

  lemma NotedTells(t: seq<Entry>, s: Slot, stmt: nat, ret: int)
    requires Tells(t, s)
    ensures Tells(t + [Entry(Noted(ret), Sought)], Record(s, stmt, ret))
  {
    assert Init(t + [Entry(Noted(ret), Sought)]) == t;
  }

  lemma WorkerSlot(s: Conn, ret: int)
    ensures WorkerStep(s, ret).slot ==
      if s.worker.Recording? then Record(s.slot, s.worker.stmt, s.worker.ret)
      else if s.worker.Executing? then Execute(s.slot) else s.slot
  {
  }

  lemma NativeSlot(s: Conn, n: NativeCall, address: nat)
    ensures NativeStep(s, n, address).slot ==
      if !s.connected then s.slot
      else match n
        case Connect(_) => s.slot
        case MysqlQuery(_, resultId, _, ret) => if resultId != -1 then Release(s.slot) else QueryNow(s.slot, ret)
        case MysqlQueryArray(_, resultId, _, ret) => if resultId != -1 then Release(s.slot) else QueryNow(s.slot, ret)
        case MysqlStoreResult(got) => StoreResult(s.slot, got).0
        case MysqlFreeResult => FreeResult(s.slot)
        case MysqlCursor(call) => Cursor(s.slot, call).0
  {
    hide GetString, Release, QueryNow, StoreResult, FreeResult, Cursor;
  }

  /** Whatever the choice, the trace keeps telling. */
  lemma StepTells(t: seq<Entry>, s: Conn, c: Choice)
    requires Tells(t, s.slot) && Sound(s.slot)
    ensures var t' := match EntryOf(s, c) case None => t case Some(e) => t + [e];
      Tells(t', Step(s, c).slot)
  {
    match c
    case Worker(ret) =>
      WorkerSlot(s, ret);
      hide WorkerStep, RowKept, ResultKept, AskedOverRow, StatusIn;
      if s.worker.Recording? { NotedTells(t, s.slot, s.worker.stmt, s.worker.ret); }
    case Tick(scripts) =>
      TickFrame(s, scripts);
      hide TickStep, Tells;
    case Native(n, address) =>
      NativeSlot(s, n, address);
      hide NativeStep, Tells, Sound, Release, QueryNow, StoreResult, FreeResult, Cursor;
      if s.connected {
        match n
        case Connect(_) =>
        case MysqlQuery(_, resultId, _, ret) => AskTells(t, s.slot, resultId != -1, ret);
        case MysqlQueryArray(_, resultId, _, ret) => AskTells(t, s.slot, resultId != -1, ret);
        case MysqlStoreResult(got) => StoreTells(t, s.slot, got);
        case MysqlFreeResult => GiveTells(t, s.slot);
        case MysqlCursor(call) => ReadTells(t, s.slot, call);
      }
  }

  // ---- every interleaving ---------------------------------------------------------------------

  lemma SoundOf(s: Conn)
    requires Inv(s)
    ensures Sound(s.slot)
  {
    assert Stated(s);
  }

  /** The trace of an interleaving determines what the slot holds at its end. */
  lemma {:induction false} TraceTells(id: nat, mysql: bool, next: nat, schedule: seq<Choice>)
    ensures var s, t := Run(New(id, mysql, next), schedule), Trace(New(id, mysql, next), schedule);
      && (RowKept(t) <==> s.slot.row.Some?)
      && (ResultKept(t) <==> s.slot.result.Some?)
      && StatusIn(t) == s.slot.state
      && (AskedOverRow(t) <==>
            s.slot.row.Some? && (s.slot.result.None? || s.slot.row.value.owner != s.slot.result.value.id))
    decreases |schedule|
  {
    hide Step, EntryOf, RowKept, ResultKept, AskedOverRow, StatusIn, Inv, Sound;
    if schedule == [] {
      NothingTold(id, mysql, next);
    } else {
      var s0 := New(id, mysql, next);
      TraceTells(id, mysql, next, Init(schedule));
      NewInv(id, mysql, next);
      RunInv(s0, Init(schedule));
      SoundOf(Run(s0, Init(schedule)));
      StepTells(Trace(s0, Init(schedule)), Run(s0, Init(schedule)), Last(schedule));
    }
  }

  lemma NothingTold(id: nat, mysql: bool, next: nat)
    ensures Tells([], New(id, mysql, next).slot)
  {
  }

  lemma StaleSight(s: Slot, c: CursorCall)
    requires Sound(s)
    ensures Cursor(s, c).1 == Stale
      <==> (c.FetchField? || c.FetchFieldNum?) && s.result.Some? && s.row.Some? && s.row.value.owner != s.result.value.id
  {
    hide Conserved;
  }

  /** Exactly when, in an interleaving of the two threads and the scripts, fetch_field or
      fetch_field_num reads a row of a result set already given back. */
  lemma StaleRowExactly(id: nat, mysql: bool, next: nat, schedule: seq<Choice>, c: CursorCall)
    ensures var s, t := Run(New(id, mysql, next), schedule), Trace(New(id, mysql, next), schedule);
      Cursor(s.slot, c).1 == Stale <==> (c.FetchField? || c.FetchFieldNum?) && ResultKept(t) && AskedOverRow(t)
  {
    var s0 := New(id, mysql, next);
    TraceTells(id, mysql, next, schedule);
    NewInv(id, mysql, next);
    RunInv(s0, schedule);
    SoundOf(Run(s0, schedule));
    hide Run, Trace, ResultKept, AskedOverRow, RowKept, StatusIn, Sound, Cursor, Inv, New;
    StaleSight(Run(s0, schedule).slot, c);
  }

  /** Such a run: connect, query, store, fetch a row, query again, store, read a field. */
  lemma StaleRowExists()
    ensures exists schedule :: Cursor(Run(New(0, true, 0), schedule).slot, FetchFieldNum(0)).1 == Stale
  {
    var table: Table := RawTable(["c"], [[Some("x")]]);
    var ask, store := Native(MysqlQuery("q", -1, 0, 0), 0), Native(MysqlStoreResult(Some(table)), 0);
    var schedule := [Native(Connect(true), 0), ask, store, Native(MysqlCursor(FetchRow), 0), ask, store];
    var s0 := New(0, true, 0);
    RunSix(s0, schedule);
    AskAndStoreTwice(s0, table);
    assert Cursor(Run(s0, schedule).slot, FetchFieldNum(0)).1 == Stale by { hide Run, Step; }
  }

  lemma AskAndStoreTwice(s: Conn, table: Table)
    requires s == New(0, true, 0) && |table.rows| == 1
    ensures var ask, store := Native(MysqlQuery("q", -1, 0, 0), 0), Native(MysqlStoreResult(Some(table)), 0);
      var s' := Step(Step(Step(Step(Step(Step(s, Native(Connect(true), 0)), ask), store),
                               Native(MysqlCursor(FetchRow), 0)), ask), store);
      Cursor(s'.slot, FetchFieldNum(0)).1 == Stale
  {
    var ask, store := Native(MysqlQuery("q", -1, 0, 0), 0), Native(MysqlStoreResult(Some(table)), 0);
    var s2 := Step(Step(s, Native(Connect(true), 0)), ask);
    var s4 := Step(Step(s2, store), Native(MysqlCursor(FetchRow), 0));
    var s6 := Step(Step(s4, ask), store);
    assert s2.connected && s2.slot.result == None && s2.slot.row == None && s2.slot.state == 0 && s2.slot.obtained == 0;
    FetchedRow(s2, table);
    assert s6.slot.row == s4.slot.row && s6.slot.result.value.id == 1 by { StoredAgain(s4, table); }
    hide Step;
  }

  lemma FetchedRow(s: Conn, table: Table)
    requires s.connected && s.slot.result == None && s.slot.state == 0 && s.slot.obtained == 0 && |table.rows| == 1
    ensures var s' := Step(Step(s, Native(MysqlStoreResult(Some(table)), 0)), Native(MysqlCursor(FetchRow), 0));
      s'.connected && s'.slot.row == Some(RowRef(0, 0)) && s'.slot.result.Some? && s'.slot.obtained == 1
  {
    NativeSlot(s, MysqlStoreResult(Some(table)), 0);
  }

  lemma StoredAgain(s: Conn, table: Table)
    requires s.connected && s.slot.result.Some? && s.slot.obtained == 1
    ensures var s' := Step(Step(s, Native(MysqlQuery("q", -1, 0, 0), 0)), Native(MysqlStoreResult(Some(table)), 0));
      s'.slot.row == s.slot.row && s'.slot.result.Some? && s'.slot.result.value.id == 1
  {
    NativeSlot(s, MysqlQuery("q", -1, 0, 0), 0);
    hide GetString;
  }

  lemma RunSix(s: Conn, c: seq<Choice>)
    requires |c| == 6
    ensures Run(s, c) == Step(Step(Step(Step(Step(Step(s, c[0]), c[1]), c[2]), c[3]), c[4]), c[5])
  {
    assert Init(c) == c[..5] && Init(c[..5]) == c[..4] && Init(c[..4]) == c[..3];
    assert Init(c[..3]) == c[..2] && Init(c[..2]) == c[..1] && Init(c[..1]) == [];
    hide Step;
    assert Run(s, c[..1]) == Step(s, c[0]);
    assert Run(s, c[..2]) == Step(Run(s, c[..1]), c[1]);
    assert Run(s, c[..3]) == Step(Run(s, c[..2]), c[2]);
    assert Run(s, c[..4]) == Step(Run(s, c[..3]), c[3]);
    assert Run(s, c[..5]) == Step(Run(s, c[..4]), c[4]);
  }

  /** If no query is ever issued while `row` is set, no stale row is ever read, whatever the
      query thread does meanwhile. */
  lemma {:induction false} FreeingScriptsNeverStale(id: nat, mysql: bool, next: nat, schedule: seq<Choice>)
    requires forall i :: 0 <= i < |schedule| ==>
      var s, c := Run(New(id, mysql, next), schedule[..i]), schedule[i];
      s.connected && c.Native? && (c.n.MysqlQuery? || c.n.MysqlQueryArray?) ==> s.slot.row.None?
    ensures !AskedOverRow(Trace(New(id, mysql, next), schedule))
    ensures forall c :: Cursor(Run(New(id, mysql, next), schedule).slot, c).1 != Stale
    decreases |schedule|
  {
    var s0 := New(id, mysql, next);
    if schedule == [] {
    } else {
      var prior := Init(schedule);
      forall i | 0 <= i < |prior|
        ensures prior[..i] == schedule[..i] && prior[i] == schedule[i]
      {
      }
      hide Run, New, Cursor, RowKept, ResultKept, StatusIn;
      FreeingScriptsNeverStale(id, mysql, next, prior);
      assert schedule[..|schedule| - 1] == prior;
      TraceTells(id, mysql, next, prior);
      AskedNext(Trace(s0, prior), EntryOf(Run(s0, prior), Last(schedule)));
    }
    forall c ensures Cursor(Run(s0, schedule).slot, c).1 != Stale { StaleRowExactly(id, mysql, next, schedule, c); }
  }

  lemma AskedNext(t: seq<Entry>, e: Option<Entry>)
    requires !AskedOverRow(t) && (e.Some? && e.value.op.Ask? ==> !RowKept(t))
    ensures !AskedOverRow(match e case None => t case Some(x) => t + [x])
  {
    if e.Some? { assert Init(t + [e.value]) == t; }
  }
}
