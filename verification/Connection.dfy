/** The class MySQL (MySQL/Mysql.cpp), its natives, and the two thread loops over it
    (MySQL/Thread.cpp), statement by statement. */
module Connection {
  import opened Base
  import opened Results
  import opened Handoff
  import opened HandoffInvariant
  import opened Visits
  import opened RowText

  function RawQuery(q: Query): (r: QueryInfo)
    ensures QueryView(r) == q && KnownKind(r.kind)
  {
    match q.extra
    case Id(n) => QueryInfo(q.text, q.resultId, n, q.text, TYPE_ID)
    case Vars(s) => QueryInfo(q.text, q.resultId, 0, s, TYPE_ARRAY)
  }

  function RawCompletion(c: Completion): (r: ThreadInfo)
    ensures CompletionView(r) == c && KnownKind(r.kind)
  {
    match c.extra
    case Id(n) => ThreadInfo(c.resultId, n, Str(0, ""), TYPE_ID)
    case Vars(s) => ThreadInfo(c.resultId, 0, s, TYPE_ARRAY)
  }

  predicate QueryKinds(qs: seq<QueryInfo>) {
    forall i :: 0 <= i < |qs| ==> KnownKind(qs[i].kind)
  }

  predicate CompletionKinds(cs: seq<ThreadInfo>) {
    forall i :: 0 <= i < |cs| ==> KnownKind(cs[i].kind)
  }

  function RawQueries(qs: seq<Query>): (r: seq<QueryInfo>)
    ensures QueriesView(r) == qs && QueryKinds(r)
  {
    seq(|qs|, i requires 0 <= i < |qs| => RawQuery(qs[i]))
  }

  function RawCompletions(cs: seq<Completion>): (r: seq<ThreadInfo>)
    ensures CompletionsView(r) == cs && CompletionKinds(r)
  {
    seq(|cs|, i requires 0 <= i < |cs| => RawCompletion(cs[i]))
  }

  /** The copy of lines 52 to 59: it fills one payload field and leaves the other as it was. */
  method CopyFields(q: QueryInfo, uninitialised: ThreadInfo) returns (t: ThreadInfo)
    requires KnownKind(q.kind)
    ensures t.kind == q.kind && t.resultId == q.resultId
    ensures q.kind == TYPE_ID ==> t.extraId == q.extraId && t.extraVars == uninitialised.extraVars
    ensures q.kind == TYPE_ARRAY ==> t.extraVars == q.extraVars && t.extraId == uninitialised.extraId
    ensures CompletionView(t) == CompletionOf(QueryView(q)) && KnownKind(t.kind)
  {
    t := uninitialised;
    t := t.(kind := q.kind);
    t := t.(resultId := q.resultId);
    if q.kind == TYPE_ID {
      t := t.(extraId := q.extraId);
    } else if q.kind == TYPE_ARRAY {
      t := t.(extraVars := q.extraVars);
    }
  }

  /** What a fetch of one cell gives back: nothing, the cell's text, memory that has been
      given back, or memory beside the row. */
  datatype CellReply = NoCell | Cell(s: string) | Dangling | Outside

  /** A NULL cell gives a null pointer; any other its text, up to the first NUL byte. */
  predicate Reads(reply: CellReply, cell: Option<string>) {
    && (cell.None? ==> reply == NoCell)
    && (cell.Some? ==>
          && reply.Cell? && '\0' !in reply.s && reply.s <= cell.value
          && (|reply.s| < |cell.value| ==> cell.value[|reply.s|] == '\0'))
    && (cell.Some? && '\0' !in cell.value ==> reply == Cell(cell.value))
  }

  function CellOf(cell: Option<string>): (reply: CellReply)
    ensures Reads(reply, cell)
  {
    match cell
    case None => NoCell
    case Some(s) => Cell(CStr(s))
  }

  lemma ReleaseKeepsExecs(s: Slot)
    ensures Release(s).execs == s.execs
  {
  }

  class MySQL {
    const id: nat
    var mysql: bool                      // the library handle is not null
    var connected: bool
    var queryQueue: seq<QueryInfo>
    var threadQueue: seq<ThreadInfo>
    var parsing: bool
    var state: int
    var result: Option<ResultSet>
    var row: Option<RowRef>

    // What is remembered about the run; nothing in the source reads it.
    var execs: nat
    var obtained: nat
    var freed: seq<nat>
    var written: Write
    var worker: WorkerPc
    var tick: TickPc
    var heap: Heap
    var log: Log
    var fault: bool

    function SlotView(): Slot
      reads this
    {
      Slot(state, result, row, execs, obtained, freed, written)
    }

    /** The object as the machine of atomic steps sees it. */
    function View(): Conn
      reads this
    {
      Conn(id, mysql, connected, QueriesView(queryQueue), CompletionsView(threadQueue), parsing, SlotView(),
           worker, tick, heap, log, fault)
    }

    predicate Valid()
      reads this
    {
      QueryKinds(queryQueue) && CompletionKinds(threadQueue) && Inv(View())
    }

    constructor (handleId: nat, initialised: bool, next: nat)
      ensures Valid() && View() == New(handleId, initialised, next)
      ensures state == -1 && result == None && row == None && queryQueue == [] && threadQueue == []
      ensures !parsing && !connected && id == handleId && mysql == initialised
      ensures fresh(this)
    {
      id := handleId;
      result, row, state := None, None, -1;
      parsing, connected, mysql := false, false, initialised;
      queryQueue, threadQueue := [], [];
      execs, obtained, freed, written := 0, 0, [], Unset;
      worker, tick, fault := Resting, Idle, false;
      heap := Heap({}, next, []);
      log := Log([], [], [], [], [], 0, []);
      new;
      hide Inv;
      NewInv(handleId, initialised, next);
      assert View() == New(handleId, initialised, next);
    }

    /** Take on the state the rest of the system has left. */
    method Restore(v: Conn)
      requires v.id == id
      modifies this
      ensures View() == v && QueryKinds(queryQueue) && CompletionKinds(threadQueue)
    {
      hide QueriesView, CompletionsView, RawQueries, RawCompletions, QueryKinds, CompletionKinds;
      mysql, connected, parsing := v.mysql, v.connected, v.parsing;
      queryQueue, threadQueue := RawQueries(v.queryQueue), RawCompletions(v.threadQueue);
      RestoreThreads(v);
      RestoreSlot(v.slot);
      assert SlotView() == v.slot;
      hide SlotView;
    }

    method RestoreThreads(v: Conn)
      modifies this`worker, this`tick, this`heap, this`log, this`fault
      ensures worker == v.worker && tick == v.tick && heap == v.heap && log == v.log && fault == v.fault
    {
      worker, tick, heap, log, fault := v.worker, v.tick, v.heap, v.log, v.fault;
    }

    method RestoreSlot(v: Slot)
      modifies this`state, this`result, this`row, this`execs, this`obtained, this`freed, this`written
      ensures SlotView() == v
    {
      state, result, row := v.state, v.result, v.row;
      execs, obtained, freed, written := v.execs, v.obtained, v.freed, v.written;
    }

    /** The rest of the system runs: any steps of the other thread, any calls of scripts. */
    method Yield(others: seq<Choice>)
      requires Valid()
      modifies this
      ensures Valid() && View() == Run(old(View()), others)
    {
      hide Inv, Run, QueriesView, CompletionsView;
      RunInv(View(), others);
      OthersKeepThread(View(), others);
      Restore(Run(View(), others));
    }

    // ---- the atomic steps of the query thread ----------------------------------------------

    /** After the k-th step of a visit of the query thread, which started in `before`. */
    method Between(ghost before: Conn, ghost ret: int, others: seq<seq<Choice>>, k: nat)
      requires Valid() && k < |others| && NoWorker(others[k]) && View() == WorkerStep(before, ret)
      modifies this
      ensures Valid() && worker == old(worker)
      ensures Visit(before, ret, others[k..]) == if worker.Resting? then View() else Visit(View(), ret, others[k + 1..])
    {
      hide Inv, WorkerStep, Run, Visit, QueriesView, CompletionsView;
      VisitUnfold(before, ret, others, k);
      OthersKeepThread(View(), others[k]);
      Yield(others[k]);
    }

    method Arrive(ghost ret: int)
      requires Valid() && worker == Resting
      modifies this`worker
      ensures Valid() && View() == WorkerStep(old(View()), ret) && worker == Polling
    {
      hide Inv, QueriesView, CompletionsView;
      StepInv(View(), Worker(ret));
      worker := Polling;
    }

    /** 40: queryQueue.empty() */
    method PollQueue(ghost ret: int) returns (empty: bool)
      requires Valid() && worker == Polling
      modifies this`worker
      ensures Valid() && View() == WorkerStep(old(View()), ret) 
      ensures worker == if empty then Resting else Gating
    {
      hide Inv, QueriesView, CompletionsView;
      StepInv(View(), Worker(ret));
      empty := |queryQueue| == 0;
      QueriesEmpty(queryQueue);
      worker := if empty then Resting else Gating;
    }

    /** 40: parsing */
    method PollFlag(ghost ret: int) returns (busy: bool)
      requires Valid() && worker == Gating
      modifies this`worker
      ensures Valid() && View() == WorkerStep(old(View()), ret) 
      ensures worker == if busy then Resting else Taking
    {
      hide Inv, QueriesView, CompletionsView;
      StepInv(View(), Worker(ret));
      busy := parsing;
      worker := if busy then Resting else Taking;
    }

    /** 42: queryQueue.front(), which is there */
    method TakeFront(ghost ret: int) returns (q: QueryInfo)
      requires Valid() && worker == Taking
      modifies this`worker
      ensures Valid() && View() == WorkerStep(old(View()), ret)
      ensures worker == Executing(QueryView(q)) && KnownKind(q.kind)
    {
      hide Inv, QueriesView, CompletionsView;
      WorkerMay(View());
      StepInv(View(), Worker(ret));
      QueriesEmpty(queryQueue);
      QueriesFront(queryQueue);
      q := queryQueue[0];
      worker := Executing(QueryView(q));
    }

    /** 45: mysql_real_query; the text it is given is live */
    method ExecuteText(q: QueryInfo, ret: int) returns (status: int)
      requires Valid() && worker == Executing(QueryView(q))
      modifies this`worker, this`execs, this`log
      ensures Valid() && View() == WorkerStep(old(View()), ret) && q.query.ptr in heap.live
      ensures status == ret && worker == Recording(QueryView(q), old(execs), ret, Now(old(log)))
    {
      hide Inv, QueriesView, CompletionsView;
      WorkerMay(View());
      StepInv(View(), Worker(ret));
      status := ret;
      worker := Recording(QueryView(q), execs, ret, Now(log));
      execs := execs + 1;
      log := log.(executed := log.executed + [QueryView(q)]);
    }

    /** 45: state = ... */
    method AssignState(status: int, ghost ret: int)
      requires Valid() && worker.Recording? && worker.ret == status
      modifies this`worker, this`state, this`written
      ensures Valid() && View() == WorkerStep(old(View()), ret)
      ensures worker == Judging(old(worker).q, old(worker).stmt, old(worker).ret, old(worker).begun, log.scriptWrites)
    {
      hide Inv, QueriesView, CompletionsView;
      StepInv(View(), Worker(ret));
      state := status;
      written := Executed(worker.stmt, status);
      worker := Judging(worker.q, worker.stmt, worker.ret, worker.begun, log.scriptWrites);
    }

    /** 50: state == 0 */
    method JudgeState(ghost ret: int) returns (passed: bool)
      requires Valid() && worker.Judging?
      modifies this`worker, this`log
      ensures Valid() && View() == WorkerStep(old(View()), ret)
      ensures worker == if passed then Raising(old(worker).q) else Lowering(old(worker).q)
    {
      hide Inv, QueriesView, CompletionsView;
      StepInv(View(), Worker(ret));
      passed := state == 0;
      log := log.(verdicts := log.verdicts
        + [Verdict(worker.q, worker.stmt, worker.ret, state, written, worker.begun, worker.noted, log.scriptWrites)]);
      worker := if passed then Raising(worker.q) else Lowering(worker.q);
    }

    /** 61: parsing = true */
    method RaiseFlag(ghost ret: int)
      requires Valid() && worker.Raising?
      modifies this`worker, this`parsing
      ensures Valid() && View() == WorkerStep(old(View()), ret)
      ensures worker == Pushing(old(worker).q)
    {
      hide Inv, QueriesView, CompletionsView;
      StepInv(View(), Worker(ret));
      parsing := true;
      worker := Pushing(worker.q);
    }

    /** 62: threadQueue.push */
    method PushCompletion(t: ThreadInfo, ghost ret: int)
      requires Valid() && worker.Pushing? && CompletionView(t) == CompletionOf(worker.q) && KnownKind(t.kind)
      modifies this`worker, this`threadQueue
      ensures Valid() && View() == WorkerStep(old(View()), ret)
      ensures worker == Freeing(old(worker).q)
    {
      hide Inv, QueriesView, CompletionsView;
      StepInv(View(), Worker(ret));
      CompletionsBack(threadQueue, t);
      threadQueue := threadQueue + [t];
      worker := Freeing(worker.q);
    }

    /** 66: parsing = false */
    method LowerFlag(ghost ret: int)
      requires Valid() && worker.Lowering?
      modifies this`worker, this`parsing
      ensures Valid() && View() == WorkerStep(old(View()), ret)
      ensures worker == Reporting(old(worker).q)
    {
      hide Inv, QueriesView, CompletionsView;
      StepInv(View(), Worker(ret));
      parsing := false;
      worker := Reporting(worker.q);
    }

    /** 67: Error; the scripts it runs are among the others' steps */
    method ReportError(ghost ret: int)
      requires Valid() && worker.Reporting?
      modifies this`worker
      ensures Valid() && View() == WorkerStep(old(View()), ret)
      ensures worker == Freeing(old(worker).q)
    {
      hide Inv, QueriesView, CompletionsView;
      StepInv(View(), Worker(ret));
      worker := Freeing(worker.q);
    }

    /** 73: SAFE_DELETE of the text, which is live */
    method DeleteText(q: QueryInfo, ghost ret: int)
      requires Valid() && worker == Freeing(QueryView(q))
      modifies this`worker, this`heap
      ensures Valid() && View() == WorkerStep(old(View()), ret) && q.query.ptr in old(heap.live)
      ensures worker == Popping
    {
      hide Inv, QueriesView, CompletionsView;
      WorkerMay(View());
      StepInv(View(), Worker(ret));
      heap := heap.(live := heap.live - {q.query.ptr}, freed := heap.freed + [q.query.ptr]);
      worker := Popping;
    }

    /** 75: queryQueue.pop(), of a queue that is not empty */
    method PopQuery(ghost ret: int)
      requires Valid() && worker == Popping
      modifies this`worker, this`queryQueue
      ensures Valid() && View() == WorkerStep(old(View()), ret) && old(queryQueue) != []
      ensures worker == Resting
    {
      hide Inv, QueriesView, CompletionsView;
      WorkerMay(View());
      StepInv(View(), Worker(ret));
      QueriesEmpty(queryQueue);
      QueriesFront(queryQueue);
      queryQueue := queryQueue[1..];
      worker := Resting;
    }

    /** Lines 40 to 76 for one handle, with anything at all happening after each statement. */
    method QueryThreadVisit(ret: int, others: seq<seq<Choice>>, uninitialised: ThreadInfo)
      requires Valid() && worker == Resting
      requires |others| == ITEM_STEPS && forall k :: 0 <= k < |others| ==> NoWorker(others[k])
      modifies this
      ensures Valid() && worker == Resting && View() == Visit(old(View()), ret, others)
    {
      hide Inv, WorkerStep, Run, Visit, QueriesView, CompletionsView, Valid, View;
      assert others[0..] == others;
      ghost var before := View();
      Arrive(ret);
      Between(before, ret, others, 0);
      before := View();
      var empty := PollQueue(ret);
      Between(before, ret, others, 1);
      if empty { return; }
      before := View();
      var busy := PollFlag(ret);
      Between(before, ret, others, 2);
      if busy { return; }
      before := View();
      var q := TakeFront(ret);
      Between(before, ret, others, 3);
      RunItem(q, ret, others, uninitialised);
    }

    /** Lines 45 to 75. */
    method RunItem(q: QueryInfo, ret: int, others: seq<seq<Choice>>, uninitialised: ThreadInfo)
      requires Valid() && worker == Executing(QueryView(q)) && KnownKind(q.kind)
      requires |others| == ITEM_STEPS && forall k :: 0 <= k < |others| ==> NoWorker(others[k])
      modifies this
      ensures Valid() && worker == Resting && View() == Visit(old(View()), ret, others[4..])
    {
      hide Inv, WorkerStep, Run, Visit, QueriesView, CompletionsView, Valid, View;
      ghost var before := View();
      var status := ExecuteText(q, ret);
      Between(before, ret, others, 4);
      before := View();
      AssignState(status, ret);
      Between(before, ret, others, 5);
      before := View();
      var passed := JudgeState(ret);
      Between(before, ret, others, 6);
      if passed {
        PublishSuccess(q, ret, others, uninitialised);
      } else {
        PublishFailure(ret, others);
      }
      before := View();
      DeleteText(q, ret);
      Between(before, ret, others, 9);
      before := View();
      PopQuery(ret);
      Between(before, ret, others, 10);
    }

    /** Lines 52 to 62. */
    method PublishSuccess(q: QueryInfo, ret: int, others: seq<seq<Choice>>, uninitialised: ThreadInfo)
      requires Valid() && worker == Raising(QueryView(q)) && KnownKind(q.kind)
      requires |others| == ITEM_STEPS && forall k :: 0 <= k < |others| ==> NoWorker(others[k])
      modifies this
      ensures Valid() && worker == Freeing(QueryView(q))
      ensures Visit(old(View()), ret, others[7..]) == Visit(View(), ret, others[9..])
    {
      hide Inv, WorkerStep, Run, Visit, QueriesView, CompletionsView;
      var t := CopyFields(q, uninitialised);
      ghost var before := View();
      RaiseFlag(ret);
      Between(before, ret, others, 7);
      before := View();
      PushCompletion(t, ret);
      Between(before, ret, others, 8);
    }

    /** Lines 66 and 67. */
    method PublishFailure(ret: int, others: seq<seq<Choice>>)
      requires Valid() && worker.Lowering?
      requires |others| == ITEM_STEPS && forall k :: 0 <= k < |others| ==> NoWorker(others[k])
      modifies this
      ensures Valid() && worker == Freeing(old(worker).q)
      ensures Visit(old(View()), ret, others[7..]) == Visit(View(), ret, others[9..])
    {
      hide Inv, WorkerStep, Run, Visit, QueriesView, CompletionsView;
      ghost var before := View();
      LowerFlag(ret);
      Between(before, ret, others, 7);
      before := View();
      ReportError(ret);
      Between(before, ret, others, 8);
    }

    // ---- the atomic steps of the game thread -------------------------------------------------

    /** After the k-th step of a visit of the game thread, which started in `before`. */
    method TickBetween(ghost before: Conn, scripts: seq<Script>, others: seq<seq<Choice>>, k: nat)
      requires Valid() && k < |others| && NoTick(others[k]) && View() == TickStep(before, scripts)
      modifies this
      ensures Valid() && tick == old(tick)
      ensures TickVisit(before, scripts, others[k..])
        == if tick.Idle? then View() else TickVisit(View(), scripts, others[k + 1..])
    {
      hide Inv, TickStep, Run, QueriesView, CompletionsView, TickVisit;
      TickVisitUnfold(before, scripts, others, k);
      OthersKeepThread(View(), others[k]);
      Yield(others[k]);
    }

    method TickArrive(ghost scripts: seq<Script>)
      requires Valid() && tick == Idle
      modifies this`tick
      ensures Valid() && View() == TickStep(old(View()), scripts) && tick == Checking
    {
      hide Inv, QueriesView, CompletionsView;
      StepInv(View(), Tick(scripts));
      tick := Checking;
    }

    /** 89: threadQueue.empty() */
    method CheckQueue(ghost scripts: seq<Script>) returns (empty: bool)
      requires Valid() && tick == Checking
      modifies this`tick
      ensures Valid() && View() == TickStep(old(View()), scripts)
      ensures tick == if empty then Idle else Confirming
    {
      hide Inv, QueriesView, CompletionsView;
      StepInv(View(), Tick(scripts));
      empty := |threadQueue| == 0;
      CompletionsEmpty(threadQueue);
      tick := if empty then Idle else Confirming;
    }

    /** 89: parsing */
    method CheckFlag(ghost scripts: seq<Script>) returns (up: bool)
      requires Valid() && tick == Confirming
      modifies this`tick
      ensures Valid() && View() == TickStep(old(View()), scripts)
      ensures tick == if up then Reading else Idle
    {
      hide Inv, QueriesView, CompletionsView;
      StepInv(View(), Tick(scripts));
      up := parsing;
      tick := if up then Reading else Idle;
    }

    /** The pointer member of a completion, if its type says that it is one. */
    static function Pointer(t: ThreadInfo): Option<Str> {
      if t.kind == TYPE_ID then None else Some(t.extraVars)
    }

    /** 91: threadQueue.front(), which is there */
    method ReadFront(scripts: seq<Script>) returns (t: ThreadInfo)
      requires Valid() && tick == Reading
      modifies this`tick
      ensures Valid() && View() == TickStep(old(View()), scripts)
      ensures KnownKind(t.kind) && tick == Calling(CompletionView(t), scripts, scripts, Pointer(t))
    {
      hide Inv, QueriesView, CompletionsView;
      TickMay(View());
      StepInv(View(), Tick(scripts));
      CompletionsEmpty(threadQueue);
      CompletionsFront(threadQueue);
      t := threadQueue[0];
      tick := Calling(CompletionView(t), scripts, scripts, Pointer(t));
    }

    /** 97, 99, 116: this script does not define the callback */
    method SkipScript(ghost scripts: seq<Script>)
      requires Valid() && tick.Calling? && tick.rest != [] && !Subscribes(tick.rest[0], tick.c)
      modifies this`tick
      ensures Valid() && View() == TickStep(old(View()), scripts)
      ensures tick == Calling(old(tick).c, old(tick).all, old(tick).rest[1..], old(tick).vars)
    {
      hide Inv, QueriesView, CompletionsView;
      StepInv(View(), Tick(scripts));
      tick := Calling(tick.c, tick.all, tick.rest[1..], tick.vars);
    }

    /** 101 to 105: push handle, text and result id, and call the script */
    method CallOnQueryArray(a: Script, t: ThreadInfo, extraVars: Option<Str>, ghost scripts: seq<Script>)
      requires Valid() && tick.Calling? && tick.rest != [] && tick.rest[0] == a && a.onQueryArray
      requires t.kind == TYPE_ARRAY && tick.c == CompletionView(t) && tick.vars == extraVars
      modifies this`tick, this`log
      ensures Valid() && View() == TickStep(old(View()), scripts)
      ensures extraVars.Some? ==> extraVars.value.ptr in heap.live
      ensures tick == Within(old(tick).c, old(tick).all, old(tick).rest, extraVars)
    {
      hide Inv, QueriesView, CompletionsView;
      TickMay(View());
      StepInv(View(), Tick(scripts));
      var pushed := [Num(id)];
      pushed := pushed + [if extraVars.Some? then Text(extraVars.value.content) else NullText];
      pushed := pushed + [Num(t.resultId)];
      assert pushed == [Num(id), if extraVars.Some? then Text(extraVars.value.content) else NullText, Num(t.resultId)];
      log := log.(calls := log.calls + [Call(a.amx, "OnMysqlQueryArray", Reverse(pushed))]);
      tick := Within(tick.c, tick.all, tick.rest, tick.vars);
    }

    /** 118 to 122: push handle, spare id and result id, and call the script */
    method CallOnQuery(a: Script, t: ThreadInfo, ghost scripts: seq<Script>)
      requires Valid() && tick.Calling? && tick.rest != [] && tick.rest[0] == a && a.onQuery
      requires t.kind == TYPE_ID && tick.c == CompletionView(t) && tick.vars == None
      modifies this`tick, this`log
      ensures Valid() && View() == TickStep(old(View()), scripts)
      ensures tick == Within(old(tick).c, old(tick).all, old(tick).rest, None)
    {
      hide Inv, QueriesView, CompletionsView;
      StepInv(View(), Tick(scripts));
      var pushed := [Num(id)];
      pushed := pushed + [Num(t.extraId)];
      pushed := pushed + [Num(t.resultId)];
      assert pushed == [Num(id), Num(t.extraId), Num(t.resultId)];
      log := log.(calls := log.calls + [Call(a.amx, "OnMysqlQuery", Reverse(pushed))]);
      tick := Within(tick.c, tick.all, tick.rest, tick.vars);
    }

    /** 111: SAFE_DELETE of the callback text, which is live the one time it is not null */
    method AfterScript(extraVars: Option<Str>, ghost scripts: seq<Script>)
      requires Valid() && tick.Within? && tick.vars == extraVars
      modifies this`tick, this`heap
      ensures Valid() && View() == TickStep(old(View()), scripts)
      ensures extraVars.Some? ==> extraVars.value.ptr in old(heap.live)
      ensures old(tick).rest != [] && tick == Calling(old(tick).c, old(tick).all, old(tick).rest[1..], None)
    {
      hide Inv, QueriesView, CompletionsView;
      TickMay(View());
      StepInv(View(), Tick(scripts));
      if extraVars.Some? {
        var p := extraVars.value.ptr;
        heap := heap.(live := heap.live - {p}, freed := heap.freed + [p]);
      }
      tick := Calling(tick.c, tick.all, tick.rest[1..], None);
    }

    method EndDispatch(ghost scripts: seq<Script>)
      requires Valid() && tick.Calling? && tick.rest == []
      modifies this`tick, this`log
      ensures Valid() && View() == TickStep(old(View()), scripts) && tick == Dequeuing
    {
      hide Inv, QueriesView, CompletionsView;
      StepInv(View(), Tick(scripts));
      log := log.(delivered := log.delivered + [Delivery(tick.c, tick.all)]);
      tick := Dequeuing;
    }

    /** 130: threadQueue.pop(), of a queue that is not empty */
    method PopCompletion(ghost scripts: seq<Script>)
      requires Valid() && tick == Dequeuing
      modifies this`tick, this`threadQueue
      ensures Valid() && View() == TickStep(old(View()), scripts) && tick == Clearing && old(threadQueue) != []
    {
      hide Inv, QueriesView, CompletionsView;
      TickMay(View());
      StepInv(View(), Tick(scripts));
      CompletionsEmpty(threadQueue);
      CompletionsFront(threadQueue);
      threadQueue := threadQueue[1..];
      tick := Clearing;
    }

    /** 131: parsing = false */
    method ClearFlag(ghost scripts: seq<Script>)
      requires Valid() && tick == Clearing
      modifies this`tick, this`parsing
      ensures Valid() && View() == TickStep(old(View()), scripts) && tick == Idle
    {
      hide Inv, QueriesView, CompletionsView;
      StepInv(View(), Tick(scripts));
      parsing := false;
      tick := Idle;
    }

    /** Lines 89 to 132 for one handle, with anything at all happening after each statement,
        the calls made by the callback included. */
    method ProcessTickVisit(scripts: seq<Script>, others: seq<seq<Choice>>)
      requires Valid() && tick == Idle
      requires |others| >= TickLength(|scripts|) && forall k :: 0 <= k < |others| ==> NoTick(others[k])
      modifies this
      ensures Valid() && tick == Idle && View() == TickVisit(old(View()), scripts, others)
    {
      hide Inv, TickStep, Run, QueriesView, CompletionsView, TickVisit;
      assert others[0..] == others;
      ghost var before := View();
      TickArrive(scripts);
      TickBetween(before, scripts, others, 0);
      before := View();
      var empty := CheckQueue(scripts);
      TickBetween(before, scripts, others, 1);
      if empty { return; }
      before := View();
      var up := CheckFlag(scripts);
      TickBetween(before, scripts, others, 2);
      if !up { return; }
      Deliver(scripts, others);
    }

    /** Lines 91 to 131. */
    method Deliver(scripts: seq<Script>, others: seq<seq<Choice>>)
      requires Valid() && tick == Reading
      requires |others| >= TickLength(|scripts|) && forall k :: 0 <= k < |others| ==> NoTick(others[k])
      modifies this
      ensures Valid() && tick == Idle && View() == TickVisit(old(View()), scripts, others[3..])
    {
      hide Inv, TickStep, Run, QueriesView, CompletionsView, TickVisit, Valid, View;
      ghost var before := View();
      var t := ReadFront(scripts);
      TickBetween(before, scripts, others, 3);
      var k := DispatchAll(t, scripts, others);
      before := View();
      EndDispatch(scripts);
      TickBetween(before, scripts, others, k);
      before := View();
      PopCompletion(scripts);
      TickBetween(before, scripts, others, k + 1);
      before := View();
      ClearFlag(scripts);
      TickBetween(before, scripts, others, k + 2);
    }

    /** Lines 95 to 128: the loop over the loaded scripts. */
    method DispatchAll(t: ThreadInfo, scripts: seq<Script>, others: seq<seq<Choice>>) returns (k: nat)
      requires Valid() && KnownKind(t.kind) && tick == Calling(CompletionView(t), scripts, scripts, Pointer(t))
      requires |others| >= TickLength(|scripts|) && forall k :: 0 <= k < |others| ==> NoTick(others[k])
      modifies this
      ensures Valid() && tick.Calling? && tick.rest == [] && 4 <= k <= 4 + 2 * |scripts|
      ensures TickVisit(View(), scripts, others[k..]) == TickVisit(old(View()), scripts, others[4..])
    {
      hide Inv, TickStep, Run, QueriesView, CompletionsView, TickVisit, Subscribes;
      var extraVars := Pointer(t);
      var i := 0;
      k := 4;
      while i < |scripts|
        invariant 0 <= i <= |scripts| && 4 <= k <= 4 + 2 * i
        invariant Valid() && tick == Calling(CompletionView(t), scripts, scripts[i..], extraVars)
        invariant t.kind == TYPE_ID ==> extraVars == None
        invariant TickVisit(View(), scripts, others[k..]) == TickVisit(old(View()), scripts, others[4..])
      {
        assert scripts[i..][0] == scripts[i] && scripts[i..][1..] == scripts[i + 1..];
        k, extraVars := DispatchOne(t, scripts, i, extraVars, others, k);
        i := i + 1;
      }
    }

    /** Lines 97 to 127 for one script. */
    method DispatchOne(t: ThreadInfo, scripts: seq<Script>, i: nat, extraVars: Option<Str>,
                       others: seq<seq<Choice>>, at: nat)
      returns (k: nat, vars: Option<Str>)
      requires i < |scripts| && at + 2 <= |others| && forall k :: 0 <= k < |others| ==> NoTick(others[k])
      requires Valid() && KnownKind(t.kind) && (t.kind == TYPE_ID ==> extraVars == None)
      requires tick == Calling(CompletionView(t), scripts, scripts[i..], extraVars)
      modifies this
      ensures at + 1 <= k <= at + 2 && (t.kind == TYPE_ID ==> vars == None)
      ensures Valid() && tick == Calling(CompletionView(t), scripts, scripts[i + 1..], vars)
      ensures TickVisit(View(), scripts, others[k..]) == TickVisit(old(View()), scripts, others[at..])
    {
      hide Inv, TickStep, Run, QueriesView, CompletionsView, TickVisit;
      assert scripts[i..][0] == scripts[i] && scripts[i..][1..] == scripts[i + 1..];
      vars, k := extraVars, at + 1;
      ghost var before := View();
      if t.kind == TYPE_ARRAY {
        if scripts[i].onQueryArray {
          CallOnQueryArray(scripts[i], t, extraVars, scripts);
          TickBetween(before, scripts, others, at);
          before := View();
          AfterScript(extraVars, scripts);
          TickBetween(before, scripts, others, at + 1);
          vars, k := None, at + 2;
        } else {
          SkipScript(scripts);
          TickBetween(before, scripts, others, at);
        }
      } else if t.kind == TYPE_ID {
        if scripts[i].onQuery {
          CallOnQuery(scripts[i], t, scripts);
          TickBetween(before, scripts, others, at);
          before := View();
          AfterScript(None, scripts);
          TickBetween(before, scripts, others, at + 1);
          k := at + 2;
        } else {
          SkipScript(scripts);
          TickBetween(before, scripts, others, at);
        }
      }
    }

    // ---- results -------------------------------------------------------------------------------

    /** mysql_free_result, where it is called under `if ( result )` */
    method ReleaseResult()
      modifies this`result, this`freed
      ensures SlotView() == Release(old(SlotView()))
      ensures View() == old(View()).(slot := Release(old(View()).slot))
    {
      hide QueriesView, CompletionsView;
      if result.Some? {
        freed := freed + [result.value.id];
        result := None;
      }
    }

    /** MySQL::query; `ret` is the server's status if it runs now */
    method Query(query: Str, resultid: int, extra: int, ret: int) returns (reply: int)
      modifies this
      ensures View() == if resultid != -1 then Submit(old(View()), Base.Query.Query(query, resultid, Id(extra)))
                        else RunNow(old(View()), Base.Query.Query(query, resultid, Id(extra)), ret)
      ensures QueryKinds(old(queryQueue)) ==> QueryKinds(queryQueue)
      ensures threadQueue == old(threadQueue)
      ensures reply == if resultid != -1 then 1 else 0
    {
      ReleaseKeepsExecs(View().slot);
      hide QueriesView, CompletionsView, Release, View, SlotView, QueryKinds;
      ReleaseResult();
      if resultid != -1 {
        var info := QueryInfo(query, resultid, extra, query, TYPE_ID);
        Enqueue(info);
        return 1;
      }
      RunQuery(Base.Query.Query(query, resultid, Id(extra)), ret);
      if state != 0 { return 0; }
      return state;
    }

    /** MySQL::query_array */
    method QueryArray(query: Str, resultid: int, extra: Str, ret: int) returns (reply: int)
      modifies this
      ensures View() == if resultid != -1 then Submit(old(View()), Base.Query.Query(query, resultid, Vars(extra)))
                        else RunNow(old(View()), Base.Query.Query(query, resultid, Vars(extra)), ret)
      ensures QueryKinds(old(queryQueue)) ==> QueryKinds(queryQueue)
      ensures threadQueue == old(threadQueue)
      ensures reply == if resultid != -1 || ret == 0 then 1 else 0
    {
      ReleaseKeepsExecs(View().slot);
      hide QueriesView, CompletionsView, Release, View, SlotView, QueryKinds;
      ReleaseResult();
      if resultid != -1 {
        var info := QueryInfo(query, resultid, resultid, extra, TYPE_ARRAY);
        Enqueue(info);
        return 1;
      }
      RunQuery(Base.Query.Query(query, resultid, Vars(extra)), ret);
      if state != 0 { return 0; }
      return 1;
    }

    method Enqueue(info: QueryInfo)
      requires KnownKind(info.kind)
      modifies this`queryQueue, this`log
      ensures QueryKinds(old(queryQueue)) ==> QueryKinds(queryQueue)
      ensures var v, q := old(View()), QueryView(info);
        View() == v.(queryQueue := v.queryQueue + [q], log := v.log.(enqueued := v.log.enqueued + [q]))
    {
      QueriesBack(queryQueue, info);
      hide QueriesView, CompletionsView;
      queryQueue := queryQueue + [info];
      log := log.(enqueued := log.enqueued + [QueryView(info)]);
    }

    /** state = mysql_real_query( ... ), then SAFE_DELETE( query ) */
    method RunQuery(q: Base.Query, ret: int)
      modifies this`state, this`execs, this`written, this`log, this`heap, this`fault
      ensures state == ret
      ensures var v, p := old(View()), q.text.ptr;
        View() == v.(
          slot := Record(Execute(v.slot), v.slot.execs, ret),
          log := v.log.(scriptWrites := v.log.scriptWrites + 1, atOnce := v.log.atOnce + [q]),
          heap := v.heap.(live := v.heap.live - {p}, freed := v.heap.freed + [p]),
          fault := v.fault || p !in v.heap.live)
    {
      AssignStatus(ret);
      NoteAtOnce(q);
      hide View;
      DropText(q.text.ptr);
    }

    method AssignStatus(ret: int)
      modifies this`state, this`execs, this`written
      ensures state == ret
      ensures var v := old(View()); View() == v.(slot := Record(Execute(v.slot), v.slot.execs, ret))
    {
      hide QueriesView, CompletionsView;
      written := Executed(execs, ret);
      execs := execs + 1;
      state := ret;
    }

    method NoteAtOnce(q: Base.Query)
      modifies this`log
      ensures var v := old(View());
        View() == v.(log := v.log.(scriptWrites := v.log.scriptWrites + 1, atOnce := v.log.atOnce + [q]))
    {
      hide QueriesView, CompletionsView;
      log := log.(scriptWrites := log.scriptWrites + 1, atOnce := log.atOnce + [q]);
    }

    method DropText(p: nat)
      modifies this`heap, this`fault
      ensures var v := old(View());
        View() == v.(heap := v.heap.(live := v.heap.live - {p}, freed := v.heap.freed + [p]),
                     fault := v.fault || p !in v.heap.live)
    {
      hide QueriesView, CompletionsView;
      fault := fault || p !in heap.live;
      heap := heap.(live := heap.live - {p}, freed := heap.freed + [p]);
    }

    /** MySQL::store_result; `got` is the library's answer */
    method Store(got: Option<Table>) returns (reply: int)
      modifies this`result, this`obtained
      ensures SlotView() == StoreResult(old(SlotView()), got).0
      ensures reply == if StoreResult(old(SlotView()), got).1 == Stored then 1 else 0
    {
      if result.Some? { return 0; }
      if state != 0 { return 0; }
      if got.Some? {
        result := Some(ResultSet(obtained, if execs == 0 then 0 else execs - 1, got.value, 0));
        obtained := obtained + 1;
      }
      if result.None? { return 0; }
      return 1;
    }

    /** MySQL::free_result */
    method FreeStored() returns (reply: int)
      modifies this`result, this`freed, this`state, this`written, this`row, this`log
      ensures SlotView() == FreeResult(old(SlotView())) && reply == 1
      ensures log == old(log).(scriptWrites := old(log).scriptWrites + 1)
    {
      ReleaseResult();
      state := -1;
      written := Freed;
      log := log.(scriptWrites := log.scriptWrites + 1);
      if row.Some? { row := None; }
      return 1;
    }

    /** MySQL::close */
    method CloseConnection()
      modifies this`result, this`freed, this`row, this`connected
      ensures SlotView() == Close(old(SlotView())) && !connected
    {
      ReleaseResult();
      if row.Some? { row := None; }
      connected := false;
    }

    /** row = mysql_fetch_row( result ) */
    method FetchNext()
      requires result.Some?
      modifies this`result, this`row
      ensures SlotView() == Advance(old(SlotView()))
      ensures row.Some? ==> row.value.owner == result.value.id && row.value.index < |result.value.table.rows|
    {
      var r := result.value;
      if r.pos < |r.table.rows| {
        row := Some(RowRef(r.id, r.pos));
        result := Some(r.(pos := r.pos + 1));
      } else {
        row := None;
      }
    }

    /** MySQL::fetch_row_data */
    method FetchData() returns (reply: int)
      modifies this`result, this`row
      ensures SlotView() == Cursor(old(SlotView()), FetchRowData).0
      ensures reply == if Cursor(old(SlotView()), FetchRowData).1.Seen? then 1 else 0
    {
      if result.None? { return 0; }
      FetchNext();
      if row.Some? { return 1; }
      return 0;
    }

    /** MySQL::fetch_string, and the text that fetch_int and fetch_float convert: the first cell */
    method FetchFirst(call: CursorCall) returns (reply: CellReply)
      requires call.FetchString? || call.FetchInt? || call.FetchFloat?
      modifies this`result, this`row
      ensures SlotView() == Cursor(old(SlotView()), call).0
      ensures var sight := Cursor(old(SlotView()), call).1;
        && (!sight.Seen? ==> reply == NoCell)
        && (sight.Seen? ==> |sight.row| > 0 && Reads(reply, sight.row[0]))
      ensures var sight := Cursor(old(SlotView()), call).1;
        sight.Seen? ==>
          && (sight.row[0].None? ==> reply == NoCell)
          && (sight.row[0].Some? && '\0' !in sight.row[0].value ==> reply == Cell(sight.row[0].value))
    {
      if result.None? { return NoCell; }
      FetchNext();
      if row.Some? { return CellOf(result.value.table.rows[row.value.index][0]); }
      return NoCell;
    }

    /** MySQL::fetch_field_num.  The column number is not checked. */
    method FetchColumn(fieldnum: int) returns (reply: CellReply)
      modifies this`result, this`row
      ensures SlotView() == Cursor(old(SlotView()), FetchFieldNum(fieldnum)).0
      ensures match Cursor(old(SlotView()), FetchFieldNum(fieldnum)).1
              case Seen(r) => if 0 <= fieldnum < |r| then Reads(reply, r[fieldnum]) else reply == Outside
              case Stale => reply == Dangling
              case _ => reply == NoCell
      ensures var sight := Cursor(old(SlotView()), FetchFieldNum(fieldnum)).1;
        sight.Seen? && 0 <= fieldnum < |sight.row| ==>
          var cell := sight.row[fieldnum];
          && (cell.None? ==> reply == NoCell)
          && (cell.Some? && '\0' !in cell.value ==> reply == Cell(cell.value))
    {
      if result.None? { return NoCell; }
      if row.None? { FetchNext(); }
      if row.Some? { reply := ReadCell(fieldnum); return; }
      return NoCell;
    }

    /** row[ i ], which is in memory given back if `row` belongs to an earlier result */
    method ReadCell(i: int) returns (reply: CellReply)
      requires result.Some? && row.Some?
      ensures match Look(SlotView())
              case Seen(r) => |r| == |result.value.table.names| && if 0 <= i < |r| then Reads(reply, r[i]) else reply == Outside
              case _ => reply == Dangling
    {
      var r := result.value;
      if row.value.owner == r.id && row.value.index < |r.table.rows| {
        var cells := r.table.rows[row.value.index];
        reply := if 0 <= i < |cells| then CellOf(cells[i]) else Outside;
      } else {
        reply := Dangling;
      }
    }

    /** MySQL::fetch_field: the first column of that name */
    method FetchNamed(fieldname: string) returns (reply: CellReply)
      modifies this`result, this`row
      ensures SlotView() == Cursor(old(SlotView()), FetchField(fieldname)).0
      ensures result.None? ==> reply == NoCell
      ensures result.Some? ==>
        var names := result.value.table.names;
        var sight := Cursor(old(SlotView()), FetchField(fieldname)).1;
        && (fieldname !in names || sight.NoRow? ==> reply == NoCell)
        && (forall i :: 0 <= i < |names| && names[i] == fieldname && fieldname !in names[..i] ==>
              && (sight.Seen? ==> i < |sight.row| && Reads(reply, sight.row[i]))
              && (sight.Stale? ==> reply == Dangling)
              && (sight.Seen? && sight.row[i].None? ==> reply == NoCell)
              && (sight.Seen? && sight.row[i].Some? && '\0' !in sight.row[i].value ==> reply == Cell(sight.row[i].value)))
    {
      if result.None? { return NoCell; }
      if row.None? { FetchNext(); }
      if row.Some? {
        var names := result.value.table.names;
        var i := 0;
        while i < |names|
          invariant 0 <= i <= |names| && fieldname !in names[..i]
        {
          if names[i] == fieldname {
            reply := ReadCell(i);
            return;
          }
          i := i + 1;
        }
        return NoCell;
      }
      return NoCell;
    }

    /** MySQL::data_seek */
    method Seek(k: int) returns (reply: int)
      modifies this`result
      ensures SlotView() == Cursor(old(SlotView()), DataSeek(k)).0
      ensures reply == if old(result).Some? then 1 else 0
    {
      if result.None? { return 0; }
      var n := |result.value.table.rows|;
      result := Some(result.value.(pos := if 0 <= k < n then k else n));
      return 1;
    }

    /** MySQL::fetch_row: the next row as text, unless the buffer is too small for it */
    method FetchText(splitter: string) returns (text: Option<string>, overrun: bool)
      requires NulFree(splitter)
      modifies this`result, this`row
      ensures SlotView() == Cursor(old(SlotView()), FetchRow).0
      ensures match Cursor(old(SlotView()), FetchRow).1
              case Seen(r) =>
                && overrun == !Fits(r, splitter)
                && text == if overrun then None else Some(Join(Texts(r), splitter))
              case _ => text == None && !overrun
    {
      hide Fits, Join, Texts;
      if result.None? { return None, false; }
      FetchNext();
      if row.None? { return None, false; }
      text := PrintRow(result.value.table.rows[row.value.index], splitter);
      overrun := text.None?;
    }

    // ---- natives -----------------------------------------------------------------------------

    /** The strings a native copies from the script. */
    method AllocateStrings(strings: seq<Str>, next: nat)
      modifies this`heap
      ensures View() == Allocate(old(View()), strings, next)
    {
      hide QueriesView, CompletionsView;
      heap := heap.(live := heap.live + (set x | x in strings :: x.ptr), next := next);
    }

    /** n_mysql_query */
    method NativeQuery(sql: string, resultId: int, spareId: int, ret: int, address: nat) returns (reply: int)
      requires Valid()
      modifies this
      ensures Valid() && View() == NativeStep(old(View()), MysqlQuery(sql, resultId, spareId, ret), address)
      ensures reply == if connected && resultId != -1 then 1 else 0
    {
      hide Inv, QueriesView, CompletionsView, GetString, Submit, RunNow, Allocate;
      StepInv(View(), Native(MysqlQuery(sql, resultId, spareId, ret), address));
      if !connected { return 0; }
      var p := if address < heap.next then heap.next else address;
      var query := Str(p, GetString(sql));
      AllocateStrings([query], p + 2);
      reply := Query(query, resultId, spareId, ret);
      KeepsConnected(old(View()), MysqlQuery(sql, resultId, spareId, ret), address);
    }

    /** n_mysql_query_array */
    method NativeQueryArray(sql: string, resultId: int, extravars: string, ret: int, address: nat) returns (reply: int)
      requires Valid()
      modifies this
      ensures Valid() && View() == NativeStep(old(View()), MysqlQueryArray(sql, resultId, extravars, ret), address)
      ensures reply == if connected && (resultId != -1 || ret == 0) then 1 else 0
    {
      hide Inv, QueriesView, CompletionsView, GetString, Submit, RunNow, Allocate;
      StepInv(View(), Native(MysqlQueryArray(sql, resultId, extravars, ret), address));
      if !connected { return 0; }
      var p := if address < heap.next then heap.next else address;
      var query, extra := Str(p, GetString(sql)), Str(p + 1, GetString(extravars));
      AllocateStrings([query, extra], p + 2);
      reply := QueryArray(query, resultId, extra, ret);
      KeepsConnected(old(View()), MysqlQueryArray(sql, resultId, extravars, ret), address);
    }

    /** n_mysql_store_result */
    method NativeStoreResult(got: Option<Table>, address: nat) returns (reply: int)
      requires Valid()
      modifies this
      ensures Valid() && View() == NativeStep(old(View()), MysqlStoreResult(got), address)
      ensures reply == if connected && StoreResult(old(SlotView()), got).1 == Stored then 1 else 0
    {
      hide Inv, QueriesView, CompletionsView;
      StepInv(View(), Native(MysqlStoreResult(got), address));
      if !connected { return 0; }
      reply := Store(got);
    }

    /** n_mysql_free_result */
    method NativeFreeResult(address: nat) returns (reply: int)
      requires Valid()
      modifies this
      ensures Valid() && View() == NativeStep(old(View()), MysqlFreeResult, address)
      ensures reply == if connected then 1 else 0
    {
      hide Inv, QueriesView, CompletionsView;
      StepInv(View(), Native(MysqlFreeResult, address));
      if !connected { return 0; }
      reply := FreeStored();
    }
  }

  lemma KeepsConnected(s: Conn, n: NativeCall, address: nat)
    requires !n.Connect?
    ensures NativeStep(s, n, address).connected == s.connected
  {
    hide GetString, Release, StoreResult, Cursor, FreeResult, QueryNow;
  }
}
