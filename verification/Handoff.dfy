/** One connection handle shared by the query thread and the game thread, as a machine of
    atomic steps (MySQL/Thread.cpp).  The two threads hold no lock: every access to a queue,
    to `parsing` or to `state` is one step, in the order of the source, and any step of the
    other thread or of a script may fall between two of them. */
module Handoff {
  import opened Base
  import opened Results

  /** How many script writes to `state`, and among them unqueued queries, there had been. */
  datatype Moment = Moment(writes: nat, asked: nat)

  /** Where the query thread is within lines 40-75 for this handle. */
  datatype WorkerPc =
    | Resting                                                   // not at this handle
    | Polling                                                   // 40: queryQueue.empty()
    | Gating                                                    // 40: parsing
    | Taking                                                    // 42: queryQueue.front()
    | Executing(q: Query)                                       // 45: mysql_real_query
    | Recording(q: Query, stmt: nat, ret: int, begun: Moment)   // 45: state = ...
    | Judging(q: Query, stmt: nat, ret: int, begun: Moment, noted: nat)  // 50: state == 0
    | Raising(q: Query)                                         // 61: parsing = true
    | Pushing(q: Query)                                         // 62: threadQueue.push
    | Lowering(q: Query)                                        // 66: parsing = false
    | Reporting(q: Query)                                       // 67: Error
    | Freeing(q: Query)                                         // 73: delete the text
    | Popping                                                   // 75: queryQueue.pop()

  /** Where the game thread is within lines 89-131 for this handle. */
  datatype TickPc =
    | Idle                                                      // not at this handle
    | Checking                                                  // 89: threadQueue.empty()
    | Confirming                                                // 89: parsing
    | Reading                                                   // 91: threadQueue.front()
    | Calling(c: Completion, all: seq<Script>, rest: seq<Script>, vars: Option<Str>)  // 95-122
    | Within(c: Completion, all: seq<Script>, rest: seq<Script>, vars: Option<Str>)   // 105-111
    | Dequeuing                                                 // 130: threadQueue.pop()
    | Clearing                                                  // 131: parsing = false

  /** A loaded script and the callbacks it defines. */
  datatype Script = Script(amx: nat, onQuery: bool, onQueryArray: bool)

  datatype Arg = Num(n: int) | Text(s: string) | NullText

  /** A callback as the script sees it: its parameters from first to last. */
  datatype Call = Call(amx: nat, public: string, args: seq<Arg>)

  /** The judgement at line 50: the statement's own status, the value of `state` found there,
      who had written it, what scripts had done at the execution, and how many script writes
      to `state` there had been at the assignment and at the judgement. */
  datatype Verdict = Verdict(q: Query, stmt: nat, ret: int, seen: int, writer: Write, begun: Moment, noted: nat, found: nat)

  datatype Delivery = Delivery(c: Completion, scripts: seq<Script>)

  /** Allocations made for this handle.  Identities are never reused. */
  datatype Heap = Heap(live: set<nat>, next: nat, freed: seq<nat>)

  /** What happened so far; `atOnce` are the queries that were run without being queued. */
  datatype Log = Log(
    enqueued: seq<Query>, executed: seq<Query>, verdicts: seq<Verdict>,
    delivered: seq<Delivery>, calls: seq<Call>, scriptWrites: nat, atOnce: seq<Query>)

  function Now(log: Log): Moment {
    Moment(log.scriptWrites, |log.atOnce|)
  }

  datatype Conn = Conn(
    id: nat, mysql: bool, connected: bool,
    queryQueue: seq<Query>, threadQueue: seq<Completion>, parsing: bool, slot: Slot,
    worker: WorkerPc, tick: TickPc,
    heap: Heap, log: Log, fault: bool)

  /** A new object; `mysql` tells whether the library could be initialised. */
  function New(id: nat, mysql: bool, next: nat): Conn {
    Conn(id, mysql, false, [], [], false, FRESH, Resting, Idle,
         Heap({}, next, []), Log([], [], [], [], [], 0, []), false)
  }

  // ---- heap ------------------------------------------------------------------------------

  /** Deleting or following a pointer that is not live is undefined: it sets `fault`. */
  function Free(s: Conn, p: nat): Conn {
    s.(heap := s.heap.(live := s.heap.live - {p}, freed := s.heap.freed + [p]),
       fault := s.fault || p !in s.heap.live)
  }

  function Follow(s: Conn, p: nat): Conn {
    s.(fault := s.fault || p !in s.heap.live)
  }

  // ---- the query thread ------------------------------------------------------------------

  /** `ret` is the status the server gives if this step is the execution. */
  function WorkerStep(s: Conn, ret: int): Conn {
    match s.worker
    case Resting => s.(worker := Polling)
    case Polling => s.(worker := if s.queryQueue == [] then Resting else Gating)
    case Gating => s.(worker := if s.parsing then Resting else Taking)
    case Taking =>
      if s.queryQueue == [] then s.(fault := true)
      else s.(worker := Executing(s.queryQueue[0]))
    case Executing(q) =>
      Follow(s, q.text.ptr).(slot := Execute(s.slot),
                             log := s.log.(executed := s.log.executed + [q]),
                             worker := Recording(q, s.slot.execs, ret, Now(s.log)))
    case Recording(q, stmt, r, begun) =>
      s.(slot := Record(s.slot, stmt, r), worker := Judging(q, stmt, r, begun, s.log.scriptWrites))
    case Judging(q, stmt, r, begun, noted) =>
      s.(log := s.log.(verdicts := s.log.verdicts + [Verdict(q, stmt, r, s.slot.state, s.slot.written, begun, noted, s.log.scriptWrites)]),
         worker := if s.slot.state == 0 then Raising(q) else Lowering(q))
    case Raising(q) => s.(parsing := true, worker := Pushing(q))
    case Pushing(q) => s.(threadQueue := s.threadQueue + [CompletionOf(q)], worker := Freeing(q))
    case Lowering(q) => s.(parsing := false, worker := Reporting(q))
    case Reporting(q) => s.(worker := Freeing(q))
    case Freeing(q) => Free(s, q.text.ptr).(worker := Popping)
    case Popping =>
      if s.queryQueue == [] then s.(fault := true)
      else s.(queryQueue := s.queryQueue[1..], worker := Resting)
  }

  // ---- the game thread -------------------------------------------------------------------

  predicate Subscribes(a: Script, c: Completion) {
    if c.extra.Vars? then a.onQueryArray else a.onQuery
  }

  /** Parameters are pushed last one first. */
  function CallOf(a: Script, c: Completion, vars: Option<Str>, handle: nat): Call {
    match c.extra
    case Vars(_) =>
      var text := if vars.Some? then Text(vars.value.content) else NullText;
      Call(a.amx, "OnMysqlQueryArray", Reverse([Num(handle), text, Num(c.resultId)]))
    case Id(n) =>
      Call(a.amx, "OnMysqlQuery", Reverse([Num(handle), Num(n), Num(c.resultId)]))
  }

  /** `scripts` is the list of loaded scripts when the dispatch begins. */
  function TickStep(s: Conn, scripts: seq<Script>): Conn {
    match s.tick
    case Idle => s.(tick := Checking)
    case Checking => s.(tick := if s.threadQueue == [] then Idle else Confirming)
    case Confirming => s.(tick := if s.parsing then Reading else Idle)
    case Reading =>
      if s.threadQueue == [] then s.(fault := true)
      else s.(tick := Calling(s.threadQueue[0], scripts, scripts, VarsOf(s.threadQueue[0].extra)))
    case Calling(c, all, rest, vars) =>
      if rest == [] then s.(tick := Dequeuing, log := s.log.(delivered := s.log.delivered + [Delivery(c, all)]))
      else if !Subscribes(rest[0], c) then s.(tick := Calling(c, all, rest[1..], vars))
      else
        (if vars.Some? then Follow(s, vars.value.ptr) else s)
        .(log := s.log.(calls := s.log.calls + [CallOf(rest[0], c, vars, s.id)]),
          tick := Within(c, all, rest, vars))
    case Within(c, all, rest, vars) =>
      (if vars.Some? then Free(s, vars.value.ptr) else s)
      .(tick := Calling(c, all, if rest == [] then [] else rest[1..], None))
    case Dequeuing =>
      if s.threadQueue == [] then s.(fault := true)
      else s.(threadQueue := s.threadQueue[1..], tick := Clearing)
    case Clearing => s.(parsing := false, tick := Idle)
  }

  // ---- the natives, callable at any time ---------------------------------------------------

  /** Calls a script can make on a handle.  Where the server or the library has a say, its
      answer is part of the call. */
  datatype NativeCall =
    | Connect(ok: bool)
    | MysqlQuery(sql: string, resultId: int, spareId: int, ret: int)
    | MysqlQueryArray(sql: string, resultId: int, vars: string, ret: int)
    | MysqlStoreResult(got: Option<Table>)
    | MysqlFreeResult
    | MysqlCursor(c: CursorCall)

  function Allocate(s: Conn, strings: seq<Str>, next: nat): Conn {
    s.(heap := s.heap.(live := s.heap.live + (set x | x in strings :: x.ptr), next := next))
  }

  function Submit(s: Conn, q: Query): Conn {
    s.(slot := Release(s.slot),
       queryQueue := s.queryQueue + [q],
       log := s.log.(enqueued := s.log.enqueued + [q]))
  }

  /** Execute at once and delete the text, but no callback text. */
  function RunNow(s: Conn, q: Query, ret: int): Conn {
    Free(Follow(s, q.text.ptr), q.text.ptr)
    .(slot := QueryNow(s.slot, ret),
      log := s.log.(scriptWrites := s.log.scriptWrites + 1, atOnce := s.log.atOnce + [q]))
  }

  /** query and query_array: queued under a result id, run at once without one. */
  function Request(s: Conn, q: Query, ret: int, strings: seq<Str>, next: nat): Conn {
    var s' := Allocate(s, strings, next);
    if q.resultId != -1 then Submit(s', q) else RunNow(s', q, ret)
  }

  /** `address` is the identity the allocator would give next, if it is a new one. */
  function NativeStep(s: Conn, n: NativeCall, address: nat): Conn {
    var p := if address < s.heap.next then s.heap.next else address;
    if n.Connect? then s.(connected := s.connected || (s.mysql && n.ok))
    else if !s.connected then s
    else match n
      case MysqlQuery(sql, resultId, spareId, ret) =>
        var text := Str(p, GetString(sql));
        Request(s, Query(text, resultId, Id(spareId)), ret, [text], p + 2)
      case MysqlQueryArray(sql, resultId, vars, ret) =>
        var text, extra := Str(p, GetString(sql)), Str(p + 1, GetString(vars));
        Request(s, Query(text, resultId, Vars(extra)), ret, [text, extra], p + 2)
      case MysqlStoreResult(got) => s.(slot := StoreResult(s.slot, got).0)
      case MysqlFreeResult =>
        s.(slot := FreeResult(s.slot), log := s.log.(scriptWrites := s.log.scriptWrites + 1))
      case MysqlCursor(c) => s.(slot := Cursor(s.slot, c).0)
  }

  // ---- interleavings -----------------------------------------------------------------------

  datatype Choice = Worker(ret: int) | Tick(scripts: seq<Script>) | Native(n: NativeCall, address: nat)

  function Step(s: Conn, c: Choice): Conn {
    match c
    case Worker(ret) => WorkerStep(s, ret)
    case Tick(scripts) => TickStep(s, scripts)
    case Native(n, address) => NativeStep(s, n, address)
  }

  /** Any list of choices is an interleaving, and every interleaving is such a list. */
  function Run(s: Conn, schedule: seq<Choice>): Conn {
    if schedule == [] then s else Step(Run(s, Init(schedule)), Last(schedule))
  }
}
