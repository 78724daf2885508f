/** Whose result mysql_store_result yields within a callback. */
module CallbackResults {
  import opened Base
  import opened Results
  import opened ResultLaws
  import opened Handoff
  import opened HandoffInvariant
  import opened HandoffTheorems

  /** No query has been run at once since this execution. */
  predicate Unasked(begun: Moment, log: Log) {
    |log.atOnce| == begun.asked
  }

  /** What `slot` says about an execution whose status was assigned at write number `noted`. */
  predicate Speaks(stmt: nat, ret: int, begun: Moment, noted: nat, log: Log, slot: Slot) {
    && begun.asked <= |log.atOnce| && noted <= log.scriptWrites
    && slot.execs == stmt + 1 + (|log.atOnce| - begun.asked)
    && (Unasked(begun, log) ==> slot.written == if log.scriptWrites == noted then Executed(stmt, ret) else Freed)
  }

  predicate VerdictSpeaks(v: Verdict, log: Log, slot: Slot) {
    && Speaks(v.stmt, v.ret, v.begun, v.noted, log, slot)
    && (Unasked(v.begun, log) && log.scriptWrites == v.noted ==> v.ret == 0)
  }

  /** From the execution of a queued query to the end of its hand-over. */
  predicate Window(s: Conn) {
    && (s.worker.Recording? ==>
          && s.worker.begun.asked <= |s.log.atOnce|
          && s.slot.execs == s.worker.stmt + 1 + (|s.log.atOnce| - s.worker.begun.asked))
    && (s.worker.Judging? ==>
          Speaks(s.worker.stmt, s.worker.ret, s.worker.begun, s.worker.noted, s.log, s.slot))
    && (HandingOver(s) && s.log.verdicts != [] ==> VerdictSpeaks(Last(s.log.verdicts), s.log, s.slot))
  }

  // ---- the steps --------------------------------------------------------------------------------

  lemma LookingWindow(s: Conn, ret: int)
    requires Window(s) && Looking(s.worker)
    ensures Window(WorkerStep(s, ret))
  {
    LookingFrame(s, ret);
    hide WorkerStep, VerdictSpeaks;
  }

  lemma ExecutingWindow(s: Conn, ret: int)
    requires OneSlot(s) && s.worker.Executing?
    ensures Window(WorkerStep(s, ret))
  {
    hide VerdictSpeaks;
  }

  lemma RecordingWindow(s: Conn, ret: int)
    requires OneSlot(s) && Window(s) && s.worker.Recording?
    ensures Window(WorkerStep(s, ret))
  {
    hide VerdictSpeaks;
  }

  lemma JudgingWindow(s: Conn, ret: int)
    requires OneSlot(s) && Sound(s.slot) && Window(s) && s.worker.Judging?
    ensures Window(WorkerStep(s, ret))
  {
    hide Conserved;
  }

  lemma PublishingWindow(s: Conn, ret: int)
    requires Window(s) && !Looking(s.worker) && !s.worker.Executing? && !Unjudged(s.worker)
    ensures Window(WorkerStep(s, ret))
  {
    WorkerFrame(s, ret);
    PublishingKeeps(s, ret);
    hide WorkerStep;
  }

  lemma WorkerWindow(s: Conn, ret: int)
    requires OneSlot(s) && Sound(s.slot) && Window(s)
    ensures Window(WorkerStep(s, ret))
  {
    hide OneSlot, Sound, Window, WorkerStep;
    match s.worker
    case Executing(_) => ExecutingWindow(s, ret);
    case Recording(_, _, _, _) => RecordingWindow(s, ret);
    case Judging(_, _, _, _, _) => JudgingWindow(s, ret);
    case _ => if Looking(s.worker) { LookingWindow(s, ret); } else { PublishingWindow(s, ret); }
  }

  lemma TickWindow(s: Conn, scripts: seq<Script>)
    requires OneSlot(s) && Window(s)
    ensures Window(TickStep(s, scripts))
  {
    TickFrame(s, scripts);
    TickHandsOver(s, scripts);
    hide TickStep, OneSlot, HandingOver;
  }

  /** What a script call does to what is said about an execution: nothing, or it gives up
      `state`, or it runs a query of its own. */
  predicate Says(s: Conn, s': Conn) {
    || (&& s'.log.atOnce == s.log.atOnce && s'.log.scriptWrites == s.log.scriptWrites
        && s'.slot.execs == s.slot.execs && s'.slot.written == s.slot.written)
    || (&& s'.log.atOnce == s.log.atOnce && s'.log.scriptWrites == s.log.scriptWrites + 1
        && s'.slot.execs == s.slot.execs && s'.slot.written == Freed)
    || (&& |s'.log.atOnce| == |s.log.atOnce| + 1 && s'.log.scriptWrites == s.log.scriptWrites + 1
        && s'.slot.execs == s.slot.execs + 1)
  }

  lemma RequestSays(s: Conn, q: Query, ret: int, strings: seq<Str>, next: nat)
    ensures Says(s, Request(s, q, ret, strings, next))
  {
  }

  lemma NativeSays(s: Conn, n: NativeCall, address: nat)
    ensures Says(s, NativeStep(s, n, address))
  {
    var p := if address < s.heap.next then s.heap.next else address;
    hide GetString, Request;
    match n
    case MysqlQuery(sql, resultId, spareId, ret) =>
      var text := Str(p, GetString(sql));
      RequestSays(s, Query(text, resultId, Id(spareId)), ret, [text], p + 2);
    case MysqlQueryArray(sql, resultId, vars, ret) =>
      var text, extra := Str(p, GetString(sql)), Str(p + 1, GetString(vars));
      RequestSays(s, Query(text, resultId, Vars(extra)), ret, [text, extra], p + 2);
    case _ =>
  }

  lemma NativeWindow(s: Conn, n: NativeCall, address: nat)
    requires Window(s)
    ensures Window(NativeStep(s, n, address))
  {
    NativeFrame(s, n, address);
    NativeSays(s, n, address);
    hide NativeStep;
  }

  lemma StepWindow(s: Conn, c: Choice)
    requires Inv(s) && Window(s)
    ensures Window(Step(s, c))
  {
    assert OneSlot(s) && Sound(s.slot) by { assert Stated(s); }
    hide Inv, OneSlot, Sound, Window, WorkerStep, TickStep, NativeStep;
    match c
    case Worker(ret) => WorkerWindow(s, ret);
    case Tick(scripts) => TickWindow(s, scripts);
    case Native(n, address) => NativeWindow(s, n, address);
  }

  lemma {:induction false} RunWindow(s: Conn, schedule: seq<Choice>)
    requires Inv(s) && Window(s)
    ensures Window(Run(s, schedule))
    decreases |schedule|
  {
    hide Inv, Window, Step;
    if schedule == [] {
    } else {
      RunWindow(s, Init(schedule));
      RunInv(s, Init(schedule));
      StepWindow(Run(s, Init(schedule)), Last(schedule));
    }
  }

  lemma ReachableWindow(s: Conn)
    requires Reachable(s)
    ensures Window(s)
  {
    var id, mysql, next, schedule :| s == Run(New(id, mysql, next), schedule);
    NewInv(id, mysql, next);
    hide Inv, Run;
    RunWindow(New(id, mysql, next), schedule);
  }

  // ---- the callback ---------------------------------------------------------------------------------

  /** The store succeeded, with the result of that statement. */
  predicate StoresOf(slot: Slot, reply: StoreReply, stmt: nat) {
    reply == Stored && slot.result.Some? && slot.result.value.source == stmt
  }

  /** Within a callback, with nothing stored: mysql_store_result yields the result of the very
      query the callback is about if and only if no query has been run at once since that
      query was executed, and free_result has not been called since its status was assigned. */
  lemma CallbackStoresExactly(s: Conn, table: Table)
    requires Reachable(s) && Dispatching(s.tick) && s.slot.result.None?
    ensures s.log.verdicts != [] && s.log.executed != []
    ensures var v := Last(s.log.verdicts);
      var (slot', reply) := StoreResult(s.slot, Some(table));
      && v.q == Last(s.log.executed) && s.tick.c == CompletionOf(v.q)
      && (StoresOf(slot', reply, v.stmt) <==> |s.log.atOnce| == v.begun.asked && s.log.scriptWrites == v.noted)
      && (reply == Stored ==> slot'.result.value.table == table)
  {
    ReachableInv(s);
    ReachableWindow(s);
    CallbackStoresItsOwnResult(s, table);
    assert Sound(s.slot) && HandingOver(s) by { assert Stated(s) && OneSlot(s); }
    hide Inv, Reachable, Conserved;
  }
}
