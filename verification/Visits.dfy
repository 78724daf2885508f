/** One visit of a thread to a handle: the body of the handle loop, from the NULL check to the
    next handle, with anything happening between its atomic steps. */
module Visits {
  import opened Base
  import opened Results
  import opened Handoff
  import opened HandoffInvariant
  import opened Progress

  // ---- visits as schedules ------------------------------------------------------------------

  /** The query thread's visit; `others[k]` is what the rest of the system does after its k-th
      step. */
  function Visit(s: Conn, ret: int, others: seq<seq<Choice>>): Conn
    decreases |others|
  {
    if others == [] then s
    else
      var s' := Run(WorkerStep(s, ret), others[0]);
      if s'.worker.Resting? then s' else Visit(s', ret, others[1..])
  }

  /** The game thread's visit. */
  function TickVisit(s: Conn, scripts: seq<Script>, others: seq<seq<Choice>>): Conn
    decreases |others|
  {
    if others == [] then s
    else
      var s' := Run(TickStep(s, scripts), others[0]);
      if s'.tick.Idle? then s' else TickVisit(s', scripts, others[1..])
  }

  predicate NoWorker(schedule: seq<Choice>) {
    forall i :: 0 <= i < |schedule| ==> !schedule[i].Worker?
  }

  predicate NoTick(schedule: seq<Choice>) {
    forall i :: 0 <= i < |schedule| ==> !schedule[i].Tick?
  }

  lemma VisitUnfold(s: Conn, ret: int, others: seq<seq<Choice>>, k: nat)
    requires k < |others|
    ensures var s' := Run(WorkerStep(s, ret), others[k]);
      Visit(s, ret, others[k..]) == if s'.worker.Resting? then s' else Visit(s', ret, others[k + 1..])
  {
    assert others[k..][0] == others[k] && others[k..][1..] == others[k + 1..];
    hide WorkerStep, Run;
  }

  lemma TickVisitUnfold(s: Conn, scripts: seq<Script>, others: seq<seq<Choice>>, k: nat)
    requires k < |others|
    ensures var s' := Run(TickStep(s, scripts), others[k]);
      TickVisit(s, scripts, others[k..]) == if s'.tick.Idle? then s' else TickVisit(s', scripts, others[k + 1..])
  {
    assert others[k..][0] == others[k] && others[k..][1..] == others[k + 1..];
    hide TickStep, Run;
  }

  lemma StepKeepsThread(s: Conn, c: Choice)
    ensures !c.Worker? ==> Step(s, c).worker == s.worker
    ensures !c.Tick? ==> Step(s, c).tick == s.tick
    ensures Step(s, c).id == s.id
  {
    hide WorkerStep, TickStep, NativeStep;
    match c
    case Worker(ret) => WorkerFrame(s, ret);
    case Tick(scripts) => TickFrame(s, scripts);
    case Native(n, address) => NativeFrame(s, n, address);
  }

  lemma {:induction false} OthersKeepThread(s: Conn, others: seq<Choice>)
    ensures NoWorker(others) ==> Run(s, others).worker == s.worker
    ensures NoTick(others) ==> Run(s, others).tick == s.tick
    ensures Run(s, others).id == s.id
    decreases |others|
  {
    hide Step;
    if others == [] {
    } else {
      OthersKeepThread(s, Init(others));
      StepKeepsThread(Run(s, Init(others)), Last(others));
      assert Last(others) == others[|others| - 1];
    }
  }

  lemma RunStepRun(s: Conn, c: Choice, others: seq<Choice>)
    ensures Run(s, [c] + others) == Run(Step(s, c), others)
  {
    hide Step;
    RunConcat(s, [c], others);
    assert Init([c]) == [] && Run(s, []) == s;
  }

  /** A visit is an interleaving like any other, so all that holds of runs holds of visits. */
  lemma {:induction false} VisitIsRun(s: Conn, ret: int, others: seq<seq<Choice>>)
    ensures exists schedule :: Visit(s, ret, others) == Run(s, schedule)
    decreases |others|
  {
    hide WorkerStep;
    if others == [] {
      assert Run(s, []) == s;
    } else {
      var s' := Run(WorkerStep(s, ret), others[0]);
      RunStepRun(s, Worker(ret), others[0]);
      if !s'.worker.Resting? {
        VisitIsRun(s', ret, others[1..]);
        var rest :| Visit(s', ret, others[1..]) == Run(s', rest);
        RunConcat(s, [Worker(ret)] + others[0], rest);
      }
    }
  }

  lemma {:induction false} TickVisitIsRun(s: Conn, scripts: seq<Script>, others: seq<seq<Choice>>)
    ensures exists schedule :: TickVisit(s, scripts, others) == Run(s, schedule)
    decreases |others|
  {
    hide TickStep;
    if others == [] {
      assert Run(s, []) == s;
    } else {
      var s' := Run(TickStep(s, scripts), others[0]);
      RunStepRun(s, Tick(scripts), others[0]);
      if !s'.tick.Idle? {
        TickVisitIsRun(s', scripts, others[1..]);
        var rest :| TickVisit(s', scripts, others[1..]) == Run(s', rest);
        RunConcat(s, [Tick(scripts)] + others[0], rest);
      }
    }
  }

  // ---- what a visit may rely on ------------------------------------------------------------------

  /** Where the worker takes or pops the front, there is one; where it executes or deletes a
      text, the text is live. */
  lemma WorkerMay(s: Conn)
    requires Inv(s)
    ensures s.worker.Taking? || s.worker.Popping? ==> s.queryQueue != []
    ensures s.worker.Executing? || s.worker.Freeing? ==> s.worker.q.text.ptr in s.heap.live
  {
    hide OneSlot, Judged, Called, Stated, VarsOwned, HeapSound, Ordered;
    if s.worker.Executing? { assert s.log.enqueued[Popped(s)] == s.worker.q; }
    if s.worker.Freeing? { assert s.log.enqueued[TextsFreed(s)] == s.worker.q; }
  }

  /** Where the tick reads or pops the front, there is one; the text it passes on or deletes
      is live. */
  lemma TickMay(s: Conn)
    requires Inv(s)
    ensures s.tick.Reading? || s.tick.Dequeuing? || s.tick.Calling? || s.tick.Within? ==> s.threadQueue != []
    ensures (s.tick.Calling? || s.tick.Within?) && s.tick.vars.Some? ==> s.tick.vars.value.ptr in s.heap.live
    ensures (s.tick.Calling? || s.tick.Within?) && s.tick.vars.Some? ==> s.tick.c.extra == Vars(s.tick.vars.value)
    ensures s.tick.Within? ==> s.tick.rest != []
  {
    hide Fifo, Judged, Stated, TextsOwned, VarsOwned, HeapSound, Ordered;
  }

  // ---- visits left alone -----------------------------------------------------------------------

  /** Steps of a query thread's visit that finds work. */
  const ITEM_STEPS: nat := 11

  function Alone(n: nat): (r: seq<seq<Choice>>)
    ensures |r| == n
  {
    seq(n, _ => [])
  }

  /** What an undisturbed visit of the query thread does to an idle handle. */
  function ItemDone(s: Conn, ret: int): Conn
    requires s.queryQueue != []
  {
    var q := s.queryQueue[0];
    s.(queryQueue := s.queryQueue[1..],
       threadQueue := if ret == 0 then [Completion(q.resultId, q.extra)] else [],
       parsing := ret == 0,
       slot := Record(Execute(s.slot), s.slot.execs, ret),
       heap := s.heap.(live := s.heap.live - {q.text.ptr}, freed := s.heap.freed + [q.text.ptr]),
       log := s.log.(executed := s.log.executed + [q],
                     verdicts := s.log.verdicts
                       + [Verdict(q, s.slot.execs, ret, ret, Executed(s.slot.execs, ret), Now(s.log), s.log.scriptWrites, s.log.scriptWrites)]))
  }

  predicate BothAway(s: Conn) {
    s.worker.Resting? && s.tick.Idle?
  }

  lemma AloneStep(s: Conn, ret: int, n: nat)
    requires n > 0
    ensures var s' := WorkerStep(s, ret);
      Visit(s, ret, Alone(n)) == if s'.worker.Resting? then s' else Visit(s', ret, Alone(n - 1))
  {
    assert Alone(n)[0] == [] && Alone(n)[1..] == Alone(n - 1);
    assert Run(WorkerStep(s, ret), []) == WorkerStep(s, ret);
    hide WorkerStep;
  }

  /** The looks of a visit: what each finds and where it leads. */
  lemma LooksFind(s: Conn, ret: int)
    ensures s.worker.Resting? ==> WorkerStep(s, ret) == s.(worker := Polling)
    ensures s.worker.Polling? ==> WorkerStep(s, ret) == s.(worker := if s.queryQueue == [] then Resting else Gating)
    ensures s.worker.Gating? ==> WorkerStep(s, ret) == s.(worker := if s.parsing then Resting else Taking)
    ensures s.worker.Taking? && s.queryQueue != [] ==> WorkerStep(s, ret) == s.(worker := Executing(s.queryQueue[0]))
  {
  }

  /** The looks of a visit, and the end of it if the guard is closed. */
  lemma VisitLooks(s: Conn, ret: int)
    requires BothAway(s)
    ensures WorkerReady(s) ==> Visit(s, ret, Alone(ITEM_STEPS)) == Visit(s.(worker := Executing(s.queryQueue[0])), ret, Alone(7))
    ensures !WorkerReady(s) ==> Visit(s, ret, Alone(ITEM_STEPS)) == s
  {
    hide Visit, WorkerStep;
    var s1, s2, s3 := s.(worker := Polling), s.(worker := Gating), s.(worker := Taking);
    AloneStep(s, ret, 11);
    LooksFind(s, ret);
    AloneStep(s1, ret, 10);
    LooksFind(s1, ret);
    if s.queryQueue == [] {
      assert s1.(worker := Resting) == s;
    } else {
      assert s1.(worker := Gating) == s2;
      AloneStep(s2, ret, 9);
      LooksFind(s2, ret);
      if s.parsing {
        assert s2.(worker := Resting) == s;
      } else {
        assert s2.(worker := Taking) == s3;
        AloneStep(s3, ret, 8);
        LooksFind(s3, ret);
      }
    }
  }

  lemma ExecutingFinds(s: Conn, ret: int)
    requires s.worker.Executing? && s.worker.q.text.ptr in s.heap.live
    ensures WorkerStep(s, ret) ==
      s.(slot := Execute(s.slot), log := s.log.(executed := s.log.executed + [s.worker.q]),
         worker := Recording(s.worker.q, s.slot.execs, ret, Now(s.log)))
  {
  }

  lemma RecordingFinds(s: Conn, ret: int)
    requires s.worker.Recording?
    ensures WorkerStep(s, ret) ==
      s.(slot := Record(s.slot, s.worker.stmt, s.worker.ret),
         worker := Judging(s.worker.q, s.worker.stmt, s.worker.ret, s.worker.begun, s.log.scriptWrites))
  {
  }

  lemma JudgingFinds(s: Conn, ret: int)
    requires s.worker.Judging?
    ensures var w := s.worker;
      WorkerStep(s, ret) ==
        s.(log := s.log.(verdicts := s.log.verdicts
             + [Verdict(w.q, w.stmt, w.ret, s.slot.state, s.slot.written, w.begun, w.noted, s.log.scriptWrites)]),
           worker := if s.slot.state == 0 then Raising(w.q) else Lowering(w.q))
  {
  }

  /** From the execution to the judgement. */
  lemma VisitExecutes(s: Conn, ret: int)
    requires s.worker.Executing? && s.worker.q.text.ptr in s.heap.live
    ensures var q := s.worker.q;
      var log := s.log.(executed := s.log.executed + [q],
                        verdicts := s.log.verdicts
                          + [Verdict(q, s.slot.execs, ret, ret, Executed(s.slot.execs, ret), Now(s.log), s.log.scriptWrites, s.log.scriptWrites)]);
      var judged := s.(slot := Record(Execute(s.slot), s.slot.execs, ret), log := log,
                       worker := if ret == 0 then Raising(q) else Lowering(q));
      Visit(s, ret, Alone(7)) == Visit(judged, ret, Alone(4))
  {
    hide Visit, WorkerStep;
    var s1 := WorkerStep(s, ret);
    var s2 := WorkerStep(s1, ret);
    ExecutingFinds(s, ret);
    AloneStep(s, ret, 7);
    RecordingFinds(s1, ret);
    AloneStep(s1, ret, 6);
    JudgingFinds(s2, ret);
    AloneStep(s2, ret, 5);
  }

  lemma FlagFinds(s: Conn, ret: int)
    ensures s.worker.Raising? ==> WorkerStep(s, ret) == s.(parsing := true, worker := Pushing(s.worker.q))
    ensures s.worker.Lowering? ==> WorkerStep(s, ret) == s.(parsing := false, worker := Reporting(s.worker.q))
  {
  }

  lemma PublishFinds(s: Conn, ret: int)
    ensures s.worker.Pushing? ==>
      WorkerStep(s, ret) == s.(threadQueue := s.threadQueue + [CompletionOf(s.worker.q)], worker := Freeing(s.worker.q))
    ensures s.worker.Reporting? ==> WorkerStep(s, ret) == s.(worker := Freeing(s.worker.q))
  {
  }

  lemma FreeFinds(s: Conn, ret: int)
    ensures s.worker.Freeing? && s.worker.q.text.ptr in s.heap.live ==>
      var p := s.worker.q.text.ptr;
      WorkerStep(s, ret) == s.(heap := s.heap.(live := s.heap.live - {p}, freed := s.heap.freed + [p]), worker := Popping)
    ensures s.worker.Popping? && s.queryQueue != [] ==>
      WorkerStep(s, ret) == s.(queryQueue := s.queryQueue[1..], worker := Resting)
  {
  }

  /** From the judgement to the pop. */
  lemma VisitPublishes(s: Conn, ret: int, q: Query)
    requires s.worker == (if ret == 0 then Raising(q) else Lowering(q))
    requires s.queryQueue != [] && q.text.ptr in s.heap.live && s.threadQueue == []
    ensures Visit(s, ret, Alone(4)) ==
      s.(queryQueue := s.queryQueue[1..], worker := Resting, parsing := ret == 0,
         threadQueue := if ret == 0 then [CompletionOf(q)] else [],
         heap := s.heap.(live := s.heap.live - {q.text.ptr}, freed := s.heap.freed + [q.text.ptr]))
  {
    hide Visit, WorkerStep;
    var s1 := WorkerStep(s, ret);
    var s2 := WorkerStep(s1, ret);
    var s3 := WorkerStep(s2, ret);
    FlagFinds(s, ret);
    AloneStep(s, ret, 4);
    PublishFinds(s1, ret);
    AloneStep(s1, ret, 3);
    FreeFinds(s2, ret);
    AloneStep(s2, ret, 2);
    FreeFinds(s3, ret);
    AloneStep(s3, ret, 1);
  }

  /** An undisturbed visit executes the front query if the guard is open, and otherwise leaves
      the handle as it is. */
  lemma VisitAlone(s: Conn, ret: int)
    requires Inv(s) && BothAway(s)
    ensures Visit(s, ret, Alone(ITEM_STEPS)) == if WorkerReady(s) then ItemDone(s, ret) else s
  {
    hide Visit, WorkerStep;
    VisitLooks(s, ret);
    if WorkerReady(s) {
      var q := s.queryQueue[0];
      assert q.text.ptr in s.heap.live && s.threadQueue == [] by {
        assert s.log.enqueued[Popped(s)] == q;
        hide Judged, Called, Stated, VarsOwned;
      }
      hide Inv;
      var e := s.(worker := Executing(q));
      VisitExecutes(e, ret);
      var log := s.log.(executed := s.log.executed + [q],
                        verdicts := s.log.verdicts
                          + [Verdict(q, s.slot.execs, ret, ret, Executed(s.slot.execs, ret), Now(s.log), s.log.scriptWrites, s.log.scriptWrites)]);
      var judged := e.(slot := Record(Execute(s.slot), s.slot.execs, ret), log := log,
                       worker := if ret == 0 then Raising(q) else Lowering(q));
      VisitPublishes(judged, ret, q);
    }
  }

  // ---- the tick, left alone ---------------------------------------------------------------------

  function TickLength(n: nat): nat { 2 * n + 7 }

  lemma TickAloneStep(s: Conn, scripts: seq<Script>, n: nat)
    requires n > 0
    ensures var s' := TickStep(s, scripts);
      TickVisit(s, scripts, Alone(n)) == if s'.tick.Idle? then s' else TickVisit(s', scripts, Alone(n - 1))
  {
    assert Alone(n)[0] == [] && Alone(n)[1..] == Alone(n - 1);
    assert Run(TickStep(s, scripts), []) == TickStep(s, scripts);
    hide TickStep;
  }

  /** Is the text of the dispatch deleted on the way through these scripts? */
  function HeapAfter(h: Heap, c: Completion, rest: seq<Script>, vars: Option<Str>): Heap {
    if vars.None? || !(exists i :: 0 <= i < |rest| && Subscribes(rest[i], c)) then h
    else h.(live := h.live - {vars.value.ptr}, freed := h.freed + [vars.value.ptr])
  }

  /** The handle after the rest of the dispatch it is in. */
  function DispatchDone(s: Conn): Conn
    requires s.tick.Calling?
  {
    var t := s.tick;
    s.(tick := Idle, threadQueue := [], parsing := false, heap := HeapAfter(s.heap, t.c, t.rest, t.vars),
       log := s.log.(delivered := s.log.delivered + [Delivery(t.c, t.all)],
                     calls := s.log.calls + Dispatch(s.id, t.c, t.rest, t.vars)))
  }

  lemma DispatchEnds(s: Conn, scripts: seq<Script>, n: nat)
    requires s.tick.Calling? && s.tick.rest == [] && n >= 3 && s.threadQueue == [s.tick.c]
    ensures TickVisit(s, scripts, Alone(n)) == DispatchDone(s)
  {
    var s1 := TickStep(s, scripts);
    var s2 := TickStep(s1, scripts);
    TickAloneStep(s, scripts, n);
    TickAloneStep(s1, scripts, n - 1);
    TickAloneStep(s2, scripts, n - 2);
    hide TickVisit;
  }

  /** One script: from the head of the loop back to it. */
  function OneScript(s: Conn): Conn
    requires s.tick.Calling? && s.tick.rest != []
  {
    var t := s.tick;
    if Subscribes(t.rest[0], t.c) then
      s.(tick := Calling(t.c, t.all, t.rest[1..], None),
         heap := if t.vars.Some?
                 then s.heap.(live := s.heap.live - {t.vars.value.ptr}, freed := s.heap.freed + [t.vars.value.ptr])
                 else s.heap,
         log := s.log.(calls := s.log.calls + [CallOf(t.rest[0], t.c, t.vars, s.id)]))
    else
      s.(tick := Calling(t.c, t.all, t.rest[1..], t.vars))
  }

  lemma OneScriptVisit(s: Conn, scripts: seq<Script>, n: nat)
    requires s.tick.Calling? && s.tick.rest != [] && n >= 2
    requires s.tick.vars.Some? ==> s.tick.vars.value.ptr in s.heap.live
    ensures TickVisit(s, scripts, Alone(n))
      == TickVisit(OneScript(s), scripts, Alone(if Subscribes(s.tick.rest[0], s.tick.c) then n - 2 else n - 1))
  {
    hide TickVisit, CallOf, Subscribes;
    var s1 := TickStep(s, scripts);
    TickAloneStep(s, scripts, n);
    if Subscribes(s.tick.rest[0], s.tick.c) { TickAloneStep(s1, scripts, n - 1); }
  }

  lemma OneScriptDone(s: Conn)
    requires s.tick.Calling? && s.tick.rest != []
    ensures DispatchDone(OneScript(s)) == DispatchDone(s)
  {
    hide CallOf, Subscribes;
    var t := s.tick;
    if !Subscribes(t.rest[0], t.c) { SkipHeap(s.heap, t.c, t.rest, t.vars); }
  }

  /** The loop over the scripts. */
  lemma {:induction false} DispatchAlone(s: Conn, scripts: seq<Script>, n: nat)
    requires s.tick.Calling? && n >= 2 * |s.tick.rest| + 3
    requires s.tick.vars.Some? ==> s.tick.vars.value.ptr in s.heap.live
    requires s.threadQueue == [s.tick.c]
    ensures TickVisit(s, scripts, Alone(n)) == DispatchDone(s)
    decreases |s.tick.rest|
  {
    hide TickVisit, DispatchDone, Subscribes, CallOf;
    if s.tick.rest == [] {
      DispatchEnds(s, scripts, n);
    } else {
      OneScriptVisit(s, scripts, n);
      OneScriptDone(s);
      DispatchAlone(OneScript(s), scripts, if Subscribes(s.tick.rest[0], s.tick.c) then n - 2 else n - 1);
    }
  }

  lemma SkipHeap(h: Heap, c: Completion, rest: seq<Script>, vars: Option<Str>)
    requires rest != [] && !Subscribes(rest[0], c)
    ensures HeapAfter(h, c, rest, vars) == HeapAfter(h, c, rest[1..], vars)
  {
    if i :| 0 <= i < |rest| && Subscribes(rest[i], c) {
      assert rest[1..][i - 1] == rest[i];
    }
  }

  /** What an undisturbed visit of the game thread does to a handle with a completion. */
  function CompletionDone(s: Conn, scripts: seq<Script>): Conn
    requires s.threadQueue != []
  {
    var c := s.threadQueue[0];
    s.(threadQueue := [], parsing := false, heap := HeapAfter(s.heap, c, scripts, VarsOf(c.extra)),
       log := s.log.(delivered := s.log.delivered + [Delivery(c, scripts)],
                     calls := s.log.calls + Dispatch(s.id, c, scripts, VarsOf(c.extra))))
  }

  lemma TickLooksFind(s: Conn, scripts: seq<Script>)
    ensures s.tick.Idle? ==> TickStep(s, scripts) == s.(tick := Checking)
    ensures s.tick.Checking? ==> TickStep(s, scripts) == s.(tick := if s.threadQueue == [] then Idle else Confirming)
    ensures s.tick.Confirming? ==> TickStep(s, scripts) == s.(tick := if s.parsing then Reading else Idle)
    ensures s.tick.Reading? && s.threadQueue != [] ==>
      TickStep(s, scripts) == s.(tick := Calling(s.threadQueue[0], scripts, scripts, VarsOf(s.threadQueue[0].extra)))
  {
  }

  lemma TickFindsNothing(s: Conn, scripts: seq<Script>, n: nat)
    requires s.tick.Idle? && s.threadQueue == [] && n >= 2
    ensures TickVisit(s, scripts, Alone(n)) == s
  {
    hide TickVisit, TickStep;
    var s1 := s.(tick := Checking);
    TickLooksFind(s, scripts);
    TickAloneStep(s, scripts, n);
    TickLooksFind(s1, scripts);
    TickAloneStep(s1, scripts, n - 1);
    assert s1.(tick := Idle) == s;
  }

  lemma TickBegins(s: Conn, scripts: seq<Script>, n: nat)
    requires s.tick.Idle? && s.threadQueue != [] && s.parsing && n >= 4
    ensures var c := s.threadQueue[0];
      TickVisit(s, scripts, Alone(n))
        == TickVisit(s.(tick := Calling(c, scripts, scripts, VarsOf(c.extra))), scripts, Alone(n - 4))
  {
    hide TickVisit, TickStep;
    var s1, s2, s3 := s.(tick := Checking), s.(tick := Confirming), s.(tick := Reading);
    TickLooksFind(s, scripts);
    TickAloneStep(s, scripts, n);
    TickLooksFind(s1, scripts);
    TickAloneStep(s1, scripts, n - 1);
    assert s1.(tick := Confirming) == s2 && s2.(tick := Reading) == s3;
    TickLooksFind(s2, scripts);
    TickAloneStep(s2, scripts, n - 2);
    TickLooksFind(s3, scripts);
    TickAloneStep(s3, scripts, n - 3);
  }

  /** An undisturbed tick delivers what is owed, and otherwise leaves the handle as it is. */
  lemma TickAlone(s: Conn, scripts: seq<Script>)
    requires Inv(s) && BothAway(s)
    ensures TickVisit(s, scripts, Alone(TickLength(|scripts|))) == if TickReady(s) then CompletionDone(s, scripts) else s
  {
    var n := TickLength(|scripts|);
    assert (s.threadQueue != [] ==> s.parsing && |s.threadQueue| == 1) && (OwedVars(s).Some? ==> OwedVars(s).value.ptr in s.heap.live) by {
      hide Fifo, Judged, Called, Stated, HeapSound, Ordered, TextsOwned, VarsOwned;
    }
    hide Inv, TickVisit, Dispatch, TickStep;
    if s.threadQueue == [] {
      TickFindsNothing(s, scripts, n);
    } else {
      TickBegins(s, scripts, n);
      var c := s.threadQueue[0];
      DispatchAlone(s.(tick := Calling(c, scripts, scripts, VarsOf(c.extra))), scripts, n - 4);
    }
  }
}
