/** Passes of the query thread and ticks in turn, with scripts and callbacks calling natives
    after every single step. */
module Rounds {
  import opened Base
  import opened Handoff
  import opened HandoffInvariant
  import opened Progress
  import opened Visits
  import opened CallbackTexts

  /** Script calls of any kind. */
  predicate Calls(schedule: seq<Choice>) {
    forall i :: 0 <= i < |schedule| ==> schedule[i].Native?
  }

  /** Script calls that put nothing on the queue. */
  predicate QuietCalls(schedule: seq<Choice>) {
    forall i :: 0 <= i < |schedule| ==> schedule[i].Native? && !Enqueues(schedule[i].n)
  }

  // ---- what script calls leave alone -----------------------------------------------------------

  lemma {:induction false} CallsKeep(s: Conn, schedule: seq<Choice>)
    requires Calls(schedule)
    ensures var s' := Run(s, schedule);
      && s'.id == s.id && s'.worker == s.worker && s'.tick == s.tick
      && s'.threadQueue == s.threadQueue && s'.parsing == s.parsing
      && s'.log.executed == s.log.executed && s'.log.delivered == s.log.delivered && s'.log.calls == s.log.calls
    decreases |schedule|
  {
    hide NativeStep;
    if schedule == [] {
    } else {
      var c := Last(schedule);
      assert c == schedule[|schedule| - 1];
      CallsKeep(s, Init(schedule));
      NativeFrame(Run(s, Init(schedule)), c.n, c.address);
    }
  }

  lemma {:induction false} QuietCallsKeep(s: Conn, schedule: seq<Choice>)
    requires QuietCalls(schedule)
    ensures Run(s, schedule).queryQueue == s.queryQueue
    ensures Run(s, schedule).log.enqueued == s.log.enqueued
    decreases |schedule|
  {
    hide NativeStep;
    if schedule == [] {
    } else {
      var c := Last(schedule);
      assert c == schedule[|schedule| - 1];
      QuietCallsKeep(s, Init(schedule));
      NativeKeeps(Run(s, Init(schedule)), c.n, c.address);
    }
  }

  // ---- the query thread ---------------------------------------------------------------------------

  /** What the visit in progress has still to execute. */
  function ToExecute(s: Conn): seq<Query> {
    if WorkerAtHead(s.worker) then if WorkerReady(s) then [s.queryQueue[0]] else []
    else if s.worker.Taking? then if s.queryQueue != [] then [s.queryQueue[0]] else []
    else if s.worker.Executing? then [s.worker.q]
    else []
  }

  /** Steps to the end of the visit, at most; a visit begins with the step of a resting thread. */
  function WorkerLeft(w: WorkerPc): nat {
    match w
    case Resting => 11
    case Polling => 10
    case Gating => 9
    case Taking => 8
    case Executing(_) => 7
    case Recording(_, _, _, _) => 6
    case Judging(_, _, _, _, _) => 5
    case Raising(_) | Lowering(_) => 4
    case Pushing(_) | Reporting(_) => 3
    case Freeing(_) => 2
    case Popping => 1
  }

  /** The looks change nothing but the program counter and find what they find. */
  lemma LookTowards(s: Conn, ret: int)
    requires Inv(s) && Looking(s.worker)
    ensures var s' := WorkerStep(s, ret);
      && s'.log == s.log && s'.queryQueue == s.queryQueue && s'.parsing == s.parsing
      && (!s'.worker.Resting? ==> WorkerLeft(s'.worker) == WorkerLeft(s.worker) - 1 && ToExecute(s') == ToExecute(s))
      && (s'.worker.Resting? ==> ToExecute(s) == [])
  {
    LookingFrame(s, ret);
    LooksFind(s, ret);
    WorkerMay(s);
    hide WorkerStep, Inv;
  }

  predicate Worked(s: Conn, s': Conn) {
    && s'.log.executed == s.log.executed + ToExecute(s)
    && (s'.worker.Resting? <==> s.worker.Popping?)
    && (!s'.worker.Resting? ==> WorkerLeft(s'.worker) == WorkerLeft(s.worker) - 1 && ToExecute(s') == [])
  }

  lemma JudgeTowards(s: Conn, ret: int)
    requires s.worker.Executing? || Unjudged(s.worker)
    ensures Worked(s, WorkerStep(s, ret))
  {
  }

  lemma PublishTowards(s: Conn, ret: int)
    requires FrontDone(s.worker) && !Unjudged(s.worker) && (s.worker.Popping? ==> s.queryQueue != [])
    ensures Worked(s, WorkerStep(s, ret))
  {
  }

  lemma WorkTowards(s: Conn, ret: int)
    requires Inv(s) && !Looking(s.worker)
    ensures Worked(s, WorkerStep(s, ret))
  {
    WorkerMay(s);
    hide Inv, WorkerStep, Worked;
    if s.worker.Executing? || Unjudged(s.worker) { JudgeTowards(s, ret); } else { PublishTowards(s, ret); }
  }

  lemma WorkerTowards(s: Conn, ret: int)
    requires Inv(s)
    ensures var s' := WorkerStep(s, ret);
      && s'.tick == s.tick && s'.log.delivered == s.log.delivered && s'.log.enqueued == s.log.enqueued
      && (s'.worker.Resting? ==> s'.log.executed == s.log.executed + ToExecute(s))
      && (!s'.worker.Resting? ==>
            && WorkerLeft(s'.worker) == WorkerLeft(s.worker) - 1
            && s'.log.executed + ToExecute(s') == s.log.executed + ToExecute(s))
  {
    WorkerFrame(s, ret);
    hide WorkerStep, Inv, ToExecute;
    if Looking(s.worker) { LookTowards(s, ret); } else { WorkTowards(s, ret); }
  }

  lemma QuietStep(s: Conn, schedule: seq<Choice>)
    requires Inv(s) && QuietCalls(schedule)
    ensures var s' := Run(s, schedule);
      && Inv(s') && s'.worker == s.worker && s'.tick == s.tick && s'.log.delivered == s.log.delivered
      && s'.log.enqueued == s.log.enqueued && s'.log.executed == s.log.executed && ToExecute(s') == ToExecute(s)
  {
    hide Inv, Run;
    RunInv(s, schedule);
    CallsKeep(s, schedule);
    QuietCallsKeep(s, schedule);
  }

  /** A visit under script calls that enqueue nothing executes what it set out to execute. */
  lemma {:induction false} VisitUnderCalls(s: Conn, ret: int, others: seq<seq<Choice>>)
    requires Inv(s) && |others| >= WorkerLeft(s.worker)
    requires forall k :: 0 <= k < |others| ==> QuietCalls(others[k])
    ensures var v := Visit(s, ret, others);
      && Inv(v) && v.worker.Resting? && v.tick == s.tick && v.log.delivered == s.log.delivered
      && v.log.enqueued == s.log.enqueued && v.log.executed == s.log.executed + ToExecute(s)
    decreases |others|
  {
    hide Inv, WorkerStep, Run, ToExecute, QuietCalls;
    WorkerInv(s, ret);
    WorkerTowards(s, ret);
    var w := WorkerStep(s, ret);
    QuietStep(w, others[0]);
    var s' := Run(w, others[0]);
    if s'.worker.Resting? {
    } else {
      VisitUnderCalls(s', ret, others[1..]);
    }
  }

  /** Script calls that enqueue cannot make a visit forget what it set out to execute. */
  lemma AnyStep(s: Conn, schedule: seq<Choice>)
    requires Inv(s) && Calls(schedule)
    ensures var s' := Run(s, schedule);
      && Inv(s') && s'.worker == s.worker && s'.tick == s.tick && s'.log.delivered == s.log.delivered
      && s'.log.executed == s.log.executed && s.log.enqueued <= s'.log.enqueued
      && (ToExecute(s) != [] ==> ToExecute(s') == ToExecute(s))
  {
    hide Inv, Run;
    RunInv(s, schedule);
    CallsKeep(s, schedule);
    CallsExtend(s, schedule);
    EnqueuedGrows(s, schedule);
  }

  lemma {:induction false} CallsExtend(s: Conn, schedule: seq<Choice>)
    requires Calls(schedule)
    ensures s.queryQueue <= Run(s, schedule).queryQueue
    decreases |schedule|
  {
    hide NativeStep;
    if schedule == [] {
    } else {
      var c := Last(schedule);
      assert c == schedule[|schedule| - 1];
      CallsExtend(s, Init(schedule));
      NativeEnqueues(Run(s, Init(schedule)), c.n, c.address);
    }
  }

  /** A visit under script calls of every kind executes at least what it set out to execute. */
  lemma {:induction false} VisitUnderAnyCalls(s: Conn, ret: int, others: seq<seq<Choice>>)
    requires Inv(s) && |others| >= WorkerLeft(s.worker)
    requires forall k :: 0 <= k < |others| ==> Calls(others[k])
    ensures var v := Visit(s, ret, others);
      && Inv(v) && v.worker.Resting? && v.tick == s.tick && v.log.delivered == s.log.delivered
      && s.log.enqueued <= v.log.enqueued && s.log.executed + ToExecute(s) <= v.log.executed
    decreases |others|
  {
    hide Inv, WorkerStep, Run, ToExecute, Calls;
    WorkerInv(s, ret);
    WorkerTowards(s, ret);
    var w := WorkerStep(s, ret);
    AnyStep(w, others[0]);
    var s' := Run(w, others[0]);
    if s'.worker.Resting? {
    } else {
      VisitUnderAnyCalls(s', ret, others[1..]);
    }
  }

  // ---- the game thread ----------------------------------------------------------------------------

  /** What the tick in progress has still to deliver. */
  function ToDeliver(s: Conn, scripts: seq<Script>): seq<Delivery> {
    if Dispatching(s.tick) then [Delivery(s.tick.c, s.tick.all)]
    else if s.tick.Dequeuing? || s.tick.Clearing? then []
    else if TickReady(s) then [Delivery(s.threadQueue[0], scripts)]
    else []
  }

  /** The callbacks it has still to make. */
  function ToCall(s: Conn, scripts: seq<Script>): seq<Call> {
    var t := s.tick;
    if t.Calling? then Dispatch(s.id, t.c, t.rest, t.vars)
    else if t.Within? then if t.rest == [] then [] else Dispatch(s.id, t.c, t.rest[1..], None)
    else if t.Dequeuing? || t.Clearing? then []
    else if TickReady(s) then Dispatch(s.id, s.threadQueue[0], scripts, VarsOf(s.threadQueue[0].extra))
    else []
  }

  function TickLeft(t: TickPc, n: nat): nat {
    match t
    case Idle => 2 * n + 7
    case Checking => 2 * n + 6
    case Confirming => 2 * n + 5
    case Reading => 2 * n + 4
    case Calling(_, _, rest, _) => 2 * |rest| + 3
    case Within(_, _, rest, _) => if rest == [] then 4 else 2 * |rest| + 2
    case Dequeuing => 2
    case Clearing => 1
  }

  predicate Towards(s: Conn, s': Conn, scripts: seq<Script>) {
    && (!s'.tick.Idle? ==> TickLeft(s'.tick, |scripts|) < TickLeft(s.tick, |scripts|))
    && s'.log.delivered + ToDeliver(s', scripts) == s.log.delivered + ToDeliver(s, scripts)
    && s'.log.calls + ToCall(s', scripts) == s.log.calls + ToCall(s, scripts)
    && (s'.tick.Idle? ==> !TickReady(s'))
  }

  lemma PeekTowards(s: Conn, scripts: seq<Script>)
    requires OneSlot(s) && (s.tick.Idle? || s.tick.Checking? || s.tick.Confirming?)
    ensures Towards(s, TickStep(s, scripts), scripts)
  {
    TickLooksFind(s, scripts);
    hide TickStep, Dispatch;
  }

  lemma ReadTowards(s: Conn, scripts: seq<Script>)
    requires OneSlot(s) && s.tick.Reading?
    ensures Towards(s, TickStep(s, scripts), scripts)
  {
    TickLooksFind(s, scripts);
    assert s.threadQueue != [] && TickReady(s);
    hide OneSlot, TickStep, Dispatch;
  }

  lemma LookTickTowards(s: Conn, scripts: seq<Script>)
    requires Inv(s) && !Handling(s.tick)
    ensures Towards(s, TickStep(s, scripts), scripts)
  {
    assert OneSlot(s);
    hide Inv, OneSlot, TickStep, Towards;
    if s.tick.Reading? { ReadTowards(s, scripts); } else { PeekTowards(s, scripts); }
  }

  lemma CallingTowards(s: Conn, scripts: seq<Script>)
    requires s.tick.Calling?
    ensures Towards(s, TickStep(s, scripts), scripts)
  {
    if s.tick.rest == [] { EndOfScripts(s, scripts); } else { PastScript(s, scripts); }
    CallsOfOne(s, scripts);
    hide TickStep, CallOf;
  }

  /** What the script at the head of the rest is called with, if it subscribes. */
  lemma CallsOfOne(s: Conn, scripts: seq<Script>)
    requires s.tick.Calling?
    ensures var t := s.tick;
      TickStep(s, scripts).log.calls == s.log.calls
        + if t.rest != [] && Subscribes(t.rest[0], t.c) then [CallOf(t.rest[0], t.c, t.vars, s.id)] else []
    ensures TickStep(s, scripts).id == s.id
  {
    hide Subscribes, CallOf;
  }

  lemma WithinTowards(s: Conn, scripts: seq<Script>)
    requires s.tick.Within? && s.tick.rest != []
    ensures Towards(s, TickStep(s, scripts), scripts)
  {
    WithinHeap(s, scripts);
    WithinCallsNone(s, scripts);
    hide TickStep;
  }

  lemma WithinCallsNone(s: Conn, scripts: seq<Script>)
    requires s.tick.Within?
    ensures TickStep(s, scripts).log.calls == s.log.calls && TickStep(s, scripts).id == s.id
  {
  }

  lemma EndTowards(s: Conn, scripts: seq<Script>)
    requires s.threadQueue != [] || s.tick.Clearing?
    requires s.tick.Dequeuing? || s.tick.Clearing?
    ensures Towards(s, TickStep(s, scripts), scripts)
  {
  }

  lemma HandleTickTowards(s: Conn, scripts: seq<Script>)
    requires Inv(s) && Handling(s.tick)
    ensures Towards(s, TickStep(s, scripts), scripts)
  {
    TickMay(s);
    hide Inv, TickStep, Towards;
    if s.tick.Calling? { CallingTowards(s, scripts); }
    else if s.tick.Within? { WithinTowards(s, scripts); }
    else { EndTowards(s, scripts); }
  }

  lemma TickTowards(s: Conn, scripts: seq<Script>)
    requires Inv(s)
    ensures var s' := TickStep(s, scripts);
      && TickLeft(s.tick, |scripts|) > 0 && Towards(s, s', scripts)
      && Inv(s') && s'.worker == s.worker && s'.log.executed == s.log.executed
  {
    hide Inv, TickStep, Towards;
    TickInv(s, scripts);
    TickFrame(s, scripts);
    if Handling(s.tick) { HandleTickTowards(s, scripts); } else { LookTickTowards(s, scripts); }
  }

  lemma CallStep(s: Conn, schedule: seq<Choice>, scripts: seq<Script>)
    requires Inv(s) && Calls(schedule)
    ensures var s' := Run(s, schedule);
      && Inv(s') && s'.worker == s.worker && s'.tick == s.tick && s'.log.executed == s.log.executed
      && s'.log.delivered == s.log.delivered && ToDeliver(s', scripts) == ToDeliver(s, scripts)
      && s'.log.calls == s.log.calls && ToCall(s', scripts) == ToCall(s, scripts)
      && TickReady(s') == TickReady(s)
  {
    hide Inv, Run, Dispatch;
    RunInv(s, schedule);
    CallsKeep(s, schedule);
  }

  /** A tick under script calls of every kind, before, between and within the callbacks:
      it delivers what it set out to deliver and makes exactly those callbacks. */
  lemma {:induction false} TickUnderCalls(s: Conn, scripts: seq<Script>, others: seq<seq<Choice>>)
    requires Inv(s) && |others| >= TickLeft(s.tick, |scripts|)
    requires forall k :: 0 <= k < |others| ==> Calls(others[k])
    ensures var v := TickVisit(s, scripts, others);
      && Inv(v) && v.tick.Idle? && !TickReady(v) && v.worker == s.worker && v.log.executed == s.log.executed
      && v.log.delivered == s.log.delivered + ToDeliver(s, scripts)
      && v.log.calls == s.log.calls + ToCall(s, scripts)
    decreases |others|
  {
    hide Inv, TickStep, Run, ToDeliver, ToCall, Calls, TickReady, TickLeft;
    TickTowards(s, scripts);
    var w := TickStep(s, scripts);
    CallStep(w, others[0], scripts);
    var s' := Run(w, others[0]);
    if s'.tick.Idle? {
      NothingToDeliver(s', scripts);
    } else {
      TickUnderCalls(s', scripts, others[1..]);
    }
  }

  lemma NothingToDeliver(s: Conn, scripts: seq<Script>)
    requires s.tick.Idle? && !TickReady(s)
    ensures ToDeliver(s, scripts) == [] && ToCall(s, scripts) == []
  {
  }

  lemma {:induction false} QuietTick(s: Conn, scripts: seq<Script>, others: seq<seq<Choice>>)
    requires forall k :: 0 <= k < |others| ==> QuietCalls(others[k])
    ensures TickVisit(s, scripts, others).log.enqueued == s.log.enqueued
    decreases |others|
  {
    hide TickStep, Run, QuietCalls;
    if others == [] {
    } else {
      var w := TickStep(s, scripts);
      TickFrame(s, scripts);
      QuietCallsKeep(w, others[0]);
      QuietTick(Run(w, others[0]), scripts, others[1..]);
    }
  }

  // ---- rounds -----------------------------------------------------------------------------------

  /** A pass of the query thread and a tick; `calls` and `tickCalls` are what scripts and
      callbacks call after each of their steps. */
  datatype Turn = Turn(ret: int, calls: seq<seq<Choice>>, scripts: seq<Script>, tickCalls: seq<seq<Choice>>) {
    predicate Quiet() {
      && |calls| == ITEM_STEPS && |tickCalls| == TickLength(|scripts|)
      && (forall k :: 0 <= k < |calls| ==> QuietCalls(calls[k]))
      && (forall k :: 0 <= k < |tickCalls| ==> QuietCalls(tickCalls[k]))
    }
  }

  function TurnOf(s: Conn, t: Turn): Conn {
    TickVisit(Visit(s, t.ret, t.calls), t.scripts, t.tickCalls)
  }

  function Turns(s: Conn, turns: seq<Turn>): Conn
    decreases |turns|
  {
    if turns == [] then s else Turns(TurnOf(s, turns[0]), turns[1..])
  }

  /** At rest the queue is what was enqueued and not executed. */
  lemma RestingQueue(s: Conn)
    requires Inv(s) && BothAway(s)
    ensures |s.queryQueue| == |s.log.enqueued| - |s.log.executed|
    ensures |s.threadQueue| <= 1 && (s.parsing <==> s.threadQueue != [])
  {
    hide Judged, Owned, Called, Stated;
  }

  lemma TurnWorks(s: Conn, t: Turn)
    requires Inv(s) && BothAway(s) && t.Quiet()
    ensures var s' := TurnOf(s, t);
      && Inv(s') && BothAway(s') && s'.threadQueue == [] && s'.log.enqueued == s.log.enqueued
      && s'.log.executed == s.log.executed
           + if s.threadQueue == [] && s.queryQueue != [] then [s.queryQueue[0]] else []
  {
    var v := Visit(s, t.ret, t.calls);
    RestingQueue(s);
    VisitUnderCalls(s, t.ret, t.calls);
    assert forall k :: 0 <= k < |t.tickCalls| ==> Calls(t.tickCalls[k]);
    TickUnderCalls(v, t.scripts, t.tickCalls);
    QuietTick(v, t.scripts, t.tickCalls);
    RestingQueue(TurnOf(s, t));
    hide Inv, Visit, TickVisit, Run;
  }

  /** With both threads at the head of their loops, and whatever scripts and callbacks call
      after every step as long as it puts nothing on the queue, each round of a pass and a
      tick takes one query off the queue, except the first if a completion is still owed:
      n queries are gone after n rounds, or n + 1. */
  lemma {:induction false} RoundsDrain(s: Conn, turns: seq<Turn>)
    requires Inv(s) && BothAway(s)
    requires forall k :: 0 <= k < |turns| ==> turns[k].Quiet()
    ensures var s' := Turns(s, turns);
      var late := if s.threadQueue == [] then 0 else 1;
      && Inv(s') && BothAway(s')
      && |s'.queryQueue| == (if |turns| <= late then |s.queryQueue|
                             else if |turns| - late <= |s.queryQueue| then |s.queryQueue| - (|turns| - late) else 0)
      && (|turns| >= |s.queryQueue| + late ==> Quiescent(s'))
    decreases |turns|
  {
    hide Inv, TurnOf;
    if turns == [] {
    } else {
      var s' := TurnOf(s, turns[0]);
      TurnWorks(s, turns[0]);
      RestingQueue(s);
      RestingQueue(s');
      RoundsDrain(s', turns[1..]);
    }
  }

  /** The same with nobody calling anything. */
  lemma RoundsAloneDrain(s: Conn, rets: seq<int>, scripts: seq<Script>)
    requires Inv(s) && BothAway(s)
    requires |rets| >= |s.queryQueue| + |s.threadQueue|
    ensures Quiescent(Turns(s, AloneTurns(rets, scripts)))
  {
    hide Inv, Quiescent;
    RestingQueue(s);
    RoundsDrain(s, AloneTurns(rets, scripts));
  }

  function AloneTurns(rets: seq<int>, scripts: seq<Script>): (r: seq<Turn>)
    ensures |r| == |rets| && forall k :: 0 <= k < |r| ==> r[k].Quiet()
  {
    seq(|rets|, k requires 0 <= k < |rets| => AloneTurn(rets[k], scripts))
  }

  function AloneTurn(ret: int, scripts: seq<Script>): (t: Turn)
    ensures t.Quiet()
  {
    Turn(ret, Alone(ITEM_STEPS), scripts, Alone(TickLength(|scripts|)))
  }

  // ---- rounds in which queries are queued -------------------------------------------------------

  /** Scripts and callbacks may call anything. */
  predicate Loaded(t: Turn) {
    && |t.calls| == ITEM_STEPS && |t.tickCalls| == TickLength(|t.scripts|)
    && (forall k :: 0 <= k < |t.calls| ==> Calls(t.calls[k]))
    && (forall k :: 0 <= k < |t.tickCalls| ==> Calls(t.tickCalls[k]))
  }

  lemma TickEnqueues(s: Conn, scripts: seq<Script>, others: seq<seq<Choice>>)
    ensures s.log.enqueued <= TickVisit(s, scripts, others).log.enqueued
  {
    TickVisitIsRun(s, scripts, others);
    hide TickVisit, Run;
    var schedule :| TickVisit(s, scripts, others) == Run(s, schedule);
    EnqueuedGrows(s, schedule);
  }

  lemma LoadedTurnWorks(s: Conn, t: Turn)
    requires Inv(s) && BothAway(s) && Loaded(t)
    ensures var s' := TurnOf(s, t);
      && Inv(s') && BothAway(s') && s'.threadQueue == [] && s.log.enqueued <= s'.log.enqueued
      && |s'.log.executed| >= |s.log.executed| + (if s.threadQueue == [] && s.queryQueue != [] then 1 else 0)
  {
    var v := Visit(s, t.ret, t.calls);
    RestingQueue(s);
    VisitUnderAnyCalls(s, t.ret, t.calls);
    TickUnderCalls(v, t.scripts, t.tickCalls);
    TickEnqueues(v, t.scripts, t.tickCalls);
    RestingQueue(TurnOf(s, t));
    hide Inv, Visit, TickVisit, Run;
  }

  /** Bounded waiting in rounds.  Scripts and callbacks may call anything after every step and
      keep queuing: the first `k` queries are executed within as many rounds as were missing,
      and one more if a completion was still owed. */
  lemma {:induction false} RoundsServe(s: Conn, turns: seq<Turn>, k: nat)
    requires Inv(s) && BothAway(s) && k <= |s.log.enqueued|
    requires forall i :: 0 <= i < |turns| ==> Loaded(turns[i])
    requires |turns| >= k - |s.log.executed| + |s.threadQueue|
    ensures var s' := Turns(s, turns);
      Inv(s') && BothAway(s') && |s'.log.executed| >= k
    decreases |turns|
  {
    hide Inv, TurnOf, Loaded, BothAway;
    RestingQueue(s);
    if turns == [] {
    } else {
      var s' := TurnOf(s, turns[0]);
      LoadedTurnWorks(s, turns[0]);
      RoundsServe(s', turns[1..], k);
    }
  }
}
