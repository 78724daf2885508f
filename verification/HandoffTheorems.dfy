/** What holds of one handle in every interleaving of the two threads and the scripts. */
module HandoffTheorems {
  import opened Base
  import opened Results
  import opened ResultLaws
  import opened Handoff
  import opened HandoffInvariant

  /** A handle after any run of its own from its creation. */
  ghost predicate Reachable(s: Conn) {
    exists id, mysql, next, schedule :: s == Run(New(id, mysql, next), schedule)
  }

  lemma ReachableInv(s: Conn)
    requires Reachable(s)
    ensures Inv(s)
  {
    hide Inv;
    var id, mysql, next, schedule :| s == Run(New(id, mysql, next), schedule);
    NewInv(id, mysql, next);
    RunInv(New(id, mysql, next), schedule);
  }

  // ---- refinement of a sequential pipeline -------------------------------------------------

  /** The simple system: one queue, at most one query running, at most one completion owed. */
  datatype Pipeline = Pipeline(
    waiting: seq<Query>, running: Option<Query>, owed: Option<Completion>,
    ran: seq<Query>, delivered: seq<Completion>)

  datatype Event = Stutter | Enqueue(q: Query) | Start | Judge(passed: bool) | Deliver

  /** What each event needs and does; None where it may not happen. */
  function Fire(p: Pipeline, e: Event): Option<Pipeline> {
    match e
    case Stutter => Some(p)
    case Enqueue(q) => Some(p.(waiting := p.waiting + [q]))
    case Start =>
      if p.waiting == [] || p.running.Some? || p.owed.Some? then None
      else Some(p.(waiting := p.waiting[1..], running := Some(p.waiting[0]), ran := p.ran + [p.waiting[0]]))
    case Judge(passed) =>
      if p.running.None? || p.owed.Some? then None
      else Some(p.(running := None, owed := if passed then Some(CompletionOf(p.running.value)) else None))
    case Deliver =>
      if p.owed.None? then None
      else Some(p.(owed := None, delivered := p.delivered + [p.owed.value]))
  }

  function Head<T>(s: seq<T>): Option<T> {
    if s == [] then None else Some(s[0])
  }

  /** The pipeline a handle stands for. */
  function Abs(s: Conn): Pipeline {
    Pipeline(if FrontDone(s.worker) && s.queryQueue != [] then s.queryQueue[1..] else s.queryQueue,
             if Unjudged(s.worker) then Some(s.worker.q) else None,
             Head(Owed(s)), s.log.executed, Delivered(s.log.delivered))
  }

  /** The event an atomic step amounts to. */
  function EventOf(s: Conn, c: Choice): Event {
    match c
    case Worker(_) =>
      if s.worker.Executing? then Start
      else if s.worker.Judging? then Judge(s.slot.state == 0) else Stutter
    case Tick(_) => if s.tick.Calling? && s.tick.rest == [] then Deliver else Stutter
    case Native(n, address) =>
      var s' := NativeStep(s, n, address);
      if |s'.queryQueue| > |s.queryQueue| then Enqueue(Last(s'.queryQueue)) else Stutter
  }

  lemma BusyRefines(s: Conn, ret: int)
    requires Fifo(s) && OneSlot(s) && (s.worker.Executing? || Unjudged(s.worker))
    ensures Fire(Abs(s), EventOf(s, Worker(ret))) == Some(Abs(WorkerStep(s, ret)))
  {
    hide InOrder, Delivered;
  }

  lemma FrontPopped(s: Conn, ret: int)
    requires Fifo(s) && s.worker.Popping?
    ensures Abs(WorkerStep(s, ret)) == Abs(s)
  {
    hide InOrder, Delivered;
  }

  lemma PublishingRefines(s: Conn, ret: int)
    requires OneSlot(s) && FrontDone(s.worker) && !Unjudged(s.worker) && !s.worker.Popping?
    ensures Abs(WorkerStep(s, ret)) == Abs(s)
  {
    PublishingKeeps(s, ret);
    PublishedQueues(s, ret);
    hide WorkerStep, Delivered;
  }

  lemma PublishedQueues(s: Conn, ret: int)
    requires FrontDone(s.worker) && !Unjudged(s.worker) && !s.worker.Popping?
    ensures var s' := WorkerStep(s, ret);
      && s'.queryQueue == s.queryQueue && FrontDone(s'.worker)
      && (s.worker.Pushing? ==> s'.threadQueue == s.threadQueue + [CompletionOf(s.worker.q)] && s'.worker.Freeing?)
  {
  }

  lemma PoppingRefines(s: Conn, ret: int)
    requires Fifo(s) && OneSlot(s) && !s.worker.Executing? && !Unjudged(s.worker) && !Looking(s.worker)
    ensures Abs(WorkerStep(s, ret)) == Abs(s)
  {
    hide Fifo, OneSlot, Abs, WorkerStep;
    if s.worker.Popping? { FrontPopped(s, ret); } else { PublishingRefines(s, ret); }
  }

  lemma LookingRefines(s: Conn, ret: int)
    requires Looking(s.worker)
    ensures Abs(WorkerStep(s, ret)) == Abs(s)
  {
    hide Delivered, WorkerStep;
    LookingFrame(s, ret);
  }

  lemma DeliverRefines(s: Conn, scripts: seq<Script>)
    requires OneSlot(s) && s.tick.Calling?
    ensures Fire(Abs(s), EventOf(s, Tick(scripts))) == Some(Abs(TickStep(s, scripts)))
  {
    var s' := TickStep(s, scripts);
    if s.tick.rest == [] {
      assert s'.tick.Dequeuing? && Abs(s').owed == None;
      assert Delivered(s'.log.delivered) == Delivered(s.log.delivered) + [s.tick.c];
    } else {
      assert s'.log.delivered == s.log.delivered;
    }
    hide Delivered;
  }

  lemma ElsewhereRefines(s: Conn, scripts: seq<Script>)
    requires OneSlot(s) && !s.tick.Calling?
    ensures Fire(Abs(s), EventOf(s, Tick(scripts))) == Some(Abs(TickStep(s, scripts)))
  {
    TickFrame(s, scripts);
    OwedStays(s, scripts);
    hide Delivered, FrontDone, Unjudged, InGuard, TickStep, OneSlot, Owed;
  }

  lemma OwedStays(s: Conn, scripts: seq<Script>)
    requires OneSlot(s) && !s.tick.Calling?
    ensures Owed(TickStep(s, scripts)) == Owed(s)
    ensures TickStep(s, scripts).log.delivered == s.log.delivered
  {
    hide InGuard;
  }

  lemma TickRefines(s: Conn, scripts: seq<Script>)
    requires OneSlot(s)
    ensures Fire(Abs(s), EventOf(s, Tick(scripts))) == Some(Abs(TickStep(s, scripts)))
  {
    hide Abs, EventOf, Fire, TickStep, OneSlot;
    if s.tick.Calling? { DeliverRefines(s, scripts); } else { ElsewhereRefines(s, scripts); }
  }

  lemma NativeRefines(s: Conn, n: NativeCall, address: nat)
    requires Fifo(s)
    ensures Fire(Abs(s), EventOf(s, Native(n, address))) == Some(Abs(NativeStep(s, n, address)))
  {
    hide NativeStep, InOrder, Delivered;
    var s' := NativeStep(s, n, address);
    NativeFrame(s, n, address);
    NativeEnqueues(s, n, address);
    assert s.queryQueue + [] == s.queryQueue;
    if |s'.queryQueue| > |s.queryQueue| && FrontDone(s.worker) {
      assert s'.queryQueue[1..] == s.queryQueue[1..] + [Last(s'.queryQueue)];
    }
  }

  /** Every atomic step of the two-thread system is an event of the sequential one. */
  lemma StepRefines(s: Conn, c: Choice)
    requires Inv(s)
    ensures Fire(Abs(s), EventOf(s, c)) == Some(Abs(Step(s, c)))
  {
    hide Fifo, OneSlot, Judged, Owned, Called, Stated, Abs;
    match c
    case Worker(ret) =>
      if Looking(s.worker) { LookingRefines(s, ret); }
      else if s.worker.Executing? || Unjudged(s.worker) { BusyRefines(s, ret); }
      else { PoppingRefines(s, ret); }
    case Tick(scripts) => TickRefines(s, scripts);
    case Native(n, address) => NativeRefines(s, n, address);
  }

  function EventsOf(s: Conn, schedule: seq<Choice>): (r: seq<Event>)
    ensures |r| == |schedule|
  {
    if schedule == [] then []
    else EventsOf(s, Init(schedule)) + [EventOf(Run(s, Init(schedule)), Last(schedule))]
  }

  function FireAll(p: Pipeline, es: seq<Event>): Option<Pipeline> {
    if es == [] then Some(p)
    else match FireAll(p, Init(es))
      case None => None
      case Some(p') => Fire(p', Last(es))
  }

  lemma FireNext(p: Pipeline, es: seq<Event>, e: Event)
    ensures FireAll(p, es + [e]) ==
      match FireAll(p, es) case None => None case Some(p') => Fire(p', e)
  {
    assert Init(es + [e]) == es;
    hide Fire;
  }

  /** Every interleaving is a run of the sequential pipeline. */
  lemma {:induction false} RunRefines(s: Conn, schedule: seq<Choice>)
    requires Inv(s)
    ensures FireAll(Abs(s), EventsOf(s, schedule)) == Some(Abs(Run(s, schedule)))
    decreases |schedule|
  {
    if schedule == [] {
    } else {
      var prior, e := Init(schedule), EventOf(Run(s, Init(schedule)), Last(schedule));
      RunInv(s, prior);
      StepRefines(Run(s, prior), Last(schedule));
      assert EventsOf(s, schedule) == EventsOf(s, prior) + [e];
      hide Inv, Abs, EventOf, EventsOf, Fire, Step;
      RunRefines(s, prior);
      FireNext(Abs(s), EventsOf(s, prior), e);
    }
  }

  const EMPTY: Pipeline := Pipeline([], None, None, [], [])

  function Enqueued(es: seq<Event>): seq<Query> {
    if es == [] then []
    else if Last(es).Enqueue? then Enqueued(Init(es)) + [Last(es).q] else Enqueued(Init(es))
  }

  function Judgements(es: seq<Event>): seq<bool> {
    if es == [] then []
    else if Last(es).Judge? then Judgements(Init(es)) + [Last(es).passed] else Judgements(Init(es))
  }

  /** The completions of the queries that passed. */
  function Successes(qs: seq<Query>, passed: seq<bool>): seq<Completion>
    requires |passed| <= |qs|
  {
    if passed == [] then []
    else if Last(passed) then Successes(qs, Init(passed)) + [CompletionOf(qs[|passed| - 1])]
    else Successes(qs, Init(passed))
  }

  lemma {:induction false} SuccessesPrefix(qs: seq<Query>, more: seq<Query>, passed: seq<bool>)
    requires |passed| <= |qs|
    ensures Successes(qs + more, passed) == Successes(qs, passed)
    decreases |passed|
  {
    if passed == [] {
    } else {
      SuccessesPrefix(qs, more, Init(passed));
    }
  }

  /** What the sequential pipeline does with any run of events it accepts: everything enqueued
      has run or waits, in order; and the completions of the passed queries are delivered, in
      the order they ran, but for the one still owed. */
  lemma {:induction false} PipelineLaws(es: seq<Event>)
    requires FireAll(EMPTY, es).Some?
    ensures var p := FireAll(EMPTY, es).value;
      && Enqueued(es) == p.ran + p.waiting
      && |p.ran| == |Judgements(es)| + One(p.running.Some?)
      && (p.running.Some? ==> p.running.value == Last(p.ran))
      && p.delivered + (if p.owed.Some? then [p.owed.value] else []) == Successes(p.ran, Judgements(es))
    decreases |es|
  {
    if es == [] {
    } else {
      PipelineLaws(Init(es));
      var before, p := FireAll(EMPTY, Init(es)).value, FireAll(EMPTY, es).value;
      var passed := Judgements(Init(es));
      if Last(es).Start? {
        assert before.ran + before.waiting == p.ran + p.waiting;
        SuccessesPrefix(before.ran, [before.waiting[0]], passed);
      } else if Last(es).Enqueue? {
        assert before.ran + before.waiting + [Last(es).q] == p.ran + p.waiting;
      } else if Last(es).Judge? {
        assert Init(Judgements(es)) == passed;
      }
    }
  }

  /** Which verdicts passed. */
  function Outcomes(vs: seq<Verdict>): (r: seq<bool>)
    ensures |r| == |vs|
  {
    seq(|vs|, i requires 0 <= i < |vs| => vs[i].seen == 0)
  }

  lemma NewIsEmpty(id: nat, mysql: bool, next: nat)
    ensures Abs(New(id, mysql, next)) == EMPTY
  {
  }

  /** What the log records of a step is what its event says. */
  lemma StepRecords(s: Conn, c: Choice)
    ensures var s', e := Step(s, c), EventOf(s, c);
      && s'.log.enqueued == s.log.enqueued + (if e.Enqueue? then [e.q] else [])
      && Outcomes(s'.log.verdicts) == Outcomes(s.log.verdicts) + (if e.Judge? then [e.passed] else [])
  {
    match c
    case Worker(ret) =>
      WorkerFrame(s, ret);
      WorkerJudges(s, ret);
      hide WorkerStep;
    case Tick(scripts) =>
      TickFrame(s, scripts);
      hide TickStep;
    case Native(n, address) =>
      NativeFrame(s, n, address);
      NativeEnqueues(s, n, address);
      hide NativeStep;
  }

  lemma WorkerJudges(s: Conn, ret: int)
    ensures s.worker.Judging? ==>
      var vs := WorkerStep(s, ret).log.verdicts;
      vs != [] && Init(vs) == s.log.verdicts && (Last(vs).seen == 0 <==> s.slot.state == 0)
    ensures !s.worker.Judging? ==> WorkerStep(s, ret).log.verdicts == s.log.verdicts
  {
  }

  lemma {:induction false} RunRecords(s: Conn, schedule: seq<Choice>)
    ensures var s', es := Run(s, schedule), EventsOf(s, schedule);
      && s'.log.enqueued == s.log.enqueued + Enqueued(es)
      && Outcomes(s'.log.verdicts) == Outcomes(s.log.verdicts) + Judgements(es)
    decreases |schedule|
  {
    if schedule == [] {
    } else {
      var prior := Init(schedule);
      var e := EventOf(Run(s, prior), Last(schedule));
      assert EventsOf(s, schedule) == EventsOf(s, prior) + [e];
      assert Init(EventsOf(s, prior) + [e]) == EventsOf(s, prior);
      hide Step, EventOf, EventsOf, Outcomes;
      RunRecords(s, prior);
      StepRecords(Run(s, prior), Last(schedule));
    }
  }

  /** Every interleaving from the creation of a handle is a run of the pipeline from the empty
      one: what the log says was enqueued has run or waits, in that order, and what was
      delivered, with what is owed, are the completions of the queries judged a success. */
  lemma RunsArePipelines(id: nat, mysql: bool, next: nat, schedule: seq<Choice>)
    ensures var s := Run(New(id, mysql, next), schedule);
      var es, p := EventsOf(New(id, mysql, next), schedule), Abs(s);
      && FireAll(EMPTY, es) == Some(p)
      && s.log.enqueued == Enqueued(es) == p.ran + p.waiting
      && Outcomes(s.log.verdicts) == Judgements(es) && |p.ran| == |s.log.verdicts| + One(p.running.Some?)
      && p.delivered + (if p.owed.Some? then [p.owed.value] else []) == Successes(p.ran, Outcomes(s.log.verdicts))
  {
    var s0 := New(id, mysql, next);
    NewInv(id, mysql, next);
    NewIsEmpty(id, mysql, next);
    assert s0.log.enqueued == [] && Outcomes(s0.log.verdicts) == [];
    hide Inv, Run, EventsOf, Abs, Outcomes, Successes, New;
    RunRefines(s0, schedule);
    PipelineLaws(EventsOf(s0, schedule));
    RunRecords(s0, schedule);
  }

  // ---- execution and delivery --------------------------------------------------------------

  lemma QueueHolds(s: Conn)
    requires Fifo(s)
    ensures |s.log.executed| <= |s.log.enqueued| && s.log.executed == s.log.enqueued[..|s.log.executed|]
    ensures FrontDone(s.worker) ==> s.queryQueue != [] && s.log.executed != [] && s.queryQueue[0] == Last(s.log.executed)
    ensures s.log.enqueued == s.log.executed + (if FrontDone(s.worker) then s.queryQueue[1..] else s.queryQueue)
  {
  }

  lemma DistinctTexts(qs: seq<Query>, next: nat)
    requires Ordered(qs, next)
    ensures forall i, j :: 0 <= i < j < |qs| ==> qs[i].text.ptr != qs[j].text.ptr
  {
    forall i, j | 0 <= i < j < |qs| ensures qs[i].text.ptr != qs[j].text.ptr {
      assert Top(qs[i]) < qs[j].text.ptr;
    }
  }

  /** Queued queries are executed in the order they were enqueued, each once: those executed
      are the first ones enqueued, and queryQueue holds the rest, together with the front
      between its execution and its pop. */
  lemma ExecutedInOrder(s: Conn)
    requires Reachable(s)
    ensures |s.log.executed| <= |s.log.enqueued| && s.log.executed == s.log.enqueued[..|s.log.executed|]
    ensures FrontDone(s.worker) ==> s.queryQueue != [] && s.log.executed != [] && s.queryQueue[0] == Last(s.log.executed)
    ensures s.log.enqueued == s.log.executed + (if FrontDone(s.worker) then s.queryQueue[1..] else s.queryQueue)
    ensures forall i, j :: 0 <= i < j < |s.log.enqueued| ==> s.log.enqueued[i].text.ptr != s.log.enqueued[j].text.ptr
  {
    ReachableInv(s);
    assert Fifo(s) && Ordered(s.log.enqueued, s.heap.next);
    hide Inv, Fifo, Ordered, Reachable;
    DistinctTexts(s.log.enqueued, s.heap.next);
    QueueHolds(s);
  }

  /** The i-th verdict is about the i-th enqueued query, and the completions delivered,
      followed by the one being handed over, are those of the queries that passed, in order. */
  lemma DeliveredExactlyOnce(s: Conn)
    requires Reachable(s)
    ensures |s.log.verdicts| <= |s.log.executed| <= |s.log.enqueued|
    ensures forall i :: 0 <= i < |s.log.verdicts| ==> s.log.verdicts[i].q == s.log.enqueued[i]
    ensures Delivered(s.log.delivered) + Owed(s) == Passed(s.log.verdicts)
    ensures |Owed(s)| <= 1
  {
    ReachableInv(s);
    hide Owned, Called, Stated, Passed, Delivered;
  }

  /** Each completion is one callback, in list order, in each subscribing script. */
  lemma CallbacksExactly(s: Conn)
    requires Reachable(s)
    ensures !Dispatching(s.tick) ==> s.log.calls == AllCalls(s.id, s.log.delivered)
    ensures Dispatching(s.tick) ==>
      var rest := if s.tick.Calling? then Dispatch(s.id, s.tick.c, s.tick.rest, s.tick.vars)
                  else if s.tick.rest == [] then [] else Dispatch(s.id, s.tick.c, s.tick.rest[1..], None);
      s.log.calls + rest
        == AllCalls(s.id, s.log.delivered) + Dispatch(s.id, s.tick.c, s.tick.all, VarsOf(s.tick.c.extra))
  {
    ReachableInv(s);
    hide Fifo, OneSlot, Judged, Owned, Stated, Dispatch, AllCalls;
  }

  /** The scripts of a list that define the callback of a completion. */
  function Subscribers(scripts: seq<Script>, c: Completion): seq<Script> {
    if scripts == [] then []
    else if Subscribes(scripts[0], c) then [scripts[0]] + Subscribers(scripts[1..], c)
    else Subscribers(scripts[1..], c)
  }

  /** A callback as declared in mysql.inc: (resultid, payload, handle). */
  function DeclaredCall(a: Script, c: Completion, text: Option<Str>, id: nat): (call: Call)
    ensures call.amx == a.amx && |call.args| == 3
    ensures call.args[0] == Num(c.resultId) && call.args[2] == Num(id)
    ensures c.extra.Id? ==> call.public == "OnMysqlQuery" && call.args[1] == Num(c.extra.n)
    ensures c.extra.Vars? ==> call.public == "OnMysqlQueryArray"
    ensures c.extra.Vars? ==> call.args[1] == if text.Some? then Text(text.value.content) else NullText
  {
    Call(a.amx,
      if c.extra.Id? then "OnMysqlQuery" else "OnMysqlQueryArray",
      [Num(c.resultId),
       if c.extra.Id? then Num(c.extra.n) else if text.Some? then Text(text.value.content) else NullText,
       Num(id)])
  }

  /** A dispatch calls every subscriber once, in order, with (resultid, payload, handle); the
      array text reaches the first subscriber only, the others are given a null string. */
  lemma {:induction false} DispatchFaithful(id: nat, c: Completion, scripts: seq<Script>, vars: Option<Str>)
    ensures var calls, subs := Dispatch(id, c, scripts, vars), Subscribers(scripts, c);
      && |calls| == |subs|
      && forall k :: 0 <= k < |calls| ==> calls[k] == DeclaredCall(subs[k], c, if k == 0 then vars else None, id)
    decreases |scripts|
  {
    if scripts == [] {
    } else {
      var first := Subscribes(scripts[0], c);
      var calls, subs := Dispatch(id, c, scripts, vars), Subscribers(scripts, c);
      var vars' := if first then None else vars;
      var calls', subs' := Dispatch(id, c, scripts[1..], vars'), Subscribers(scripts[1..], c);
      DispatchFaithful(id, c, scripts[1..], vars');
      CallIs(scripts[0], c, vars, id);
      assert calls == (if first then [DeclaredCall(scripts[0], c, vars, id)] else []) + calls';
      assert subs == (if first then [scripts[0]] else []) + subs';
      hide Dispatch, Subscribers, CallOf, DeclaredCall, Subscribes;
      assert first ==> forall k :: 1 <= k < |calls| ==> calls[k] == calls'[k - 1] && subs[k] == subs'[k - 1];
    }
  }

  lemma CallIs(a: Script, c: Completion, vars: Option<Str>, id: nat)
    ensures CallOf(a, c, vars, id) == DeclaredCall(a, c, vars, id)
  {
    var payload := if c.extra.Id? then Num(c.extra.n)
                   else if vars.Some? then Text(vars.value.content) else NullText;
    ThreeReversed(Num(id), payload, Num(c.resultId));
  }

  lemma ThreeReversed(a: Arg, b: Arg, c: Arg)
    ensures Reverse([a, b, c]) == [c, b, a]
  {
    assert [a, b, c][1..] == [b, c] && [b, c][1..] == [c] && [c][1..] == [];
    assert Reverse([c]) == [c] && Reverse([b, c]) == [c, b];
  }

  // ---- the one-slot hand-over ----------------------------------------------------------------

  /** threadQueue holds at most one completion and then `parsing` is up; `parsing` is up over an
      empty threadQueue only between lines 61 and 62 and between lines 130 and 131; and where
      the failure branch lowers it, nothing is being handed over. */
  lemma OneSlotHandover(s: Conn)
    requires Reachable(s)
    ensures |s.threadQueue| <= 1 && (s.threadQueue != [] ==> s.parsing)
    ensures s.parsing && s.threadQueue == [] <==> s.worker.Pushing? || s.tick.Clearing?
    ensures s.worker.Lowering? ==> !s.parsing && !HandingOver(s) && Step(s, Worker(0)).parsing == s.parsing
  {
    ReachableInv(s);
    hide Fifo, Judged, Owned, Called, Stated;
  }

  /** The window of a callback: from the judgement of a success until the tick lowers
      `parsing`, no queued query is executed, and nothing but that closes the window. */
  lemma CallbackWindow(s: Conn, c: Choice)
    requires Reachable(s) && HandingOver(s)
    ensures Step(s, c).log.executed == s.log.executed
    ensures HandingOver(Step(s, c)) || (s.tick.Clearing? && c.Tick?)
  {
    ReachableInv(s);
    assert OneSlot(s);
    hide Inv, Reachable, OneSlot, HandingOver, WorkerStep, TickStep, NativeStep;
    match c
    case Worker(ret) => WorkerStaysOut(s, ret);
    case Tick(scripts) =>
      TickFrame(s, scripts);
      TickClosesWindow(s, scripts);
    case Native(n, address) =>
      NativeFrame(s, n, address);
      HandingOverFrame(s, NativeStep(s, n, address));
  }

  lemma WorkerStaysOut(s: Conn, ret: int)
    requires OneSlot(s) && HandingOver(s)
    ensures WorkerStep(s, ret).log.executed == s.log.executed && HandingOver(WorkerStep(s, ret))
  {
  }

  lemma TickClosesWindow(s: Conn, scripts: seq<Script>)
    requires OneSlot(s) && HandingOver(s)
    ensures HandingOver(TickStep(s, scripts)) || s.tick.Clearing?
  {
    hide Subscribes, CallOf;
  }

  lemma HandingOverFrame(s: Conn, s': Conn)
    requires s'.worker == s.worker && s'.tick == s.tick && s'.threadQueue == s.threadQueue
    ensures HandingOver(s') == HandingOver(s)
  {
  }

  /** When the callback of a completion runs, that completion is the last query executed by
      the worker; and if no script has run a query at once or called free_result since that
      query was executed, then it was also the last statement of the connection, it succeeded,
      `state` is 0, and a store with nothing stored yields its result. */
  lemma CallbackStoresItsOwnResult(s: Conn, table: Table)
    requires Reachable(s) && Dispatching(s.tick)
    ensures s.log.verdicts != [] && s.log.executed != []
    ensures var v := Last(s.log.verdicts);
      && v.q == Last(s.log.executed) && s.tick.c == CompletionOf(v.q)
      && (s.log.scriptWrites == v.begun.writes ==>
            && v.ret == 0 && s.slot.execs == v.stmt + 1 && s.slot.state == 0
            && (s.slot.result.None? ==>
                  var (slot', reply) := StoreResult(s.slot, Some(table));
                  reply == Stored && slot'.result.value.source == v.stmt && slot'.result.value.table == table))
  {
    ReachableInv(s);
    hide Owned, Called, Passed, Delivered, Conserved, InOrder;
  }

  // ---- the status a query is judged by ---------------------------------------------------------

  /** The status read at line 50 is the one `state` was last given, and it is the execution's
      own unless a script wrote `state` between the execution and the judgement. */
  lemma JudgedByState(s: Conn, i: nat)
    requires Reachable(s) && i < |s.log.verdicts|
    ensures var v := s.log.verdicts[i];
      && v.seen == StatusOf(v.writer)
      && (v.found == v.begun.writes ==> v.writer == Executed(v.stmt, v.ret) && v.seen == v.ret)
  {
    ReachableInv(s);
    hide Fifo, OneSlot, Judged, Owned, Called, Sound;
  }

  /** What `state` holds after these calls, if it held `own` before them: the status of the
      last unqueued query or free_result among them. */
  function StatusAfter(calls: seq<Choice>, own: int): int {
    if calls == [] then own
    else match Last(calls)
      case Native(MysqlFreeResult, _) => -1
      case Native(MysqlQuery(_, resultId, _, ret), _) =>
        if resultId == -1 then ret else StatusAfter(Init(calls), own)
      case Native(MysqlQueryArray(_, resultId, _, ret), _) =>
        if resultId == -1 then ret else StatusAfter(Init(calls), own)
      case _ => StatusAfter(Init(calls), own)
  }

  lemma StateAfterNative(s: Conn, n: NativeCall, address: nat)
    requires s.connected
    ensures NativeStep(s, n, address).connected
    ensures NativeStep(s, n, address).slot.state == StatusAfter([Native(n, address)], s.slot.state)
  {
    assert Init([Native(n, address)]) == [];
    hide GetString;
  }

  lemma TickKeepsState(s: Conn, scripts: seq<Script>)
    ensures var s' := TickStep(s, scripts);
      s'.connected == s.connected && s'.worker == s.worker && s'.slot == s.slot
  {
    hide TickStep;
    TickFrame(s, scripts);
  }

  lemma {:induction false} StateAfterCalls(s: Conn, calls: seq<Choice>)
    requires s.connected
    requires forall i :: 0 <= i < |calls| ==> !calls[i].Worker?
    ensures var s' := Run(s, calls);
      s'.connected && s'.worker == s.worker && s'.slot.state == StatusAfter(calls, s.slot.state)
    decreases |calls|
  {
    hide NativeStep, TickStep;
    if calls == [] {
    } else {
      StateAfterCalls(s, Init(calls));
      var before, c := Run(s, Init(calls)), Last(calls);
      if c.Native? {
        StateAfterNative(before, c.n, c.address);
        NativeFrame(before, c.n, c.address);
        assert Init([c]) == [];
      } else {
        TickKeepsState(before, c.scripts);
      }
    }
  }

  /** Between the worker's write of its status and its look at `state`, let the other thread
      and the scripts do anything: the outcome the query is given is that of the last
      unqueued query or free_result they made, and only failing that its own.  So a query is
      judged rightly if and only if StatusAfter and its own status agree on being 0. */
  lemma JudgedExactly(s: Conn, ret: int, calls: seq<Choice>)
    requires Reachable(s) && s.worker.Recording?
    requires forall i :: 0 <= i < |calls| ==> !calls[i].Worker?
    ensures var s' := Step(Run(Step(s, Worker(ret)), calls), Worker(ret));
      var own := s.worker.ret;
      && s'.log.verdicts != [] && Last(s'.log.verdicts).ret == own
      && Last(s'.log.verdicts).seen == StatusAfter(calls, own)
      && (s'.worker.Raising? <==> StatusAfter(calls, own) == 0) && (s'.worker.Raising? || s'.worker.Lowering?)
  {
    assert s.connected && s.worker.Recording? by { ReachableInv(s); }
    hide WorkerStep, TickStep, NativeStep, StatusAfter, Inv;
    var s1 := Step(s, Worker(ret));
    RecordingStep(s, ret);
    StateAfterCalls(s1, calls);
    JudgingStep(Run(s1, calls), ret);
  }

  lemma RecordingStep(s: Conn, ret: int)
    requires s.worker.Recording?
    ensures var s' := WorkerStep(s, ret);
      && s'.worker == Judging(s.worker.q, s.worker.stmt, s.worker.ret, s.worker.begun, s.log.scriptWrites)
      && s'.slot.state == s.worker.ret && s'.connected == s.connected
  {
  }

  lemma JudgingStep(s: Conn, ret: int)
    requires s.worker.Judging?
    ensures var s' := WorkerStep(s, ret);
      && s'.log.verdicts != [] && Last(s'.log.verdicts).ret == s.worker.ret
      && Last(s'.log.verdicts).seen == s.slot.state
      && (s'.worker.Raising? <==> s.slot.state == 0) && (s'.worker.Raising? || s'.worker.Lowering?)
  {
  }

  /** The race is real: with one unqueued query that succeeds in the gap, a query the server
      rejected is handed over as a success; with one free_result in the gap, a query the
      server executed is never heard of. */
  lemma JudgementRace(s: Conn)
    requires Reachable(s) && s.worker.Recording?
    ensures s.worker.ret == 1 ==>
      Step(Run(Step(s, Worker(0)), [Native(MysqlQuery("s", -1, 0, 0), 0)]), Worker(0)).worker.Raising?
    ensures s.worker.ret == 0 ==>
      Step(Run(Step(s, Worker(0)), [Native(MysqlFreeResult, 0)]), Worker(0)).worker.Lowering?
  {
    var ask, free := [Native(MysqlQuery("s", -1, 0, 0), 0)], [Native(MysqlFreeResult, 0)];
    JudgedExactly(s, 0, ask);
    JudgedExactly(s, 0, free);
    assert Last(ask) == ask[0] && Last(free) == free[0];
    hide Step, Run, Inv;
  }

  /** A worker about to record the status of a query is a state that occurs, whatever the
      status. */
  lemma RecordingOccurs(ret: int)
    ensures exists s :: Reachable(s) && s.worker.Recording? && s.worker.ret == ret
  {
    var c0, c1 := Native(Connect(true), 0), Native(MysqlQuery("q", 1, 0, 0), 0);
    var w := Worker(ret);
    var s0 := New(0, true, 0);
    var s2 := Step(Step(s0, c0), c1);
    var s7 := Step(Step(Step(Step(Step(s2, w), w), w), w), w);
    var schedule := [c0, c1, w, w, w, w, w];
    RunSteps(s0, schedule);
    assert s2.queryQueue == [Query(Str(0, "q"), 1, Id(0))] && !s2.parsing && s2.worker == Resting;
    TakenUp(s2, ret);
    assert s7 == Run(s0, schedule);
    hide Step, Run;
  }

  lemma TakenUp(s: Conn, ret: int)
    requires s.queryQueue != [] && !s.parsing && s.worker == Resting
    ensures var w := Worker(ret);
      var s' := Step(Step(Step(Step(Step(s, w), w), w), w), w);
      s'.worker.Recording? && s'.worker.ret == ret
  {
    var w := Worker(ret);
    assert Step(Step(Step(s, w), w), w) == s.(worker := Taking);
  }

  lemma RunSteps(s: Conn, c: seq<Choice>)
    requires |c| == 7
    ensures Run(s, c) == Step(Step(Step(Step(Step(Step(Step(s, c[0]), c[1]), c[2]), c[3]), c[4]), c[5]), c[6])
  {
    assert Init(c) == c[..6] && Init(c[..6]) == c[..5] && Init(c[..5]) == c[..4] && Init(c[..4]) == c[..3];
    assert Init(c[..3]) == c[..2] && Init(c[..2]) == c[..1] && Init(c[..1]) == [];
    hide Step;
    assert Run(s, c[..1]) == Step(s, c[0]);
    assert Run(s, c[..2]) == Step(Run(s, c[..1]), c[1]);
    assert Run(s, c[..3]) == Step(Run(s, c[..2]), c[2]);
    assert Run(s, c[..4]) == Step(Run(s, c[..3]), c[3]);
    assert Run(s, c[..5]) == Step(Run(s, c[..4]), c[4]);
    assert Run(s, c[..6]) == Step(Run(s, c[..5]), c[5]);
  }

  predicate WritesState(c: Choice) {
    c.Native? && (c.n.MysqlFreeResult?
      || (c.n.MysqlQuery? && c.n.resultId == -1) || (c.n.MysqlQueryArray? && c.n.resultId == -1))
  }

  lemma QuietNative(s: Conn, n: NativeCall, address: nat)
    requires !WritesState(Native(n, address))
    ensures NativeStep(s, n, address).log.scriptWrites == s.log.scriptWrites
  {
    hide GetString, Release, StoreResult, Cursor;
  }

  lemma QuietThreads(s: Conn, c: Choice)
    requires !c.Native?
    ensures Step(s, c).log.scriptWrites == s.log.scriptWrites
  {
    hide WorkerStep, TickStep;
    match c
    case Worker(ret) => WorkerFrame(s, ret);
    case Tick(scripts) => TickFrame(s, scripts);
  }

  lemma {:induction false} QuietRun(s: Conn, schedule: seq<Choice>)
    requires forall i :: 0 <= i < |schedule| ==> !WritesState(schedule[i])
    ensures Run(s, schedule).log.scriptWrites == s.log.scriptWrites
    decreases |schedule|
  {
    hide WorkerStep, TickStep, NativeStep, WritesState;
    if schedule == [] {
    } else {
      QuietRun(s, Init(schedule));
      var before, c := Run(s, Init(schedule)), Last(schedule);
      if c.Native? { QuietNative(before, c.n, c.address); } else { QuietThreads(before, c); }
    }
  }

  /** The completions owed to the queries that the server itself executed without error. */
  function Succeeded(vs: seq<Verdict>): seq<Completion> {
    if vs == [] then []
    else if Last(vs).ret == 0 then Succeeded(Init(vs)) + [CompletionOf(Last(vs).q)] else Succeeded(Init(vs))
  }

  lemma {:induction false} SucceededIsPassed(vs: seq<Verdict>)
    requires forall i :: 0 <= i < |vs| ==> (vs[i].seen == 0 <==> vs[i].ret == 0)
    ensures Succeeded(vs) == Passed(vs)
    decreases |vs|
  {
    if vs == [] {
    } else {
      SucceededIsPassed(Init(vs));
    }
  }

  /** If scripts only use queued queries and never free_result on this handle, callbacks are
      owed to exactly the queries that succeeded. */
  lemma QuietScriptsHearEverySuccess(id: nat, mysql: bool, next: nat, schedule: seq<Choice>)
    requires forall i :: 0 <= i < |schedule| ==> !WritesState(schedule[i])
    ensures var s := Run(New(id, mysql, next), schedule);
      Delivered(s.log.delivered) + Owed(s) == Succeeded(s.log.verdicts)
  {
    var s := Run(New(id, mysql, next), schedule);
    QuietRun(New(id, mysql, next), schedule);
    assert Reachable(s);
    DeliveredExactlyOnce(s);
    assert VerdictsSpeak(s.log.verdicts, s.log.scriptWrites, s.slot) by { ReachableInv(s); }
    forall i | 0 <= i < |s.log.verdicts| ensures s.log.verdicts[i].seen == 0 <==> s.log.verdicts[i].ret == 0 {
      assert s.log.verdicts[i].found == 0;
    }
    SucceededIsPassed(s.log.verdicts);
  }

  // ---- ownership --------------------------------------------------------------------------------

  /** What counts as a fault of the query thread: taking or popping from an empty queue, and
      sending or deleting a text that is not allocated. */
  lemma WorkerFaultsExactly(s: Conn, ret: int)
    ensures WorkerStep(s, ret).fault <==>
      || s.fault
      || ((s.worker.Taking? || s.worker.Popping?) && s.queryQueue == [])
      || ((s.worker.Executing? || s.worker.Freeing?) && s.worker.q.text.ptr !in s.heap.live)
  {
  }

  /** And of the tick: reading or popping from an empty queue, and passing on or deleting a
      callback text that is not allocated. */
  lemma TickFaultsExactly(s: Conn, scripts: seq<Script>)
    ensures TickStep(s, scripts).fault <==>
      || s.fault
      || ((s.tick.Reading? || s.tick.Dequeuing?) && s.threadQueue == [])
      || (s.tick.Calling? && s.tick.rest != [] && Subscribes(s.tick.rest[0], s.tick.c)
            && s.tick.vars.Some? && s.tick.vars.value.ptr !in s.heap.live)
      || (s.tick.Within? && s.tick.vars.Some? && s.tick.vars.value.ptr !in s.heap.live)
  {
    hide Subscribes, CallOf;
  }

  /** Nothing is read or deleted after its deletion, and nothing is taken from an empty queue. */
  lemma NoFault(s: Conn)
    requires Reachable(s)
    ensures !s.fault && NoRepeats(s.heap.freed)
    ensures forall p :: p in s.heap.freed ==> p !in s.heap.live
  {
    ReachableInv(s);
    hide Fifo, OneSlot, Judged, Called, Stated;
  }

  /** Every enqueued text is live while it is queued and deleted once it is not; the one entry
      of queryQueue that dangles is the front between the worker's delete and its pop. */
  lemma TextOwnership(s: Conn, k: nat)
    requires Reachable(s) && k < |s.log.enqueued|
    ensures var p := s.log.enqueued[k].text.ptr;
      && (p in s.heap.live <==> p !in s.heap.freed)
      && (p in s.heap.live <==> TextsFreed(s) <= k)
    ensures forall i :: 0 <= i < |s.queryQueue| ==>
      (s.queryQueue[i].text.ptr in s.heap.live <==> !(i == 0 && s.worker.Popping?))
  {
    ReachableInv(s);
    hide OneSlot, Judged, Called, Stated, VarsOwned;
    forall i | 0 <= i < |s.queryQueue|
      ensures s.queryQueue[i].text.ptr in s.heap.live <==> !(i == 0 && s.worker.Popping?)
    {
      assert s.queryQueue[i] == s.log.enqueued[Popped(s) + i];
    }
  }

  // ---- results ------------------------------------------------------------------------------------

  /** Result sets are given back once each and in order, at most one is live, and `state` is 0
      exactly when the last write to it recorded a successful execution. */
  lemma ResultConservation(s: Conn)
    requires Reachable(s)
    ensures s.slot.freed == Count(|s.slot.freed|)
    ensures s.slot.obtained == |s.slot.freed| + One(s.slot.result.Some?)
    ensures s.slot.result.Some? ==> s.slot.result.value.id == |s.slot.freed|
    ensures s.slot.state == 0 <==> s.slot.written.Executed? && s.slot.written.ret == 0
  {
    ReachableInv(s);
    hide Fifo, OneSlot, Judged, Owned, Called;
  }
}
