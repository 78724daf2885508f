/** What every atomic step of either thread, and every native, keeps. */
module HandoffInvariant {
  import opened Base
  import opened Results
  import opened ResultLaws
  import opened Handoff

  // ---- vocabulary ------------------------------------------------------------------------

  /** The front of queryQueue has been executed and not yet popped. */
  predicate FrontDone(w: WorkerPc) {
    w.Recording? || w.Judging? || w.Raising? || w.Pushing? || w.Lowering? || w.Reporting? || w.Freeing? || w.Popping?
  }

  /** The worker holds a copy of the front of queryQueue. */
  predicate HasCopy(w: WorkerPc) {
    w.Executing? || (FrontDone(w) && !w.Popping?)
  }

  /** Not holding a query yet. */
  predicate Looking(w: WorkerPc) {
    w.Resting? || w.Polling? || w.Gating? || w.Taking?
  }

  /** Executed, but its status not yet looked at. */
  predicate Unjudged(w: WorkerPc) {
    w.Recording? || w.Judging?
  }

  /** The worker has passed the guard of line 40 and not yet published an outcome. */
  predicate InGuard(w: WorkerPc) {
    w.Taking? || w.Executing? || w.Recording? || w.Judging? || w.Raising? || w.Lowering? || w.Reporting?
  }

  predicate Dispatching(t: TickPc) {
    t.Calling? || t.Within?
  }

  /** The tick has the completion in hand. */
  predicate Handling(t: TickPc) {
    Dispatching(t) || t.Dequeuing? || t.Clearing?
  }

  function One(b: bool): nat { if b then 1 else 0 }

  function Popped(s: Conn): int {
    |s.log.executed| - One(FrontDone(s.worker))
  }

  /** How many of the enqueued texts have been deleted. */
  function TextsFreed(s: Conn): int {
    |s.log.executed| - One(FrontDone(s.worker) && !s.worker.Popping?)
  }

  /** The completion that is owed but not delivered yet. */
  function Owed(s: Conn): seq<Completion> {
    if s.worker.Raising? || s.worker.Pushing? then [CompletionOf(s.worker.q)]
    else if s.tick.Dequeuing? then []
    else s.threadQueue
  }

  /** A success has been judged and its hand-over is not over. */
  predicate HandingOver(s: Conn) {
    s.worker.Raising? || s.worker.Pushing? || s.threadQueue != [] || s.tick.Clearing?
  }

  /** Completions of the verdicts whose status, as read at line 50, was 0. */
  function Passed(vs: seq<Verdict>): seq<Completion> {
    if vs == [] then []
    else if Last(vs).seen == 0 then Passed(Init(vs)) + [CompletionOf(Last(vs).q)] else Passed(Init(vs))
  }

  function Delivered(ds: seq<Delivery>): (r: seq<Completion>)
    ensures |r| == |ds|
  {
    seq(|ds|, i requires 0 <= i < |ds| => ds[i].c)
  }

  /** The calls owed to the remaining scripts; only the first of them is given the text. */
  function Dispatch(id: nat, c: Completion, rest: seq<Script>, vars: Option<Str>): seq<Call> {
    if rest == [] then []
    else if Subscribes(rest[0], c) then [CallOf(rest[0], c, vars, id)] + Dispatch(id, c, rest[1..], None)
    else Dispatch(id, c, rest[1..], vars)
  }

  function AllCalls(id: nat, ds: seq<Delivery>): seq<Call> {
    if ds == [] then []
    else AllCalls(id, Init(ds)) + Dispatch(id, Last(ds).c, Last(ds).scripts, VarsOf(Last(ds).c.extra))
  }

  function Top(q: Query): nat {
    if q.extra.Vars? then q.extra.s.ptr else q.text.ptr
  }

  // ---- the invariant, by concern -----------------------------------------------------------

  /** The queue is what was enqueued and not popped; executions follow the enqueued order. */
  predicate InOrder(enqueued: seq<Query>, executed: seq<Query>, queue: seq<Query>, popped: int) {
    && 0 <= popped <= |executed| <= |enqueued|
    && executed == enqueued[..|executed|]
    && queue == enqueued[popped..]
  }

  /** What the worker knows about the queue. */
  predicate FrontKnown(w: WorkerPc, queue: seq<Query>) {
    && (w.Gating? || w.Taking? || HasCopy(w) || w.Popping? ==> queue != [])
    && (HasCopy(w) ==> w.q == queue[0])
  }

  /** Queue and execution order. */
  predicate Fifo(s: Conn) {
    InOrder(s.log.enqueued, s.log.executed, s.queryQueue, Popped(s)) && FrontKnown(s.worker, s.queryQueue)
  }

  /** The one-slot hand-over. */
  predicate OneSlot(s: Conn) {
    && |s.threadQueue| <= 1
    && (s.threadQueue != [] ==> s.parsing)
    && (s.parsing && s.threadQueue == [] <==> s.worker.Pushing? || s.tick.Clearing?)
    && (InGuard(s.worker) ==> !s.parsing && s.threadQueue == [])
    && (s.worker.Pushing? || InGuard(s.worker) ==> s.tick.Idle? || s.tick.Checking?)
    && (s.tick.Confirming? || s.tick.Reading? || Dispatching(s.tick) || s.tick.Dequeuing? ==> s.threadQueue != [])
    && (Dispatching(s.tick) ==> s.threadQueue == [s.tick.c])
  }

  /** Verdicts follow executions. */
  predicate VerdictsFollow(executed: seq<Query>, verdicts: seq<Verdict>, unjudged: bool) {
    && |verdicts| == |executed| - One(unjudged)
    && (forall i :: 0 <= i < |verdicts| ==> verdicts[i].q == executed[i])
  }

  /** A hand-over is that of the last verdict, and nothing was executed since. */
  predicate HandsOverLast(executed: seq<Query>, verdicts: seq<Verdict>, queue: seq<Completion>) {
    && |verdicts| == |executed| > 0
    && Last(verdicts).seen == 0
    && (queue != [] ==> queue[0] == CompletionOf(Last(executed)))
  }

  predicate Judged(s: Conn) {
    && VerdictsFollow(s.log.executed, s.log.verdicts, Unjudged(s.worker))
    && (HandingOver(s) ==> HandsOverLast(s.log.executed, s.log.verdicts, s.threadQueue))
    && Delivered(s.log.delivered) + Owed(s) == Passed(s.log.verdicts)
  }

  /** Allocation identities grow along the queue. */
  predicate Ordered(qs: seq<Query>, next: nat) {
    && (forall i :: 0 <= i < |qs| ==> Top(qs[i]) < next)
    && (forall i :: 0 <= i < |qs| && qs[i].extra.Vars? ==> qs[i].text.ptr < qs[i].extra.s.ptr)
    && (forall i, j :: 0 <= i < j < |qs| ==> Top(qs[i]) < qs[j].text.ptr)
  }

  predicate NoRepeats(xs: seq<nat>) {
    forall i, j :: 0 <= i < j < |xs| ==> xs[i] != xs[j]
  }

  /** The callback text of the completion being handed over, unless it is deleted already. */
  function OwedVars(s: Conn): Option<Str> {
    if s.worker.Raising? || s.worker.Pushing? then VarsOf(s.worker.q.extra)
    else if Dispatching(s.tick) then s.tick.vars
    else if s.threadQueue != [] && !s.tick.Dequeuing? then VarsOf(s.threadQueue[0].extra)
    else None
  }

  predicate HeapSound(h: Heap) {
    && NoRepeats(h.freed)
    && (forall p :: p in h.live ==> p < h.next && p !in h.freed)
    && (forall i :: 0 <= i < |h.freed| ==> h.freed[i] < h.next)
  }

  /** Of the enqueued texts, the first `freed` are deleted and the others live. */
  predicate TextsOwned(h: Heap, qs: seq<Query>, freed: int) {
    && 0 <= freed <= |qs|
    && (forall k :: 0 <= k < |qs| ==> (qs[k].text.ptr in h.live <==> freed <= k))
    && (forall k :: 0 <= k < freed ==> qs[k].text.ptr in h.freed)
  }

  /** The callback texts of the queries not judged yet are live. */
  predicate VarsOwned(h: Heap, qs: seq<Query>, judged: int) {
    forall k :: 0 <= judged <= k < |qs| && qs[k].extra.Vars? ==> qs[k].extra.s.ptr in h.live
  }

  /** Who owns which string. */
  predicate Owned(s: Conn) {
    && HeapSound(s.heap)
    && Ordered(s.log.enqueued, s.heap.next)
    && TextsOwned(s.heap, s.log.enqueued, TextsFreed(s))
    && VarsOwned(s.heap, s.log.enqueued, |s.log.verdicts|)
    && (OwedVars(s).Some? ==> OwedVars(s).value.ptr in s.heap.live)
    && (Dispatching(s.tick) && s.tick.vars.Some? ==> s.tick.c.extra == Vars(s.tick.vars.value))
  }

  /** Callbacks made so far, and those the dispatch in progress still owes. */
  predicate CallsMade(id: nat, tick: TickPc, calls: seq<Call>, delivered: seq<Delivery>) {
    && (tick.Calling? ==>
          calls + Dispatch(id, tick.c, tick.rest, tick.vars)
            == AllCalls(id, delivered) + Dispatch(id, tick.c, tick.all, VarsOf(tick.c.extra)))
    && (tick.Within? ==>
          && tick.rest != []
          && calls + Dispatch(id, tick.c, tick.rest[1..], None)
               == AllCalls(id, delivered) + Dispatch(id, tick.c, tick.all, VarsOf(tick.c.extra)))
    && (!Dispatching(tick) ==> calls == AllCalls(id, delivered))
  }

  predicate Called(s: Conn) {
    CallsMade(s.id, s.tick, s.log.calls, s.log.delivered)
  }

  /** Every status read at line 50 was put there by the write recorded beside it, which is
      the execution's own unless a script wrote in between. */
  predicate VerdictsSpeak(vs: seq<Verdict>, scriptWrites: nat, slot: Slot) {
    forall i :: 0 <= i < |vs| ==>
      && vs[i].seen == StatusOf(vs[i].writer)
      && vs[i].begun.writes <= vs[i].found <= scriptWrites && vs[i].stmt < slot.execs
      && (vs[i].found == vs[i].begun.writes ==> vs[i].writer == Executed(vs[i].stmt, vs[i].ret))
  }

  /** If no script wrote `state` since the execution at hand, `state` is about that execution. */
  predicate WorkerSpeaks(w: WorkerPc, scriptWrites: nat, slot: Slot) {
    Unjudged(w) ==>
      && w.begun.writes <= scriptWrites && w.stmt < slot.execs
      && (scriptWrites == w.begun.writes ==>
            slot.execs == w.stmt + 1 && (w.Judging? ==> slot.written == Executed(w.stmt, w.ret)))
  }

  /** The same for the execution being handed over, which then succeeded. */
  predicate HandoverSpeaks(v: Verdict, scriptWrites: nat, slot: Slot) {
    scriptWrites == v.begun.writes ==>
      v.ret == 0 && slot.execs == v.stmt + 1 && slot.written == Executed(v.stmt, 0)
  }

  /** `state`, and which execution it speaks about. */
  predicate Stated(s: Conn) {
    && Sound(s.slot)
    && VerdictsSpeak(s.log.verdicts, s.log.scriptWrites, s.slot)
    && WorkerSpeaks(s.worker, s.log.scriptWrites, s.slot)
    && (HandingOver(s) && s.log.verdicts != [] ==>
          HandoverSpeaks(Last(s.log.verdicts), s.log.scriptWrites, s.slot))
  }

  predicate Inv(s: Conn) {
    && !s.fault && (s.connected ==> s.mysql) && (!s.connected ==> s.log.enqueued == [])
    && Fifo(s) && OneSlot(s) && Judged(s) && Owned(s) && Called(s) && Stated(s)
  }

  // ---- the initial state --------------------------------------------------------------------

  lemma NewInv(id: nat, mysql: bool, next: nat)
    ensures Inv(New(id, mysql, next))
  {
    NewQueues(id, mysql, next);
    NewJudged(id, mysql, next);
    NewOwned(id, mysql, next);
    NewStated(id, mysql, next);
    hide Fifo, OneSlot, Judged, Owned, Called, Stated;
  }

  lemma NewQueues(id: nat, mysql: bool, next: nat)
    ensures var s := New(id, mysql, next); Fifo(s) && OneSlot(s)
  {
  }

  lemma NewJudged(id: nat, mysql: bool, next: nat)
    ensures var s := New(id, mysql, next); Judged(s) && Called(s)
  {
    hide Dispatch;
  }

  lemma NewOwned(id: nat, mysql: bool, next: nat)
    ensures Owned(New(id, mysql, next))
  {
  }

  lemma NewStated(id: nat, mysql: bool, next: nat)
    ensures Stated(New(id, mysql, next))
  {
    assert FRESH.freed == Count(0);
  }

  // ---- what a thread never touches --------------------------------------------------------------

  predicate WorkerLeaves(s: Conn, s': Conn) {
    && s'.id == s.id && s'.mysql == s.mysql && s'.connected == s.connected && s'.tick == s.tick
    && s'.heap.next == s.heap.next && s'.log.scriptWrites == s.log.scriptWrites
    && s'.log.enqueued == s.log.enqueued && s'.log.delivered == s.log.delivered && s'.log.calls == s.log.calls
    && s'.log.atOnce == s.log.atOnce
  }

  lemma LookingLeaves(s: Conn, ret: int)
    requires Looking(s.worker)
    ensures WorkerLeaves(s, WorkerStep(s, ret))
  {
    hide WorkerStep;
    LookingFrame(s, ret);
  }

  lemma UnpublishedLeaves(s: Conn, ret: int)
    requires s.worker.Executing? || Unjudged(s.worker)
    ensures WorkerLeaves(s, WorkerStep(s, ret))
  {
  }

  lemma PublishingLeaves(s: Conn, ret: int)
    requires !(Looking(s.worker) || s.worker.Executing? || Unjudged(s.worker))
    ensures WorkerLeaves(s, WorkerStep(s, ret))
  {
  }

  lemma WorkerFrame(s: Conn, ret: int)
    ensures WorkerLeaves(s, WorkerStep(s, ret))
  {
    hide WorkerStep, WorkerLeaves;
    if Looking(s.worker) {
      LookingLeaves(s, ret);
    } else if s.worker.Executing? || Unjudged(s.worker) {
      UnpublishedLeaves(s, ret);
    } else {
      PublishingLeaves(s, ret);
    }
  }

  predicate TickLeaves(s: Conn, s': Conn) {
    && s'.id == s.id && s'.mysql == s.mysql && s'.connected == s.connected && s'.worker == s.worker
    && s'.queryQueue == s.queryQueue && s'.slot == s.slot && s'.heap.next == s.heap.next
    && s'.log.scriptWrites == s.log.scriptWrites && s'.log.enqueued == s.log.enqueued
    && s'.log.executed == s.log.executed && s'.log.verdicts == s.log.verdicts && s'.log.atOnce == s.log.atOnce
  }

  lemma CallingLeaves(s: Conn, scripts: seq<Script>)
    requires s.tick.Calling?
    ensures TickLeaves(s, TickStep(s, scripts))
  {
    hide Subscribes, CallOf;
  }

  lemma WithinLeaves(s: Conn, scripts: seq<Script>)
    requires s.tick.Within?
    ensures TickLeaves(s, TickStep(s, scripts))
  {
    hide Subscribes, CallOf;
  }

  lemma PeekingLeaves(s: Conn, scripts: seq<Script>)
    requires !Handling(s.tick)
    ensures TickLeaves(s, TickStep(s, scripts))
  {
    hide Subscribes, CallOf, Free, Follow;
  }

  lemma EndLeaves(s: Conn, scripts: seq<Script>)
    requires s.tick.Dequeuing? || s.tick.Clearing?
    ensures TickLeaves(s, TickStep(s, scripts))
  {
    hide Subscribes, CallOf, Free, Follow;
  }

  lemma TickFrame(s: Conn, scripts: seq<Script>)
    ensures TickLeaves(s, TickStep(s, scripts))
  {
    hide TickStep, TickLeaves;
    if s.tick.Calling? { CallingLeaves(s, scripts); }
    else if s.tick.Within? { WithinLeaves(s, scripts); }
    else if s.tick.Dequeuing? || s.tick.Clearing? { EndLeaves(s, scripts); }
    else { PeekingLeaves(s, scripts); }
  }

  /** Before it holds a query, the worker moves nothing but itself. */
  lemma LookingFrame(s: Conn, ret: int)
    requires Looking(s.worker)
    ensures var s' := WorkerStep(s, ret);
      && s' == s.(worker := s'.worker, fault := s'.fault) && (Looking(s'.worker) || s'.worker.Executing?)
      && (s'.fault == s.fault || (s.worker.Taking? && s.queryQueue == []))
  {
  }

  // ---- the worker ----------------------------------------------------------------------------

  lemma ExecutingFifo(s: Conn, ret: int)
    requires Fifo(s) && s.worker.Executing?
    ensures Fifo(WorkerStep(s, ret))
  {
    var n := |s.log.executed|;
    assert s.log.enqueued[n] == s.worker.q;
    assert s.log.enqueued[..n + 1] == s.log.enqueued[..n] + [s.worker.q];
  }

  lemma PoppingFifo(s: Conn, ret: int)
    requires Fifo(s) && s.worker.Popping?
    ensures Fifo(WorkerStep(s, ret))
  {
    assert s.queryQueue[1..] == s.log.enqueued[Popped(s) + 1..];
  }

  lemma OtherwiseFifo(s: Conn, ret: int)
    requires Fifo(s) && !s.worker.Executing? && !s.worker.Popping?
    ensures Fifo(WorkerStep(s, ret))
  {
    hide InOrder;
  }

  lemma WorkerFifo(s: Conn, ret: int)
    requires Fifo(s)
    ensures Fifo(WorkerStep(s, ret))
  {
    hide Fifo, WorkerStep;
    if s.worker.Executing? {
      ExecutingFifo(s, ret);
    } else if s.worker.Popping? {
      PoppingFifo(s, ret);
    } else {
      OtherwiseFifo(s, ret);
    }
  }

  lemma LookingOneSlot(s: Conn, ret: int)
    requires OneSlot(s) && Looking(s.worker)
    ensures OneSlot(WorkerStep(s, ret))
  {
  }

  lemma BusyOneSlot(s: Conn, ret: int)
    requires OneSlot(s) && !Looking(s.worker)
    ensures OneSlot(WorkerStep(s, ret))
  {
  }

  lemma WorkerOneSlot(s: Conn, ret: int)
    requires OneSlot(s)
    ensures OneSlot(WorkerStep(s, ret))
  {
    hide OneSlot, WorkerStep;
    if Looking(s.worker) { LookingOneSlot(s, ret); } else { BusyOneSlot(s, ret); }
  }

  lemma JudgingJudged(s: Conn, ret: int)
    requires Fifo(s) && OneSlot(s) && Judged(s) && s.worker.Judging?
    ensures Judged(WorkerStep(s, ret))
  {
    hide Delivered;
    var s' := WorkerStep(s, ret);
    assert Last(s.log.executed) == s.worker.q;
    assert Init(s'.log.verdicts) == s.log.verdicts;
  }

  lemma PushingJudged(s: Conn, ret: int)
    requires Fifo(s) && OneSlot(s) && Judged(s) && (s.worker.Executing? || s.worker.Pushing?)
    ensures Judged(WorkerStep(s, ret))
  {
    hide Delivered, Passed;
    if s.worker.Pushing? { assert Last(s.log.executed) == s.worker.q; }
  }

  lemma LookingJudged(s: Conn, ret: int)
    requires Judged(s) && Looking(s.worker)
    ensures Judged(WorkerStep(s, ret))
  {
    hide WorkerStep, VerdictsFollow, HandsOverLast, Delivered, Passed;
    LookingFrame(s, ret);
  }

  predicate Published(s: Conn, s': Conn) {
    && s'.slot == s.slot && s'.log.executed == s.log.executed && s'.log.verdicts == s.log.verdicts
    && s'.log.delivered == s.log.delivered && s'.log.scriptWrites == s.log.scriptWrites && s'.tick == s.tick
    && (HandingOver(s') ==> HandingOver(s))
    && (s'.worker.Pushing? <==> s.worker.Raising?) && (s.worker.Raising? ==> s'.worker == Pushing(s.worker.q))
    && (s'.worker.Pushing? || s'.worker.Reporting? || s'.worker.Freeing? || s'.worker.Popping? || s'.worker.Resting? || s' == s.(fault := true))
    && (!s.worker.Pushing? ==> s'.threadQueue == s.threadQueue)
  }

  lemma FlagKeeps(s: Conn, ret: int)
    requires s.worker.Raising? || s.worker.Lowering? || s.worker.Reporting?
    ensures Published(s, WorkerStep(s, ret))
  {
  }

  lemma PopKeeps(s: Conn, ret: int)
    requires s.worker.Pushing? || s.worker.Freeing? || s.worker.Popping?
    ensures Published(s, WorkerStep(s, ret))
  {
  }

  /** Once the outcome is read, the thread moves neither the slot nor what was executed and judged. */
  lemma PublishingKeeps(s: Conn, ret: int)
    requires !Looking(s.worker) && !s.worker.Executing? && !Unjudged(s.worker)
    ensures Published(s, WorkerStep(s, ret))
  {
    hide WorkerStep, Published;
    if s.worker.Raising? || s.worker.Lowering? || s.worker.Reporting? { FlagKeeps(s, ret); } else { PopKeeps(s, ret); }
  }

  lemma OtherwiseJudged(s: Conn, ret: int)
    requires OneSlot(s) && Judged(s)
    requires !Looking(s.worker) && !s.worker.Executing? && !s.worker.Judging? && !s.worker.Pushing?
    ensures Judged(WorkerStep(s, ret))
  {
    hide VerdictsFollow, HandsOverLast, Delivered, Passed;
    if !s.worker.Recording? {
      PublishingKeeps(s, ret);
      hide WorkerStep;
    }
  }

  lemma WorkerJudged(s: Conn, ret: int)
    requires Fifo(s) && OneSlot(s) && Judged(s)
    ensures Judged(WorkerStep(s, ret))
  {
    hide Fifo, OneSlot, Judged, WorkerStep;
    if Looking(s.worker) {
      LookingJudged(s, ret);
    } else if s.worker.Judging? {
      JudgingJudged(s, ret);
    } else if s.worker.Executing? || s.worker.Pushing? {
      PushingJudged(s, ret);
    } else {
      OtherwiseJudged(s, ret);
    }
  }

  lemma FreeingOwned(s: Conn, ret: int)
    requires Fifo(s) && OneSlot(s) && Judged(s) && Owned(s) && s.worker.Freeing?
    ensures Owned(WorkerStep(s, ret)) && (WorkerStep(s, ret).fault ==> s.fault)
  {
    hide Called, Passed, Delivered;
    var s' := WorkerStep(s, ret);
    var e, k := s.log.enqueued, TextsFreed(s);
    assert e[k] == s.worker.q == Last(s.log.executed);
    assert s'.heap == Heap(s.heap.live - {e[k].text.ptr}, s.heap.next, s.heap.freed + [e[k].text.ptr]);
    assert HeapSound(s'.heap);
    assert TextsOwned(s'.heap, e, k + 1);
    assert VarsOwned(s'.heap, e, |s.log.verdicts|);
  }

  lemma JudgingOwned(s: Conn, ret: int)
    requires Fifo(s) && OneSlot(s) && Judged(s) && Owned(s) && s.worker.Judging?
    ensures Owned(WorkerStep(s, ret)) && WorkerStep(s, ret).fault == s.fault
  {
    hide HeapSound, Ordered, TextsOwned, Passed, Delivered;
    assert s.log.enqueued[|s.log.verdicts|] == s.worker.q;
  }

  lemma ExecutingOwned(s: Conn, ret: int)
    requires Fifo(s) && OneSlot(s) && Judged(s) && Owned(s) && s.worker.Executing?
    ensures Owned(WorkerStep(s, ret)) && (WorkerStep(s, ret).fault ==> s.fault)
  {
    hide HeapSound, Ordered, VarsOwned, Passed, Delivered;
    assert s.log.enqueued[Popped(s)] == s.worker.q;
  }

  lemma LookingOwned(s: Conn, ret: int)
    requires Fifo(s) && Owned(s) && Looking(s.worker)
    ensures Owned(WorkerStep(s, ret)) && (WorkerStep(s, ret).fault ==> s.fault)
  {
    hide WorkerStep, HeapSound, Ordered, TextsOwned, VarsOwned;
    LookingFrame(s, ret);
  }

  lemma OtherwiseOwned(s: Conn, ret: int)
    requires Fifo(s) && OneSlot(s) && Owned(s)
    requires !Looking(s.worker) && !s.worker.Freeing? && !s.worker.Judging? && !s.worker.Executing?
    ensures Owned(WorkerStep(s, ret)) && (WorkerStep(s, ret).fault ==> s.fault)
  {
    hide InOrder, HeapSound, Ordered, TextsOwned, VarsOwned;
  }

  lemma WorkerOwned(s: Conn, ret: int)
    requires Fifo(s) && OneSlot(s) && Judged(s) && Owned(s)
    ensures Owned(WorkerStep(s, ret)) && (WorkerStep(s, ret).fault ==> s.fault)
  {
    hide Fifo, OneSlot, Judged, Owned, WorkerStep;
    if Looking(s.worker) {
      LookingOwned(s, ret);
    } else if s.worker.Freeing? {
      FreeingOwned(s, ret);
    } else if s.worker.Judging? {
      JudgingOwned(s, ret);
    } else if s.worker.Executing? {
      ExecutingOwned(s, ret);
    } else {
      OtherwiseOwned(s, ret);
    }
  }

  lemma RecordingStated(s: Conn, ret: int)
    requires OneSlot(s) && Judged(s) && Stated(s) && (s.worker.Executing? || s.worker.Recording?)
    ensures Stated(WorkerStep(s, ret))
  {
    hide Passed, Delivered, Conserved;
    assert Conserved(s.slot) == Conserved(WorkerStep(s, ret).slot) by { ConservedFrame(s.slot, WorkerStep(s, ret).slot); }
    assert !HandingOver(WorkerStep(s, ret));
  }

  lemma ConservedFrame(s: Slot, s': Slot)
    requires s'.result == s.result && s'.obtained == s.obtained && s'.freed == s.freed
    ensures Conserved(s') == Conserved(s)
  {
  }

  lemma JudgingStated(s: Conn, ret: int)
    requires OneSlot(s) && Judged(s) && Stated(s) && s.worker.Judging?
    ensures Stated(WorkerStep(s, ret))
  {
    hide Passed, Delivered, Conserved;
    assert Last(WorkerStep(s, ret).log.verdicts).begun == s.worker.begun;
  }

  lemma LookingStated(s: Conn, ret: int)
    requires Stated(s) && Looking(s.worker)
    ensures Stated(WorkerStep(s, ret))
  {
    LookingFrame(s, ret);
    hide WorkerStep, Sound, VerdictsSpeak, HandoverSpeaks;
  }

  lemma OtherwiseStated(s: Conn, ret: int)
    requires OneSlot(s) && Stated(s)
    requires !Looking(s.worker) && !s.worker.Executing? && !s.worker.Recording? && !s.worker.Judging?
    ensures Stated(WorkerStep(s, ret))
  {
    hide WorkerStep, Sound, VerdictsSpeak, HandoverSpeaks;
    PublishingKeeps(s, ret);
  }

  lemma WorkerStated(s: Conn, ret: int)
    requires OneSlot(s) && Judged(s) && Stated(s)
    ensures Stated(WorkerStep(s, ret))
  {
    hide OneSlot, Judged, Stated, WorkerStep;
    if Looking(s.worker) {
      LookingStated(s, ret);
    } else if s.worker.Executing? || s.worker.Recording? {
      RecordingStated(s, ret);
    } else if s.worker.Judging? {
      JudgingStated(s, ret);
    } else {
      OtherwiseStated(s, ret);
    }
  }

  lemma WorkerCalled(s: Conn, ret: int)
    requires Called(s)
    ensures Called(WorkerStep(s, ret))
  {
    hide CallsMade, WorkerStep;
    WorkerFrame(s, ret);
  }

  lemma WorkerInv(s: Conn, ret: int)
    requires Inv(s)
    ensures Inv(WorkerStep(s, ret))
  {
    hide WorkerStep, TickStep, Fifo, OneSlot, Judged, Owned, Called, Stated;
    WorkerFrame(s, ret);
    WorkerFifo(s, ret);
    WorkerOneSlot(s, ret);
    WorkerJudged(s, ret);
    WorkerOwned(s, ret);
    WorkerStated(s, ret);
    WorkerCalled(s, ret);
  }

  // ---- the tick -------------------------------------------------------------------------------

  lemma TickFifo(s: Conn, scripts: seq<Script>)
    requires Fifo(s)
    ensures Fifo(TickStep(s, scripts))
  {
    hide TickStep, InOrder;
    TickFrame(s, scripts);
  }

  lemma HandlingOneSlot(s: Conn, scripts: seq<Script>)
    requires OneSlot(s) && Handling(s.tick)
    ensures OneSlot(TickStep(s, scripts))
  {
    hide Subscribes, CallOf;
  }

  lemma PeekingOneSlot(s: Conn, scripts: seq<Script>)
    requires OneSlot(s) && !Handling(s.tick)
    ensures OneSlot(TickStep(s, scripts))
  {
  }

  lemma TickOneSlot(s: Conn, scripts: seq<Script>)
    requires OneSlot(s)
    ensures OneSlot(TickStep(s, scripts))
  {
    hide OneSlot, TickStep;
    if Handling(s.tick) { HandlingOneSlot(s, scripts); } else { PeekingOneSlot(s, scripts); }
  }

  lemma HandlingJudged(s: Conn, scripts: seq<Script>)
    requires OneSlot(s) && Judged(s) && Handling(s.tick)
    ensures Judged(TickStep(s, scripts))
  {
    hide VerdictsFollow, HandsOverLast, Passed, Subscribes, CallOf;
    var s' := TickStep(s, scripts);
    if s.tick.Calling? && s.tick.rest == [] {
      assert Delivered(s'.log.delivered) == Delivered(s.log.delivered) + [s.tick.c];
    }
    if s.tick.Dequeuing? {
      assert HandsOverLast(s'.log.executed, s'.log.verdicts, []) by { EmptyHandsOver(s.log.executed, s.log.verdicts, s.threadQueue); }
    }
  }

  lemma EmptyHandsOver(executed: seq<Query>, verdicts: seq<Verdict>, queue: seq<Completion>)
    requires HandsOverLast(executed, verdicts, queue)
    ensures HandsOverLast(executed, verdicts, [])
  {
  }

  lemma PeekingJudged(s: Conn, scripts: seq<Script>)
    requires OneSlot(s) && Judged(s) && !Handling(s.tick)
    ensures Judged(TickStep(s, scripts))
  {
    hide VerdictsFollow, HandsOverLast, Passed, Delivered;
  }

  lemma TickJudged(s: Conn, scripts: seq<Script>)
    requires OneSlot(s) && Judged(s)
    ensures Judged(TickStep(s, scripts))
  {
    hide OneSlot, Judged, TickStep;
    if Handling(s.tick) { HandlingJudged(s, scripts); } else { PeekingJudged(s, scripts); }
  }

  lemma WithinOwned(s: Conn, scripts: seq<Script>)
    requires Fifo(s) && OneSlot(s) && Judged(s) && Owned(s) && s.tick.Within? && s.tick.vars.Some?
    ensures Owned(TickStep(s, scripts)) && (TickStep(s, scripts).fault ==> s.fault)
  {
    hide Passed, Delivered;
    var s' := TickStep(s, scripts);
    var e, k := s.log.enqueued, |s.log.executed| - 1;
    var p := e[k].extra.s.ptr;
    assert e[k] == Last(s.log.executed);
    assert s.tick.vars.value == e[k].extra.s;
    assert s'.heap == Heap(s.heap.live - {p}, s.heap.next, s.heap.freed + [p]);
    assert HeapSound(s'.heap);
    assert TextsOwned(s'.heap, e, TextsFreed(s));
    assert VarsOwned(s'.heap, e, |s.log.verdicts|);
  }

  lemma TickOwned(s: Conn, scripts: seq<Script>)
    requires Fifo(s) && OneSlot(s) && Judged(s) && Owned(s)
    ensures Owned(TickStep(s, scripts)) && (TickStep(s, scripts).fault ==> s.fault)
  {
    if s.tick.Within? && s.tick.vars.Some? {
      WithinOwned(s, scripts);
    } else {
      TickElsewhereOwned(s, scripts);
    }
    hide Fifo, OneSlot, Judged, Owned, TickStep;
  }

  lemma CallingOwned(s: Conn, scripts: seq<Script>)
    requires OneSlot(s) && Owned(s) && Dispatching(s.tick) && !(s.tick.Within? && s.tick.vars.Some?)
    ensures Owned(TickStep(s, scripts)) && (TickStep(s, scripts).fault ==> s.fault)
  {
    hide HeapSound, Ordered, TextsOwned, VarsOwned, Subscribes, CallOf;
  }

  lemma PeekingOwned(s: Conn, scripts: seq<Script>)
    requires OneSlot(s) && Owned(s) && !Dispatching(s.tick)
    ensures Owned(TickStep(s, scripts)) && (TickStep(s, scripts).fault ==> s.fault)
  {
    hide HeapSound, Ordered, TextsOwned, VarsOwned;
  }

  lemma TickElsewhereOwned(s: Conn, scripts: seq<Script>)
    requires OneSlot(s) && Owned(s) && !(s.tick.Within? && s.tick.vars.Some?)
    ensures Owned(TickStep(s, scripts)) && (TickStep(s, scripts).fault ==> s.fault)
  {
    hide OneSlot, Owned, TickStep;
    if Dispatching(s.tick) { CallingOwned(s, scripts); } else { PeekingOwned(s, scripts); }
  }

  lemma AllCallsNext(id: nat, ds: seq<Delivery>, d: Delivery)
    ensures AllCalls(id, ds + [d]) == AllCalls(id, ds) + Dispatch(id, d.c, d.scripts, VarsOf(d.c.extra))
  {
    assert Init(ds + [d]) == ds;
    hide Dispatch;
  }

  lemma EndCalled(s: Conn, scripts: seq<Script>)
    requires Called(s) && s.tick.Calling? && s.tick.rest == []
    ensures Called(TickStep(s, scripts))
  {
    var s' := TickStep(s, scripts);
    assert s'.tick == Dequeuing && s'.id == s.id && s'.log.calls == s.log.calls;
    assert s'.log.delivered == s.log.delivered + [Delivery(s.tick.c, s.tick.all)];
    assert Dispatch(s.id, s.tick.c, s.tick.rest, s.tick.vars) == [];
    hide TickStep, Dispatch, AllCalls;
    AllCallsNext(s.id, s.log.delivered, Delivery(s.tick.c, s.tick.all));
  }

  lemma NextCalled(s: Conn, scripts: seq<Script>)
    requires Called(s) && s.tick.Calling? && s.tick.rest != []
    ensures Called(TickStep(s, scripts))
  {
    hide CallOf, Subscribes, AllCalls;
  }

  lemma WithinCalled(s: Conn, scripts: seq<Script>)
    requires Called(s) && s.tick.Within?
    ensures Called(TickStep(s, scripts))
  {
    hide CallOf, Subscribes, AllCalls, Dispatch;
  }

  lemma PeekingCalled(s: Conn, scripts: seq<Script>)
    requires OneSlot(s) && Called(s) && !Dispatching(s.tick)
    ensures Called(TickStep(s, scripts))
  {
    hide AllCalls, Dispatch;
  }

  lemma TickCalled(s: Conn, scripts: seq<Script>)
    requires OneSlot(s) && Called(s)
    ensures Called(TickStep(s, scripts))
  {
    hide OneSlot, Called, TickStep;
    if s.tick.Within? { WithinCalled(s, scripts); }
    else if !s.tick.Calling? { PeekingCalled(s, scripts); }
    else if s.tick.rest == [] { EndCalled(s, scripts); }
    else { NextCalled(s, scripts); }
  }

  lemma TickStated(s: Conn, scripts: seq<Script>)
    requires OneSlot(s) && Stated(s)
    ensures Stated(TickStep(s, scripts))
  {
    hide Sound, VerdictsSpeak, HandoverSpeaks, WorkerSpeaks, TickStep;
    TickFrame(s, scripts);
    TickHandsOver(s, scripts);
  }

  lemma TickHandsOver(s: Conn, scripts: seq<Script>)
    requires OneSlot(s)
    ensures HandingOver(TickStep(s, scripts)) ==> HandingOver(s)
  {
    hide Subscribes, CallOf;
  }

  lemma TickInv(s: Conn, scripts: seq<Script>)
    requires Inv(s)
    ensures Inv(TickStep(s, scripts))
  {
    hide WorkerStep, TickStep, Fifo, OneSlot, Judged, Owned, Called, Stated;
    TickFrame(s, scripts);
    TickFifo(s, scripts);
    TickOneSlot(s, scripts);
    TickJudged(s, scripts);
    TickOwned(s, scripts);
    TickCalled(s, scripts);
    TickStated(s, scripts);
  }

  // ---- the natives -----------------------------------------------------------------------------

  lemma SubmitOwned(s: Conn, q: Query, strings: seq<Str>, next: nat)
    requires Owned(s) && |s.log.verdicts| <= |s.log.enqueued|
    requires strings == if q.extra.Vars? then [q.text, q.extra.s] else [q.text]
    requires s.heap.next <= q.text.ptr && (q.extra.Vars? ==> q.text.ptr < q.extra.s.ptr) && Top(q) < next
    ensures Owned(Submit(Allocate(s, strings, next), q))
  {
    var s' := Submit(Allocate(s, strings, next), q);
    assert s'.heap.live == s.heap.live + {q.text.ptr, Top(q)};
    assert HeapSound(s'.heap);
    assert Ordered(s'.log.enqueued, next);
    assert TextsOwned(s'.heap, s'.log.enqueued, TextsFreed(s));
    assert VarsOwned(s'.heap, s'.log.enqueued, |s.log.verdicts|);
    hide HeapSound, Ordered, TextsOwned, VarsOwned;
  }

  lemma RunNowOwned(s: Conn, q: Query, strings: seq<Str>, next: nat, ret: int)
    requires Owned(s) && s.heap.next <= q.text.ptr < next && q.text in strings
    requires forall x :: x in strings ==> s.heap.next <= x.ptr < next
    ensures var s' := RunNow(Allocate(s, strings, next), q, ret); Owned(s') && s'.fault == s.fault
  {
    var s' := RunNow(Allocate(s, strings, next), q, ret);
    var f, f' := s.heap.freed, s'.heap.freed;
    assert f' == f + [q.text.ptr];
    assert q.text.ptr in Allocate(s, strings, next).heap.live;
    assert HeapSound(s'.heap);
    assert Ordered(s'.log.enqueued, next);
    assert TextsOwned(s'.heap, s'.log.enqueued, TextsFreed(s));
    assert VarsOwned(s'.heap, s'.log.enqueued, |s.log.verdicts|);
    hide HeapSound, Ordered, TextsOwned, VarsOwned;
  }

  lemma SubmitFifo(s: Conn, q: Query, strings: seq<Str>, next: nat)
    requires Fifo(s)
    ensures Fifo(Submit(Allocate(s, strings, next), q))
  {
    var e := s.log.enqueued;
    assert (e + [q])[..|s.log.executed|] == e[..|s.log.executed|];
    assert (e + [q])[Popped(s)..] == e[Popped(s)..] + [q];
    hide Release;
  }

  lemma RunNowFifo(s: Conn, q: Query, ret: int, strings: seq<Str>, next: nat)
    requires Fifo(s)
    ensures Fifo(RunNow(Allocate(s, strings, next), q, ret))
  {
    hide InOrder, QueryNow;
  }

  lemma RequestFifo(s: Conn, q: Query, ret: int, strings: seq<Str>, next: nat)
    requires Fifo(s)
    ensures Fifo(Request(s, q, ret, strings, next))
  {
    hide Fifo, Submit, RunNow, Allocate;
    if q.resultId != -1 { SubmitFifo(s, q, strings, next); } else { RunNowFifo(s, q, ret, strings, next); }
  }

  lemma NativeFifo(s: Conn, n: NativeCall, address: nat)
    requires Fifo(s)
    ensures Fifo(NativeStep(s, n, address))
  {
    var p := if address < s.heap.next then s.heap.next else address;
    hide InOrder, Request, GetString, StoreResult, Cursor, FreeResult;
    match n
    case MysqlQuery(sql, resultId, spareId, ret) =>
      var text := Str(p, GetString(sql));
      RequestFifo(s, Query(text, resultId, Id(spareId)), ret, [text], p + 2);
    case MysqlQueryArray(sql, resultId, vars, ret) =>
      var text, extra := Str(p, GetString(sql)), Str(p + 1, GetString(vars));
      RequestFifo(s, Query(text, resultId, Vars(extra)), ret, [text, extra], p + 2);
    case _ =>
  }

  lemma NativeJudged(s: Conn, n: NativeCall, address: nat)
    requires OneSlot(s) && Judged(s)
    ensures OneSlot(NativeStep(s, n, address)) && Judged(NativeStep(s, n, address))
  {
    hide Passed, Delivered, VerdictsFollow, HandsOverLast, NativeStep;
    NativeFrame(s, n, address);
  }

  /** Any script call leaves the slot sound, and what `state` says about an execution stands
      until a script writes it. */
  lemma SlotStated(s: Conn, s': Conn)
    requires Stated(s) && Sound(s'.slot)
    requires s'.log.verdicts == s.log.verdicts && s'.worker == s.worker && HandingOver(s') == HandingOver(s)
    requires || (s'.slot.execs == s.slot.execs && s'.slot.written == s.slot.written && s'.log.scriptWrites == s.log.scriptWrites)
             || (s'.slot.execs >= s.slot.execs && s'.log.scriptWrites == s.log.scriptWrites + 1)
    ensures Stated(s')
  {
    hide Sound;
  }

  lemma NativeStated(s: Conn, n: NativeCall, address: nat)
    requires Stated(s)
    ensures Stated(NativeStep(s, n, address))
  {
    assert Sound(s.slot);
    hide Stated, NativeStep;
    NativeSlotSound(s, n, address);
    NativeFrame(s, n, address);
    SlotStated(s, NativeStep(s, n, address));
  }

  /** What no script call touches, and how it may touch `state`. */
  predicate NativeLeaves(s: Conn, s': Conn) {
    && s'.log.verdicts == s.log.verdicts && s'.log.executed == s.log.executed
    && s'.log.delivered == s.log.delivered && s'.log.calls == s.log.calls
    && s'.worker == s.worker && s'.tick == s.tick && s'.id == s.id
    && s'.threadQueue == s.threadQueue && s'.parsing == s.parsing
    && (|| (s'.slot.execs == s.slot.execs && s'.slot.written == s.slot.written && s'.log.scriptWrites == s.log.scriptWrites)
        || (s'.slot.execs >= s.slot.execs && s'.log.scriptWrites == s.log.scriptWrites + 1))
  }

  lemma RequestLeaves(s: Conn, q: Query, ret: int, strings: seq<Str>, next: nat)
    ensures NativeLeaves(s, Request(s, q, ret, strings, next))
  {
  }

  lemma NativeFrame(s: Conn, n: NativeCall, address: nat)
    ensures NativeLeaves(s, NativeStep(s, n, address))
  {
    var p := if address < s.heap.next then s.heap.next else address;
    hide GetString, Request;
    match n
    case MysqlQuery(sql, resultId, spareId, ret) =>
      var text := Str(p, GetString(sql));
      RequestLeaves(s, Query(text, resultId, Id(spareId)), ret, [text], p + 2);
    case MysqlQueryArray(sql, resultId, vars, ret) =>
      var text, extra := Str(p, GetString(sql)), Str(p + 1, GetString(vars));
      RequestLeaves(s, Query(text, resultId, Vars(extra)), ret, [text, extra], p + 2);
    case _ =>
  }

  lemma RequestEnqueues(s: Conn, q: Query, ret: int, strings: seq<Str>, next: nat)
    ensures var s', added := Request(s, q, ret, strings, next), if q.resultId != -1 then [q] else [];
      s'.queryQueue == s.queryQueue + added && s'.log.enqueued == s.log.enqueued + added
  {
    hide Release, QueryNow;
  }

  /** What a script call has put on the queue. */
  function Added(s: Conn, s': Conn): seq<Query> {
    if |s'.queryQueue| > |s.queryQueue| then [Last(s'.queryQueue)] else []
  }

  /** A script call leaves queryQueue alone or adds one query at its end. */
  lemma NativeEnqueues(s: Conn, n: NativeCall, address: nat)
    ensures var s' := NativeStep(s, n, address);
      && s'.queryQueue == s.queryQueue + Added(s, s')
      && s'.log.enqueued == s.log.enqueued + Added(s, s')
  {
    var p := if address < s.heap.next then s.heap.next else address;
    hide GetString, Request, StoreResult, Cursor, FreeResult;
    match n
    case MysqlQuery(sql, resultId, spareId, ret) =>
      var text := Str(p, GetString(sql));
      RequestEnqueues(s, Query(text, resultId, Id(spareId)), ret, [text], p + 2);
    case MysqlQueryArray(sql, resultId, vars, ret) =>
      var text, extra := Str(p, GetString(sql)), Str(p + 1, GetString(vars));
      RequestEnqueues(s, Query(text, resultId, Vars(extra)), ret, [text, extra], p + 2);
    case _ =>
  }

  lemma NativeSlotSound(s: Conn, n: NativeCall, address: nat)
    requires Sound(s.slot)
    ensures Sound(NativeStep(s, n, address).slot)
  {
    hide Sound, GetString, StoreResult, Cursor, FreeResult, Release, QueryNow;
    match n
    case Connect(_) =>
    case MysqlQuery(_, _, _, ret) => ReleaseSound(s.slot); QueryNowSound(s.slot, ret);
    case MysqlQueryArray(_, _, _, ret) => ReleaseSound(s.slot); QueryNowSound(s.slot, ret);
    case MysqlStoreResult(got) => StoreExactly(s.slot, got);
    case MysqlFreeResult => FreeSound(s.slot);
    case MysqlCursor(c) => CursorSound(s.slot, c);
  }

  lemma RequestOwned(s: Conn, q: Query, ret: int, strings: seq<Str>, next: nat)
    requires Fifo(s) && Judged(s) && Owned(s)
    requires strings == if q.extra.Vars? then [q.text, q.extra.s] else [q.text]
    requires s.heap.next <= q.text.ptr && (q.extra.Vars? ==> q.text.ptr < q.extra.s.ptr) && Top(q) < next
    ensures var s' := Request(s, q, ret, strings, next); Owned(s') && s'.fault == s.fault
  {
    hide Owned;
    if q.resultId != -1 {
      SubmitOwned(s, q, strings, next);
    } else {
      RunNowOwned(s, q, strings, next, ret);
    }
  }

  lemma NativeOwned(s: Conn, n: NativeCall, address: nat)
    requires Fifo(s) && Judged(s) && Owned(s)
    ensures Owned(NativeStep(s, n, address)) && (NativeStep(s, n, address).fault ==> s.fault)
  {
    var p := if address < s.heap.next then s.heap.next else address;
    hide Fifo, Judged, HeapSound, Ordered, TextsOwned, VarsOwned, Request, GetString, StoreResult, Cursor, FreeResult;
    match n
    case MysqlQuery(sql, resultId, spareId, ret) =>
      var text := Str(p, GetString(sql));
      RequestOwned(s, Query(text, resultId, Id(spareId)), ret, [text], p + 2);
    case MysqlQueryArray(sql, resultId, vars, ret) =>
      var text, extra := Str(p, GetString(sql)), Str(p + 1, GetString(vars));
      RequestOwned(s, Query(text, resultId, Vars(extra)), ret, [text, extra], p + 2);
    case _ =>
  }

  lemma NativeCalled(s: Conn, n: NativeCall, address: nat)
    requires Called(s)
    ensures Called(NativeStep(s, n, address))
  {
    hide CallsMade, NativeStep;
    NativeFrame(s, n, address);
  }

  lemma NativeInv(s: Conn, n: NativeCall, address: nat)
    requires Inv(s)
    ensures Inv(NativeStep(s, n, address))
  {
    hide Fifo, OneSlot, Judged, Owned, Called, Stated;
    NativeFifo(s, n, address);
    NativeJudged(s, n, address);
    NativeStated(s, n, address);
    NativeOwned(s, n, address);
    NativeCalled(s, n, address);
  }

  // ---- every run --------------------------------------------------------------------------------

  lemma StepInv(s: Conn, c: Choice)
    requires Inv(s)
    ensures Inv(Step(s, c))
  {
    hide Fifo, OneSlot, Judged, Owned, Called, Stated;
    match c
    case Worker(ret) => WorkerInv(s, ret);
    case Tick(scripts) => TickInv(s, scripts);
    case Native(n, address) => NativeInv(s, n, address);
  }

  lemma {:induction false} RunInv(s: Conn, schedule: seq<Choice>)
    requires Inv(s)
    ensures Inv(Run(s, schedule))
    decreases |schedule|
  {
    if schedule == [] {
    } else {
      RunInv(s, Init(schedule));
      StepInv(Run(s, Init(schedule)), Last(schedule));
    }
  }
}
