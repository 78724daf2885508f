/** Work runs out: neither thread can be busy for ever, and neither can leave work undone. */
module Progress {
  import opened Base
  import opened Results
  import opened Handoff
  import opened HandoffInvariant
  import opened Modulo

  // ---- a measure over the atomic steps ------------------------------------------------------

  /** What a completion in threadQueue weighs when at most `n` scripts are loaded. */
  function CompletionWeight(n: nat): nat { 2 * n + 5 }

  /** What a query in queryQueue weighs: its item, and the delivery it may cause. */
  function QueryWeight(n: nat): nat { CompletionWeight(n) + 9 }

  function WorkerDone(w: WorkerPc, n: nat): nat {
    match w
    case Resting | Polling | Gating => 0
    case Taking => 1
    case Executing(_) => 2
    case Recording(_, _, _, _) => 3
    case Judging(_, _, _, _, _) => 4
    case Raising(_) | Lowering(_) => 5
    case Pushing(_) | Reporting(_) => 6
    case Freeing(_) => 7 + CompletionWeight(n)
    case Popping => 8 + CompletionWeight(n)
  }

  function TickDone(t: TickPc, n: nat): int {
    match t
    case Idle | Checking | Confirming => 0
    case Reading => 1
    case Calling(_, _, rest, _) => 2 + 2 * (n - |rest|)
    case Within(_, _, rest, _) => 3 + 2 * (n - |rest|)
    case Dequeuing => 3 + 2 * n
    case Clearing => -1
  }

  /** Steps of real work still ahead, at most. */
  function Work(s: Conn, n: nat): int {
    QueryWeight(n) * |s.queryQueue| + CompletionWeight(n) * |s.threadQueue| - WorkerDone(s.worker, n) - TickDone(s.tick, n)
  }

  predicate FewScripts(s: Conn, n: nat) {
    (s.tick.Calling? ==> |s.tick.rest| <= n) && (s.tick.Within? ==> 0 < |s.tick.rest| <= n)
  }

  /** A script call that puts a query on the queue. */
  predicate Enqueues(c: NativeCall) {
    (c.MysqlQuery? && c.resultId != -1) || (c.MysqlQueryArray? && c.resultId != -1)
  }

  /** A step of one of the threads, at most `n` scripts being loaded, or a script call. */
  predicate FewLoadedAt(c: Choice, n: nat) {
    c.Tick? ==> |c.scripts| <= n
  }

  /** The same, and nothing is enqueued. */
  predicate Allowed(c: Choice, n: nat) {
    FewLoadedAt(c, n) && (c.Native? ==> !Enqueues(c.n))
  }

  predicate WorkerAtHead(w: WorkerPc) { w.Resting? || w.Polling? || w.Gating? }
  predicate TickAtHead(t: TickPc) { t.Idle? || t.Checking? || t.Confirming? }

  /** A step that only looks at a guard and finds nothing to do yet, or a script's. */
  predicate OnlyLooks(s: Conn, c: Choice) {
    || c.Native?
    || (c.Worker? && WorkerAtHead(s.worker) && WorkerAtHead(Step(s, c).worker))
    || (c.Tick? && TickAtHead(s.tick) && TickAtHead(Step(s, c).tick))
  }

  predicate Quiescent(s: Conn) {
    s.queryQueue == [] && s.threadQueue == [] && WorkerAtHead(s.worker) && TickAtHead(s.tick)
  }

  lemma ItemTimes(n: nat, k: int)
    ensures QueryWeight(n) * (k - 1) == QueryWeight(n) * k - QueryWeight(n)
  {
  }

  lemma PoppingWork(s: Conn, ret: int, n: nat)
    requires s.worker.Popping? && s.queryQueue != []
    ensures Work(WorkerStep(s, ret), n) == Work(s, n) - 1
  {
    ItemTimes(n, |s.queryQueue|);
  }

  lemma LookingWork(s: Conn, ret: int, n: nat)
    requires Looking(s.worker) && FrontKnown(s.worker, s.queryQueue)
    ensures Work(WorkerStep(s, ret), n) <= Work(s, n) - (if OnlyLooks(s, Worker(ret)) then 0 else 1)
  {
    hide QueryWeight, CompletionWeight, TickDone;
  }

  lemma PushingWork(s: Conn, ret: int, n: nat)
    requires s.worker.Pushing? || s.worker.Reporting? || s.worker.Freeing?
    ensures Work(WorkerStep(s, ret), n) <= Work(s, n) - 1
  {
    hide QueryWeight, TickDone;
    if s.worker.Pushing? {
      assert CompletionWeight(n) * (|s.threadQueue| + 1) == CompletionWeight(n) * |s.threadQueue| + CompletionWeight(n);
    }
  }

  lemma JudgingWork(s: Conn, ret: int, n: nat)
    requires s.worker.Executing? || Unjudged(s.worker) || s.worker.Raising? || s.worker.Lowering?
    ensures Work(WorkerStep(s, ret), n) <= Work(s, n) - 1
  {
    hide QueryWeight, CompletionWeight, TickDone;
  }

  lemma BusyWork(s: Conn, ret: int, n: nat)
    requires !Looking(s.worker) && !s.worker.Popping?
    ensures Work(WorkerStep(s, ret), n) <= Work(s, n) - 1
  {
    hide Work, WorkerStep;
    if s.worker.Pushing? || s.worker.Reporting? || s.worker.Freeing? {
      PushingWork(s, ret, n);
    } else {
      JudgingWork(s, ret, n);
    }
  }

  lemma WorkerWork(s: Conn, ret: int, n: nat)
    requires FrontKnown(s.worker, s.queryQueue)
    ensures Work(WorkerStep(s, ret), n) <= Work(s, n) - (if OnlyLooks(s, Worker(ret)) then 0 else 1)
  {
    if s.worker.Popping? { assert s.queryQueue != []; }
    hide Work, OnlyLooks, WorkerStep, FrontKnown;
    if s.worker.Popping? {
      PoppingWork(s, ret, n);
    } else if Looking(s.worker) {
      LookingWork(s, ret, n);
    } else {
      BusyWork(s, ret, n);
    }
  }

  predicate TickWorks(s: Conn, s': Conn, n: nat, looks: bool) {
    FewScripts(s', n) && Work(s', n) <= Work(s, n) - (if looks then 0 else 1)
  }

  lemma DispatchWork(s: Conn, scripts: seq<Script>, n: nat)
    requires OneSlot(s) && FewScripts(s, n) && Dispatching(s.tick)
    ensures TickWorks(s, TickStep(s, scripts), n, false)
  {
    hide QueryWeight, Subscribes, CallOf;
  }

  lemma ElsewhereWork(s: Conn, scripts: seq<Script>, n: nat)
    requires OneSlot(s) && FewScripts(s, n) && |scripts| <= n && !Dispatching(s.tick)
    ensures TickWorks(s, TickStep(s, scripts), n, OnlyLooks(s, Tick(scripts)))
  {
    hide QueryWeight;
  }

  lemma TickWork(s: Conn, scripts: seq<Script>, n: nat)
    requires OneSlot(s) && FewScripts(s, n) && |scripts| <= n
    ensures TickWorks(s, TickStep(s, scripts), n, OnlyLooks(s, Tick(scripts)))
  {
    if Dispatching(s.tick) {
      MidworkIsBusy(s, Tick(scripts));
      hide TickStep, OneSlot, FewScripts, TickWorks, OnlyLooks;
      DispatchWork(s, scripts, n);
    } else {
      hide TickStep, OneSlot, FewScripts, TickWorks, OnlyLooks;
      ElsewhereWork(s, scripts, n);
    }
  }

  lemma NativeKeeps(s: Conn, n: NativeCall, address: nat)
    requires !Enqueues(n)
    ensures NativeStep(s, n, address).queryQueue == s.queryQueue
    ensures NativeStep(s, n, address).log.enqueued == s.log.enqueued
  {
    hide GetString, Release, StoreResult, Cursor, FreeResult, QueryNow;
  }

  /** Such a step takes nothing off a queue, changes no flag, and moves no thread but the one
      that looks. */
  lemma LookingKeeps(s: Conn, c: Choice)
    requires OnlyLooks(s, c)
    ensures var s' := Step(s, c);
      && s.queryQueue <= s'.queryQueue && s'.threadQueue == s.threadQueue && s'.parsing == s.parsing
      && (!c.Worker? ==> s'.worker == s.worker) && (!c.Tick? ==> s'.tick == s.tick)
  {
    hide NativeStep;
    match c
    case Worker(_) => hide TickStep;
    case Tick(_) => hide WorkerStep;
    case Native(call, address) =>
      NativeEnqueues(s, call, address);
      NativeFrame(s, call, address);
  }

  lemma DoneBounds(w: WorkerPc, t: TickPc, n: nat)
    requires (t.Calling? ==> |t.rest| <= n) && (t.Within? ==> 0 < |t.rest| <= n)
    ensures 0 <= WorkerDone(w, n) < QueryWeight(n) && (WorkerAtHead(w) <==> WorkerDone(w, n) == 0)
    ensures -1 <= TickDone(t, n) < CompletionWeight(n) && (TickAtHead(t) <==> TickDone(t, n) == 0)
    ensures TickDone(t, n) < 0 <==> t.Clearing?
  {
  }

  lemma WorkFloor(item: nat, q: nat, done: nat)
    requires done < item && (q == 0 ==> done == 0)
    ensures item * q - done >= 0 && (item * q - done == 0 ==> q == 0 == done)
  {
    if q > 0 { assert item * q >= item; }
  }

  lemma WorkBounds(s: Conn, n: nat)
    requires Inv(s) && FewScripts(s, n)
    ensures Work(s, n) >= 0 && (Work(s, n) == 0 ==> Quiescent(s))
  {
    DoneBounds(s.worker, s.tick, n);
    assert s.queryQueue == [] ==> WorkerAtHead(s.worker) by { hide InOrder, Judged, Owned, Called, Stated, OneSlot; }
    assert |s.threadQueue| <= 1 && (s.threadQueue == [] ==> TickAtHead(s.tick) || s.tick.Clearing?) by {
      hide Fifo, Judged, Owned, Called, Stated;
    }
    hide Inv, QueryWeight, CompletionWeight, WorkerDone, TickDone;
    WorkFloor(QueryWeight(n), |s.queryQueue|, WorkerDone(s.worker, n));
    if |s.threadQueue| == 1 {
      assert CompletionWeight(n) * |s.threadQueue| == CompletionWeight(n);
    } else {
      assert CompletionWeight(n) * |s.threadQueue| == 0;
    }
  }

  lemma WorkerKeepsTick(s: Conn, ret: int)
    ensures WorkerStep(s, ret).tick == s.tick
  {
    hide WorkerStep;
    WorkerFrame(s, ret);
  }

  // ---- the work due to the first queries --------------------------------------------------------

  /** Steps of real work still ahead, at most, until the first `k` enqueued queries are served. */
  function Due(s: Conn, n: nat, k: nat): int {
    Work(s, n) - QueryWeight(n) * (|s.log.enqueued| - k)
  }

  lemma OneMore(weight: nat, q: int, e: int, k: nat, added: int)
    ensures weight * (q + added) - weight * (e + added - k) == weight * q - weight * (e - k)
  {
  }

  lemma NativeDue(s: Conn, n: NativeCall, address: nat, few: nat, k: nat)
    ensures var s' := NativeStep(s, n, address);
      Due(s', few, k) == Due(s, few, k) && FewScripts(s', few) == FewScripts(s, few)
  {
    var s' := NativeStep(s, n, address);
    NativeFrame(s, n, address);
    NativeEnqueues(s, n, address);
    hide NativeStep, QueryWeight, CompletionWeight, WorkerDone, TickDone;
    OneMore(QueryWeight(few), |s.queryQueue|, |s.log.enqueued|, k, |Added(s, s')|);
  }

  lemma WorkerDue(s: Conn, ret: int, n: nat, k: nat)
    requires FrontKnown(s.worker, s.queryQueue) && FewScripts(s, n)
    ensures var s' := WorkerStep(s, ret);
      FewScripts(s', n) && Due(s', n, k) <= Due(s, n, k) - (if OnlyLooks(s, Worker(ret)) then 0 else 1)
  {
    WorkerFrame(s, ret);
    WorkerWork(s, ret, n);
    hide WorkerStep, Work, OnlyLooks, QueryWeight;
  }

  lemma TickDue(s: Conn, scripts: seq<Script>, n: nat, k: nat)
    requires OneSlot(s) && FewScripts(s, n) && |scripts| <= n
    ensures var s' := TickStep(s, scripts);
      FewScripts(s', n) && Due(s', n, k) <= Due(s, n, k) - (if OnlyLooks(s, Tick(scripts)) then 0 else 1)
  {
    TickFrame(s, scripts);
    TickWork(s, scripts, n);
    hide TickStep, Work, OnlyLooks, QueryWeight, FewScripts;
  }

  /** Every step of real work counts; no look and no script call, enqueuing or not, costs any. */
  lemma StepDue(s: Conn, c: Choice, n: nat, k: nat)
    requires Inv(s) && FewScripts(s, n) && FewLoadedAt(c, n)
    ensures Inv(Step(s, c)) && FewScripts(Step(s, c), n)
    ensures Due(Step(s, c), n, k) <= Due(s, n, k) - (if OnlyLooks(s, c) then 0 else 1)
  {
    StepInv(s, c);
    assert OneSlot(s) && FrontKnown(s.worker, s.queryQueue);
    hide WorkerStep, TickStep, NativeStep, Inv, Due, OneSlot, FrontKnown, FewScripts;
    match c
    case Worker(ret) => WorkerDue(s, ret, n, k);
    case Tick(scripts) => TickDue(s, scripts, n, k);
    case Native(call, address) => NativeDue(s, call, address, n, k);
  }

  function Busy(s: Conn, schedule: seq<Choice>): nat {
    if schedule == [] then 0
    else Busy(s, Init(schedule)) + (if OnlyLooks(Run(s, Init(schedule)), Last(schedule)) then 0 else 1)
  }

  lemma {:induction false} BusyDue(s: Conn, schedule: seq<Choice>, n: nat, k: nat)
    requires Inv(s) && FewScripts(s, n)
    requires forall i :: 0 <= i < |schedule| ==> FewLoadedAt(schedule[i], n)
    ensures var s' := Run(s, schedule);
      Inv(s') && FewScripts(s', n) && Due(s', n, k) <= Due(s, n, k) - Busy(s, schedule)
    decreases |schedule|
  {
    hide Inv, Due, OnlyLooks, Step, FewScripts, FewLoadedAt;
    if schedule == [] {
    } else {
      BusyDue(s, Init(schedule), n, k);
      StepDue(Run(s, Init(schedule)), Last(schedule), n, k);
    }
  }

  lemma {:induction false} NothingEnqueued(s: Conn, schedule: seq<Choice>, n: nat)
    requires forall i :: 0 <= i < |schedule| ==> Allowed(schedule[i], n)
    ensures Run(s, schedule).log.enqueued == s.log.enqueued
    decreases |schedule|
  {
    hide WorkerStep, TickStep, NativeStep;
    if schedule == [] {
    } else {
      var before, c := Run(s, Init(schedule)), Last(schedule);
      NothingEnqueued(s, Init(schedule), n);
      match c
      case Worker(ret) => WorkerFrame(before, ret);
      case Tick(scripts) => TickFrame(before, scripts);
      case Native(call, address) => NativeKeeps(before, call, address);
    }
  }

  lemma DueOfAll(s: Conn, n: nat)
    ensures Due(s, n, |s.log.enqueued|) == Work(s, n)
  {
    hide Work, QueryWeight;
  }

  /** While nothing is enqueued, no interleaving holds more steps of real work than Work promises. */
  lemma BusyBounded(s: Conn, schedule: seq<Choice>, n: nat)
    requires Inv(s) && FewScripts(s, n)
    requires forall i :: 0 <= i < |schedule| ==> Allowed(schedule[i], n)
    ensures var s' := Run(s, schedule);
      Inv(s') && FewScripts(s', n) && 0 <= Work(s', n) <= Work(s, n) - Busy(s, schedule)
  {
    BusyDue(s, schedule, n, |s.log.enqueued|);
    NothingEnqueued(s, schedule, n);
    hide Inv, Work, Due, Busy, Run, Allowed, FewScripts;
    DueOfAll(s, n);
    DueOfAll(Run(s, schedule), n);
    WorkBounds(Run(s, schedule), n);
  }

  // ---- no interleaving leaves work undone -----------------------------------------------------

  function WorkerSteps(schedule: seq<Choice>): nat {
    if schedule == [] then 0 else WorkerSteps(Init(schedule)) + (if Last(schedule).Worker? then 1 else 0)
  }

  function TickSteps(schedule: seq<Choice>): nat {
    if schedule == [] then 0 else TickSteps(Init(schedule)) + (if Last(schedule).Tick? then 1 else 0)
  }

  /** Looks already taken by the worker since it last rested. */
  function WorkerLooks(w: WorkerPc): nat { if w.Resting? then 0 else if w.Polling? then 1 else 2 }
  function TickLooks(t: TickPc): nat { if t.Idle? then 0 else if t.Checking? then 1 else 2 }

  /** The worker's guard is open. */
  predicate WorkerReady(s: Conn) { s.queryQueue != [] && !s.parsing }

  /** The tick's guard is open. */
  predicate TickReady(s: Conn) { s.threadQueue != [] && s.parsing }

  /** If both threads stand at a loop head and anything is left to do, one guard is open. */
  lemma OneGuardOpen(s: Conn)
    requires Inv(s) && WorkerAtHead(s.worker) && TickAtHead(s.tick)
    ensures Quiescent(s) <==> !WorkerReady(s) && !TickReady(s)
    ensures !(WorkerReady(s) && TickReady(s))
  {
    hide Fifo, Judged, Owned, Called, Stated;
  }

  lemma LookOnce(s: Conn, c: Choice)
    requires OnlyLooks(s, c) && !c.Native?
    ensures c.Worker? && WorkerReady(s) ==> WorkerLooks(s.worker) < WorkerLooks(Step(s, c).worker)
    ensures c.Tick? && TickReady(s) ==> TickLooks(s.tick) < TickLooks(Step(s, c).tick)
  {
    hide Free, Follow, Subscribes, CallOf;
  }

  /** Where `schedule` has led without a step of real work. */
  predicate Looked(s: Conn, s': Conn, schedule: seq<Choice>) {
    && WorkerAtHead(s'.worker) && TickAtHead(s'.tick)
    && s.queryQueue <= s'.queryQueue && s'.threadQueue == s.threadQueue && s'.parsing == s.parsing
    && (WorkerReady(s) ==> WorkerLooks(s.worker) + WorkerSteps(schedule) <= WorkerLooks(s'.worker) <= 2)
    && (TickReady(s) ==> TickLooks(s.tick) + TickSteps(schedule) <= TickLooks(s'.tick) <= 2)
  }

  lemma LookedOnce(s: Conn, before: Conn, schedule: seq<Choice>)
    requires schedule != [] && Looked(s, before, Init(schedule)) && OnlyLooks(before, Last(schedule))
    ensures Looked(s, Step(before, Last(schedule)), schedule)
  {
    var c := Last(schedule);
    LookingKeeps(before, c);
    if !c.Native? { LookOnce(before, c); }
    assert WorkerAtHead(Step(before, c).worker) && TickAtHead(Step(before, c).tick);
    hide Step, OnlyLooks;
  }

  /** With no step of real work in it, a schedule gives the thread whose guard is open at most
      two steps. */
  lemma {:induction false} LooksRunOut(s: Conn, schedule: seq<Choice>)
    requires WorkerAtHead(s.worker) && TickAtHead(s.tick) && Busy(s, schedule) == 0
    ensures Looked(s, Run(s, schedule), schedule)
    decreases |schedule|
  {
    if schedule == [] {
    } else {
      hide Step, OnlyLooks, Looked;
      LooksRunOut(s, Init(schedule));
      LookedOnce(s, Run(s, Init(schedule)), schedule);
    }
  }

  /** A thread in the middle of its work works. */
  lemma MidworkIsBusy(s: Conn, c: Choice)
    ensures c.Worker? && !WorkerAtHead(s.worker) ==> !OnlyLooks(s, c)
    ensures c.Tick? && !TickAtHead(s.tick) ==> !OnlyLooks(s, c)
  {
  }

  lemma {:induction false} IdleScheduleKeepsMidwork(s: Conn, schedule: seq<Choice>)
    requires Busy(s, schedule) == 0
    ensures !WorkerAtHead(s.worker) ==> WorkerSteps(schedule) == 0 && Run(s, schedule).worker == s.worker
    ensures !TickAtHead(s.tick) ==> TickSteps(schedule) == 0 && Run(s, schedule).tick == s.tick
    decreases |schedule|
  {
    hide OnlyLooks, Step;
    if schedule == [] {
    } else {
      var prior, c := Run(s, Init(schedule)), Last(schedule);
      IdleScheduleKeepsMidwork(s, Init(schedule));
      MidworkIsBusy(prior, c);
      LookingKeeps(prior, c);
    }
  }

  /** A round: in any order, at least three steps of each thread, and any script calls. */
  predicate FairRound(schedule: seq<Choice>, n: nat) {
    && (forall i :: 0 <= i < |schedule| ==> FewLoadedAt(schedule[i], n))
    && WorkerSteps(schedule) >= 3 && TickSteps(schedule) >= 3
  }

  /** The same, and no new query. */
  predicate Round(schedule: seq<Choice>, n: nat) {
    FairRound(schedule, n) && forall i :: 0 <= i < |schedule| ==> Allowed(schedule[i], n)
  }

  /** A round in which no real work is done finds none. */
  lemma IdleRound(s: Conn, round: seq<Choice>, n: nat)
    requires Inv(s) && FairRound(round, n) && Busy(s, round) == 0
    ensures Quiescent(s)
  {
    hide Inv, Busy, FewLoadedAt, Run;
    IdleScheduleKeepsMidwork(s, round);
    LooksRunOut(s, round);
    OneGuardOpen(s);
  }

  lemma RoundWorks(s: Conn, round: seq<Choice>, n: nat)
    requires Inv(s) && FewScripts(s, n) && Round(round, n)
    ensures var s' := Run(s, round);
      Inv(s') && FewScripts(s', n) && (Work(s', n) < Work(s, n) || Work(s, n) == 0 == Work(s', n))
  {
    hide Inv, Work, FewScripts, Busy, FairRound, Run, Allowed;
    BusyBounded(s, round, n);
    WorkBounds(s, n);
    if Busy(s, round) == 0 {
      IdleRound(s, round, n);
      QuiescentHasNoWork(s, n);
    }
  }

  lemma QuiescentHasNoWork(s: Conn, n: nat)
    requires Quiescent(s)
    ensures Work(s, n) == 0
  {
  }

  function Concat(rounds: seq<seq<Choice>>): seq<Choice> {
    if rounds == [] then [] else rounds[0] + Concat(rounds[1..])
  }

  lemma {:induction false} RunConcat(s: Conn, a: seq<Choice>, b: seq<Choice>)
    ensures Run(s, a + b) == Run(Run(s, a), b)
    decreases |b|
  {
    hide Step;
    if b == [] {
      assert a + b == a;
    } else {
      assert Init(a + b) == a + Init(b);
      RunConcat(s, a, Init(b));
    }
  }

  /** Every fair interleaving drains a handle on which no query is enqueued: after as many
      rounds as there is work, both queues are empty and both threads rest, whatever the order
      of the steps within the rounds and whatever the server answered. */
  lemma {:induction false} FairRunsDrain(s: Conn, rounds: seq<seq<Choice>>, n: nat)
    requires Inv(s) && FewScripts(s, n) && |rounds| >= Work(s, n)
    requires forall i :: 0 <= i < |rounds| ==> Round(rounds[i], n)
    ensures Quiescent(Run(s, Concat(rounds)))
    decreases |rounds|
  {
    hide Inv, Work, Round;
    WorkBounds(s, n);
    if rounds == [] {
    } else {
      var s' := Run(s, rounds[0]);
      RoundWorks(s, rounds[0], n);
      RunConcat(s, rounds[0], Concat(rounds[1..]));
      FairRunsDrain(s', rounds[1..], n);
    }
  }

  /** What a drained handle has done: every query enqueued was executed and judged, every
      completion owed was delivered, every text enqueued was deleted. */
  lemma DrainedMeansDone(s: Conn)
    requires Inv(s) && Quiescent(s)
    ensures s.log.executed == s.log.enqueued && |s.log.verdicts| == |s.log.enqueued|
    ensures Delivered(s.log.delivered) == Passed(s.log.verdicts) && !s.parsing
    ensures forall k :: 0 <= k < |s.log.enqueued| ==> s.log.enqueued[k].text.ptr !in s.heap.live
  {
    hide Called, Stated, Passed, Delivered, VarsOwned, Ordered, HeapSound;
  }

  // ---- nobody waits for ever ----------------------------------------------------------------------

  /** The first `k` queries are executed, and nothing of them is left to hand over. */
  predicate Served(s: Conn, k: nat) {
    |s.log.executed| > k || (|s.log.executed| == k && !FrontDone(s.worker) && s.threadQueue == [])
  }

  lemma DueFloor(s: Conn, n: nat, k: nat)
    requires Inv(s) && FewScripts(s, n) && k <= |s.log.enqueued| && !Served(s, k)
    ensures Due(s, n, k) > 0
  {
    var e, w, c := |s.log.executed|, QueryWeight(n), CompletionWeight(n);
    var done := One(FrontDone(s.worker));
    DoneBounds(s.worker, s.tick, n);
    assert |s.queryQueue| == |s.log.enqueued| - (e - done) by { hide OneSlot, Judged, Owned, Called, Stated; }
    assert |s.threadQueue| <= 1 && (InGuard(s.worker) ==> s.threadQueue == [])
      && (s.threadQueue == [] ==> TickAtHead(s.tick) || s.tick.Clearing?) by { hide Fifo, Judged, Owned, Called, Stated; }
    hide Inv;
    WeighIn(w, c, |s.queryQueue|, |s.log.enqueued|, e - done, k, |s.threadQueue|);
    hide QueryWeight, CompletionWeight, TickDone;
  }

  lemma WeighIn(w: nat, c: nat, q: nat, enqueued: nat, popped: int, k: nat, tq: nat)
    requires q == enqueued - popped && tq <= 1
    ensures w * q - w * (enqueued - k) == w * (k - popped)
    ensures popped + 1 == k ==> w * (k - popped) == w
    ensures popped + 1 < k ==> w * (k - popped) >= 2 * w
    ensures popped == k ==> w * (k - popped) == 0
    ensures c * tq == if tq == 0 then 0 else c
  {
    Distributes(q, enqueued - k, w);
    AtLeastTwice(w, k - popped);
  }

  lemma AtLeastTwice(w: nat, d: int)
    ensures d >= 2 ==> w * d >= 2 * w
  {
    if d >= 2 { assert w * (d - 2) >= 0; }
  }

  lemma StepServed(s: Conn, c: Choice, k: nat)
    requires Served(s, k)
    ensures Served(Step(s, c), k)
  {
    hide NativeStep, TickStep, WorkerStep;
    match c
    case Worker(ret) =>
      if Looking(s.worker) { LookingFrame(s, ret); } else { WorkerServed(s, ret, k); }
    case Tick(scripts) =>
      TickFrame(s, scripts);
      TickAddsNothing(s, scripts);
    case Native(n, address) => NativeFrame(s, n, address);
  }

  lemma WorkerServed(s: Conn, ret: int, k: nat)
    requires Served(s, k) && !Looking(s.worker)
    ensures Served(WorkerStep(s, ret), k)
  {
    if s.worker.Executing? {
    } else {
      WorkerExecutesNothing(s, ret);
      hide WorkerStep;
    }
  }

  lemma WorkerExecutesNothing(s: Conn, ret: int)
    requires FrontDone(s.worker)
    ensures WorkerStep(s, ret).log.executed == s.log.executed
  {
  }

  lemma TickAddsNothing(s: Conn, scripts: seq<Script>)
    ensures s.threadQueue == [] ==> TickStep(s, scripts).threadQueue == []
  {
    hide Subscribes, CallOf;
  }

  lemma {:induction false} RunServed(s: Conn, schedule: seq<Choice>, k: nat)
    requires Served(s, k)
    ensures Served(Run(s, schedule), k)
    decreases |schedule|
  {
    hide Step, Served;
    if schedule == [] {
    } else {
      RunServed(s, Init(schedule), k);
      StepServed(Run(s, Init(schedule)), Last(schedule), k);
    }
  }

  lemma QuiescentServes(s: Conn, k: nat)
    requires Inv(s) && Quiescent(s) && k <= |s.log.enqueued|
    ensures Served(s, k)
  {
    DrainedMeansDone(s);
    hide Inv;
  }

  lemma RoundServes(s: Conn, round: seq<Choice>, n: nat, k: nat)
    requires Inv(s) && FewScripts(s, n) && FairRound(round, n) && k <= |s.log.enqueued|
    ensures var s' := Run(s, round);
      Inv(s') && FewScripts(s', n) && (Due(s', n, k) < Due(s, n, k) || Served(s, k))
  {
    hide Inv, Due, FewScripts, Busy, Run, FewLoadedAt, Served, Quiescent;
    BusyDue(s, round, n, k);
    if Busy(s, round) == 0 {
      IdleRound(s, round, n);
      QuiescentServes(s, k);
    }
  }

  lemma {:induction false} EnqueuedGrows(s: Conn, schedule: seq<Choice>)
    ensures s.log.enqueued <= Run(s, schedule).log.enqueued
    decreases |schedule|
  {
    hide WorkerStep, TickStep, NativeStep;
    if schedule == [] {
    } else {
      var before, c := Run(s, Init(schedule)), Last(schedule);
      EnqueuedGrows(s, Init(schedule));
      match c
      case Worker(ret) => WorkerFrame(before, ret);
      case Tick(scripts) => TickFrame(before, scripts);
      case Native(n, address) => NativeEnqueues(before, n, address);
    }
  }

  /** How much that is: with n scripts, 2n + 14 steps for a query in queryQueue, and 2n + 5 for
      a completion in threadQueue. */
  lemma WorkAtMost(s: Conn, n: nat)
    requires FewScripts(s, n)
    ensures Work(s, n) <= (2 * n + 14) * |s.queryQueue| + (2 * n + 5) * |s.threadQueue| + 1
    ensures Due(s, n, |s.log.enqueued|) == Work(s, n)
  {
    DoneBounds(s.worker, s.tick, n);
    DueOfAll(s, n);
    assert QueryWeight(n) == 2 * n + 14 && CompletionWeight(n) == 2 * n + 5;
    hide WorkerDone, TickDone;
  }

  /** Bounded waiting.  Whatever is enqueued after them, the first `k` queries are served after
      as many fair rounds as there is work due to them, in every interleaving. */
  lemma {:induction false} FairRunsServe(s: Conn, rounds: seq<seq<Choice>>, n: nat, k: nat)
    requires Inv(s) && FewScripts(s, n) && k <= |s.log.enqueued| && |rounds| >= Due(s, n, k)
    requires forall i :: 0 <= i < |rounds| ==> FairRound(rounds[i], n)
    ensures Served(Run(s, Concat(rounds)), k)
    decreases |rounds|
  {
    hide Inv, Due, FewScripts, Served, FairRound;
    if Served(s, k) {
      RunServed(s, Concat(rounds), k);
    } else {
      DueFloor(s, n, k);
      var s' := Run(s, rounds[0]);
      RoundServes(s, rounds[0], n, k);
      EnqueuedGrows(s, rounds[0]);
      RunConcat(s, rounds[0], Concat(rounds[1..]));
      FairRunsServe(s', rounds[1..], n, k);
    }
  }

  lemma {:induction false} PassedPrefix(vs: seq<Verdict>, k: nat)
    requires k <= |vs|
    ensures Passed(vs[..k]) <= Passed(vs)
    decreases |vs|
  {
    if k == |vs| {
      assert vs[..k] == vs;
    } else {
      PassedPrefix(Init(vs), k);
      assert Init(vs)[..k] == vs[..k];
    }
  }

  /** What is owed is owed to the last verdict. */
  lemma OwedIsLast(s: Conn)
    requires OneSlot(s) && Judged(s) && Owed(s) != []
    ensures |s.log.verdicts| == |s.log.executed| > 0
    ensures Delivered(s.log.delivered) == Passed(Init(s.log.verdicts))
  {
    assert HandingOver(s);
    var d, vs := Delivered(s.log.delivered), s.log.verdicts;
    assert Passed(vs) == Passed(Init(vs)) + [CompletionOf(Last(vs).q)];
    hide Passed, Delivered, InGuard;
    assert |Owed(s)| == 1 && d + Owed(s) == Passed(vs);
    assert d == (d + Owed(s))[..|d|];
  }

  /** What being served means: the first `k` queries are executed, judged and their texts
      deleted, and the completions of those that passed are delivered. */
  lemma ServedMeansDelivered(s: Conn, k: nat)
    requires Inv(s) && Served(s, k)
    ensures k <= |s.log.verdicts| && Passed(s.log.verdicts[..k]) <= Delivered(s.log.delivered)
    ensures forall i :: 0 <= i < k ==> s.log.verdicts[i].q == s.log.enqueued[i]
  {
    assert Fifo(s) && OneSlot(s) && Judged(s);
    hide Inv;
    var vs := s.log.verdicts;
    if Owed(s) == [] {
      PassedPrefix(vs, k);
      hide Passed, Delivered;
    } else {
      OwedIsLast(s);
      PassedPrefix(Init(vs), k);
      assert Init(vs)[..k] == vs[..k];
      hide Passed, Delivered;
    }
  }
}
