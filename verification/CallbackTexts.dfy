/** What becomes of the text that mysql_query_array allocates for its callback. */
module CallbackTexts {
  import opened Base
  import opened Results
  import opened Handoff
  import opened HandoffInvariant
  import opened HandoffTheorems
  import opened Progress

  /** The callback texts of the completions that found a subscriber. */
  function Heard(ds: seq<Delivery>): seq<nat> {
    if ds == [] then []
    else
      var d := Last(ds);
      if d.c.extra.Vars? && Subscribers(d.scripts, d.c) != []
      then Heard(Init(ds)) + [d.c.extra.s.ptr] else Heard(Init(ds))
  }

  /** The same, with the dispatch in progress. */
  function HeardSoFar(tick: TickPc, ds: seq<Delivery>): seq<nat> {
    Heard(ds) + if Dispatching(tick) && tick.c.extra.Vars? && tick.vars.None? then [tick.c.extra.s.ptr] else []
  }

  /** In a dispatch the text is gone exactly if a script already passed subscribes. */
  predicate DispatchAt(tick: TickPc) {
    Dispatching(tick) ==>
      && |tick.rest| <= |tick.all| && tick.rest == tick.all[|tick.all| - |tick.rest|..]
      && (tick.Within? ==> tick.rest != [] && Subscribes(tick.rest[0], tick.c))
      && (tick.c.extra.Vars? ==>
            (tick.vars.None? <==> Subscribers(tick.all[..|tick.all| - |tick.rest|], tick.c) != []))
  }

  predicate Below(xs: seq<nat>, next: nat) {
    forall i :: 0 <= i < |xs| ==> xs[i] < next
  }

  /** An enqueued callback text is deleted if it was heard, and live if not. */
  predicate Accounted(heap: Heap, enqueued: seq<Query>, heard: seq<nat>) {
    forall k :: 0 <= k < |enqueued| && enqueued[k].extra.Vars? ==>
      var p := enqueued[k].extra.s.ptr;
      (p in heap.freed <==> p in heard) && (p in heap.live <==> p !in heard)
  }

  predicate Fate(s: Conn) {
    && DispatchAt(s.tick)
    && Below(HeardSoFar(s.tick, s.log.delivered), s.heap.next)
    && (Dispatching(s.tick) && s.tick.c.extra.Vars? ==> s.tick.c.extra.s.ptr < s.heap.next)
    && Accounted(s.heap, s.log.enqueued, HeardSoFar(s.tick, s.log.delivered))
  }

  lemma {:induction false} SubscribersSnoc(scripts: seq<Script>, a: Script, c: Completion)
    ensures Subscribers(scripts + [a], c) == Subscribers(scripts, c) + (if Subscribes(a, c) then [a] else [])
    decreases |scripts|
  {
    if scripts == [] {
      assert [a][1..] == [];
    } else {
      SubscribersSnoc(scripts[1..], a, c);
      assert (scripts + [a])[1..] == scripts[1..] + [a];
    }
  }

  // ---- the worker ----------------------------------------------------------------------------

  /** The texts of queries and the texts of callbacks are different allocations. */
  lemma TextIsNoVars(qs: seq<Query>, next: nat, j: nat, k: nat)
    requires Ordered(qs, next) && j < |qs| && k < |qs| && qs[k].extra.Vars?
    ensures qs[j].text.ptr != qs[k].extra.s.ptr
  {
    if j < k { assert Top(qs[j]) < qs[k].text.ptr; }
    if k < j { assert Top(qs[k]) < qs[j].text.ptr; }
  }

  lemma WorkerHeap(s: Conn, ret: int)
    ensures WorkerStep(s, ret).heap ==
      if s.worker.Freeing? then Free(s, s.worker.q.text.ptr).heap else s.heap
  {
  }

  lemma WorkerFate(s: Conn, ret: int)
    requires Fifo(s) && Owned(s) && Fate(s)
    ensures Fate(WorkerStep(s, ret))
  {
    WorkerFrame(s, ret);
    WorkerHeap(s, ret);
    hide WorkerStep;
    if s.worker.Freeing? {
      var j := |s.log.executed| - 1;
      assert s.log.enqueued[j] == s.worker.q;
      forall k | 0 <= k < |s.log.enqueued| && s.log.enqueued[k].extra.Vars?
        ensures s.worker.q.text.ptr != s.log.enqueued[k].extra.s.ptr
      {
        TextIsNoVars(s.log.enqueued, s.heap.next, j, k);
      }
    }
  }

  // ---- the tick -------------------------------------------------------------------------------

  lemma ReadingHeap(s: Conn, scripts: seq<Script>)
    requires !Handling(s.tick)
    ensures var s' := TickStep(s, scripts);
      && s'.heap == s.heap && s'.log == s.log
      && (Dispatching(s'.tick) ==>
            s.tick.Reading? && s.threadQueue != [] && s'.tick == Calling(s.threadQueue[0], scripts, scripts, VarsOf(s.threadQueue[0].extra)))
  {
  }

  lemma EndingHeap(s: Conn, scripts: seq<Script>)
    requires s.tick.Dequeuing? || s.tick.Clearing?
    ensures var s' := TickStep(s, scripts);
      s'.heap == s.heap && s'.log == s.log && !Dispatching(s'.tick)
  {
  }

  lemma ElsewhereHeap(s: Conn, scripts: seq<Script>)
    requires !Dispatching(s.tick)
    ensures var s' := TickStep(s, scripts);
      && s'.heap == s.heap && s'.log.enqueued == s.log.enqueued && s'.log.delivered == s.log.delivered
      && (Dispatching(s'.tick) ==>
            s.tick.Reading? && s.threadQueue != [] && s'.tick == Calling(s.threadQueue[0], scripts, scripts, VarsOf(s.threadQueue[0].extra)))
  {
    hide TickStep;
    if Handling(s.tick) { EndingHeap(s, scripts); } else { ReadingHeap(s, scripts); }
  }

  lemma WithinHeap(s: Conn, scripts: seq<Script>)
    requires s.tick.Within? && s.tick.rest != []
    ensures var t, s' := s.tick, TickStep(s, scripts);
      && s'.heap == (if t.vars.Some? then Free(s, t.vars.value.ptr).heap else s.heap)
      && s'.log.enqueued == s.log.enqueued && s'.log.delivered == s.log.delivered
      && s'.tick == Calling(t.c, t.all, t.rest[1..], None)
  {
  }

  lemma ElsewhereFate(s: Conn, scripts: seq<Script>)
    requires OneSlot(s) && Owned(s) && Fate(s) && !Dispatching(s.tick)
    ensures Fate(TickStep(s, scripts))
  {
    ElsewhereHeap(s, scripts);
    hide TickStep, Heard, Ordered, TextsOwned, VarsOwned;
    assert scripts[..0] == [] && scripts[0..] == scripts;
  }

  lemma NextScript(all: seq<Script>, rest: seq<Script>, c: Completion)
    requires rest != [] && |rest| <= |all| && rest == all[|all| - |rest|..]
    ensures rest[1..] == all[|all| - |rest[1..]|..]
    ensures Subscribers(all[..|all| - |rest[1..]|], c)
      == Subscribers(all[..|all| - |rest|], c) + (if Subscribes(rest[0], c) then [rest[0]] else [])
  {
    var n := |all| - |rest|;
    SubscribersSnoc(all[..n], all[n], c);
    assert all[..n + 1] == all[..n] + [all[n]];
  }

  lemma EndOfScripts(s: Conn, scripts: seq<Script>)
    requires s.tick.Calling? && s.tick.rest == []
    ensures var s' := TickStep(s, scripts);
      && s'.heap == s.heap && s'.log.enqueued == s.log.enqueued && s'.tick == Dequeuing
      && s'.log.delivered == s.log.delivered + [Delivery(s.tick.c, s.tick.all)]
  {
  }

  lemma PastScript(s: Conn, scripts: seq<Script>)
    requires s.tick.Calling? && s.tick.rest != []
    ensures var t, s' := s.tick, TickStep(s, scripts);
      && s'.heap == s.heap && s'.log.enqueued == s.log.enqueued && s'.log.delivered == s.log.delivered
      && s'.tick == (if Subscribes(t.rest[0], t.c) then Within(t.c, t.all, t.rest, t.vars)
                     else Calling(t.c, t.all, t.rest[1..], t.vars))
  {
    hide Subscribes, CallOf;
  }

  lemma CallingFate(s: Conn, scripts: seq<Script>)
    requires Fate(s) && s.tick.Calling?
    ensures Fate(TickStep(s, scripts))
  {
    hide TickStep, Subscribes, Subscribers, Accounted, Below;
    var t := s.tick;
    if t.rest == [] {
      EndOfScripts(s, scripts);
      assert t.all[..|t.all|] == t.all;
      var ds := s.log.delivered + [Delivery(t.c, t.all)];
      assert Init(ds) == s.log.delivered && Last(ds) == Delivery(t.c, t.all);
      assert HeardSoFar(Dequeuing, ds) == HeardSoFar(t, s.log.delivered);
    } else {
      PastScript(s, scripts);
      NextScript(t.all, t.rest, t.c);
    }
  }

  lemma WithinFate(s: Conn, scripts: seq<Script>)
    requires Owned(s) && Fate(s) && s.tick.Within?
    ensures Fate(TickStep(s, scripts))
  {
    var t, t' := s.tick, TickStep(s, scripts).tick;
    NextScript(t.all, t.rest, t.c);
    WithinHeap(s, scripts);
    hide TickStep, Subscribes, Subscribers, Heard, Ordered, TextsOwned, VarsOwned;
    assert DispatchAt(t');
    assert t.vars.Some? ==> t.c.extra == Vars(t.vars.value);
    var heard, heard' := HeardSoFar(t, s.log.delivered), HeardSoFar(t', s.log.delivered);
    assert heard' == if t.vars.Some? then heard + [t.vars.value.ptr] else heard;
  }

  lemma TickFate(s: Conn, scripts: seq<Script>)
    requires OneSlot(s) && Owned(s) && Fate(s)
    ensures Fate(TickStep(s, scripts))
  {
    hide OneSlot, Owned, Fate, TickStep;
    if s.tick.Calling? { CallingFate(s, scripts); }
    else if s.tick.Within? { WithinFate(s, scripts); }
    else { ElsewhereFate(s, scripts); }
  }

  // ---- the natives -----------------------------------------------------------------------------

  lemma SubmitFate(s: Conn, q: Query, strings: seq<Str>, next: nat)
    requires Owned(s) && Fate(s)
    requires strings == if q.extra.Vars? then [q.text, q.extra.s] else [q.text]
    requires s.heap.next <= q.text.ptr && (q.extra.Vars? ==> q.text.ptr < q.extra.s.ptr) && Top(q) < next
    ensures Fate(Submit(Allocate(s, strings, next), q))
  {
    hide DispatchAt, HeardSoFar, TextsOwned, VarsOwned;
    if q.extra.Vars? { assert q.extra.s in strings; }
  }

  lemma RunNowFate(s: Conn, q: Query, strings: seq<Str>, next: nat, ret: int)
    requires Owned(s) && Fate(s) && s.heap.next <= q.text.ptr < next
    requires forall i :: 0 <= i < |strings| ==> s.heap.next <= strings[i].ptr < next
    ensures Fate(RunNow(Allocate(s, strings, next), q, ret))
  {
    hide DispatchAt, HeardSoFar, TextsOwned, VarsOwned;
    forall k | 0 <= k < |s.log.enqueued| && s.log.enqueued[k].extra.Vars?
      ensures s.log.enqueued[k].extra.s.ptr < s.heap.next
    {
      assert Top(s.log.enqueued[k]) < s.heap.next;
    }
  }

  lemma RequestFate(s: Conn, q: Query, ret: int, strings: seq<Str>, next: nat)
    requires Owned(s) && Fate(s)
    requires strings == if q.extra.Vars? then [q.text, q.extra.s] else [q.text]
    requires s.heap.next <= q.text.ptr && (q.extra.Vars? ==> q.text.ptr < q.extra.s.ptr) && Top(q) < next
    ensures Fate(Request(s, q, ret, strings, next))
  {
    hide Owned, Fate;
    if q.resultId != -1 {
      SubmitFate(s, q, strings, next);
    } else {
      RunNowFate(s, q, strings, next, ret);
    }
  }

  lemma NativeFate(s: Conn, n: NativeCall, address: nat)
    requires Owned(s) && Fate(s)
    ensures Fate(NativeStep(s, n, address))
  {
    var p := if address < s.heap.next then s.heap.next else address;
    hide Owned, Request, GetString, StoreResult, Cursor, FreeResult, DispatchAt, Below, Accounted, HeardSoFar;
    match n
    case MysqlQuery(sql, resultId, spareId, ret) =>
      var text := Str(p, GetString(sql));
      RequestFate(s, Query(text, resultId, Id(spareId)), ret, [text], p + 2);
    case MysqlQueryArray(sql, resultId, vars, ret) =>
      var text, extra := Str(p, GetString(sql)), Str(p + 1, GetString(vars));
      RequestFate(s, Query(text, resultId, Vars(extra)), ret, [text, extra], p + 2);
    case _ =>
  }

  // ---- every run -----------------------------------------------------------------------------------

  lemma StepFate(s: Conn, c: Choice)
    requires Inv(s) && Fate(s)
    ensures Fate(Step(s, c))
  {
    hide Fifo, OneSlot, Judged, Owned, Called, Stated, Fate, WorkerStep, TickStep, NativeStep;
    match c
    case Worker(ret) => WorkerFate(s, ret);
    case Tick(scripts) => TickFate(s, scripts);
    case Native(n, address) => NativeFate(s, n, address);
  }

  lemma {:induction false} RunFate(s: Conn, schedule: seq<Choice>)
    requires Inv(s) && Fate(s)
    ensures Fate(Run(s, schedule))
    decreases |schedule|
  {
    hide Inv, Fate, Step;
    if schedule == [] {
    } else {
      RunFate(s, Init(schedule));
      RunInv(s, Init(schedule));
      StepFate(Run(s, Init(schedule)), Last(schedule));
    }
  }

  /** In every reachable state: the callback text of an enqueued query is deleted if a
      completion carrying it has reached a subscriber whose callback has returned, and is
      still allocated if not. */
  lemma CallbackTextFate(s: Conn, k: nat)
    requires Reachable(s) && k < |s.log.enqueued| && s.log.enqueued[k].extra.Vars?
    ensures var p := s.log.enqueued[k].extra.s.ptr;
      && (p in s.heap.freed <==> p in HeardSoFar(s.tick, s.log.delivered))
      && (p in s.heap.live <==> p !in s.heap.freed)
  {
    var id, mysql, next, schedule :| s == Run(New(id, mysql, next), schedule);
    NewInv(id, mysql, next);
    hide Inv, Run;
    RunFate(New(id, mysql, next), schedule);
  }

  lemma {:induction false} HeardWasDelivered(ds: seq<Delivery>, p: nat)
    requires p in Heard(ds)
    ensures exists i :: 0 <= i < |ds| && ds[i].c.extra.Vars? && ds[i].c.extra.s.ptr == p && Subscribers(ds[i].scripts, ds[i].c) != []
    decreases |ds|
  {
    var d := Last(ds);
    if d.c.extra.Vars? && Subscribers(d.scripts, d.c) != [] && d.c.extra.s.ptr == p {
    } else {
      HeardWasDelivered(Init(ds), p);
      var i :| 0 <= i < |Init(ds)| && Init(ds)[i].c.extra.Vars? && Init(ds)[i].c.extra.s.ptr == p
        && Subscribers(Init(ds)[i].scripts, Init(ds)[i].c) != [];
      assert ds[i] == Init(ds)[i];
    }
  }

  lemma {:induction false} DeliveredIsHeard(ds: seq<Delivery>, i: nat)
    requires i < |ds| && ds[i].c.extra.Vars? && Subscribers(ds[i].scripts, ds[i].c) != []
    ensures ds[i].c.extra.s.ptr in Heard(ds)
    decreases |ds|
  {
    if i == |ds| - 1 {
    } else {
      DeliveredIsHeard(Init(ds), i);
    }
  }

  lemma {:induction false} PassedWasJudged(vs: seq<Verdict>, i: nat)
    requires i < |Passed(vs)|
    ensures exists k :: 0 <= k < |vs| && vs[k].seen == 0 && CompletionOf(vs[k].q) == Passed(vs)[i]
    decreases |vs|
  {
    if i == |Passed(Init(vs))| {
    } else {
      PassedWasJudged(Init(vs), i);
      var k :| 0 <= k < |Init(vs)| && Init(vs)[k].seen == 0 && CompletionOf(Init(vs)[k].q) == Passed(Init(vs))[i];
      assert vs[k] == Init(vs)[k];
    }
  }

  /** The callback texts of two enqueued queries are different allocations. */
  lemma VarsDiffer(qs: seq<Query>, next: nat, j: nat, k: nat)
    requires Ordered(qs, next) && j < |qs| && k < |qs| && qs[j].extra.Vars? && qs[k].extra.Vars?
    ensures j < k ==> qs[j].extra.s.ptr < qs[k].extra.s.ptr
  {
    if j < k { assert Top(qs[j]) < qs[k].text.ptr; }
  }

  /** A passed completion that carries the text of the k-th query is that query's. */
  lemma PassedCarries(s: Conn, k: nat, i: nat)
    requires Fifo(s) && Judged(s) && Owned(s)
    requires k < |s.log.enqueued| && s.log.enqueued[k].extra.Vars? && i < |Passed(s.log.verdicts)|
    requires var c := Passed(s.log.verdicts)[i]; c.extra.Vars? && c.extra.s.ptr == s.log.enqueued[k].extra.s.ptr
    ensures k < |s.log.verdicts| && s.log.verdicts[k].seen == 0
    ensures Passed(s.log.verdicts)[i] == CompletionOf(s.log.enqueued[k])
  {
    var vs, qs := s.log.verdicts, s.log.enqueued;
    PassedWasJudged(vs, i);
    var j :| 0 <= j < |vs| && vs[j].seen == 0 && CompletionOf(vs[j].q) == Passed(vs)[i];
    assert vs[j].q == qs[j];
    VarsDiffer(qs, s.heap.next, j, k);
    VarsDiffer(qs, s.heap.next, k, j);
  }

  /** The completion was delivered to a list of scripts with a subscriber in it. */
  predicate ReachedSubscriber(ds: seq<Delivery>, c: Completion) {
    exists i :: 0 <= i < |ds| && ds[i].c == c && Subscribers(ds[i].scripts, c) != []
  }

  /** What was heard of the k-th query, or is being heard, is owed to its success. */
  lemma HeardPassed(s: Conn, k: nat)
    requires Inv(s) && k < |s.log.enqueued| && s.log.enqueued[k].extra.Vars?
    requires s.log.enqueued[k].extra.s.ptr in HeardSoFar(s.tick, s.log.delivered)
    ensures k < |s.log.verdicts| && s.log.verdicts[k].seen == 0
    ensures !Dispatching(s.tick) ==> ReachedSubscriber(s.log.delivered, CompletionOf(s.log.enqueued[k]))
  {
    var p, vs, ds := s.log.enqueued[k].extra.s.ptr, s.log.verdicts, s.log.delivered;
    assert Passed(vs) == Delivered(ds) + Owed(s);
    hide Inv, Fifo, Judged, Owned, Passed;
    if p in Heard(ds) {
      HeardWasDelivered(ds, p);
      var i :| 0 <= i < |ds| && ds[i].c.extra.Vars? && ds[i].c.extra.s.ptr == p && Subscribers(ds[i].scripts, ds[i].c) != [];
      assert Passed(vs)[i] == ds[i].c;
      PassedCarries(s, k, i);
    } else {
      assert Owed(s) == [s.tick.c];
      assert Passed(vs)[|ds|] == s.tick.c;
      PassedCarries(s, k, |ds|);
    }
  }

  /** A query that did not pass keeps its callback text for good. */
  lemma FailedQueriesLeak(s: Conn, k: nat)
    requires Reachable(s) && k < |s.log.verdicts| <= |s.log.enqueued| && s.log.verdicts[k].seen != 0 && s.log.enqueued[k].extra.Vars?
    ensures s.log.enqueued[k].extra.s.ptr in s.heap.live
  {
    ReachableInv(s);
    CallbackTextFate(s, k);
    hide Inv, Reachable, HeardSoFar;
    if s.log.enqueued[k].extra.s.ptr in s.heap.freed { HeardPassed(s, k); }
  }

  /** When nothing is left to do, exactly those callback texts of queued queries are deleted
      whose completion was delivered to a list of scripts with a subscriber in it. */
  lemma QueuedLeakExactly(s: Conn, k: nat)
    requires Reachable(s) && Quiescent(s) && k < |s.log.enqueued| && s.log.enqueued[k].extra.Vars?
    ensures s.log.enqueued[k].extra.s.ptr in s.heap.live
      <==> !ReachedSubscriber(s.log.delivered, CompletionOf(s.log.enqueued[k]))
  {
    var c, ds := CompletionOf(s.log.enqueued[k]), s.log.delivered;
    ReachableInv(s);
    CallbackTextFate(s, k);
    assert HeardSoFar(s.tick, ds) == Heard(ds);
    hide Inv, Reachable, HeardSoFar;
    if c.extra.s.ptr in s.heap.freed {
      HeardPassed(s, k);
    } else if i :| 0 <= i < |ds| && ds[i].c == c && Subscribers(ds[i].scripts, c) != [] {
      DeliveredIsHeard(ds, i);
    }
  }
}
