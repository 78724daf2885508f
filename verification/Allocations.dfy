/** Every string the natives allocate for a handle: which are still allocated, which have been
    deleted, and that there are no others. */
module Allocations {
  import opened Base
  import opened Results
  import opened Handoff
  import opened HandoffInvariant
  import opened HandoffTheorems
  import opened Progress
  import opened CallbackTexts

  predicate IsText(qs: seq<Query>, p: nat) {
    exists k :: 0 <= k < |qs| && qs[k].text.ptr == p
  }

  predicate IsVars(qs: seq<Query>, p: nat) {
    exists k :: 0 <= k < |qs| && qs[k].extra.Vars? && qs[k].extra.s.ptr == p
  }

  /** The strings of a query run at once: its text is deleted, its callback text is not, and
      neither belongs to a queued query. */
  predicate Stray(heap: Heap, enqueued: seq<Query>, q: Query) {
    && q.text.ptr in heap.freed
    && (q.extra.Vars? ==>
          var p := q.extra.s.ptr;
          p in heap.live && !IsText(enqueued, p) && !IsVars(enqueued, p))
  }

  predicate Ledger(heap: Heap, enqueued: seq<Query>, atOnce: seq<Query>) {
    && (forall k :: 0 <= k < |atOnce| ==> Stray(heap, enqueued, atOnce[k]))
    && (forall p :: p in heap.live ==> IsText(enqueued, p) || IsVars(enqueued, p) || IsVars(atOnce, p))
    && (forall p :: p in heap.freed ==> IsText(enqueued, p) || IsVars(enqueued, p) || IsText(atOnce, p))
  }

  predicate Booked(s: Conn) {
    Ledger(s.heap, s.log.enqueued, s.log.atOnce)
  }

  // ---- deleting ---------------------------------------------------------------------------------

  /** Deleting a string of a queued query. */
  lemma FreeBooked(h: Heap, h': Heap, enqueued: seq<Query>, atOnce: seq<Query>, p: nat)
    requires Ledger(h, enqueued, atOnce) && (IsText(enqueued, p) || IsVars(enqueued, p))
    requires h' == h.(live := h.live - {p}, freed := h.freed + [p])
    ensures Ledger(h', enqueued, atOnce)
  {
    forall k | 0 <= k < |atOnce| ensures Stray(h', enqueued, atOnce[k]) {
      assert Stray(h, enqueued, atOnce[k]);
    }
  }

  lemma WorkerBooked(s: Conn, ret: int)
    requires Fifo(s) && Booked(s)
    ensures Booked(WorkerStep(s, ret))
  {
    WorkerFrame(s, ret);
    WorkerHeap(s, ret);
    hide WorkerStep;
    if s.worker.Freeing? {
      var j := |s.log.executed| - 1;
      assert s.log.enqueued[j] == s.worker.q;
      hide Ledger;
      FreeBooked(s.heap, WorkerStep(s, ret).heap, s.log.enqueued, s.log.atOnce, s.worker.q.text.ptr);
    }
  }

  lemma TickBooked(s: Conn, scripts: seq<Script>)
    requires Inv(s) && Booked(s)
    ensures Booked(TickStep(s, scripts))
  {
    assert OneSlot(s) && Fifo(s);
    assert s.tick.Within? ==> s.tick.rest != [];
    TickFrame(s, scripts);
    if s.tick.Within? {
      WithinHeap(s, scripts);
      if s.tick.vars.Some? {
        var j := |s.log.executed| - 1;
        assert CompletionOf(s.log.enqueued[j]) == s.tick.c && s.tick.c.extra == Vars(s.tick.vars.value) by {
          hide Passed, Delivered, Called, Stated;
        }
        hide TickStep, Ledger, Inv;
        FreeBooked(s.heap, TickStep(s, scripts).heap, s.log.enqueued, s.log.atOnce, s.tick.vars.value.ptr);
      }
    } else if s.tick.Calling? {
      if s.tick.rest == [] { EndOfScripts(s, scripts); } else { PastScript(s, scripts); }
    } else {
      ElsewhereHeap(s, scripts);
    }
    hide TickStep, Ledger, Inv;
  }

  // ---- allocating -------------------------------------------------------------------------------

  /** All known identities lie below `next`. */
  lemma KnownBelow(s: Conn, p: nat)
    requires Owned(s) && (IsText(s.log.enqueued, p) || IsVars(s.log.enqueued, p))
    ensures p < s.heap.next
  {
    hide HeapSound, TextsOwned, VarsOwned;
    forall k | 0 <= k < |s.log.enqueued| ensures s.log.enqueued[k].text.ptr <= Top(s.log.enqueued[k]) < s.heap.next {}
  }

  lemma SubmitBooked(s: Conn, q: Query, strings: seq<Str>, next: nat)
    requires Owned(s) && Booked(s)
    requires strings == if q.extra.Vars? then [q.text, q.extra.s] else [q.text]
    requires s.heap.next <= q.text.ptr && (q.extra.Vars? ==> q.text.ptr < q.extra.s.ptr)
    ensures Booked(Submit(Allocate(s, strings, next), q))
  {
    var s' := Submit(Allocate(s, strings, next), q);
    var was, now := s.log.enqueued, s'.log.enqueued;
    assert s'.heap.live == s.heap.live + {q.text.ptr, Top(q)} && s'.heap.freed == s.heap.freed;
    assert now[|was|] == q && forall k :: 0 <= k < |was| ==> now[k] == was[k];
    assert forall p :: IsText(now, p) <==> IsText(was, p) || p == q.text.ptr;
    assert forall p :: IsVars(now, p) <==> IsVars(was, p) || (q.extra.Vars? && p == q.extra.s.ptr);
    forall k | 0 <= k < |s.log.atOnce| ensures Stray(s'.heap, now, s.log.atOnce[k]) {
      assert Stray(s.heap, was, s.log.atOnce[k]);
    }
  }

  lemma RunNowBooked(s: Conn, q: Query, strings: seq<Str>, next: nat, ret: int)
    requires Owned(s) && Booked(s)
    requires strings == if q.extra.Vars? then [q.text, q.extra.s] else [q.text]
    requires s.heap.next <= q.text.ptr && (q.extra.Vars? ==> q.text.ptr < q.extra.s.ptr)
    ensures Booked(RunNow(Allocate(s, strings, next), q, ret))
  {
    var s' := RunNow(Allocate(s, strings, next), q, ret);
    var was, now := s.log.atOnce, s'.log.atOnce;
    var added := if q.extra.Vars? then {q.extra.s.ptr} else {};
    assert q.text.ptr !in s.heap.live;
    assert s'.heap.live == s.heap.live + added && s'.heap.freed == s.heap.freed + [q.text.ptr];
    assert now[|was|] == q && forall k :: 0 <= k < |was| ==> now[k] == was[k];
    assert forall p :: IsText(now, p) <==> IsText(was, p) || p == q.text.ptr;
    assert forall p :: IsVars(now, p) <==> IsVars(was, p) || p in added;
    if q.extra.Vars? {
      var p := q.extra.s.ptr;
      if IsText(s.log.enqueued, p) || IsVars(s.log.enqueued, p) { KnownBelow(s, p); }
    }
    forall k | 0 <= k < |now| ensures Stray(s'.heap, s.log.enqueued, now[k]) {
      if k < |was| { assert Stray(s.heap, s.log.enqueued, was[k]); }
    }
  }

  lemma NativeBooked(s: Conn, n: NativeCall, address: nat)
    requires Owned(s) && Booked(s)
    ensures Booked(NativeStep(s, n, address))
  {
    var p := if address < s.heap.next then s.heap.next else address;
    hide Owned, Ledger, Submit, RunNow, Allocate, GetString, StoreResult, Cursor, FreeResult;
    match n
    case MysqlQuery(sql, resultId, spareId, ret) =>
      var text := Str(p, GetString(sql));
      var q := Query(text, resultId, Id(spareId));
      SubmitBooked(s, q, [text], p + 2);
      RunNowBooked(s, q, [text], p + 2, ret);
    case MysqlQueryArray(sql, resultId, vars, ret) =>
      var text, extra := Str(p, GetString(sql)), Str(p + 1, GetString(vars));
      var q := Query(text, resultId, Vars(extra));
      SubmitBooked(s, q, [text, extra], p + 2);
      RunNowBooked(s, q, [text, extra], p + 2, ret);
    case _ =>
  }

  // ---- every run --------------------------------------------------------------------------------

  lemma StepBooked(s: Conn, c: Choice)
    requires Inv(s) && Booked(s)
    ensures Booked(Step(s, c))
  {
    assert Fifo(s) && Owned(s);
    hide Inv, Owned, Fifo, Booked, WorkerStep, TickStep, NativeStep;
    match c
    case Worker(ret) => WorkerBooked(s, ret);
    case Tick(scripts) => TickBooked(s, scripts);
    case Native(n, address) => NativeBooked(s, n, address);
  }

  lemma {:induction false} RunBooked(s: Conn, schedule: seq<Choice>)
    requires Inv(s) && Booked(s)
    ensures Booked(Run(s, schedule))
    decreases |schedule|
  {
    hide Inv, Booked, Step;
    if schedule == [] {
    } else {
      RunBooked(s, Init(schedule));
      RunInv(s, Init(schedule));
      StepBooked(Run(s, Init(schedule)), Last(schedule));
    }
  }

  lemma ReachableBooked(s: Conn)
    requires Reachable(s)
    ensures Booked(s)
  {
    var id, mysql, next, schedule :| s == Run(New(id, mysql, next), schedule);
    NewInv(id, mysql, next);
    hide Inv, Run;
    RunBooked(New(id, mysql, next), schedule);
  }

  // ---- the whole heap ---------------------------------------------------------------------------

  /** A callback text that no subscriber has heard. */
  predicate Unheard(s: Conn, p: nat) {
    IsVars(s.log.enqueued, p) && p !in HeardSoFar(s.tick, s.log.delivered)
  }

  /** In every reachable state the strings still allocated are exactly: the texts of queued
      queries the worker has not deleted yet, the callback texts of queued queries that no
      subscriber has heard, and the callback texts of queries run at once. */
  lemma LiveExactly(s: Conn, p: nat)
    requires Reachable(s)
    ensures 0 <= TextsFreed(s) <= |s.log.enqueued|
    ensures p in s.heap.live
      <==> IsText(s.log.enqueued[TextsFreed(s)..], p) || Unheard(s, p) || IsVars(s.log.atOnce, p)
  {
    ReachableInv(s);
    ReachableBooked(s);
    QueuedTexts(s, p);
    QueuedVars(s, p);
    hide Inv, Reachable;
    if k :| 0 <= k < |s.log.atOnce| && s.log.atOnce[k].extra.Vars? && s.log.atOnce[k].extra.s.ptr == p {
      assert Stray(s.heap, s.log.enqueued, s.log.atOnce[k]);
    }
  }

  /** And the strings deleted are exactly the texts of the queries executed, the callback texts
      heard, and the texts of queries run at once; each of them was deleted once. */
  lemma FreedExactly(s: Conn, p: nat)
    requires Reachable(s)
    ensures 0 <= TextsFreed(s) <= |s.log.enqueued| && NoRepeats(s.heap.freed)
    ensures p in s.heap.freed
      <==> || IsText(s.log.enqueued[..TextsFreed(s)], p)
           || (IsVars(s.log.enqueued, p) && p in HeardSoFar(s.tick, s.log.delivered))
           || IsText(s.log.atOnce, p)
  {
    ReachableInv(s);
    ReachableBooked(s);
    QueuedTexts(s, p);
    QueuedVars(s, p);
    hide Inv, Reachable;
    if k :| 0 <= k < |s.log.atOnce| && s.log.atOnce[k].text.ptr == p {
      assert Stray(s.heap, s.log.enqueued, s.log.atOnce[k]);
    }
  }

  lemma QueuedTexts(s: Conn, p: nat)
    requires Inv(s)
    ensures 0 <= TextsFreed(s) <= |s.log.enqueued| && NoRepeats(s.heap.freed)
    ensures p in s.heap.live && IsText(s.log.enqueued, p) <==> IsText(s.log.enqueued[TextsFreed(s)..], p)
    ensures p in s.heap.freed && IsText(s.log.enqueued, p) <==> IsText(s.log.enqueued[..TextsFreed(s)], p)
  {
  }

  lemma QueuedVars(s: Conn, p: nat)
    requires Reachable(s)
    ensures p in s.heap.live && IsVars(s.log.enqueued, p) <==> Unheard(s, p)
    ensures p in s.heap.freed && IsVars(s.log.enqueued, p)
      <==> IsVars(s.log.enqueued, p) && p in HeardSoFar(s.tick, s.log.delivered)
  {
    hide Reachable, HeardSoFar;
    if k :| 0 <= k < |s.log.enqueued| && s.log.enqueued[k].extra.Vars? && s.log.enqueued[k].extra.s.ptr == p {
      CallbackTextFate(s, k);
    }
  }

  // ---- what is left over --------------------------------------------------------------------------

  /** A query whose callback text nobody deletes: it was run at once, or its completion never
      reached a subscriber. */
  predicate Leaks(s: Conn, q: Query) {
    && q.extra.Vars?
    && (q in s.log.atOnce
        || (q in s.log.enqueued && !ReachedSubscriber(s.log.delivered, CompletionOf(q))))
  }

  /** When nothing is left to do, the strings still allocated are exactly the callback texts
      of those queries. */
  lemma LeakedExactly(s: Conn, p: nat)
    requires Reachable(s) && Quiescent(s)
    ensures p in s.heap.live <==> exists q :: Leaks(s, q) && q.extra.s.ptr == p
  {
    LiveExactly(s, p);
    NoTextLeft(s);
    hide Reachable, Quiescent, HeardSoFar;
    if k :| 0 <= k < |s.log.atOnce| && s.log.atOnce[k].extra.Vars? && s.log.atOnce[k].extra.s.ptr == p {
      assert Leaks(s, s.log.atOnce[k]);
    } else if k :| 0 <= k < |s.log.enqueued| && s.log.enqueued[k].extra.Vars? && s.log.enqueued[k].extra.s.ptr == p {
      QueuedLeak(s, k);
      LeaksOnly(s, k);
    } else {
      assert !IsVars(s.log.enqueued, p) && !IsVars(s.log.atOnce, p);
    }
  }

  lemma NoTextLeft(s: Conn)
    requires Reachable(s) && Quiescent(s)
    ensures TextsFreed(s) == |s.log.enqueued|
  {
    ReachableInv(s);
    hide Reachable;
  }

  lemma QueuedLeak(s: Conn, k: nat)
    requires Reachable(s) && Quiescent(s) && k < |s.log.enqueued| && s.log.enqueued[k].extra.Vars?
    ensures s.log.enqueued[k].extra.s.ptr in s.heap.live <==> Leaks(s, s.log.enqueued[k])
  {
    var q := s.log.enqueued[k];
    QueuedLeakExactly(s, k);
    ReachableBooked(s);
    hide Reachable, Quiescent, ReachedSubscriber;
    if q in s.log.atOnce { assert Stray(s.heap, s.log.enqueued, q); }
  }

  /** No other query leaks the text of the k-th. */
  lemma LeaksOnly(s: Conn, k: nat)
    requires Reachable(s) && k < |s.log.enqueued| && s.log.enqueued[k].extra.Vars?
    ensures forall q :: Leaks(s, q) && q.extra.s.ptr == s.log.enqueued[k].extra.s.ptr ==> q == s.log.enqueued[k]
  {
    ReachableBooked(s);
    ReachableInv(s);
    var p := s.log.enqueued[k].extra.s.ptr;
    assert IsVars(s.log.enqueued, p);
    assert forall q :: q in s.log.atOnce && q.extra.Vars? ==> q.extra.s.ptr != p by {
      forall q | q in s.log.atOnce && q.extra.Vars? ensures q.extra.s.ptr != p {
        assert Stray(s.heap, s.log.enqueued, q);
      }
    }
    forall q | Leaks(s, q) && q.extra.s.ptr == p ensures q == s.log.enqueued[k] {
      var j :| 0 <= j < |s.log.enqueued| && s.log.enqueued[j] == q;
      VarsDiffer(s.log.enqueued, s.heap.next, j, k);
      VarsDiffer(s.log.enqueued, s.heap.next, k, j);
    }
  }
}
