/** The two handle loops (MySQL/Thread.cpp, lines 38 and 87) in every run of the plugin. */
module Scan {
  import opened Base
  import opened Handoff
  import opened Plugin
  import opened Modulo

  datatype Thread = QueryThread | GameThread

  /** The loop variable. */
  function At(s: Sys, t: Thread): nat {
    if t.QueryThread? then s.workerAt else s.tickAt
  }

  /** The thread is not within the loop body for this handle. */
  predicate Away(c: Conn, t: Thread) {
    if t.QueryThread? then c.worker.Resting? else c.tick.Idle?
  }

  /** It stands at the same statement. */
  predicate SamePlace(c: Conn, c': Conn, t: Thread) {
    if t.QueryThread? then c'.worker == c.worker else c'.tick == c.tick
  }

  predicate Steps(m: Move, t: Thread) {
    if t.QueryThread? then m.WorkerMove? else m.TickMove?
  }

  /** The thread is within the loop body. */
  predicate Inside(s: Sys, t: Thread) {
    Occupied(s.table, At(s, t)) && !Away(s.table[At(s, t)].value, t)
  }

  /** A move that begins a visit. */
  predicate Enters(s: Sys, m: Move, t: Thread) {
    Steps(m, t) && Occupied(s.table, At(s, t)) && Away(s.table[At(s, t)].value, t)
  }

  /** The handles a thread begins to visit, in order. */
  function Entered(s: Sys, moves: seq<Move>, t: Thread): seq<nat> {
    if moves == [] then []
    else
      var before := Play(s, Init(moves));
      if Enters(before, Last(moves), t)
      then Entered(s, Init(moves), t) + [At(before, t)]
      else Entered(s, Init(moves), t)
  }

  // ---- single moves -------------------------------------------------------------------------

  lemma FirstStepEnters(c: Conn, ret: int, scripts: seq<Script>)
    ensures c.worker.Resting? ==> !WorkerStep(c, ret).worker.Resting?
    ensures c.tick.Idle? ==> !TickStep(c, scripts).tick.Idle?
  {
  }

  /** A step of the thread itself: at an empty slot it starts over, otherwise it steps within
      its slot, and leaves it for the next slot exactly when the visit ends. */
  lemma OwnMove(s: Sys, m: Move, t: Thread)
    requires Steps(m, t)
    ensures var s' := Apply(s, m);
      && |s'.table| == |s.table|
      && (forall h :: 0 <= h < |s.table| && h != At(s, t) ==> s'.table[h] == s.table[h])
      && (forall h :: Occupied(s'.table, h) == Occupied(s.table, h))
      && (!Occupied(s.table, At(s, t)) ==> At(s', t) == 0 && s'.table == s.table)
      && (Occupied(s.table, At(s, t)) ==>
            var c' := s'.table[At(s, t)].value;
            && At(s', t) == (if Away(c', t) then At(s, t) + 1 else At(s, t))
            && (Enters(s, m, t) ==> !Away(c', t)))
  {
    hide WorkerStep, TickStep, NativeStep, EraseFirst;
    if Occupied(s.table, At(s, t)) {
      FirstStepEnters(s.table[At(s, t)].value, if m.WorkerMove? then m.ret else 0, s.scripts);
    }
  }

  /** Any other move leaves the thread where it is; a handle appears and disappears only
      while the thread is away from it. */
  lemma OtherMove(s: Sys, m: Move, t: Thread)
    requires !Steps(m, t)
    ensures var s' := Apply(s, m);
      && |s'.table| == |s.table| && At(s', t) == At(s, t)
      && (forall h :: Occupied(s.table, h) && Occupied(s'.table, h) ==>
            SamePlace(s.table[h].value, s'.table[h].value, t))
      && (forall h :: Occupied(s'.table, h) && !Occupied(s.table, h) ==> Away(s'.table[h].value, t))
      && (forall h :: Occupied(s.table, h) && !Occupied(s'.table, h) ==> Away(s.table[h].value, t))
  {
    hide WorkerStep, TickStep, NativeStep, EraseFirst;
    if m.WorkerMove? && Occupied(s.table, s.workerAt) {
      StepNext(s.table[s.workerAt].value, Worker(m.ret));
    } else if m.TickMove? && Occupied(s.table, s.tickAt) {
      StepNext(s.table[s.tickAt].value, Tick(s.scripts));
    } else if m.ScriptCall? && Occupied(s.table, m.handle) {
      StepNext(s.table[m.handle].value, Native(m.n, s.next));
    }
  }

  // ---- whatever happens -----------------------------------------------------------------------

  /** Between visits the thread is at the slot after the last one, or starts over. */
  predicate OnItsWay(s: Sys, t: Thread, visits: seq<nat>) {
    if Inside(s, t) then visits != [] && At(s, t) == Last(visits)
    else At(s, t) == 0 || (visits != [] && At(s, t) == Last(visits) + 1)
  }

  predicate Ascending(visits: seq<nat>) {
    forall i :: 0 <= i < |visits| ==> visits[i] == 0 || (i > 0 && visits[i] == visits[i - 1] + 1)
  }

  lemma OwnOnItsWay(s: Sys, m: Move, t: Thread, visits: seq<nat>)
    requires Placed(s) && Steps(m, t) && OnItsWay(s, t, visits)
    ensures OnItsWay(Apply(s, m), t, if Enters(s, m, t) then visits + [At(s, t)] else visits)
  {
    OwnMove(s, m, t);
    if At(Apply(s, m), t) != At(s, t) { AwayElsewhere(s, m, t); }
    hide Apply, Placed;
  }

  /** A step of the thread leaves it out of the slot it comes to. */
  lemma AwayElsewhere(s: Sys, m: Move, t: Thread)
    requires Placed(s) && Steps(m, t) && At(Apply(s, m), t) != At(s, t)
    ensures !Inside(Apply(s, m), t)
  {
    MovePlaced(s, m);
    OwnMove(s, m, t);
    hide Apply;
  }

  lemma OtherOnItsWay(s: Sys, m: Move, t: Thread, visits: seq<nat>)
    requires !Steps(m, t) && OnItsWay(s, t, visits)
    ensures OnItsWay(Apply(s, m), t, visits)
  {
    OtherMove(s, m, t);
    hide Apply;
  }

  lemma AscendsOn(visits: seq<nat>, h: nat)
    requires Ascending(visits) && (h == 0 || (visits != [] && h == Last(visits) + 1))
    ensures Ascending(visits + [h])
  {
  }

  lemma MoveOnItsWay(s: Sys, m: Move, t: Thread, visits: seq<nat>)
    requires Placed(s) && OnItsWay(s, t, visits) && Ascending(visits)
    ensures var visits' := if Enters(s, m, t) then visits + [At(s, t)] else visits;
      OnItsWay(Apply(s, m), t, visits') && Ascending(visits')
  {
    assert Enters(s, m, t) ==> At(s, t) == 0 || (visits != [] && At(s, t) == Last(visits) + 1);
    if Enters(s, m, t) { AscendsOn(visits, At(s, t)); }
    hide Apply, Placed, OnItsWay, Ascending;
    if Steps(m, t) { OwnOnItsWay(s, m, t, visits); } else { OtherOnItsWay(s, m, t, visits); }
  }

  lemma NothingOnItsWay(s: Sys, t: Thread)
    requires At(s, t) == 0 && !Inside(s, t)
    ensures OnItsWay(s, t, []) && Ascending([])
  {
  }

  /** In every run of the plugin, with handles appearing and disappearing meanwhile: each visit
      of either thread is to the slot after that of the visit before, or to slot 0. */
  lemma {:induction false} ScanAscends(s: Sys, moves: seq<Move>, t: Thread)
    requires Placed(s) && At(s, t) == 0 && !Inside(s, t)
    ensures Placed(Play(s, moves))
    ensures OnItsWay(Play(s, moves), t, Entered(s, moves, t)) && Ascending(Entered(s, moves, t))
    decreases |moves|
  {
    hide Apply, OnItsWay, Ascending;
    if moves == [] {
      NothingOnItsWay(s, t);
    } else {
      var before, m := Play(s, Init(moves)), Last(moves);
      ScanAscends(s, Init(moves), t);
      MovePlaced(before, m);
      MoveOnItsWay(before, m, t, Entered(s, Init(moves), t));
    }
  }

  // ---- while handles stay ------------------------------------------------------------------------

  /** No handle appears or disappears. */
  predicate Settled(m: Move) {
    !m.InitHandle? && !m.CloseHandle?
  }

  lemma SettledKeepsTable(s: Sys, m: Move, h: nat)
    requires Settled(m)
    ensures Occupied(Apply(s, m).table, h) == Occupied(s.table, h)
  {
    hide WorkerStep, TickStep, NativeStep, EraseFirst;
  }

  lemma SettledKeepsPrefix(s: Sys, m: Move)
    requires Settled(m)
    ensures FirstFree(Apply(s, m).table) == FirstFree(s.table)
  {
    var f, f' := FirstFree(s.table), FirstFree(Apply(s, m).table);
    SettledKeepsTable(s, m, f);
    SettledKeepsTable(s, m, f');
    hide Apply;
    assert f < f' ==> Occupied(Apply(s, m).table, f);
    assert f' < f ==> Occupied(s.table, f');
  }

  /** Where a thread stands after it has begun `k` visits. */
  ghost predicate ScanAt(s: Sys, t: Thread, k: nat, served: nat) {
    && served == FirstFree(s.table) && At(s, t) <= served
    && (forall h :: Occupied(s.table, h) && h != At(s, t) ==> Away(s.table[h].value, t))
    && (if Inside(s, t)
        then k > 0 && served > 0 && At(s, t) == (k - 1) % served
        else ((At(s, t) < served ==> At(s, t) == k % served)
              && (At(s, t) == served > 0 ==> k % served == 0)))
  }

  lemma AtServed(s: Sys, t: Thread)
    requires At(s, t) <= FirstFree(s.table)
    ensures Occupied(s.table, At(s, t)) <==> At(s, t) < FirstFree(s.table)
  {
  }

  lemma NextVisit(k: nat, served: nat)
    requires served > 0
    ensures k % served == served - 1 ==> (k + 1) % served == 0
    ensures k % served < served - 1 ==> (k + 1) % served == k % served + 1
  {
    var q, r := k / served, k % served;
    assert k == q * served + r;
    if r == served - 1 {
      assert k + 1 == (q + 1) * served;
      ModIs(k + 1, q + 1, 0, served);
    } else {
      ModIs(k + 1, q, r + 1, served);
    }
  }

  lemma OwnMoveScans(s: Sys, m: Move, t: Thread, k: nat, served: nat)
    requires ScanAt(s, t, k, served) && Steps(m, t)
    ensures ScanAt(Apply(s, m), t, if Enters(s, m, t) then k + 1 else k, served)
    ensures Enters(s, m, t) ==> At(s, t) == k % served
  {
    SettledKeepsPrefix(s, m);
    AtServed(s, t);
    OwnMove(s, m, t);
    hide Apply, FirstFree;
    if served > 0 {
      if k > 0 { NextVisit(k - 1, served); }
      ModIs(0, 0, 0, served);
    }
  }

  lemma OtherMoveScans(s: Sys, m: Move, t: Thread, k: nat, served: nat)
    requires ScanAt(s, t, k, served) && Settled(m) && !Steps(m, t)
    ensures ScanAt(Apply(s, m), t, k, served)
  {
    SettledKeepsPrefix(s, m);
    OtherMove(s, m, t);
    SettledKeepsTable(s, m, At(s, t));
    forall h | Occupied(Apply(s, m).table, h) ensures Occupied(s.table, h) { SettledKeepsTable(s, m, h); }
    hide Apply, FirstFree;
  }

  lemma NothingEnteredYet(s: Sys, t: Thread)
    requires Placed(s) && At(s, t) == 0 && !Inside(s, t)
    ensures ScanAt(s, t, 0, FirstFree(s.table))
  {
    if FirstFree(s.table) > 0 { ModIs(0, 0, 0, FirstFree(s.table)); }
  }

  /** Round after round through the first `served` slots. */
  predicate InTurn(visits: seq<nat>, served: nat) {
    forall i :: 0 <= i < |visits| ==> served > 0 && visits[i] == i % served
  }

  lemma OneMoreVisit(s: Sys, prior: seq<Move>, m: Move, t: Thread, served: nat)
    requires Settled(m)
    requires ScanAt(Play(s, prior), t, |Entered(s, prior, t)|, served) && InTurn(Entered(s, prior, t), served)
    ensures var moves := prior + [m];
      && ScanAt(Play(s, moves), t, |Entered(s, moves, t)|, served)
      && InTurn(Entered(s, moves, t), served)
  {
    var before, visits := Play(s, prior), Entered(s, prior, t);
    assert Init(prior + [m]) == prior && Last(prior + [m]) == m;
    assert Play(s, prior + [m]) == Apply(before, m);
    assert Entered(s, prior + [m], t) == if Enters(before, m, t) then visits + [At(before, t)] else visits;
    hide Play, Entered;
    MoveScans(before, m, t, visits, served);
  }

  lemma MoveScans(s: Sys, m: Move, t: Thread, visits: seq<nat>, served: nat)
    requires Settled(m) && ScanAt(s, t, |visits|, served) && InTurn(visits, served)
    ensures var visits' := if Enters(s, m, t) then visits + [At(s, t)] else visits;
      ScanAt(Apply(s, m), t, |visits'|, served) && InTurn(visits', served)
  {
    AtServed(s, t);
    assert Enters(s, m, t) ==> served > 0;
    hide Apply, ScanAt, FirstFree;
    if Steps(m, t) {
      OwnMoveScans(s, m, t, |visits|, served);
    } else {
      OtherMoveScans(s, m, t, |visits|, served);
    }
  }

  /** While the table is settled, each of the two threads visits exactly the longest prefix of
      occupied slots, in increasing order, round after round: its i-th visit is to slot i
      modulo the length of that prefix. */
  lemma {:induction false} ScanServesPrefix(s: Sys, moves: seq<Move>, t: Thread)
    requires Placed(s) && At(s, t) == 0 && !Inside(s, t)
    requires forall i :: 0 <= i < |moves| ==> Settled(moves[i])
    ensures var served, visits := FirstFree(s.table), Entered(s, moves, t);
      ScanAt(Play(s, moves), t, |visits|, served) && InTurn(visits, served)
    decreases |moves|
  {
    if moves == [] {
      NothingEnteredYet(s, t);
    } else {
      var prior, m := Init(moves), Last(moves);
      assert forall i :: 0 <= i < |prior| ==> prior[i] == moves[i];
      assert m == moves[|moves| - 1];
      assert prior + [m] == moves;
      hide Play, Entered, ScanAt, InTurn, FirstFree, Settled, Placed, Inside;
      ScanServesPrefix(s, prior, t);
      OneMoreVisit(s, prior, m, t, FirstFree(s.table));
    }
  }
}
