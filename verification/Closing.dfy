/** What a closed handle leaves behind. */
module Closing {
  import opened Base
  import opened Results
  import opened Handoff
  import opened HandoffInvariant
  import opened HandoffTheorems
  import opened CallbackTexts
  import opened Allocations
  import opened Visits
  import opened Plugin

  /** A closed handle is a connected handle at rest whose results were given back. */
  ghost predicate WasAtRest(c: Conn) {
    exists c0 :: Reachable(c0) && BothAway(c0) && c0.connected && c == c0.(slot := Close(c0.slot))
  }

  lemma {:induction false} ClosedAtRest(moves: seq<Move>, k: nat)
    requires k < |Play(START, moves).closed|
    ensures WasAtRest(Play(START, moves).closed[k])
    decreases |moves|
  {
    hide Apply, Reachable;
    if moves == [] {
    } else {
      var before, m := Play(START, Init(moves)), Last(moves);
      MoveCloses(before, m);
      EveryHandleReachable(Init(moves));
      if k < |before.closed| {
        ClosedAtRest(Init(moves), k);
      } else {
        assert BothAway(before.table[m.handle].value);
      }
    }
  }

  predicate LeftBehind(c: Conn, p: nat) {
    || IsText(c.queryQueue, p)
    || (IsVars(c.log.enqueued, p) && p !in Heard(c.log.delivered))
    || IsVars(c.log.atOnce, p)
  }

  /** The strings a closed handle has left allocated are exactly the texts of the queries still
      queued, the callback texts no subscriber has heard, and those of queries run at once. */
  lemma ClosedLeaves(moves: seq<Move>, k: nat, p: nat)
    requires k < |Play(START, moves).closed|
    ensures var c := Play(START, moves).closed[k];
      c.connected && BothAway(c) && (p in c.heap.live <==> LeftBehind(c, p))
  {
    ClosedAtRest(moves, k);
    var c := Play(START, moves).closed[k];
    hide Play;
    var c0 :| Reachable(c0) && BothAway(c0) && c0.connected && c == c0.(slot := Close(c0.slot));
    LiveExactly(c0, p);
    QueueAtRest(c0);
    assert HeardSoFar(c0.tick, c0.log.delivered) == Heard(c0.log.delivered);
    hide Reachable, HeardSoFar, IsText, IsVars, Heard;
  }

  lemma QueueAtRest(c: Conn)
    requires Reachable(c) && BothAway(c)
    ensures 0 <= TextsFreed(c) <= |c.log.enqueued| && c.queryQueue == c.log.enqueued[TextsFreed(c)..]
  {
    ReachableInv(c);
    assert Fifo(c);
    hide Inv, Reachable;
  }

  lemma {:induction false} ClosedStays(s: Sys, more: seq<Move>)
    ensures s.closed <= Play(s, more).closed
    decreases |more|
  {
    hide Apply;
    if more == [] {
    } else {
      ClosedStays(s, Init(more));
      MoveCloses(Play(s, Init(more)), Last(more));
    }
  }

  lemma {:induction false} PlayOn(s: Sys, moves: seq<Move>, more: seq<Move>)
    ensures Play(s, moves + more) == Play(Play(s, moves), more)
    decreases |more|
  {
    hide Apply;
    if more == [] {
      assert moves + more == moves;
    } else {
      assert Init(moves + more) == moves + Init(more);
      PlayOn(s, moves, Init(more));
    }
  }

  /** And they stay allocated for good: in every later state of the plugin the closed handle is
      as it was, and no other handle, open or closed, has ever held one of its strings. */
  lemma ClosedLeavesForGood(moves: seq<Move>, more: seq<Move>, k: nat, p: nat)
    requires k < |Play(START, moves).closed| && p in Play(START, moves).closed[k].heap.live
    ensures var s := Play(START, moves + more);
      && k < |s.closed| && s.closed[k] == Play(START, moves).closed[k]
      && forall x :: HoldsAt(s, x, p) ==> x == Gone(k)
  {
    PlayOn(START, moves, more);
    ClosedStays(Play(START, moves), more);
    HandlesShareNoString(moves + more);
    hide Play;
    assert HoldsAt(Play(START, moves + more), Gone(k), p);
  }
}
