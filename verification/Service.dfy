/** The handle loops serve: whatever is queued on a handle of the occupied prefix is worked off
    in every run of the plugin in which both threads keep stepping, however busy the other
    handles are and however often they come and go. */
module Service {
  import opened Base
  import opened Handoff
  import opened HandoffInvariant
  import opened HandoffTheorems
  import opened Progress
  import opened Visits
  import opened Rounds
  import opened Plugin
  import opened Scan

  // ---- a thread comes round -----------------------------------------------------------------

  /** Steps of a visit, at most, with at most `n` scripts loaded. */
  function VisitLength(t: Thread, n: nat): nat {
    if t.QueryThread? then 11 else 2 * n + 7
  }

  function Left(c: Conn, t: Thread, n: nat): nat {
    if t.QueryThread? then WorkerLeft(c.worker) else TickLeft(c.tick, n)
  }

  /** Steps, at most, until the thread leaves its slot, or starts over; an empty slot may be
      taken before the thread looks at it. */
  function LeftHere(s: Sys, t: Thread, n: nat): nat {
    if Occupied(s.table, At(s, t)) then Left(s.table[At(s, t)].value, t, n) else VisitLength(t, n)
  }

  /** Slots to pass on the way from slot `a` to slot `h`; past the table the thread starts over. */
  function Ahead(a: nat, h: nat): int {
    if a <= h then h - a else MAX_CONNECTIONS + 1 - a + h
  }

  /** Steps of the thread, at most, until it stands at slot `h`. */
  function Distance(s: Sys, t: Thread, h: nat, n: nat): int {
    if At(s, t) == h then 0
    else Span(VisitLength(t, n), Ahead(At(s, t), h) - 1, LeftHere(s, t, n))
  }

  /** So many whole visits, and so many steps. */
  function Span(length: nat, visits: int, steps: nat): int {
    length * visits + steps
  }

  /** The plugin in any of its runs, with at most `n` scripts loaded. */
  ghost predicate Sane(s: Sys, n: nat) {
    && Good(s) && |s.scripts| <= n && s.workerAt <= MAX_CONNECTIONS && s.tickAt <= MAX_CONNECTIONS
    && forall h :: Occupied(s.table, h) ==> FewScripts(s.table[h].value, n)
  }

  lemma StepFew(c: Conn, choice: Choice, n: nat)
    requires Inv(c) && FewScripts(c, n) && (choice.Tick? ==> |choice.scripts| <= n)
    ensures FewScripts(Step(c, choice), n)
  {
    StepKeepsThread(c, choice);
    assert OneSlot(c);
    hide WorkerStep, NativeStep, TickStep, Inv, OneSlot, Work, OnlyLooks;
    if choice.Tick? { TickWork(c, choice.scripts, n); }
  }

  lemma ShareFew(c: Conn, choices: seq<Choice>, n: nat)
    requires Inv(c) && FewScripts(c, n) && |choices| <= 1
    requires forall k :: 0 <= k < |choices| ==> choices[k].Tick? ==> |choices[k].scripts| <= n
    ensures FewScripts(Run(c, choices), n)
  {
    hide Inv, Step, FewScripts;
    if choices == [] {
      assert Run(c, choices) == c;
    } else {
      assert Init(choices) == [] && Run(c, []) == c && Last(choices) == choices[0];
      StepFew(c, choices[0], n);
    }
  }

  lemma NewFew(id: nat, mysql: bool, next: nat, n: nat)
    ensures FewScripts(New(id, mysql, next), n)
  {
  }

  lemma MoveAt(s: Sys, m: Move, t: Thread)
    requires Placed(s) && At(s, t) <= MAX_CONNECTIONS
    ensures At(Apply(s, m), t) <= MAX_CONNECTIONS
  {
    hide Apply;
    if Steps(m, t) { OwnMove(s, m, t); } else { OtherMove(s, m, t); }
  }

  lemma MoveSane(s: Sys, m: Move, n: nat)
    requires Sane(s, n) && |Apply(s, m).scripts| <= n
    ensures Sane(Apply(s, m), n)
  {
    var s' := Apply(s, m);
    MoveGood(s, m);
    MoveAt(s, m, QueryThread);
    MoveAt(s, m, GameThread);
    forall h | Occupied(s'.table, h) ensures FewScripts(s'.table[h].value, n) {
      hide FewScripts, Reachable;
      if Occupied(s.table, h) {
        ReachableInv(s.table[h].value);
        MoveProjects(s, m, h);
        hide Inv, Apply;
        ShareFew(s.table[h].value, Share(s, m, h), n);
      } else {
        AppearsNew(s, m, h);
        NewFew(h, m.ok, s.next, n);
      }
    }
    hide Apply, FewScripts, Good;
  }

  // ---- how far it is --------------------------------------------------------------------------

  lemma LeftBounds(c: Conn, t: Thread, n: nat)
    requires FewScripts(c, n)
    ensures 1 <= Left(c, t, n) <= VisitLength(t, n)
    ensures Away(c, t) ==> Left(c, t, n) == VisitLength(t, n)
  {
  }

  lemma TickLeftFalls(c: Conn, scripts: seq<Script>, n: nat)
    requires Inv(c) && FewScripts(c, n) && |scripts| <= n
    ensures var c' := TickStep(c, scripts); c'.tick.Idle? || TickLeft(c'.tick, n) < TickLeft(c.tick, n)
  {
    TickMay(c);
    hide Inv;
  }

  /** Every step of a visit ends it or brings its end nearer. */
  lemma OwnLeft(c: Conn, t: Thread, ret: int, scripts: seq<Script>, n: nat)
    requires Inv(c) && FewScripts(c, n) && |scripts| <= n
    ensures var c' := if t.QueryThread? then WorkerStep(c, ret) else TickStep(c, scripts);
      Away(c', t) || Left(c', t, n) < Left(c, t, n)
  {
    hide Inv, WorkerStep, TickStep, FewScripts;
    if t.QueryThread? { WorkerTowards(c, ret); } else { TickLeftFalls(c, scripts, n); }
  }

  lemma SpanBounds(length: nat, visits: int, limit: int, steps: nat)
    requires 0 <= visits < limit && steps <= length
    ensures 0 <= Span(length, visits, steps) <= length * limit
  {
    assert length * visits >= 0;
    assert length * (limit - 1 - visits) >= 0;
  }

  lemma Nearer(length: nat, a: int, b: int, left: nat, left': nat)
    requires 0 <= b && left' <= length && left >= 1 && (b < a || (b == a && left' < left))
    ensures Span(length, b, left') < Span(length, a, left)
  {
    if b < a { assert length * (a - 1 - b) >= 0; }
  }

  lemma LeftHereBounds(s: Sys, t: Thread, n: nat)
    requires Sane(s, n)
    ensures 1 <= LeftHere(s, t, n) <= VisitLength(t, n)
  {
    if Occupied(s.table, At(s, t)) { LeftBounds(s.table[At(s, t)].value, t, n); }
  }

  lemma DistanceBounds(s: Sys, t: Thread, h: nat, n: nat)
    requires Sane(s, n) && h < MAX_CONNECTIONS
    ensures 0 <= Distance(s, t, h, n) <= VisitLength(t, n) * MAX_CONNECTIONS
  {
    LeftHereBounds(s, t, n);
    AheadBounds(At(s, t), h);
    hide Sane, LeftHere, VisitLength, Span;
    if At(s, t) != h {
      SpanBounds(VisitLength(t, n), Ahead(At(s, t), h) - 1, MAX_CONNECTIONS, LeftHere(s, t, n));
    } else {
      SpanBounds(VisitLength(t, n), 0, MAX_CONNECTIONS, 0);
    }
  }

  lemma AheadBounds(a: nat, h: nat)
    requires a <= MAX_CONNECTIONS && h < MAX_CONNECTIONS
    ensures a != h ==> 1 <= Ahead(a, h) <= MAX_CONNECTIONS
  {
  }

  /** Steps of the thread while it is not at the served slot `h`: within its slot, the end of
      the visit comes nearer; out of it, the slot does. */
  lemma OwnProgress(s: Sys, m: Move, t: Thread, h: nat, n: nat)
    requires Sane(s, n) && Steps(m, t) && h < FirstFree(s.table) && At(s, t) != h
    ensures var s' := Apply(s, m);
      && At(s', t) <= MAX_CONNECTIONS
      && (At(s', t) == At(s, t) ==> LeftHere(s', t, n) < LeftHere(s, t, n))
      && (At(s', t) != At(s, t) ==> Ahead(At(s', t), h) < Ahead(At(s, t), h))
  {
    var a := At(s, t);
    OwnMove(s, m, t);
    MoveAt(s, m, t);
    if Occupied(s.table, a) {
      var c := s.table[a].value;
      ReachableInv(c);
      OwnLeft(c, t, if m.WorkerMove? then m.ret else 0, s.scripts, n);
      OwnMoveIs(s, m, t);
    }
    hide Apply, Reachable, FewScripts, Left, Inv, WorkerStep, TickStep;
  }

  lemma OwnMoveIs(s: Sys, m: Move, t: Thread)
    requires Steps(m, t) && Occupied(s.table, At(s, t))
    ensures var c := s.table[At(s, t)].value;
      Apply(s, m).table[At(s, t)]
        == Some(if t.QueryThread? then WorkerStep(c, m.ret) else TickStep(c, s.scripts))
  {
    hide WorkerStep, TickStep;
  }

  /** A step of the thread that is not at slot `h` brings it nearer. */
  lemma OwnDistance(s: Sys, m: Move, t: Thread, h: nat, n: nat)
    requires Sane(s, n) && Sane(Apply(s, m), n) && Steps(m, t) && h < FirstFree(s.table) && At(s, t) != h
    ensures Distance(Apply(s, m), t, h, n) < Distance(s, t, h, n)
  {
    var s' := Apply(s, m);
    OwnProgress(s, m, t, h, n);
    LeftHereBounds(s, t, n);
    LeftHereBounds(s', t, n);
    AheadBounds(At(s, t), h);
    AheadBounds(At(s', t), h);
    hide Apply, Sane, LeftHere, VisitLength, At, Steps, Ahead, FirstFree, Span;
    var ahead, ahead' := Ahead(At(s, t), h), Ahead(At(s', t), h);
    if At(s', t) == h {
      SpanIsPositive(VisitLength(t, n), ahead - 1, LeftHere(s, t, n));
    } else {
      Nearer(VisitLength(t, n), ahead - 1, ahead' - 1, LeftHere(s, t, n), LeftHere(s', t, n));
    }
  }

  lemma SpanIsPositive(length: nat, visits: int, steps: nat)
    requires visits >= 0 && steps >= 1
    ensures Span(length, visits, steps) > 0
  {
    assert length * visits >= 0;
  }

  /** No other move costs the thread anything, not even opening or closing the slot it is at. */
  lemma OtherDistance(s: Sys, m: Move, t: Thread, h: nat, n: nat)
    requires Sane(s, n) && Sane(Apply(s, m), n) && !Steps(m, t)
    ensures Distance(Apply(s, m), t, h, n) == Distance(s, t, h, n)
  {
    var s', a := Apply(s, m), At(s, t);
    OtherMove(s, m, t);
    if Occupied(s.table, a) { LeftBounds(s.table[a].value, t, n); }
    if Occupied(s'.table, a) { LeftBounds(s'.table[a].value, t, n); }
    hide Apply, Good, FewScripts, Span, VisitLength, Ahead;
  }

  // ---- how often it comes ---------------------------------------------------------------------

  function OwnSteps(moves: seq<Move>, t: Thread): nat {
    if moves == [] then 0 else OwnSteps(Init(moves), t) + (if Steps(Last(moves), t) then 1 else 0)
  }

  /** Those the thread takes at slot `h`. */
  function StepsAt(s: Sys, moves: seq<Move>, t: Thread, h: nat): nat {
    if moves == [] then 0
    else StepsAt(s, Init(moves), t, h)
         + (if Steps(Last(moves), t) && At(Play(s, Init(moves)), t) == h then 1 else 0)
  }

  /** Moves that close neither `h` nor a lower handle, with never more than `n` scripts loaded. */
  predicate KeptRun(s: Sys, moves: seq<Move>, h: nat, n: nat) {
    if moves == [] then true
    else KeptRun(s, Init(moves), h, n) && !Closes(Last(moves), h) && |Play(s, moves).scripts| <= n
  }

  lemma {:induction false} KeptStays(s: Sys, moves: seq<Move>, h: nat, n: nat)
    requires Sane(s, n) && KeptRun(s, moves, h, n) && h < FirstFree(s.table)
    ensures Sane(Play(s, moves), n) && h < FirstFree(Play(s, moves).table)
    decreases |moves|
  {
    hide Sane, Apply, FirstFree, Closes;
    if moves == [] {
    } else {
      KeptStays(s, Init(moves), h, n);
      MoveSane(Play(s, Init(moves)), Last(moves), n);
      MoveKeepsServed(Play(s, Init(moves)), Last(moves), h);
    }
  }

  /** Steps that bring a thread from a slot back to it, at most. */
  function Lap(t: Thread, n: nat): nat {
    VisitLength(t, n) * MAX_CONNECTIONS + 1
  }

  /** One move: a step of the thread elsewhere brings it nearer, a step at the slot costs it
      at most a lap. */
  lemma MoveDistance(s: Sys, m: Move, t: Thread, h: nat, n: nat)
    requires Sane(s, n) && Sane(Apply(s, m), n) && h < FirstFree(s.table)
    ensures Distance(Apply(s, m), t, h, n) + (if Steps(m, t) then 1 else 0)
      <= Distance(s, t, h, n) + (if Steps(m, t) && At(s, t) == h then Lap(t, n) else 0)
  {
    hide Apply, FirstFree, VisitLength;
    DistanceBounds(s, t, h, n);
    DistanceBounds(Apply(s, m), t, h, n);
    if !Steps(m, t) {
      OtherDistance(s, m, t, h, n);
    } else if At(s, t) != h {
      OwnDistance(s, m, t, h, n);
    }
    hide Sane, Distance;
  }

  lemma CountsUnfold(s: Sys, moves: seq<Move>, t: Thread, h: nat)
    requires moves != []
    ensures OwnSteps(moves, t) == OwnSteps(Init(moves), t) + (if Steps(Last(moves), t) then 1 else 0)
    ensures StepsAt(s, moves, t, h) == StepsAt(s, Init(moves), t, h)
      + (if Steps(Last(moves), t) && At(Play(s, Init(moves)), t) == h then 1 else 0)
  {
  }

  predicate WithinLaps(s: Sys, moves: seq<Move>, t: Thread, h: nat, n: nat) {
    OwnSteps(moves, t) + Distance(Play(s, moves), t, h, n)
      <= Distance(s, t, h, n) + Lap(t, n) * StepsAt(s, moves, t, h)
  }

  lemma AddUp(own: nat, own': nat, start: int, d: int, d': int, lap: nat, count: nat, count': nat)
    requires own + d <= start + lap * count && count <= count' <= count + 1
    requires own' + d' <= own + d + (if count' == count then 0 else lap)
    ensures own' + d' <= start + lap * count'
  {
    if count' == count + 1 { assert lap * (count + 1) == lap * count + lap; }
  }

  lemma OneMoreMove(s: Sys, moves: seq<Move>, t: Thread, h: nat, n: nat)
    requires moves != [] && WithinLaps(s, Init(moves), t, h, n)
    requires Sane(Play(s, Init(moves)), n) && Sane(Play(s, moves), n)
    requires h < FirstFree(Play(s, Init(moves)).table)
    ensures WithinLaps(s, moves, t, h, n)
  {
    var before, m := Play(s, Init(moves)), Last(moves);
    assert Play(s, moves) == Apply(before, m);
    hide Sane, Apply, Play, FirstFree, Distance, Lap, Steps, At, OwnSteps, StepsAt;
    MoveDistance(before, m, t, h, n);
    CountsUnfold(s, moves, t, h);
    AddUp(OwnSteps(Init(moves), t), OwnSteps(moves, t),
          Distance(s, t, h, n), Distance(before, t, h, n), Distance(Play(s, moves), t, h, n),
          Lap(t, n), StepsAt(s, Init(moves), t, h), StepsAt(s, moves, t, h));
  }

  lemma {:induction false} ComesRound(s: Sys, moves: seq<Move>, t: Thread, h: nat, n: nat)
    requires Sane(s, n) && KeptRun(s, moves, h, n) && h < FirstFree(s.table)
    ensures Sane(Play(s, moves), n) && WithinLaps(s, moves, t, h, n)
    decreases |moves|
  {
    KeptStays(s, moves, h, n);
    if moves == [] {
    } else {
      KeptStays(s, Init(moves), h, n);
      hide Sane, Apply, FirstFree, WithinLaps, Closes;
      ComesRound(s, Init(moves), t, h, n);
      OneMoreMove(s, moves, t, h, n);
    }
  }

  lemma ThreeTimes(lap: nat, k: nat)
    requires 3 * lap <= lap - 1 + lap * k
    ensures k >= 3
  {
    AtMostTwice(lap, k);
  }

  lemma AtMostTwice(lap: nat, k: nat)
    ensures k <= 2 ==> lap * k <= lap * 2
  {
    if k <= 2 { assert lap * (2 - k) >= 0; }
  }

  /** Among three laps' worth of steps a thread takes at least three at every served slot. */
  lemma ThreeStepsEach(s: Sys, moves: seq<Move>, t: Thread, h: nat, n: nat)
    requires Sane(s, n) && KeptRun(s, moves, h, n) && h < FirstFree(s.table)
    requires OwnSteps(moves, t) >= 3 * Lap(t, n)
    ensures StepsAt(s, moves, t, h) >= 3
  {
    ComesRound(s, moves, t, h, n);
    DistanceBounds(s, t, h, n);
    DistanceBounds(Play(s, moves), t, h, n);
    hide Sane, KeptRun, Distance, VisitLength, FirstFree;
    ThreeTimes(Lap(t, n), StepsAt(s, moves, t, h));
  }

  // ---- the handle's own schedule ---------------------------------------------------------------

  /** What a run of the plugin means for the handle at slot `h`. */
  function ShareOf(s: Sys, moves: seq<Move>, h: nat): seq<Choice> {
    if moves == [] then [] else ShareOf(s, Init(moves), h) + Share(Play(s, Init(moves)), Last(moves), h)
  }

  lemma CountsAdd(a: seq<Choice>, b: seq<Choice>)
    requires |b| <= 1
    ensures WorkerSteps(a + b) == WorkerSteps(a) + (if b != [] && b[0].Worker? then 1 else 0)
    ensures TickSteps(a + b) == TickSteps(a) + (if b != [] && b[0].Tick? then 1 else 0)
  {
    if b == [] {
      assert a + b == a;
    } else {
      assert Init(a + b) == a && Last(a + b) == b[0];
    }
  }

  lemma ShareCounts(s: Sys, m: Move, h: nat, n: nat)
    requires |s.scripts| <= n
    ensures var b := Share(s, m, h);
      && |b| <= 1
      && ((b != [] && b[0].Worker?) <==> Steps(m, QueryThread) && At(s, QueryThread) == h)
      && ((b != [] && b[0].Tick?) <==> Steps(m, GameThread) && At(s, GameThread) == h)
      && (b != [] ==> FewLoadedAt(b[0], n))
  {
  }

  predicate AllFew(choices: seq<Choice>, n: nat) {
    forall k :: 0 <= k < |choices| ==> FewLoadedAt(choices[k], n)
  }

  lemma FewAdd(a: seq<Choice>, b: seq<Choice>, n: nat)
    requires AllFew(a, n) && |b| <= 1 && (b != [] ==> FewLoadedAt(b[0], n))
    ensures AllFew(a + b, n)
  {
    hide FewLoadedAt;
  }

  predicate Counted(s: Sys, moves: seq<Move>, h: nat, n: nat, choices: seq<Choice>) {
    && WorkerSteps(choices) == StepsAt(s, moves, QueryThread, h)
    && TickSteps(choices) == StepsAt(s, moves, GameThread, h)
    && AllFew(choices, n)
  }

  lemma CountNext(s: Sys, moves: seq<Move>, h: nat, n: nat, choices: seq<Choice>)
    requires moves != [] && Counted(s, Init(moves), h, n, choices)
    requires |Play(s, Init(moves)).scripts| <= n
    ensures Counted(s, moves, h, n, choices + Share(Play(s, Init(moves)), Last(moves), h))
  {
    var before, m := Play(s, Init(moves)), Last(moves);
    var b := Share(before, m, h);
    hide Share, FewLoadedAt, AllFew, Steps, At, Play, WorkerSteps, TickSteps, OwnSteps, StepsAt;
    ShareCounts(before, m, h, n);
    CountsAdd(choices, b);
    FewAdd(choices, b, n);
    CountsUnfold(s, moves, QueryThread, h);
    CountsUnfold(s, moves, GameThread, h);
  }

  lemma {:induction false} ShareOfCounts(s: Sys, moves: seq<Move>, h: nat, n: nat)
    requires Sane(s, n) && KeptRun(s, moves, h, n) && h < FirstFree(s.table)
    ensures Counted(s, moves, h, n, ShareOf(s, moves, h))
    decreases |moves|
  {
    if moves == [] {
    } else {
      hide Sane, Counted, Apply, Share, FewLoadedAt, Steps, Closes, At, FirstFree;
      KeptStays(s, Init(moves), h, n);
      SaneScripts(Play(s, Init(moves)), n);
      ShareOfCounts(s, Init(moves), h, n);
      CountNext(s, moves, h, n, ShareOf(s, Init(moves), h));
    }
  }

  lemma {:induction false} ShareOfRuns(s: Sys, moves: seq<Move>, h: nat, n: nat)
    requires Sane(s, n) && KeptRun(s, moves, h, n) && h < FirstFree(s.table)
    ensures var s' := Play(s, moves);
      Occupied(s'.table, h) && s'.table[h].value == Run(s.table[h].value, ShareOf(s, moves, h))
    decreases |moves|
  {
    KeptStays(s, moves, h, n);
    ServedIsOccupied(Play(s, moves), h);
    hide Apply, Step, Share, Sane, FirstFree, Closes;
    if moves == [] {
      assert Run(s.table[h].value, []) == s.table[h].value;
    } else {
      var before, m := Play(s, Init(moves)), Last(moves);
      ShareOfRuns(s, Init(moves), h, n);
      MoveProjects(before, m, h);
      RunConcat(s.table[h].value, ShareOf(s, Init(moves), h), Share(before, m, h));
      hide Run;
    }
  }

  lemma ServedIsOccupied(s: Sys, h: nat)
    requires h < FirstFree(s.table)
    ensures Occupied(s.table, h)
  {
  }

  /** Nothing is enqueued on the handle at slot `h`. */
  predicate NothingAsked(moves: seq<Move>, h: nat) {
    forall i :: 0 <= i < |moves| ==> moves[i].ScriptCall? && moves[i].handle == h ==> !Enqueues(moves[i].n)
  }

  predicate NoneEnqueues(choices: seq<Choice>) {
    forall k :: 0 <= k < |choices| ==> choices[k].Native? ==> !Enqueues(choices[k].n)
  }

  lemma {:induction false} ShareOfIsQuiet(s: Sys, moves: seq<Move>, h: nat)
    requires NothingAsked(moves, h)
    ensures NoneEnqueues(ShareOf(s, moves, h))
    decreases |moves|
  {
    hide Enqueues, Play;
    if moves == [] {
    } else {
      assert Last(moves) == moves[|moves| - 1];
      ShareOfIsQuiet(s, Init(moves), h);
    }
  }

  lemma SaneScripts(s: Sys, n: nat)
    requires Sane(s, n)
    ensures |s.scripts| <= n
  {
  }

  // ---- every served handle is worked off --------------------------------------------------------

  /** A stretch of a run in which `h` keeps being served and each thread takes three laps'
      worth of steps.  Other handles may be opened, closed above `h`, and queried without end. */
  predicate Stretch(s: Sys, moves: seq<Move>, h: nat, n: nat) {
    KeptRun(s, moves, h, n)
    && OwnSteps(moves, QueryThread) >= 3 * Lap(QueryThread, n)
    && OwnSteps(moves, GameThread) >= 3 * Lap(GameThread, n)
  }

  predicate Stretches(s: Sys, parts: seq<seq<Move>>, h: nat, n: nat)
    decreases |parts|
  {
    parts == [] || (Stretch(s, parts[0], h, n) && Stretches(Play(s, parts[0]), parts[1..], h, n))
  }

  function Flatten(parts: seq<seq<Move>>): seq<Move> {
    if parts == [] then [] else parts[0] + Flatten(parts[1..])
  }

  lemma {:induction false} PlayConcat(s: Sys, a: seq<Move>, b: seq<Move>)
    ensures Play(s, a + b) == Play(Play(s, a), b)
    decreases |b|
  {
    hide Apply;
    if b == [] {
      assert a + b == a;
    } else {
      assert Init(a + b) == a + Init(b);
      PlayConcat(s, a, Init(b));
    }
  }

  /** To the handle at slot `h` a stretch is a fair round. */
  lemma StretchIsRound(s: Sys, moves: seq<Move>, h: nat, n: nat)
    requires Sane(s, n) && Stretch(s, moves, h, n) && h < FirstFree(s.table)
    ensures var s', round := Play(s, moves), ShareOf(s, moves, h);
      && Sane(s', n) && h < FirstFree(s'.table)
      && FairRound(round, n) && s'.table[h].value == Run(s.table[h].value, round)
      && (NothingAsked(moves, h) ==> Round(round, n))
  {
    KeptStays(s, moves, h, n);
    ShareOfRuns(s, moves, h, n);
    ShareOfCounts(s, moves, h, n);
    ThreeStepsEach(s, moves, QueryThread, h, n);
    ThreeStepsEach(s, moves, GameThread, h, n);
    if NothingAsked(moves, h) { ShareOfIsQuiet(s, moves, h); }
    hide Sane, Stretch, Run, NothingAsked, FirstFree;
  }

  lemma SaneHandle(s: Sys, h: nat, n: nat)
    requires Sane(s, n) && Occupied(s.table, h)
    ensures Inv(s.table[h].value) && FewScripts(s.table[h].value, n)
  {
    hide FewScripts, Inv;
    ReachableInv(s.table[h].value);
  }

  /** While nothing is enqueued on a served handle: after as many stretches as it has work, the
      handle is worked off, whatever the order of the steps of the two threads and of the script
      calls, however busy the other handles are and however often they come and go. */
  lemma {:induction false} ServedHandleDrains(s: Sys, parts: seq<seq<Move>>, h: nat, n: nat)
    requires Sane(s, n) && Stretches(s, parts, h, n) && h < FirstFree(s.table)
    requires forall i :: 0 <= i < |parts| ==> NothingAsked(parts[i], h)
    requires |parts| >= Work(s.table[h].value, n)
    ensures var s' := Play(s, Flatten(parts));
      h < FirstFree(s'.table) && Quiescent(s'.table[h].value)
    decreases |parts|
  {
    hide Apply, Sane, Work, Stretch, Quiescent, FewScripts, Inv, NothingAsked, Round, FairRound;
    SaneHandle(s, h, n);
    WorkBounds(s.table[h].value, n);
    if parts == [] {
    } else {
      StretchIsRound(s, parts[0], h, n);
      RoundWorks(s.table[h].value, ShareOf(s, parts[0], h), n);
      PlayConcat(s, parts[0], Flatten(parts[1..]));
      ServedHandleDrains(Play(s, parts[0]), parts[1..], h, n);
    }
  }

  /** Bounded waiting on a served handle.  Scripts and callbacks may keep queuing, on this
      handle as on the others: the first `k` queries of the handle are executed and handed
      over after as many stretches as there is work due to them. */
  lemma {:induction false} ServedHandleServes(s: Sys, parts: seq<seq<Move>>, h: nat, n: nat, k: nat)
    requires Sane(s, n) && Stretches(s, parts, h, n) && h < FirstFree(s.table)
    requires k <= |s.table[h].value.log.enqueued| && |parts| >= Due(s.table[h].value, n, k)
    ensures var s' := Play(s, Flatten(parts));
      h < FirstFree(s'.table) && Served(s'.table[h].value, k)
    decreases |parts|
  {
    hide Apply, Sane, Due, Stretch, Served, FewScripts, Inv, FairRound;
    SaneHandle(s, h, n);
    var c := s.table[h].value;
    if parts == [] {
      if !Served(c, k) { DueFloor(c, n, k); }
    } else {
      var round := ShareOf(s, parts[0], h);
      StretchIsRound(s, parts[0], h, n);
      PlayConcat(s, parts[0], Flatten(parts[1..]));
      EnqueuedGrows(c, round);
      RoundServes(c, round, n, k);
      if Served(c, k) {
        StaysServed(s, parts, h, n, k);
      } else {
        ServedHandleServes(Play(s, parts[0]), parts[1..], h, n, k);
      }
    }
  }

  lemma {:induction false} StaysServed(s: Sys, parts: seq<seq<Move>>, h: nat, n: nat, k: nat)
    requires Sane(s, n) && Stretches(s, parts, h, n) && h < FirstFree(s.table)
    requires Served(s.table[h].value, k)
    ensures var s' := Play(s, Flatten(parts));
      h < FirstFree(s'.table) && Served(s'.table[h].value, k)
    decreases |parts|
  {
    hide Apply, Sane, Stretch, Served, FairRound;
    if parts == [] {
    } else {
      StretchIsRound(s, parts[0], h, n);
      PlayConcat(s, parts[0], Flatten(parts[1..]));
      RunServed(s.table[h].value, ShareOf(s, parts[0], h), k);
      StaysServed(Play(s, parts[0]), parts[1..], h, n, k);
    }
  }

  /** Never more than `n` scripts loaded. */
  predicate FewLoaded(s: Sys, moves: seq<Move>, n: nat) {
    if moves == [] then |s.scripts| <= n
    else FewLoaded(s, Init(moves), n) && |Play(s, moves).scripts| <= n
  }

  /** That is the only assumption on the state in which the draining begins. */
  lemma {:induction false} RunsAreSane(moves: seq<Move>, n: nat)
    requires FewLoaded(START, moves, n)
    ensures Sane(Play(START, moves), n)
    decreases |moves|
  {
    hide Apply;
    if moves == [] {
    } else {
      hide Sane;
      RunsAreSane(Init(moves), n);
      MoveSane(Play(START, Init(moves)), Last(moves), n);
    }
  }

  // ---- stretches exist --------------------------------------------------------------------------

  /** Both threads step in turn, `k` times each. */
  function InTurns(k: nat): (r: seq<Move>)
    ensures |r| == 2 * k
  {
    if k == 0 then [] else InTurns(k - 1) + [WorkerMove(0)] + [TickMove]
  }

  /** Moves that keep `h`, with that many steps of each thread. */
  predicate Stepped(s: Sys, moves: seq<Move>, h: nat, n: nat, query: nat, game: nat) {
    && KeptRun(s, moves, h, n) && |Play(s, moves).scripts| <= n
    && OwnSteps(moves, QueryThread) == query && OwnSteps(moves, GameThread) == game
  }

  lemma StepKeepsScripts(s: Sys, m: Move)
    requires m.WorkerMove? || m.TickMove?
    ensures Apply(s, m).scripts == s.scripts
  {
    hide WorkerStep, TickStep, NativeStep, EraseFirst;
  }

  lemma StepOnce(s: Sys, moves: seq<Move>, m: Move, h: nat, n: nat, query: nat, game: nat)
    requires Stepped(s, moves, h, n, query, game) && (m.WorkerMove? || m.TickMove?)
    ensures Stepped(s, moves + [m], h, n, if m.WorkerMove? then query + 1 else query, if m.TickMove? then game + 1 else game)
  {
    assert Init(moves + [m]) == moves && Last(moves + [m]) == m;
    StepKeepsScripts(Play(s, moves), m);
    hide Apply;
  }

  lemma {:induction false} InTurnsSteps(s: Sys, k: nat, h: nat, n: nat)
    requires |s.scripts| <= n
    ensures Stepped(s, InTurns(k), h, n, k, k)
    decreases k
  {
    if k == 0 {
    } else {
      assert InTurns(k) == InTurns(k - 1) + [WorkerMove(0)] + [TickMove];
      hide Stepped, InTurns;
      InTurnsSteps(s, k - 1, h, n);
      StepOnce(s, InTurns(k - 1), WorkerMove(0), h, n, k - 1, k - 1);
      StepOnce(s, InTurns(k - 1) + [WorkerMove(0)], TickMove, h, n, k, k - 1);
    }
  }

  /** Every run can be continued by a stretch of at most 48 n + 444 moves, even one in which
      nothing is asked. */
  lemma StretchExists(s: Sys, h: nat, n: nat)
    requires Sane(s, n)
    ensures exists moves :: Stretch(s, moves, h, n) && NothingAsked(moves, h) && |moves| <= 48 * n + 444
  {
    var k := 3 * Lap(QueryThread, n) + 3 * Lap(GameThread, n);
    SaneScripts(s, n);
    InTurnsSteps(s, k, h, n);
    StepsAskNothing(k, h);
    assert k == 24 * n + 222;
    hide Sane, Lap, KeptRun, OwnSteps, InTurns;
    assert Stretch(s, InTurns(k), h, n);
  }

  lemma {:induction false} StepsAskNothing(k: nat, h: nat)
    ensures NothingAsked(InTurns(k), h)
    decreases k
  {
    if k == 0 {
    } else {
      StepsAskNothing(k - 1, h);
    }
  }
}
