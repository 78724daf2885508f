/** The whole plugin: the table of handles (MySQL/Natives.cpp), the two threads walking it
    (MySQL/Thread.cpp), the list of loaded scripts (MySQL/Main.cpp). */
module Plugin {
  import opened Base
  import opened Results
  import opened ResultLaws
  import opened Handoff
  import opened HandoffInvariant
  import opened HandoffTheorems
  import opened Visits

  /** `workerAt` and `tickAt` are the loop variables of the two handle loops; where within the
      loop body a thread stands is in the connection it is at.  `next` is the allocator. */
  datatype Sys = Sys(
    table: seq<Option<Conn>>, workerAt: nat, tickAt: nat,
    scripts: seq<Script>, next: nat, closed: seq<Conn>)

  const START: Sys := Sys([None, None, None, None], 0, 0, [], 0, [])

  datatype Move =
    | WorkerMove(ret: int)
    | TickMove
    | ScriptCall(handle: nat, n: NativeCall)
    | InitHandle(ok: bool)
    | CloseHandle(handle: nat)
    | LoadScript(a: Script)
    | UnloadScript(amx: nat)

  predicate Occupied(table: seq<Option<Conn>>, h: int) {
    0 <= h < |table| && table[h].Some?
  }

  /** The first free slot, or the size of the table. */
  function FirstFree(table: seq<Option<Conn>>): (h: nat)
    ensures h <= |table| && (h < |table| ==> table[h].None?)
    ensures forall i :: 0 <= i < h ==> table[i].Some?
  {
    if table == [] || table[0].None? then 0 else 1 + FirstFree(table[1..])
  }

  /** Erase the first script with this identity. */
  function EraseFirst(scripts: seq<Script>, amx: nat): seq<Script> {
    if scripts == [] then []
    else if scripts[0].amx == amx then scripts[1..]
    else [scripts[0]] + EraseFirst(scripts[1..], amx)
  }

  /** A thread at a slot that is empty, or past the table, starts over; the end of a visit
      takes it to the next slot. */
  function WorkerMoves(s: Sys, ret: int): Sys {
    if !Occupied(s.table, s.workerAt) then s.(workerAt := 0)
    else
      var c := WorkerStep(s.table[s.workerAt].value, ret);
      s.(table := s.table[s.workerAt := Some(c)],
         workerAt := if c.worker.Resting? then s.workerAt + 1 else s.workerAt)
  }

  function TickMoves(s: Sys): Sys {
    if !Occupied(s.table, s.tickAt) then s.(tickAt := 0)
    else
      var c := TickStep(s.table[s.tickAt].value, s.scripts);
      s.(table := s.table[s.tickAt := Some(c)],
         tickAt := if c.tick.Idle? then s.tickAt + 1 else s.tickAt)
  }

  /** mysql_init: the first free slot, if there is one. */
  function Initialise(s: Sys, ok: bool): Sys {
    var h := FirstFree(s.table);
    if h == |s.table| then s
    else s.(table := s.table[h := Some(New(h, ok, s.next))])
  }

  /** mysql_close, where neither thread is within the handle. */
  function CloseAt(s: Sys, h: nat): Sys {
    if !Occupied(s.table, h) then s
    else
      var c := s.table[h].value;
      if !c.connected || !c.worker.Resting? || !c.tick.Idle? then s
      else s.(table := s.table[h := None], closed := s.closed + [c.(slot := Close(c.slot))])
  }

  predicate Dispatches(s: Sys) {
    Occupied(s.table, s.tickAt) && Dispatching(s.table[s.tickAt].value.tick)
  }

  function Apply(s: Sys, m: Move): Sys {
    match m
    case WorkerMove(ret) => WorkerMoves(s, ret)
    case TickMove => TickMoves(s)
    case ScriptCall(h, n) =>
      if !Occupied(s.table, h) then s
      else s.(table := s.table[h := Some(NativeStep(s.table[h].value, n, s.next))], next := s.next + 2)
    case InitHandle(ok) => Initialise(s, ok)
    case CloseHandle(h) => CloseAt(s, h)
    case LoadScript(a) => if Dispatches(s) then s else s.(scripts := s.scripts + [a])
    case UnloadScript(amx) => if Dispatches(s) then s else s.(scripts := EraseFirst(s.scripts, amx))
  }

  function Play(s: Sys, moves: seq<Move>): Sys
  {
    if moves == [] then s else Apply(Play(s, Init(moves)), Last(moves))
  }

  // ---- every handle is a handle by itself ------------------------------------------------------

  /** What a move means for the handle at slot h. */
  function Share(s: Sys, m: Move, h: nat): seq<Choice> {
    match m
    case WorkerMove(ret) => if s.workerAt == h then [Worker(ret)] else []
    case TickMove => if s.tickAt == h then [Tick(s.scripts)] else []
    case ScriptCall(g, n) => if g == h then [Native(n, s.next)] else []
    case _ => []
  }

  /** One move does to each handle that stays what the handle's own machine does. */
  lemma MoveProjects(s: Sys, m: Move, h: nat)
    requires Occupied(s.table, h) && Occupied(Apply(s, m).table, h)
    ensures Apply(s, m).table[h].value == Run(s.table[h].value, Share(s, m, h))
  {
    hide WorkerStep, TickStep, NativeStep, EraseFirst;
    var c := s.table[h].value;
    assert Run(c, []) == c;
    if Share(s, m, h) != [] {
      assert Init(Share(s, m, h)) == [];
    }
  }

  ghost predicate Placed(s: Sys) {
    && |s.table| == MAX_CONNECTIONS
    && forall h :: Occupied(s.table, h) ==>
         var c := s.table[h].value;
         && c.id == h && c.heap.next <= s.next
         && (h != s.workerAt ==> c.worker.Resting?)
         && (h != s.tickAt ==> c.tick.Idle?)
  }

  ghost predicate Good(s: Sys) {
    Placed(s) && forall h :: Occupied(s.table, h) ==> Reachable(s.table[h].value)
  }

  lemma ReachableStep(c: Conn, choices: seq<Choice>)
    requires Reachable(c) && |choices| <= 1
    ensures Reachable(Run(c, choices))
  {
    hide Step, New;
    var id, mysql, next, schedule :| c == Run(New(id, mysql, next), schedule);
    if choices != [] {
      assert Init(schedule + choices) == schedule && Last(schedule + choices) == choices[0];
      assert Init(choices) == [] && Run(c, []) == c;
      assert Run(c, choices) == Run(New(id, mysql, next), schedule + choices);
    } else {
      assert Run(c, choices) == c;
    }
  }

  lemma NewReachable(id: nat, mysql: bool, next: nat)
    ensures Reachable(New(id, mysql, next))
  {
    hide New;
    assert New(id, mysql, next) == Run(New(id, mysql, next), []);
  }

  lemma NativeNext(c: Conn, n: NativeCall, address: nat)
    requires c.heap.next <= address
    ensures NativeStep(c, n, address).heap.next <= address + 2
  {
    hide GetString, Release, StoreResult, Cursor, FreeResult, QueryNow;
  }

  /** What stays as it was when one choice is taken. */
  lemma StepNext(c: Conn, choice: Choice)
    ensures Step(c, choice).id == c.id
    ensures !choice.Native? ==> Step(c, choice).heap.next == c.heap.next
    ensures choice.Native? && c.heap.next <= choice.address ==> Step(c, choice).heap.next <= choice.address + 2
    ensures !choice.Worker? ==> Step(c, choice).worker == c.worker
    ensures !choice.Tick? ==> Step(c, choice).tick == c.tick
  {
    StepKeepsThread(c, choice);
    hide WorkerStep, TickStep, NativeStep;
    match choice
    case Worker(ret) => WorkerFrame(c, ret);
    case Tick(scripts) => TickFrame(c, scripts);
    case Native(n, address) => if c.heap.next <= address { NativeNext(c, n, address); }
  }

  lemma MovePlaced(s: Sys, m: Move)
    requires Placed(s)
    ensures Placed(Apply(s, m))
  {
    hide WorkerStep, TickStep, NativeStep, EraseFirst;
    if m.WorkerMove? && Occupied(s.table, s.workerAt) {
      StepNext(s.table[s.workerAt].value, Worker(m.ret));
    } else if m.TickMove? && Occupied(s.table, s.tickAt) {
      StepNext(s.table[s.tickAt].value, Tick(s.scripts));
    } else if m.ScriptCall? && Occupied(s.table, m.handle) {
      StepNext(s.table[m.handle].value, Native(m.n, s.next));
    }
  }

  lemma MoveGood(s: Sys, m: Move)
    requires Good(s)
    ensures Good(Apply(s, m))
  {
    MovePlaced(s, m);
    var s' := Apply(s, m);
    forall h | Occupied(s'.table, h) ensures Reachable(s'.table[h].value) {
      if Occupied(s.table, h) {
        MoveProjects(s, m, h);
        ReachableStep(s.table[h].value, Share(s, m, h));
      } else {
        AppearsNew(s, m, h);
        NewReachable(h, m.ok, s.next);
      }
    }
  }

  lemma AppearsNew(s: Sys, m: Move, h: nat)
    requires !Occupied(s.table, h) && Occupied(Apply(s, m).table, h)
    ensures m.InitHandle? && Apply(s, m).table[h].value == New(h, m.ok, s.next)
  {
    hide WorkerStep, TickStep, NativeStep, EraseFirst, New;
  }

  /** In every run of the plugin every handle is where its own machine can be, at the slot of
      its id, with at most one slot being worked on by each thread: so all that holds of one
      handle in every interleaving holds of every handle of the plugin. */
  lemma {:induction false} EveryHandleReachable(moves: seq<Move>)
    ensures Good(Play(START, moves))
    decreases |moves|
  {
    hide Apply;
    if moves == [] {
    } else {
      EveryHandleReachable(Init(moves));
      MoveGood(Play(START, Init(moves)), Last(moves));
    }
  }

  // ---- strings of different handles ------------------------------------------------------------

  /** Every string this handle has ever allocated. */
  predicate Holds(c: Conn, p: int) {
    p in c.heap.live || p in c.heap.freed
  }

  /** Where a handle is to be found: in its slot, or, closed, among those that are gone. */
  datatype Place = Open(h: nat) | Gone(k: nat)

  predicate Known(s: Sys, x: Place) {
    match x
    case Open(h) => Occupied(s.table, h)
    case Gone(k) => k < |s.closed|
  }

  function ConnAt(s: Sys, x: Place): Conn
    requires Known(s, x)
  {
    match x
    case Open(h) => s.table[h].value
    case Gone(k) => s.closed[k]
  }

  predicate HoldsAt(s: Sys, x: Place, p: int) {
    Known(s, x) && Holds(ConnAt(s, x), p)
  }

  /** No string belongs to two handles, open or closed. */
  ghost predicate Apart(s: Sys) {
    forall x, y, p :: HoldsAt(s, x, p) && HoldsAt(s, y, p) ==> x == y
  }

  ghost predicate GoneBelow(s: Sys) {
    forall k, p :: HoldsAt(s, Gone(k), p) ==> p < s.next
  }

  lemma WorkerAllocatesNothing(c: Conn, ret: int, p: int)
    requires c.worker.Executing? || c.worker.Freeing? ==> c.worker.q.text.ptr in c.heap.live
    ensures Holds(WorkerStep(c, ret), p) ==> Holds(c, p)
  {
  }

  lemma TickAllocatesNothing(c: Conn, scripts: seq<Script>, p: int)
    requires (c.tick.Calling? || c.tick.Within?) && c.tick.vars.Some? ==> c.tick.vars.value.ptr in c.heap.live
    ensures Holds(TickStep(c, scripts), p) ==> Holds(c, p)
  {
    hide Subscribes, CallOf;
  }

  lemma ThreadsAllocateNothing(c: Conn, choice: Choice, p: int)
    requires Inv(c) && !choice.Native?
    ensures Holds(Step(c, choice), p) ==> Holds(c, p)
  {
    hide Inv, WorkerStep, TickStep, Holds;
    WorkerMay(c);
    TickMay(c);
    match choice
    case Worker(ret) => WorkerAllocatesNothing(c, ret, p);
    case Tick(scripts) => TickAllocatesNothing(c, scripts, p);
  }

  lemma NativesAllocateNew(c: Conn, n: NativeCall, address: nat, p: int)
    requires c.heap.next <= address
    ensures Holds(NativeStep(c, n, address), p) ==> Holds(c, p) || address <= p < address + 2
  {
    hide GetString, Release, StoreResult, Cursor, FreeResult, QueryNow;
  }

  lemma HeldBelow(c: Conn, p: int)
    requires Inv(c) && Holds(c, p)
    ensures p < c.heap.next
  {
    hide Fifo, OneSlot, Judged, Called, Stated, Ordered, TextsOwned, VarsOwned;
  }

  /** What slot h holds after a move, it held before, or it was allocated by the move. */
  lemma MoveHolds(s: Sys, m: Move, s': Sys, h: nat, p: int)
    requires Good(s) && s' == Apply(s, m) && Occupied(s'.table, h) && Holds(s'.table[h].value, p)
    ensures (Occupied(s.table, h) && Holds(s.table[h].value, p)) || (p >= s.next && m.ScriptCall? && m.handle == h)
  {
    hide Inv, Apply, Step, Reachable;
    if !Occupied(s.table, h) {
      AppearsNew(s, m, h);
    } else {
      var c := s.table[h].value;
      ReachableInv(c);
      MoveProjects(s, m, h);
      var share := Share(s, m, h);
      assert Run(c, []) == c;
      if share != [] {
        assert Init(share) == [];
        ShareHolds(c, share[0], s.next, p);
      }
    }
  }

  lemma ShareHolds(c: Conn, choice: Choice, next: nat, p: int)
    requires Inv(c) && c.heap.next <= next && (choice.Native? ==> choice.address == next)
    requires Holds(Step(c, choice), p)
    ensures Holds(c, p) || (p >= next && choice.Native?)
  {
    hide Inv, WorkerStep, TickStep, NativeStep;
    if choice.Native? { NativesAllocateNew(c, choice.n, next, p); }
    else { ThreadsAllocateNothing(c, choice, p); }
  }

  lemma HeldBelowNext(s: Sys, x: Place, p: int)
    requires Good(s) && GoneBelow(s) && HoldsAt(s, x, p)
    ensures p < s.next
  {
    hide Inv, Reachable;
    match x
    case Open(h) =>
      ReachableInv(s.table[h].value);
      HeldBelow(s.table[h].value, p);
    case Gone(k) =>
  }

  /** What a move does to the list of closed handles. */
  lemma MoveCloses(s: Sys, m: Move)
    ensures var s' := Apply(s, m);
      && s.next <= s'.next
      && (s'.closed == s.closed
          || (&& m.CloseHandle? && Occupied(s.table, m.handle) && !Occupied(s'.table, m.handle)
              && var c := s.table[m.handle].value;
                 c.connected && c.worker.Resting? && c.tick.Idle? && s'.closed == s.closed + [c.(slot := Close(c.slot))]))
  {
    hide WorkerStep, TickStep, NativeStep, EraseFirst;
  }

  /** Where the handle was before the move. */
  function Origin(s: Sys, m: Move, x: Place): Place {
    if x.Gone? && x.k == |s.closed| && m.CloseHandle? then Open(m.handle) else x
  }

  lemma PlaceHolds(s: Sys, m: Move, x: Place, p: int)
    requires Good(s) && HoldsAt(Apply(s, m), x, p)
    ensures HoldsAt(s, Origin(s, m, x), p) || (p >= s.next && m.ScriptCall? && x == Open(m.handle))
  {
    MoveCloses(s, m);
    hide Apply, Good;
    if x.Open? { MoveHolds(s, m, Apply(s, m), x.h, p); }
  }

  lemma MoveGoneBelow(s: Sys, m: Move)
    requires Good(s) && GoneBelow(s)
    ensures GoneBelow(Apply(s, m))
  {
    MoveCloses(s, m);
    hide Apply, Holds, Good;
    forall k, p | HoldsAt(Apply(s, m), Gone(k), p) ensures p < Apply(s, m).next {
      PlaceHolds(s, m, Gone(k), p);
      HeldBelowNext(s, Origin(s, m, Gone(k)), p);
    }
  }

  lemma MoveApart(s: Sys, m: Move)
    requires Good(s) && GoneBelow(s) && Apart(s)
    ensures Apart(Apply(s, m))
  {
    var s' := Apply(s, m);
    MoveCloses(s, m);
    hide Apply, Holds, Good;
    forall x, y, p | HoldsAt(s', x, p) && HoldsAt(s', y, p) ensures x == y {
      var x', y' := Origin(s, m, x), Origin(s, m, y);
      PlaceHolds(s, m, x, p);
      PlaceHolds(s, m, y, p);
      if HoldsAt(s, x', p) { HeldBelowNext(s, x', p); }
      if HoldsAt(s, y', p) { HeldBelowNext(s, y', p); }
    }
  }

  /** No string is ever held by two handles, be they open or closed, so no handle can delete
      another's. */
  lemma {:induction false} HandlesShareNoString(moves: seq<Move>)
    ensures Apart(Play(START, moves)) && GoneBelow(Play(START, moves))
    decreases |moves|
  {
    hide Apply;
    if moves == [] {
    } else {
      HandlesShareNoString(Init(moves));
      EveryHandleReachable(Init(moves));
      MoveApart(Play(START, Init(moves)), Last(moves));
      MoveGoneBelow(Play(START, Init(moves)), Last(moves));
    }
  }

  // ---- closing ------------------------------------------------------------------------------------

  /** mysql_close empties the slot of a handle that is connected and that neither thread is
      within, and puts the handle among the closed ones with its result given back; any other
      handle stays as it is. */
  lemma CloseExactly(s: Sys, h: nat)
    requires Occupied(s.table, h)
    ensures var c, s' := s.table[h].value, Apply(s, CloseHandle(h));
      && (c.connected && c.worker.Resting? && c.tick.Idle? ==>
            && s'.table == s.table[h := None]
            && s'.closed == s.closed + [c.(slot := c.slot.(result := None, row := None,
                 freed := c.slot.freed + (if c.slot.result.Some? then [c.slot.result.value.id] else [])))]
            && s' == s.(table := s'.table, closed := s'.closed))
      && (!c.connected || !c.worker.Resting? || !c.tick.Idle? ==> s' == s)
  {
    var freed := s.table[h].value.slot.freed;
    assert freed + [] == freed;
  }

  /** Outside a dispatch, loading puts the script at the end of the list, and unloading takes
      out the first entry equal to it; within one, neither does anything. */
  lemma LoadExactly(s: Sys, a: Script, amx: nat)
    ensures !Dispatches(s) ==> Apply(s, LoadScript(a)) == s.(scripts := s.scripts + [a])
    ensures !Dispatches(s) ==> Apply(s, UnloadScript(amx)) == s.(scripts := EraseFirst(s.scripts, amx))
    ensures Dispatches(s) ==> Apply(s, LoadScript(a)) == s && Apply(s, UnloadScript(amx)) == s
  {
    hide EraseFirst;
  }

  /** A closed handle was connected, and has given back every result set it obtained, each once. */
  lemma {:induction false} ClosedHandlesOweNothing(moves: seq<Move>, k: nat)
    requires k < |Play(START, moves).closed|
    ensures var c := Play(START, moves).closed[k];
      c.connected && c.slot.result.None? && c.slot.row.None? && c.slot.freed == Count(c.slot.obtained)
    decreases |moves|
  {
    var before := Play(START, Init(moves));
    hide WorkerStep, TickStep, NativeStep, EraseFirst, Reachable, Inv;
    if k < |before.closed| {
      ClosedHandlesOweNothing(Init(moves), k);
    } else {
      EveryHandleReachable(Init(moves));
      var c := before.table[Last(moves).handle].value;
      ResultConservation(c);
      ReachableSound(c);
      FreeSound(c.slot);
    }
  }

  lemma ReachableSound(c: Conn)
    requires Reachable(c)
    ensures Sound(c.slot)
  {
    ReachableInv(c);
    hide Fifo, OneSlot, Judged, Owned, Called;
  }

  // ---- the served prefix ---------------------------------------------------------------------------

  /** mysql_init puts the new handle right behind the handles that are served, so it is served
      at once. */
  lemma InitExtendsPrefix(s: Sys, ok: bool)
    requires Placed(s)
    ensures var h, s' := FirstFree(s.table), Apply(s, InitHandle(ok));
      && (h == MAX_CONNECTIONS ==> s' == s)
      && (h < MAX_CONNECTIONS ==> s'.table == s.table[h := Some(New(h, ok, s.next))] && h < FirstFree(s'.table))
  {
  }

  predicate Closes(m: Move, h: nat) {
    m.CloseHandle? && m.handle <= h
  }

  lemma MoveKeepsServed(s: Sys, m: Move, h: nat)
    requires h < FirstFree(s.table) && !Closes(m, h)
    ensures h < FirstFree(Apply(s, m).table)
  {
    hide WorkerStep, TickStep, NativeStep, EraseFirst;
    forall i | 0 <= i <= h ensures Occupied(Apply(s, m).table, i) {
      assert Occupied(s.table, i);
    }
  }

  /** A handle stays among those served until it or a lower one is closed. */
  lemma {:induction false} ServedUntilClosed(s: Sys, moves: seq<Move>, h: nat)
    requires h < FirstFree(s.table)
    requires forall i :: 0 <= i < |moves| ==> !Closes(moves[i], h)
    ensures h < FirstFree(Play(s, moves).table)
    decreases |moves|
  {
    hide Apply;
    if moves == [] {
    } else {
      ServedUntilClosed(s, Init(moves), h);
      assert Last(moves) == moves[|moves| - 1];
      MoveKeepsServed(Play(s, Init(moves)), Last(moves), h);
    }
  }
}
