/** The global state of the plugin as the source keeps it: the array `my` of connection
    objects (MySQL/Natives.cpp, MySQL/Thread.cpp) and the list `pAmx` (MySQL/Main.cpp). */
module Natives {
  import opened Base
  import opened Results
  import opened Handoff
  import opened HandoffInvariant
  import opened Visits
  import opened Plugin
  import opened Scan
  import opened Connection

  /** What the rest of the system does on a handle around and during a visit to it. */
  datatype Meanwhile = Meanwhile(before: seq<Choice>, during: seq<seq<Choice>>, after: seq<Choice>) {
    /** None of it is a step of the thread that makes the visit. */
    predicate Spares(t: Thread, steps: nat) {
      && Spared(before, t) && Spared(after, t) && |during| == steps
      && (forall k :: 0 <= k < |during| ==> Spared(during[k], t))
    }
  }

  predicate Spared(schedule: seq<Choice>, t: Thread) {
    if t.QueryThread? then NoWorker(schedule) else NoTick(schedule)
  }

  /** A handle opened, or closed, by a script. */
  datatype Change = Opened(ok: bool, next: nat) | Closed(handle: nat)

  /** mysql_init and mysql_close on the table.  A handle that is not connected, or that a
      thread is within, is not closed. */
  function Changed(table: seq<Option<Conn>>, c: Change): (r: seq<Option<Conn>>)
    ensures |r| == |table|
  {
    match c
    case Opened(ok, next) =>
      var free := FirstFree(table);
      if free == |table| then table else table[free := Some(New(free, ok, next))]
    case Closed(h) =>
      if Occupied(table, h) && table[h].value.connected && BothAway(table[h].value) then table[h := None] else table
  }

  function ChangedBy(table: seq<Option<Conn>>, changes: seq<Change>): (r: seq<Option<Conn>>)
    ensures |r| == |table|
  {
    if changes == [] then table else Changed(ChangedBy(table, Init(changes)), Last(changes))
  }

  /** One pass of a thread over the handles: what the server replies to each query, or which
      scripts are loaded. */
  datatype Pass = Queries(ret: seq<int>) | Game(scripts: seq<Script>) {
    function Who(): Thread {
      if Queries? then QueryThread else GameThread
    }

    function Most(): nat {
      if Queries? then ITEM_STEPS else TickLength(|scripts|)
    }

    /** Everything that happens around it is given for each slot. */
    predicate Fits(others: seq<Meanwhile>, changes: seq<seq<Change>>) {
      && |others| == |changes| == MAX_CONNECTIONS && (Queries? ==> |ret| == MAX_CONNECTIONS)
      && (forall h :: 0 <= h < |others| ==> others[h].Spares(Who(), Most()))
    }

    /** The handle at slot `h` after its visit. */
    function Visited(h: nat, s: Conn, others: Meanwhile): Conn
      requires Queries? ==> h < |ret|
    {
      var before := Run(s, others.before);
      Run(if Queries? then Visit(before, ret[h], others.during) else TickVisit(before, scripts, others.during),
          others.after)
    }
  }

  /** The table after the rest of a pass that stands at slot `h`, and the slot where it ends:
      the first one found empty.  `changes[h]` are the handles opened and closed by the end of
      the visit to slot `h`. */
  function AfterPass(p: Pass, table: seq<Option<Conn>>, h: nat, others: seq<Meanwhile>, changes: seq<seq<Change>>)
    : (r: (seq<Option<Conn>>, nat))
    requires p.Fits(others, changes) && |table| == MAX_CONNECTIONS
    ensures |r.0| == MAX_CONNECTIONS
    decreases MAX_CONNECTIONS - h
  {
    if h >= MAX_CONNECTIONS || table[h].None? then (table, h)
    else
      var visited := table[h := Some(p.Visited(h, table[h].value, others[h]))];
      AfterPass(p, ChangedBy(visited, changes[h]), h + 1, others, changes)
  }

  class Globals {
    const my: array<MySQL?>
    var pAmx: seq<Script>

    constructor ()
      ensures Valid() && fresh(this) && fresh(my) && pAmx == []
      ensures Table() == START.table
    {
      my := new MySQL?[MAX_CONNECTIONS](_ => null);
      pAmx := [];
    }

    /** The connection objects in the table. */
    ghost function Objects(): set<MySQL>
      reads my
    {
      set h | 0 <= h < my.Length && my[h] != null :: my[h] as MySQL
    }

    /** The table as the machine of the whole plugin sees it. */
    ghost function Table(): (t: seq<Option<Conn>>)
      reads my, Objects()
      ensures |t| == my.Length
      ensures forall h :: 0 <= h < |t| ==>
        t[h] == if my[h] == null then None else Some((my[h] as MySQL).View())
    {
      seq(my.Length, h requires 0 <= h < my.Length reads my, Objects() =>
        if my[h] == null then None else Some((my[h] as MySQL).View()))
    }

    /** No object is in two slots, and each knows its slot. */
    ghost predicate Valid()
      reads this, my, Objects()
    {
      && my.Length == MAX_CONNECTIONS
      && (forall h :: 0 <= h < my.Length && my[h] != null ==> my[h].id == h && my[h].Valid())
    }

    /** A thread is within no slot. */
    ghost predicate Clear(t: Thread)
      reads my, Objects()
    {
      ClearOf(Table(), t)
    }

    /** n_mysql_init: a new object in the first free slot; -1 if there is none, or if the
        library could not be initialised. */
    method MysqlInit(ok: bool, next: nat) returns (handle: int)
      requires Valid()
      modifies my
      ensures Valid()
      ensures var free := FirstFree(old(Table()));
        if free == MAX_CONNECTIONS then handle == -1 && Table() == old(Table())
        else handle == (if ok then free else -1) && Table() == old(Table())[free := Some(New(free, ok, next))]
      ensures forall h :: 0 <= h < my.Length && old(my[h]) != null ==> my[h] == old(my[h])
      ensures fresh(Objects() - old(Objects()))
      ensures forall s: Sys :: s.table == old(Table()) && s.next == next ==> Apply(s, InitHandle(ok)).table == Table()
    {
      hide Inv, QueriesView, CompletionsView, FirstFree;
      ghost var before := Table();
      handle := -1;
      var i := 0;
      while i < MAX_CONNECTIONS && handle == -1
        invariant 0 <= i <= MAX_CONNECTIONS && -1 <= handle < MAX_CONNECTIONS
        invariant forall h :: 0 <= h < i && h != handle ==> my[h] != null
        invariant handle != -1 ==> my[handle] == null && i == handle + 1
        decreases MAX_CONNECTIONS - i
      {
        if my[i] == null { handle := i; }
        i := i + 1;
      }
      FirstFreeIs(before, if handle == -1 then MAX_CONNECTIONS else handle);
      if handle == -1 { return -1; }
      var made := new MySQL(handle, ok, next);
      my[handle] := made;
      assert Table() == before[handle := Some(New(handle, ok, next))];
      if !ok { handle := -1; }
    }

    /** n_mysql_close of a connected handle on which neither thread is at work. */
    method MysqlClose(handle: nat) returns (reply: int)
      requires Valid() && handle < my.Length && my[handle] != null
      requires my[handle].worker.Resting? && my[handle].tick.Idle?
      modifies my, my[handle]
      ensures Valid()
      ensures reply == if old(my[handle].connected) then 1 else 0
      ensures Table() == if old(my[handle].connected) then old(Table())[handle := None] else old(Table())
      ensures old(my[handle].connected) ==> old(my[handle]).SlotView() == Close(old(my[handle].SlotView()))
      ensures Objects() <= old(Objects())
      ensures forall s: Sys :: s.table == old(Table()) ==> Apply(s, CloseHandle(handle)).table == Table()
    {
      hide Inv;
      ghost var before := Table();
      if !my[handle].connected { return 0; }
      my[handle].CloseConnection();
      my[handle] := null;
      assert Table() == before[handle := None];
      return 1;
    }

    method Alter(c: Change)
      requires Valid()
      modifies my, Objects()
      ensures Valid() && Table() == Changed(old(Table()), c) && fresh(Objects() - old(Objects()))
    {
      hide Inv, New, FirstFree, QueriesView, CompletionsView;
      match c
      case Opened(ok, next) =>
        var _ := MysqlInit(ok, next);
      case Closed(h) =>
        if h < my.Length && my[h] != null && my[h].connected && my[h].worker.Resting? && my[h].tick.Idle? {
          assert my[h] in Objects();
          var _ := MysqlClose(h);
        }
    }

    method AlterAll(changes: seq<Change>)
      requires Valid()
      modifies my, Objects()
      ensures Valid() && Table() == ChangedBy(old(Table()), changes) && fresh(Objects() - old(Objects()))
    {
      hide Changed;
      ghost var objects, before := Objects(), Table();
      var i := 0;
      assert changes[..0] == [];
      while i < |changes|
        invariant 0 <= i <= |changes| && Valid() && fresh(Objects() - objects)
        invariant Table() == ChangedBy(before, changes[..i])
      {
        Alter(changes[i]);
        assert Init(changes[..i + 1]) == changes[..i] && Last(changes[..i + 1]) == changes[i];
        i := i + 1;
      }
      assert changes[..i] == changes;
    }

    method RunSlot(handle: nat, p: Pass, others: Meanwhile, uninitialised: ThreadInfo)
      requires Valid() && handle < my.Length && my[handle] != null && my[handle].worker.Resting?
      requires p.Queries? && handle < |p.ret| && others.Spares(QueryThread, ITEM_STEPS)
      modifies my[handle]
      ensures Valid()
      ensures Table() == old(Table())[handle := Some(p.Visited(handle, old(my[handle].View()), others))]
      ensures my[handle].worker.Resting?
    {
      hide Inv, Visit, TickVisit, Run, QueriesView, CompletionsView;
      OthersKeepThread(my[handle].View(), others.before);
      my[handle].Yield(others.before);
      my[handle].QueryThreadVisit(p.ret[handle], others.during, uninitialised);
      OthersKeepThread(my[handle].View(), others.after);
      my[handle].Yield(others.after);
    }

    method TickSlot(handle: nat, others: Meanwhile)
      requires Valid() && handle < my.Length && my[handle] != null && my[handle].tick.Idle?
      requires others.Spares(GameThread, TickLength(|pAmx|))
      modifies my[handle]
      ensures Valid()
      ensures Table() == old(Table())[handle := Some(Game(pAmx).Visited(handle, old(my[handle].View()), others))]
      ensures my[handle].tick.Idle?
    {
      hide Inv, Visit, TickVisit, Run, QueriesView, CompletionsView;
      OthersKeepThread(my[handle].View(), others.before);
      my[handle].Yield(others.before);
      my[handle].ProcessTickVisit(pAmx, others.during);
      OthersKeepThread(my[handle].View(), others.after);
      my[handle].Yield(others.after);
    }

    /** One pass of the query thread over the handles.  On each handle anything happens before,
        during and after its visit, and scripts open and close handles meanwhile.  The bound on
        `handle` is not in the source, which relies on an empty slot. */
    method QueryPass(p: Pass, others: seq<Meanwhile>, changes: seq<seq<Change>>, uninitialised: ThreadInfo)
      returns (handle: nat)
      requires Valid() && Clear(QueryThread) && p.Queries? && p.Fits(others, changes)
      modifies my, Objects()
      ensures Valid() && Clear(QueryThread) && fresh(Objects() - old(Objects()))
      ensures (Table(), handle) == AfterPass(p, old(Table()), 0, others, changes)
    {
      hide Inv, ChangedBy, AfterPass;
      ghost var before := Table();
      ghost var objects := Objects();
      handle := 0;
      while handle < MAX_CONNECTIONS && my[handle] != null
        invariant handle <= MAX_CONNECTIONS && Valid() && Clear(QueryThread) && fresh(Objects() - objects)
        invariant AfterPass(p, Table(), handle, others, changes) == AfterPass(p, before, 0, others, changes)
        decreases MAX_CONNECTIONS - handle
      {
        assert my[handle] in Objects();
        assert Table()[handle].value == my[handle].View();
        ghost var table := Table();
        PassStep(p, table, handle, others, changes);
        RunSlot(handle, p, others[handle], uninitialised);
        assert Table()[handle].value == my[handle].View();
        StaysClear(table, my[handle].View(), handle, changes[handle], QueryThread);
        AlterAll(changes[handle]);
        handle := handle + 1;
      }
      PassEnds(p, Table(), handle, others, changes);
    }

    /** ProcessTick over the handles.  Callbacks may call what they like, and open and close
        handles. */
    method ProcessTick(others: seq<Meanwhile>, changes: seq<seq<Change>>) returns (handle: nat)
      requires Valid() && Clear(GameThread) && Game(pAmx).Fits(others, changes)
      modifies my, Objects()
      ensures Valid() && Clear(GameThread) && fresh(Objects() - old(Objects()))
      ensures (Table(), handle) == AfterPass(Game(pAmx), old(Table()), 0, others, changes)
    {
      hide Inv, ChangedBy, AfterPass;
      ghost var before := Table();
      ghost var objects := Objects();
      handle := 0;
      while handle < MAX_CONNECTIONS && my[handle] != null
        invariant handle <= MAX_CONNECTIONS && Valid() && Clear(GameThread) && fresh(Objects() - objects)
        invariant AfterPass(Game(pAmx), Table(), handle, others, changes)
          == AfterPass(Game(pAmx), before, 0, others, changes)
        decreases MAX_CONNECTIONS - handle
      {
        assert my[handle] in Objects();
        assert Table()[handle].value == my[handle].View();
        ghost var table := Table();
        PassStep(Game(pAmx), table, handle, others, changes);
        TickSlot(handle, others[handle]);
        assert Table()[handle].value == my[handle].View();
        StaysClear(table, my[handle].View(), handle, changes[handle], GameThread);
        AlterAll(changes[handle]);
        handle := handle + 1;
      }
      PassEnds(Game(pAmx), Table(), handle, others, changes);
    }

    /** AmxLoad: the script joins the end of the list, from where AmxUnload takes it again. */
    method AmxLoad(a: Script)
      modifies this`pAmx
      ensures pAmx == old(pAmx) + [a]
      ensures forall s: Sys :: s.scripts == old(pAmx) && !Dispatches(s) ==> Apply(s, LoadScript(a)).scripts == pAmx
      ensures (forall i :: 0 <= i < |old(pAmx)| ==> old(pAmx)[i].amx != a.amx) ==> EraseFirst(pAmx, a.amx) == old(pAmx)
    {
      UnloadUndoesLoad(pAmx, a);
      assert forall s: Sys :: !Dispatches(s) ==> Apply(s, LoadScript(a)).scripts == s.scripts + [a];
      pAmx := pAmx + [a];
    }

    /** AmxUnload: the loop that erases the first entry equal to the script. */
    method AmxUnload(amx: nat)
      modifies this`pAmx
      ensures pAmx == EraseFirst(old(pAmx), amx)
      ensures forall s: Sys :: s.scripts == old(pAmx) && !Dispatches(s) ==> Apply(s, UnloadScript(amx)).scripts == pAmx
    {
      var i := 0;
      while i < |pAmx|
        invariant 0 <= i <= |pAmx| && pAmx == old(pAmx)
        invariant forall j :: 0 <= j < i ==> pAmx[j].amx != amx
      {
        if pAmx[i].amx == amx {
          EraseFirstExactly(pAmx, amx, i);
          pAmx := pAmx[..i] + pAmx[i + 1..];
          return;
        }
        i := i + 1;
      }
      EraseNothing(pAmx, amx);
    }
  }

  /** Opening and closing a handle during a pass are the moves of the whole plugin. */
  lemma ChangedIsMove(s: Sys, ok: bool, h: nat)
    ensures Changed(s.table, Opened(ok, s.next)) == Apply(s, InitHandle(ok)).table
    ensures Changed(s.table, Closed(h)) == Apply(s, CloseHandle(h)).table
  {
  }

  lemma PassStep(p: Pass, table: seq<Option<Conn>>, h: nat, others: seq<Meanwhile>, changes: seq<seq<Change>>)
    requires p.Fits(others, changes) && |table| == MAX_CONNECTIONS && h < MAX_CONNECTIONS && table[h].Some?
    ensures AfterPass(p, table, h, others, changes)
      == AfterPass(p, ChangedBy(table[h := Some(p.Visited(h, table[h].value, others[h]))], changes[h]), h + 1, others, changes)
  {
    hide ChangedBy;
  }

  lemma PassEnds(p: Pass, table: seq<Option<Conn>>, h: nat, others: seq<Meanwhile>, changes: seq<seq<Change>>)
    requires p.Fits(others, changes) && |table| == MAX_CONNECTIONS
    requires h >= MAX_CONNECTIONS || table[h].None?
    ensures AfterPass(p, table, h, others, changes) == (table, h)
  {
  }

  // ---- what a pass amounts to --------------------------------------------------------------

  predicate ClearOf(table: seq<Option<Conn>>, t: Thread) {
    forall h :: 0 <= h < |table| && table[h].Some? ==> Away(table[h].value, t)
  }

  lemma ChangeStaysClear(table: seq<Option<Conn>>, c: Change, t: Thread)
    requires ClearOf(table, t)
    ensures ClearOf(Changed(table, c), t)
  {
    hide FirstFree;
  }

  lemma {:induction false} ChangesStayClear(table: seq<Option<Conn>>, changes: seq<Change>, t: Thread)
    requires ClearOf(table, t)
    ensures ClearOf(ChangedBy(table, changes), t)
    decreases |changes|
  {
    hide ClearOf, Changed;
    if changes == [] {
    } else {
      ChangesStayClear(table, Init(changes), t);
      ChangeStaysClear(ChangedBy(table, Init(changes)), Last(changes), t);
    }
  }

  lemma StaysClear(table: seq<Option<Conn>>, visited: Conn, h: nat, changes: seq<Change>, t: Thread)
    requires ClearOf(table, t) && h < |table| && Away(visited, t)
    ensures ClearOf(ChangedBy(table[h := Some(visited)], changes), t)
  {
    ChangesStayClear(table[h := Some(visited)], changes, t);
  }

  /** If no handle is opened or closed meanwhile, a pass visits exactly the handles below the
      first free slot and leaves all other slots as they were. */
  lemma {:induction false} QuietPass(p: Pass, table: seq<Option<Conn>>, h: nat, others: seq<Meanwhile>, changes: seq<seq<Change>>)
    requires p.Fits(others, changes) && |table| == MAX_CONNECTIONS && h <= FirstFree(table)
    requires forall g :: h <= g < MAX_CONNECTIONS ==> changes[g] == []
    ensures var (table', stop) := AfterPass(p, table, h, others, changes);
      && stop == FirstFree(table)
      && forall g :: 0 <= g < MAX_CONNECTIONS ==>
           if h <= g < stop then
             var before := Run(table[g].value, others[g].before);
             table'[g] == Some(Run(
               if p.Queries? then Visit(before, p.ret[g], others[g].during) else TickVisit(before, p.scripts, others[g].during),
               others[g].after))
           else table'[g] == table[g]
    decreases MAX_CONNECTIONS - h
  {
    hide Run, Visit, TickVisit;
    if h >= MAX_CONNECTIONS || table[h].None? {
    } else {
      var visited := table[h := Some(p.Visited(h, table[h].value, others[h]))];
      SameFree(table, visited);
      QuietPass(p, visited, h + 1, others, changes);
    }
  }

  lemma SameFree(table: seq<Option<Conn>>, table': seq<Option<Conn>>)
    requires |table'| == |table| && forall g :: 0 <= g < |table| ==> table'[g].Some? == table[g].Some?
    ensures FirstFree(table') == FirstFree(table)
  {
    FirstFreeIs(table', FirstFree(table));
  }

  /** Does any of this close `h` or a lower handle? */
  predicate Threatens(changes: seq<Change>, h: nat) {
    exists i :: 0 <= i < |changes| && changes[i].Closed? && changes[i].handle <= h
  }

  lemma ChangeKeeps(table: seq<Option<Conn>>, c: Change, h: nat)
    requires h < FirstFree(table) && !(c.Closed? && c.handle <= h)
    ensures h < FirstFree(Changed(table, c))
  {
    hide New;
  }

  lemma {:induction false} ChangesKeep(table: seq<Option<Conn>>, changes: seq<Change>, h: nat)
    requires h < FirstFree(table) && !Threatens(changes, h)
    ensures h < FirstFree(ChangedBy(table, changes))
    decreases |changes|
  {
    hide Changed, FirstFree;
    if changes == [] {
    } else {
      assert Last(changes) == changes[|changes| - 1];
      assert forall i :: 0 <= i < |Init(changes)| ==> Init(changes)[i] == changes[i];
      ChangesKeep(table, Init(changes), h);
      ChangeKeeps(ChangedBy(table, Init(changes)), Last(changes), h);
    }
  }

  /** A pass comes to every handle that lies in the served prefix, unless that handle or a lower
      one is closed before it gets there, whatever else is opened and closed. */
  lemma {:induction false} PassComesTo(p: Pass, table: seq<Option<Conn>>, h: nat, others: seq<Meanwhile>, changes: seq<seq<Change>>, g: nat)
    requires p.Fits(others, changes) && |table| == MAX_CONNECTIONS && h <= g < FirstFree(table)
    requires forall k :: h <= k < g ==> !Threatens(changes[k], g)
    ensures g < AfterPass(p, table, h, others, changes).1
    decreases MAX_CONNECTIONS - h
  {
    hide Run, Visit, TickVisit, Threatens;
    var visited := table[h := Some(p.Visited(h, table[h].value, others[h]))];
    if h < g {
      SameFree(table, visited);
      ChangesKeep(visited, changes[h], g);
      PassComesTo(p, ChangedBy(visited, changes[h]), h + 1, others, changes, g);
    } else {
      PassGoesOn(p, ChangedBy(visited, changes[h]), h + 1, others, changes);
    }
  }

  lemma {:induction false} PassGoesOn(p: Pass, table: seq<Option<Conn>>, h: nat, others: seq<Meanwhile>, changes: seq<seq<Change>>)
    requires p.Fits(others, changes) && |table| == MAX_CONNECTIONS
    ensures h <= AfterPass(p, table, h, others, changes).1
    decreases MAX_CONNECTIONS - h
  {
    hide Run, Visit, TickVisit, ChangedBy;
    if h >= MAX_CONNECTIONS || table[h].None? {
    } else {
      var visited := table[h := Some(p.Visited(h, table[h].value, others[h]))];
      PassGoesOn(p, ChangedBy(visited, changes[h]), h + 1, others, changes);
    }
  }

  /** The first free slot is the only slot that is free, or the end, behind occupied ones. */
  lemma {:induction false} FirstFreeIs(table: seq<Option<Conn>>, h: nat)
    requires h <= |table| && (h < |table| ==> table[h].None?)
    requires forall i :: 0 <= i < h ==> table[i].Some?
    ensures FirstFree(table) == h
  {
    if h == 0 {
    } else {
      FirstFreeIs(table[1..], h - 1);
    }
  }

  /** Without such a script nothing is erased. */
  lemma {:induction false} EraseNothing(scripts: seq<Script>, amx: nat)
    requires forall i :: 0 <= i < |scripts| ==> scripts[i].amx != amx
    ensures EraseFirst(scripts, amx) == scripts
    decreases |scripts|
  {
    if scripts == [] {
    } else {
      EraseNothing(scripts[1..], amx);
    }
  }

  /** Every script but the first with this identity stays, in order. */
  lemma {:induction false} EraseFirstExactly(scripts: seq<Script>, amx: nat, k: nat)
    requires k < |scripts| && scripts[k].amx == amx
    requires forall i :: 0 <= i < k ==> scripts[i].amx != amx
    ensures EraseFirst(scripts, amx) == scripts[..k] + scripts[k + 1..]
    decreases |scripts|
  {
    if k == 0 {
    } else {
      EraseFirstExactly(scripts[1..], amx, k - 1);
      assert scripts[1..][..k - 1] == scripts[1..k] && scripts[1..][k..] == scripts[k + 1..];
      assert [scripts[0]] + scripts[1..k] == scripts[..k];
    }
  }

  /** AmxUnload after AmxLoad leaves the list as it was if that script was not in it; if it
      was, the new entry stays and the first old one goes. */
  lemma {:induction false} UnloadUndoesLoad(scripts: seq<Script>, a: Script)
    ensures (forall i :: 0 <= i < |scripts| ==> scripts[i].amx != a.amx) ==> EraseFirst(scripts + [a], a.amx) == scripts
    ensures (exists i :: 0 <= i < |scripts| && scripts[i].amx == a.amx)
      ==> EraseFirst(scripts + [a], a.amx) == EraseFirst(scripts, a.amx) + [a]
    decreases |scripts|
  {
    if scripts == [] {
      assert [a][1..] == [];
    } else {
      UnloadUndoesLoad(scripts[1..], a);
      assert (scripts + [a])[1..] == scripts[1..] + [a];
      if i :| 0 <= i < |scripts| && scripts[i].amx == a.amx {
        assert i > 0 ==> scripts[1..][i - 1] == scripts[i];
      }
    }
  }
}
