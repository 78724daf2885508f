/** From the script's call to the server and back to its callback. */
module EndToEnd {
  import opened Base
  import opened Results
  import opened Handoff
  import opened HandoffInvariant
  import opened HandoffTheorems
  import opened Progress
  import opened Visits
  import opened ScriptCalls

  // ---- the callbacks, spelled out --------------------------------------------------------------

  /** The queries whose status, as read at line 50, was 0. */
  function PassedQueries(vs: seq<Verdict>): seq<Query> {
    if vs == [] then []
    else if Last(vs).seen == 0 then PassedQueries(Init(vs)) + [Last(vs).q] else PassedQueries(Init(vs))
  }

  /** The callbacks that announce a query to these scripts, with (resultid, spareid, handle) or
      (resultid, text, handle); the text is there for the first subscriber only. */
  function CallsFor(id: nat, q: Query, scripts: seq<Script>, whole: bool): seq<Call> {
    if scripts == [] then []
    else
      var a := scripts[0];
      match q.extra
      case Id(n) =>
        (if a.onQuery then [Call(a.amx, "OnMysqlQuery", [Num(q.resultId), Num(n), Num(id)])] else [])
        + CallsFor(id, q, scripts[1..], whole)
      case Vars(s) =>
        if a.onQueryArray
        then [Call(a.amx, "OnMysqlQueryArray", [Num(q.resultId), if whole then Text(s.content) else NullText, Num(id)])]
             + CallsFor(id, q, scripts[1..], false)
        else CallsFor(id, q, scripts[1..], whole)
  }

  /** Those for the first queries, each to its list of scripts. */
  function Announced(id: nat, qs: seq<Query>, lists: seq<seq<Script>>): seq<Call>
    requires |lists| <= |qs|
  {
    if lists == [] then []
    else Announced(id, qs, Init(lists)) + CallsFor(id, qs[|lists| - 1], Last(lists), true)
  }

  function Lists(ds: seq<Delivery>): (r: seq<seq<Script>>)
    ensures |r| == |ds|
  {
    seq(|ds|, i requires 0 <= i < |ds| => ds[i].scripts)
  }

  lemma {:induction false} PassedAre(vs: seq<Verdict>)
    ensures |Passed(vs)| == |PassedQueries(vs)|
    ensures forall i :: 0 <= i < |Passed(vs)| ==>
      Passed(vs)[i].resultId == PassedQueries(vs)[i].resultId && Passed(vs)[i].extra == PassedQueries(vs)[i].extra
    decreases |vs|
  {
    if vs == [] {
    } else {
      PassedAre(Init(vs));
    }
  }

  /** A dispatch of a query's completion is the callbacks spelled out. */
  lemma {:induction false} DispatchSpelled(id: nat, c: Completion, q: Query, scripts: seq<Script>, vars: Option<Str>)
    requires c.resultId == q.resultId && c.extra == q.extra
    requires vars.Some? ==> q.extra == Vars(vars.value)
    ensures Dispatch(id, c, scripts, vars) == CallsFor(id, q, scripts, vars.Some?)
    decreases |scripts|
  {
    if scripts == [] {
    } else {
      var first := Subscribes(scripts[0], c);
      DispatchSpelled(id, c, q, scripts[1..], if first then None else vars);
      CallIs(scripts[0], c, vars, id);
      if q.extra.Id? {
        SpareCalls(id, q, scripts[1..], vars.Some?, false);
      }
      hide CallOf;
    }
  }

  /** Without a text it does not matter whether it is still there. */
  lemma {:induction false} SpareCalls(id: nat, q: Query, scripts: seq<Script>, whole: bool, whole': bool)
    requires q.extra.Id?
    ensures CallsFor(id, q, scripts, whole) == CallsFor(id, q, scripts, whole')
    decreases |scripts|
  {
    if scripts == [] {
    } else {
      SpareCalls(id, q, scripts[1..], whole, whole');
    }
  }

  lemma {:induction false} AllCallsSpelled(id: nat, ds: seq<Delivery>, qs: seq<Query>)
    requires |ds| <= |qs|
    requires forall i :: 0 <= i < |ds| ==> ds[i].c.resultId == qs[i].resultId && ds[i].c.extra == qs[i].extra
    ensures AllCalls(id, ds) == Announced(id, qs, Lists(ds))
    decreases |ds|
  {
    if ds == [] {
    } else {
      var d, q := Last(ds), qs[|ds| - 1];
      AllCallsSpelled(id, Init(ds), qs);
      DispatchSpelled(id, d.c, q, d.scripts, VarsOf(d.c.extra));
      if q.extra.Id? { SpareCalls(id, q, d.scripts, false, true); }
      assert Init(Lists(ds)) == Lists(Init(ds));
      hide Dispatch, CallsFor;
    }
  }

  // ---- deliveries and callbacks of every run --------------------------------------------------------

  /** In every reachable state the i-th completion delivered has the result id and the payload
      of the i-th query that passed. */
  lemma DeliveredBelong(s: Conn)
    requires Reachable(s)
    ensures var ds, qs := s.log.delivered, PassedQueries(s.log.verdicts);
      && |ds| <= |qs| <= |ds| + 1
      && forall i :: 0 <= i < |ds| ==> ds[i].c.resultId == qs[i].resultId && ds[i].c.extra == qs[i].extra
  {
    DeliveredExactlyOnce(s);
    PassedAre(s.log.verdicts);
    var ds := s.log.delivered;
    hide Reachable, Passed, PassedQueries, Owed;
    assert Passed(s.log.verdicts) == Delivered(ds) + Owed(s);
    assert forall i :: 0 <= i < |ds| ==> Passed(s.log.verdicts)[i] == Delivered(ds)[i];
  }

  /** The completion being dispatched is that of the next query that passed. */
  lemma DispatchedBelongs(s: Conn)
    requires Reachable(s) && Dispatching(s.tick)
    ensures var k, qs := |s.log.delivered|, PassedQueries(s.log.verdicts);
      && k < |qs| && s.tick.c.resultId == qs[k].resultId && s.tick.c.extra == qs[k].extra
      && (s.tick.vars.Some? ==> qs[k].extra == Vars(s.tick.vars.value))
      && (s.tick.Within? ==> s.tick.rest != [])
  {
    DeliveredExactlyOnce(s);
    ReachableInv(s);
    PassedAre(s.log.verdicts);
    TickMay(s);
    assert OneSlot(s) && Owed(s) == [s.tick.c];
    var ds := s.log.delivered;
    hide Reachable, Inv, Passed, PassedQueries, Owed, OneSlot;
    assert Passed(s.log.verdicts) == Delivered(ds) + [s.tick.c];
    assert Passed(s.log.verdicts)[|ds|] == s.tick.c;
  }

  /** The callbacks made, outside a dispatch: for each query that passed, in the order of their
      execution, one to each script of its list that subscribes, with the arguments of the
      script's own call. */
  lemma CallsSpelled(s: Conn)
    requires Reachable(s) && !Dispatching(s.tick)
    ensures |s.log.delivered| <= |PassedQueries(s.log.verdicts)|
    ensures s.log.calls == Announced(s.id, PassedQueries(s.log.verdicts), Lists(s.log.delivered))
  {
    CallbacksExactly(s);
    DeliveredBelong(s);
    hide Reachable, PassedQueries, AllCalls, Announced;
    AllCallsSpelled(s.id, s.log.delivered, PassedQueries(s.log.verdicts));
  }

  /** And within one: with the callbacks still to be made to the rest of the list, they are
      those, and the ones that announce the next query to the whole list. */
  lemma CallsSpelledWithin(s: Conn)
    requires Reachable(s) && Dispatching(s.tick)
    ensures |s.log.delivered| < |PassedQueries(s.log.verdicts)|
    ensures var t, qs := s.tick, PassedQueries(s.log.verdicts);
      var q := qs[|s.log.delivered|];
      s.log.calls + (if t.Calling? then CallsFor(s.id, q, t.rest, t.vars.Some?)
                     else if t.rest == [] then [] else CallsFor(s.id, q, t.rest[1..], false))
        == Announced(s.id, qs, Lists(s.log.delivered)) + CallsFor(s.id, q, t.all, true)
  {
    CallbacksExactly(s);
    DeliveredBelong(s);
    DispatchedBelongs(s);
    var t, qs := s.tick, PassedQueries(s.log.verdicts);
    var q := qs[|s.log.delivered|];
    hide Reachable, PassedQueries, AllCalls, Announced, Dispatch, CallsFor;
    AllCallsSpelled(s.id, s.log.delivered, qs);
    DispatchSpelled(s.id, t.c, q, t.all, VarsOf(t.c.extra));
    if q.extra.Id? { SpareCalls(s.id, q, t.all, false, true); }
    if t.Calling? {
      DispatchSpelled(s.id, t.c, q, t.rest, t.vars);
    } else {
      DispatchSpelled(s.id, t.c, q, t.rest[1..], None);
    }
  }

  // ---- what a script asked for is what the server and the callback get ---------------------------------

  lemma ReachableOn(s: Conn, c: Choice, schedule: seq<Choice>)
    requires Reachable(s)
    ensures Reachable(Step(s, c)) && Reachable(Run(Step(s, c), schedule))
  {
    hide Step, New;
    var id, mysql, next, before :| s == Run(New(id, mysql, next), before);
    assert Init(before + [c]) == before && Last(before + [c]) == c;
    assert Step(s, c) == Run(New(id, mysql, next), before + [c]);
    RunConcat(New(id, mysql, next), before + [c], schedule);
  }

  /** The k-th query enqueued is the k-th executed and the k-th judged, in every later state. */
  lemma Tracked(s: Conn, schedule: seq<Choice>, k: nat)
    requires Reachable(s) && Reachable(Run(s, schedule)) && k < |s.log.enqueued|
    ensures var s', q := Run(s, schedule), s.log.enqueued[k];
      && k < |s'.log.enqueued| && s'.log.enqueued[k] == q
      && (k < |s'.log.executed| ==> s'.log.executed[k] == q)
      && (k < |s'.log.verdicts| ==> s'.log.verdicts[k].q == q)
  {
    EnqueuedGrows(s, schedule);
    ExecutedInOrder(Run(s, schedule));
    DeliveredExactlyOnce(Run(s, schedule));
    hide Reachable, Run;
  }

  /** mysql_query under a result id, in any state of a connected handle: in every later state
      the statement the server is sent for it is the script's, and the query judged and announced
      has the script's result id and spare id. */
  lemma QueryIsCarried(s: Conn, sql: string, resultId: int, spareId: int, ret: int, address: nat, schedule: seq<Choice>)
    requires Reachable(s) && s.connected && resultId != -1
    ensures var k, s' := |s.log.enqueued|, Run(NativeStep(s, MysqlQuery(sql, resultId, spareId, ret), address), schedule);
      && k < |s'.log.enqueued|
      && (var q := s'.log.enqueued[k];
          && q.text.content == (if sql == "" then "NULL" else sql) && q.resultId == resultId && q.extra == Id(spareId)
          && (k < |s'.log.executed| ==> s'.log.executed[k] == q)
          && (k < |s'.log.verdicts| ==> s'.log.verdicts[k].q == q))
  {
    var c := Native(MysqlQuery(sql, resultId, spareId, ret), address);
    QueryQueues(s, sql, resultId, spareId, ret, address);
    ReachableOn(s, c, schedule);
    hide NativeStep, Run, Reachable;
    Tracked(Step(s, c), schedule, |s.log.enqueued|);
  }

  /** mysql_query_array likewise, with the script's text for the callback. */
  lemma QueryArrayIsCarried(s: Conn, sql: string, resultId: int, vars: string, ret: int, address: nat, schedule: seq<Choice>)
    requires Reachable(s) && s.connected && resultId != -1
    ensures var k, s' := |s.log.enqueued|, Run(NativeStep(s, MysqlQueryArray(sql, resultId, vars, ret), address), schedule);
      && k < |s'.log.enqueued|
      && (var q := s'.log.enqueued[k];
          && q.text.content == (if sql == "" then "NULL" else sql) && q.resultId == resultId
          && q.extra.Vars? && q.extra.s.content == (if vars == "" then "NULL" else vars)
          && (k < |s'.log.executed| ==> s'.log.executed[k] == q)
          && (k < |s'.log.verdicts| ==> s'.log.verdicts[k].q == q))
  {
    var c := Native(MysqlQueryArray(sql, resultId, vars, ret), address);
    QueryArrayQueues(s, sql, resultId, vars, ret, address);
    ReachableOn(s, c, schedule);
    hide NativeStep, Run, Reachable;
    Tracked(Step(s, c), schedule, |s.log.enqueued|);
  }

  // ---- asked and answered ----------------------------------------------------------------------------

  /** One query on a handle with nothing else to do: the query thread sends its text to the
      server, the status is in `state`, and the next tick makes exactly the callbacks that
      announce it, if the status is 0, and none otherwise. */
  lemma Answered(s: Conn, q: Query, ret: int, scripts: seq<Script>)
    requires Inv(s) && BothAway(s) && s.queryQueue == [q] && s.threadQueue == []
    ensures var s1 := Visit(s, ret, Alone(ITEM_STEPS));
      var s2 := TickVisit(s1, scripts, Alone(TickLength(|scripts|)));
      && s1.log.executed == s.log.executed + [q] && s1.slot.state == ret && s1.log.calls == s.log.calls
      && s2.log.calls == s.log.calls + (if ret == 0 then CallsFor(s.id, q, scripts, true) else [])
      && s2.slot == s1.slot && s2.queryQueue == [] && s2.threadQueue == [] && !s2.parsing
  {
    var s1 := Visit(s, ret, Alone(ITEM_STEPS));
    assert !s.parsing && WorkerReady(s) by { hide Fifo, Judged, Owned, Called, Stated; }
    VisitAlone(s, ret);
    VisitIsRun(s, ret, Alone(ITEM_STEPS));
    hide Inv, Visit, TickVisit, Run;
    var schedule :| s1 == Run(s, schedule);
    RunInv(s, schedule);
    TickAlone(s1, scripts);
    if ret == 0 {
      DispatchSpelled(s.id, s1.threadQueue[0], q, scripts, VarsOf(q.extra));
      if q.extra.Id? { SpareCalls(s.id, q, scripts, false, true); }
    }
    hide Dispatch, CallsFor;
  }

  /** From the script's mysql_query to the script's OnMysqlQuery. */
  lemma QueryAnswered(s: Conn, sql: string, resultId: int, spareId: int, ret: int, address: nat, scripts: seq<Script>)
    requires Inv(s) && BothAway(s) && s.connected && s.queryQueue == [] && s.threadQueue == [] && resultId != -1
    ensures var s0 := NativeStep(s, MysqlQuery(sql, resultId, spareId, ret), address);
      var s1 := Visit(s0, ret, Alone(ITEM_STEPS));
      var s2 := TickVisit(s1, scripts, Alone(TickLength(|scripts|)));
      && s1.log.executed != [] && Last(s1.log.executed).text.content == (if sql == "" then "NULL" else sql)
      && s1.slot.state == ret
      && s2.log.calls == s.log.calls
           + if ret == 0 then OnMysqlQueryCalls(s.id, resultId, spareId, scripts) else []
  {
    var n := MysqlQuery(sql, resultId, spareId, ret);
    QueryQueues(s, sql, resultId, spareId, ret, address);
    NativeInv(s, n, address);
    hide NativeStep, Inv, Visit, TickVisit;
    var s0 := NativeStep(s, n, address);
    Answered(s0, s0.queryQueue[0], ret, scripts);
    OnMysqlQueryAll(s.id, s0.queryQueue[0], scripts);
  }

  /** OnMysqlQuery(resultid, spareid, handle) in each script that defines it, in list order. */
  function OnMysqlQueryCalls(id: nat, resultId: int, spareId: int, scripts: seq<Script>): seq<Call> {
    if scripts == [] then []
    else
      (if scripts[0].onQuery
       then [Call(scripts[0].amx, "OnMysqlQuery", [Num(resultId), Num(spareId), Num(id)])] else [])
      + OnMysqlQueryCalls(id, resultId, spareId, scripts[1..])
  }

  lemma {:induction false} OnMysqlQueryAll(id: nat, q: Query, scripts: seq<Script>)
    requires q.extra.Id?
    ensures CallsFor(id, q, scripts, true) == OnMysqlQueryCalls(id, q.resultId, q.extra.n, scripts)
    decreases |scripts|
  {
    if scripts == [] {
    } else {
      OnMysqlQueryAll(id, q, scripts[1..]);
    }
  }
}
