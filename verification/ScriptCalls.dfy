/** What each call of a script does to a handle (MySQL/Natives.cpp, MySQL/Mysql.cpp), field by
    field. */
module ScriptCalls {
  import opened Base
  import opened Results
  import opened ResultLaws
  import opened Handoff
  import opened HandoffInvariant
  import opened HandoffTheorems
  import opened Progress

  /** The allocator's next identity. */
  function Fresh(s: Conn, address: nat): nat {
    if address < s.heap.next then s.heap.next else address
  }

  /** A query under a result id goes to the end of queryQueue, with the statement as its text and
      the spare id as its payload; the stored result is given back, and nothing is executed. */
  lemma QueryQueues(s: Conn, sql: string, resultId: int, spareId: int, ret: int, address: nat)
    requires s.connected && resultId != -1
    ensures var s', p := NativeStep(s, MysqlQuery(sql, resultId, spareId, ret), address), Fresh(s, address);
      var q := Query(Str(p, if sql == "" then "NULL" else sql), resultId, Id(spareId));
      && s'.queryQueue == s.queryQueue + [q] && s'.log == s.log.(enqueued := s.log.enqueued + [q])
      && s'.heap == s.heap.(live := s.heap.live + {p}, next := p + 2)
      && s'.slot.result.None? && s'.slot.freed == s.slot.freed + (if s.slot.result.Some? then [s.slot.result.value.id] else [])
      && s' == s.(queryQueue := s'.queryQueue, log := s'.log, heap := s'.heap,
                  slot := s.slot.(result := None, freed := s'.slot.freed))
  {
  }

  /** The same with two allocations: the statement, and the text for the callback. */
  lemma QueryArrayQueues(s: Conn, sql: string, resultId: int, vars: string, ret: int, address: nat)
    requires s.connected && resultId != -1
    ensures var s', p := NativeStep(s, MysqlQueryArray(sql, resultId, vars, ret), address), Fresh(s, address);
      var q := Query(Str(p, if sql == "" then "NULL" else sql), resultId,
                     Vars(Str(p + 1, if vars == "" then "NULL" else vars)));
      && s'.queryQueue == s.queryQueue + [q] && s'.log == s.log.(enqueued := s.log.enqueued + [q])
      && s'.heap == s.heap.(live := s.heap.live + {p, p + 1}, next := p + 2)
      && s'.slot.result.None? && s'.slot.freed == s.slot.freed + (if s.slot.result.Some? then [s.slot.result.value.id] else [])
      && s' == s.(queryQueue := s'.queryQueue, log := s'.log, heap := s'.heap,
                  slot := s.slot.(result := None, freed := s'.slot.freed))
  {
  }

  /** Without a result id the statement is executed at once: `state` holds its status, its text
      is deleted, the stored result is given back, and queryQueue is as it was. */
  lemma QueryRuns(s: Conn, sql: string, spareId: int, ret: int, address: nat)
    requires s.connected && HeapSound(s.heap)
    ensures var s', p := NativeStep(s, MysqlQuery(sql, -1, spareId, ret), address), Fresh(s, address);
      var q := Query(Str(p, if sql == "" then "NULL" else sql), -1, Id(spareId));
      && s'.log == s.log.(atOnce := s.log.atOnce + [q], scriptWrites := s.log.scriptWrites + 1)
      && s'.heap == s.heap.(next := p + 2, freed := s.heap.freed + [p])
      && s'.slot == s.slot.(state := ret, written := Executed(s.slot.execs, ret), execs := s.slot.execs + 1, result := None,
                            freed := s.slot.freed + (if s.slot.result.Some? then [s.slot.result.value.id] else []))
      && s' == s.(log := s'.log, heap := s'.heap, slot := s'.slot)
  {
    var p := Fresh(s, address);
    assert p !in s.heap.live;
    assert s.heap.live + {p} - {p} == s.heap.live;
  }

  /** The same; the text for the callback stays allocated. */
  lemma QueryArrayRuns(s: Conn, sql: string, vars: string, ret: int, address: nat)
    requires s.connected && HeapSound(s.heap)
    ensures var s', p := NativeStep(s, MysqlQueryArray(sql, -1, vars, ret), address), Fresh(s, address);
      var q := Query(Str(p, if sql == "" then "NULL" else sql), -1,
                     Vars(Str(p + 1, if vars == "" then "NULL" else vars)));
      && s'.log == s.log.(atOnce := s.log.atOnce + [q], scriptWrites := s.log.scriptWrites + 1)
      && s'.heap == s.heap.(live := s.heap.live + {p + 1}, next := p + 2, freed := s.heap.freed + [p])
      && s'.slot == s.slot.(state := ret, written := Executed(s.slot.execs, ret), execs := s.slot.execs + 1, result := None,
                            freed := s.slot.freed + (if s.slot.result.Some? then [s.slot.result.value.id] else []))
      && s' == s.(log := s'.log, heap := s'.heap, slot := s'.slot)
  {
    var p := Fresh(s, address);
    assert p !in s.heap.live;
    assert s.heap.live + {p, p + 1} - {p} == s.heap.live + {p + 1};
  }

  /** A connect that is accepted, on an initialised handle, connects; any other changes nothing. */
  lemma ConnectExactly(s: Conn, ok: bool, address: nat)
    ensures var s' := NativeStep(s, Connect(ok), address);
      && s' == s.(connected := s'.connected)
      && (s'.connected <==> s.connected || (s.mysql && ok))
  {
  }

  /** On a handle that is not connected no other call does anything. */
  lemma UnconnectedCallsDoNothing(s: Conn, n: NativeCall, address: nat)
    requires !s.connected && !n.Connect?
    ensures NativeStep(s, n, address) == s
  {
  }

  /** mysql_store_result touches the slot alone: it stores the table the library has if nothing
      is stored and the last status was 0, and otherwise changes nothing. */
  lemma StoreCall(s: Conn, got: Option<Table>, address: nat)
    requires s.connected && Sound(s.slot)
    ensures var s' := NativeStep(s, MysqlStoreResult(got), address);
      && s' == s.(slot := s'.slot)
      && (if s.slot.result.None? && s.slot.state == 0 && got.Some?
          then s'.slot == s.slot.(result := Some(ResultSet(s.slot.obtained, s.slot.execs - 1, got.value, 0)),
                                  obtained := s.slot.obtained + 1)
          else s'.slot == s.slot)
  {
  }

  /** mysql_free_result leaves no result, no row and no status. */
  lemma FreeCall(s: Conn, address: nat)
    requires s.connected
    ensures var s' := NativeStep(s, MysqlFreeResult, address);
      && s'.slot == s.slot.(state := -1, result := None, row := None, written := Freed,
                            freed := s.slot.freed + (if s.slot.result.Some? then [s.slot.result.value.id] else []))
      && s'.log == s.log.(scriptWrites := s.log.scriptWrites + 1)
      && s' == s.(slot := s'.slot, log := s'.log)
  {
  }

  /** Fetches and data_seek touch the slot alone. */
  lemma CursorCallsKeep(s: Conn, c: CursorCall, address: nat)
    requires s.connected
    ensures var s' := NativeStep(s, MysqlCursor(c), address);
      s' == s.(slot := Cursor(s.slot, c).0) && s'.slot.state == s.slot.state && s'.slot.freed == s.slot.freed
  {
  }

  /** Which calls write `state`: on a connected handle, exactly free_result and the two query
      calls without a result id. */
  lemma WritesExactly(s: Conn, n: NativeCall, address: nat)
    ensures NativeStep(s, n, address).log.scriptWrites != s.log.scriptWrites
      <==> s.connected && WritesState(Native(n, address))
    ensures WritesState(Native(n, address))
      <==> n.MysqlFreeResult? || ((n.MysqlQuery? || n.MysqlQueryArray?) && n.resultId == -1)
  {
    hide GetString, Release, StoreResult, Cursor, FreeResult, QueryNow;
  }

  /** Which calls put a query on the queue: on a connected handle, exactly the two query calls
      under a result id. */
  lemma EnqueuesExactly(s: Conn, n: NativeCall, address: nat)
    ensures NativeStep(s, n, address).queryQueue != s.queryQueue <==> s.connected && Enqueues(n)
    ensures Enqueues(n) <==> (n.MysqlQuery? || n.MysqlQueryArray?) && n.resultId != -1
  {
    hide GetString, Release, StoreResult, Cursor, FreeResult, QueryNow;
  }
}
