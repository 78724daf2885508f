/** The result slot of a connection: `state`, `result` and `row` of the class MySQL, and the
    natives that move them (MySQL/Mysql.cpp).  The client library is seen through three
    promises only: an execution returns some status, storing a result yields nothing or a
    table, and a stored table is read through a cursor. */
module Results {
  import opened Base

  type Row = seq<Option<string>>

  /** What mysql_store_result may hand over: a table whose rows are as wide as its header. */
  datatype RawTable = RawTable(names: seq<string>, rows: seq<Row>) {
    predicate Rectangular() {
      |names| > 0 && forall i :: 0 <= i < |rows| ==> |rows[i]| == |names|
    }
  }

  type Table = t: RawTable | t.Rectangular() witness RawTable(["c"], [])

  /** A stored result set: which one it is, which executed statement it belongs to, its
      contents and the library's cursor. */
  datatype ResultSet = ResultSet(id: nat, source: nat, table: Table, pos: nat)

  /** `row` points into the memory of the result set it was fetched from. */
  datatype RowRef = RowRef(owner: nat, index: nat)

  /** Who wrote `state` last, and for an execution which status it stored. */
  datatype Write = Unset | Executed(stmt: nat, ret: int) | Freed

  /** The fields `state`, `result` and `row`, followed by what is remembered about the run:
      statements executed on this connection, result sets obtained, the ones given back in
      order, and the last write to `state`. */
  datatype Slot = Slot(
    state: int, result: Option<ResultSet>, row: Option<RowRef>,
    execs: nat, obtained: nat, freed: seq<nat>, written: Write)

  const FRESH: Slot := Slot(-1, None, None, 0, 0, [], Unset)

  /** One statement reaches the server. */
  function Execute(s: Slot): Slot {
    s.(execs := s.execs + 1)
  }

  /** The status of statement `stmt` is assigned to `state`. */
  function Record(s: Slot, stmt: nat, ret: int): Slot {
    s.(state := ret, written := Executed(stmt, ret))
  }

  /** The guarded mysql_free_result at the head of query, query_array, free_result, close. */
  function Release(s: Slot): Slot {
    match s.result
    case None => s
    case Some(r) => s.(result := None, freed := s.freed + [r.id])
  }

  function FreeResult(s: Slot): Slot {
    Release(s).(state := -1, written := Freed, row := None)
  }

  function Close(s: Slot): Slot {
    Release(s).(row := None)
  }

  /** The unqueued half of query and query_array. */
  function QueryNow(s: Slot, ret: int): Slot {
    Record(Execute(Release(s)), s.execs, ret)
  }

  datatype StoreReply = Stored | AlreadyStored | NoQuery | NothingToStore

  function StoreResult(s: Slot, got: Option<Table>): (Slot, StoreReply) {
    if s.result.Some? then (s, AlreadyStored)
    else if s.state != 0 then (s, NoQuery)
    else match got
      case None => (s, NothingToStore)
      case Some(t) =>
        var source := if s.execs == 0 then 0 else s.execs - 1;
        (s.(result := Some(ResultSet(s.obtained, source, t, 0)), obtained := s.obtained + 1), Stored)
  }

  // ---- the cursor ----------------------------------------------------------------------

  datatype CursorCall =
    | FetchRow | FetchRowData | FetchInt | FetchFloat | FetchString
    | FetchField(name: string) | FetchFieldNum(num: int)
    | DataSeek(k: int)

  /** What a cursor call had in its hands when it produced its reply: nothing stored, no row,
      a row of the stored result, a row of a result already given back, or (data_seek) no
      need of a row. */
  datatype Sight = NoResult | NoRow | Seen(row: Row) | Stale | Sought

  predicate Advances(c: CursorCall) {
    c.FetchRow? || c.FetchRowData? || c.FetchInt? || c.FetchFloat? || c.FetchString?
  }

  /** row = mysql_fetch_row( result ) */
  function Advance(s: Slot): Slot
    requires s.result.Some?
  {
    var r := s.result.value;
    if r.pos < |r.table.rows|
    then s.(row := Some(RowRef(r.id, r.pos)), result := Some(r.(pos := r.pos + 1)))
    else s.(row := None)
  }

  function Look(s: Slot): Sight
    requires s.result.Some?
  {
    match s.row
    case None => NoRow
    case Some(p) =>
      if p.owner == s.result.value.id && p.index < |s.result.value.table.rows|
      then Seen(s.result.value.table.rows[p.index]) else Stale
  }

  function Cursor(s: Slot, c: CursorCall): (Slot, Sight) {
    if s.result.None? then (s, NoResult)
    else if c.DataSeek? then
      var n := |s.result.value.table.rows|;
      (s.(result := Some(s.result.value.(pos := if 0 <= c.k < n then c.k else n))), Sought)
    else
      var s' := if Advances(c) || s.row.None? then Advance(s) else s;
      (s', Look(s'))
  }
}
