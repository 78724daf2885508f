/** What the result slot keeps over any mix of calls, and how its cursor reads a table. */
module ResultLaws {
  import opened Base
  import opened Results

  // ---- conservation ----------------------------------------------------------------------

  function Count(n: nat): (r: seq<nat>)
    ensures |r| == n
  {
    seq(n, i requires 0 <= i < n => i)
  }

  /** The status `state` must hold, from who wrote it last. */
  function StatusOf(w: Write): int {
    match w
    case Unset => -1
    case Executed(_, ret) => ret
    case Freed => -1
  }

  /** Result sets are given back once each, in the order they were obtained, and the only one
      not yet given back is the one in `result`. */
  predicate Conserved(s: Slot) {
    && s.freed == Count(|s.freed|)
    && s.obtained == |s.freed| + (if s.result.Some? then 1 else 0)
    && (s.result.Some? ==> s.result.value.id == |s.freed|)
  }

  predicate Sound(s: Slot) {
    && Conserved(s)
    && s.state == StatusOf(s.written)
    && (s.written.Executed? ==> s.written.stmt < s.execs)
    && (s.result.Some? ==> s.result.value.pos <= |s.result.value.table.rows| && s.result.value.source < s.execs)
    && (s.row.Some? ==> s.row.value.owner < s.obtained)
    && (s.row.Some? && s.result.Some? && s.row.value.owner == s.result.value.id
        ==> s.row.value.index < |s.result.value.table.rows|)
  }

  lemma ReleaseSound(s: Slot)
    requires Sound(s)
    ensures Sound(Release(s)) && Release(s).result.None? && |Release(s).freed| == s.obtained
  {
    if s.result.Some? {
      assert Count(|s.freed|) + [|s.freed|] == Count(|s.freed| + 1);
    }
  }

  lemma QueryNowSound(s: Slot, ret: int)
    requires Sound(s)
    ensures Sound(QueryNow(s, ret)) && QueryNow(s, ret).result.None?
  {
    ReleaseSound(s);
  }

  lemma FreeSound(s: Slot)
    requires Sound(s)
    ensures Sound(FreeResult(s)) && FreeResult(s).result.None? && FreeResult(s).row.None?
    ensures Sound(Close(s)) && |Close(s).freed| == Close(s).obtained == s.obtained
  {
    ReleaseSound(s);
  }

  /** mysql_store_result succeeds exactly when nothing is stored, the last write to `state`
      recorded a successful execution, and the library yields a table; it then holds a new
      result set, of the statement executed last, with the cursor on the first row. */
  lemma StoreExactly(s: Slot, got: Option<Table>)
    requires Sound(s)
    ensures Sound(StoreResult(s, got).0)
    ensures var (s', reply) := StoreResult(s, got);
      && (reply == Stored <==> s.result.None? && s.written.Executed? && s.written.ret == 0 && got.Some?)
      && (reply == Stored ==>
            && s'.result == Some(ResultSet(s.obtained, s.execs - 1, got.value, 0))
            && s.obtained !in s.freed && s'.obtained == s.obtained + 1)
      && (reply != Stored ==> s' == s)
  {
  }

  lemma CursorSound(s: Slot, c: CursorCall)
    requires Sound(s)
    ensures Sound(Cursor(s, c).0)
  {
  }

  // ---- the cursor as a tape --------------------------------------------------------------

  /** The simple reading of a stored table: the rows still to come, and the row in hand. */
  datatype Tape = Tape(all: seq<Row>, rest: seq<Row>, held: Option<Row>)

  function PlayTape(t: Tape, c: CursorCall): (Tape, Sight) {
    if c.DataSeek? then
      (t.(rest := if 0 <= c.k < |t.all| then t.all[c.k..] else []), Sought)
    else
      var t' := if Advances(c) || t.held.None?
                then (if t.rest == [] then t.(held := None)
                      else t.(held := Some(t.rest[0]), rest := t.rest[1..]))
                else t;
      (t', if t'.held.None? then NoRow else Seen(t'.held.value))
  }

  /** A result is stored and `row` is null or one of its rows. */
  predicate InHand(s: Slot) {
    s.result.Some? && (s.row.Some? ==> s.row.value.owner == s.result.value.id)
  }

  function TapeOf(s: Slot): Tape
    requires Sound(s) && InHand(s)
  {
    var t := s.result.value.table;
    Tape(t.rows, t.rows[s.result.value.pos..],
         if s.row.None? then None else Some(t.rows[s.row.value.index]))
  }

  lemma CursorPlays(s: Slot, c: CursorCall)
    requires Sound(s) && InHand(s)
    ensures Sound(Cursor(s, c).0) && InHand(Cursor(s, c).0)
    ensures PlayTape(TapeOf(s), c) == (TapeOf(Cursor(s, c).0), Cursor(s, c).1)
  {
    var rows, pos := s.result.value.table.rows, s.result.value.pos;
    assert rows[|rows|..] == [];
    if pos < |rows| { assert rows[pos..][1..] == rows[pos + 1..]; }
  }

  function Sights(s: Slot, calls: seq<CursorCall>): (r: seq<Sight>)
    ensures |r| == |calls|
    decreases |calls|
  {
    if calls == [] then [] else
      var (s', sight) := Cursor(s, calls[0]);
      [sight] + Sights(s', calls[1..])
  }

  function TapeSights(t: Tape, calls: seq<CursorCall>): (r: seq<Sight>)
    ensures |r| == |calls|
    decreases |calls|
  {
    if calls == [] then [] else
      var (t', sight) := PlayTape(t, calls[0]);
      [sight] + TapeSights(t', calls[1..])
  }

  /** Pointer, library cursor and result memory together refine the tape. */
  lemma {:induction false} CursorRefinesTape(s: Slot, calls: seq<CursorCall>)
    requires Sound(s) && InHand(s)
    ensures Sights(s, calls) == TapeSights(TapeOf(s), calls)
    decreases |calls|
  {
    if calls == [] {
    } else {
      CursorPlays(s, calls[0]);
      CursorRefinesTape(Cursor(s, calls[0]).0, calls[1..]);
    }
  }

  function AdvancesIn(calls: seq<CursorCall>): nat {
    if calls == [] then 0
    else (if Advances(calls[0]) then 1 else 0) + AdvancesIn(calls[1..])
  }

  /** The sight after `moves` steps along the rows `rest`, starting with `held`. */
  function SightAt(held: Option<Row>, rest: seq<Row>, moves: nat): Sight {
    if moves > |rest| then NoRow
    else if moves > 0 then Seen(rest[moves - 1])
    else if held.Some? then Seen(held.value) else NoRow
  }

  lemma {:induction false} TapeReads(t: Tape, calls: seq<CursorCall>, j: nat)
    requires j < |calls|
    requires forall i :: 0 <= i < |calls| ==> !calls[i].DataSeek?
    ensures var first := if t.held.None? && !Advances(calls[0]) then 1 else 0;
      TapeSights(t, calls)[j] == SightAt(t.held, t.rest, first + AdvancesIn(calls[..j + 1]))
    decreases |calls|
  {
    var t' := PlayTape(t, calls[0]).0;
    assert calls[..j + 1][1..] == calls[1..][..j];
    if j == 0 {
      assert calls[..1][1..] == [];
    } else {
      TapeReads(t', calls[1..], j - 1);
      assert calls[1..][..j] == calls[1..][..j - 1 + 1];
      var moves := AdvancesIn(calls[1..][..j]);
      if t'.held.None? && !Advances(calls[1]) {
        assert t.rest == [];
        assert calls[1..][..j][1..] == calls[2..][..j - 1];
      }
    }
  }

  /** Any mix of fetches after a store.  Each of fetch_row, fetch_row_data, fetch_int,
      fetch_float and fetch_string reads the next row; fetch_field and fetch_field_num read
      the row in hand, and take the next one only if there is none; past the last row every
      fetch finds nothing, for good. */
  lemma FetchesReadInOrder(s: Slot, calls: seq<CursorCall>, j: nat)
    requires Sound(s) && InHand(s) && j < |calls|
    requires forall i :: 0 <= i < |calls| ==> !calls[i].DataSeek?
    ensures var t := TapeOf(s);
      var first := if t.held.None? && !Advances(calls[0]) then 1 else 0;
      Sights(s, calls)[j] == SightAt(t.held, t.rest, first + AdvancesIn(calls[..j + 1]))
  {
    CursorRefinesTape(s, calls);
    TapeReads(TapeOf(s), calls, j);
  }

  lemma {:induction false} AllAdvance(calls: seq<CursorCall>)
    requires forall i :: 0 <= i < |calls| ==> Advances(calls[i])
    ensures AdvancesIn(calls) == |calls|
  {
    if calls == [] {
    } else {
      AllAdvance(calls[1..]);
    }
  }

  lemma SeekMoves(s: Slot, k: int)
    requires Sound(s) && InHand(s)
    ensures var s' := Cursor(s, DataSeek(k)).0;
      var rows := s.result.value.table.rows;
      var from := if 0 <= k < |rows| then k else |rows|;
      Sound(s') && InHand(s') && TapeOf(s').rest == rows[from..]
  {
  }

  lemma SightsAfter(s: Slot, c: CursorCall, calls: seq<CursorCall>, j: nat)
    requires j < |calls|
    ensures Sights(s, [c] + calls)[j + 1] == Sights(Cursor(s, c).0, calls)[j]
  {
    hide Cursor;
    assert ([c] + calls)[1..] == calls;
  }

  lemma AdvancingReads(s: Slot, calls: seq<CursorCall>, j: nat)
    requires Sound(s) && InHand(s) && j < |calls|
    requires forall i :: 0 <= i < |calls| ==> Advances(calls[i])
    ensures var rest := TapeOf(s).rest;
      Sights(s, calls)[j] == if j < |rest| then Seen(rest[j]) else NoRow
  {
    hide Sights, Cursor, Sound, InHand;
    FetchesReadInOrder(s, calls, j);
    AllAdvance(calls[..j + 1]);
  }

  /** data_seek(k), then nothing but advancing fetches: rows k, k+1, ... once each, then none.
      A fetch-until-null loop therefore stops after the rows that remain. */
  lemma SeekThenFetch(s: Slot, k: int, calls: seq<CursorCall>, j: nat)
    requires Sound(s) && InHand(s) && j < |calls|
    requires forall i :: 0 <= i < |calls| ==> Advances(calls[i])
    ensures var rows := s.result.value.table.rows;
      var from := if 0 <= k < |rows| then k else |rows|;
      Sights(s, [DataSeek(k)] + calls)[j + 1]
        == if from + j < |rows| then Seen(rows[from + j]) else NoRow
  {
    var s' := Cursor(s, DataSeek(k)).0;
    hide Sights, Cursor, Sound, InHand;
    SeekMoves(s, k);
    SightsAfter(s, DataSeek(k), calls, j);
    AdvancingReads(s', calls, j);
  }
}
