/** Rows as text: mysql_fetch_row joins the cells of a row in a C buffer of computed size
    (MySQL/Mysql.cpp), and the script function `split` takes such a text apart (mysql.inc). */
module RowText {
  import opened Base
  import opened Results

  const NUL: char := '\0'

  predicate NulFree(s: string) {
    NUL !in s
  }

  /** The C string that starts a piece of memory. */
  function CStr(s: string): (r: string)
    ensures '\0' !in r && r <= s && (|r| < |s| ==> s[|r|] == '\0')
  {
    if s == "" || s[0] == NUL then "" else [s[0]] + CStr(s[1..])
  }

  /** What strcat appends for a cell; a NULL cell is a null pointer.  Of a cell with a NUL byte
      in it, it is what stands before the first one. */
  function CellText(c: Option<string>): (r: string)
    ensures '\0' !in r
    ensures c.None? ==> r == "NULL"
    ensures c.Some? ==> r <= c.value && (|r| < |c.value| ==> c.value[|r|] == '\0')
    ensures c.Some? && '\0' !in c.value ==> r == c.value
  {
    match c
    case None => "NULL"
    case Some(s) => CStr(s)
  }

  function Texts(row: Row): (r: seq<string>)
    ensures |r| == |row|
    ensures forall i :: 0 <= i < |r| ==> r[i] == CellText(row[i])
  {
    seq(|row|, i requires 0 <= i < |row| => CellText(row[i]))
  }

  /** The plain meaning of joining. */
  function Join(parts: seq<string>, separator: string): string {
    if parts == [] then ""
    else if |parts| == 1 then parts[0]
    else parts[0] + separator + Join(parts[1..], separator)
  }

  // ---- sizes -----------------------------------------------------------------------------

  /** mysql_fetch_lengths: a NULL cell has length 0. */
  function Length(c: Option<string>): nat {
    match c
    case None => 0
    case Some(s) => |s|
  }

  function TotalLength(row: Row): nat {
    if row == [] then 0 else TotalLength(Init(row)) + Length(Last(row))
  }

  function NullCells(row: Row): nat {
    if row == [] then 0 else NullCells(Init(row)) + (if Last(row).None? then 1 else 0)
  }

  /** Bytes that lie behind a NUL within their cell, which strcat does not copy. */
  function Hidden(row: Row): nat {
    if row == [] then 0
    else Hidden(Init(row)) + (if Last(row).None? then 0 else |Last(row).value| - |CStr(Last(row).value)|)
  }

  /** The size of the buffer. */
  function BufferSize(row: Row): nat {
    |row| + 1 + TotalLength(row)
  }

  /** The text and its terminating NUL fit in the buffer. */
  predicate Fits(row: Row, splitter: string) {
    |Join(Texts(row), splitter)| < BufferSize(row)
  }

  lemma {:induction false} JoinSnoc(parts: seq<string>, last: string, separator: string)
    requires parts != []
    ensures Join(parts + [last], separator) == Join(parts, separator) + separator + last
    decreases |parts|
  {
    if |parts| == 1 {
      assert (parts + [last])[1..] == [last];
    } else {
      JoinSnoc(parts[1..], last, separator);
      assert (parts + [last])[1..] == parts[1..] + [last];
    }
  }

  lemma TextsSnoc(row: Row)
    requires row != []
    ensures Texts(row) == Texts(Init(row)) + [CellText(Last(row))]
  {
  }

  lemma {:induction false} JoinedLength(row: Row, splitter: string)
    requires row != []
    ensures |Join(Texts(row), splitter)|
      == TotalLength(row) - Hidden(row) + 4 * NullCells(row) + (|row| - 1) * |splitter|
    decreases |row|
  {
    TextsSnoc(row);
    if |row| == 1 {
      assert Init(row) == [] && Texts(Init(row)) == [];
    } else {
      JoinedLength(Init(row), splitter);
      JoinSnoc(Texts(Init(row)), CellText(Last(row)), splitter);
      MulStep(|row|, |splitter|);
      hide Join, Texts;
    }
  }

  lemma MulStep(n: nat, k: nat)
    ensures (n - 1) * k == (n - 2) * k + k
  {
  }

  /** Exactly when the computed buffer is large enough. */
  lemma FitsExactly(row: Row, splitter: string)
    requires row != []
    ensures Fits(row, splitter) <==> 4 * NullCells(row) + (|row| - 1) * |splitter| <= |row| + Hidden(row)
  {
    JoinedLength(row, splitter);
  }

  lemma {:induction false} NothingHidden(row: Row)
    requires forall i :: 0 <= i < |row| && row[i].Some? ==> NulFree(row[i].value)
    ensures Hidden(row) == 0
    decreases |row|
  {
    if row == [] {
    } else {
      assert row[|row| - 1] == Last(row);
      NothingHidden(Init(row));
    }
  }

  lemma {:induction false} NoNulls(row: Row)
    ensures NullCells(row) == 0 <==> forall i :: 0 <= i < |row| ==> row[i].Some?
    decreases |row|
  {
    if row == [] {
    } else {
      NoNulls(Init(row));
      assert row[|row| - 1] == Last(row);
      assert forall i :: 0 <= i < |row| - 1 ==> Init(row)[i] == row[i];
    }
  }

  /** With a splitter of one character, as the default "|", and cells without NUL bytes, the
      buffer suffices exactly for the rows without a NULL cell: one NULL overruns it. */
  lemma DefaultSplitterFits(row: Row, splitter: string)
    requires row != [] && |splitter| == 1
    requires forall i :: 0 <= i < |row| && row[i].Some? ==> NulFree(row[i].value)
    ensures Fits(row, splitter) <==> forall i :: 0 <= i < |row| ==> row[i].Some?
  {
    FitsExactly(row, splitter);
    NothingHidden(row);
    NoNulls(row);
  }

  /** The smallest overrun: one NULL cell, five bytes in a buffer of two. */
  lemma OneNullOverruns()
    ensures !Fits([None], "|")
  {
    var row: Row := [None];
    FitsExactly(row, "|");
    assert NullCells(row) == 1 && Hidden(row) == 0;
  }

  // ---- the buffer --------------------------------------------------------------------------

  /** A text followed by NULs up to the given size. */
  function Padded(text: string, size: nat): (r: string)
    requires |text| <= size
    ensures |r| == size
  {
    text + seq(size - |text|, _ => NUL)
  }

  /** strlen */
  method Strlen(buffer: array<char>, ghost text: string) returns (end: nat)
    requires NulFree(text) && |text| < buffer.Length && buffer[..] == Padded(text, buffer.Length)
    ensures end == |text|
  {
    end := 0;
    assert buffer[|text|] == buffer[..][|text|] == NUL;
    assert forall i :: 0 <= i < |text| ==> buffer[i] == buffer[..][i] == text[i];
    while buffer[end] != NUL
      invariant 0 <= end <= |text|
      decreases |text| - end
    {
      end := end + 1;
    }
  }

  /** strcat.  Writing past the end of the buffer is undefined; here it is refused. */
  method Strcat(buffer: array<char>, source: string, ghost text: string) returns (ok: bool)
    requires NulFree(text) && NulFree(source)
    requires |text| < buffer.Length && buffer[..] == Padded(text, buffer.Length)
    modifies buffer
    ensures ok <==> |text + source| < buffer.Length
    ensures buffer[..] == Padded(if ok then text + source else text, buffer.Length)
  {
    var end := Strlen(buffer, text);
    if end + |source| >= buffer.Length { return false; }
    var i := 0;
    while i < |source|
      invariant 0 <= i <= |source|
      invariant buffer[..] == Padded(text + source[..i], buffer.Length)
    {
      ghost var before := buffer[..];
      buffer[end + i] := source[i];
      assert buffer[..] == before[end + i := source[i]];
      assert source[..i + 1] == source[..i] + [source[i]];
      i := i + 1;
    }
    assert source[..i] == source;
    return true;
  }

  /** What the buffer holds after `i` rounds of the printing loop. */
  function Printed(row: Row, splitter: string, i: nat): string
    requires i <= |row|
  {
    if i == 0 then "" else Join(Texts(row)[..i], splitter) + (if i == |row| then "" else splitter)
  }

  lemma PrintedStep(row: Row, splitter: string, i: nat)
    requires i < |row|
    ensures Printed(row, splitter, i + 1)
      == Printed(row, splitter, i) + CellText(row[i]) + (if i + 1 < |row| then splitter else "")
    ensures |Printed(row, splitter, i + 1)| <= |Join(Texts(row), splitter)|
  {
    var parts := Texts(row);
    assert parts[..i + 1] == parts[..i] + [parts[i]];
    if i > 0 { JoinSnoc(parts[..i], parts[i], splitter); }
    PrefixShorter(parts, splitter, i);
  }

  lemma PrintedAll(row: Row, splitter: string)
    requires row != []
    ensures Printed(row, splitter, |row|) == Join(Texts(row), splitter)
  {
    assert Texts(row)[..|row|] == Texts(row);
  }

  /** The text of the first parts, with the separator if more follow, is not longer than the
      whole. */
  lemma {:induction false} PrefixShorter(parts: seq<string>, separator: string, i: nat)
    requires i < |parts|
    ensures |Join(parts[..i + 1], separator)| + (if i + 1 < |parts| then |separator| else 0) <= |Join(parts, separator)|
    decreases |parts| - i
  {
    if i + 1 == |parts| {
      assert parts[..i + 1] == parts;
    } else {
      PrefixShorter(parts, separator, i + 1);
      JoinSnoc(parts[..i + 1], parts[i + 1], separator);
      assert parts[..i + 2] == parts[..i + 1] + [parts[i + 1]];
    }
  }

  /** The sizing loop of fetch_row. */
  method ComputeSize(row: Row) returns (bufflen: nat)
    ensures bufflen == BufferSize(row)
  {
    bufflen := |row| + 1;
    for i := 0 to |row|
      invariant bufflen == |row| + 1 + TotalLength(row[..i])
    {
      bufflen := bufflen + Length(row[i]);
      assert Init(row[..i + 1]) == row[..i];
    }
    assert row[..|row|] == row;
  }

  /** The part of fetch_row that prints a row.  None: a strcat would have run past the end. */
  method PrintRow(row: Row, splitter: string) returns (text: Option<string>)
    requires row != [] && NulFree(splitter)
    ensures text == if Fits(row, splitter) then Some(Join(Texts(row), splitter)) else None
  {
    hide Join, Texts, Printed, Padded, CellText;
    var bufflen := ComputeSize(row);
    var buffer := new char[bufflen](_ => NUL);
    ghost var written := "";
    assert buffer[..] == Padded("", bufflen) && written == Printed(row, splitter, 0) by { ZeroFilled(bufflen, row, splitter); }
    var i := 0;
    while i < |row|
      invariant 0 <= i <= |row| && bufflen == buffer.Length == BufferSize(row)
      invariant NulFree(written) && |written| < bufflen
      invariant buffer[..] == Padded(written, bufflen)
      invariant written == Printed(row, splitter, i)
    {
      PrintedStep(row, splitter, i);
      var ok := Strcat(buffer, CellText(row[i]), written);
      if !ok { return None; }
      written := written + CellText(row[i]);
      if i != |row| - 1 {
        ok := Strcat(buffer, splitter, written);
        if !ok { return None; }
        written := written + splitter;
      }
      i := i + 1;
    }
    PrintedAll(row, splitter);
    var length := Strlen(buffer, written);
    PaddedStart(written, bufflen);
    assert buffer[..length] == buffer[..][..length];
    buffer[length] := NUL;
    text := Some(buffer[..length]);
  }

  lemma ZeroFilled(size: nat, row: Row, splitter: string)
    ensures Padded("", size) == seq(size, _ => NUL) && Printed(row, splitter, 0) == ""
  {
  }

  lemma PaddedStart(text: string, size: nat)
    requires |text| <= size
    ensures Padded(text, size)[..|text|] == text
  {
  }

  // ---- split ---------------------------------------------------------------------------------

  /** The pieces of a text between delimiters. */
  function Pieces(s: string, delimiter: char): (r: seq<string>)
    ensures r != []
  {
    if s == "" then [""]
    else
      var rest := Pieces(s[1..], delimiter);
      if s[0] == delimiter then [""] + rest
      else [[s[0]] + rest[0]] + rest[1..]
  }

  function CountOf(s: string, c: char): nat {
    if s == "" then 0 else (if s[0] == c then 1 else 0) + CountOf(s[1..], c)
  }

  lemma {:induction false} PieceCount(s: string, delimiter: char)
    ensures |Pieces(s, delimiter)| == CountOf(s, delimiter) + 1
  {
    if s == "" {
    } else {
      PieceCount(s[1..], delimiter);
    }
  }

  lemma {:induction false} PiecesHeadTail(head: string, s: string, delimiter: char)
    requires delimiter !in head
    ensures Pieces(head + [delimiter] + s, delimiter) == [head] + Pieces(s, delimiter)
    ensures Pieces(head, delimiter) == [head]
    decreases |head|
  {
    if head == "" {
      assert (head + [delimiter] + s)[1..] == s;
    } else {
      PiecesHeadTail(head[1..], s, delimiter);
      assert (head + [delimiter] + s)[1..] == head[1..] + [delimiter] + s;
      assert [head[0]] + head[1..] == head;
      assert ([head[1..]] + Pieces(s, delimiter))[1..] == Pieces(s, delimiter);
    }
  }

  /** Taking apart what was joined gives back the parts. */
  lemma {:induction false} PiecesOfJoin(parts: seq<string>, delimiter: char)
    requires parts != [] && forall i :: 0 <= i < |parts| ==> delimiter !in parts[i]
    ensures Pieces(Join(parts, [delimiter]), delimiter) == parts
    decreases |parts|
  {
    if |parts| == 1 {
      PiecesHeadTail(parts[0], "", delimiter);
    } else {
      PiecesHeadTail(parts[0], Join(parts[1..], [delimiter]), delimiter);
      PiecesOfJoin(parts[1..], delimiter);
    }
  }

  /** Joining what was taken apart gives back the text. */
  lemma {:induction false} JoinOfPieces(s: string, delimiter: char)
    ensures Join(Pieces(s, delimiter), [delimiter]) == s
    decreases |s|
  {
    if s == "" {
    } else {
      JoinOfPieces(s[1..], delimiter);
      var rest := Pieces(s[1..], delimiter);
      if s[0] == delimiter {
        assert ([""] + rest)[1..] == rest;
        assert s == [delimiter] + s[1..];
      } else {
        var parts := [[s[0]] + rest[0]] + rest[1..];
        assert parts[1..] == rest[1..];
        assert s == [s[0]] + s[1..];
      }
    }
  }

  const MAX_PIECE: nat := 128

  /** strmid with a room of MAX_PIECE characters, the terminator included. */
  function Strmid(s: string, from: nat, to: nat): (r: string)
    requires from <= to <= |s|
    ensures |r| < 128 && r <= s[from..to] && (to - from < 128 ==> r == s[from..to])
  {
    if to - from < MAX_PIECE then s[from..to] else s[from..from + MAX_PIECE - 1]
  }

  /** A piece as it arrives: whole if it has fewer than 128 characters. */
  predicate Arrived(got: string, piece: string) {
    got <= piece && |got| < 128 && (|piece| < 128 ==> got == piece)
  }

  lemma ArrivedAre(got: seq<string>, pieces: seq<string>, n: nat)
    requires n <= |got| && n <= |pieces| && forall k :: 0 <= k < n ==> Arrived(got[k], pieces[k])
    ensures forall k :: 0 <= k < n ==>
      got[k] <= pieces[k] && |got[k]| < 128 && (|pieces[k]| < 128 ==> got[k] == pieces[k])
  {
  }

  lemma StrmidArrives(s: string, from: nat, to: nat)
    requires from <= to <= |s|
    ensures Arrived(Strmid(s, from, to), s[from..to])
  {
  }

  /** The script function split.  The script machine stops it at the first piece for which
      `strdest` has no row; then `ok` is false. */
  method Split(strsrc: string, strdest: array<string>, delimiter: char) returns (ok: bool)
    requires NulFree(strsrc)
    modifies strdest
    ensures ok <==> CountOf(strsrc, delimiter) < strdest.Length
    ensures var pieces := Pieces(strsrc, delimiter);
      forall k :: 0 <= k < |pieces| && k < strdest.Length ==>
        strdest[k] <= pieces[k] && |strdest[k]| < 128 && (|pieces[k]| < 128 ==> strdest[k] == pieces[k])
    ensures forall k :: CountOf(strsrc, delimiter) < k < strdest.Length ==> strdest[k] == old(strdest[k])
  {
    hide Arrived, Pieces, Strmid, CountOf;
    var i, li, aNum := 0, 0, 0;
    var srclen := |strsrc|;
    ghost var pieces := Pieces(strsrc, delimiter);
    PieceCount(strsrc, delimiter);
    assert strsrc[0..] == strsrc;
    while i <= srclen
      invariant 0 <= li <= i <= srclen + 1
      invariant 0 <= aNum <= |pieces| && aNum <= strdest.Length
      invariant forall k :: 0 <= k < aNum ==> Arrived(strdest[k], pieces[k])
      invariant forall k :: aNum <= k < strdest.Length ==> strdest[k] == old(strdest[k])
      invariant if i <= srclen then li <= srclen && delimiter !in strsrc[li..i] && pieces[aNum..] == Pieces(strsrc[li..], delimiter)
                else aNum == |pieces|
    {
      if i == srclen || strsrc[i] == delimiter {
        NextPiece(strsrc, li, i, delimiter);
        assert pieces[aNum] == pieces[aNum..][0];
        if aNum >= strdest.Length {
          ArrivedAre(strdest[..], pieces, aNum);
          return false;
        }
        strdest[aNum] := Strmid(strsrc, li, i);
        StrmidArrives(strsrc, li, i);
        assert pieces[aNum + 1..] == pieces[aNum..][1..];
        li := i + 1;
        aNum := aNum + 1;
      } else {
        assert strsrc[li..i + 1] == strsrc[li..i] + [strsrc[i]];
      }
      i := i + 1;
    }
    ok := true;
    assert forall k :: 0 <= k < |pieces| ==> Arrived(strdest[k], pieces[k]);
    ArrivedAre(strdest[..], pieces, |pieces|);
  }

  lemma NextPiece(s: string, from: nat, to: nat, delimiter: char)
    requires from <= to <= |s| && delimiter !in s[from..to]
    requires to < |s| ==> s[to] == delimiter
    ensures Pieces(s[from..], delimiter)
      == [s[from..to]] + (if to == |s| then [] else Pieces(s[to + 1..], delimiter))
  {
    if to == |s| {
      assert s[from..] == s[from..to];
      PiecesHeadTail(s[from..to], "", delimiter);
    } else {
      assert s[from..] == s[from..to] + [delimiter] + s[to + 1..];
      PiecesHeadTail(s[from..to], s[to + 1..], delimiter);
    }
  }

  /** Printing a row and splitting the text gives back its cells, a NULL cell as "NULL", for
      cells that do not contain the delimiter. */
  lemma PrintThenSplit(row: Row, delimiter: char)
    requires row != []
    requires forall i :: 0 <= i < |row| ==> delimiter !in CellText(row[i])
    ensures var pieces := Pieces(Join(Texts(row), [delimiter]), delimiter);
      && |pieces| == |row|
      && forall i :: 0 <= i < |row| ==>
           && (row[i].None? ==> pieces[i] == "NULL")
           && (row[i].Some? && '\0' !in row[i].value ==> pieces[i] == row[i].value)
    ensures Pieces(Join(Texts(row), [delimiter]), delimiter) == Texts(row)
  {
    PiecesOfJoin(Texts(row), delimiter);
  }

  /** The same through the code on both sides. */
  method RoundTrip(row: Row, delimiter: char, strdest: array<string>) returns (ok: bool)
    requires row != [] && delimiter != NUL && strdest.Length >= |row|
    requires forall i :: 0 <= i < |row| ==> delimiter !in CellText(row[i]) && |CellText(row[i])| < 128
    modifies strdest
    ensures ok <==> Fits(row, [delimiter])
    ensures ok ==> forall i :: 0 <= i < |row| ==>
      && (row[i].None? ==> strdest[i] == "NULL")
      && (row[i].Some? && '\0' !in row[i].value ==> strdest[i] == row[i].value)
    ensures ok ==> strdest[..|row|] == Texts(row)
  {
    var text := PrintRow(row, [delimiter]);
    ok := text.Some?;
    if ok {
      JoinNulFree(Texts(row), [delimiter]);
      PrintThenSplit(row, delimiter);
      PieceCount(text.value, delimiter);
      var enough := Split(text.value, strdest, delimiter);
    }
  }

  lemma {:induction false} JoinNulFree(parts: seq<string>, separator: string)
    requires NulFree(separator) && forall i :: 0 <= i < |parts| ==> NulFree(parts[i])
    ensures NulFree(Join(parts, separator))
    decreases |parts|
  {
    if |parts| <= 1 {
    } else {
      JoinNulFree(parts[1..], separator);
    }
  }
}
