/** Python's csv.reader in its default dialect over io.StringIO, and the printing of tables
    that section 2 of RFC 4180 describes. */
module Csv {
  import opened Common

  type Row = seq<string>

  datatype Mode = StartRecord | StartField | InField | InQuoted | QuoteInQuoted | EatNewline

  /** The reader between two characters: the field and the row under way and the rows finished. */
  datatype Reader = Reader(mode: Mode, field: string, row: Row, rows: seq<Row>)

  predicate IsNewline(c: char) {
    c == '\r' || c == '\n'
  }

  function SaveField(r: Reader, mode: Mode): Reader {
    r.(mode := mode, field := "", row := r.row + [r.field])
  }

  function AddChar(r: Reader, c: char, mode: Mode): Reader {
    r.(mode := mode, field := r.field + [c])
  }

  function EmitRow(r: Reader): Reader {
    r.(mode := StartRecord, row := [], rows := r.rows + [r.row])
  }

  /** One character; None is csv.Error, raised for anything but a newline after a bare CR. */
  function Feed(r: Reader, c: char): Option<Reader> {
    match r.mode
    case StartRecord =>
      if IsNewline(c) then Some(r.(mode := EatNewline)) else Some(FeedStartField(r, c))
    case StartField =>
      Some(FeedStartField(r, c))
    case InField =>
      if IsNewline(c) then Some(SaveField(r, EatNewline))
      else if c == ',' then Some(SaveField(r, StartField))
      else Some(AddChar(r, c, InField))
    case InQuoted =>
      if c == '"' then Some(r.(mode := QuoteInQuoted)) else Some(AddChar(r, c, InQuoted))
    case QuoteInQuoted =>
      if c == '"' then Some(AddChar(r, c, InQuoted))
      else if c == ',' then Some(SaveField(r, StartField))
      else if IsNewline(c) then Some(SaveField(r, EatNewline))
      else Some(AddChar(r, c, InField))
    case EatNewline =>
      if IsNewline(c) then Some(r) else None
  }

  function FeedStartField(r: Reader, c: char): Reader {
    if IsNewline(c) then SaveField(r, EatNewline)
    else if c == '"' then r.(mode := InQuoted)
    else if c == ',' then SaveField(r, StartField)
    else AddChar(r, c, InField)
  }

  /** The end of a line handed over by StringIO; a quoted field simply continues on the next line. */
  function FeedEndOfLine(r: Reader): Reader {
    match r.mode
    case StartRecord | EatNewline => EmitRow(r)
    case StartField | InField | QuoteInQuoted => EmitRow(SaveField(r, StartRecord))
    case InQuoted => r
  }

  /** StringIO splits at LF only, and each line keeps its LF. */
  function Step(r: Reader, c: char): Option<Reader> {
    match Feed(r, c)
    case None => None
    case Some(fed) => Some(if c == '\n' then FeedEndOfLine(fed) else fed)
  }

  function ReadFrom(r: Reader, text: string): Option<Reader>
    decreases |text|
  {
    if text == [] then
      Some(r)
    else
      match Step(r, text[0])
      case None => None
      case Some(next) => ReadFrom(next, text[1..])
  }

  const FRESH: Reader := Reader(StartRecord, "", [], [])

  /** All rows of `csv.reader(io.StringIO(text))`, or None where iterating raises csv.Error. */
  function ReadTable(text: string): Option<seq<Row>> {
    match ReadFrom(FRESH, text)
    case None => None
    case Some(r) =>
      var last := if text != [] && text[|text| - 1] != '\n' then FeedEndOfLine(r) else r;
      Some(if last.mode == InQuoted then EmitRow(SaveField(last, StartRecord)).rows else last.rows)
  }

  /** The rows handed out up to the end of the text or the csv.Error. */
  function RowsRead(text: string): seq<Row> {
    if ReadTable(text).Some? then ReadTable(text).value else RowsBeforeError(FRESH, text)
  }

  function RowsBeforeError(r: Reader, text: string): seq<Row>
    decreases |text|
  {
    if text == [] || Step(r, text[0]).None? then r.rows else RowsBeforeError(Step(r, text[0]).value, text[1..])
  }

  // Printing

  /** A cell and whether the writer encloses it in double quotes. */
  datatype Cell = Cell(text: string, quoted: bool)

  predicate NeedsQuotes(text: string) {
    exists c :: c in text && (c == ',' || c == '"' || IsNewline(c))
  }

  /** RFC 4180 leaves quoting open except where the text needs it; a row of one empty cell needs
      it too, or it would print like a row of no cells. */
  predicate Printable(row: seq<Cell>) {
    (forall cell :: cell in row && NeedsQuotes(cell.text) ==> cell.quoted) && row != [Cell("", false)]
  }

  function Escape(text: string): string {
    if text == [] then [] else (if text[0] == '"' then ['"', '"'] else [text[0]]) + Escape(text[1..])
  }

  function PrintCell(cell: Cell): string {
    if cell.quoted then ['"'] + Escape(cell.text) + ['"'] else cell.text
  }

  function PrintCells(row: seq<Cell>): string {
    if row == [] then []
    else if |row| == 1 then PrintCell(row[0])
    else PrintCell(row[0]) + [','] + PrintCells(row[1..])
  }

  /** Line ends: CRLF as in RFC 4180, or the bare LF of the shop's own exports. */
  predicate IsLineEnd(eol: string) {
    eol == ['\r', '\n'] || eol == ['\n']
  }

  function Print(table: seq<seq<Cell>>, eol: string): string {
    if table == [] then [] else PrintCells(table[0]) + eol + Print(table[1..], eol)
  }

  function Texts(row: seq<Cell>): Row {
    seq(|row|, i requires 0 <= i < |row| => row[i].text)
  }

  function Values(table: seq<seq<Cell>>): seq<Row> {
    seq(|table|, i requires 0 <= i < |table| => Texts(table[i]))
  }

  lemma ValuesSize(table: seq<seq<Cell>>)
    ensures |Values(table)| == |table|
  {
  }

  // Reading what was printed

  lemma {:induction false} ReadConcat(r: Reader, a: string, b: string)
    requires ReadFrom(r, a).Some?
    ensures ReadFrom(r, a + b) == ReadFrom(ReadFrom(r, a).value, b)
    decreases |a|
  {
    if a == [] {
      assert a + b == b;
    } else {
      ReadConcat(Step(r, a[0]).value, a[1..], b);
      assert (a + b)[0] == a[0] && (a + b)[1..] == a[1..] + b;
    }
  }

  /** No comma and no line end; quotation marks are allowed. */
  predicate OneCell(text: string) {
    forall c :: c in text ==> c != ',' && c != '\r' && c != '\n'
  }

  lemma {:induction false} ReadPlain(r: Reader, text: string)
    requires r.mode == InField && OneCell(text)
    ensures ReadFrom(r, text) == Some(r.(field := r.field + text))
    decreases |text|
  {
    if text == [] {
      assert r.field + text == r.field;
    } else {
      assert text[0] in text;
      assert forall c :: c in text[1..] ==> c in text;
      ReadPlain(AddChar(r, text[0], InField), text[1..]);
      assert r.field + text == r.field + [text[0]] + text[1..];
    }
  }

  lemma {:induction false} ReadEscaped(r: Reader, text: string)
    requires r.mode == InQuoted
    ensures ReadFrom(r, Escape(text)) == Some(r.(field := r.field + text))
    decreases |text|
  {
    if text == [] {
      assert r.field + text == r.field;
    } else {
      var first := if text[0] == '"' then ['"', '"'] else [text[0]];
      var next := AddChar(r, text[0], InQuoted);
      assert ReadFrom(r, first) == Some(next) by {
        if text[0] == '"' {
          assert first[1..] == ['"'];
          assert ReadFrom(r.(mode := QuoteInQuoted), ['"']) == Some(next);
        }
      }
      ReadConcat(r, first, Escape(text[1..]));
      ReadEscaped(next, text[1..]);
      assert r.field + text == next.field + text[1..];
    }
  }

  /** A reader that has read `field` as the whole of its current cell. */
  ghost predicate Holding(r: Reader, before: Reader, text: string) {
    && r == before.(mode := r.mode, field := text)
    && (r.mode == InField || r.mode == QuoteInQuoted || (r.mode == StartField && text == ""))
  }

  lemma ReadCell(r: Reader, cell: Cell)
    requires r.mode == StartField && r.field == "" && (NeedsQuotes(cell.text) ==> cell.quoted)
    ensures ReadFrom(r, PrintCell(cell)).Some? && Holding(ReadFrom(r, PrintCell(cell)).value, r, cell.text)
  {
    var text := cell.text;
    if cell.quoted {
      var open := r.(mode := InQuoted);
      assert ReadFrom(r, ['"']) == Some(open);
      ReadConcat(r, ['"'], Escape(text));
      ReadEscaped(open, text);
      var full := open.(field := text);
      assert open.field + text == text;
      ReadConcat(r, ['"'] + Escape(text), ['"']);
      assert ReadFrom(full, ['"']) == Some(full.(mode := QuoteInQuoted));
    } else if text != [] {
      assert text[0] in text;
      assert forall c :: c in text[1..] ==> c in text;
      var next := AddChar(r, text[0], InField);
      ReadPlain(next, text[1..]);
      assert next.field + text[1..] == text;
    }
  }

  /** The cells of a row, read from the start of a cell: all but the last are saved, the last is held. */
  lemma {:induction false} ReadCells(r: Reader, row: seq<Cell>)
    requires r.mode == StartField && r.field == "" && row != []
    requires forall cell :: cell in row && NeedsQuotes(cell.text) ==> cell.quoted
    ensures ReadFrom(r, PrintCells(row)).Some?
    ensures Holding(ReadFrom(r, PrintCells(row)).value,
                    r.(row := r.row + Texts(row[..|row| - 1])), row[|row| - 1].text)
    decreases |row|
  {
    var first := PrintCell(row[0]);
    ReadCell(r, row[0]);
    var held := ReadFrom(r, first).value;
    if |row| == 1 {
      assert r.row + Texts(row[..0]) == r.row;
    } else {
      var next := r.(row := r.row + [row[0].text]);
      var rest := row[1..];
      assert ReadFrom(held, [',']) == Some(next);
      ReadConcat(r, first, [',']);
      ReadConcat(r, first + [','], PrintCells(rest));
      ReadCells(next, rest);
      assert next.row + Texts(rest[..|rest| - 1]) == r.row + Texts(row[..|row| - 1]);
      assert rest[|rest| - 1] == row[|row| - 1];
    }
  }

  lemma ReadLineEnd(r: Reader, eol: string)
    requires IsLineEnd(eol) && r.mode in {StartField, InField, QuoteInQuoted}
    ensures ReadFrom(r, eol) == Some(FeedEndOfLine(r))
  {
    if eol == ['\r', '\n'] {
      var eating := SaveField(r, EatNewline);
      assert Step(r, '\r') == Some(eating);
      assert eol[1..] == ['\n'];
      assert ReadFrom(eating, ['\n']) == Some(EmitRow(eating));
    }
  }

  lemma RowStartsAField(row: seq<Cell>)
    requires Printable(row) && row != []
    ensures PrintCells(row) != [] && !IsNewline(PrintCells(row)[0])
  {
    assert row[0] in row;
    var text := row[0].text;
    if !row[0].quoted {
      if text == [] {
        assert |row| > 1;
      } else {
        assert text[0] in text;
      }
    }
  }

  lemma StartLikeAField(r: Reader, text: string)
    requires r.mode == StartRecord && text != [] && !IsNewline(text[0])
    ensures ReadFrom(r, text) == ReadFrom(r.(mode := StartField), text)
  {
  }

  lemma PrintableQuotes(row: seq<Cell>)
    requires Printable(row)
    ensures forall cell :: cell in row && NeedsQuotes(cell.text) ==> cell.quoted
  {
  }

  /** A row, read from the start of a record: the end of the line finishes it. */
  lemma ReadRowText(r: Reader, row: seq<Cell>)
    requires r == Reader(StartRecord, "", [], r.rows) && Printable(row) && row != []
    ensures PrintCells(row) != [] && ReadFrom(r, PrintCells(row)).Some?
    ensures var held := ReadFrom(r, PrintCells(row)).value;
            && held.mode in {StartField, InField, QuoteInQuoted}
            && FeedEndOfLine(held) == r.(rows := r.rows + [Texts(row)])
  {
    hide PrintCells, NeedsQuotes, ReadFrom, Printable, Feed;
    RowStartsAField(row);
    StartLikeAField(r, PrintCells(row));
    PrintableQuotes(row);
    ReadCells(r.(mode := StartField), row);
    assert [] + Texts(row[..|row| - 1]) + [row[|row| - 1].text] == Texts(row);
  }

  lemma ReadRow(r: Reader, row: seq<Cell>, eol: string)
    requires r == Reader(StartRecord, "", [], r.rows) && Printable(row) && IsLineEnd(eol)
    ensures ReadFrom(r, PrintCells(row) + eol) == Some(r.(rows := r.rows + [Texts(row)]))
  {
    if row == [] {
      assert PrintCells(row) + eol == eol && Texts(row) == [];
      if eol == ['\r', '\n'] {
        assert eol[1..] == ['\n'];
        assert ReadFrom(r.(mode := EatNewline), ['\n']) == Some(EmitRow(r));
      }
    } else {
      ReadRowText(r, row);
      ReadConcat(r, PrintCells(row), eol);
      ReadLineEnd(ReadFrom(r, PrintCells(row)).value, eol);
    }
  }

  lemma {:induction false} ReadRows(r: Reader, table: seq<seq<Cell>>, eol: string)
    requires r == Reader(StartRecord, "", [], r.rows) && IsLineEnd(eol)
    requires forall row :: row in table ==> Printable(row)
    ensures ReadFrom(r, Print(table, eol)) == Some(r.(rows := r.rows + Values(table)))
    decreases |table|
  {
    if table == [] {
      assert r.rows + Values(table) == r.rows;
    } else {
      ReadRow(r, table[0], eol);
      ReadConcat(r, PrintCells(table[0]) + eol, Print(table[1..], eol));
      var next := r.(rows := r.rows + [Texts(table[0])]);
      ReadRows(next, table[1..], eol);
      assert next.rows + Values(table[1..]) == r.rows + Values(table);
    }
  }

  lemma {:induction false} PrintEndsInLf(table: seq<seq<Cell>>, eol: string)
    requires table != [] && IsLineEnd(eol)
    ensures var text := Print(table, eol); text != [] && text[|text| - 1] == '\n'
  {
    if |table| > 1 {
      PrintEndsInLf(table[1..], eol);
    }
  }

  lemma {:induction false} LastCharacter(row: seq<Cell>)
    requires forall cell :: cell in row && NeedsQuotes(cell.text) ==> cell.quoted
    ensures var text := PrintCells(row); text != [] ==> text[|text| - 1] != '\n'
  {
    if |row| == 1 {
      var text := row[0].text;
      assert row[0] in row;
      if !row[0].quoted && text != [] {
        assert text[|text| - 1] in text;
      }
    } else if |row| > 1 {
      assert row[1] in row;
      assert forall cell :: cell in row[1..] ==> cell in row;
      LastCharacter(row[1..]);
    }
  }

  /** A table printed whole, its last row with or without the line end (RFC 4180, section 2, rule 2). */
  function PrintFile(table: seq<seq<Cell>>, eol: string, open: bool): string
    requires open ==> table != []
  {
    if open then Print(table[..|table| - 1], eol) + PrintCells(table[|table| - 1]) else Print(table, eol)
  }

  /** Round trip: whatever the cells hold and however optional quotes are used, the reader gives the
      table back; only a last row of no cells cannot do without its line end. */
  lemma ReadPrinted(table: seq<seq<Cell>>, eol: string, open: bool)
    requires eol == "\r\n" || eol == "\n"
    requires forall row, cell :: row in table && cell in row ==>
               cell.quoted || forall c :: c in cell.text ==> c != ',' && c != '"' && c != '\r' && c != '\n'
    requires [Cell("", false)] !in table
    requires open ==> table != [] && table[|table| - 1] != []
    ensures ReadTable(PrintFile(table, eol, open)) == Some(Values(table))
  {
    assert IsLineEnd(eol) && forall row :: row in table ==> Printable(row);
    if open {
      ReadOpen(table[..|table| - 1], table[|table| - 1], eol);
      assert table[..|table| - 1] + [table[|table| - 1]] == table;
    } else {
      ReadClosed(table, eol);
    }
  }

  lemma ReadPrintable(table: seq<seq<Cell>>, eol: string, open: bool)
    requires IsLineEnd(eol) && forall row :: row in table ==> Printable(row)
    requires open ==> table != [] && table[|table| - 1] != []
    ensures ReadTable(PrintFile(table, eol, open)) == Some(Values(table))
  {
    hide ReadTable, PrintFile, Values;
    forall row, cell | row in table && cell in row
      ensures cell.quoted || forall c :: c in cell.text ==> c != ',' && c != '"' && c != '\r' && c != '\n'
    {
      assert Printable(row);
      assert NeedsQuotes(cell.text) ==> cell.quoted;
    }
    ReadPrinted(table, eol, open);
  }

  lemma ReadClosed(table: seq<seq<Cell>>, eol: string)
    requires IsLineEnd(eol) && forall row :: row in table ==> Printable(row)
    ensures ReadTable(Print(table, eol)) == Some(Values(table))
  {
    hide ReadFrom, PrintCells, Printable, Print, FeedEndOfLine, EmitRow, SaveField, IsLineEnd, Values;
    ReadRows(FRESH, table, eol);
    assert [] + Values(table) == Values(table);
    if table == [] {
      PrintNothing(eol);
    } else {
      PrintEndsInLf(table, eol);
    }
  }

  lemma PrintNothing(eol: string)
    ensures Print([], eol) == ""
  {
  }

  lemma ReadOpen(closed: seq<seq<Cell>>, row: seq<Cell>, eol: string)
    requires IsLineEnd(eol) && (forall r :: r in closed ==> Printable(r)) && Printable(row) && row != []
    ensures ReadTable(Print(closed, eol) + PrintCells(row)) == Some(Values(closed + [row]))
  {
    hide ReadFrom, PrintCells, Printable, Print, FeedEndOfLine, EmitRow, SaveField, IsLineEnd;
    ReadRows(FRESH, closed, eol);
    assert [] + Values(closed) == Values(closed);
    ReadConcat(FRESH, Print(closed, eol), PrintCells(row));
    ReadRowText(FRESH.(rows := Values(closed)), row);
    PrintableQuotes(row);
    LastCharacter(row);
    assert Values(closed) + [Texts(row)] == Values(closed + [row]);
  }

  // Reading what nobody should have written

  /** The start of a file: whole rows and then the start of the next. */
  lemma ReadBefore(closed: seq<seq<Cell>>, eol: string, text: string)
    requires IsLineEnd(eol) && forall row :: row in closed ==> Printable(row)
    ensures ReadFrom(FRESH, Print(closed, eol)).Some?
    ensures ReadFrom(FRESH, Print(closed, eol) + text) == ReadFrom(Reader(StartRecord, "", [], Values(closed)), text)
  {
    hide ReadFrom, Print, Values, Printable, IsLineEnd;
    ReadRows(FRESH, closed, eol);
    assert [] + Values(closed) == Values(closed);
    ReadConcat(FRESH, Print(closed, eol), text);
  }

  /** A text without a line end is a last row of one cell, if the reader ends with that cell under way. */
  lemma LastCell(closed: seq<seq<Cell>>, eol: string, text: string, cell: string)
    requires IsLineEnd(eol) && forall row :: row in closed ==> Printable(row)
    requires text != []
    requires var held := ReadFrom(Reader(StartRecord, "", [], Values(closed)), text);
             && held.Some? && held.value.field == cell && held.value.row == [] && held.value.rows == Values(closed)
             && (held.value.mode == InQuoted || (held.value.mode == InField && text[|text| - 1] != '\n'))
    ensures ReadTable(Print(closed, eol) + text) == Some(Values(closed) + [[cell]])
  {
    hide ReadFrom, Print, Values, Printable, IsLineEnd;
    ReadBefore(closed, eol, text);
    var whole := Print(closed, eol) + text;
    assert whole[|whole| - 1] == text[|text| - 1];
    assert [] + [cell] == [cell];
  }

  /** Without a quotation mark in front, quotation marks are characters like any others. */
  lemma BareQuotes(closed: seq<seq<Cell>>, eol: string, text: string)
    requires IsLineEnd(eol) && forall row :: row in closed ==> Printable(row)
    requires text != "" && OneCell(text) && text[0] != '"'
    ensures ReadTable(Print(closed, eol) + text) == Some(Values(closed) + [[text]])
  {
    hide Print, Values, Printable, IsLineEnd;
    var r := Reader(StartRecord, "", [], Values(closed));
    assert text[0] in text && text[|text| - 1] in text;
    var next := r.(mode := InField, field := [text[0]]);
    assert "" + [text[0]] == [text[0]];
    assert Step(r, text[0]) == Some(next);
    assert forall c :: c in text[1..] ==> c in text;
    ReadPlain(next, text[1..]);
    assert [text[0]] + text[1..] == text;
    LastCell(closed, eol, text, text);
  }

  /** The reader has taken an opening quotation mark and an escaped text. */
  lemma ReadOpenQuote(rows: seq<Row>, a: string)
    ensures ReadFrom(Reader(StartRecord, "", [], rows), ['"'] + Escape(a)) == Some(Reader(InQuoted, a, [], rows))
  {
    var r, open := Reader(StartRecord, "", [], rows), Reader(InQuoted, "", [], rows);
    assert Step(r, '"') == Some(open);
    assert ReadFrom(r, ['"']) == Some(open);
    ReadConcat(r, ['"'], Escape(a));
    ReadEscaped(open, a);
    assert "" + a == a;
  }

  /** What follows a closing quotation mark belongs to the same cell. */
  lemma AfterClosingQuote(closed: seq<seq<Cell>>, eol: string, a: string, b: string)
    requires IsLineEnd(eol) && forall row :: row in closed ==> Printable(row)
    requires b != "" && OneCell(b) && b[0] != '"'
    ensures ReadTable(Print(closed, eol) + (['"'] + Escape(a) + ['"'] + b)) == Some(Values(closed) + [[a + b]])
  {
    hide Print, Values, Printable, IsLineEnd, Escape;
    var rows := Values(closed);
    var r, shut := Reader(StartRecord, "", [], rows), Reader(QuoteInQuoted, a, [], rows);
    var next := Reader(InField, a + [b[0]], [], rows);
    ReadOpenQuote(rows, a);
    assert ReadFrom(Reader(InQuoted, a, [], rows), ['"']) == Some(shut);
    ReadConcat(r, ['"'] + Escape(a), ['"']);
    assert b[0] in b && b[|b| - 1] in b;
    assert Step(shut, b[0]) == Some(next);
    assert forall c :: c in b[1..] ==> c in b;
    ReadPlain(next, b[1..]);
    assert a + [b[0]] + b[1..] == a + b;
    assert ReadFrom(shut, b) == Some(Reader(InField, a + b, [], rows));
    ReadConcat(r, ['"'] + Escape(a) + ['"'], b);
    LastCell(closed, eol, ['"'] + Escape(a) + ['"'] + b, a + b);
  }

  /** A quotation mark that is never closed takes in the rest of the file. */
  lemma NeverClosed(closed: seq<seq<Cell>>, eol: string, a: string)
    requires IsLineEnd(eol) && forall row :: row in closed ==> Printable(row)
    ensures ReadTable(Print(closed, eol) + (['"'] + Escape(a))) == Some(Values(closed) + [[a]])
  {
    hide ReadFrom, Print, Values, Printable, IsLineEnd, Escape;
    ReadOpenQuote(Values(closed), a);
    LastCell(closed, eol, ['"'] + Escape(a), a);
  }

  lemma {:induction false} RowsConcat(r: Reader, a: string, b: string)
    requires ReadFrom(r, a).Some?
    ensures RowsBeforeError(r, a + b) == RowsBeforeError(ReadFrom(r, a).value, b)
    decreases |a|
  {
    if a == [] {
      assert a + b == b;
    } else {
      RowsConcat(Step(r, a[0]).value, a[1..], b);
      assert (a + b)[0] == a[0] && (a + b)[1..] == a[1..] + b;
    }
  }

  /** A CR that no LF or CR follows is a csv.Error; only the rows before that line are handed out. */
  lemma BareReturn(closed: seq<seq<Cell>>, eol: string, row: seq<Cell>, c: char, rest: string)
    requires IsLineEnd(eol) && (forall r :: r in closed ==> Printable(r)) && Printable(row) && row != []
    requires c != '\r' && c != '\n'
    ensures var text := Print(closed, eol) + (PrintCells(row) + ['\r', c] + rest);
            ReadTable(text) == None && RowsRead(text) == Values(closed)
  {
    hide ReadFrom, Print, Values, Printable, IsLineEnd, PrintCells, FeedEndOfLine;
    var r := Reader(StartRecord, "", [], Values(closed));
    ReadRowText(r, row);
    var held := ReadFrom(r, PrintCells(row)).value;
    var tail := PrintCells(row) + (['\r', c] + rest);
    assert tail == PrintCells(row) + ['\r', c] + rest;
    AtBareReturn(held, c, rest);
    HeldRows(r, row);
    ReadBefore(closed, eol, tail);
    ReadConcat(r, PrintCells(row), ['\r', c] + rest);
    RowsBefore(closed, eol, tail);
    RowsConcat(r, PrintCells(row), ['\r', c] + rest);
  }

  lemma HeldRows(r: Reader, row: seq<Cell>)
    requires r == Reader(StartRecord, "", [], r.rows) && Printable(row) && row != []
    requires ReadFrom(r, PrintCells(row)).Some?
    ensures ReadFrom(r, PrintCells(row)).value.rows == r.rows
  {
    hide ReadFrom, Printable, PrintCells, NeedsQuotes;
    RowStartsAField(row);
    StartLikeAField(r, PrintCells(row));
    PrintableQuotes(row);
    ReadCells(r.(mode := StartField), row);
  }

  lemma AtBareReturn(held: Reader, c: char, rest: string)
    requires held.mode in {StartField, InField, QuoteInQuoted} && c != '\r' && c != '\n'
    ensures ReadFrom(held, ['\r', c] + rest).None? && RowsBeforeError(held, ['\r', c] + rest) == held.rows
  {
    var text := ['\r', c] + rest;
    var eating := SaveField(held, EatNewline);
    assert Step(held, text[0]) == Some(eating);
    assert text[1..] == [c] + rest && Step(eating, c).None?;
  }

  lemma RowsBefore(closed: seq<seq<Cell>>, eol: string, text: string)
    requires IsLineEnd(eol) && forall row :: row in closed ==> Printable(row)
    ensures RowsBeforeError(FRESH, Print(closed, eol) + text)
         == RowsBeforeError(Reader(StartRecord, "", [], Values(closed)), text)
  {
    hide ReadFrom, RowsBeforeError, Print, Values, Printable, IsLineEnd;
    ReadRows(FRESH, closed, eol);
    assert [] + Values(closed) == Values(closed);
    RowsConcat(FRESH, Print(closed, eol), text);
  }
}
