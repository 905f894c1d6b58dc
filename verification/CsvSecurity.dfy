/** The checks a file must pass before it is uploaded (worker/src/csv_security.py). */
module CsvSecurity {
  import opened Common
  import Csv
  import Utf8

  datatype Issue =
    | FileTooLarge(size: nat, limit: int)
    | NullByte
    | InvalidEncoding
    | FormulaInjection(row: nat, col: nat)

  /** The returned list, or the csv.Error that scan_csv_file lets through. */
  datatype ScanResult = Issues(issues: seq<Issue>) | CsvError

  const FORMULA_PREFIXES: set<char> := {'=', '+', '-', '@', '\t', '\r'}

  predicate IsFormula(cell: string) {
    cell != "" && cell[0] in FORMULA_PREFIXES
  }

  /** The hazards among the first `n` cells of row number `row`; rows and columns count from 1. */
  function RowHazards(row: nat, cells: Csv.Row, n: nat): seq<Issue>
    requires n <= |cells|
  {
    if n == 0 then []
    else RowHazards(row, cells, n - 1) + if IsFormula(cells[n - 1]) then [FormulaInjection(row, n)] else []
  }

  /** The hazards among the first `n` rows. */
  function Hazards(rows: seq<Csv.Row>, n: nat): seq<Issue>
    requires n <= |rows|
  {
    if n == 0 then [] else Hazards(rows, n - 1) + RowHazards(n, rows[n - 1], |rows[n - 1]|)
  }

  function Scan(file: Content, limit: int): ScanResult {
    if |file| > limit then
      Issues([FileTooLarge(|file|, limit)])
    else if 0 in file then
      Issues([NullByte])
    else
      match Utf8.Decode(file)
      case None => Issues([InvalidEncoding])
      case Some(text) =>
        match Csv.ReadTable(text)
        case None => CsvError
        case Some(rows) => Issues(Hazards(rows, |rows|))
  }

  /** scan_csv_file: the checks in their order, then the cells row by row. */
  method ScanCsvFile(file: Content, limit: int) returns (r: ScanResult)
    ensures r == Scan(file, limit)
  {
    if |file| > limit {
      return Issues([FileTooLarge(|file|, limit)]);
    }
    if 0 in file {
      return Issues([NullByte]);
    }
    var text := Utf8.Decode(file);
    if text.None? {
      return Issues([InvalidEncoding]);
    }
    var table := Csv.ReadTable(text.value);
    if table.None? {
      return CsvError;
    }
    var rows := table.value;
    var issues: seq<Issue> := [];
    for i := 0 to |rows|
      invariant issues == Hazards(rows, i)
    {
      var row := rows[i];
      for j := 0 to |row|
        invariant issues == Hazards(rows, i) + RowHazards(i + 1, row, j)
      {
        if IsFormula(row[j]) {
          issues := issues + [FormulaInjection(i + 1, j + 1)];
        }
      }
    }
    r := Issues(issues);
  }

  // What the list of hazards means

  /** The characters by name. */
  lemma FormulaStarts(cell: string)
    ensures IsFormula(cell) <==>
            cell != "" && (cell[0] == '=' || cell[0] == '+' || cell[0] == '-' || cell[0] == '@'
                           || cell[0] == '\t' || cell[0] == '\r')
  {
  }

  predicate Flagged(rows: seq<Csv.Row>, row: nat, col: nat) {
    1 <= row <= |rows| && 1 <= col <= |rows[row - 1]| && IsFormula(rows[row - 1][col - 1])
  }

  /** Row-major order. */
  predicate Precedes(a: Issue, b: Issue) {
    a.FormulaInjection? && b.FormulaInjection? && (a.row < b.row || (a.row == b.row && a.col < b.col))
  }

  ghost predicate Increasing(issues: seq<Issue>) {
    forall i, j :: 0 <= i < j < |issues| ==> Precedes(issues[i], issues[j])
  }

  lemma {:induction false} RowHazardsExact(row: nat, cells: Csv.Row, n: nat)
    requires n <= |cells|
    ensures Increasing(RowHazards(row, cells, n))
    ensures forall x :: x in RowHazards(row, cells, n) <==>
                        x.FormulaInjection? && x.row == row && 1 <= x.col <= n && IsFormula(cells[x.col - 1])
  {
    if n > 0 {
      RowHazardsExact(row, cells, n - 1);
    }
  }

  lemma {:induction false} HazardsExact(rows: seq<Csv.Row>, n: nat)
    requires n <= |rows|
    ensures Increasing(Hazards(rows, n))
    ensures forall x :: x in Hazards(rows, n) <==>
                        x.FormulaInjection? && x.row <= n && Flagged(rows, x.row, x.col)
  {
    if n > 0 {
      HazardsExact(rows, n - 1);
      RowHazardsExact(n, rows[n - 1], |rows[n - 1]|);
    }
  }

  lemma HeadIsFirst(a: seq<Issue>)
    requires Increasing(a)
    ensures a != [] ==> a[0] in a && forall x :: x in a[1..] <==> x in a && x != a[0]
    ensures a != [] ==> forall x :: x in a ==> x == a[0] || Precedes(a[0], x)
  {
    if a != [] {
      assert a == [a[0]] + a[1..];
      forall x | x in a[1..] ensures x != a[0] && Precedes(a[0], x) {
        var i :| 0 <= i < |a| - 1 && a[1..][i] == x;
        assert Precedes(a[0], a[i + 1]);
      }
    }
  }

  /** A listing in increasing order is determined by its members, so the next theorem fixes the scan's answer. */
  lemma {:induction false} IncreasingIsUnique(a: seq<Issue>, b: seq<Issue>)
    requires Increasing(a) && Increasing(b) && forall x :: x in a <==> x in b
    requires forall x :: x in a ==> x.FormulaInjection?
    ensures a == b
  {
    HeadIsFirst(a);
    HeadIsFirst(b);
    if a != [] && b != [] {
      IncreasingIsUnique(a[1..], b[1..]);
    }
  }

  lemma ScanPrinted(table: seq<seq<Csv.Cell>>, eol: string, open: bool, limit: int)
    requires Csv.IsLineEnd(eol) && forall row :: row in table ==> Csv.Printable(row)
    requires open ==> table != [] && table[|table| - 1] != []
    requires '\0' !in Csv.PrintFile(table, eol, open)
    requires |Utf8.Encode(Csv.PrintFile(table, eol, open))| <= limit
    ensures var rows := Csv.Values(table);
            Scan(Utf8.Encode(Csv.PrintFile(table, eol, open)), limit) == Issues(Hazards(rows, |rows|))
  {
    hide Csv.PrintFile, Csv.Printable, Csv.Values, Csv.ReadTable, Hazards;
    var text := Csv.PrintFile(table, eol, open);
    Utf8.ZeroByteIffNul(text);
    Utf8.DecodeEncode(text);
    Csv.ReadPrintable(table, eol, open);
  }

  lemma FlaggedCell(table: seq<seq<Csv.Cell>>, row: nat, col: nat)
    ensures Flagged(Csv.Values(table), row, col) <==>
            1 <= row <= |table| && 1 <= col <= |table[row - 1]| && IsFormula(table[row - 1][col - 1].text)
  {
    hide IsFormula;
  }

  /** On a file that prints a table, in any quoting style and with any RFC 4180 line ends, the scan lists
      exactly the cells that start with one of the six characters, each once, in row-major order. */
  lemma {:induction false} ScanIsExact(table: seq<seq<Csv.Cell>>, eol: string, open: bool, limit: int)
    requires Csv.IsLineEnd(eol) && forall row :: row in table ==> Csv.Printable(row)
    requires open ==> table != [] && table[|table| - 1] != []
    requires '\0' !in Csv.PrintFile(table, eol, open)
    requires |Utf8.Encode(Csv.PrintFile(table, eol, open))| <= limit
    ensures var r := Scan(Utf8.Encode(Csv.PrintFile(table, eol, open)), limit);
            && r.Issues?
            && Increasing(r.issues)
            && forall x :: x in r.issues <==>
                 && x.FormulaInjection?
                 && 1 <= x.row <= |table|
                 && 1 <= x.col <= |table[x.row - 1]|
                 && var cell := table[x.row - 1][x.col - 1].text;
                    && cell != ""
                    && (cell[0] == '=' || cell[0] == '+' || cell[0] == '-' || cell[0] == '@'
                        || cell[0] == '\t' || cell[0] == '\r')
  {
    hide Scan, Csv.PrintFile, Csv.Printable, Csv.Values, Flagged, Hazards, Increasing;
    ScanPrinted(table, eol, open, limit);
    var rows := Csv.Values(table);
    HazardsExact(rows, |rows|);
    forall x: Issue | x.FormulaInjection?
      ensures x.row <= |rows| && Flagged(rows, x.row, x.col) <==>
              1 <= x.row <= |table| && 1 <= x.col <= |table[x.row - 1]| && IsFormula(table[x.row - 1][x.col - 1].text)
    {
      FlaggedCell(table, x.row, x.col);
      FlaggedInside(rows, x.row, x.col);
    }
  }

  lemma FlaggedInside(rows: seq<Csv.Row>, row: nat, col: nat)
    ensures Flagged(rows, row, col) ==> row <= |rows|
  {
  }

  /** When the first three checks pass, the text that is scanned is the file: it holds no U+0000 and
      encodes back to the same bytes. */
  lemma {:induction false} ScannedTextIsTheFile(file: Content, limit: int)
    requires Scan(file, limit).CsvError? || forall x :: x in Scan(file, limit).issues ==> x.FormulaInjection?
    ensures Utf8.Decode(file).Some?
    ensures '\0' !in Utf8.Decode(file).value && Utf8.Encode(Utf8.Decode(file).value) == file
  {
    var r := Scan(file, limit);
    assert r.Issues? && |r.issues| == 1 ==> r.issues[0] in r.issues;
    Utf8.EncodeDecode(file);
    Utf8.ZeroByteIffNul(Utf8.Decode(file).value);
  }

  lemma NoHazards(rows: seq<Csv.Row>)
    ensures Hazards(rows, |rows|) == [] <==>
            forall row, col :: 0 <= row < |rows| && 0 <= col < |rows[row]| ==> !IsFormula(rows[row][col])
  {
    var found := Hazards(rows, |rows|);
    HazardsExact(rows, |rows|);
    if found == [] {
      forall row, col | 0 <= row < |rows| && 0 <= col < |rows[row]| ensures !IsFormula(rows[row][col]) {
        assert FormulaInjection(row + 1, col + 1) !in found;
        assert !Flagged(rows, row + 1, col + 1);
      }
    } else {
      assert found[0] in found;
    }
  }

  /** Only a file of readable text without a hazard is clean. */
  lemma {:induction false} CleanExactly(file: Content, limit: int)
    ensures Scan(file, limit) == Issues([]) <==>
            && |file| <= limit
            && 0 !in file
            && Utf8.Decode(file).Some?
            && Csv.ReadTable(Utf8.Decode(file).value).Some?
            && var rows := Csv.ReadTable(Utf8.Decode(file).value).value;
               forall row, col :: 0 <= row < |rows| && 0 <= col < |rows[row]| ==>
                 var cell := rows[row][col];
                 cell == "" || !(cell[0] == '=' || cell[0] == '+' || cell[0] == '-' || cell[0] == '@'
                                 || cell[0] == '\t' || cell[0] == '\r')
  {
    var text := Utf8.Decode(file);
    if text.Some? {
      var table := Csv.ReadTable(text.value);
      if table.Some? {
        NoHazards(table.value);
      }
    }
  }

  /** The encoding is refused exactly where no text has these bytes. */
  lemma RefusedEncoding(file: Content, limit: int)
    ensures Scan(file, limit) == Issues([InvalidEncoding]) <==>
            |file| <= limit && 0 !in file && forall text :: Utf8.Encode(text) != file
  {
    if Utf8.Decode(file).Some? {
      Utf8.EncodeDecode(file);
      var text := Utf8.Decode(file).value;
      if Csv.ReadTable(text).Some? {
        var rows := Csv.ReadTable(text).value;
        HazardsExact(rows, |rows|);
        assert |Hazards(rows, |rows|)| == 1 ==> Hazards(rows, |rows|)[0] in Hazards(rows, |rows|);
      }
      assert Utf8.Encode(text) == file;
    } else {
      forall text ensures Utf8.Encode(text) != file {
        Utf8.DecodeEncode(text);
      }
    }
  }
}
