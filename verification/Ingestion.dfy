/** Order lines into keyed stores: the Lambda handler for DynamoDB and the Cloud Function for Firestore
    (infra/terraform/functions). Both fold the rows of a CSV file into a store and rely on overwriting. */
module Ingestion {
  import opened Common
  import Csv

  /** One order line, with the object it came from. */
  datatype Line = Line(orderId: string, sku: string, quantity: int, channel: Option<string>, source: string)

  datatype Item = Item(quantity: int, channel: Option<string>, source: string, ingestedAt: string)

  /** The DynamoDB table, keyed by orderId and sku. */
  type Table = map<(string, string), Item>

  /** A Firestore document orders/{orderId}/lineItems/{sku}. */
  datatype Document = Document(sku: string, quantity: int, channel: Option<string>, source: string, ingestedAt: string)

  /** The collection `orders`: per order the documents of its subcollection `lineItems`. */
  type Orders = map<string, map<string, Document>>

  // Reading rows as csv.DictReader does

  /** A field of a row: the last column of that name counts. KeyError when there is none; a row too short for
      the column gives None. */
  datatype Field = NoColumn | Empty | Present(text: string)

  function FieldOf(header: Csv.Row, row: Csv.Row, name: string): Field {
    if header == [] then NoColumn
    else
      var i := |header| - 1;
      if header[i] != name then FieldOf(header[..i], row, name)
      else if i < |row| then Present(row[i])
      else Empty
  }

  /** The item a row describes, or None where the handler raises. `toInt` is int(). */
  function ParseRow(toInt: string -> Option<int>, header: Csv.Row, row: Csv.Row, source: string): Option<Line> {
    match (FieldOf(header, row, "order_id"), FieldOf(header, row, "sku"), FieldOf(header, row, "quantity"))
    case (Present(orderId), Present(sku), Present(quantity)) =>
      var n :- toInt(quantity);
      (match FieldOf(header, row, "channel")
       case NoColumn => None
       case Empty => Some(Line(orderId, sku, n, None, source))
       case Present(channel) => Some(Line(orderId, sku, n, Some(channel), source)))
    case _ => None
  }

  /** What reading an object yields: the lines, and whether it ends in an exception. */
  datatype Reading = Reading(lines: seq<Line>, raised: bool)

  /** The data rows up to the first that raises; rows without cells are skipped. `broken` is the csv.Error
      that may wait at the end of the rows. */
  function ParseRows(toInt: string -> Option<int>, header: Csv.Row, rows: seq<Csv.Row>, source: string, broken: bool)
    : Reading
    decreases |rows|
  {
    if rows == [] then Reading([], broken)
    else if rows[0] == [] then ParseRows(toInt, header, rows[1..], source, broken)
    else
      match ParseRow(toInt, header, rows[0], source)
      case None => Reading([], true)
      case Some(line) =>
        var rest := ParseRows(toInt, header, rows[1..], source, broken);
        Reading([line] + rest.lines, rest.raised)
  }

  /** What reading an object's CSV text yields. */
  function ReadLines(toInt: string -> Option<int>, body: string, source: string): Reading {
    var rows := Csv.RowsRead(body);
    var broken := Csv.ReadTable(body).None?;
    if rows == [] then Reading([], broken) else ParseRows(toInt, rows[0], rows[1..], source, broken)
  }

  /** `stored` lines are behind the reader and `rest` is ahead of it. */
  ghost predicate Splits(whole: Reading, stored: seq<Line>, rest: Reading) {
    whole == Reading(stored + rest.lines, rest.raised)
  }

  /** The `stored` lines are those of the rows before number `i`. */
  ghost predicate Upto(toInt: string -> Option<int>, rows: seq<Csv.Row>, source: string, broken: bool, i: nat,
                       whole: Reading, stored: seq<Line>)
    requires 1 <= i <= |rows|
  {
    Splits(whole, stored, ParseRows(toInt, rows[0], rows[i..], source, broken))
  }

  lemma FirstRow(toInt: string -> Option<int>, body: string, source: string)
    requires Csv.RowsRead(body) != []
    ensures Upto(toInt, Csv.RowsRead(body), source, Csv.ReadTable(body).None?, 1, ReadLines(toInt, body, source), [])
  {
    hide Csv.RowsRead, Csv.ReadTable, ParseRows;
    var lines := ReadLines(toInt, body, source).lines;
    assert [] + lines == lines;
  }

  lemma NextRow(toInt: string -> Option<int>, rows: seq<Csv.Row>, source: string, broken: bool,
                i: nat, whole: Reading, stored: seq<Line>)
    requires 1 <= i < |rows| && Upto(toInt, rows, source, broken, i, whole, stored)
    ensures rows[i] == [] ==> Upto(toInt, rows, source, broken, i + 1, whole, stored)
    ensures rows[i] != [] ==>
              var line := ParseRow(toInt, rows[0], rows[i], source);
              if line.None? then whole == Reading(stored, true)
              else Upto(toInt, rows, source, broken, i + 1, whole, stored + [line.value])
  {
    hide ParseRow;
    assert rows[i..][1..] == rows[i + 1..];
    var rest := ParseRows(toInt, rows[0], rows[i + 1..], source, broken);
    var line := ParseRow(toInt, rows[0], rows[i], source);
    assert stored + [] == stored;
    if line.Some? {
      assert stored + ([line.value] + rest.lines) == stored + [line.value] + rest.lines;
    }
  }

  lemma NoMoreRows(toInt: string -> Option<int>, rows: seq<Csv.Row>, source: string, broken: bool,
                   whole: Reading, stored: seq<Line>)
    requires rows != [] && Upto(toInt, rows, source, broken, |rows|, whole, stored)
    ensures whole == Reading(stored, broken)
  {
    assert rows[|rows|..] == [] && stored + [] == stored;
  }

  // Storing lines

  function KeyOf(line: Line): (string, string) {
    (line.orderId, line.sku)
  }

  function ItemOf(line: Line, at: string): Item {
    Item(line.quantity, line.channel, line.source, at)
  }

  function PutItem(table: Table, line: Line, at: string): Table {
    table[KeyOf(line) := ItemOf(line, at)]
  }

  function Load(table: Table, lines: seq<Line>, at: string): Table {
    if lines == [] then table
    else
      var n := |lines| - 1;
      PutItem(Load(table, lines[..n], at), lines[n], at)
  }

  lemma LoadMore(table: Table, lines: seq<Line>, line: Line, at: string)
    ensures Load(table, lines + [line], at) == PutItem(Load(table, lines, at), line, at)
  {
    assert (lines + [line])[..|lines|] == lines;
  }

  function DocumentOf(line: Line, at: string): Document {
    Document(line.sku, line.quantity, line.channel, line.source, at)
  }

  function SetDocument(orders: Orders, line: Line, at: string): Orders {
    var items := if line.orderId in orders then orders[line.orderId] else map[];
    orders[line.orderId := items[line.sku := DocumentOf(line, at)]]
  }

  function LoadDocuments(orders: Orders, lines: seq<Line>, at: string): Orders {
    if lines == [] then orders
    else
      var n := |lines| - 1;
      SetDocument(LoadDocuments(orders, lines[..n], at), lines[n], at)
  }

  lemma LoadMoreDocuments(orders: Orders, lines: seq<Line>, line: Line, at: string)
    ensures LoadDocuments(orders, lines + [line], at) == SetDocument(LoadDocuments(orders, lines, at), line, at)
  {
    assert (lines + [line])[..|lines|] == lines;
  }

  // Several objects in one event

  /** A record of an S3 event: the object's key and text, and the time at which it is read. */
  datatype Record = Record(key: string, body: string, at: string)

  /** The lines of all records, up to the first that raises. */
  function ReadRecords(toInt: string -> Option<int>, records: seq<Record>): Reading {
    if records == [] then Reading([], false)
    else
      var first := ReadLines(toInt, records[0].body, records[0].key);
      if first.raised then first
      else
        var rest := ReadRecords(toInt, records[1..]);
        Reading(first.lines + rest.lines, rest.raised)
  }

  lemma NextRecord(toInt: string -> Option<int>, records: seq<Record>, i: nat, whole: Reading, stored: seq<Line>)
    requires i < |records| && Splits(whole, stored, ReadRecords(toInt, records[i..]))
    ensures var one := ReadLines(toInt, records[i].body, records[i].key);
            if one.raised then whole == Reading(stored + one.lines, true)
            else Splits(whole, stored + one.lines, ReadRecords(toInt, records[i + 1..]))
  {
    hide ReadLines;
    assert records[i..][1..] == records[i + 1..];
    var one := ReadLines(toInt, records[i].body, records[i].key);
    var rest := ReadRecords(toInt, records[i + 1..]);
    assert stored + (one.lines + rest.lines) == stored + one.lines + rest.lines;
  }

  /** Two tables that differ at most in the ingestion times. */
  ghost predicate SameButTimes(a: Table, b: Table) {
    && a.Keys == b.Keys
    && forall k :: k in a ==> a[k].(ingestedAt := "") == b[k].(ingestedAt := "")
  }

  lemma {:induction false} LoadConcat(table: Table, a: seq<Line>, b: seq<Line>, at: string)
    ensures Load(table, a + b, at) == Load(Load(table, a, at), b, at)
  {
    if b == [] {
      assert a + b == a;
    } else {
      LoadConcat(table, a, b[..|b| - 1], at);
      assert (a + b)[..|a + b| - 1] == a + b[..|b| - 1];
    }
  }

  lemma {:induction false} LoadIgnoresTimes(t: Table, t': Table, lines: seq<Line>, at: string, at': string)
    requires SameButTimes(t, t')
    ensures SameButTimes(Load(t, lines, at), Load(t', lines, at'))
  {
    if lines != [] {
      LoadIgnoresTimes(t, t', lines[..|lines| - 1], at, at');
    }
  }

  // The handlers

  class OrderTable {
    var items: Table

    constructor ()
      ensures items == map[]
    {
      items := map[];
    }

    /** _ingest_object: put_item for each row until the rows end or one raises. */
    method IngestObject(toInt: string -> Option<int>, body: string, key: string, at: string) returns (raised: bool)
      modifies this
      ensures items == Load(old(items), ReadLines(toInt, body, key).lines, at)
      ensures raised == ReadLines(toInt, body, key).raised
    {
      hide Csv.RowsRead, Csv.ReadTable, ParseRow, PutItem;
      var rows := Csv.RowsRead(body);
      raised := Csv.ReadTable(body).None?;
      if rows == [] {
        return;
      }
      FirstRow(toInt, body, key);
      ghost var broken, whole := raised, ReadLines(toInt, body, key);
      ghost var stored: seq<Line> := [];
      hide Load, ParseRows, ReadLines, Upto;
      var i := 1;
      while i < |rows|
        invariant 1 <= i <= |rows|
        invariant raised == broken && items == Load(old(items), stored, at)
        invariant Upto(toInt, rows, key, broken, i, whole, stored)
      {
        NextRow(toInt, rows, key, broken, i, whole, stored);
        if rows[i] != [] {
          var line := ParseRow(toInt, rows[0], rows[i], key);
          if line.None? {
            return true;
          }
          items := PutItem(items, line.value, at);
          LoadMore(old(items), stored, line.value, at);
          stored := stored + [line.value];
        }
        i := i + 1;
      }
      NoMoreRows(toInt, rows, key, broken, whole, stored);
    }

    /** handle_s3_event: the records one after the other until one raises, which amounts to storing all their
        lines at one time. */
    method HandleS3Event(toInt: string -> Option<int>, records: seq<Record>) returns (raised: bool)
      modifies this
      ensures SameButTimes(items, Load(old(items), ReadRecords(toInt, records).lines, ""))
      ensures raised == ReadRecords(toInt, records).raised
    {
      hide ReadLines, Load;
      ghost var whole := ReadRecords(toInt, records);
      ghost var stored: seq<Line> := [];
      assert Load(items, stored, "") == items by { LoadNothing(items); }
      assert stored + whole.lines == whole.lines && records[0..] == records;
      for i := 0 to |records|
        invariant SameButTimes(items, Load(old(items), stored, ""))
        invariant Splits(whole, stored, ReadRecords(toInt, records[i..]))
      {
        ghost var lines := ReadLines(toInt, records[i].body, records[i].key).lines;
        NextRecord(toInt, records, i, whole, stored);
        LoadIgnoresTimes(items, Load(old(items), stored, ""), lines, records[i].at, "");
        LoadConcat(old(items), stored, lines, "");
        raised := IngestObject(toInt, records[i].body, records[i].key, records[i].at);
        stored := stored + lines;
        if raised {
          return;
        }
      }
      assert stored + [] == stored;
      raised := false;
    }

    lemma LoadNothing(table: Table)
      ensures Load(table, [], "") == table
    {
    }
  }

  class OrderCollection {
    var orders: Orders

    constructor ()
      ensures orders == map[]
    {
      orders := map[];
    }

    /** handle_gcs_event: only CSV objects under orders/, one document per row until the rows end or one raises. */
    method HandleEvent(toInt: string -> Option<int>, name: string, body: string, at: string) returns (raised: bool)
      modifies this
      ensures if "orders/" <= name && |name| >= 4 && name[|name| - 4..] == ".csv"
              then orders == LoadDocuments(old(orders), ReadLines(toInt, body, name).lines, at)
                   && raised == ReadLines(toInt, body, name).raised
              else orders == old(orders) && !raised
    {
      hide Csv.RowsRead, Csv.ReadTable, ParseRow, SetDocument;
      if !Selected(name) {
        return false;
      }
      var rows := Csv.RowsRead(body);
      raised := Csv.ReadTable(body).None?;
      if rows == [] {
        return;
      }
      FirstRow(toInt, body, name);
      ghost var broken, whole := raised, ReadLines(toInt, body, name);
      ghost var stored: seq<Line> := [];
      hide LoadDocuments, ParseRows, ReadLines, Upto;
      var i := 1;
      while i < |rows|
        invariant 1 <= i <= |rows|
        invariant raised == broken && orders == LoadDocuments(old(orders), stored, at)
        invariant Upto(toInt, rows, name, broken, i, whole, stored)
      {
        NextRow(toInt, rows, name, broken, i, whole, stored);
        if rows[i] != [] {
          var line := ParseRow(toInt, rows[0], rows[i], name);
          if line.None? {
            return true;
          }
          orders := SetDocument(orders, line.value, at);
          LoadMoreDocuments(old(orders), stored, line.value, at);
          stored := stored + [line.value];
        }
        i := i + 1;
      }
      NoMoreRows(toInt, rows, name, broken, whole, stored);
    }
  }

  /** The prefix and suffix filter of the Cloud Function. */
  predicate Selected(name: string) {
    "orders/" <= name && EndsWith(name, ".csv")
  }

  predicate EndsWith(s: string, suffix: string) {
    |suffix| <= |s| && s[|s| - |suffix|..] == suffix
  }

  // Replay

  /** The last line for a key. */
  function LastFor(lines: seq<Line>, key: (string, string)): Option<Line> {
    if lines == [] then None
    else
      var n := |lines| - 1;
      if KeyOf(lines[n]) == key then Some(lines[n]) else LastFor(lines[..n], key)
  }

  /** Last row wins: a loaded table holds for each key the last line for it, and is as before elsewhere. */
  lemma {:induction false} LastRowWins(table: Table, lines: seq<Line>, at: string, key: (string, string))
    ensures var t := Load(table, lines, at); var last := LastFor(lines, key);
            && (last.Some? ==> key in t && t[key] == ItemOf(last.value, at))
            && (last.None? ==> (key in t <==> key in table) && (key in t ==> t[key] == table[key]))
  {
    if lines != [] {
      LastRowWins(table, lines[..|lines| - 1], at, key);
    }
  }

  lemma {:induction false} LastForPrefix(lines: seq<Line>, n: nat, key: (string, string))
    requires n <= |lines| && LastFor(lines[..n], key).Some?
    ensures LastFor(lines, key).Some?
    decreases |lines|
  {
    if n == |lines| {
      assert lines[..n] == lines;
    } else if KeyOf(lines[|lines| - 1]) != key {
      assert lines[..|lines| - 1][..n] == lines[..n];
      LastForPrefix(lines[..|lines| - 1], n, key);
    }
  }

  /** A history of attempts that each stopped somewhere: how many lines it stored, and when. */
  function LoadPrefixes(table: Table, lines: seq<Line>, attempts: seq<(nat, string)>): Table
    requires forall a :: a in attempts ==> a.0 <= |lines|
  {
    if attempts == [] then table
    else
      var n := |attempts| - 1;
      assert attempts[n] in attempts;
      Load(LoadPrefixes(table, lines, attempts[..n]), lines[..attempts[n].0], attempts[n].1)
  }

  lemma {:induction false} AttemptsTouchOnlyKeys(table: Table, lines: seq<Line>, attempts: seq<(nat, string)>,
                                                 key: (string, string))
    requires forall a :: a in attempts ==> a.0 <= |lines|
    requires LastFor(lines, key).None?
    ensures var t := LoadPrefixes(table, lines, attempts);
            (key in t <==> key in table) && (key in t ==> t[key] == table[key])
  {
    if attempts != [] {
      var n := |attempts| - 1;
      var k := attempts[n].0;
      assert attempts[n] in attempts;
      AttemptsTouchOnlyKeys(table, lines, attempts[..n], key);
      if LastFor(lines[..k], key).Some? {
        LastForPrefix(lines, k, key);
      }
      LastRowWins(LoadPrefixes(table, lines, attempts[..n]), lines[..k], attempts[n].1, key);
    }
  }

  /** Replay: however often an ingestion was cut short, each time after any number of rows, ingesting the
      whole file in the end gives the table that one undisturbed ingestion would have given, times apart. */
  lemma {:induction false} ReplayIsHarmless(table: Table, lines: seq<Line>, attempts: seq<(nat, string)>,
                                            at: string, at': string)
    requires forall a :: a in attempts ==> a.0 <= |lines|
    ensures SameButTimes(Load(LoadPrefixes(table, lines, attempts), lines, at), Load(table, lines, at'))
  {
    var retried := LoadPrefixes(table, lines, attempts);
    var a, b := Load(retried, lines, at), Load(table, lines, at');
    forall key ensures (key in a <==> key in b) && (key in a ==> a[key].(ingestedAt := "") == b[key].(ingestedAt := "")) {
      LastRowWins(retried, lines, at, key);
      LastRowWins(table, lines, at', key);
      if LastFor(lines, key).None? {
        AttemptsTouchOnlyKeys(table, lines, attempts, key);
      }
    }
  }

  // Two stores, one table

  function ItemOfDocument(d: Document): Item {
    Item(d.quantity, d.channel, d.source, d.ingestedAt)
  }

  /** The nested documents laid out flat. */
  ghost function Flatten(orders: Orders): Table {
    map o, s | o in orders && s in orders[o] :: (o, s) := ItemOfDocument(orders[o][s])
  }

  lemma FlattenAt(orders: Orders, o: string, s: string)
    ensures (o, s) in Flatten(orders) <==> o in orders && s in orders[o]
    ensures (o, s) in Flatten(orders) ==> Flatten(orders)[(o, s)] == ItemOfDocument(orders[o][s])
  {
  }

  lemma FlattenSet(orders: Orders, line: Line, at: string)
    ensures Flatten(SetDocument(orders, line, at)) == PutItem(Flatten(orders), line, at)
  {
    hide Flatten;
    var after := SetDocument(orders, line, at);
    var a, b := Flatten(after), PutItem(Flatten(orders), line, at);
    forall key: (string, string) ensures (key in a <==> key in b) && (key in a ==> a[key] == b[key]) {
      FlattenAt(after, key.0, key.1);
      FlattenAt(orders, key.0, key.1);
    }
  }

  /** The Firestore documents, laid out flat, are the DynamoDB table for the same rows. */
  lemma {:induction false} StoresAgree(orders: Orders, lines: seq<Line>, at: string)
    ensures Flatten(LoadDocuments(orders, lines, at)) == Load(Flatten(orders), lines, at)
  {
    if lines != [] {
      var n := |lines| - 1;
      StoresAgree(orders, lines[..n], at);
      FlattenSet(LoadDocuments(orders, lines[..n], at), lines[n], at);
    }
  }

  function LoadDocumentPrefixes(orders: Orders, lines: seq<Line>, attempts: seq<(nat, string)>): Orders
    requires forall a :: a in attempts ==> a.0 <= |lines|
  {
    if attempts == [] then orders
    else
      var n := |attempts| - 1;
      assert attempts[n] in attempts;
      LoadDocuments(LoadDocumentPrefixes(orders, lines, attempts[..n]), lines[..attempts[n].0], attempts[n].1)
  }

  lemma {:induction false} PrefixesAgree(orders: Orders, lines: seq<Line>, attempts: seq<(nat, string)>)
    requires forall a :: a in attempts ==> a.0 <= |lines|
    ensures Flatten(LoadDocumentPrefixes(orders, lines, attempts)) == LoadPrefixes(Flatten(orders), lines, attempts)
  {
    if attempts != [] {
      hide Flatten;
      var n := |attempts| - 1;
      assert attempts[n] in attempts;
      PrefixesAgree(orders, lines, attempts[..n]);
      StoresAgree(LoadDocumentPrefixes(orders, lines, attempts[..n]), lines[..attempts[n].0], attempts[n].1);
    }
  }

  /** Replay in Firestore: the same as for the table. */
  lemma {:induction false} DocumentReplayIsHarmless(orders: Orders, lines: seq<Line>, attempts: seq<(nat, string)>,
                                                    at: string, at': string)
    requires forall a :: a in attempts ==> a.0 <= |lines|
    ensures SameButTimes(Flatten(LoadDocuments(LoadDocumentPrefixes(orders, lines, attempts), lines, at)),
                         Flatten(LoadDocuments(orders, lines, at')))
  {
    hide Flatten;
    PrefixesAgree(orders, lines, attempts);
    StoresAgree(LoadDocumentPrefixes(orders, lines, attempts), lines, at);
    StoresAgree(orders, lines, at');
    ReplayIsHarmless(Flatten(orders), lines, attempts, at, at');
  }

  // From the rows of a printed file to the stores

  /** Column number `i` is the last of that name. */
  ghost predicate LastColumn(header: Csv.Row, name: string, i: nat) {
    i < |header| && header[i] == name && forall j :: i < j < |header| ==> header[j] != name
  }

  /** Where the four columns are. */
  datatype Columns = Columns(orderId: nat, sku: nat, quantity: nat, channel: nat)

  ghost predicate Located(header: Csv.Row, at: Columns) {
    && LastColumn(header, "order_id", at.orderId)
    && LastColumn(header, "sku", at.sku)
    && LastColumn(header, "quantity", at.quantity)
    && LastColumn(header, "channel", at.channel)
  }

  lemma {:induction false} FieldExact(header: Csv.Row, row: Csv.Row, name: string)
    ensures forall i: nat :: LastColumn(header, name, i) ==>
              FieldOf(header, row, name) == if i < |row| then Present(row[i]) else Empty
    ensures name !in header ==> FieldOf(header, row, name) == NoColumn
  {
    if header != [] {
      var n := |header| - 1;
      FieldExact(header[..n], row, name);
      forall i: nat | LastColumn(header, name, i)
        ensures FieldOf(header, row, name) == if i < |row| then Present(row[i]) else Empty
      {
        if i < n {
          assert LastColumn(header[..n], name, i);
        }
      }
    }
  }

  /** The row has a cell for the order id, the sku and the quantity, and the quantity is a number. */
  predicate Readable(toInt: string -> Option<int>, row: Csv.Row, at: Columns) {
    at.orderId < |row| && at.sku < |row| && at.quantity < |row| && toInt(row[at.quantity]).Some?
  }

  /** What a row becomes, column by column; it raises exactly if it is not readable or a column is missing. */
  lemma RowExact(toInt: string -> Option<int>, header: Csv.Row, row: Csv.Row, source: string)
    ensures forall at :: Located(header, at) ==>
              ParseRow(toInt, header, row, source) ==
              if Readable(toInt, row, at)
              then Some(Line(row[at.orderId], row[at.sku], toInt(row[at.quantity]).value,
                             if at.channel < |row| then Some(row[at.channel]) else None, source))
              else None
    ensures "order_id" !in header || "sku" !in header || "quantity" !in header || "channel" !in header ==>
              ParseRow(toInt, header, row, source) == None
  {
    hide FieldOf, LastColumn;
    FieldExact(header, row, "order_id");
    FieldExact(header, row, "sku");
    FieldExact(header, row, "quantity");
    FieldExact(header, row, "channel");
  }

  /** The first `n` data rows are read, and if there are more, the next one raises. */
  ghost predicate ReadsUpto(toInt: string -> Option<int>, rows: seq<Csv.Row>, at: Columns, n: nat) {
    && n <= |rows|
    && (forall r :: 0 <= r < n ==> rows[r] == [] || Readable(toInt, rows[r], at))
    && (n < |rows| ==> rows[n] != [] && !Readable(toInt, rows[n], at))
  }

  predicate Names(row: Csv.Row, at: Columns, orderId: string, sku: string) {
    at.orderId < |row| && at.sku < |row| && row[at.orderId] == orderId && row[at.sku] == sku
  }

  /** Row number `r` is the last of the first `n` for its order and sku. */
  ghost predicate LastOfItsOrderLine(rows: seq<Csv.Row>, at: Columns, n: nat, r: nat) {
    && r < n <= |rows|
    && at.orderId < |rows[r]| && at.sku < |rows[r]|
    && forall q :: r < q < n ==> !Names(rows[q], at, rows[r][at.orderId], rows[r][at.sku])
  }

  lemma {:induction false} LastForFront(line: Line, rest: seq<Line>, key: (string, string))
    ensures LastFor([line] + rest, key) == if LastFor(rest, key).Some? then LastFor(rest, key)
                                           else if KeyOf(line) == key then Some(line) else None
  {
    var lines := [line] + rest;
    if rest == [] {
      assert lines[..0] == [];
    } else {
      var n := |rest| - 1;
      assert lines[|lines| - 1] == rest[n] && lines[..|lines| - 1] == [line] + rest[..n];
      LastForFront(line, rest[..n], key);
    }
  }

  lemma NextDataRow(toInt: string -> Option<int>, rows: seq<Csv.Row>, at: Columns, n: nat)
    requires ReadsUpto(toInt, rows, at, n) && n > 0
    ensures ReadsUpto(toInt, rows[1..], at, n - 1)
  {
    forall r | 0 <= r < n - 1 ensures rows[1..][r] == [] || Readable(toInt, rows[1..][r], at) {
      assert rows[1..][r] == rows[r + 1];
    }
  }

  lemma {:induction false} NoLine(toInt: string -> Option<int>, header: Csv.Row, rows: seq<Csv.Row>, source: string,
                                  broken: bool, at: Columns, n: nat, key: (string, string))
    requires Located(header, at) && ReadsUpto(toInt, rows, at, n)
    requires forall r :: 0 <= r < n ==> !Names(rows[r], at, key.0, key.1)
    ensures LastFor(ParseRows(toInt, header, rows, source, broken).lines, key) == None
    decreases |rows|
  {
    if rows != [] {
      hide ParseRow, LastColumn;
      RowExact(toInt, header, rows[0], source);
      if n > 0 {
        NextDataRow(toInt, rows, at, n);
        assert forall r :: 0 <= r < n - 1 ==> rows[1..][r] == rows[r + 1];
        NoLine(toInt, header, rows[1..], source, broken, at, n - 1, key);
        if rows[0] != [] {
          var line := ParseRow(toInt, header, rows[0], source).value;
          LastForFront(line, ParseRows(toInt, header, rows[1..], source, broken).lines, key);
          assert !Names(rows[0], at, key.0, key.1);
        }
      }
    }
  }

  lemma {:induction false} LastLine(toInt: string -> Option<int>, header: Csv.Row, rows: seq<Csv.Row>, source: string,
                                    broken: bool, at: Columns, n: nat, r: nat)
    requires Located(header, at) && ReadsUpto(toInt, rows, at, n) && LastOfItsOrderLine(rows, at, n, r)
    ensures Readable(toInt, rows[r], at)
    ensures var row := rows[r];
            LastFor(ParseRows(toInt, header, rows, source, broken).lines, (row[at.orderId], row[at.sku]))
            == Some(Line(row[at.orderId], row[at.sku], toInt(row[at.quantity]).value,
                         if at.channel < |row| then Some(row[at.channel]) else None, source))
    decreases |rows|
  {
    hide ParseRow, LastColumn;
    var key := (rows[r][at.orderId], rows[r][at.sku]);
    RowExact(toInt, header, rows[0], source);
    NextDataRow(toInt, rows, at, n);
    assert forall q :: 0 <= q < |rows| - 1 ==> rows[1..][q] == rows[q + 1];
    if r == 0 {
      NoLine(toInt, header, rows[1..], source, broken, at, n - 1, key);
    } else {
      LastLine(toInt, header, rows[1..], source, broken, at, n - 1, r - 1);
    }
    if rows[0] != [] {
      var line := ParseRow(toInt, header, rows[0], source).value;
      LastForFront(line, ParseRows(toInt, header, rows[1..], source, broken).lines, key);
    }
  }

  /** The table is printed, has the four columns, and its first `n` data rows are read. */
  ghost predicate OrderFile(toInt: string -> Option<int>, table: seq<seq<Csv.Cell>>, eol: string, open: bool,
                            at: Columns, n: nat) {
    && table != [] && Csv.IsLineEnd(eol) && (forall row :: row in table ==> Csv.Printable(row))
    && (open ==> table[|table| - 1] != [])
    && Located(Csv.Values(table)[0], at)
    && ReadsUpto(toInt, Csv.Values(table)[1..], at, n)
  }

  lemma LinesOfFile(toInt: string -> Option<int>, table: seq<seq<Csv.Cell>>, eol: string, open: bool, source: string,
                    at: Columns, n: nat)
    requires OrderFile(toInt, table, eol, open, at, n)
    ensures var rows := Csv.Values(table);
            ReadLines(toInt, Csv.PrintFile(table, eol, open), source)
            == ParseRows(toInt, rows[0], rows[1..], source, false)
  {
    hide Csv.PrintFile, Csv.Printable, Csv.ReadTable, Csv.Values, ParseRows;
    Csv.ReadPrintable(table, eol, open);
    assert |Csv.Values(table)| == |table| by { Csv.ValuesSize(table); }
  }

  /** Ingesting a printed file into DynamoDB. Data row `r`, if it is the last for its order and sku, is the item with
      that key; it keeps its quantity and channel, the object's key and the time. An exception ends the ingestion
      exactly at the first row that is not readable. */
  lemma StoredItem(toInt: string -> Option<int>, items: Table, table: seq<seq<Csv.Cell>>, eol: string, open: bool,
                   source: string, time: string, at: Columns, n: nat, r: nat)
    requires OrderFile(toInt, table, eol, open, at, n) && LastOfItsOrderLine(Csv.Values(table)[1..], at, n, r)
    ensures var reading := ReadLines(toInt, Csv.PrintFile(table, eol, open), source);
            var after, row := Load(items, reading.lines, time), Csv.Values(table)[1..][r];
            && (reading.raised <==> n < |table| - 1)
            && Readable(toInt, row, at)
            && (row[at.orderId], row[at.sku]) in after
            && after[(row[at.orderId], row[at.sku])]
               == Item(toInt(row[at.quantity]).value, if at.channel < |row| then Some(row[at.channel]) else None,
                       source, time)
  {
    hide ParseRows, Csv.PrintFile, Csv.Printable, Csv.Values, ReadLines, LastFor, Load, Located, ReadsUpto;
    var rows := Csv.Values(table);
    Csv.ValuesSize(table);
    LinesOfFile(toInt, table, eol, open, source, at, n);
    LastLine(toInt, rows[0], rows[1..], source, false, at, n, r);
    RaisesWhere(toInt, rows[0], rows[1..], source, false, at, n);
    var key := (rows[1..][r][at.orderId], rows[1..][r][at.sku]);
    LastRowWins(items, ReadLines(toInt, Csv.PrintFile(table, eol, open), source).lines, time, key);
  }

  lemma {:induction false} RaisesWhere(toInt: string -> Option<int>, header: Csv.Row, rows: seq<Csv.Row>, source: string,
                                       broken: bool, at: Columns, n: nat)
    requires Located(header, at) && ReadsUpto(toInt, rows, at, n)
    ensures ParseRows(toInt, header, rows, source, broken).raised <==> n < |rows| || broken
    decreases |rows|
  {
    if rows != [] {
      hide ParseRow, LastColumn;
      RowExact(toInt, header, rows[0], source);
      if n > 0 {
        NextDataRow(toInt, rows, at, n);
        RaisesWhere(toInt, header, rows[1..], source, broken, at, n - 1);
      }
    }
  }

  /** What no row read is for stays as it was. */
  lemma OtherItems(toInt: string -> Option<int>, items: Table, table: seq<seq<Csv.Cell>>, eol: string, open: bool,
                   source: string, time: string, at: Columns, n: nat, orderId: string, sku: string)
    requires OrderFile(toInt, table, eol, open, at, n)
    requires forall r :: 0 <= r < n ==> !Names(Csv.Values(table)[1..][r], at, orderId, sku)
    ensures var after := Load(items, ReadLines(toInt, Csv.PrintFile(table, eol, open), source).lines, time);
            && ((orderId, sku) in after <==> (orderId, sku) in items)
            && ((orderId, sku) in after ==> after[(orderId, sku)] == items[(orderId, sku)])
  {
    hide ParseRows, Csv.PrintFile, Csv.Printable, Csv.Values, ReadLines, LastFor, Load;
    var rows := Csv.Values(table);
    Csv.ValuesSize(table);
    LinesOfFile(toInt, table, eol, open, source, at, n);
    NoLine(toInt, rows[0], rows[1..], source, false, at, n, (orderId, sku));
    LastRowWins(items, ReadLines(toInt, Csv.PrintFile(table, eol, open), source).lines, time, (orderId, sku));
  }

  lemma {:induction false} LastDocumentWins(orders: Orders, lines: seq<Line>, time: string, orderId: string, sku: string)
    requires LastFor(lines, (orderId, sku)).Some?
    ensures var after, last := LoadDocuments(orders, lines, time), LastFor(lines, (orderId, sku)).value;
            && orderId in after && sku in after[orderId]
            && after[orderId][sku] == Document(sku, last.quantity, last.channel, last.source, time)
  {
    var n := |lines| - 1;
    if KeyOf(lines[n]) != (orderId, sku) {
      LastDocumentWins(orders, lines[..n], time, orderId, sku);
    }
  }

  /** The same for the document at orders/{orderId}/lineItems/{sku} in Firestore. */
  lemma StoredDocument(toInt: string -> Option<int>, orders: Orders, table: seq<seq<Csv.Cell>>, eol: string, open: bool,
                       source: string, time: string, at: Columns, n: nat, r: nat)
    requires OrderFile(toInt, table, eol, open, at, n) && LastOfItsOrderLine(Csv.Values(table)[1..], at, n, r)
    ensures var after := LoadDocuments(orders, ReadLines(toInt, Csv.PrintFile(table, eol, open), source).lines, time);
            var row := Csv.Values(table)[1..][r];
            && Readable(toInt, row, at)
            && row[at.orderId] in after && row[at.sku] in after[row[at.orderId]]
            && after[row[at.orderId]][row[at.sku]]
               == Document(row[at.sku], toInt(row[at.quantity]).value,
                           if at.channel < |row| then Some(row[at.channel]) else None, source, time)
  {
    hide ParseRows, Csv.PrintFile, Csv.Printable, Csv.Values, ReadLines, LastFor, LoadDocuments, Located, ReadsUpto;
    var rows := Csv.Values(table);
    Csv.ValuesSize(table);
    LinesOfFile(toInt, table, eol, open, source, at, n);
    LastLine(toInt, rows[0], rows[1..], source, false, at, n, r);
    var row := rows[1..][r];
    LastDocumentWins(orders, ReadLines(toInt, Csv.PrintFile(table, eol, open), source).lines, time,
                     row[at.orderId], row[at.sku]);
  }
}
