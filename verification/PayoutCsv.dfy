/**
 The payout batch export and a reader for it.  The reader follows section 2 of RFC 4180, with the line feed the
 export uses as its line break: it accepts quoted and plain cells, and refuses stray quotes and unfinished lines.
 */
module PayoutCsv {
  import opened Prelude
  import opened Ledger
  import opened Amounts

  datatype BatchRecipient = BatchRecipient(address: string, amount: U128)
  datatype PayoutBatch = PayoutBatch(
    batchId: string, status: string, txid: Option<string>, recipients: seq<BatchRecipient>, total: U128)

  type Row = seq<string>

  const HEADER: Row :=
    ["batch_id", "status", "txid", "recipient", "amount_base_units", "amount_csd", "total_base_units", "total_csd"]

  // ---------------------------------------------------------------- writing

  predicate NeedsQuotes(value: string) {
    ',' in value || '"' in value || '\n' in value || '\r' in value
  }

  function DoubleQuotes(value: string): string {
    if value == "" then ""
    else (if value[0] == '"' then "\"\"" else [value[0]]) + DoubleQuotes(value[1..])
  }

  function CsvCell(value: string): string {
    if NeedsQuotes(value) then "\"" + DoubleQuotes(value) + "\"" else value
  }

  /** What one line says, cell by cell. */
  function Fields(batch: PayoutBatch, recipient: BatchRecipient): Row {
    [batch.batchId, batch.status, if batch.txid.Some? then batch.txid.value else "", recipient.address,
     Decimal(recipient.amount), FormatCsd(recipient.amount), Decimal(batch.total), FormatCsd(batch.total)]
  }

  function BatchRows(batch: PayoutBatch, recipients: seq<BatchRecipient>): (rows: seq<Row>)
    ensures |rows| == |recipients|
    ensures forall i :: 0 <= i < |recipients| ==> rows[i] == Fields(batch, recipients[i])
  {
    seq(|recipients|, i requires 0 <= i < |recipients| => Fields(batch, recipients[i]))
  }

  function Flat<T>(parts: seq<seq<T>>): seq<T> {
    if parts == [] then [] else Flat(parts[..|parts| - 1]) + parts[|parts| - 1]
  }

  function Parts(batches: seq<PayoutBatch>): (parts: seq<seq<Row>>)
    ensures |parts| == |batches|
    ensures forall b :: 0 <= b < |batches| ==> parts[b] == BatchRows(batches[b], batches[b].recipients)
  {
    seq(|batches|, b requires 0 <= b < |batches| => BatchRows(batches[b], batches[b].recipients))
  }

  function Rows(batches: seq<PayoutBatch>): seq<Row> {
    Flat(Parts(batches))
  }

  /** Texts separated by commas and ended by a line feed. */
  function Joined(texts: seq<string>): string {
    if texts == [] then "\n"
    else if |texts| == 1 then texts[0] + "\n"
    else texts[0] + "," + Joined(texts[1..])
  }

  function Quotable(row: Row): (texts: seq<string>)
    ensures |texts| == |row|
    ensures forall i :: 0 <= i < |row| ==> texts[i] == CsvCell(row[i])
  {
    seq(|row|, i requires 0 <= i < |row| => CsvCell(row[i]))
  }

  /** A line of cells, each written as `csv_cell` would. */
  function Line(row: Row): string {
    Joined(Quotable(row))
  }

  function Lines(rows: seq<Row>): string {
    if rows == [] then "" else Lines(rows[..|rows| - 1]) + Line(rows[|rows| - 1])
  }

  lemma DigitsNeedNoQuotes(s: string)
    requires forall i :: 0 <= i < |s| ==> IsDigit(s[i]) || s[i] == '.'
    ensures CsvCell(s) == s
  {
  }

  /** Digits and points need no quotes, so amounts may be written as they are. */
  lemma AmountsNeedNoQuotes(n: U128)
    ensures CsvCell(Decimal(n)) == Decimal(n) && CsvCell(FormatCsd(n)) == FormatCsd(n)
  {
    DigitsNeedNoQuotes(Decimal(n));
    PointNeedsNoQuotes(Decimal(n / COIN), PadLeft(Decimal(n % COIN), 8));
  }

  lemma PointNeedsNoQuotes(whole: string, frac: string)
    requires AllDigits(whole) && AllDigits(frac)
    ensures CsvCell(whole + "." + frac) == whole + "." + frac
  {
    var text := whole + "." + frac;
    forall i | 0 <= i < |text|
      ensures IsDigit(text[i]) || text[i] == '.'
    {
      if i > |whole| {
        assert text[i] == frac[i - |whole| - 1];
      }
    }
    DigitsNeedNoQuotes(text);
  }

  lemma NameNeedsNoQuotes(s: string)
    requires forall i :: 0 <= i < |s| ==> 'a' <= s[i] <= 'z' || s[i] == '_'
    ensures CsvCell(s) == s
  {
  }

  lemma TextNamesNeedNoQuotes()
    ensures CsvCell("batch_id") == "batch_id" && CsvCell("status") == "status"
    ensures CsvCell("txid") == "txid" && CsvCell("recipient") == "recipient"
  {
    NameNeedsNoQuotes("batch_id");
    NameNeedsNoQuotes("status");
    NameNeedsNoQuotes("txid");
    NameNeedsNoQuotes("recipient");
  }

  lemma AmountNamesNeedNoQuotes()
    ensures CsvCell("amount_base_units") == "amount_base_units" && CsvCell("amount_csd") == "amount_csd"
    ensures CsvCell("total_base_units") == "total_base_units" && CsvCell("total_csd") == "total_csd"
  {
    NameNeedsNoQuotes("amount_base_units");
    NameNeedsNoQuotes("amount_csd");
    NameNeedsNoQuotes("total_base_units");
    NameNeedsNoQuotes("total_csd");
  }

  /** The header names need no quotes either. */
  lemma HeaderNeedsNoQuotes()
    ensures Quotable(HEADER) == HEADER
  {
    TextNamesNeedNoQuotes();
    AmountNamesNeedNoQuotes();
  }

  method PayoutBatchesCsv(batches: seq<PayoutBatch>) returns (csv: string)
    ensures csv == Lines([HEADER] + Rows(batches))
  {
    csv := Joined(HEADER);
    HeaderNeedsNoQuotes();
    csv := AddBatches(HEADER, csv, batches);
  }

  /** The nested loops that append one line per recipient of each batch. */
  method AddBatches(ghost header: Row, start: string, batches: seq<PayoutBatch>) returns (csv: string)
    requires start == Line(header)
    ensures csv == Lines([header] + Rows(batches))
  {
    csv := start;
    LinesAppend([], header);
    assert [header] + Rows([]) == [] + [header];
    for i := 0 to |batches|
      invariant csv == Lines([header] + Rows(batches[..i]))
    {
      var batch := batches[i];
      ghost var before := [header] + Rows(batches[..i]);
      assert before + [] == before;
      for j := 0 to |batch.recipients|
        invariant csv == Lines(before + BatchRows(batch, batch.recipients[..j]))
      {
        NextRow(before, batch, j);
        var line := BatchLine(batch, batch.recipients[j]);
        csv := csv + line;
      }
      NextBatch(header, batches, i);
      assert batch.recipients[..|batch.recipients|] == batch.recipients;
    }
    assert batches[..|batches|] == batches;
  }

  lemma NextBatch(header: Row, batches: seq<PayoutBatch>, i: nat)
    requires i < |batches|
    ensures [header] + Rows(batches[..i + 1]) == [header] + Rows(batches[..i]) + BatchRows(batches[i], batches[i].recipients)
  {
    assert Parts(batches[..i + 1])[..i] == Parts(batches[..i]);
  }

  lemma OneMore<T>(before: seq<T>, some: seq<T>, more: seq<T>, x: T)
    requires |more| == |some| + 1 && more[|some|] == x && forall i :: 0 <= i < |some| ==> more[i] == some[i]
    ensures before + more == before + some + [x]
  {
    assert more == some + [x];
  }

  lemma NextRow(before: seq<Row>, batch: PayoutBatch, j: nat)
    requires j < |batch.recipients|
    ensures Lines(before + BatchRows(batch, batch.recipients[..j + 1])) ==
              Lines(before + BatchRows(batch, batch.recipients[..j])) + Line(Fields(batch, batch.recipients[j]))
  {
    var sofar, row := before + BatchRows(batch, batch.recipients[..j]), Fields(batch, batch.recipients[j]);
    LinesAppend(sofar, row);
    var rows, more := BatchRows(batch, batch.recipients[..j]), BatchRows(batch, batch.recipients[..j + 1]);
    OneMore(before, rows, more, row);
  }

  method BatchLine(batch: PayoutBatch, recipient: BatchRecipient) returns (line: string)
    ensures line == Line(Fields(batch, recipient))
  {
    var txid := if batch.txid.Some? then batch.txid.value else "";
    line := Joined([CsvCell(batch.batchId), CsvCell(batch.status), CsvCell(txid), CsvCell(recipient.address),
                    Decimal(recipient.amount), FormatCsd(recipient.amount), Decimal(batch.total), FormatCsd(batch.total)]);
    AmountsNeedNoQuotes(recipient.amount);
    AmountsNeedNoQuotes(batch.total);
    assert Quotable(Fields(batch, recipient)) ==
           [CsvCell(batch.batchId), CsvCell(batch.status), CsvCell(txid), CsvCell(recipient.address),
            Decimal(recipient.amount), FormatCsd(recipient.amount), Decimal(batch.total), FormatCsd(batch.total)];
  }

  lemma LinesAppend(rows: seq<Row>, row: Row)
    ensures Lines(rows + [row]) == Lines(rows) + Line(row)
  {
    assert (rows + [row])[..|rows|] == rows;
  }

  // ---------------------------------------------------------------- reading

  datatype Mode = Start | Plain | Quoted | AfterQuote
  datatype Reader = Reader(mode: Mode, cell: string, row: Row, rows: seq<Row>)

  function EndCell(r: Reader): Reader {
    Reader(Start, "", r.row + [r.cell], r.rows)
  }

  function EndRow(r: Reader): Reader {
    Reader(Start, "", [], r.rows + [r.row + [r.cell]])
  }

  /** One character of RFC 4180 text. */
  function Step(r: Reader, c: char): Option<Reader> {
    if r.mode == Quoted then Some(if c == '"' then r.(mode := AfterQuote) else r.(cell := r.cell + [c]))
    else if r.mode == AfterQuote && c == '"' then Some(r.(mode := Quoted, cell := r.cell + [c]))
    else if c == ',' then Some(EndCell(r))
    else if c == '\n' then Some(EndRow(r))
    else if r.mode == AfterQuote || c == '\r' then None
    else if c == '"' then if r.mode == Start then Some(r.(mode := Quoted)) else None
    else Some(r.(mode := Plain, cell := r.cell + [c]))
  }

  function Run(r: Reader, text: string): Option<Reader>
    decreases |text|
  {
    if text == "" then Some(r)
    else
      match Step(r, text[0])
      case None => None
      case Some(next) => Run(next, text[1..])
  }

  /** The rows of a text whose last line is finished. */
  function ReadCsv(text: string): Option<seq<Row>> {
    match Run(Reader(Start, "", [], []), text)
    case None => None
    case Some(r) => if r.mode == Start && r.row == [] then Some(r.rows) else None
  }

  lemma {:induction false} RunConcat(r: Reader, a: string, b: string)
    ensures Run(r, a + b) == match Run(r, a) case None => None case Some(next) => Run(next, b)
    decreases |a|
  {
    if a == "" {
      assert a + b == b;
    } else {
      assert (a + b)[1..] == a[1..] + b;
      if Step(r, a[0]).Some? {
        RunConcat(Step(r, a[0]).value, a[1..], b);
      }
    }
  }

  lemma ReadPiece(r: Reader, c: char)
    requires r.mode == Quoted
    ensures Run(r, if c == '"' then "\"\"" else [c]) == Some(r.(cell := r.cell + [c]))
  {
    if c == '"' {
      var piece := "\"\"";
      assert piece[1..] == "\"" && piece[1..][1..] == "";
      assert Run(r, piece) == Run(r.(mode := AfterQuote), "\"");
    } else {
      assert [c][1..] == "";
    }
  }

  lemma {:induction false} ReadQuoted(r: Reader, value: string)
    requires r.mode == Quoted
    ensures Run(r, DoubleQuotes(value)) == Some(r.(cell := r.cell + value))
    decreases |value|
  {
    if value == "" {
      assert r.cell + value == r.cell;
    } else {
      var c := value[0];
      var next := r.(cell := r.cell + [c]);
      var piece := if c == '"' then "\"\"" else [c];
      ReadPiece(r, c);
      RunConcat(r, piece, DoubleQuotes(value[1..]));
      ReadQuoted(next, value[1..]);
      assert r.cell + [c] + value[1..] == r.cell + value;
    }
  }

  lemma TailNeedsNoQuotes(value: string)
    requires value != "" && !NeedsQuotes(value)
    ensures !NeedsQuotes(value[1..]) && value[0] !in {',', '"', '\n', '\r'}
  {
    assert value[0] in value;
    assert forall c :: c in value[1..] ==> c in value;
  }

  lemma {:induction false} ReadPlain(r: Reader, value: string)
    requires r.mode == Start || r.mode == Plain
    requires !NeedsQuotes(value)
    ensures Run(r, value) == Some(if value == "" then r else r.(mode := Plain, cell := r.cell + value))
    decreases |value|
  {
    if value != "" {
      assert value[0] in value;
      var next := r.(mode := Plain, cell := r.cell + [value[0]]);
      TailNeedsNoQuotes(value);
      assert Run(r, value) == Run(next, value[1..]);
      ReadPlain(next, value[1..]);
      if value[1..] == "" {
        assert value == [value[0]];
      }
      assert r.cell + [value[0]] + value[1..] == r.cell + value;
    }
  }

  lemma ReadClosing(r: Reader, delimiter: char)
    requires r.mode == Quoted && (delimiter == ',' || delimiter == '\n')
    ensures Run(r, ['"', delimiter]) == Some(if delimiter == ',' then EndCell(r) else EndRow(r))
  {
    var closing: string := ['"', delimiter];
    assert closing[1..] == [delimiter] && [delimiter][1..] == "";
    var after := r.(mode := AfterQuote);
    assert Run(r, closing) == Run(after, [delimiter]);
    assert Step(after, delimiter) == Some(if delimiter == ',' then EndCell(r) else EndRow(r));
    assert Run(after, [delimiter]) == Run(Step(after, delimiter).value, "");
  }

  /** A written cell is read back, wherever it stands and whatever delimiter follows. */
  lemma ReadCell(r: Reader, value: string, delimiter: char)
    requires r.mode == Start && r.cell == ""
    requires delimiter == ',' || delimiter == '\n'
    ensures Run(r, CsvCell(value) + [delimiter]) ==
              Some(if delimiter == ',' then EndCell(r.(cell := value)) else EndRow(r.(cell := value)))
  {
    if NeedsQuotes(value) {
      var opening := r.(mode := Quoted);
      var body := DoubleQuotes(value);
      var closing: string := ['"', delimiter];
      assert CsvCell(value) + [delimiter] == "\"" + (body + closing);
      RunConcat(r, "\"", body + closing);
      assert Run(r, "\"") == Some(opening);
      RunConcat(opening, body, closing);
      ReadQuoted(opening, value);
      assert "" + value == value;
      ReadClosing(opening.(cell := value), delimiter);
    } else {
      RunConcat(r, value, [delimiter]);
      ReadPlain(r, value);
      assert "" + value == value;
      assert [delimiter][1..] == "";
    }
  }

  lemma {:induction false} ReadLine(r: Reader, row: Row)
    requires r.mode == Start && r.cell == "" && row != []
    ensures Run(r, Line(row)) == Some(Reader(Start, "", [], r.rows + [r.row + row]))
    decreases |row|
  {
    assert Quotable(row)[1..] == Quotable(row[1..]);
    if |row| == 1 {
      ReadCell(r, row[0], '\n');
      assert r.row + [row[0]] == r.row + row;
    } else {
      ReadCell(r, row[0], ',');
      var next := EndCell(r.(cell := row[0]));
      ReadLine(next, row[1..]);
      assert r.row + [row[0]] + row[1..] == r.row + row;
      RunConcat(r, CsvCell(row[0]) + ",", Line(row[1..]));
    }
  }

  lemma {:induction false} ReadLines(rows: seq<Row>)
    requires forall row :: row in rows ==> row != []
    ensures Run(Reader(Start, "", [], []), Lines(rows)) == Some(Reader(Start, "", [], rows))
    decreases |rows|
  {
    if rows != [] {
      var init, last := rows[..|rows| - 1], rows[|rows| - 1];
      assert forall row :: row in init ==> row in rows;
      assert last in rows;
      ReadLines(init);
      RunConcat(Reader(Start, "", [], []), Lines(init), Line(last));
      ReadLine(Reader(Start, "", [], init), last);
      assert [] + last == last;
      assert init + [last] == rows;
    }
  }

  /** Reading any table that was written gives the table back: no cell can break out of its place. */
  lemma WrittenTablesAreRead(rows: seq<Row>)
    requires forall row :: row in rows ==> row != []
    ensures ReadCsv(Lines(rows)) == Some(rows)
  {
    ReadLines(rows);
  }

  lemma {:induction false} FlatHas<T>(parts: seq<seq<T>>, x: T)
    requires x in Flat(parts)
    ensures exists b :: 0 <= b < |parts| && x in parts[b]
    decreases |parts|
  {
    var init := parts[..|parts| - 1];
    if x in Flat(init) {
      FlatHas(init, x);
      var b :| 0 <= b < |init| && x in init[b];
      assert x in parts[b];
    }
  }

  lemma RowsHaveCells(batches: seq<PayoutBatch>)
    ensures forall row :: row in Rows(batches) ==> |row| == 8
  {
    forall row | row in Rows(batches)
      ensures |row| == 8
    {
      FlatHas(Parts(batches), row);
    }
  }

  /** The export of any batches is read as the header and one row of eight cells per recipient. */
  lemma ExportIsReadBack(batches: seq<PayoutBatch>)
    ensures ReadCsv(Lines([HEADER] + Rows(batches))) == Some([HEADER] + Rows(batches))
  {
    RowsHaveCells(batches);
    WrittenTablesAreRead([HEADER] + Rows(batches));
  }

  // ---------------------------------------------------------------- which value stands where

  /** The cell in the column of this name holds `value`. */
  predicate Cell(row: Row, name: string, value: string) {
    exists c :: 0 <= c < |HEADER| && HEADER[c] == name && |row| == |HEADER| && row[c] == value
  }

  /** The cell in that column is the plain decimal number `n`. */
  predicate NumberCell(row: Row, name: string, n: U128) {
    exists c :: 0 <= c < |HEADER| && HEADER[c] == name && |row| == |HEADER|
      && row[c] != "" && AllDigits(row[c]) && DecimalValue(row[c]) == n
  }

  /** The cell in that column reads as an amount of `n` base units. */
  predicate AmountCell(row: Row, name: string, n: U128) {
    exists c :: 0 <= c < |HEADER| && HEADER[c] == name && |row| == |HEADER| && ParseCsd(row[c]) == Ok(n)
  }

  /** What a reader of the table learns about one recipient of one batch. */
  predicate Tells(row: Row, batch: PayoutBatch, recipient: BatchRecipient) {
    && Cell(row, "batch_id", batch.batchId) && Cell(row, "status", batch.status)
    && Cell(row, "txid", if batch.txid.Some? then batch.txid.value else "")
    && Cell(row, "recipient", recipient.address)
    && NumberCell(row, "amount_base_units", recipient.amount) && AmountCell(row, "amount_csd", recipient.amount)
    && NumberCell(row, "total_base_units", batch.total) && AmountCell(row, "total_csd", batch.total)
  }

  lemma TextCells(row: Row, batch: PayoutBatch, recipient: BatchRecipient)
    requires row == Fields(batch, recipient)
    ensures Cell(row, "batch_id", batch.batchId) && Cell(row, "status", batch.status)
    ensures Cell(row, "txid", if batch.txid.Some? then batch.txid.value else "")
    ensures Cell(row, "recipient", recipient.address)
  {
    assert HEADER[0] == "batch_id" && HEADER[1] == "status" && HEADER[2] == "txid" && HEADER[3] == "recipient";
  }

  lemma AmountCells(row: Row, c: nat, number: string, amount: string, n: U128)
    requires |row| == |HEADER| && c + 1 < |row| && HEADER[c] == number && HEADER[c + 1] == amount
    requires row[c] == Decimal(n) && row[c + 1] == FormatCsd(n)
    ensures NumberCell(row, number, n) && AmountCell(row, amount, n)
  {
    DecimalIsExact(n);
    FormatThenParse(n);
  }

  /** How many recipients the batches have together. */
  function Recipients(batches: seq<PayoutBatch>): nat {
    if batches == [] then 0 else Recipients(batches[..|batches| - 1]) + |batches[|batches| - 1].recipients|
  }

  lemma {:induction false} FlatCount(batches: seq<PayoutBatch>, parts: seq<seq<Row>>)
    requires |parts| == |batches| && forall b :: 0 <= b < |batches| ==> |parts[b]| == |batches[b].recipients|
    ensures |Flat(parts)| == Recipients(batches)
    decreases |batches|
  {
    if batches != [] {
      FlatCount(batches[..|batches| - 1], parts[..|batches| - 1]);
    }
  }

  lemma {:induction false} FlatAt<T>(parts: seq<seq<T>>, b: nat, i: nat)
    requires b < |parts| && i < |parts[b]|
    ensures |Flat(parts[..b])| + i < |Flat(parts)| && Flat(parts)[|Flat(parts[..b])| + i] == parts[b][i]
    decreases |parts|
  {
    var init := parts[..|parts| - 1];
    if b < |init| {
      assert init[..b] == parts[..b];
      FlatAt(init, b, i);
    }
  }

  lemma UnderHeader(header: Row, rows: seq<Row>, table: seq<Row>, k: nat, row: Row)
    requires table == [header] + rows && 0 < k <= |rows| && rows[k - 1] == row
    ensures |table| == 1 + |rows| && table[0] == header && table[k] == row
  {
  }

  /**
   A reader of the export finds the header, and then for every recipient of every batch, in order, one row whose
   columns of those names hold the texts of the batch and the recipient and both amounts, plain and in coins.
   */
  lemma EveryRecipientIsTold(batches: seq<PayoutBatch>, b: nat, i: nat) returns (table: seq<Row>, k: nat)
    requires b < |batches| && i < |batches[b].recipients|
    ensures ReadCsv(Lines([HEADER] + Rows(batches))) == Some(table)
    ensures |table| == 1 + Recipients(batches) && table[0] == HEADER
    ensures k == 1 + Recipients(batches[..b]) + i < |table|
    ensures Tells(table[k], batches[b], batches[b].recipients[i])
  {
    table, k := [HEADER] + Rows(batches), 1 + Recipients(batches[..b]) + i;
    TableTells(batches, table, k, b, i);
    assert ReadCsv(Lines([HEADER] + Rows(batches))) == Some(table) by {
      ExportIsReadBack(batches);
    }
  }

  lemma TableTells(batches: seq<PayoutBatch>, table: seq<Row>, k: nat, b: nat, i: nat)
    requires b < |batches| && i < |batches[b].recipients|
    requires table == [HEADER] + Rows(batches) && k == 1 + Recipients(batches[..b]) + i
    ensures |table| == 1 + Recipients(batches) && table[0] == HEADER && k < |table|
    ensures Tells(table[k], batches[b], batches[b].recipients[i])
  {
    TableRow(batches, table, k, b, i);
    IsTold(table[k], batches[b], batches[b].recipients[i]);
  }

  lemma TableRow(batches: seq<PayoutBatch>, table: seq<Row>, k: nat, b: nat, i: nat)
    requires b < |batches| && i < |batches[b].recipients|
    requires table == [HEADER] + Rows(batches) && k == 1 + Recipients(batches[..b]) + i
    ensures |table| == 1 + Recipients(batches) && table[0] == HEADER && k < |table|
    ensures table[k] == Fields(batches[b], batches[b].recipients[i])
  {
    FlatCount(batches, Parts(batches));
    RowAt(batches, b, i);
    UnderHeader(HEADER, Rows(batches), table, k, Fields(batches[b], batches[b].recipients[i]));
  }

  lemma IsTold(row: Row, batch: PayoutBatch, recipient: BatchRecipient)
    requires row == Fields(batch, recipient)
    ensures Tells(row, batch, recipient)
  {
    TextCells(row, batch, recipient);
    RowAmounts(row, batch, recipient);
  }

  lemma RowAmounts(row: Row, batch: PayoutBatch, recipient: BatchRecipient)
    requires row == Fields(batch, recipient)
    ensures NumberCell(row, "amount_base_units", recipient.amount) && AmountCell(row, "amount_csd", recipient.amount)
    ensures NumberCell(row, "total_base_units", batch.total) && AmountCell(row, "total_csd", batch.total)
  {
    AmountCells(row, 4, "amount_base_units", "amount_csd", recipient.amount);
    AmountCells(row, 6, "total_base_units", "total_csd", batch.total);
  }

  lemma RowAt(batches: seq<PayoutBatch>, b: nat, i: nat)
    requires b < |batches| && i < |batches[b].recipients|
    ensures Recipients(batches[..b]) + i < |Rows(batches)|
    ensures Rows(batches)[Recipients(batches[..b]) + i] == Fields(batches[b], batches[b].recipients[i])
  {
    assert Parts(batches)[..b] == Parts(batches[..b]);
    FlatCount(batches[..b], Parts(batches[..b]));
    FlatAt(Parts(batches), b, i);
  }
}
