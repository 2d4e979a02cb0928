/**
 The CSV printer of the analytics export, against a reader of quoted fields (apps-script/src/07_Analytics.gs,
 apps-script/src/01_Utils.gs).
 */
module Csv {
  import opened Prelude

  /** A cell's text, or `None` for null and undefined. */
  type Cell = Option<string>

  function TextOf(c: Cell): string {
    if c.Some? then c.value else ""
  }

  // ---------------------------------------------------------------- the printer

  predicate NeedsQuotes(text: string) {
    exists k :: 0 <= k < |text| && (text[k] == '"' || text[k] == ',' || text[k] == '\n' || text[k] == '\r')
  }

  function Doubled(c: char): string {
    if c == '"' then "\"\"" else [c]
  }

  /** The first `n` characters with their quotes doubled. */
  function DoubleQuotes(text: string, n: nat): string
    requires n <= |text|
  {
    if n == 0 then "" else DoubleQuotes(text, n - 1) + Doubled(text[n - 1])
  }

  function Escape(c: Cell): string {
    if c.None? then ""
    else if NeedsQuotes(c.value) then "\"" + DoubleQuotes(c.value, |c.value|) + "\""
    else c.value
  }

  /** The first `n` parts with the separator between them. */
  function Join(parts: seq<string>, separator: char, n: nat): string
    requires n <= |parts|
  {
    if n == 0 then ""
    else if n == 1 then parts[0]
    else Join(parts, separator, n - 1) + [separator] + parts[n - 1]
  }

  function Escaped(row: seq<Cell>): seq<string> {
    seq(|row|, k requires 0 <= k < |row| => Escape(row[k]))
  }

  function Line(row: seq<Cell>): string {
    Join(Escaped(row), ',', |row|)
  }

  function Lines(table: seq<seq<Cell>>): seq<string> {
    seq(|table|, k requires 0 <= k < |table| => Line(table[k]))
  }

  /** The exported text of a table: the header row and the report's rows, one line each. */
  function Print(table: seq<seq<Cell>>): string {
    Join(Lines(table), '\n', |table|)
  }

  /** The export's loop over the report: push the header line, then one line a row. */
  method ExportLines(headers: seq<Cell>, rows: seq<seq<Cell>>) returns (text: string)
    ensures text == Print([headers] + rows)
  {
    var lines := [Line(headers)];
    for i := 0 to |rows|
      invariant |lines| == i + 1 && lines[0] == Line(headers)
      invariant forall k :: 0 <= k < i ==> lines[k + 1] == Line(rows[k])
    {
      lines := lines + [Line(rows[i])];
    }
    var table := [headers] + rows;
    assert lines == Lines(table);
    text := Join(lines, '\n', |lines|);
  }

  // ---------------------------------------------------------------- the reader

  /**
   Section 2 of RFC 4180 with LF between records, one character at a time: a field is either bare, without quotes,
   commas or line ends, or quoted with its quotes doubled.
   */
  datatype Mode = AtStart | Bare | Quoted | Closed | Broken

  datatype Reader = Reader(records: seq<seq<string>>, fields: seq<string>, field: string, mode: Mode)

  const START: Reader := Reader([], [], "", AtStart)

  function Step(r: Reader, c: char): Reader {
    match r.mode
    case Broken => r
    case Quoted => if c == '"' then r.(mode := Closed) else r.(field := r.field + [c])
    case _ =>
      if c == ',' then Reader(r.records, r.fields + [r.field], "", AtStart)
      else if c == '\n' then Reader(r.records + [r.fields + [r.field]], [], "", AtStart)
      else if c == '"' && r.mode == AtStart then r.(mode := Quoted)
      else if c == '"' && r.mode == Closed then r.(field := r.field + ['"'], mode := Quoted)
      else if c == '"' || c == '\r' || r.mode == Closed then r.(mode := Broken)
      else r.(field := r.field + [c], mode := Bare)
  }

  /** The reader after the first `n` characters. */
  function FeedTo(r: Reader, s: string, n: nat): Reader
    requires n <= |s|
  {
    if n == 0 then r else Step(FeedTo(r, s, n - 1), s[n - 1])
  }

  function Feed(r: Reader, s: string): Reader {
    FeedTo(r, s, |s|)
  }

  /** The records of a complete text, unless it is malformed. */
  function Read(s: string): Option<seq<seq<string>>> {
    var r := Feed(START, s);
    if r.mode == Broken || r.mode == Quoted then None else Some(r.records + [r.fields + [r.field]])
  }

  lemma {:induction false} FeedPrefix(r: Reader, a: string, b: string, n: nat)
    requires n <= |a|
    ensures FeedTo(r, a + b, n) == FeedTo(r, a, n)
  {
    if n > 0 {
      FeedPrefix(r, a, b, n - 1);
    }
  }

  lemma {:induction false} FeedRest(r: Reader, a: string, b: string, n: nat)
    requires n <= |b|
    ensures FeedTo(r, a + b, |a| + n) == FeedTo(Feed(r, a), b, n)
  {
    if n == 0 {
      FeedPrefix(r, a, b, |a|);
    } else {
      FeedRest(r, a, b, n - 1);
      assert (a + b)[|a| + n - 1] == b[n - 1];
    }
  }

  lemma FeedAppend(r: Reader, a: string, b: string)
    ensures Feed(r, a + b) == Feed(Feed(r, a), b)
  {
    FeedRest(r, a, b, |b|);
  }

  lemma FeedOne(r: Reader, c: char)
    ensures Feed(r, [c]) == Step(r, c)
  {
    assert FeedTo(r, [c], 0) == r;
  }

  /** A field is complete: whatever separator comes next, it is read as `text`. */
  predicate Ready(r: Reader, records: seq<seq<string>>, fields: seq<string>, text: string) {
    && r.records == records && r.fields == fields && r.field == text
    && (r.mode == AtStart || r.mode == Bare || r.mode == Closed)
  }

  predicate Fresh(r: Reader) {
    r.mode == AtStart && r.field == ""
  }

  lemma {:induction false} BareTextIsRead(r: Reader, text: string, n: nat)
    requires Fresh(r) && !NeedsQuotes(text) && n <= |text|
    ensures Ready(FeedTo(r, text, n), r.records, r.fields, text[..n])
    ensures FeedTo(r, text, n).mode != Closed
  {
    if n > 0 {
      BareTextIsRead(r, text, n - 1);
      assert text[..n] == text[..n - 1] + [text[n - 1]];
    }
  }

  lemma QuotedCharIsRead(r: Reader, c: char)
    requires r.mode == Quoted
    ensures Feed(r, Doubled(c)) == r.(field := r.field + [c])
  {
    FeedOne(r, c);
    if c == '"' {
      FeedAppend(r, [c], [c]);
      FeedOne(Step(r, c), c);
      assert Doubled(c) == [c] + [c];
    }
  }

  lemma {:induction false} QuotedTextIsRead(r: Reader, text: string, n: nat)
    requires r.mode == Quoted && r.field == "" && n <= |text|
    ensures Feed(r, DoubleQuotes(text, n)) == r.(field := text[..n])
  {
    if n > 0 {
      QuotedTextIsRead(r, text, n - 1);
      FeedAppend(r, DoubleQuotes(text, n - 1), Doubled(text[n - 1]));
      QuotedCharIsRead(r.(field := text[..n - 1]), text[n - 1]);
      assert text[..n] == text[..n - 1] + [text[n - 1]];
    }
  }

  /** An escaped cell reads back as its text. */
  lemma CellIsRead(r: Reader, c: Cell)
    requires Fresh(r)
    ensures Ready(Feed(r, Escape(c)), r.records, r.fields, TextOf(c))
  {
    if c.Some? && NeedsQuotes(c.value) {
      var body := DoubleQuotes(c.value, |c.value|);
      assert Escape(c) == ['"'] + (body + ['"']);
      FeedAppend(r, ['"'], body + ['"']);
      FeedOne(r, '"');
      var q := r.(mode := Quoted);
      FeedAppend(q, body, ['"']);
      QuotedTextIsRead(q, c.value, |c.value|);
      assert c.value[..|c.value|] == c.value;
      FeedOne(q.(field := c.value), '"');
    } else {
      var text := TextOf(c);
      BareTextIsRead(r, text, |text|);
      assert text[..|text|] == text;
    }
  }

  /** The texts of a row's first `n` cells. */
  function TextsTo(row: seq<Cell>, n: nat): (texts: seq<string>)
    requires n <= |row|
    ensures |texts| == n
  {
    seq(n, k requires 0 <= k < n => TextOf(row[k]))
  }

  function Texts(row: seq<Cell>): seq<string> {
    TextsTo(row, |row|)
  }

  lemma OneMoreText(row: seq<Cell>, n: nat)
    requires n < |row|
    ensures TextsTo(row, n + 1) == TextsTo(row, n) + [TextOf(row[n])]
  {
  }

  /** A separator after a ready field starts the next one, where the next cell's text is read. */
  lemma NextCellIsRead(r: Reader, line: string, records: seq<seq<string>>, fields: seq<string>, text: string, c: Cell)
    requires Ready(Feed(r, line), records, fields, text)
    ensures Ready(Feed(r, line + [','] + Escape(c)), records, fields + [text], TextOf(c))
  {
    FeedAppend(r, line + [','], Escape(c));
    FeedAppend(r, line, [',']);
    FeedOne(Feed(r, line), ',');
    CellIsRead(Reader(records, fields + [text], "", AtStart), c);
  }

  /** After `n + 1` cells of a row all but the last are complete, and the last is all but complete. */
  predicate CellsRead(r: Reader, records: seq<seq<string>>, row: seq<Cell>, n: nat)
    requires n < |row|
  {
    Ready(r, records, TextsTo(row, n), TextOf(row[n]))
  }

  lemma FirstCellIsRead(r: Reader, row: seq<Cell>)
    requires Fresh(r) && r.fields == [] && row != []
    ensures CellsRead(Feed(r, Join(Escaped(row), ',', 1)), r.records, row, 0)
  {
    CellIsRead(r, row[0]);
    assert Join(Escaped(row), ',', 1) == Escape(row[0]);
  }

  lemma LineGrows(r: Reader, records: seq<seq<string>>, row: seq<Cell>, n: nat)
    requires 0 < n < |row| && CellsRead(Feed(r, Join(Escaped(row), ',', n)), records, row, n - 1)
    ensures CellsRead(Feed(r, Join(Escaped(row), ',', n + 1)), records, row, n)
  {
    NextCellIsRead(r, Join(Escaped(row), ',', n), records, TextsTo(row, n - 1), TextOf(row[n - 1]), row[n]);
    OneMoreText(row, n - 1);
  }

  lemma {:induction false} LineIsRead(r: Reader, row: seq<Cell>, n: nat)
    requires Fresh(r) && r.fields == [] && n < |row|
    ensures CellsRead(Feed(r, Join(Escaped(row), ',', n + 1)), r.records, row, n)
  {
    if n == 0 {
      FirstCellIsRead(r, row);
    } else {
      LineIsRead(r, row, n - 1);
      LineGrows(r, r.records, row, n);
    }
  }

  /** The texts of a table's first `n` rows. */
  function TableTo(table: seq<seq<Cell>>, n: nat): (texts: seq<seq<string>>)
    requires n <= |table|
    ensures |texts| == n
  {
    seq(n, k requires 0 <= k < n => Texts(table[k]))
  }

  function AllTexts(table: seq<seq<Cell>>): seq<seq<string>> {
    TableTo(table, |table|)
  }

  lemma OneMoreRow(table: seq<seq<Cell>>, n: nat)
    requires n < |table|
    ensures TableTo(table, n + 1) == TableTo(table, n) + [Texts(table[n])]
  {
  }

  predicate NoEmptyRow(table: seq<seq<Cell>>) {
    forall k :: 0 <= k < |table| ==> table[k] != []
  }

  /** After `records`, the row is read up to the end of its line. */
  predicate RowRead(r: Reader, records: seq<seq<string>>, row: seq<Cell>)
    requires row != []
  {
    CellsRead(r, records, row, |row| - 1)
  }

  lemma EndOfRecord(r: Reader, records: seq<seq<string>>, row: seq<Cell>)
    requires row != [] && RowRead(r, records, row)
    ensures Step(r, '\n') == Reader(records + [Texts(row)], [], "", AtStart)
    ensures r.fields + [r.field] == Texts(row)
  {
    OneMoreText(row, |row| - 1);
  }

  lemma NextRowIsRead(r: Reader, text: string, records: seq<seq<string>>, row: seq<Cell>, next: seq<Cell>)
    requires row != [] && next != [] && RowRead(Feed(r, text), records, row)
    ensures RowRead(Feed(r, text + ['\n'] + Line(next)), records + [Texts(row)], next)
  {
    FeedAppend(r, text + ['\n'], Line(next));
    FeedAppend(r, text, ['\n']);
    FeedOne(Feed(r, text), '\n');
    EndOfRecord(Feed(r, text), records, row);
    LineIsRead(Reader(records + [Texts(row)], [], "", AtStart), next, |next| - 1);
  }

  lemma {:induction false} TableIsRead(table: seq<seq<Cell>>, n: nat)
    requires n < |table| && NoEmptyRow(table)
    ensures RowRead(Feed(START, Join(Lines(table), '\n', n + 1)), TableTo(table, n), table[n])
  {
    if n == 0 {
      LineIsRead(START, table[0], |table[0]| - 1);
    } else {
      TableIsRead(table, n - 1);
      NextRowIsRead(START, Join(Lines(table), '\n', n), TableTo(table, n - 1), table[n - 1], table[n]);
      OneMoreRow(table, n - 1);
    }
  }

  lemma {:induction false} ReaderNeverReadsAnEmptyRecord(s: string, n: nat)
    requires n <= |s|
    ensures forall k :: 0 <= k < |FeedTo(START, s, n).records| ==> FeedTo(START, s, n).records[k] != []
  {
    if n > 0 {
      ReaderNeverReadsAnEmptyRecord(s, n - 1);
    }
  }

  /** A cell that no reader could mistake is printed as it is, any other one between quotes. */
  lemma QuotedIffNeeded(c: Cell)
    ensures Escape(c) == TextOf(c) <==>
            forall k :: 0 <= k < |TextOf(c)| ==> TextOf(c)[k] !in {'"', ',', '\n', '\r'}
    ensures Escape(c) != TextOf(c) ==> |Escape(c)| > 2 && Escape(c)[0] == '"' && Escape(c)[|Escape(c)| - 1] == '"'
  {
    if c.Some? && NeedsQuotes(c.value) {
      DoublingOnlyGrows(c.value, |c.value|);
    }
  }

  lemma {:induction false} DoublingOnlyGrows(text: string, n: nat)
    requires n <= |text|
    ensures |DoubleQuotes(text, n)| >= n
  {
    if n > 0 {
      DoublingOnlyGrows(text, n - 1);
    }
  }

  /** The exported file reads back as the text of every cell, null as empty, exactly when every row has a cell. */
  lemma ReadBackIffNoEmptyRow(table: seq<seq<Cell>>)
    requires table != []
    ensures Read(Print(table)) == Some(AllTexts(table)) <==> NoEmptyRow(table)
  {
    if NoEmptyRow(table) {
      var n := |table| - 1;
      TableIsRead(table, n);
      EndOfRecord(Feed(START, Print(table)), TableTo(table, n), table[n]);
      OneMoreRow(table, n);
    } else {
      var k :| 0 <= k < |table| && table[k] == [];
      ReaderNeverReadsAnEmptyRecord(Print(table), |Print(table)|);
      assert AllTexts(table)[k] == [];
      assert Read(Print(table)).Some? && k < |Read(Print(table)).value| ==> Read(Print(table)).value[k] != [];
    }
  }

  /** So the printer is injective on the texts of such tables. */
  lemma PrintIsInjective(a: seq<seq<Cell>>, b: seq<seq<Cell>>)
    requires a != [] && b != [] && NoEmptyRow(a) && NoEmptyRow(b)
    ensures AllTexts(a) != AllTexts(b) ==> Print(a) != Print(b)
  {
    ReadBackIffNoEmptyRow(a);
    ReadBackIffNoEmptyRow(b);
  }
}
