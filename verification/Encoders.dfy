/** The CSV export of frontend/src/components/AuditLogTable.tsx and a reader of its format. */
module CsvExport {
  import opened Options
  import opened Sequences

  const QUOTE := '"'
  const COLUMNS := [
    "timestamp", "sample_filename", "sample_hash", "hash", "source", "verdict", "action", "actor", "confidence"]

  /** A row by column; a column it lacks is null or undefined. */
  type Row = map<string, string>

  predicate NeedsQuotes(s: string) {
    QUOTE in s || ',' in s || '\n' in s
  }

  function Doubled(s: string): string {
    if s == "" then ""
    else
      var last := |s| - 1;
      Doubled(s[..last]) + if s[last] == QUOTE then "\"\"" else [s[last]]
  }

  function CsvCell(s: string): string {
    if NeedsQuotes(s) then [QUOTE] + Doubled(s) + [QUOTE] else s
  }

  /** A cell is put in quotes only if it needs them. */
  lemma QuotedIfNeeded(s: string)
    ensures CsvCell(s) == s <==> '"' !in s && ',' !in s && '\n' !in s
    ensures CsvCell(s) != s ==> |CsvCell(s)| >= 2 && CsvCell(s)[0] == '"' && CsvCell(s)[|CsvCell(s)| - 1] == '"'
  {
    if CsvCell(s) == s && NeedsQuotes(s) {
      DoubledIsLonger(s);
    }
  }

  lemma {:induction false} DoubledIsLonger(s: string)
    ensures |Doubled(s)| >= |s|
  {
    if s != "" {
      DoubledIsLonger(s[..|s| - 1]);
    }
  }

  /** [a, b, c].join(separator) */
  function JoinWith(separator: char, parts: seq<string>): string {
    if parts == [] then ""
    else if |parts| == 1 then parts[0]
    else JoinWith(separator, parts[..|parts| - 1]) + [separator] + parts[|parts| - 1]
  }

  function Value(row: Row, column: string): string {
    if column in row then row[column] else ""
  }

  /** The values of the given columns of a row. */
  function Values(row: Row, columns: seq<string>): seq<string> {
    if columns == [] then []
    else Values(row, columns[..|columns| - 1]) + [Value(row, columns[|columns| - 1])]
  }

  function Cells(values: seq<string>): seq<string> {
    Map(CsvCell, values)
  }

  function Line(values: seq<string>): string {
    JoinWith(',', Cells(values))
  }

  function Lines(records: seq<seq<string>>): seq<string> {
    Map(Line, records)
  }

  /** What the file says: the header, then each row's values. */
  function Table(rows: seq<Row>): seq<seq<string>> {
    if rows == [] then [COLUMNS]
    else Table(rows[..|rows| - 1]) + [Values(rows[|rows| - 1], COLUMNS)]
  }

  // --- A reader: section 2 of RFC 4180, with records ended by LF -------------------------------

  datatype Mode = FieldStart | Plain | Quoted | AfterQuote | Bad
  datatype Reader = Reader(rows: seq<seq<string>>, row: seq<string>, field: string, mode: Mode)

  function EndField(r: Reader): Reader {
    Reader(r.rows, r.row + [r.field], "", FieldStart)
  }

  function EndRecord(r: Reader): Reader {
    Reader(r.rows + [r.row + [r.field]], [], "", FieldStart)
  }

  function Feed(r: Reader, c: char): Reader {
    match r.mode
    case Bad => r
    case Quoted => if c == QUOTE then r.(mode := AfterQuote) else r.(field := r.field + [c])
    case AfterQuote =>
      if c == QUOTE then r.(field := r.field + [c], mode := Quoted)
      else if c == ',' then EndField(r)
      else if c == '\n' then EndRecord(r)
      else r.(mode := Bad)
    case _ =>
      if c == ',' then EndField(r)
      else if c == '\n' then EndRecord(r)
      else if c == QUOTE then r.(mode := if r.mode.FieldStart? then Quoted else Bad)
      else r.(field := r.field + [c], mode := Plain)
  }

  function FeedAll(r: Reader, text: string): Reader {
    Fold(Feed, r, text)
  }

  function Read(text: string): Option<seq<seq<string>>> {
    var r := FeedAll(Reader([], [], "", FieldStart), text);
    if r.mode.Quoted? || r.mode.Bad? then None else Some(EndRecord(r).rows)
  }

  lemma FeedMore(r: Reader, a: string, c: char)
    ensures FeedAll(r, a + [c]) == Feed(FeedAll(r, a), c)
  {
    assert (a + [c])[..|a|] == a;
  }

  lemma {:induction false} PlainIsRead(r: Reader, s: string)
    requires r.mode.FieldStart? && r.field == "" && !NeedsQuotes(s)
    ensures FeedAll(r, s) == r.(field := s, mode := if s == "" then FieldStart else Plain)
  {
    if s != "" {
      var last := |s| - 1;
      PlainIsRead(r, s[..last]);
      assert s == s[..last] + [s[last]];
    }
  }

  lemma FeedPair(r: Reader, a: string)
    requires FeedAll(r, a).mode.Quoted?
    ensures FeedAll(r, a + "\"\"") == FeedAll(r, a).(field := FeedAll(r, a).field + [QUOTE])
  {
    FeedMore(r, a, QUOTE);
    FeedMore(r, a + [QUOTE], QUOTE);
    assert a + "\"\"" == a + [QUOTE] + [QUOTE];
  }

  lemma QuotedNext(r: Reader, front: string, c: char)
    requires FeedAll(r, Doubled(front)) == r.(field := front) && r.mode.Quoted?
    ensures FeedAll(r, Doubled(front + [c])) == r.(field := front + [c])
  {
    assert (front + [c])[..|front|] == front;
    if c == QUOTE {
      FeedPair(r, Doubled(front));
    } else {
      FeedMore(r, Doubled(front), c);
    }
  }

  lemma {:induction false} QuotedIsRead(r: Reader, s: string)
    requires r.mode.Quoted? && r.field == ""
    ensures FeedAll(r, Doubled(s)) == r.(field := s)
  {
    if s != "" {
      var last := |s| - 1;
      QuotedIsRead(r, s[..last]);
      QuotedNext(r, s[..last], s[last]);
      assert s == s[..last] + [s[last]];
    }
  }

  /** A reader between the end of a field's text and its separator. */
  predicate HasField(r: Reader, rows: seq<seq<string>>, row: seq<string>, field: string) {
    r.rows == rows && r.row == row && r.field == field && (r.mode.FieldStart? || r.mode.Plain? || r.mode.AfterQuote?)
  }

  lemma FieldEnds(r: Reader, rows: seq<seq<string>>, values: seq<string>)
    requires values != [] && HasField(r, rows, values[..|values| - 1], values[|values| - 1])
    ensures Feed(r, ',') == Reader(rows, values, "", FieldStart)
  {
    assert values == values[..|values| - 1] + [values[|values| - 1]];
  }

  lemma RecordEnds(r: Reader, records: seq<seq<string>>)
    requires records != [] && records[|records| - 1] != []
    requires var last := records[|records| - 1];
      HasField(r, records[..|records| - 1], last[..|last| - 1], last[|last| - 1])
    ensures Feed(r, '\n') == EndRecord(r) == Reader(records, [], "", FieldStart)
  {
    var last := records[|records| - 1];
    assert last == last[..|last| - 1] + [last[|last| - 1]];
    assert records == records[..|records| - 1] + [last];
  }

  lemma QuotedCellIsRead(r: Reader, s: string)
    requires r.mode.FieldStart? && r.field == ""
    ensures FeedAll(r, [QUOTE] + Doubled(s) + [QUOTE]) == r.(field := s, mode := AfterQuote)
  {
    FeedMore(r, "", QUOTE);
    assert "" + [QUOTE] == [QUOTE];
    QuotedIsRead(r.(mode := Quoted), s);
    FoldConcat(Feed, r, [QUOTE], Doubled(s));
    FeedMore(r, [QUOTE] + Doubled(s), QUOTE);
  }

  lemma CellIsRead(r: Reader, s: string)
    requires r.mode.FieldStart? && r.field == ""
    ensures HasField(FeedAll(r, CsvCell(s)), r.rows, r.row, s)
  {
    if NeedsQuotes(s) {
      QuotedCellIsRead(r, s);
    } else {
      PlainIsRead(r, s);
    }
  }

  lemma {:induction false} LineIsRead(r: Reader, values: seq<string>)
    requires r.mode.FieldStart? && r.field == "" && r.row == [] && values != []
    ensures HasField(FeedAll(r, Line(values)), r.rows, values[..|values| - 1], values[|values| - 1])
  {
    var last := |values| - 1;
    var front := values[..last];
    if last == 0 {
      assert Cells(values) == [CsvCell(values[0])];
      CellIsRead(r, values[0]);
    } else {
      LineIsRead(r, front);
      var text := Line(front);
      assert Cells(values)[..last] == Cells(front);
      FeedMore(r, text, ',');
      var next := FeedAll(r, text + [',']);
      FieldEnds(FeedAll(r, text), r.rows, front);
      FoldConcat(Feed, r, text + [','], CsvCell(values[last]));
      CellIsRead(next, values[last]);
    }
  }

  /** The reader has read `records`, the last of them but for its end. */
  ghost predicate HasRecords(r: Reader, records: seq<seq<string>>) {
    records != [] &&
    var last := records[|records| - 1];
    last != [] && HasField(r, records[..|records| - 1], last[..|last| - 1], last[|last| - 1])
  }

  lemma NextRecordIsRead(start: Reader, text: string, front: seq<seq<string>>, record: seq<string>)
    requires HasRecords(FeedAll(start, text), front) && record != []
    ensures HasRecords(FeedAll(start, text + ['\n'] + Line(record)), front + [record])
  {
    FeedMore(start, text, '\n');
    RecordEnds(FeedAll(start, text), front);
    FoldConcat(Feed, start, text + ['\n'], Line(record));
    LineIsRead(FeedAll(start, text + ['\n']), record);
  }

  lemma LinesAppend(front: seq<seq<string>>, record: seq<string>)
    ensures Lines(front + [record]) == Lines(front) + [Line(record)]
  {
    MapAppend(Line, front, record);
  }

  lemma JoinAppend(separator: char, parts: seq<string>, last: string)
    ensures JoinWith(separator, parts + [last]) ==
      if parts == [] then last else JoinWith(separator, parts) + [separator] + last
  {
    assert (parts + [last])[..|parts|] == parts;
  }

  lemma JoinLines(front: seq<seq<string>>, record: seq<string>)
    ensures JoinWith('\n', Lines(front + [record])) ==
      if front == [] then Line(record) else JoinWith('\n', Lines(front)) + ['\n'] + Line(record)
  {
    LinesAppend(front, record);
    JoinAppend('\n', Lines(front), Line(record));
  }

  lemma {:induction false} RecordsAreRead(records: seq<seq<string>>)
    requires records != [] && forall i :: 0 <= i < |records| ==> records[i] != []
    ensures HasRecords(FeedAll(Reader([], [], "", FieldStart), JoinWith('\n', Lines(records))), records)
  {
    var start := Reader([], [], "", FieldStart);
    var last, front := records[|records| - 1], records[..|records| - 1];
    assert front + [last] == records;
    JoinLines(front, last);
    if front == [] {
      LineIsRead(start, last);
    } else {
      RecordsAreRead(front);
      NextRecordIsRead(start, JoinWith('\n', Lines(front)), front, last);
    }
  }

  /** Reading recovers every record of one or more cells, whatever the cells hold. */
  lemma CsvRoundTrip(records: seq<seq<string>>)
    requires records != [] && forall i :: 0 <= i < |records| ==> records[i] != []
    ensures Read(JoinWith('\n', Lines(records))) == Some(records)
  {
    RecordsAreRead(records);
    RecordEnds(FeedAll(Reader([], [], "", FieldStart), JoinWith('\n', Lines(records))), records);
  }

  lemma {:induction false} PlainCells(values: seq<string>)
    requires forall i :: 0 <= i < |values| ==> !NeedsQuotes(values[i])
    ensures Cells(values) == values
  {
    if values != [] {
      PlainCells(values[..|values| - 1]);
    }
  }

  lemma PlainColumn(i: nat)
    requires i < |COLUMNS|
    ensures !NeedsQuotes(COLUMNS[i])
  {
  }

  lemma {:induction false} RecordsHaveCells(rows: seq<Row>)
    ensures |Table(rows)| == |rows| + 1
    ensures forall i :: 0 <= i < |Table(rows)| ==> Table(rows)[i] != []
  {
    if rows != [] {
      RecordsHaveCells(rows[..|rows| - 1]);
    }
  }

  lemma {:induction false} ValuesAre(row: Row, columns: seq<string>, j: nat)
    requires j < |columns|
    ensures |Values(row, columns)| == |columns|
    ensures Values(row, columns)[j] == if columns[j] in row then row[columns[j]] else ""
  {
    if |columns| > 1 {
      ValuesAre(row, columns[..|columns| - 1], if j < |columns| - 1 then j else 0);
    }
  }

  method RowLine(row: Row) returns (line: string)
    ensures line == Line(Values(row, COLUMNS))
  {
    var cells: seq<string> := [];
    for j := 0 to |COLUMNS|
      invariant cells == Cells(Values(row, COLUMNS[..j]))
    {
      NextCell(row, j);
      cells := cells + [CsvCell(Value(row, COLUMNS[j]))];
    }
    assert COLUMNS[..|COLUMNS|] == COLUMNS;
    line := JoinWith(',', cells);
  }

  lemma NextCell(row: Row, j: nat)
    requires j < |COLUMNS|
    ensures Cells(Values(row, COLUMNS[..j + 1])) == Cells(Values(row, COLUMNS[..j])) + [CsvCell(Value(row, COLUMNS[j]))]
  {
    NextValue(row, COLUMNS, j);
    MapAppend(CsvCell, Values(row, COLUMNS[..j]), Value(row, COLUMNS[j]));
  }

  lemma NextValue(row: Row, columns: seq<string>, j: nat)
    requires j < |columns|
    ensures Values(row, columns[..j + 1]) == Values(row, columns[..j]) + [Value(row, columns[j])]
  {
    assert columns[..j + 1][..j] == columns[..j];
  }

  lemma NextRecord(rows: seq<Row>, i: nat)
    requires i < |rows|
    ensures Lines(Table(rows[..i + 1])) == Lines(Table(rows[..i])) + [Line(Values(rows[i], COLUMNS))]
  {
    assert rows[..i + 1][..i] == rows[..i];
    MapAppend(Line, Table(rows[..i]), Values(rows[i], COLUMNS));
  }

  lemma HeaderLine()
    ensures Lines(Table([])) == [JoinWith(',', COLUMNS)]
  {
    var columns := COLUMNS;
    forall i | 0 <= i < |columns| ensures !NeedsQuotes(columns[i]) {
      PlainColumn(i);
    }
    PlainCells(columns);
  }

  /** The record holds the row's value for each column in turn, "" where the row has none. */
  predicate Says(record: seq<string>, row: Row) {
    |record| == |COLUMNS| && forall j :: 0 <= j < |record| ==> record[j] == if COLUMNS[j] in row then row[COLUMNS[j]] else ""
  }

  lemma ValuesSay(row: Row)
    ensures Says(Values(row, COLUMNS), row)
  {
    var record := Values(row, COLUMNS);
    ValuesAre(row, COLUMNS, 0);
    forall j | 0 <= j < |record| ensures record[j] == if COLUMNS[j] in row then row[COLUMNS[j]] else "" {
      ValuesAre(row, COLUMNS, j);
    }
  }

  lemma {:induction false} TableIs(rows: seq<Row>)
    ensures |Table(rows)| == |rows| + 1 && Table(rows)[0] == COLUMNS
    ensures forall i :: 0 <= i < |rows| ==> Says(Table(rows)[1..][i], rows[i])
  {
    if rows != [] {
      var last := |rows| - 1;
      TableIs(rows[..last]);
      ValuesSay(rows[last]);
      forall i | 0 <= i < |rows| ensures Says(Table(rows)[1..][i], rows[i]) {
        assert i < last ==> Table(rows)[1..][i] == Table(rows[..last])[1..][i] && rows[i] == rows[..last][i];
      }
    }
  }

  /** The text downloadAuditLogCsv hands to the browser reads back as the header and all values. */
  method ExportCsv(rows: seq<Row>) returns (text: string)
    ensures text == JoinWith('\n', Lines(Table(rows)))
    ensures Read(text) == Some(Table(rows))
    ensures |Table(rows)| == |rows| + 1
    ensures Table(rows)[0] == [
      "timestamp", "sample_filename", "sample_hash", "hash", "source", "verdict", "action", "actor", "confidence"]
    ensures forall i :: 0 <= i < |rows| ==> Says(Table(rows)[1..][i], rows[i])
  {
    TableIs(rows);
    var lines := [JoinWith(',', COLUMNS)];
    HeaderLine();
    for i := 0 to |rows|
      invariant lines == Lines(Table(rows[..i]))
    {
      NextRecord(rows, i);
      var line := RowLine(rows[i]);
      lines := lines + [line];
    }
    assert rows[..|rows|] == rows;
    text := JoinWith('\n', lines);
    RecordsHaveCells(rows);
    CsvRoundTrip(Table(rows));
  }
}

/** shellQuote of backend/dockermanager.go and a reader of its format. */
module ShellWords {
  import opened Options
  import opened Sequences

  const APOSTROPHE := '\''

  /** strings.ReplaceAll(s, "'", `'\''`) */
  function Escaped(s: string): string {
    if s == "" then ""
    else
      var last := |s| - 1;
      Escaped(s[..last]) + if s[last] == APOSTROPHE then "'\\''" else [s[last]]
  }

  function ShellQuote(s: string): string {
    [APOSTROPHE] + Escaped(s) + [APOSTROPHE]
  }

  // --- A reader: sections 2.2.1 and 2.2.2 of the POSIX.1-2017 Shell Command Language. Any other
  // --- unquoted character with a meaning of its own makes the text more than plain words.

  datatype Mode = Between | InWord | InQuotes | Escape(inWord: bool) | Other
  datatype Reader = Reader(words: seq<string>, word: string, mode: Mode)

  const BLANKS: set<char> := {' ', '\t'}
  const SPECIAL: set<char> := {'|', '&', ';', '<', '>', '(', ')', '$', '`', '"', '\n', '*', '?', '[', '#', '~', '=', '%'}

  function Feed(r: Reader, c: char): Reader {
    match r.mode
    case Other => r
    case InQuotes => if c == APOSTROPHE then r.(mode := InWord) else r.(word := r.word + [c])
    case Escape(inWord) =>
      if c == '\n' then r.(mode := if inWord then InWord else Between)
      else r.(word := r.word + [c], mode := InWord)
    case _ =>
      if c in BLANKS then (if r.mode.InWord? then Reader(r.words + [r.word], "", Between) else r)
      else if c == APOSTROPHE then r.(mode := InQuotes)
      else if c == '\\' then r.(mode := Escape(r.mode.InWord?))
      else if c in SPECIAL then r.(mode := Other)
      else r.(word := r.word + [c], mode := InWord)
  }

  function FeedAll(r: Reader, text: string): Reader {
    Fold(Feed, r, text)
  }

  function Words(text: string): Option<seq<string>> {
    var r := FeedAll(Reader([], "", Between), text);
    match r.mode
    case Between => Some(r.words)
    case InWord => Some(r.words + [r.word])
    case _ => None
  }

  lemma FeedMore(r: Reader, a: string, c: char)
    ensures FeedAll(r, a + [c]) == Feed(FeedAll(r, a), c)
  {
    assert (a + [c])[..|a|] == a;
  }

  lemma FeedTwo(r: Reader, a: string, c: char, d: char)
    ensures FeedAll(r, a + [c, d]) == Feed(Feed(FeedAll(r, a), c), d)
  {
    FeedMore(r, a, c);
    FeedMore(r, a + [c], d);
    assert a + [c, d] == a + [c] + [d];
  }

  lemma FeedFour(r: Reader, a: string)
    requires FeedAll(r, a).mode == InQuotes
    ensures FeedAll(r, a + "'\\''") == FeedAll(r, a).(word := FeedAll(r, a).word + [APOSTROPHE])
  {
    FeedTwo(r, a, APOSTROPHE, '\\');
    FeedTwo(r, a + [APOSTROPHE, '\\'], APOSTROPHE, APOSTROPHE);
    assert a + "'\\''" == a + [APOSTROPHE, '\\'] + [APOSTROPHE, APOSTROPHE];
  }

  lemma {:induction false} EscapedIsRead(r: Reader, s: string)
    requires r.mode == InQuotes
    ensures FeedAll(r, Escaped(s)) == r.(word := r.word + s)
  {
    if s == "" {
      assert r.word + s == r.word;
    } else {
      var last := |s| - 1;
      var front := Escaped(s[..last]);
      EscapedIsRead(r, s[..last]);
      assert r.word + s == r.word + s[..last] + [s[last]];
      if s[last] == APOSTROPHE {
        FeedFour(r, front);
      } else {
        FeedMore(r, front, s[last]);
      }
    }
  }

  /** A line continuation is as if it were not there. */
  lemma ContinuationVanishes(r: Reader)
    requires r.mode == Between || r.mode == InWord
    ensures FeedAll(r, ['\\', '\n']) == r
  {
    FeedTwo(r, "", '\\', '\n');
    assert "" + ['\\', '\n'] == ['\\', '\n'];
  }

  /** Wherever it stands outside quotes and escapes, the quoted text continues the current word,
      or starts a new one, by exactly `s`. */
  lemma QuotedContinuesWord(r: Reader, s: string)
    requires r.mode == Between || r.mode == InWord
    ensures FeedAll(r, ShellQuote(s)) == Reader(r.words, r.word + s, InWord)
  {
    FeedMore(r, "", APOSTROPHE);
    assert "" + [APOSTROPHE] == [APOSTROPHE];
    EscapedIsRead(r.(mode := InQuotes), s);
    FoldConcat(Feed, r, [APOSTROPHE], Escaped(s));
    FeedMore(r, [APOSTROPHE] + Escaped(s), APOSTROPHE);
  }

  /** Every string is read back as exactly one word, alone and after other words. */
  lemma ShellQuoteRoundTrip(before: string, words: seq<string>, s: string)
    requires FeedAll(Reader([], "", Between), before) == Reader(words, "", Between)
    ensures Words(before + ShellQuote(s)) == Some(words + [s])
    ensures Words(ShellQuote(s)) == Some([s])
  {
    QuotedContinuesWord(Reader(words, "", Between), s);
    FoldConcat(Feed, Reader([], "", Between), before, ShellQuote(s));
    QuotedContinuesWord(Reader([], "", Between), s);
    assert [] + [s] == [s] && "" + s == s;
  }
}
