/**
 * The naive CSV reader used for the bundled datasets: lines are split on
 * `\n`, fields on `,`, every piece is trimmed, the first line gives the
 * column names and each later non-blank line becomes one row object. There
 * is no quoting: a comma inside quotes still separates fields.
 */
module DatasetLoader {
  import opened JsText
  import opened SeqUtil

  /** A row object: column name to cell text. */
  type Row = map<string, string>

  /** `line.split(',').map(v => v.trim())` */
  function Fields(line: string): (r: seq<string>)
    ensures |r| == |Split(line, ',')|
    ensures forall i :: 0 <= i < |r| ==> r[i] == Trim(Split(line, ',')[i])
  {
    var parts := Split(line, ',');
    seq(|parts|, i requires 0 <= i < |parts| => Trim(parts[i]))
  }

  /** `values[index] || ''`: the field at `index`, or the empty string past the end. */
  function Cell(values: seq<string>, index: nat): string {
    if index < |values| then values[index] else ""
  }

  /** The row object after assigning, in order, `row[headers[i]] = Cell(values, i)`. */
  function RowOf(headers: seq<string>, values: seq<string>): Row {
    if |headers| == 0 then map[]
    else RowOf(headers[..|headers| - 1], values)[headers[|headers| - 1] := Cell(values, |headers| - 1)]
  }

  /** A row has exactly the header names as keys: missing fields are filled in and
      extra fields are dropped. */
  lemma {:induction false} RowOfKeys(headers: seq<string>, values: seq<string>)
    ensures RowOf(headers, values).Keys == set i | 0 <= i < |headers| :: headers[i]
  {
    if |headers| > 0 {
      RowOfKeys(headers[..|headers| - 1], values);
      var n := |headers| - 1;
      var before := set i | 0 <= i < n :: headers[..n][i];
      assert before == set i | 0 <= i < n :: headers[i];
      assert (set i | 0 <= i < |headers| :: headers[i]) == before + {headers[n]};
    }
  }

  /** The cell under a header is the field at that header's last position: with
      duplicate headers the later column wins. */
  lemma {:induction false} RowOfValue(headers: seq<string>, values: seq<string>, i: nat)
    requires i < |headers|
    requires forall j :: i < j < |headers| ==> headers[j] != headers[i]
    ensures headers[i] in RowOf(headers, values)
    ensures RowOf(headers, values)[headers[i]] == Cell(values, i)
  {
    var n := |headers| - 1;
    if i < n {
      RowOfValue(headers[..n], values, i);
    }
  }

  /** `headers.forEach((header, index) => { row[header] = values[index] || ''; })` */
  method BuildRow(headers: seq<string>, values: seq<string>) returns (row: Row)
    ensures row == RowOf(headers, values)
  {
    row := map[];
    for i := 0 to |headers|
      invariant row == RowOf(headers[..i], values)
    {
      assert headers[..i + 1][..i] == headers[..i];
      row := row[headers[i] := Cell(values, i)];
    }
    assert headers[..|headers|] == headers;
  }

  /** `line => line.trim().length > 0` */
  predicate NonBlankLine(line: string) {
    |Trim(line)| > 0
  }

  predicate BlankLine(line: string) {
    |Trim(line)| == 0
  }

  /** The column names: the trimmed comma pieces of the first line. */
  function Headers(text: string): seq<string> {
    Fields(Split(text, '\n')[0])
  }

  /** Every line after the first. */
  function DataLines(text: string): seq<string> {
    Split(text, '\n')[1..]
  }

  /** The row object of each line. */
  function RowsOfLines(headers: seq<string>, lines: seq<string>): seq<Row> {
    MapSeq(lines, (line: string) => RowOf(headers, Fields(line)))
  }

  /** The data lines that give a row. */
  function KeptLines(text: string): seq<string> {
    Filter(DataLines(text), NonBlankLine)
  }

  /** `parseCSV`: nothing for fewer than two lines; otherwise one row per non-blank
      data line. */
  function ParseCsv(text: string): seq<Row> {
    var lines := Split(text, '\n');
    if |lines| < 2 then []
    else RowsOfLines(Headers(text), KeptLines(text))
  }

  /** Text without a line break (a header line alone) has no rows. */
  lemma ParseCsvSingleLine(text: string)
    requires '\n' !in text
    ensures ParseCsv(text) == []
  {
    SplitSingle(text, '\n');
  }

  /** Rows and blank data lines together account for every data line. */
  lemma ParseCsvRowCount(text: string)
    requires '\n' in text
    ensures |ParseCsv(text)| + |Filter(DataLines(text), BlankLine)| == |DataLines(text)|
  {
    SplitSingle(text, '\n');
    FilterPartition(DataLines(text), NonBlankLine, BlankLine);
  }

  /** The rows are those of the data lines, in line order, with blank lines skipped. */
  lemma ParseCsvInLineOrder(text: string)
    requires '\n' in text
    ensures IsSubsequence(ParseCsv(text), RowsOfLines(Headers(text), DataLines(text)))
  {
    SplitSingle(text, '\n');
    MapFilterSubsequence(DataLines(text), NonBlankLine, (line: string) => RowOf(Headers(text), Fields(line)));
  }

  /** Every row has the header names as keys, whatever the length of its line. */
  lemma ParseCsvKeys(text: string, k: nat)
    requires k < |ParseCsv(text)|
    ensures ParseCsv(text)[k].Keys == set i | 0 <= i < |Headers(text)| :: Headers(text)[i]
  {
    RowOfKeys(Headers(text), Fields(KeptLines(text)[k]));
  }

  /** Row `k` comes from a non-blank data line, and its value under a header is the
      trimmed field at that column, or `''` when the line is shorter. */
  lemma ParseCsvValue(text: string, k: nat, i: nat)
    requires k < |ParseCsv(text)| && i < |Headers(text)|
    requires forall j :: i < j < |Headers(text)| ==> Headers(text)[j] != Headers(text)[i]
    ensures |KeptLines(text)| == |ParseCsv(text)|
    ensures KeptLines(text)[k] in DataLines(text) && NonBlankLine(KeptLines(text)[k])
    ensures Headers(text)[i] in ParseCsv(text)[k] &&
            ParseCsv(text)[k][Headers(text)[i]] == Cell(Fields(KeptLines(text)[k]), i)
  {
    var line := KeptLines(text)[k];
    assert |Split(text, '\n')| >= 2;
    assert ParseCsv(text)[k] == RowOf(Headers(text), Fields(line));
    FilterMembers(DataLines(text), NonBlankLine, line);
    RowOfValue(Headers(text), Fields(line), i);
  }
}
