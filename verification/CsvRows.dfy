/** The CSV printer of internal/cmd/history.go, against a reader that follows the quoting rules
    of section 2 of RFC 4180, with the line feeds that the printer ends its rows with. */
module CsvRows {
  import opened Options

  predicate IsSpecial(c: char) {
    c == ',' || c == '"' || c == '\n' || c == '\r'
  }

  predicate NeedsCSVQuoting(s: string) {
    exists k :: 0 <= k < |s| && IsSpecial(s[k])
  }

  function DoubleQuotes(s: string): string {
    if s == [] then [] else (if s[0] == '"' then ['"', '"'] else [s[0]]) + DoubleQuotes(s[1..])
  }

  function EscapeCSV(s: string): string {
    if NeedsCSVQuoting(s) then ['"'] + DoubleQuotes(s) + ['"'] else s
  }

  function JoinFields(fields: seq<string>): string {
    if fields == [] then []
    else if |fields| == 1 then EscapeCSV(fields[0])
    else EscapeCSV(fields[0]) + ([','] + JoinFields(fields[1..]))
  }

  /** The six columns of a run. */
  datatype Run = Run(name: string, runID: string, status: string, startedAt: string, duration: string, params: string)

  function Columns(r: Run): seq<string> {
    [r.name, r.runID, r.status, r.startedAt, r.duration, r.params]
  }

  function FormatCSVRow(r: Run): string {
    JoinFields(Columns(r))
  }

  /** The header line, title by title. */
  const HEADER := "DAG NAME" + ("," + ("RUN ID" + ("," + ("STATUS" + ("," + ("STARTED (UTC)" + ("," + ("DURATION" + ("," + "PARAMS")))))))))

  const TITLES := Run("DAG NAME", "RUN ID", "STATUS", "STARTED (UTC)", "DURATION", "PARAMS")

  function Lines(rows: seq<string>): string {
    if rows == [] then [] else rows[0] + ['\n'] + Lines(rows[1..])
  }

  function Rows(runs: seq<Run>): seq<string> {
    seq(|runs|, k requires 0 <= k < |runs| => FormatCSVRow(runs[k]))
  }

  /** Prints the history. What is printed reads back as the column titles and the columns of
      every run, even when fields contain commas, quotes or line breaks. */
  method RenderHistoryCSV(runs: seq<Run>) returns (out: string)
    ensures out == HEADER + ['\n'] + Lines(Rows(runs))
    ensures ReadFile(out) == Some([Columns(TITLES)] + Table(runs))
  {
    out := HEADER + ['\n'];
    ghost var rows := Rows(runs);
    assert rows[0..] == rows;
    for i := 0 to |runs|
      invariant out + Lines(rows[i..]) == HEADER + ['\n'] + Lines(rows)
    {
      var row := FormatCSVRow(runs[i]);
      LinesNext(rows, i);
      AppendLine(out, row, Lines(rows[i + 1..]));
      out := out + (row + ['\n']);
    }
    assert out + [] == out;
    HeaderIsRow();
    TitledReadsBack(TITLES, runs);
  }

  lemma LinesNext(rows: seq<string>, i: nat)
    requires i < |rows|
    ensures Lines(rows[i..]) == rows[i] + ['\n'] + Lines(rows[i + 1..])
  {
    assert rows[i..][1..] == rows[i + 1..];
  }

  lemma AppendLine(out: string, row: string, rest: string)
    ensures out + (row + ['\n'] + rest) == out + (row + ['\n']) + rest
  {
  }

  // ---------- reading ----------

  /** What was read, and what is left. */
  datatype Read<T> = Read(item: T, rest: string)

  /** A field ends at a comma, at the end of the row or at the end of the text. */
  predicate EndsField(t: string) {
    t == [] || t[0] == ',' || t[0] == '\n'
  }

  /** The inside of a quoted field, up to and including the closing quote. */
  function ReadQuoted(t: string): Option<Read<string>> {
    if t == [] then None
    else if t[0] == '"' then
      if |t| > 1 && t[1] == '"' then Prefix('"', ReadQuoted(t[2..]))
      else if EndsField(t[1..]) then Some(Read("", t[1..])) else None
    else Prefix(t[0], ReadQuoted(t[1..]))
  }

  /** A field without quotes, which may not contain quotes or carriage returns. */
  function ReadPlain(t: string): Option<Read<string>> {
    if EndsField(t) then Some(Read("", t))
    else if t[0] == '"' || t[0] == '\r' then None
    else Prefix(t[0], ReadPlain(t[1..]))
  }

  function Prefix(c: char, r: Option<Read<string>>): Option<Read<string>> {
    if r.None? then None else Some(Read([c] + r.value.item, r.value.rest))
  }

  function ReadField(t: string): Option<Read<string>> {
    if t != [] && t[0] == '"' then ReadQuoted(t[1..]) else ReadPlain(t)
  }

  lemma {:induction false} RestIsShorter(t: string)
    ensures ReadQuoted(t).Some? ==> |ReadQuoted(t).value.rest| <= |t|
    ensures ReadPlain(t).Some? ==> |ReadPlain(t).value.rest| <= |t|
  {
    if t != [] {
      RestIsShorter(t[1..]);
      if |t| > 1 {
        RestIsShorter(t[2..]);
      }
    }
  }

  /** The fields of one row, up to the end of the row. */
  function ReadRow(t: string): Option<Read<seq<string>>>
    decreases |t|
  {
    var f := ReadField(t);
    RestIsShorter(t);
    RestIsShorter(if t == [] then t else t[1..]);
    if f.None? then None
    else if f.value.rest != [] && f.value.rest[0] == ',' then
      var more := ReadRow(f.value.rest[1..]);
      if more.None? then None else Some(Read([f.value.item] + more.value.item, more.value.rest))
    else Some(Read([f.value.item], f.value.rest))
  }

  lemma {:induction false} RowIsShorter(t: string)
    ensures ReadRow(t).Some? ==> |ReadRow(t).value.rest| <= |t|
    decreases |t|
  {
    RestIsShorter(t);
    RestIsShorter(if t == [] then t else t[1..]);
    var f := ReadField(t);
    if f.Some? && f.value.rest != [] && f.value.rest[0] == ',' {
      RowIsShorter(f.value.rest[1..]);
    }
  }

  /** All rows of a text; each ends with a line feed. */
  function ReadFile(t: string): Option<seq<seq<string>>>
    decreases |t|
  {
    if t == [] then Some([])
    else
      var row := ReadRow(t);
      RowIsShorter(t);
      if row.None? || row.value.rest == [] then None
      else
        var more := ReadFile(row.value.rest[1..]);
        if more.None? then None else Some([row.value.item] + more.value)
  }

  // ---------- reading back what was printed ----------

  lemma {:induction false} QuotedReadsBack(s: string, rest: string)
    requires EndsField(rest)
    ensures ReadQuoted(DoubleQuotes(s) + ['"'] + rest) == Some(Read(s, rest))
  {
    var t := DoubleQuotes(s) + ['"'] + rest;
    if s == [] {
      assert t == ['"'] + rest && t[1..] == rest;
    } else {
      QuotedReadsBack(s[1..], rest);
      var tail := DoubleQuotes(s[1..]) + ['"'] + rest;
      assert s == [s[0]] + s[1..];
      if s[0] == '"' {
        assert t == ['"', '"'] + tail && t[2..] == tail;
      } else {
        assert t == [s[0]] + tail && t[1..] == tail;
      }
    }
  }

  lemma {:induction false} PlainReadsBack(s: string, rest: string)
    requires !NeedsCSVQuoting(s) && EndsField(rest)
    ensures ReadPlain(s + rest) == Some(Read(s, rest))
  {
    if s == [] {
      assert s + rest == rest;
    } else {
      assert !IsSpecial(s[0]);
      assert forall k :: 0 <= k < |s[1..]| ==> s[1..][k] == s[k + 1];
      PlainReadsBack(s[1..], rest);
      assert (s + rest)[1..] == s[1..] + rest;
      assert s == [s[0]] + s[1..];
    }
  }

  lemma QuotedField(s: string, rest: string)
    requires EndsField(rest)
    ensures ReadField((['"'] + DoubleQuotes(s) + ['"']) + rest) == Some(Read(s, rest))
  {
    var inside := DoubleQuotes(s) + ['"'] + rest;
    var t := (['"'] + DoubleQuotes(s) + ['"']) + rest;
    QuotedReadsBack(s, rest);
    assert t == ['"'] + inside;
    assert t[1..] == inside;
  }

  lemma PlainField(s: string, rest: string)
    requires !NeedsCSVQuoting(s) && EndsField(rest)
    ensures ReadField(s + rest) == Some(Read(s, rest))
  {
    PlainReadsBack(s, rest);
    if s == [] {
      assert s + rest == rest;
    } else {
      assert !IsSpecial(s[0]);
      assert (s + rest)[0] == s[0];
    }
  }

  lemma FieldReadsBack(s: string, rest: string)
    requires EndsField(rest)
    ensures ReadField(EscapeCSV(s) + rest) == Some(Read(s, rest))
  {
    if NeedsCSVQuoting(s) {
      QuotedField(s, rest);
    } else {
      PlainField(s, rest);
    }
  }

  /** A row is a field, a comma and a row, or just a field. */
  lemma RowStep(t: string, item: string, tail: string, more: seq<string>, rest: string)
    requires ReadField(t) == Some(Read(item, [','] + tail)) && ReadRow(tail) == Some(Read(more, rest))
    ensures ReadRow(t) == Some(Read([item] + more, rest))
  {
    assert ([','] + tail)[1..] == tail;
  }

  lemma {:induction false} RowReadsBack(fields: seq<string>, rest: string)
    requires fields != [] && (rest == [] || rest[0] == '\n')
    ensures ReadRow(JoinFields(fields) + rest) == Some(Read(fields, rest))
  {
    if |fields| == 1 {
      FieldReadsBack(fields[0], rest);
      assert [fields[0]] == fields;
    } else {
      var joined := JoinFields(fields[1..]);
      var tail := joined + rest;
      RowReadsBack(fields[1..], rest);
      FieldReadsBack(fields[0], [','] + tail);
      RowStep(EscapeCSV(fields[0]) + ([','] + tail), fields[0], tail, fields[1..], rest);
      Regroup(EscapeCSV(fields[0]), joined, rest);
      assert fields == [fields[0]] + fields[1..];
    }
  }

  lemma Regroup(a: string, b: string, c: string)
    ensures (a + ([','] + b)) + c == a + ([','] + (b + c))
  {
  }

  /** For all six field texts, the printed row reads back as exactly those fields. */
  lemma RunReadsBack(r: Run)
    ensures ReadRow(FormatCSVRow(r)) == Some(Read(Columns(r), ""))
  {
    RowReadsBack(Columns(r), "");
    assert FormatCSVRow(r) + "" == FormatCSVRow(r);
  }

  lemma {:induction false} FileReadsBack(table: seq<seq<string>>, rows: seq<string>)
    requires |table| == |rows| && forall k :: 0 <= k < |table| ==> table[k] != [] && rows[k] == JoinFields(table[k])
    ensures ReadFile(Lines(rows)) == Some(table)
  {
    if table != [] {
      var rest := Lines(rows[1..]);
      RowReadsBack(table[0], ['\n'] + rest);
      assert Lines(rows) == JoinFields(table[0]) + (['\n'] + rest);
      assert (['\n'] + rest)[1..] == rest;
      FileReadsBack(table[1..], rows[1..]);
      assert table == [table[0]] + table[1..];
    }
  }

  function Table(runs: seq<Run>): seq<seq<string>> {
    seq(|runs|, k requires 0 <= k < |runs| => Columns(runs[k]))
  }

  /** The printed rows read back, together, as the columns of every run, even when fields
      contain commas, quotes or line breaks. */
  lemma HistoryReadsBack(runs: seq<Run>)
    ensures ReadFile(Lines(Rows(runs))) == Some(Table(runs))
  {
    FileReadsBack(Table(runs), Rows(runs));
  }

  lemma TitledReadsBack(titles: Run, runs: seq<Run>)
    ensures ReadFile(FormatCSVRow(titles) + ['\n'] + Lines(Rows(runs))) == Some([Columns(titles)] + Table(runs))
  {
    HistoryReadsBack([titles] + runs);
    assert Table([titles] + runs) == [Columns(titles)] + Table(runs);
    assert Rows([titles] + runs)[1..] == Rows(runs);
  }

  /** A title without special characters is printed as it is, before the others. */
  lemma TitleThen(title: string, others: seq<string>)
    requires !NeedsCSVQuoting(title)
    ensures JoinFields([title] + others) == if others == [] then title else title + ([','] + JoinFields(others))
  {
    assert ([title] + others)[1..] == others;
  }

  /** The header is the row of its titles, none of which needs quoting. */
  lemma HeaderIsRow()
    ensures FormatCSVRow(TITLES) == HEADER
  {
    var c5 := ["PARAMS"];
    var c4 := ["DURATION"] + c5;
    var c3 := ["STARTED (UTC)"] + c4;
    var c2 := ["STATUS"] + c3;
    var c1 := ["RUN ID"] + c2;
    TitleThen("PARAMS", []);
    TitleThen("DURATION", c5);
    TitleThen("STARTED (UTC)", c4);
    TitleThen("STATUS", c3);
    TitleThen("RUN ID", c2);
    TitleThen("DAG NAME", c1);
    assert ["PARAMS"] + [] == c5;
    assert Columns(TITLES) == ["DAG NAME"] + c1;
  }
}
