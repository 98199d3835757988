/** The ledger export's CSV printer, and an independent parser for the quoting rules of section 2 of
    RFC 4180 with a line feed as the line break. */
module CsvExport {
  import opened Common

  // ---- Printer ----

  const HEADER_FIELDS: seq<string> := ["ID", "Timestamp", "Type", "Amount (NGN)", "Reference", "Tier"]

  /** Every quote doubled. */
  function Doubled(v: string): string {
    if v == "" then "" else (if v[0] == '"' then ['"', '"'] else [v[0]]) + Doubled(v[1..])
  }

  function Escape(v: string): string {
    ['"'] + Doubled(v) + ['"']
  }

  function Join(parts: seq<string>, separator: char): string {
    if parts == [] then ""
    else if |parts| == 1 then parts[0]
    else parts[0] + [separator] + Join(parts[1..], separator)
  }

  function Escaped(row: seq<string>): seq<string> {
    if row == [] then [] else [Escape(row[0])] + Escaped(row[1..])
  }

  function PrintRow(row: seq<string>): string {
    Join(Escaped(row), ',')
  }

  function PrintRows(rows: seq<seq<string>>): seq<string> {
    if rows == [] then [] else [PrintRow(rows[0])] + PrintRows(rows[1..])
  }

  /** The exported file: the header line, then one line for each row. */
  function Print(rows: seq<seq<string>>): string {
    Join([Join(HEADER_FIELDS, ',')] + PrintRows(rows), '\n')
  }

  // ---- Parser ----

  /** A parsed value and the rest of the input. */
  datatype Parse<T> = Fail | Got(value: T, rest: string)

  function Prepend(c: char, p: Parse<string>): Parse<string> {
    if p.Fail? then Fail else Got([c] + p.value, p.rest)
  }

  /** The inside of a quoted field: two quotes stand for one, a single quote ends the field. */
  function ParseQuoted(s: string): Parse<string> {
    if s == "" then Fail
    else if s[0] != '"' then Prepend(s[0], ParseQuoted(s[1..]))
    else if |s| > 1 && s[1] == '"' then Prepend('"', ParseQuoted(s[2..]))
    else Got("", s[1..])
  }

  /** An unquoted field ends before a comma, a line break or the end; it may hold no quote. */
  function ParsePlain(s: string): Parse<string> {
    if s == "" || s[0] == ',' || s[0] == '\n' then Got("", s)
    else if s[0] == '"' then Fail
    else Prepend(s[0], ParsePlain(s[1..]))
  }

  function ParseField(s: string): Parse<string> {
    if s != "" && s[0] == '"' then ParseQuoted(s[1..]) else ParsePlain(s)
  }

  lemma {:induction false} QuotedConsumes(s: string)
    ensures ParseQuoted(s).Got? ==> |ParseQuoted(s).rest| < |s|
  {
    if s != "" && s[0] != '"' {
      QuotedConsumes(s[1..]);
    } else if |s| > 1 && s[1] == '"' {
      QuotedConsumes(s[2..]);
    }
  }

  lemma {:induction false} PlainConsumes(s: string)
    ensures ParsePlain(s).Got? ==> |ParsePlain(s).rest| <= |s|
  {
    if s != "" && s[0] != ',' && s[0] != '\n' {
      PlainConsumes(s[1..]);
    }
  }

  lemma FieldConsumes(s: string)
    ensures ParseField(s).Got? ==> |ParseField(s).rest| <= |s|
  {
    if s != "" {
      QuotedConsumes(s[1..]);
    }
    PlainConsumes(s);
  }

  function ParseRecord(s: string): (p: Parse<seq<string>>)
    ensures p.Got? ==> |p.rest| <= |s| && p.value != []
    decreases |s|
  {
    FieldConsumes(s);
    var field := ParseField(s);
    if field.Fail? then Fail
    else if field.rest == "" || field.rest[0] == '\n' then Got([field.value], field.rest)
    else if field.rest[0] != ',' then Fail
    else
      var more := ParseRecord(field.rest[1..]);
      if more.Fail? then Fail else Got([field.value] + more.value, more.rest)
  }

  /** Records separated by line breaks; a final line break is optional. */
  function ParseFile(s: string): Option<seq<seq<string>>>
    decreases |s|
  {
    var record := ParseRecord(s);
    if record.Fail? then None
    else if record.rest == "" || record.rest == "\n" then Some([record.value])
    else
      var more := ParseFile(record.rest[1..]);
      if more.None? then None else Some([record.value] + more.value)
  }

  // ---- Round trip ----

  predicate EndsField(rest: string) {
    rest == "" || rest[0] == ',' || rest[0] == '\n'
  }

  lemma {:induction false} QuotedRoundTrip(v: string, rest: string)
    requires EndsField(rest)
    ensures ParseQuoted(Doubled(v) + ['"'] + rest) == Got(v, rest)
  {
    var s := Doubled(v) + ['"'] + rest;
    if v == "" {
      assert s == ['"'] + rest;
      assert s[1..] == rest;
    } else {
      var inner := Doubled(v[1..]) + ['"'] + rest;
      QuotedRoundTrip(v[1..], rest);
      if v[0] == '"' {
        assert s == ['"', '"'] + inner;
        assert s[2..] == inner;
      } else {
        assert s == [v[0]] + inner;
        assert s[1..] == inner;
      }
      assert [v[0]] + v[1..] == v;
    }
  }

  lemma EscapeRoundTrip(v: string, rest: string)
    requires EndsField(rest)
    ensures ParseField(Escape(v) + rest) == Got(v, rest)
  {
    var s := Escape(v) + rest;
    assert s[0] == '"' && s[1..] == Doubled(v) + ['"'] + rest;
    QuotedRoundTrip(v, rest);
  }

  predicate PlainField(f: string) {
    ',' !in f && '\n' !in f && '"' !in f
  }

  lemma {:induction false} PlainRoundTrip(f: string, rest: string)
    requires PlainField(f) && EndsField(rest)
    ensures ParsePlain(f + rest) == Got(f, rest)
  {
    if f == "" {
      assert f + rest == rest;
    } else {
      assert (f + rest)[0] == f[0] && (f + rest)[1..] == f[1..] + rest;
      assert f[0] in f;
      PlainRoundTrip(f[1..], rest);
      assert [f[0]] + f[1..] == f;
    }
  }

  predicate EndsRecord(rest: string) {
    rest == "" || rest[0] == '\n'
  }

  /** The next field and the comma after it. */
  lemma RecordStep(printed: string, value: string, more: string, tail: seq<string>, rest: string)
    requires ParseField(printed + ([','] + more)) == Got(value, [','] + more)
    requires ParseRecord(more) == Got(tail, rest)
    ensures ParseRecord(printed + ([','] + more)) == Got([value] + tail, rest)
  {
    assert ([','] + more)[1..] == more;
  }

  lemma JoinCons(first: string, more: seq<string>, separator: char)
    requires more != []
    ensures Join([first] + more, separator) == first + ([separator] + Join(more, separator))
  {
    assert ([first] + more)[1..] == more;
  }

  lemma Regroup(a: string, b: string, c: string, d: string)
    ensures (a + (b + c)) + d == a + (b + (c + d))
  {
  }

  lemma PrintRowCons(row: seq<string>)
    requires |row| > 1
    ensures PrintRow(row) == Escape(row[0]) + ([','] + PrintRow(row[1..]))
  {
    assert Escaped(row[1..]) != [];
    JoinCons(Escape(row[0]), Escaped(row[1..]), ',');
  }

  lemma {:induction false} RowRoundTrip(row: seq<string>, rest: string)
    requires row != [] && EndsRecord(rest)
    ensures ParseRecord(PrintRow(row) + rest) == Got(row, rest)
  {
    if |row| == 1 {
      EscapeRoundTrip(row[0], rest);
      assert Escaped(row) == [Escape(row[0])];
      assert [row[0]] == row;
    } else {
      var more := PrintRow(row[1..]) + rest;
      RowRoundTrip(row[1..], rest);
      EscapeRoundTrip(row[0], [','] + more);
      RecordStep(Escape(row[0]), row[0], more, row[1..], rest);
      PrintRowCons(row);
      Regroup(Escape(row[0]), [','], PrintRow(row[1..]), rest);
      assert [row[0]] + row[1..] == row;
    }
  }

  lemma {:induction false} PlainRecordRoundTrip(fields: seq<string>, rest: string)
    requires fields != [] && EndsRecord(rest) && forall i :: 0 <= i < |fields| ==> PlainField(fields[i])
    ensures ParseRecord(Join(fields, ',') + rest) == Got(fields, rest)
  {
    if |fields| == 1 {
      PlainFieldParses(fields[0], rest);
      assert [fields[0]] == fields;
    } else {
      var more := Join(fields[1..], ',') + rest;
      PlainRecordRoundTrip(fields[1..], rest);
      PlainFieldParses(fields[0], [','] + more);
      RecordStep(fields[0], fields[0], more, fields[1..], rest);
      assert [fields[0]] + fields[1..] == fields;
      JoinCons(fields[0], fields[1..], ',');
      Regroup(fields[0], [','], Join(fields[1..], ','), rest);
    }
  }

  lemma PlainFieldParses(f: string, rest: string)
    requires PlainField(f) && EndsField(rest)
    ensures ParseField(f + rest) == Got(f, rest)
  {
    PlainRoundTrip(f, rest);
    if f != "" {
      assert (f + rest)[0] == f[0] && f[0] in f;
    } else {
      assert f + rest == rest;
    }
  }

  /** Lines of which each parses to a record parse, joined, to those records. */
  lemma {:induction false} LinesRoundTrip(rows: seq<seq<string>>)
    requires rows != [] && forall i :: 0 <= i < |rows| ==> rows[i] != []
    ensures ParseFile(Join(PrintRows(rows), '\n')) == Some(rows)
    ensures |Join(PrintRows(rows), '\n')| > 0
  {
    PrintedRowNonempty(rows[0]);
    if |rows| == 1 {
      assert PrintRows(rows) == [PrintRow(rows[0])];
      RowRoundTrip(rows[0], "");
      assert PrintRow(rows[0]) + "" == PrintRow(rows[0]);
      assert [rows[0]] == rows;
    } else {
      var more := Join(PrintRows(rows[1..]), '\n');
      LinesRoundTrip(rows[1..]);
      RowRoundTrip(rows[0], ['\n'] + more);
      FileStep(PrintRow(rows[0]), rows[0], more, rows[1..]);
      JoinCons(PrintRow(rows[0]), PrintRows(rows[1..]), '\n');
      assert [rows[0]] + rows[1..] == rows;
    }
  }

  lemma FileStep(line: string, row: seq<string>, more: string, rows: seq<seq<string>>)
    requires ParseRecord(line + (['\n'] + more)) == Got(row, ['\n'] + more)
    requires more != "" && ParseFile(more) == Some(rows)
    ensures ParseFile(line + (['\n'] + more)) == Some([row] + rows)
  {
    assert (['\n'] + more)[1..] == more;
  }

  lemma PrintedRowNonempty(row: seq<string>)
    requires row != []
    ensures PrintRow(row) != ""
  {
    if |row| > 1 {
      assert |Escaped(row)| > 1;
    }
  }

  lemma HeaderIsPlain(i: nat)
    requires i < |HEADER_FIELDS|
    ensures PlainField(HEADER_FIELDS[i])
  {
  }

  /** Whatever quotes, commas and line breaks the fields contain, parsing the exported file gives the
      header followed by exactly the original rows. */
  lemma CsvRoundTrip(rows: seq<seq<string>>)
    requires forall i :: 0 <= i < |rows| ==> rows[i] != []
    ensures ParseFile(Print(rows)) == Some([HEADER_FIELDS] + rows)
  {
    var header := Join(HEADER_FIELDS, ',');
    forall i | 0 <= i < |HEADER_FIELDS| ensures PlainField(HEADER_FIELDS[i]) {
      HeaderIsPlain(i);
    }
    if rows == [] {
      PlainRecordRoundTrip(HEADER_FIELDS, "");
      assert header + "" == header;
      assert Print(rows) == header;
      assert [HEADER_FIELDS] + rows == [HEADER_FIELDS];
    } else {
      var more := Join(PrintRows(rows), '\n');
      LinesRoundTrip(rows);
      PlainRecordRoundTrip(HEADER_FIELDS, ['\n'] + more);
      FileStep(header, HEADER_FIELDS, more, rows);
      JoinCons(header, PrintRows(rows), '\n');
    }
  }

  /** In particular, different rows never print to the same file. */
  lemma PrintInjective(a: seq<seq<string>>, b: seq<seq<string>>)
    requires (forall i :: 0 <= i < |a| ==> a[i] != []) && (forall i :: 0 <= i < |b| ==> b[i] != [])
    requires Print(a) == Print(b)
    ensures a == b
  {
    CsvRoundTrip(a);
    CsvRoundTrip(b);
    assert ([HEADER_FIELDS] + a)[1..] == a && ([HEADER_FIELDS] + b)[1..] == b;
  }
}
