/** CSV export of a stored result, against a reader of section 2 of RFC 4180 (with line feeds ending
    the records, as the exporter writes them). */
module Csv {
  import opened Wrappers
  import J = Json

  datatype Result = Result(columns: seq<string>, rows: seq<seq<J.Value>>)

  // ---------- printing ----------

  /** Text that a spreadsheet would take for a formula is marked as text. */
  function SpreadsheetSafeText(text: string): string {
    if text != "" && text[0] in {'=', '+', '-', '@'} then "'" + text else text
  }

  function JsonCell(value: J.Value): string {
    match value
    case Null => ""
    case Bool(flag) => if flag then "true" else "false"
    case Number(digits) => digits
    case String(text) => SpreadsheetSafeText(text)
    case Array(_) => J.Print(value)
    case Object(_) => J.Print(value)
  }

  predicate Special(c: char) { c == ',' || c == '"' || c == '\n' || c == '\r' }

  function Doubled(text: string): string {
    if text == "" then "" else (if text[0] == '"' then "\"\"" else [text[0]]) + Doubled(text[1..])
  }

  function CsvField(text: string): string {
    if exists i | 0 <= i < |text| :: Special(text[i]) then "\"" + Doubled(text) + "\"" else text
  }

  /** Fields separated by commas. */
  function Joined(fields: seq<string>): string {
    if fields == [] then ""
    else if |fields| == 1 then CsvField(fields[0])
    else CsvField(fields[0]) + "," + Joined(fields[1..])
  }

  function Printed(table: seq<seq<string>>): string {
    if table == [] then "" else Joined(table[0]) + "\n" + Printed(table[1..])
  }

  function Cells(row: seq<J.Value>): (cells: seq<string>)
    ensures |cells| == |row| && forall i | 0 <= i < |row| :: cells[i] == JsonCell(row[i])
  {
    if row == [] then [] else [JsonCell(row[0])] + Cells(row[1..])
  }

  /** The header and the text of every cell. */
  function Table(result: Result): (table: seq<seq<string>>)
    ensures |table| == |result.rows| + 1 && table[0] == result.columns
    ensures forall i | 0 <= i < |result.rows| :: table[i + 1] == Cells(result.rows[i])
  {
    [result.columns] + RowCells(result.rows)
  }

  function RowCells(rows: seq<seq<J.Value>>): (table: seq<seq<string>>)
    ensures |table| == |rows| && forall i | 0 <= i < |rows| :: table[i] == Cells(rows[i])
  {
    if rows == [] then [] else [Cells(rows[0])] + RowCells(rows[1..])
  }

  lemma {:induction false} PrintedAppends(table: seq<seq<string>>, fields: seq<string>)
    ensures Printed(table + [fields]) == Printed(table) + Joined(fields) + "\n"
  {
    if table == [] {
      assert table + [fields] == [fields];
    } else {
      assert (table + [fields])[1..] == table[1..] + [fields];
      PrintedAppends(table[1..], fields);
    }
  }

  lemma PrintedMore(table: seq<seq<string>>, i: nat)
    requires i < |table|
    ensures Printed(table[..i + 1]) == Printed(table[..i]) + Joined(table[i]) + "\n"
  {
    PrintedAppends(table[..i], table[i]);
    assert table[..i + 1] == table[..i] + [table[i]];
  }

  method RenderCsv(result: Result) returns (output: string)
    ensures output == Printed(Table(result))
  {
    ghost var table := Table(result);
    output := "";
    output := output + Joined(result.columns);
    output := output + "\n";
    PrintedMore(table, 0);
    for i := 0 to |result.rows|
      invariant output == Printed(table[..i + 1])
    {
      var values := Cells(result.rows[i]);
      PrintedMore(table, i + 1);
      output := output + Joined(values);
      output := output + "\n";
    }
    assert table[..|result.rows| + 1] == table;
  }

  // ---------- reading ----------

  /** The characters that end a field without quotes. */
  predicate Ends(c: char) { c == ',' || c == '"' || c == '\n' || c == '\r' }

  /** The text before the next such character, and the rest. */
  function ReadPlain(s: string): (string, string) {
    if s == "" || Ends(s[0]) then ("", s)
    else var more := ReadPlain(s[1..]); ([s[0]] + more.0, more.1)
  }

  /** The text up to the closing quote; two quotes stand for one. */
  function ReadQuoted(s: string): Option<(string, string)> {
    if s == "" then None
    else if s[0] != '"' then
      var more := ReadQuoted(s[1..]);
      if more.None? then None else Some(([s[0]] + more.value.0, more.value.1))
    else if |s| > 1 && s[1] == '"' then
      var more := ReadQuoted(s[2..]);
      if more.None? then None else Some((['"'] + more.value.0, more.value.1))
    else Some(("", s[1..]))
  }

  function ReadField(s: string): Option<(string, string)> {
    if s != "" && s[0] == '"' then ReadQuoted(s[1..]) else Some(ReadPlain(s))
  }

  lemma {:induction false} QuotedShrinks(s: string)
    ensures ReadQuoted(s).Some? ==> |ReadQuoted(s).value.1| < |s|
    decreases |s|
  {
    if s != "" && s[0] != '"' { QuotedShrinks(s[1..]); }
    else if |s| > 1 && s[1] == '"' { QuotedShrinks(s[2..]); }
  }

  lemma {:induction false} PlainShrinks(s: string)
    ensures |ReadPlain(s).1| <= |s|
  {
    if s != "" && !Ends(s[0]) { PlainShrinks(s[1..]); }
  }

  lemma FieldShrinks(s: string)
    ensures ReadField(s).Some? ==> |ReadField(s).value.1| <= |s|
  {
    if s != "" && s[0] == '"' { QuotedShrinks(s[1..]); } else { PlainShrinks(s); }
  }

  /** Fields up to the end of a record. */
  function ReadRecord(s: string): Option<(seq<string>, string)>
    decreases |s|
  {
    FieldShrinks(s);
    var field := ReadField(s);
    if field.None? || field.value.1 == "" then None
    else
      var rest := field.value.1;
      if rest[0] == '\n' then Some(([field.value.0], rest[1..]))
      else if rest[0] == ',' then
        var more := ReadRecord(rest[1..]);
        if more.None? then None else Some(([field.value.0] + more.value.0, more.value.1))
      else None
  }

  lemma {:induction false} RecordShrinks(s: string)
    ensures ReadRecord(s).Some? ==> |ReadRecord(s).value.1| < |s| && |ReadRecord(s).value.0| > 0
    decreases |s|
  {
    FieldShrinks(s);
    var field := ReadField(s);
    if field.Some? && field.value.1 != "" && field.value.1[0] == ',' { RecordShrinks(field.value.1[1..]); }
  }

  function Read(s: string): Option<seq<seq<string>>>
    decreases |s|
  {
    if s == "" then Some([])
    else
      RecordShrinks(s);
      var record := ReadRecord(s);
      if record.None? then None
      else
        var more := Read(record.value.1);
        if more.None? then None else Some([record.value.0] + more.value)
  }

  // ---------- round trip ----------

  lemma {:induction false} PlainRoundTrip(text: string, tail: string)
    requires forall i | 0 <= i < |text| :: !Ends(text[i])
    requires tail != "" && Ends(tail[0])
    ensures ReadPlain(text + tail) == (text, tail)
  {
    if text == "" {
      assert text + tail == tail;
    } else {
      assert (text + tail)[1..] == text[1..] + tail && (text + tail)[0] == text[0];
      PlainRoundTrip(text[1..], tail);
      assert [text[0]] + text[1..] == text;
    }
  }

  lemma {:induction false} QuotedRoundTrip(text: string, tail: string)
    requires tail != "" && tail[0] != '"'
    ensures ReadQuoted(Doubled(text) + "\"" + tail) == Some((text, tail))
  {
    var s := Doubled(text) + "\"" + tail;
    if text == "" {
      assert s == "\"" + tail && s[1..] == tail;
    } else {
      var rest := Doubled(text[1..]) + "\"" + tail;
      QuotedRoundTrip(text[1..], tail);
      if text[0] == '"' {
        assert s == "\"\"" + rest && s[2..] == rest;
      } else {
        assert s == [text[0]] + rest && s[1..] == rest;
      }
      assert [text[0]] + text[1..] == text;
    }
  }

  lemma FieldRoundTrip(text: string, tail: string)
    requires tail != "" && (tail[0] == ',' || tail[0] == '\n')
    ensures ReadField(CsvField(text) + tail) == Some((text, tail))
  {
    if exists i | 0 <= i < |text| :: Special(text[i]) {
      var s := CsvField(text) + tail;
      assert s[1..] == Doubled(text) + "\"" + tail;
      QuotedRoundTrip(text, tail);
    } else {
      PlainRoundTrip(text, tail);
      assert text != "" ==> !Special((CsvField(text) + tail)[0]);
    }
  }

  lemma LastFieldRoundTrip(text: string, tail: string)
    ensures ReadRecord(CsvField(text) + ("\n" + tail)) == Some(([text], tail))
  {
    FieldRoundTrip(text, "\n" + tail);
    assert ("\n" + tail)[1..] == tail;
  }

  lemma FirstFieldRoundTrip(text: string, more: string, fields: seq<string>, tail: string)
    requires ReadRecord(more) == Some((fields, tail))
    ensures ReadRecord(CsvField(text) + ("," + more)) == Some(([text] + fields, tail))
  {
    FieldRoundTrip(text, "," + more);
    assert ("," + more)[1..] == more;
  }

  /** One printed record is read back field by field; a record without fields reads as one empty one. */
  lemma {:induction false} RecordRoundTrip(fields: seq<string>, tail: string)
    ensures ReadRecord(Joined(fields) + "\n" + tail) == Some((if fields == [] then [""] else fields, tail))
  {
    if |fields| <= 1 {
      var text := if fields == [] then "" else fields[0];
      assert Joined(fields) + "\n" + tail == CsvField(text) + ("\n" + tail);
      LastFieldRoundTrip(text, tail);
      assert |fields| == 1 ==> fields == [text];
    } else {
      var more := Joined(fields[1..]) + "\n" + tail;
      assert Joined(fields) + "\n" + tail == CsvField(fields[0]) + ("," + more);
      RecordRoundTrip(fields[1..], tail);
      FirstFieldRoundTrip(fields[0], more, fields[1..], tail);
      assert [fields[0]] + fields[1..] == fields;
    }
  }

  /** What a reader makes of a table: a record without fields becomes one with an empty field. */
  function Readable(table: seq<seq<string>>): (r: seq<seq<string>>)
    ensures |r| == |table| && forall i | 0 <= i < |table| :: r[i] == if table[i] == [] then [""] else table[i]
  {
    if table == [] then [] else [if table[0] == [] then [""] else table[0]] + Readable(table[1..])
  }

  lemma {:induction false} TableRoundTrip(table: seq<seq<string>>)
    ensures Read(Printed(table)) == Some(Readable(table))
  {
    if table != [] {
      var s := Printed(table);
      assert s == Joined(table[0]) + "\n" + Printed(table[1..]);
      RecordRoundTrip(table[0], Printed(table[1..]));
      TableRoundTrip(table[1..]);
    }
  }

  /** An exported result reads back as its header and the text of its cells exactly when it has at
      least one column and no empty row. */
  lemma CsvRoundTrip(result: Result)
    ensures Read(Printed(Table(result))) == Some(Table(result))
            <==> result.columns != [] && forall i | 0 <= i < |result.rows| :: result.rows[i] != []
  {
    var table := Table(result);
    TableRoundTrip(table);
    if Readable(table) == table {
      assert Readable(table)[0] == table[0];
      forall i | 0 <= i < |result.rows| ensures result.rows[i] != [] {
        assert Readable(table)[i + 1] == table[i + 1];
      }
    }
    if result.columns != [] && forall i | 0 <= i < |result.rows| :: result.rows[i] != [] {
      forall i | 0 <= i < |table| ensures Readable(table)[i] == table[i] {
        if i > 0 { assert table[i] == Cells(result.rows[i - 1]); }
      }
    }
  }

  lemma {:induction false} EmptyRecordsPrintAlike(table: seq<seq<string>>)
    ensures Printed(Readable(table)) == Printed(table)
  {
    if table != [] {
      EmptyRecordsPrintAlike(table[1..]);
      assert Readable(table)[1..] == Readable(table[1..]);
      assert Joined([""]) == Joined([]) by { assert CsvField("") == ""; }
    }
  }

  /** Two tables print alike exactly when they differ at most in records without fields, which print as
      one empty field. */
  lemma PrintingIsInjective(a: seq<seq<string>>, b: seq<seq<string>>)
    ensures Printed(a) == Printed(b) <==> Readable(a) == Readable(b)
    ensures [] !in a && [] !in b && Printed(a) == Printed(b) ==> a == b
  {
    TableRoundTrip(a);
    TableRoundTrip(b);
    EmptyRecordsPrintAlike(a);
    EmptyRecordsPrintAlike(b);
    forall t | (t == a || t == b) && [] !in t ensures Readable(t) == t {
      assert forall i | 0 <= i < |t| :: t[i] in t;
    }
  }

  // ---------- cells ----------

  /** A spreadsheet would take this for a formula. */
  ghost predicate LikeFormula(text: string) {
    text != "" && (text[0] == '=' || text[0] == '+' || text[0] == '-' || text[0] == '@')
  }

  /** What each cell prints: a text behind one quote exactly when it would be taken for a formula, and everything
      else as it is. */
  lemma CellsPrint(value: J.Value)
    ensures value.Null? ==> JsonCell(value) == ""
    ensures value.Bool? ==> (JsonCell(value) == "true" <==> value.flag) && (JsonCell(value) == "false" <==> !value.flag)
    ensures value.Number? ==> JsonCell(value) == value.digits
    ensures value.Array? || value.Object? ==> JsonCell(value) == J.Print(value)
    ensures value.String? ==> JsonCell(value) == if LikeFormula(value.text) then "'" + value.text else value.text
  {
    assert "true"[0] != "false"[0];
  }

  /** An exported text cell is never taken for a formula: one that would be is put behind a quote, and any other is
      left alone. */
  lemma NoTextIsAFormula(text: string)
    ensures var cell := JsonCell(J.String(text));
            && (cell == "" || cell[0] !in {'=', '+', '-', '@'})
            && (cell == "'" + text <==> LikeFormula(text)) && (cell == text <==> !LikeFormula(text))
  {
    assert |"'" + text| == |text| + 1;
  }

  /** Of all that is exported, what a spreadsheet takes for a formula is a column name, which is printed as it is,
      or a number with a sign: never a text, an array or an object. */
  lemma FormulasExactly(result: Result, i: nat, j: nat)
    requires i <= |result.rows| && j < |Table(result)[i]|
    ensures LikeFormula(Table(result)[i][j])
            <==> if i == 0 then LikeFormula(result.columns[j])
                 else result.rows[i - 1][j].Number? && LikeFormula(result.rows[i - 1][j].digits)
  {
    if i > 0 {
      var value := result.rows[i - 1][j];
      CellsPrint(value);
      assert value.Array? ==> J.Print(value)[0] == '[';
      assert value.Object? ==> J.Print(value)[0] == '{';
    }
  }

  /** Two texts print the same cell exactly when they are equal, or one is the other behind the quote that marks
      it. */
  lemma TextsPrintAlikeExactly(a: string, b: string)
    ensures JsonCell(J.String(a)) == JsonCell(J.String(b))
            <==> a == b || (LikeFormula(a) && b == "'" + a) || (LikeFormula(b) && a == "'" + b)
  {
    CellsPrint(J.String(a));
    CellsPrint(J.String(b));
    assert ("'" + a)[1..] == a && ("'" + b)[1..] == b;
  }
}
