/** The bounded preview of a stored query result: how long it is when serialized as JSON, and how it
    is cut to fit. */
module Preview {
  import opened Wrappers
  import opened Json

  const ROW_LIMIT: nat := 100
  const CELL_CHAR_LIMIT: nat := 256
  const BYTE_LIMIT: nat := 64 * 1024

  type Usize = n: nat | n < 0x1_0000_0000_0000_0000

  /** A stored cell; a real carries its serialized digits, or none when it is not finite. */
  datatype Cell = Null | Boolean(flag: bool) | Integer(value: int) | Real(digits: Option<Numeral>)
                | Text(text: string) | BlobSummary(bytes: nat)

  datatype QueryResult = QueryResult(columns: seq<string>, rows: seq<seq<Cell>>, rowCount: Usize)

  datatype View = View(columns: seq<string>, rows: seq<seq<Value>>, persisted: Usize, returned: Usize, truncated: bool)

  datatype Error = RowCountTooSmall | WrongRowWidth | NonFiniteNumber | LimitTooSmall

  // ---------- the serialized preview ----------

  function Digits(n: nat): (digits: Numeral)
    ensures forall i | 0 <= i < |digits| :: '0' <= digits[i] <= '9'
  {
    if n < 10 then [(n as char) + '0'] else Digits(n / 10) + [((n % 10) as char) + '0']
  }

  /** The number that decimal digits stand for. */
  function Whole(digits: string): Option<nat> {
    if digits == "" then Some(0)
    else
      var front, last := Whole(digits[..|digits| - 1]), digits[|digits| - 1];
      if front.None? || !('0' <= last <= '9') then None else Some(front.value * 10 + (last - '0') as int)
  }

  lemma {:induction false} DigitsRoundTrip(n: nat)
    ensures Whole(Digits(n)) == Some(n)
  {
    if n >= 10 {
      DigitsRoundTrip(n / 10);
      assert Digits(n)[..|Digits(n)| - 1] == Digits(n / 10);
    } else {
      assert Digits(n)[..0] == "";
    }
  }

  function Strings(texts: seq<string>): (values: seq<Value>)
    ensures |values| == |texts| && forall i | 0 <= i < |texts| :: values[i] == String(texts[i])
  {
    seq(|texts|, i requires 0 <= i < |texts| => String(texts[i]))
  }

  function Arrays(rows: seq<seq<Value>>): (values: seq<Value>)
    ensures |values| == |rows| && forall i | 0 <= i < |rows| :: values[i] == Array(rows[i])
  {
    seq(|rows|, i requires 0 <= i < |rows| => Array(rows[i]))
  }

  /** The members of a preview, in the order they are serialized, but for the last. */
  function Front(v: View): seq<Entry> {
    [Entry("columns", Array(Strings(v.columns))), Entry("rows", Array(Arrays(v.rows))),
     Entry("persisted_row_count", Number(Digits(v.persisted))), Entry("returned_row_count", Number(Digits(v.returned)))]
  }

  function Members(v: View): seq<Entry> { Front(v) + [Entry("truncated", Bool(v.truncated))] }

  function Serialized(v: View): seq<byte> { Utf8(Print(Object(Members(v)))) }

  // ---------- reading a preview ----------

  function Texts(values: seq<Value>): Option<seq<string>> {
    if forall i | 0 <= i < |values| :: values[i].String?
    then Some(seq(|values|, i requires 0 <= i < |values| && values[i].String? => values[i].text))
    else None
  }

  function Rows(values: seq<Value>): Option<seq<seq<Value>>> {
    if forall i | 0 <= i < |values| :: values[i].Array?
    then Some(seq(|values|, i requires 0 <= i < |values| && values[i].Array? => values[i].items))
    else None
  }

  function Count(v: Value): Option<Usize> {
    if v.Number? && Whole(v.digits).Some? && Whole(v.digits).value < 0x1_0000_0000_0000_0000
    then Some(Whole(v.digits).value) else None
  }

  function Assemble(columns: Value, rows: Value, persisted: Value, returned: Value, truncated: Value): Option<View> {
    if !columns.Array? || !rows.Array? || Texts(columns.items).None? || Rows(rows.items).None?
       || Count(persisted).None? || Count(returned).None? || !truncated.Bool? then None
    else Some(View(Texts(columns.items).value, Rows(rows.items).value, Count(persisted).value, Count(returned).value,
                   truncated.flag))
  }

  /** A reader of serialized previews. */
  function ReadView(bytes: seq<byte>): Option<View> {
    var text := Decode(bytes);
    if text.None? then None
    else
      var read := ReadValue(text.value);
      if read.None? || read.value.1 != "" || !read.value.0.Object? then None
      else
        var e := read.value.0.entries;
        if |e| == 5 && e[0].key == "columns" && e[1].key == "rows" && e[2].key == "persisted_row_count"
           && e[3].key == "returned_row_count" && e[4].key == "truncated"
        then Assemble(e[0].value, e[1].value, e[2].value, e[3].value, e[4].value) else None
  }

  lemma AssembledBack(v: View)
    ensures Assemble(Array(Strings(v.columns)), Array(Arrays(v.rows)), Number(Digits(v.persisted)),
                     Number(Digits(v.returned)), Bool(v.truncated)) == Some(v)
  {
    DigitsRoundTrip(v.persisted);
    DigitsRoundTrip(v.returned);
    TextsBack(v.columns);
    RowsBack(v.rows);
  }

  lemma TextsBack(texts: seq<string>)
    ensures Texts(Strings(texts)) == Some(texts)
  {
    assert Texts(Strings(texts)).Some?;
    assert Texts(Strings(texts)).value == texts;
  }

  lemma RowsBack(rows: seq<seq<Value>>)
    ensures Rows(Arrays(rows)) == Some(rows)
  {
    assert Rows(Arrays(rows)).Some?;
    assert Rows(Arrays(rows)).value == rows;
  }

  /** Every preview is read back from its bytes. */
  lemma ViewRoundTrip(v: View)
    ensures ReadView(Serialized(v)) == Some(v)
  {
    var whole := Object(Members(v));
    WholeRoundTrip(whole);
    AssembledBack(v);
  }

  // ---------- its length ----------

  lemma LastMember(front: seq<Entry>, last: Entry)
    requires front != []
    ensures Print(Object(front + [last])) == "{" + Joined(PrintEntries(front)) + "," + PrintEntry(last) + "}"
  {
    PrintedObject(front + [last]);
    assert PrintEntries(front + [last]) == PrintEntries(front) + [PrintEntry(last)];
    JoinedAppends(PrintEntries(front), PrintEntry(last));
  }

  lemma ThreeParts(a: string, b: string, c: string)
    ensures |Utf8(a + b + c)| == |Utf8(a)| + |Utf8(b)| + |Utf8(c)|
  {
    Utf8Appends(a + b, c);
    Utf8Appends(a, b);
  }

  lemma FlagBytes()
    ensures |Utf8(Print(Bool(true)))| == 4 && |Utf8(Print(Bool(false)))| == 5
  {
    AsciiBytes("true");
    AsciiBytes("false");
  }

  lemma FlagEntryBytes(key: string)
    ensures |Utf8(PrintEntry(Entry(key, Bool(true))))| <= |Utf8(PrintEntry(Entry(key, Bool(false))))|
  {
    ThreeParts(Quoted(key), ":", Print(Bool(true)));
    ThreeParts(Quoted(key), ":", Print(Bool(false)));
    FlagBytes();
  }

  /** Raising the flag makes the preview one byte shorter. */
  lemma FlagShortens(v: View)
    ensures |Serialized(v.(truncated := true))| <= |Serialized(v)|
  {
    var before := "{" + Joined(PrintEntries(Front(v))) + ",";
    var lowered, raised := Entry("truncated", Bool(v.truncated)), Entry("truncated", Bool(true));
    LastMember(Front(v), lowered);
    LastMember(Front(v), raised);
    ThreeParts(before, PrintEntry(lowered), "}");
    ThreeParts(before, PrintEntry(raised), "}");
    FlagEntryBytes("truncated");
  }

  lemma {:induction false} DigitsBound(n: nat, k: nat, bound: nat)
    requires k > 0 && n < bound && bound == Power(k)
    ensures |Digits(n)| <= k
    decreases k
  {
    if n >= 10 { DigitsBound(n / 10, k - 1, Power(k - 1)); }
  }

  function Power(k: nat): nat {
    if k == 0 then 1 else 10 * Power(k - 1)
  }

  lemma CountIsShort(n: Usize)
    ensures |Digits(n)| <= 20
  {
    assert Power(20) == 100000000000000000000 by {
      assert Power(5) == 100000;
      PowerAdds(5, 5);
      PowerAdds(10, 10);
    }
    DigitsBound(n, 20, Power(20));
  }

  lemma {:induction false} PowerAdds(a: nat, b: nat)
    ensures Power(a + b) == Power(a) * Power(b)
  {
    if b > 0 { PowerAdds(a, b - 1); }
  }

  lemma ShortEntry(entry: Entry)
    requires |entry.key| <= 20 && |Print(entry.value)| <= 20
    ensures |PrintEntry(entry)| <= 150
  {
    EscapedAtMost(entry.key);
  }

  lemma ShortObject(entries: seq<Entry>)
    requires |entries| <= 5 && forall i | 0 <= i < |entries| :: |PrintEntry(entries[i])| <= 150
    ensures |Utf8(Print(Object(entries)))| <= BYTE_LIMIT
  {
    PrintedObject(entries);
    JoinedAtMost(PrintEntries(entries), 150);
    BytesAtMost(Print(Object(entries)));
  }

  /** A preview without columns or rows always fits. */
  lemma EmptyFits(v: View)
    requires v.columns == [] && v.rows == []
    ensures |Serialized(v)| <= BYTE_LIMIT
  {
    CountIsShort(v.persisted);
    CountIsShort(v.returned);
    PrintedArray([]);
    assert Strings(v.columns) == [] && Arrays(v.rows) == [];
    forall i | 0 <= i < 5 ensures |PrintEntry(Members(v)[i])| <= 150 {
      ShortEntry(Members(v)[i]);
    }
    ShortObject(Members(v));
  }

  // ---------- cutting ----------

  predicate TooLong(text: string) { |text| > CELL_CHAR_LIMIT }

  function Cut(text: string): string {
    if TooLong(text) then text[..CELL_CHAR_LIMIT] else text
  }

  method TruncateDisplayText(text: string) returns (cut: string, truncated: bool)
    ensures cut == Cut(text) && truncated == TooLong(text)
  {
    truncated := |text| > CELL_CHAR_LIMIT;
    cut := text[..if truncated then CELL_CHAR_LIMIT else |text|];
  }

  predicate Showable(cell: Cell) { cell.Real? ==> cell.digits.Some? }

  predicate CellTooLong(cell: Cell) { cell.Text? && TooLong(cell.text) }

  function ShowCell(cell: Cell): Value
    requires Showable(cell)
  {
    match cell
    case Null => Value.Null
    case Boolean(flag) => Bool(flag)
    case Integer(value) => Number(if value < 0 then "-" + Digits(-value) else Digits(value))
    case Real(digits) => Number(digits.value)
    case Text(text) => String(Cut(text))
    case BlobSummary(bytes) => String("[BLOB " + Digits(bytes) + " bytes]")
  }

  /** The integer that a number in a preview stands for, if it is one. */
  function Signed(digits: string): Option<int> {
    if digits != "" && digits[0] == '-'
    then if Whole(digits[1..]).None? then None else Some(-(Whole(digits[1..]).value as int))
    else if Whole(digits).None? then None else Some(Whole(digits).value)
  }

  ghost predicate BlobText(text: string, bytes: nat) {
    && |text| >= 13 && text[..6] == "[BLOB " && text[|text| - 7..] == " bytes]"
    && Whole(text[6..|text| - 7]) == Some(bytes)
  }

  /** A cell is shown as what it is: only a text is cut, to its first 256 characters. */
  lemma ShownAsIs(cell: Cell)
    requires Showable(cell)
    ensures cell.Null? <==> ShowCell(cell).Null?
    ensures cell.Boolean? <==> ShowCell(cell).Bool?
    ensures cell.Boolean? ==> ShowCell(cell).flag == cell.flag
    ensures cell.Integer? ==> ShowCell(cell).Number? && Signed(ShowCell(cell).digits) == Some(cell.value)
    ensures cell.Real? ==> ShowCell(cell).Number? && cell.digits == Some(ShowCell(cell).digits)
    ensures cell.Text? || cell.BlobSummary? <==> ShowCell(cell).String?
    ensures cell.Text? ==>
              && |ShowCell(cell).text| == (if |cell.text| < 256 then |cell.text| else 256)
              && forall i | 0 <= i < |ShowCell(cell).text| :: ShowCell(cell).text[i] == cell.text[i]
    ensures cell.BlobSummary? ==> BlobText(ShowCell(cell).text, cell.bytes)
  {
    match cell
    case Integer(value) => IntegerShown(value);
    case BlobSummary(bytes) => BlobShown(bytes);
    case _ =>
  }

  lemma SignedDigits(n: nat)
    ensures Signed(Digits(n)) == Some(n as int)
  {
    DigitsRoundTrip(n);
    assert '0' <= Digits(n)[0] <= '9';
  }

  lemma SignedNegative(n: nat)
    ensures Signed("-" + Digits(n)) == Some(-(n as int))
  {
    DigitsRoundTrip(n);
    assert ("-" + Digits(n))[1..] == Digits(n);
  }

  lemma IntegerShown(value: int)
    ensures Signed(ShowCell(Integer(value)).digits) == Some(value)
  {
    if value < 0 { SignedNegative(-value); } else { SignedDigits(value); }
  }

  lemma BlobShown(bytes: nat)
    ensures BlobText(ShowCell(BlobSummary(bytes)).text, bytes)
  {
    DigitsRoundTrip(bytes);
    var text := "[BLOB " + Digits(bytes) + " bytes]";
    assert text[..6] == "[BLOB ";
    assert text[|text| - 7..] == " bytes]";
    assert text[6..|text| - 7] == Digits(bytes);
  }

  predicate Malformed(result: QueryResult) {
    || result.rowCount < |result.rows|
    || exists i | 0 <= i < |result.rows| :: |result.rows[i]| != |result.columns|
  }

  /** The first cells of a row, shown. */
  function ShowRow(row: seq<Cell>, width: nat): (shown: seq<Value>)
    requires width <= |row| && forall j | 0 <= j < width :: Showable(row[j])
    ensures |shown| == width && forall j | 0 <= j < width :: shown[j] == ShowCell(row[j])
  {
    if width == 0 then [] else ShowRow(row, width - 1) + [ShowCell(row[width - 1])]
  }

  ghost predicate RowShowable(row: seq<Cell>, width: nat)
    requires width <= |row|
  {
    forall j | 0 <= j < width :: Showable(row[j])
  }

  ghost predicate RowCut(row: seq<Cell>, width: nat)
    requires width <= |row|
  {
    exists j | 0 <= j < width :: CellTooLong(row[j])
  }

  function Min(a: nat, b: nat): nat { if a < b then a else b }

  /** The preview shows the first rows of the first columns, cell by cell. */
  ghost predicate Prefix(result: QueryResult, v: View) {
    && |v.columns| <= |result.columns| && |v.rows| <= Min(ROW_LIMIT, |result.rows|)
    && (forall i | 0 <= i < |v.columns| :: v.columns[i] == Cut(result.columns[i]))
    && (forall i | 0 <= i < |v.rows| ::
          && |v.columns| <= |result.rows[i]| && RowShowable(result.rows[i], |v.columns|)
          && v.rows[i] == ShowRow(result.rows[i], |v.columns|))
    && v.persisted == result.rowCount && v.returned == |v.rows|
  }

  /** Something of the result is not in the preview: a row, a column, or the end of a text. */
  ghost predicate SomethingCut(result: QueryResult, v: View)
    requires Prefix(result, v)
  {
    || |v.rows| < |result.rows| || |v.columns| < |result.columns|
    || (exists i | 0 <= i < |v.columns| :: TooLong(result.columns[i]))
    || (exists i | 0 <= i < |v.rows| :: RowCut(result.rows[i], |v.columns|))
  }

  // ---------- what is measured ----------

  /** Some row so far lost the end of a text. */
  ghost predicate RowsCut(result: QueryResult, n: nat, width: nat)
    requires n <= |result.rows| && width <= |result.columns| && !Malformed(result)
  {
    exists i | 0 <= i < n :: RowCut(result.rows[i], width)
  }

  /** What is known to be cut when the preview of the first columns and rows is measured. */
  ghost predicate Flagged(result: QueryResult, k: nat, n: nat)
    requires n <= |result.rows| && k <= |result.columns| && !Malformed(result)
  {
    || |result.rows| > ROW_LIMIT || k < |result.columns|
    || (exists i | 0 <= i < |result.columns| :: TooLong(result.columns[i])) || RowsCut(result, n, k)
  }

  function CutTo(columns: seq<string>, k: nat): (cut: seq<string>)
    requires k <= |columns|
    ensures |cut| == k && forall i | 0 <= i < k :: cut[i] == Cut(columns[i])
  {
    if k == 0 then [] else CutTo(columns, k - 1) + [Cut(columns[k - 1])]
  }

  ghost predicate Showing(result: QueryResult, k: nat, n: nat)
    requires k <= |result.columns| && !Malformed(result)
  {
    n <= Min(ROW_LIMIT, |result.rows|) && forall i | 0 <= i < n :: RowShowable(result.rows[i], k)
  }

  ghost function ShowRows(result: QueryResult, k: nat, n: nat): (shown: seq<seq<Value>>)
    requires k <= |result.columns| && !Malformed(result) && Showing(result, k, n)
    ensures |shown| == n && forall i | 0 <= i < n :: shown[i] == ShowRow(result.rows[i], k)
  {
    if n == 0 then [] else ShowRows(result, k, n - 1) + [ShowRow(result.rows[n - 1], k)]
  }

  /** The preview of the first columns and rows, as it is measured. */
  ghost function Measured(result: QueryResult, k: nat, n: nat): View
    requires k <= |result.columns| && !Malformed(result) && Showing(result, k, n)
  {
    View(CutTo(result.columns, k), ShowRows(result, k, n), result.rowCount, n, Flagged(result, k, n))
  }

  ghost predicate Fits(result: QueryResult, k: nat, n: nat)
    requires k <= |result.columns| && !Malformed(result) && Showing(result, k, n)
  {
    |Serialized(Measured(result, k, n))| <= BYTE_LIMIT
  }

  lemma NoneFits(result: QueryResult)
    requires !Malformed(result)
    ensures Fits(result, 0, 0)
  {
    EmptyFits(Measured(result, 0, 0));
  }

  lemma NothingShowing(result: QueryResult, k: nat)
    requires k <= |result.columns| && !Malformed(result)
    ensures Showing(result, k, 0)
  {
  }

  /** The lengths of the previews without rows, by the number of their columns. */
  ghost function Lengths(result: QueryResult): (lengths: seq<nat>)
    requires !Malformed(result)
    ensures |lengths| == |result.columns| + 1
    ensures forall k | 0 <= k < |lengths| :: Showing(result, k, 0) && lengths[k] == |Serialized(Measured(result, k, 0))|
  {
    seq(|result.columns| + 1, k requires 0 <= k <= |result.columns| =>
      NothingShowing(result, k); |Serialized(Measured(result, k, 0))|)
  }

  /** The last of the first lengths that is within the limit. */
  function LastWithin(lengths: seq<nat>, k: nat): (last: nat)
    requires k < |lengths|
    ensures last <= k
  {
    if k == 0 || lengths[k] <= BYTE_LIMIT then k else LastWithin(lengths, k - 1)
  }

  lemma {:induction false} LastIsWithin(lengths: seq<nat>, k: nat)
    requires k < |lengths| && lengths[0] <= BYTE_LIMIT
    ensures lengths[LastWithin(lengths, k)] <= BYTE_LIMIT
    ensures forall j | LastWithin(lengths, k) < j <= k :: lengths[j] > BYTE_LIMIT
  {
    if k > 0 && lengths[k] > BYTE_LIMIT { LastIsWithin(lengths, k - 1); }
  }

  /** The most columns that fit without rows. */
  ghost function Visible(result: QueryResult): (visible: nat)
    requires !Malformed(result)
    ensures visible <= |result.columns|
  {
    LastWithin(Lengths(result), |result.columns|)
  }

  /** The visible columns fit, and with any more columns the preview is too long. */
  lemma VisibleExactly(result: QueryResult, k: nat)
    requires k <= |result.columns| && !Malformed(result)
    ensures Fits(result, Visible(result), 0)
    ensures Fits(result, k, 0) ==> k <= Visible(result)
  {
    NoneFits(result);
    LastIsWithin(Lengths(result), |result.columns|);
    assert Lengths(result)[k] == |Serialized(Measured(result, k, 0))|;
  }

  ghost predicate Reaches(result: QueryResult, k: nat, n: nat)
    requires k <= |result.columns| && !Malformed(result)
  {
    Showing(result, k, n) && forall i | 0 <= i <= n :: Fits(result, k, i)
  }

  /** With these rows the preview is full, or has all it may have. */
  ghost predicate Stops(result: QueryResult, k: nat, n: nat)
    requires k <= |result.columns| && !Malformed(result)
  {
    && Reaches(result, k, n)
    && (n < Min(ROW_LIMIT, |result.rows|) ==> RowShowable(result.rows[n], k) && !Fits(result, k, n + 1))
  }

  /** The next row, which the preview still has room to try, holds a number that is not finite. */
  ghost predicate Stumbles(result: QueryResult, k: nat)
    requires k <= |result.columns| && !Malformed(result)
  {
    exists n | 0 <= n < Min(ROW_LIMIT, |result.rows|) :: Reaches(result, k, n) && !RowShowable(result.rows[n], k)
  }

  /** Past the rows at which it stops nothing is reached. */
  lemma NothingPast(result: QueryResult, k: nat, n: nat, m: nat)
    requires k <= |result.columns| && !Malformed(result) && Stops(result, k, n)
    requires n < m < Min(ROW_LIMIT, |result.rows|)
    ensures !Reaches(result, k, m)
  {
  }

  lemma StopsOrStumbles(result: QueryResult, k: nat, n: nat)
    requires k <= |result.columns| && !Malformed(result) && Stops(result, k, n)
    ensures !Stumbles(result, k)
  {
    forall m | 0 <= m < Min(ROW_LIMIT, |result.rows|) ensures Reaches(result, k, m) ==> RowShowable(result.rows[m], k) {
      if m > n { NothingPast(result, k, n, m); }
    }
  }

  // ---------- building ----------

  method CutColumns(columns: seq<string>) returns (cut: seq<string>, truncated: bool)
    ensures cut == CutTo(columns, |columns|)
    ensures truncated <==> exists i | 0 <= i < |columns| :: TooLong(columns[i])
  {
    cut, truncated := [], false;
    for i := 0 to |columns|
      invariant cut == CutTo(columns, i)
      invariant truncated <==> exists k | 0 <= k < i :: TooLong(columns[k])
    {
      var column, wasTruncated := TruncateDisplayText(columns[i]);
      truncated := truncated || wasTruncated;
      cut := cut + [column];
    }
  }

  function Narrower(v: View): View
    requires v.columns != []
  {
    v.(columns := v.columns[..|v.columns| - 1], truncated := true)
  }

  /** These columns are left, and the widest preview is not wider. */
  ghost predicate Dropping(result: QueryResult, v: View)
    requires !Malformed(result)
  {
    var k := |v.columns|;
    && k <= |result.columns| && v == Measured(result, k, 0)
    && LastWithin(Lengths(result), k) == Visible(result)
  }

  /** A preview that does not fit without rows has a column to drop. */
  lemma OneFewer(result: QueryResult, v: View) returns (next: View)
    requires !Malformed(result) && Dropping(result, v) && |Serialized(v)| > BYTE_LIMIT
    ensures v.columns != [] && next == Narrower(v) && Dropping(result, next)
  {
    var k := |v.columns|;
    if k == 0 { NoneFits(result); }
    assert Lengths(result)[k] == |Serialized(v)|;
    next := Narrower(v);
    assert next == Measured(result, k - 1, 0);
  }

  lemma AllDropped(result: QueryResult, v: View)
    requires !Malformed(result) && Dropping(result, v) && |Serialized(v)| <= BYTE_LIMIT
    ensures v == Measured(result, Visible(result), 0)
  {
    assert Lengths(result)[|v.columns|] == |Serialized(v)|;
  }

  lemma StartIsMeasured(result: QueryResult, flag: bool)
    requires !Malformed(result)
    requires flag <==> |result.rows| > ROW_LIMIT || exists i | 0 <= i < |result.columns| :: TooLong(result.columns[i])
    ensures View(CutTo(result.columns, |result.columns|), [], result.rowCount, 0, flag)
            == Measured(result, |result.columns|, 0)
  {
  }

  /** Drops columns from the right until the preview without rows fits; there is always room for none. */
  method FitColumns(result: QueryResult, start: View) returns (v: View)
    requires !Malformed(result) && start == Measured(result, |result.columns|, 0)
    ensures v == Measured(result, Visible(result), 0)
  {
    v := start;
    while |Serialized(v)| > BYTE_LIMIT
      invariant Dropping(result, v)
      decreases |v.columns|
    {
      ghost var next := OneFewer(result, v);
      v := Narrower(v);
      assert v == next;
    }
    AllDropped(result, v);
  }

  method ProjectRow(row: seq<Cell>, width: nat) returns (shown: Option<seq<Value>>, truncated: bool)
    requires width <= |row|
    ensures shown.Some? <==> RowShowable(row, width)
    ensures shown.Some? ==> shown.value == ShowRow(row, width)
    ensures shown.Some? ==> (truncated <==> RowCut(row, width))
  {
    var projected := [];
    truncated := false;
    for j := 0 to width
      invariant RowShowable(row, j) && projected == ShowRow(row, j)
      invariant truncated <==> RowCut(row, j)
    {
      if !Showable(row[j]) { return None, truncated; }
      truncated := truncated || CellTooLong(row[j]);
      projected := projected + [ShowCell(row[j])];
    }
    shown := Some(projected);
  }

  lemma RowsCutGrows(result: QueryResult, n: nat, width: nat)
    requires n < |result.rows| && width <= |result.columns| && !Malformed(result)
    ensures RowsCut(result, n + 1, width) <==> RowsCut(result, n, width) || RowCut(result.rows[n], width)
  {
  }

  lemma MeasuredNext(result: QueryResult, k: nat, n: nat)
    requires k <= |result.columns| && !Malformed(result) && Showing(result, k, n)
    requires n < Min(ROW_LIMIT, |result.rows|) && RowShowable(result.rows[n], k)
    ensures Showing(result, k, n + 1)
    ensures var v := Measured(result, k, n);
            Measured(result, k, n + 1)
            == View(v.columns, v.rows + [ShowRow(result.rows[n], k)], v.persisted, n + 1,
                    v.truncated || RowCut(result.rows[n], k))
  {
    RowsCutGrows(result, n, k);
  }

  lemma PushedExactly(result: QueryResult, k: nat, n: nat, pushed: View)
    requires !Malformed(result) && k <= |result.columns| && Reaches(result, k, n)
    requires n < Min(ROW_LIMIT, |result.rows|) && RowShowable(result.rows[n], k)
    requires Showing(result, k, n + 1) && pushed == Measured(result, k, n + 1)
    ensures if |Serialized(pushed)| > BYTE_LIMIT then Stops(result, k, n) else Reaches(result, k, n + 1)
  {
  }

  /** Pushes the next row, and pops it again when the preview became too long. */
  method PushRow(result: QueryResult, ghost k: nat, v: View) returns (r: Option<View>)
    requires !Malformed(result) && k <= |result.columns| && Reaches(result, k, |v.rows|)
             && v == Measured(result, k, |v.rows|)
    requires |v.rows| < Min(ROW_LIMIT, |result.rows|)
    ensures r.None? <==> !RowShowable(result.rows[|v.rows|], k)
    ensures r.Some? && |r.value.rows| != |v.rows| ==>
              |r.value.rows| == |v.rows| + 1 && Reaches(result, k, |v.rows| + 1)
              && r.value == Measured(result, k, |v.rows| + 1)
    ensures r.Some? && |r.value.rows| == |v.rows| ==> r.value == v.(truncated := true) && Stops(result, k, |v.rows|)
  {
    var shown, truncated := ProjectRow(result.rows[|v.rows|], |v.columns|);
    if shown.None? { return None; }
    MeasuredNext(result, k, |v.rows|);
    var pushed := v.(rows := v.rows + [shown.value], truncated := v.truncated || truncated);
    pushed := pushed.(returned := |pushed.rows|);
    PushedExactly(result, k, |v.rows|, pushed);
    if |Serialized(pushed)| > BYTE_LIMIT { return Some(v.(truncated := true)); }
    r := Some(pushed);
  }

  /** What is measured is a prefix of the result, and its flag tells what was cut once it stops. */
  lemma MeasuredIsPrefix(result: QueryResult, k: nat, n: nat)
    requires k <= |result.columns| && !Malformed(result) && Reaches(result, k, n)
    ensures Prefix(result, Measured(result, k, n))
    ensures n == |result.rows| ==>
              (Measured(result, k, n).truncated <==> SomethingCut(result, Measured(result, k, n)))
  {
  }

  lemma CutIsPrefix(result: QueryResult, k: nat, n: nat)
    requires k <= |result.columns| && !Malformed(result) && Reaches(result, k, n) && n < |result.rows|
    ensures var v := Measured(result, k, n).(truncated := true);
            Prefix(result, v) && SomethingCut(result, v) && |Serialized(v)| <= BYTE_LIMIT
  {
    MeasuredIsPrefix(result, k, n);
    assert Fits(result, k, n);
    FlagShortens(Measured(result, k, n));
  }

  /** The preview is as long as it can be, and says exactly whether something was cut. */
  ghost predicate Previews(result: QueryResult, v: View)
    requires !Malformed(result)
  {
    && Prefix(result, v) && |Serialized(v)| <= BYTE_LIMIT
    && |v.columns| == Visible(result) && Stops(result, |v.columns|, |v.rows|)
    && (v.truncated <==> SomethingCut(result, v))
  }

  /** The rows at which it stops make the preview, flagged when a row is left over. */
  lemma StoppedPreviews(result: QueryResult, n: nat)
    requires !Malformed(result) && Stops(result, Visible(result), n)
    ensures var v := Measured(result, Visible(result), n);
            Previews(result, if n < |result.rows| then v.(truncated := true) else v)
  {
    MeasuredIsPrefix(result, Visible(result), n);
    assert Fits(result, Visible(result), n);
    if n < |result.rows| { CutIsPrefix(result, Visible(result), n); }
  }

  /** A preview is full: with one more row, where there is one and fewer than 100 are shown, or with more columns
      and no rows, it would be longer than 64 KiB. */
  lemma PreviewIsFull(result: QueryResult, v: View)
    requires !Malformed(result) && Previews(result, v)
    ensures |Serialized(v)| <= 65536 && |v.rows| <= 100
    ensures |v.rows| < |result.rows| && |v.rows| < 100 ==>
              Showing(result, |v.columns|, |v.rows| + 1)
              && |Serialized(Measured(result, |v.columns|, |v.rows| + 1))| > 65536
    ensures forall k | |v.columns| < k <= |result.columns| ::
              Showing(result, k, 0) && |Serialized(Measured(result, k, 0))| > 65536
  {
    if |v.rows| < |result.rows| && |v.rows| < 100 {
      assert !Fits(result, |v.columns|, |v.rows| + 1);
    }
    forall k | |v.columns| < k <= |result.columns|
      ensures Showing(result, k, 0) && |Serialized(Measured(result, k, 0))| > 65536
    {
      VisibleExactly(result, k);
      assert !Fits(result, k, 0);
    }
  }

  /** Adds rows from the top while they fit. */
  method FillRows(result: QueryResult, start: View) returns (r: Result<View, Error>)
    requires !Malformed(result) && start == Measured(result, Visible(result), 0)
    ensures r == Err(NonFiniteNumber) <==> Stumbles(result, Visible(result))
    ensures r.Err? ==> r == Err(NonFiniteNumber)
    ensures r.Ok? ==> Previews(result, r.value)
  {
    ghost var k := Visible(result);
    VisibleExactly(result, 0);
    var v := start;
    var full := false;
    while |v.rows| < Min(ROW_LIMIT, |result.rows|)
      invariant |v.rows| <= Min(ROW_LIMIT, |result.rows|) && Reaches(result, k, |v.rows|)
      invariant v == Measured(result, k, |v.rows|)
      decreases |result.rows| - |v.rows|
    {
      var next := PushRow(result, k, v);
      if next.None? { return Err(NonFiniteNumber); }
      if |next.value.rows| == |v.rows| {
        full := true;
        break;
      }
      v := next.value;
    }
    StopsOrStumbles(result, k, |v.rows|);
    StoppedPreviews(result, |v.rows|);
    if full || v.returned < |result.rows| { v := v.(truncated := true); }
    r := Ok(v);
  }

  /** The preview of a stored result. It fails when the stored result is malformed, or when a row that it
      still has room to try holds a number that is not finite among the visible columns, and only then;
      the error for a limit that is too small is never returned. Otherwise it is the most columns that fit
      without rows and the most rows that fit with them, flagged exactly when something was cut. */
  method Build(result: QueryResult) returns (r: Result<View, Error>)
    ensures r == Err(RowCountTooSmall) <==> result.rowCount < |result.rows|
    ensures r == Err(WrongRowWidth) <==> Malformed(result) && result.rowCount >= |result.rows|
    ensures r == Err(NonFiniteNumber) <==> !Malformed(result) && Stumbles(result, Visible(result))
    ensures r != Err(LimitTooSmall)
    ensures r.Ok? ==> !Malformed(result) && Previews(result, r.value)
    ensures r.Ok? ==> |Serialized(r.value)| <= 65536 && ReadView(Serialized(r.value)) == Some(r.value)
    ensures r.Ok? ==> |r.value.rows| <= 100
  {
    if result.rowCount < |result.rows| { return Err(RowCountTooSmall); }
    for i := 0 to |result.rows|
      invariant forall k | 0 <= k < i :: |result.rows[k]| == |result.columns|
    {
      if |result.rows[i]| != |result.columns| { return Err(WrongRowWidth); }
    }
    var columns, columnCut := CutColumns(result.columns);
    var start := View(columns, [], result.rowCount, 0, |result.rows| > ROW_LIMIT || columnCut);
    StartIsMeasured(result, start.truncated);
    var v := FitColumns(result, start);
    r := FillRows(result, v);
    if r.Ok? { ViewRoundTrip(r.value); }
  }
}
