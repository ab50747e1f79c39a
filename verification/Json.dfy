/** The JSON text of values, as bytes, against a reader of RFC 8259 for texts without white space. */
module Json {
  import opened Wrappers

  type byte = n: nat | n < 256

  // ---------- UTF-8 ----------

  /** A continuation byte: the six bits above this power of 64. */
  function Continuation(n: nat, unit: nat): byte
    requires unit > 0
  {
    0x80 + n / unit % 64
  }

  function EncodeChar(c: char): seq<byte> {
    var n := c as int;
    if n < 0x80 then [n]
    else if n < 0x800 then [0xC0 + n / 64, Continuation(n, 1)]
    else if n < 0x1_0000 then [0xE0 + n / 4096, Continuation(n, 64), Continuation(n, 1)]
    else [0xF0 + n / 262144, Continuation(n, 4096), Continuation(n, 64), Continuation(n, 1)]
  }

  function Utf8(s: string): seq<byte> {
    if s == "" then [] else EncodeChar(s[0]) + Utf8(s[1..])
  }

  predicate Continues(b: byte) { 0x80 <= b < 0xC0 }

  predicate Scalar(n: int) { 0 <= n < 0xD800 || 0xE000 <= n < 0x11_0000 }

  /** The first character, from its shortest form only, and the rest. */
  function DecodeChar(b: seq<byte>): Option<(char, seq<byte>)> {
    if b == [] then None
    else if b[0] < 0x80 then Some((b[0] as char, b[1..]))
    else if 0xC0 <= b[0] < 0xE0 && |b| > 1 && Continues(b[1]) then
      var n := (b[0] as int - 0xC0) * 64 + (b[1] as int - 0x80);
      if n < 0x80 then None else Some((n as char, b[2..]))
    else if 0xE0 <= b[0] < 0xF0 && |b| > 2 && Continues(b[1]) && Continues(b[2]) then
      var n := (b[0] as int - 0xE0) * 4096 + (b[1] as int - 0x80) * 64 + (b[2] as int - 0x80);
      if n < 0x800 || !Scalar(n) then None else Some((n as char, b[3..]))
    else if 0xF0 <= b[0] < 0xF8 && |b| > 3 && Continues(b[1]) && Continues(b[2]) && Continues(b[3]) then
      var n := (b[0] as int - 0xF0) * 262144 + (b[1] as int - 0x80) * 4096 + (b[2] as int - 0x80) * 64
               + (b[3] as int - 0x80);
      if n < 0x1_0000 || !Scalar(n) then None else Some((n as char, b[4..]))
    else None
  }

  function Decode(b: seq<byte>): Option<string>
    decreases |b|
  {
    if b == [] then Some("")
    else
      var first := DecodeChar(b);
      if first.None? then None
      else
        var more := Decode(first.value.1);
        if more.None? then None else Some([first.value.0] + more.value)
  }

  lemma SplitBits(n: nat)
    ensures n / 64 * 64 + n % 64 == n
    ensures n / 4096 * 64 + n / 64 % 64 == n / 64
    ensures n / 262144 * 64 + n / 4096 % 64 == n / 4096
  {
  }

  lemma CharRoundTrip(c: char, tail: seq<byte>)
    ensures DecodeChar(EncodeChar(c) + tail) == Some((c, tail))
  {
    assert (EncodeChar(c) + tail)[|EncodeChar(c)|..] == tail;
    SplitBits(c as int);
  }

  /** Text comes back from its bytes. */
  lemma {:induction false} Utf8RoundTrip(s: string)
    ensures Decode(Utf8(s)) == Some(s)
  {
    if s != "" {
      CharRoundTrip(s[0], Utf8(s[1..]));
      Utf8RoundTrip(s[1..]);
      assert [s[0]] + s[1..] == s;
    }
  }

  lemma {:induction false} Utf8Appends(a: string, b: string)
    ensures Utf8(a + b) == Utf8(a) + Utf8(b)
  {
    if a == "" {
      assert a + b == b;
    } else {
      assert (a + b)[0] == a[0] && (a + b)[1..] == a[1..] + b;
      Utf8Appends(a[1..], b);
    }
  }

  lemma {:induction false} AsciiBytes(s: string)
    requires forall i | 0 <= i < |s| :: s[i] as int < 0x80
    ensures |Utf8(s)| == |s|
  {
    if s != "" { AsciiBytes(s[1..]); }
  }

  // ---------- printing ----------

  predicate NumberChar(c: char) { '0' <= c <= '9' || c == '-' || c == '+' || c == '.' || c == 'e' || c == 'E' }

  /** The text of a number; numbers are kept as they are written. */
  type Numeral = s: string | s != "" && forall i | 0 <= i < |s| :: NumberChar(s[i])
    witness "0"

  datatype Value =
    | Null | Bool(flag: bool) | Number(digits: Numeral) | String(text: string)
    | Array(items: seq<Value>) | Object(entries: seq<Entry>)

  datatype Entry = Entry(key: string, value: Value)

  function HexDigit(n: nat): char
    requires n < 16
  {
    if n < 10 then '0' + n as char else 'a' + (n - 10) as char
  }

  function EscapedChar(c: char): string {
    if c == '"' then "\\\""
    else if c == '\\' then "\\\\"
    else if c as int == 8 then "\\b"
    else if c == '\t' then "\\t"
    else if c == '\n' then "\\n"
    else if c as int == 12 then "\\f"
    else if c == '\r' then "\\r"
    else if c as int < 0x20 then "\\u00" + [HexDigit(c as int / 16), HexDigit(c as int % 16)]
    else [c]
  }

  function Escaped(text: string): string {
    if text == "" then "" else EscapedChar(text[0]) + Escaped(text[1..])
  }

  function Quoted(text: string): string { "\"" + Escaped(text) + "\"" }

  function Joined(parts: seq<string>): string {
    if parts == [] then "" else if |parts| == 1 then parts[0] else parts[0] + "," + Joined(parts[1..])
  }

  function Print(v: Value): string {
    match v
    case Null => "null"
    case Bool(flag) => if flag then "true" else "false"
    case Number(digits) => digits
    case String(text) => Quoted(text)
    case Array(items) => "[" + Joined(seq(|items|, i requires 0 <= i < |items| => Print(items[i]))) + "]"
    case Object(entries) =>
      "{" + Joined(seq(|entries|, i requires 0 <= i < |entries| =>
                     Quoted(entries[i].key) + ":" + Print(entries[i].value))) + "}"
  }

  // ---------- reading ----------

  function HexValue(c: char): (r: Option<nat>)
    ensures r.Some? ==> r.value < 16
  {
    if '0' <= c <= '9' then Some((c - '0') as int)
    else if 'a' <= c <= 'f' then Some((c - 'a') as int + 10)
    else if 'A' <= c <= 'F' then Some((c - 'A') as int + 10)
    else None
  }

  function HexByte(high: char, low: char): (r: Option<nat>)
    ensures r.Some? ==> r.value < 256
  {
    if HexValue(high).None? || HexValue(low).None? then None
    else Some(HexValue(high).value * 16 + HexValue(low).value)
  }

  /** The code unit of four hexadecimal digits. */
  function HexUnit(s: string): (r: Option<nat>)
    requires |s| >= 4
    ensures r.Some? ==> r.value < 0x1_0000
  {
    var high, low := HexByte(s[0], s[1]), HexByte(s[2], s[3]);
    if high.None? || low.None? then None else Some(high.value * 256 + low.value)
  }

  /** The character of an escape whose backslash was read, and the rest: one of the short forms, a code unit, or
      a pair of them for a character beyond the first plane. */
  function ReadEscape(s: string): (r: Option<(char, string)>)
    ensures r.Some? ==> |r.value.1| < |s|
  {
    if s == "" then None
    else if s[0] == '"' || s[0] == '\\' || s[0] == '/' then Some((s[0], s[1..]))
    else if s[0] == 'b' then Some((8 as char, s[1..]))
    else if s[0] == 't' then Some(('\t', s[1..]))
    else if s[0] == 'n' then Some(('\n', s[1..]))
    else if s[0] == 'f' then Some((12 as char, s[1..]))
    else if s[0] == 'r' then Some(('\r', s[1..]))
    else if s[0] == 'u' && |s| > 4 then
      var unit := HexUnit(s[1..]);
      if unit.None? then None
      else if Scalar(unit.value) then Some((unit.value as char, s[5..]))
      else if unit.value < 0xDC00 && |s| > 10 && s[5] == '\\' && s[6] == 'u' then
        var low := HexUnit(s[7..]);
        if low.None? || !(0xDC00 <= low.value < 0xE000) then None
        else Some(((0x1_0000 + (unit.value - 0xD800) * 0x400 + (low.value - 0xDC00)) as char, s[11..]))
      else None
    else None
  }

  /** The text up to the closing quote, and the rest; a control character must be escaped. */
  function ReadText(s: string): (r: Option<(string, string)>)
    ensures r.Some? ==> |r.value.1| < |s|
    decreases |s|
  {
    if s == "" then None
    else if s[0] == '"' then Some(("", s[1..]))
    else
      var first := if s[0] == '\\' then ReadEscape(s[1..])
                   else if s[0] as int < 0x20 then None else Some((s[0], s[1..]));
      if first.None? then None
      else
        var more := ReadText(first.value.1);
        if more.None? then None else Some(([first.value.0] + more.value.0, more.value.1))
  }

  /** The longest run of characters of numbers, and the rest. */
  function ReadNumeral(s: string): (r: (string, string))
    ensures |r.1| <= |s| && forall i | 0 <= i < |r.0| :: NumberChar(r.0[i])
    ensures s != "" && NumberChar(s[0]) ==> r.0 != "" && |r.1| < |s|
  {
    if s == "" || !NumberChar(s[0]) then ("", s)
    else var more := ReadNumeral(s[1..]); ([s[0]] + more.0, more.1)
  }

  /** The rest after these characters. */
  function Expect(s: string, literal: string): (r: Option<string>)
    ensures r.Some? ==> s == literal + r.value
  {
    if literal <= s then Some(s[|literal|..]) else None
  }

  function ReadValue(s: string): (r: Option<(Value, string)>)
    ensures r.Some? ==> |r.value.1| < |s|
    decreases |s|, 0
  {
    if s == "" then None
    else if s[0] == '"' then
      var text := ReadText(s[1..]);
      if text.None? then None else Some((String(text.value.0), text.value.1))
    else if s[0] == '[' then
      if |s| > 1 && s[1] == ']' then Some((Array([]), s[2..]))
      else
        var items := ReadItems(s[1..]);
        if items.None? then None else Some((Array(items.value.0), items.value.1))
    else if s[0] == '{' then
      if |s| > 1 && s[1] == '}' then Some((Object([]), s[2..]))
      else
        var entries := ReadEntries(s[1..]);
        if entries.None? then None else Some((Object(entries.value.0), entries.value.1))
    else if NumberChar(s[0]) then var number := ReadNumeral(s); Some((Number(number.0), number.1))
    else if Expect(s, "null").Some? then Some((Null, Expect(s, "null").value))
    else if Expect(s, "true").Some? then Some((Bool(true), Expect(s, "true").value))
    else if Expect(s, "false").Some? then Some((Bool(false), Expect(s, "false").value))
    else None
  }

  /** Values separated by commas, up to the closing bracket. */
  function ReadItems(s: string): (r: Option<(seq<Value>, string)>)
    ensures r.Some? ==> |r.value.1| < |s|
    decreases |s|, 1
  {
    var first := ReadValue(s);
    if first.None? || first.value.1 == "" then None
    else
      var rest := first.value.1;
      if rest[0] == ']' then Some(([first.value.0], rest[1..]))
      else if rest[0] == ',' then
        var more := ReadItems(rest[1..]);
        if more.None? then None else Some(([first.value.0] + more.value.0, more.value.1))
      else None
  }

  /** A key, a colon and a value. */
  function ReadEntry(s: string): (r: Option<(Entry, string)>)
    ensures r.Some? ==> |r.value.1| < |s|
    decreases |s|, 1
  {
    if s == "" || s[0] != '"' then None
    else
      var key := ReadText(s[1..]);
      if key.None? || key.value.1 == "" || key.value.1[0] != ':' then None
      else
        var value := ReadValue(key.value.1[1..]);
        if value.None? then None else Some((Entry(key.value.0, value.value.0), value.value.1))
  }

  /** Entries separated by commas, up to the closing brace. */
  function ReadEntries(s: string): (r: Option<(seq<Entry>, string)>)
    ensures r.Some? ==> |r.value.1| < |s|
    decreases |s|, 2
  {
    var first := ReadEntry(s);
    if first.None? || first.value.1 == "" then None
    else
      var rest := first.value.1;
      if rest[0] == '}' then Some(([first.value.0], rest[1..]))
      else if rest[0] == ',' then
        var more := ReadEntries(rest[1..]);
        if more.None? then None else Some(([first.value.0] + more.value.0, more.value.1))
      else None
  }

  // ---------- round trip ----------

  lemma EscapeRoundTrip(c: char, tail: string)
    requires EscapedChar(c) != [c]
    ensures EscapedChar(c)[0] == '\\'
    ensures ReadEscape((EscapedChar(c) + tail)[1..]) == Some((c, tail))
  {
    var s := (EscapedChar(c) + tail)[1..];
    if |EscapedChar(c)| == 2 {
      assert s == [EscapedChar(c)[1]] + tail && s[1..] == tail;
    } else {
      var high, low := HexDigit(c as int / 16), HexDigit(c as int % 16);
      assert s == "u00" + [high, low] + tail && s[5..] == tail;
      assert s[1..][0] == '0' && s[1..][1] == '0' && s[1..][2] == high && s[1..][3] == low;
    }
  }

  lemma {:induction false} TextRoundTrip(text: string, tail: string)
    ensures ReadText(Escaped(text) + "\"" + tail) == Some((text, tail))
  {
    var s := Escaped(text) + "\"" + tail;
    if text == "" {
      assert s == "\"" + tail && s[1..] == tail;
    } else {
      var c, rest := text[0], Escaped(text[1..]) + "\"" + tail;
      assert s == EscapedChar(c) + rest;
      TextRoundTrip(text[1..], tail);
      if EscapedChar(c) == [c] {
        assert s[0] == c && s[1..] == rest;
      } else {
        EscapeRoundTrip(c, rest);
      }
      assert [c] + text[1..] == text;
    }
  }

  lemma {:induction false} NumeralRoundTrip(digits: string, tail: string)
    requires forall i | 0 <= i < |digits| :: NumberChar(digits[i])
    requires tail == "" || !NumberChar(tail[0])
    ensures ReadNumeral(digits + tail) == (digits, tail)
  {
    if digits == "" {
      assert digits + tail == tail;
    } else {
      assert (digits + tail)[0] == digits[0] && (digits + tail)[1..] == digits[1..] + tail;
      NumeralRoundTrip(digits[1..], tail);
      assert [digits[0]] + digits[1..] == digits;
    }
  }

  function PrintAll(items: seq<Value>): (parts: seq<string>)
    ensures |parts| == |items| && forall i | 0 <= i < |items| :: parts[i] == Print(items[i])
  {
    seq(|items|, i requires 0 <= i < |items| => Print(items[i]))
  }

  lemma PrintedArray(items: seq<Value>)
    ensures Print(Array(items)) == "[" + Joined(PrintAll(items)) + "]"
  {
    assert PrintAll(items) == seq(|items|, i requires 0 <= i < |items| => Print(items[i]));
  }

  lemma JoinedItems(items: seq<Value>)
    requires |items| > 1
    ensures Joined(PrintAll(items)) == Print(items[0]) + "," + Joined(PrintAll(items[1..]))
  {
    assert PrintAll(items)[1..] == PrintAll(items[1..]);
  }

  /** A printed value starts with a character of its own, never with the end of a list. */
  lemma PrintedStarts(v: Value)
    ensures Print(v) != "" && Print(v)[0] != ']' && Print(v)[0] != ','
  {
    if v.Number? { assert NumberChar(v.digits[0]); }
  }

  /** Values are read back from their texts, whatever follows them that does not go on with a number. */
  lemma {:induction false} ValueRoundTrip(v: Value, tail: string)
    requires tail == "" || !NumberChar(tail[0])
    ensures ReadValue(Print(v) + tail) == Some((v, tail))
    decreases v, 0
  {
    var s := Print(v) + tail;
    match v
    case Null => WordReads(v, tail);
    case Bool(_) => WordReads(v, tail);
    case Number(digits) =>
      assert NumberChar(digits[0]) && s[0] == digits[0];
      NumeralRoundTrip(digits, tail);
    case String(text) =>
      assert s[1..] == Escaped(text) + "\"" + tail;
      TextRoundTrip(text, tail);
    case Array(items) =>
      if items != [] { ItemsRoundTrip(v, items, tail); }
      ArrayReads(items, tail);
    case Object(entries) =>
      if entries != [] { EntriesRoundTrip(v, entries, tail); }
      ObjectReads(entries, tail);
  }

  lemma WordReads(v: Value, tail: string)
    requires v.Null? || v.Bool?
    ensures ReadValue(Print(v) + tail) == Some((v, tail))
  {
    var s := Print(v) + tail;
    assert s[0] == Print(v)[0] && Expect(s, Print(v)) == Some(tail);
  }

  lemma ArrayReads(items: seq<Value>, tail: string)
    requires items != [] ==> ReadItems(Joined(PrintAll(items)) + "]" + tail) == Some((items, tail))
    ensures ReadValue(Print(Array(items)) + tail) == Some((Array(items), tail))
  {
    var s := Print(Array(items)) + tail;
    PrintedArray(items);
    if items == [] {
      assert s == "[" + "]" + tail && s[2..] == tail;
    } else {
      JoinedStarts(items);
      assert s[1..] == Joined(PrintAll(items)) + "]" + tail;
    }
  }

  lemma JoinedStarts(items: seq<Value>)
    requires items != []
    ensures Joined(PrintAll(items)) != "" && Joined(PrintAll(items))[0] != ']'
  {
    PrintedStarts(items[0]);
    if |items| > 1 { JoinedItems(items); }
  }

  lemma LastItemReads(item: Value, tail: string)
    requires ReadValue(Print(item) + ("]" + tail)) == Some((item, "]" + tail))
    ensures ReadItems(Print(item) + ("]" + tail)) == Some(([item], tail))
  {
    assert ("]" + tail)[1..] == tail;
  }

  lemma FirstItemReads(item: Value, rest: string, items: seq<Value>, tail: string)
    requires ReadValue(Print(item) + ("," + rest)) == Some((item, "," + rest))
    requires ReadItems(rest) == Some((items, tail))
    ensures ReadItems(Print(item) + ("," + rest)) == Some(([item] + items, tail))
  {
    assert ("," + rest)[1..] == rest;
  }

  lemma ItemsText(items: seq<Value>, tail: string)
    requires items != []
    ensures Joined(PrintAll(items)) + "]" + tail
            == Print(items[0]) + (if |items| == 1 then "]" + tail
                                  else "," + (Joined(PrintAll(items[1..])) + "]" + tail))
  {
    if |items| > 1 { JoinedItems(items); }
  }

  lemma {:induction false} ItemsRoundTrip(whole: Value, items: seq<Value>, tail: string)
    requires items != [] && forall i | 0 <= i < |items| :: items[i] < whole
    ensures ReadItems(Joined(PrintAll(items)) + "]" + tail) == Some((items, tail))
    decreases whole, 0, |items|
  {
    ItemsText(items, tail);
    if |items| == 1 {
      ValueRoundTrip(items[0], "]" + tail);
      LastItemReads(items[0], tail);
      assert [items[0]] == items;
    } else {
      var rest := Joined(PrintAll(items[1..])) + "]" + tail;
      ValueRoundTrip(items[0], "," + rest);
      ItemsRoundTrip(whole, items[1..], tail);
      FirstItemReads(items[0], rest, items[1..], tail);
      assert [items[0]] + items[1..] == items;
    }
  }

  function PrintEntry(entry: Entry): string { Quoted(entry.key) + ":" + Print(entry.value) }

  function PrintEntries(entries: seq<Entry>): (parts: seq<string>)
    ensures |parts| == |entries| && forall i | 0 <= i < |entries| :: parts[i] == PrintEntry(entries[i])
  {
    seq(|entries|, i requires 0 <= i < |entries| => PrintEntry(entries[i]))
  }

  lemma PrintedObject(entries: seq<Entry>)
    ensures Print(Object(entries)) == "{" + Joined(PrintEntries(entries)) + "}"
  {
    assert PrintEntries(entries) == seq(|entries|, i requires 0 <= i < |entries| =>
                                      Quoted(entries[i].key) + ":" + Print(entries[i].value));
  }

  lemma JoinedEntries(entries: seq<Entry>)
    requires |entries| > 1
    ensures Joined(PrintEntries(entries)) == PrintEntry(entries[0]) + "," + Joined(PrintEntries(entries[1..]))
  {
    assert PrintEntries(entries)[1..] == PrintEntries(entries[1..]);
  }

  lemma EntriesStart(entries: seq<Entry>)
    requires entries != []
    ensures Joined(PrintEntries(entries)) != "" && Joined(PrintEntries(entries))[0] == '"'
  {
    if |entries| > 1 { JoinedEntries(entries); }
  }

  lemma ObjectReads(entries: seq<Entry>, tail: string)
    requires entries != [] ==> ReadEntries(Joined(PrintEntries(entries)) + "}" + tail) == Some((entries, tail))
    ensures ReadValue(Print(Object(entries)) + tail) == Some((Object(entries), tail))
  {
    var s := Print(Object(entries)) + tail;
    PrintedObject(entries);
    if entries == [] {
      assert s == "{" + "}" + tail && s[2..] == tail;
    } else {
      EntriesStart(entries);
      assert s[1..] == Joined(PrintEntries(entries)) + "}" + tail;
    }
  }

  lemma EntryText(entry: Entry, tail: string)
    ensures PrintEntry(entry) + tail == "\"" + (Escaped(entry.key) + "\"" + (":" + (Print(entry.value) + tail)))
  {
    Regroup(Quoted(entry.key), ":", Print(entry.value), tail);
    Regroup("\"", Escaped(entry.key), "\"", ":" + (Print(entry.value) + tail));
  }

  lemma Regroup(a: string, b: string, c: string, d: string)
    ensures a + b + c + d == a + (b + (c + d)) == a + (b + c + d)
  {
  }

  lemma EntryReads(entry: Entry, tail: string)
    requires ReadValue(Print(entry.value) + tail) == Some((entry.value, tail))
    ensures ReadEntry(PrintEntry(entry) + tail) == Some((entry, tail))
  {
    var value := Print(entry.value) + tail;
    EntryText(entry, tail);
    TextRoundTrip(entry.key, ":" + value);
    KeyReads(PrintEntry(entry) + tail, entry.key, value);
  }

  lemma KeyReads(s: string, key: string, value: string)
    requires s == "\"" + (Escaped(key) + "\"" + (":" + value))
    requires ReadText(Escaped(key) + "\"" + (":" + value)) == Some((key, ":" + value))
    ensures ReadEntry(s)
            == if ReadValue(value).None? then None
               else Some((Entry(key, ReadValue(value).value.0), ReadValue(value).value.1))
  {
    assert s[1..] == Escaped(key) + "\"" + (":" + value) && (":" + value)[1..] == value;
  }

  lemma LastEntryReads(entries: seq<Entry>, tail: string)
    requires |entries| == 1
    requires ReadEntry(PrintEntry(entries[0]) + ("}" + tail)) == Some((entries[0], "}" + tail))
    ensures ReadEntries(PrintEntry(entries[0]) + ("}" + tail)) == Some((entries, tail))
  {
    assert ("}" + tail)[1..] == tail && [entries[0]] == entries;
  }

  lemma FirstEntryReads(entries: seq<Entry>, rest: string, tail: string)
    requires |entries| > 1 && ReadEntries(rest) == Some((entries[1..], tail))
    requires ReadEntry(PrintEntry(entries[0]) + ("," + rest)) == Some((entries[0], "," + rest))
    ensures ReadEntries(PrintEntry(entries[0]) + ("," + rest)) == Some((entries, tail))
  {
    assert ("," + rest)[1..] == rest && [entries[0]] + entries[1..] == entries;
  }

  lemma EntriesText(entries: seq<Entry>, tail: string)
    requires entries != []
    ensures Joined(PrintEntries(entries)) + "}" + tail
            == PrintEntry(entries[0]) + (if |entries| == 1 then "}" + tail
                                         else "," + (Joined(PrintEntries(entries[1..])) + "}" + tail))
  {
    if |entries| > 1 { JoinedEntries(entries); }
  }

  lemma {:induction false} EntriesRoundTrip(whole: Value, entries: seq<Entry>, tail: string)
    requires entries != [] && forall i | 0 <= i < |entries| :: entries[i].value < whole
    ensures ReadEntries(Joined(PrintEntries(entries)) + "}" + tail) == Some((entries, tail))
    decreases whole, 0, |entries|
  {
    EntriesText(entries, tail);
    if |entries| == 1 {
      ValueRoundTrip(entries[0].value, "}" + tail);
      EntryReads(entries[0], "}" + tail);
      LastEntryReads(entries, tail);
    } else {
      var rest := Joined(PrintEntries(entries[1..])) + "}" + tail;
      ValueRoundTrip(entries[0].value, "," + rest);
      EntryReads(entries[0], "," + rest);
      EntriesRoundTrip(whole, entries[1..], tail);
      FirstEntryReads(entries, rest, tail);
    }
  }

  /** A value comes back from its bytes. */
  lemma WholeRoundTrip(v: Value)
    ensures Decode(Utf8(Print(v))) == Some(Print(v)) && ReadValue(Print(v)) == Some((v, ""))
  {
    Utf8RoundTrip(Print(v));
    ValueRoundTrip(v, "");
    assert Print(v) + "" == Print(v);
  }

  // ---------- lengths ----------

  lemma {:induction false} BytesAtMost(s: string)
    ensures |Utf8(s)| <= 4 * |s|
  {
    if s != "" { BytesAtMost(s[1..]); }
  }

  lemma {:induction false} EscapedAtMost(text: string)
    ensures |Escaped(text)| <= 6 * |text|
  {
    if text != "" { EscapedAtMost(text[1..]); }
  }

  lemma {:induction false} JoinedAtMost(parts: seq<string>, bound: nat)
    requires forall i | 0 <= i < |parts| :: |parts[i]| <= bound
    ensures |Joined(parts)| <= |parts| * (bound + 1)
  {
    if |parts| > 1 { JoinedAtMost(parts[1..], bound); }
  }

  lemma {:induction false} JoinedAppends(parts: seq<string>, last: string)
    requires parts != []
    ensures Joined(parts + [last]) == Joined(parts) + "," + last
  {
    if |parts| == 1 {
      assert (parts + [last])[1..] == [last];
    } else {
      assert (parts + [last])[1..] == parts[1..] + [last];
      JoinedAppends(parts[1..], last);
    }
  }

  // ---------- no shorter text ----------

  lemma {:induction false} BytesAtLeast(s: string, k: nat)
    requires k <= |s|
    ensures k + |Utf8(s[k..])| <= |Utf8(s)|
  {
    if k > 0 {
      assert s[1..][k - 1..] == s[k..];
      BytesAtLeast(s[1..], k - 1);
    }
  }

  lemma EscapedIsShort(c: char)
    ensures |Utf8(EscapedChar(c))| <= 6
    ensures c as int < 0x80 && (c as int >= 0x20 || |EscapedChar(c)| == 2) ==> |Utf8(EscapedChar(c))| <= 2
    ensures EscapedChar(c) == [c] ==> Utf8(EscapedChar(c)) == EncodeChar(c)
  {
    if EscapedChar(c) == [c] {
      assert [c][1..] == "";
      assert Utf8([c]) == EncodeChar(c) + Utf8("");
    } else {
      AsciiBytes(EscapedChar(c));
    }
  }

  /** What an escape stands for is printed in at most as many bytes, its backslash included. */
  lemma EscapeIsShort(s: string)
    requires ReadEscape(s).Some?
    ensures |Utf8(EscapedChar(ReadEscape(s).value.0))| + |Utf8(ReadEscape(s).value.1)| <= 1 + |Utf8(s)|
  {
    var c, rest := ReadEscape(s).value.0, ReadEscape(s).value.1;
    EscapedIsShort(c);
    BytesAtLeast(s, |s| - |rest|);
    assert s[|s| - |rest|..] == rest;
  }

  /** The printer's strings are as short as can be: a text that reads back as the same string has at least as many
      bytes. */
  lemma {:induction false} QuotedIsShortest(s: string)
    requires ReadText(s).Some?
    ensures |Utf8(Escaped(ReadText(s).value.0))| + 1 + |Utf8(ReadText(s).value.1)| <= |Utf8(s)|
    decreases |s|
  {
    BytesAtLeast(s, 1);
    if s[0] != '"' {
      var first := if s[0] == '\\' then ReadEscape(s[1..]).value else (s[0], s[1..]);
      QuotedIsShortest(first.1);
      var text := ReadText(first.1).value.0;
      assert ([first.0] + text)[1..] == text;
      Utf8Appends(EscapedChar(first.0), Escaped(text));
      if s[0] == '\\' { EscapeIsShort(s[1..]); } else { EscapedIsShort(s[0]); }
    }
  }
}
