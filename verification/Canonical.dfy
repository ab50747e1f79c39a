/** Command fingerprints: JSON values in a canonical form that ignores the order of object keys. */
module Canonical {
  import opened Json
  import opened KeyOrder

  /** No object repeats a key, at any depth. */
  ghost predicate Valid(v: Value) {
    match v
    case Array(items) => forall i | 0 <= i < |items| :: Valid(items[i])
    case Object(entries) =>
      && (forall i, j | 0 <= i < j < |entries| :: entries[i].key != entries[j].key)
      && (forall i | 0 <= i < |entries| :: Valid(entries[i].value))
    case _ => true
  }

  /** Equality that ignores the order of object keys, at any depth. */
  ghost predicate Same(a: Value, b: Value) {
    match (a, b)
    case (Array(xs), Array(ys)) => |xs| == |ys| && forall i | 0 <= i < |xs| :: Same(xs[i], ys[i])
    case (Object(xs), Object(ys)) =>
      && |xs| == |ys|
      && (forall i | 0 <= i < |xs| :: exists j ::
          0 <= j < |ys| && xs[i].key == ys[j].key && Same(xs[i].value, ys[j].value))
    case _ => a == b
  }

  // ---------- ordering keys ----------

  ghost predicate Sorted(entries: seq<Entry>) {
    forall i, j | 0 <= i < j < |entries| :: Less(entries[i].key, entries[j].key)
  }

  function Insert(entry: Entry, sorted: seq<Entry>): seq<Entry> {
    if sorted == [] || !Less(sorted[0].key, entry.key) then [entry] + sorted
    else [sorted[0]] + Insert(entry, sorted[1..])
  }

  function SortByKey(entries: seq<Entry>): seq<Entry> {
    if entries == [] then [] else Insert(entries[0], SortByKey(entries[1..]))
  }

  lemma {:induction false} InsertHolds(entry: Entry, sorted: seq<Entry>)
    ensures forall e :: e in Insert(entry, sorted) <==> e == entry || e in sorted
    ensures |Insert(entry, sorted)| == |sorted| + 1
  {
    if sorted != [] && Less(sorted[0].key, entry.key) {
      InsertHolds(entry, sorted[1..]);
      assert sorted == [sorted[0]] + sorted[1..];
    }
  }

  lemma {:induction false} InsertSorts(entry: Entry, sorted: seq<Entry>)
    requires Sorted(sorted) && forall e | e in sorted :: e.key != entry.key
    ensures Sorted(Insert(entry, sorted))
  {
    var r := Insert(entry, sorted);
    if sorted == [] {
    } else if Less(sorted[0].key, entry.key) {
      InsertSorts(entry, sorted[1..]);
      InsertHolds(entry, sorted[1..]);
      forall j | 0 < j < |r| ensures Less(r[0].key, r[j].key) {
        assert r[j] in Insert(entry, sorted[1..]);
      }
    } else {
      LessTotal(sorted[0].key, entry.key);
      forall j | 0 < j < |r| ensures Less(r[0].key, r[j].key) {
        assert r[j] == sorted[j - 1];
        if j > 1 { LessTransitive(entry.key, sorted[0].key, sorted[j - 1].key); }
      }
    }
  }

  lemma {:induction false} SortHolds(entries: seq<Entry>)
    ensures forall e :: e in SortByKey(entries) <==> e in entries
    ensures |SortByKey(entries)| == |entries|
  {
    if entries != [] {
      SortHolds(entries[1..]);
      InsertHolds(entries[0], SortByKey(entries[1..]));
      assert entries == [entries[0]] + entries[1..];
    }
  }

  ghost predicate DistinctKeys(entries: seq<Entry>) {
    forall i, j | 0 <= i < j < |entries| :: entries[i].key != entries[j].key
  }

  lemma {:induction false} SortSorts(entries: seq<Entry>)
    requires DistinctKeys(entries)
    ensures Sorted(SortByKey(entries))
  {
    if entries != [] {
      SortSorts(entries[1..]);
      SortHolds(entries[1..]);
      forall e | e in SortByKey(entries[1..]) ensures e.key != entries[0].key {
        var i :| 0 <= i < |entries[1..]| && entries[1..][i] == e;
      }
      InsertSorts(entries[0], SortByKey(entries[1..]));
    }
  }

  /** A sorted list is determined by what it holds. */
  lemma {:induction false} SortedUnique(a: seq<Entry>, b: seq<Entry>)
    requires Sorted(a) && Sorted(b) && |a| == |b| && forall e :: e in a <==> e in b
    ensures a == b
  {
    if a != [] {
      assert a[0] in b;
      SortedHeads(a, b);
      forall e ensures e in a[1..] <==> e in b[1..] {
        TailHolds(a, e);
        TailHolds(b, e);
      }
      SortedUnique(a[1..], b[1..]);
      assert a == [a[0]] + a[1..] && b == [b[0]] + b[1..];
    }
  }

  lemma SortedHeads(a: seq<Entry>, b: seq<Entry>)
    requires Sorted(a) && Sorted(b) && a != [] && b != [] && a[0] in b && b[0] in a
    ensures a[0] == b[0]
  {
    LessTotal(a[0].key, b[0].key);
  }

  lemma TailHolds(s: seq<Entry>, e: Entry)
    requires Sorted(s) && s != []
    ensures e in s[1..] <==> e in s && e != s[0]
  {
    LessIrreflexive(s[0].key);
    assert s == [s[0]] + s[1..];
  }

  // ---------- the canonical form ----------

  function Canonicalize(v: Value): Value {
    match v
    case Array(items) => Array(seq(|items|, i requires 0 <= i < |items| => Canonicalize(items[i])))
    case Object(entries) =>
      Object(SortByKey(seq(|entries|, i requires 0 <= i < |entries| =>
        Entry(entries[i].key, Canonicalize(entries[i].value)))))
    case _ => v
  }

  /** The entries before they are sorted. */
  function Mapped(entries: seq<Entry>): (mapped: seq<Entry>)
    ensures |mapped| == |entries|
    ensures forall i | 0 <= i < |entries| :: mapped[i] == Entry(entries[i].key, Canonicalize(entries[i].value))
  {
    seq(|entries|, i requires 0 <= i < |entries| => Entry(entries[i].key, Canonicalize(entries[i].value)))
  }

  lemma ObjectForm(entries: seq<Entry>)
    requires Valid(Object(entries))
    ensures Canonicalize(Object(entries)) == Object(SortByKey(Mapped(entries)))
    ensures Sorted(SortByKey(Mapped(entries))) && |SortByKey(Mapped(entries))| == |entries|
    ensures forall e :: e in SortByKey(Mapped(entries)) <==> e in Mapped(entries)
  {
    assert Mapped(entries) == seq(|entries|, i requires 0 <= i < |entries| =>
                                Entry(entries[i].key, Canonicalize(entries[i].value)));
    SortHolds(Mapped(entries));
    SortSorts(Mapped(entries));
  }

  ghost function Elements(s: seq<Entry>): set<Entry> {
    set e | e in s
  }

  lemma {:induction false} SortedDistinct(s: seq<Entry>)
    requires Sorted(s)
    ensures |Elements(s)| == |s|
  {
    if s == [] {
      assert Elements(s) == {};
    } else {
      SortedDistinct(s[1..]);
      TailHolds(s, s[0]);
      assert s == [s[0]] + s[1..];
      assert Elements(s) == {s[0]} + Elements(s[1..]);
    }
  }

  /** A sorted list that holds everything of another of the same length is that list. */
  lemma SortedCovers(a: seq<Entry>, b: seq<Entry>)
    requires Sorted(a) && Sorted(b) && |a| == |b| && forall e | e in a :: e in b
    ensures a == b
  {
    SortedDistinct(a);
    SortedDistinct(b);
    assert Elements(a) <= Elements(b);
    assert |Elements(b) - Elements(a)| == |Elements(b)| - |Elements(a)|;
    assert Elements(b) - Elements(a) == {};
    forall e ensures e in a <==> e in b {
      assert e in Elements(b) ==> e in Elements(a);
    }
    SortedUnique(a, b);
  }

  // ---------- the canonical form is canonical ----------

  /** Canonicalizing twice is canonicalizing once. */
  lemma {:induction false} CanonicalizeIdempotent(v: Value)
    requires Valid(v)
    ensures Canonicalize(Canonicalize(v)) == Canonicalize(v)
  {
    match v
    case Array(items) =>
      forall i | 0 <= i < |items| ensures Canonicalize(Canonicalize(items[i])) == Canonicalize(items[i]) {
        CanonicalizeIdempotent(items[i]);
      }
    case Object(entries) =>
      forall i | 0 <= i < |entries|
        ensures Canonicalize(Canonicalize(entries[i].value)) == Canonicalize(entries[i].value)
      {
        CanonicalizeIdempotent(entries[i].value);
      }
      ObjectIdempotent(entries);
    case _ =>
  }

  lemma ObjectIdempotent(entries: seq<Entry>)
    requires Valid(Object(entries))
    requires forall i | 0 <= i < |entries| ::
               Canonicalize(Canonicalize(entries[i].value)) == Canonicalize(entries[i].value)
    ensures Canonicalize(Canonicalize(Object(entries))) == Canonicalize(Object(entries))
  {
    ObjectForm(entries);
    var sorted := SortByKey(Mapped(entries));
    forall i | 0 <= i < |sorted| ensures Mapped(sorted)[i] == sorted[i] {
      assert sorted[i] in Mapped(entries);
      var j :| 0 <= j < |entries| && Mapped(entries)[j] == sorted[i];
    }
    assert Mapped(sorted) == sorted;
    assert Mapped(sorted) == seq(|sorted|, i requires 0 <= i < |sorted| =>
                               Entry(sorted[i].key, Canonicalize(sorted[i].value)));
    SortHolds(sorted);
    forall i, j | 0 <= i < j < |sorted| ensures sorted[i].key != sorted[j].key { LessIrreflexive(sorted[i].key); }
    SortSorts(sorted);
    SortedUnique(SortByKey(sorted), sorted);
  }

  /** Two values have the same canonical form exactly when they are equal up to the order of keys. */
  lemma {:induction false} CanonicalExactly(a: Value, b: Value)
    requires Valid(a) && Valid(b)
    ensures Canonicalize(a) == Canonicalize(b) <==> Same(a, b)
  {
    match (a, b)
    case (Array(xs), Array(ys)) =>
      forall i | 0 <= i < |xs| && i < |ys| ensures Canonicalize(xs[i]) == Canonicalize(ys[i]) <==> Same(xs[i], ys[i]) {
        CanonicalExactly(xs[i], ys[i]);
      }
      ArraysExactly(xs, ys);
    case (Object(xs), Object(ys)) =>
      forall i, j | 0 <= i < |xs| && 0 <= j < |ys|
        ensures Canonicalize(xs[i].value) == Canonicalize(ys[j].value) <==> Same(xs[i].value, ys[j].value)
      {
        CanonicalExactly(xs[i].value, ys[j].value);
      }
      ObjectsExactly(xs, ys);
    case _ =>
  }

  lemma ArraysExactly(xs: seq<Value>, ys: seq<Value>)
    requires forall i | 0 <= i < |xs| && i < |ys| :: Canonicalize(xs[i]) == Canonicalize(ys[i]) <==> Same(xs[i], ys[i])
    ensures Canonicalize(Array(xs)) == Canonicalize(Array(ys)) <==> Same(Array(xs), Array(ys))
  {
    var cx, cy := Canonicalize(Array(xs)).items, Canonicalize(Array(ys)).items;
    if Same(Array(xs), Array(ys)) { assert cx == cy; }
    if cx == cy {
      forall i | 0 <= i < |xs| ensures Same(xs[i], ys[i]) { assert cx[i] == cy[i]; }
    }
  }

  lemma ObjectsExactly(xs: seq<Entry>, ys: seq<Entry>)
    requires Valid(Object(xs)) && Valid(Object(ys))
    requires forall i, j | 0 <= i < |xs| && 0 <= j < |ys| ::
               Canonicalize(xs[i].value) == Canonicalize(ys[j].value) <==> Same(xs[i].value, ys[j].value)
    ensures Canonicalize(Object(xs)) == Canonicalize(Object(ys)) <==> Same(Object(xs), Object(ys))
  {
    if Same(Object(xs), Object(ys)) { SameObjectsAgree(xs, ys); }
    if Canonicalize(Object(xs)) == Canonicalize(Object(ys)) { AgreeingObjectsSame(xs, ys); }
  }

  lemma SameObjectsAgree(xs: seq<Entry>, ys: seq<Entry>)
    requires Valid(Object(xs)) && Valid(Object(ys)) && Same(Object(xs), Object(ys))
    requires forall i, j | 0 <= i < |xs| && 0 <= j < |ys| ::
               Canonicalize(xs[i].value) == Canonicalize(ys[j].value) <==> Same(xs[i].value, ys[j].value)
    ensures Canonicalize(Object(xs)) == Canonicalize(Object(ys))
  {
    ObjectForm(xs);
    ObjectForm(ys);
    var cx, cy := SortByKey(Mapped(xs)), SortByKey(Mapped(ys));
    forall e | e in cx ensures e in cy {
      var i :| 0 <= i < |xs| && Mapped(xs)[i] == e;
      var j :| 0 <= j < |ys| && xs[i].key == ys[j].key && Same(xs[i].value, ys[j].value);
      assert Mapped(ys)[j] == e;
    }
    SortedCovers(cx, cy);
  }

  lemma AgreeingObjectsSame(xs: seq<Entry>, ys: seq<Entry>)
    requires Valid(Object(xs)) && Valid(Object(ys)) && Canonicalize(Object(xs)) == Canonicalize(Object(ys))
    requires forall i, j | 0 <= i < |xs| && 0 <= j < |ys| ::
               Canonicalize(xs[i].value) == Canonicalize(ys[j].value) <==> Same(xs[i].value, ys[j].value)
    ensures Same(Object(xs), Object(ys))
  {
    ObjectForm(xs);
    ObjectForm(ys);
    var cy := SortByKey(Mapped(ys));
    forall i | 0 <= i < |xs|
      ensures exists j :: 0 <= j < |ys| && xs[i].key == ys[j].key && Same(xs[i].value, ys[j].value)
    {
      assert Mapped(xs)[i] in cy;
      var j :| 0 <= j < |ys| && Mapped(ys)[j] == Mapped(xs)[i];
    }
  }

  // ---------- fingerprints ----------

  /** The value of a command. */
  function Command(operation: string, payload: Value): Value {
    Object([Entry("operation", String(operation)), Entry("payload", payload)])
  }

  /** What is digested for it. */
  function CommandFingerprint(operation: string, payload: Value): seq<byte> {
    Utf8(Print(Canonicalize(Command(operation, payload))))
  }

  /** Different values have different bytes. */
  lemma BytesTell(a: Value, b: Value)
    ensures Utf8(Print(a)) == Utf8(Print(b)) <==> a == b
  {
    WholeRoundTrip(a);
    WholeRoundTrip(b);
  }

  lemma CommandValid(operation: string, payload: Value)
    requires Valid(payload)
    ensures Valid(Command(operation, payload))
  {
    assert "operation"[0] == 'o' && "payload"[0] == 'p';
  }

  lemma CommandsSame(opA: string, a: Value, opB: string, b: Value)
    ensures Same(Command(opA, a), Command(opB, b)) <==> opA == opB && Same(a, b)
  {
    var xs, ys := Command(opA, a).entries, Command(opB, b).entries;
    assert "operation"[0] == 'o' && "payload"[0] == 'p';
    if Same(Object(xs), Object(ys)) {
      var i :| 0 <= i < |ys| && xs[0].key == ys[i].key && Same(xs[0].value, ys[i].value);
      var j :| 0 <= j < |ys| && xs[1].key == ys[j].key && Same(xs[1].value, ys[j].value);
      assert i == 0 && j == 1;
    }
    if opA == opB && Same(a, b) {
      assert Same(xs[0].value, ys[0].value) && Same(xs[1].value, ys[1].value);
      assert xs[0].key == ys[0].key && xs[1].key == ys[1].key;
    }
  }

  /** The bytes that are digested for two commands are the same exactly when they are the same operation and their
      payloads are equal up to the order of keys. */
  lemma FingerprintExactly(opA: string, a: Value, opB: string, b: Value)
    requires Valid(a) && Valid(b)
    ensures CommandFingerprint(opA, a) == CommandFingerprint(opB, b) <==> opA == opB && Same(a, b)
  {
    CommandValid(opA, a);
    CommandValid(opB, b);
    BytesTell(Canonicalize(Command(opA, a)), Canonicalize(Command(opB, b)));
    CanonicalExactly(Command(opA, a), Command(opB, b));
    CommandsSame(opA, a, opB, b);
  }
}
