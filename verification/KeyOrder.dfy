/** The order of strings by code point, which is the order of their UTF-8 bytes. */
module KeyOrder {
  import opened Json

  /** Lexicographic order of keys by code point. */
  predicate Less(a: string, b: string) {
    b != "" && (a == "" || a[0] < b[0] || (a[0] == b[0] && Less(a[1..], b[1..])))
  }

  lemma {:induction false} LessTotal(a: string, b: string)
    ensures Less(a, b) || a == b || Less(b, a)
    ensures !(Less(a, b) && Less(b, a)) && !Less(a, a)
  {
    if a != "" && b != "" && a[0] == b[0] {
      LessTotal(a[1..], b[1..]);
      assert a == [a[0]] + a[1..] && b == [b[0]] + b[1..];
    }
    LessIrreflexive(a);
  }

  lemma {:induction false} LessIrreflexive(a: string)
    ensures !Less(a, a)
  {
    if a != "" { LessIrreflexive(a[1..]); }
  }

  lemma {:induction false} LessTransitive(a: string, b: string, c: string)
    requires Less(a, b) && Less(b, c)
    ensures Less(a, c)
  {
    if a != "" && a[0] == b[0] && b[0] == c[0] { LessTransitive(a[1..], b[1..], c[1..]); }
  }

  /** The order is that of the first code points that differ, and a key comes before any longer one that it starts. */
  lemma {:induction false} LessExactly(a: string, b: string)
    ensures Less(a, b) <==> exists k: nat :: k <= |a| && k < |b| && a[..k] == b[..k] && (k == |a| || a[k] < b[k])
  {
    if Less(a, b) {
      if a == "" || a[0] < b[0] {
        assert a[..0] == b[..0];
      } else {
        LessExactly(a[1..], b[1..]);
        var k: nat :| k <= |a[1..]| && k < |b[1..]| && a[1..][..k] == b[1..][..k]
                      && (k == |a[1..]| || a[1..][k] < b[1..][k]);
        assert a[..k + 1] == [a[0]] + a[1..][..k] && b[..k + 1] == [b[0]] + b[1..][..k];
      }
    }
    if k: nat :| k <= |a| && k < |b| && a[..k] == b[..k] && (k == |a| || a[k] < b[k]) {
      if k > 0 {
        assert a[0] == a[..k][0] && b[0] == b[..k][0];
        assert a[1..][..k - 1] == a[..k][1..] && b[1..][..k - 1] == b[..k][1..];
        LessExactly(a[1..], b[1..]);
      }
    }
  }

  // ---------- the order of the bytes ----------

  predicate BytesLess(a: seq<byte>, b: seq<byte>) {
    b != [] && (a == [] || a[0] < b[0] || (a[0] == b[0] && BytesLess(a[1..], b[1..])))
  }

  lemma FirstByteDecides(a: seq<byte>, b: seq<byte>)
    requires a != [] && b != [] && a[0] != b[0]
    ensures BytesLess(a, b) <==> a[0] < b[0]
  {
  }

  lemma {:induction false} SamePrefix(p: seq<byte>, a: seq<byte>, b: seq<byte>)
    ensures BytesLess(p + a, p + b) <==> BytesLess(a, b)
  {
    if p == [] {
      assert p + a == a && p + b == b;
    } else {
      assert (p + a)[1..] == p[1..] + a && (p + b)[1..] == p[1..] + b;
      SamePrefix(p[1..], a, b);
    }
  }

  /** Numbers are ordered by their quotients, and then by their remainders. */
  lemma QuotientsDecide(m: nat, n: nat)
    requires m < n
    ensures m / 64 < n / 64 || (m / 64 == n / 64 && m % 64 < n % 64)
  {
  }

  lemma Quotients(n: nat)
    ensures n / 4096 == n / 64 / 64 && n / 262144 == n / 64 / 64 / 64
  {
  }

  /** The first digits to the base of 64 that differ decide. */
  lemma DigitsDecide(m: nat, n: nat)
    requires m < n
    ensures || m / 262144 < n / 262144
            || (m / 262144 == n / 262144
                && (|| m / 4096 % 64 < n / 4096 % 64
                    || (m / 4096 == n / 4096
                        && (m / 64 % 64 < n / 64 % 64 || (m / 64 == n / 64 && m % 64 < n % 64)))))
  {
    Quotients(m);
    Quotients(n);
    QuotientsDecide(m, n);
    if m / 64 < n / 64 {
      QuotientsDecide(m / 64, n / 64);
      if m / 64 / 64 < n / 64 / 64 { QuotientsDecide(m / 64 / 64, n / 64 / 64); }
    }
  }

  /** Two lists first differ here, and the first of them is less there. */
  ghost predicate DifferAt(a: seq<byte>, b: seq<byte>, k: nat) {
    k < |a| && k < |b| && (forall i | 0 <= i < k :: a[i] == b[i]) && a[k] < b[k]
  }

  /** Longer encodings start with greater bytes. */
  lemma LongerIsGreater(c: char, d: char)
    requires c < d && |EncodeChar(c)| != |EncodeChar(d)|
    ensures DifferAt(EncodeChar(c), EncodeChar(d), 0)
  {
  }

  lemma TwoDiffer(c: char, d: char) returns (k: nat)
    requires c < d && |EncodeChar(c)| == |EncodeChar(d)| == 2
    ensures DifferAt(EncodeChar(c), EncodeChar(d), k)
  {
    QuotientsDecide(c as int, d as int);
    k := if c as int / 64 < d as int / 64 then 0 else 1;
  }

  lemma ThreeDiffer(c: char, d: char) returns (k: nat)
    requires c < d && |EncodeChar(c)| == |EncodeChar(d)| == 3
    ensures DifferAt(EncodeChar(c), EncodeChar(d), k)
  {
    var m, n := c as int, d as int;
    DigitsDecide(m, n);
    k := if m / 4096 < n / 4096 then 0 else if m / 64 % 64 < n / 64 % 64 then 1 else 2;
  }

  lemma FourDiffer(c: char, d: char) returns (k: nat)
    requires c < d && |EncodeChar(c)| == |EncodeChar(d)| == 4
    ensures DifferAt(EncodeChar(c), EncodeChar(d), k)
  {
    var m, n := c as int, d as int;
    DigitsDecide(m, n);
    k := if m / 262144 < n / 262144 then 0 else if m / 4096 % 64 < n / 4096 % 64 then 1
         else if m / 64 % 64 < n / 64 % 64 then 2 else 3;
  }

  lemma EncodingsDiffer(c: char, d: char) returns (k: nat)
    requires c < d
    ensures DifferAt(EncodeChar(c), EncodeChar(d), k)
  {
    if |EncodeChar(c)| != |EncodeChar(d)| {
      LongerIsGreater(c, d);
      k := 0;
    } else if |EncodeChar(c)| == 1 {
      k := 0;
    } else if |EncodeChar(c)| == 2 {
      k := TwoDiffer(c, d);
    } else if |EncodeChar(c)| == 3 {
      k := ThreeDiffer(c, d);
    } else {
      k := FourDiffer(c, d);
    }
  }

  lemma CharsDecide(c: char, d: char, a: seq<byte>, b: seq<byte>)
    requires c < d
    ensures BytesLess(EncodeChar(c) + a, EncodeChar(d) + b) && !BytesLess(EncodeChar(d) + b, EncodeChar(c) + a)
  {
    var k := EncodingsDiffer(c, d);
    var p, x, y := EncodeChar(c)[..k], EncodeChar(c)[k..] + a, EncodeChar(d)[k..] + b;
    assert EncodeChar(d)[..k] == p;
    assert EncodeChar(c) + a == p + x && EncodeChar(d) + b == p + y;
    SamePrefix(p, x, y);
    SamePrefix(p, y, x);
    FirstByteDecides(x, y);
    FirstByteDecides(y, x);
  }

  /** The order of keys by code point is the order of their bytes. */
  lemma {:induction false} LessIsByteOrder(a: string, b: string)
    ensures Less(a, b) <==> BytesLess(Utf8(a), Utf8(b))
  {
    if a != "" && b != "" {
      if a[0] < b[0] {
        CharsDecide(a[0], b[0], Utf8(a[1..]), Utf8(b[1..]));
      } else if b[0] < a[0] {
        CharsDecide(b[0], a[0], Utf8(b[1..]), Utf8(a[1..]));
      } else {
        LessIsByteOrder(a[1..], b[1..]);
        SamePrefix(EncodeChar(a[0]), Utf8(a[1..]), Utf8(b[1..]));
      }
    }
  }
}
