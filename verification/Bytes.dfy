/** Big-endian numbers and the byte order of keys. */
module Bytes {

  type Byte = x: int | 0 <= x < 256

  function Power256(n: nat): nat { if n == 0 then 1 else 256 * Power256(n - 1) }

  /** The lowest `n` bytes of a number, most significant first. */
  function BigEndian(v: nat, n: nat): (s: seq<Byte>)
    ensures |s| == n
  {
    if n == 0 then [] else BigEndian(v / 256, n - 1) + [v % 256]
  }

  function Value(s: seq<Byte>): nat { if s == [] then 0 else 256 * Value(s[..|s| - 1]) + s[|s| - 1] }

  lemma LowByte(v: nat, p: nat)
    requires v < 256 * p
    ensures v / 256 < p && 256 * (v / 256) + v % 256 == v
  {
  }

  lemma {:induction false} ValueOfBigEndian(v: nat, n: nat)
    requires v < Power256(n)
    ensures Value(BigEndian(v, n)) == v
  {
    if n == 0 {
    } else {
      var s := BigEndian(v, n);
      LowByte(v, Power256(n - 1));
      ValueOfBigEndian(v / 256, n - 1);
      assert s[..n - 1] == BigEndian(v / 256, n - 1) && s[n - 1] == v % 256;
    }
  }

  lemma {:induction false} BigEndianOfValue(s: seq<Byte>)
    ensures BigEndian(Value(s), |s|) == s && Value(s) < Power256(|s|)
  {
    if s == [] {
    } else {
      var init := s[..|s| - 1];
      BigEndianOfValue(init);
      assert Value(s) / 256 == Value(init) && Value(s) % 256 == s[|s| - 1];
    }
  }

  /** The byte order: a proper prefix comes first. */
  predicate Less(a: seq<Byte>, b: seq<Byte>)
  {
    b != [] && (a == [] || a[0] < b[0] || (a[0] == b[0] && Less(a[1..], b[1..])))
  }

  /** Behind prefixes of one length, the prefixes decide unless they are equal. */
  lemma {:induction false} LessConcat(a: seq<Byte>, x: seq<Byte>, b: seq<Byte>, y: seq<Byte>)
    requires |a| == |b|
    ensures Less(a + x, b + y) <==> Less(a, b) || (a == b && Less(x, y))
    decreases |a|
  {
    if a == [] {
      assert a + x == x && b + y == y;
    } else {
      assert (a + x)[1..] == a[1..] + x && (b + y)[1..] == b[1..] + y;
      LessConcat(a[1..], x, b[1..], y);
      assert a == [a[0]] + a[1..] && b == [b[0]] + b[1..];
    }
  }

  lemma {:induction false} LessTransitive(a: seq<Byte>, b: seq<Byte>, c: seq<Byte>)
    requires Less(a, b) && Less(b, c)
    ensures Less(a, c)
    decreases |a|
  {
    if a != [] && a[0] == b[0] && b[0] == c[0] {
      LessTransitive(a[1..], b[1..], c[1..]);
    }
  }

  lemma {:induction false} LessTotal(a: seq<Byte>, b: seq<Byte>)
    ensures a == b || Less(a, b) || Less(b, a)
    ensures !(Less(a, b) && Less(b, a)) && !Less(a, a)
    decreases |a|
  {
    if a == [] {
    } else {
      LessTotal(a[1..], if b == [] then [] else b[1..]);
      if b != [] {
        assert a == [a[0]] + a[1..] && b == [b[0]] + b[1..];
      }
    }
  }

  /** Numbers of one width compare as their bytes do. */
  lemma {:induction false} LessIsNumeric(v: nat, w: nat, n: nat)
    requires v < Power256(n) && w < Power256(n)
    ensures Less(BigEndian(v, n), BigEndian(w, n)) <==> v < w
    ensures BigEndian(v, n) == BigEndian(w, n) <==> v == w
  {
    if n == 0 {
    } else {
      LessIsNumeric(v / 256, w / 256, n - 1);
      LessConcat(BigEndian(v / 256, n - 1), [v % 256], BigEndian(w / 256, n - 1), [w % 256]);
      LessOne(v % 256, w % 256);
      ValueOfBigEndian(v, n);
      ValueOfBigEndian(w, n);
    }
  }

  lemma LessOne(a: Byte, b: Byte)
    ensures Less([a], [b]) <==> a < b
  {
    assert !Less([a][1..], [b][1..]);
  }

  // ----- 32-byte IDs as numbers

  /** The shortest big-endian form. */
  function Minimal(v: nat): seq<Byte> { if v == 0 then [] else Minimal(v / 256) + [v % 256] }

  /** Padding the shortest form with zeros gives the form of fixed width. */
  lemma {:induction false} MinimalPads(v: nat, n: nat)
    requires v < Power256(n)
    ensures |Minimal(v)| <= n && BigEndian(v, n) == seq(n - |Minimal(v)|, i => 0) + Minimal(v)
  {
    if v == 0 {
      ZeroBigEndian(n);
    } else {
      MinimalPads(v / 256, n - 1);
    }
  }

  lemma {:induction false} ZeroBigEndian(n: nat)
    ensures BigEndian(0, n) == seq(n, i => 0)
  {
    if n == 0 {
    } else {
      ZeroBigEndian(n - 1);
    }
  }

  /** Overwrite an ID with a number; a number of more than 32 bytes is what the code refuses with a panic. */
  method SetBigInt(id: array<Byte>, i: nat)
    requires id.Length == 32 && |Minimal(i)| <= 32 && i < Power256(32)
    modifies id
    ensures id[..] == BigEndian(i, 32) && Value(id[..]) == i
  {
    var intBytes := Minimal(i);
    for j := 0 to id.Length
      invariant forall k :: 0 <= k < j ==> id[k] == 0
    {
      id[j] := 0;
    }
    var offset := 32 - |intBytes|;
    for j := 0 to |intBytes|
      invariant forall k :: 0 <= k < offset ==> id[k] == 0
      invariant forall k :: 0 <= k < j ==> id[offset + k] == intBytes[k]
    {
      id[offset + j] := intBytes[j];
    }
    MinimalPads(i, 32);
    ValueOfBigEndian(i, 32);
    assert id[..] == seq(offset, k => 0) + intBytes;
  }

  method GetBigInt(id: array<Byte>) returns (i: nat)
    ensures i == Value(id[..]) && BigEndian(i, id.Length) == id[..]
  {
    i := 0;
    for j := 0 to id.Length
      invariant i == Value(id[..j])
    {
      assert id[..j + 1][..j] == id[..j];
      i := 256 * i + id[j];
    }
    assert id[..id.Length] == id[..];
    BigEndianOfValue(id[..]);
  }
}
