/** The JSON form of a count header, as it is written. */
module HeaderText {
  import opened Considerations

  // ----- digits

  const DIGITS: string := "0123456789abcdef"

  function Hex(v: nat, n: nat): (s: string)
    ensures |s| == n
  {
    if n == 0 then "" else Hex(v / 16, n - 1) + [DIGITS[v % 16]]
  }

  function Dec(v: nat): (s: string)
    ensures s != "" && AllDecimal(s)
  {
    (if v < 10 then "" else Dec(v / 10)) + [DIGITS[v % 10]]
  }

  predicate Decimal(c: char) { '0' <= c <= '9' }

  predicate AllDecimal(s: string) { forall i :: 0 <= i < |s| ==> Decimal(s[i]) }

  function Power(base: nat, n: nat): nat { if n == 0 then 1 else base * Power(base, n - 1) }

  lemma {:induction false} HexInjective(a: nat, b: nat, n: nat)
    requires a < Power(16, n) && b < Power(16, n) && Hex(a, n) == Hex(b, n)
    ensures a == b
  {
    if n == 0 {
    } else {
      var p, q := Hex(a / 16, n - 1), Hex(b / 16, n - 1);
      assert Hex(a, n)[..n - 1] == p && Hex(b, n)[..n - 1] == q;
      assert Hex(a, n)[n - 1] == DIGITS[a % 16] && Hex(b, n)[n - 1] == DIGITS[b % 16];
      HexInjective(a / 16, b / 16, n - 1);
    }
  }

  lemma DecSplits(v: nat)
    ensures var s := Dec(v); s[|s| - 1] == DIGITS[v % 10] && s[..|s| - 1] == if v < 10 then "" else Dec(v / 10)
  {
  }

  lemma {:induction false} DecInjective(a: nat, b: nat)
    requires Dec(a) == Dec(b)
    ensures a == b
  {
    hide Dec;
    DecSplits(a);
    DecSplits(b);
    if a >= 10 && b >= 10 {
      DecInjective(a / 10, b / 10);
    }
  }

  lemma {:induction false} DecLength(v: nat, n: nat)
    requires n > 0 && v < Power(10, n)
    ensures |Dec(v)| <= n
  {
    if v < 10 {
    } else {
      assert n > 1 && v / 10 < Power(10, n - 1);
      DecLength(v / 10, n - 1);
    }
  }

  // ----- the full serialization

  const HDR_PREVIOUS: string := "{\"previous\":\""
  const HDR_HASH_LIST_ROOT: string := "\",\"hash_list_root\":\""
  const HDR_TIME: string := "\",\"time\":"
  const HDR_TARGET: string := ",\"target\":\""
  const HDR_POINT_WORK: string := "\",\"point_work\":\""
  const HDR_NONCE: string := "\",\"nonce\":"
  const HDR_HEIGHT: string := ",\"height\":"
  const HDR_CONSIDERATION_COUNT: string := ",\"consideration_count\":"
  const HDR_END: string := "}"

  const CAPACITY: nat := |HDR_PREVIOUS| + |HDR_HASH_LIST_ROOT| + |HDR_TIME| + |HDR_TARGET| + |HDR_POINT_WORK|
    + |HDR_NONCE| + |HDR_HEIGHT| + |HDR_CONSIDERATION_COUNT| + |HDR_END| + 4 * 64 + 3 * 19 + 10

  /** The values a checked header can hold; the fields are int64, int32 and 32-byte arrays. */
  predicate InRange(h: CountHeader)
  {
    && 0 <= h.time < 0x8000_0000_0000_0000 && 0 <= h.nonce < 0x8000_0000_0000_0000
    && 0 <= h.height < 0x8000_0000_0000_0000 && 0 <= h.considerationCount < 0x8000_0000
  }

  function UpToRoot(h: CountHeader): string { HDR_PREVIOUS + Hex(h.previous, 64) + HDR_HASH_LIST_ROOT }

  function UpToTime(h: CountHeader): string { UpToRoot(h) + Hex(h.hashListRoot, 64) + HDR_TIME }

  /** The fields between time and nonce never change while rendering. */
  function Middle(h: CountHeader): string
  {
    HDR_TARGET + Hex(h.target, 64) + HDR_POINT_WORK + Hex(h.pointWork, 64) + HDR_NONCE
  }

  function UpToNonce(h: CountHeader): string
    requires InRange(h)
  {
    UpToTime(h) + Dec(h.time) + Middle(h)
  }

  function Lower(h: CountHeader): string
    requires InRange(h)
  {
    HDR_HEIGHT + Dec(h.height) + HDR_CONSIDERATION_COUNT
  }

  function UpToCount(h: CountHeader): string
    requires InRange(h)
  {
    UpToNonce(h) + Dec(h.nonce) + Lower(h)
  }

  /** What json.Marshal produces for a header. */
  function Serialize(h: CountHeader): string
    requires InRange(h)
  {
    UpToCount(h) + Dec(h.considerationCount) + HDR_END
  }

  /** Only the fields that rendering changes differ. */
  predicate SameStatics(g: CountHeader, h: CountHeader)
  {
    g.previous == h.previous && g.target == h.target && g.pointWork == h.pointWork && g.height == h.height
  }

  lemma Fits(h: CountHeader)
    requires InRange(h)
    ensures |Serialize(h)| <= CAPACITY
  {
    assert Power(10, 19) == 10000000000000000000 && Power(10, 10) == 10000000000;
    DecLength(h.time, 19);
    DecLength(h.nonce, 19);
    DecLength(h.height, 19);
    DecLength(h.considerationCount, 10);
  }

  // ----- the serialization commits to every field

  predicate IsHeader(h: CountHeader)
  {
    InRange(h) && h.previous < Power(16, 64) && h.hashListRoot < Power(16, 64)
    && h.target < Power(16, 64) && h.pointWork < Power(16, 64)
  }

  lemma SplitFixed(a: string, x: string, b: string, y: string)
    requires |a| == |b| && a + x == b + y
    ensures a == b && x == y
  {
    assert a == (a + x)[..|a|] && b == (b + y)[..|b|];
    assert x == (a + x)[|a|..] && y == (b + y)[|b|..];
  }

  /** A decimal field ends at the first character that is no digit. */
  lemma SplitDecimal(a: string, x: string, b: string, y: string)
    requires AllDecimal(a) && AllDecimal(b) && a + x == b + y
    requires x != "" && y != "" && !Decimal(x[0]) && !Decimal(y[0])
    ensures a == b && x == y
  {
    assert forall i :: 0 <= i < |a| ==> (a + x)[i] == a[i];
    assert forall i :: 0 <= i < |b| ==> (b + y)[i] == b[i];
    assert (a + x)[|a|] == x[0] && (b + y)[|b|] == y[0];
    assert |a| == |b|;
    SplitFixed(a, x, b, y);
  }

  function FromCount(h: CountHeader): string
    requires InRange(h)
  {
    Dec(h.considerationCount) + HDR_END
  }

  function FromHeight(h: CountHeader): string
    requires InRange(h)
  {
    HDR_HEIGHT + (Dec(h.height) + (HDR_CONSIDERATION_COUNT + FromCount(h)))
  }

  function FromTarget(h: CountHeader): string
    requires InRange(h)
  {
    Middle(h) + (Dec(h.nonce) + FromHeight(h))
  }

  /** The serialization read from the left, one variable field after the other. */
  lemma ReadFromLeft(h: CountHeader)
    requires InRange(h)
    ensures Serialize(h) == UpToTime(h) + (Dec(h.time) + FromTarget(h))
  {
    hide Hex, Dec, Middle, UpToTime;
    assert Lower(h) + FromCount(h) == FromHeight(h);
    assert Serialize(h) == UpToCount(h) + FromCount(h);
    assert UpToCount(h) + FromCount(h) == UpToNonce(h) + (Dec(h.nonce) + (Lower(h) + FromCount(h)));
  }

  lemma FixedFields(g: CountHeader, h: CountHeader)
    requires IsHeader(g) && IsHeader(h)
    ensures UpToTime(g) == UpToTime(h) ==> g.previous == h.previous && g.hashListRoot == h.hashListRoot
    ensures Middle(g) == Middle(h) ==> g.target == h.target && g.pointWork == h.pointWork
  {
    hide Hex, Power;
    if UpToTime(g) == UpToTime(h) {
      SplitFixed(UpToRoot(g) + Hex(g.hashListRoot, 64), HDR_TIME, UpToRoot(h) + Hex(h.hashListRoot, 64), HDR_TIME);
      SplitFixed(UpToRoot(g), Hex(g.hashListRoot, 64), UpToRoot(h), Hex(h.hashListRoot, 64));
      SplitFixed(HDR_PREVIOUS + Hex(g.previous, 64), HDR_HASH_LIST_ROOT, HDR_PREVIOUS + Hex(h.previous, 64), HDR_HASH_LIST_ROOT);
      SplitFixed(HDR_PREVIOUS, Hex(g.previous, 64), HDR_PREVIOUS, Hex(h.previous, 64));
      HexInjective(g.previous, h.previous, 64);
      HexInjective(g.hashListRoot, h.hashListRoot, 64);
    }
    if Middle(g) == Middle(h) {
      var a, b := HDR_TARGET + Hex(g.target, 64) + HDR_POINT_WORK, HDR_TARGET + Hex(h.target, 64) + HDR_POINT_WORK;
      SplitFixed(a + Hex(g.pointWork, 64), HDR_NONCE, b + Hex(h.pointWork, 64), HDR_NONCE);
      SplitFixed(a, Hex(g.pointWork, 64), b, Hex(h.pointWork, 64));
      SplitFixed(HDR_TARGET + Hex(g.target, 64), HDR_POINT_WORK, HDR_TARGET + Hex(h.target, 64), HDR_POINT_WORK);
      SplitFixed(HDR_TARGET, Hex(g.target, 64), HDR_TARGET, Hex(h.target, 64));
      HexInjective(g.target, h.target, 64);
      HexInjective(g.pointWork, h.pointWork, 64);
    }
  }

  /** Two headers with the same JSON are the same header. */
  lemma SerializeInjective(g: CountHeader, h: CountHeader)
    requires IsHeader(g) && IsHeader(h) && Serialize(g) == Serialize(h)
    ensures g == h
  {
    hide Hex, Dec, Power, Serialize;
    ReadFromLeft(g);
    ReadFromLeft(h);
    SplitFixed(UpToTime(g), Dec(g.time) + FromTarget(g), UpToTime(h), Dec(h.time) + FromTarget(h));
    SplitDecimal(Dec(g.time), FromTarget(g), Dec(h.time), FromTarget(h));
    SplitFixed(Middle(g), Dec(g.nonce) + FromHeight(g), Middle(h), Dec(h.nonce) + FromHeight(h));
    SplitDecimal(Dec(g.nonce), FromHeight(g), Dec(h.nonce), FromHeight(h));
    SplitTail(g, h);
    FixedFields(g, h);
    DecInjective(g.time, h.time);
    DecInjective(g.nonce, h.nonce);
  }

  lemma SplitTail(g: CountHeader, h: CountHeader)
    requires IsHeader(g) && IsHeader(h) && FromHeight(g) == FromHeight(h)
    ensures g.height == h.height && g.considerationCount == h.considerationCount
  {
    hide Hex, Dec, Power;
    var a, b := HDR_CONSIDERATION_COUNT + FromCount(g), HDR_CONSIDERATION_COUNT + FromCount(h);
    SplitFixed(HDR_HEIGHT, Dec(g.height) + a, HDR_HEIGHT, Dec(h.height) + b);
    SplitDecimal(Dec(g.height), a, Dec(h.height), b);
    SplitFixed(HDR_CONSIDERATION_COUNT, FromCount(g), HDR_CONSIDERATION_COUNT, FromCount(h));
    SplitDecimal(Dec(g.considerationCount), HDR_END, Dec(h.considerationCount), HDR_END);
    DecInjective(g.height, h.height);
    DecInjective(g.considerationCount, h.considerationCount);
  }
}
