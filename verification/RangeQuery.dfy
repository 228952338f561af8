/** The per-key history index: its key codec, and forward and reverse scans over it. */
module RangeQuery {
  import opened Bytes

  const PREFIX: Byte := 107 // 'k'
  const KEY_SIZE: nat := 32
  const MAX_INT64: nat := 0x8000_0000_0000_0000
  const MAX_INT32: nat := 0x8000_0000

  type Key = seq<Byte>

  /** The prefix byte and the public key. */
  function Owner(pubKey: Key): Key { [PREFIX] + pubKey }

  function HeightKey(pubKey: Key, height: nat): Key { Owner(pubKey) + BigEndian(height, 8) }

  /** An index one past the greatest int32 wraps to the bytes that follow it, so the low 32 bits are what is written. */
  function IndexKey(pubKey: Key, height: nat, index: nat): Key { Owner(pubKey) + (BigEndian(height, 8) + BigEndian(index, 4)) }

  datatype Row = Row(pubKey: Key, height: nat, index: nat)

  predicate IsRow(r: Row) { |r.pubKey| == KEY_SIZE && r.height < MAX_INT64 && r.index < MAX_INT32 }

  function Encode(r: Row): Key { IndexKey(r.pubKey, r.height, r.index) }

  function Decode(key: Key): Row
    requires |key| == KEY_SIZE + 13
  {
    Row(key[1..KEY_SIZE + 1], Value(key[KEY_SIZE + 1..KEY_SIZE + 9]), Value(key[KEY_SIZE + 9..]))
  }

  lemma Widths()
    ensures Power256(8) == 0x1_0000_0000_0000_0000 && Power256(4) == 0x1_0000_0000
  {
  }

  lemma DecodeEncode(r: Row)
    requires IsRow(r)
    ensures |Encode(r)| == KEY_SIZE + 13 && Decode(Encode(r)) == r
  {
    hide BigEndian, Value, Power256;
    Widths();
    var key, h, i := Encode(r), BigEndian(r.height, 8), BigEndian(r.index, 4);
    assert key[1..KEY_SIZE + 1] == r.pubKey && key[KEY_SIZE + 1..KEY_SIZE + 9] == h && key[KEY_SIZE + 9..] == i;
    ValueOfBigEndian(r.height, 8);
    ValueOfBigEndian(r.index, 4);
  }

  /** Heights first, then indices. */
  predicate Before(h: int, i: int, h': int, i': int) { h < h' || (h == h' && i < i') }

  /** Keys of one owner are in (height, index) order, up to an index one past the greatest. */
  lemma KeyOrder(pubKey: Key, h: nat, i: nat, h': nat, i': nat)
    requires h < MAX_INT64 && h' < MAX_INT64 && i <= MAX_INT32 && i' <= MAX_INT32
    ensures Less(IndexKey(pubKey, h, i), IndexKey(pubKey, h', i')) <==> Before(h, i, h', i')
  {
    hide BigEndian, Less, Power256;
    Widths();
    LessConcat(Owner(pubKey), BigEndian(h, 8) + BigEndian(i, 4), Owner(pubKey), BigEndian(h', 8) + BigEndian(i', 4));
    LessTotal(Owner(pubKey), Owner(pubKey));
    LessConcat(BigEndian(h, 8), BigEndian(i, 4), BigEndian(h', 8), BigEndian(i', 4));
    LessIsNumeric(h, h', 8);
    LessIsNumeric(i, i', 4);
  }

  /** A key without an index comes before all keys of its height and after all of lower heights. */
  lemma HeightOrder(pubKey: Key, h: nat, i: nat, h': nat)
    requires h < MAX_INT64 && h' <= MAX_INT64 && i <= MAX_INT32
    ensures Less(IndexKey(pubKey, h, i), HeightKey(pubKey, h')) <==> h < h'
  {
    hide BigEndian, Power256;
    Widths();
    LessConcat(Owner(pubKey), BigEndian(h, 8) + BigEndian(i, 4), Owner(pubKey), BigEndian(h', 8));
    LessTotal(Owner(pubKey), Owner(pubKey));
    assert BigEndian(h', 8) == BigEndian(h', 8) + [];
    LessConcat(BigEndian(h, 8), BigEndian(i, 4), BigEndian(h', 8), []);
    LessIsNumeric(h, h', 8);
  }

  /** The keys of another owner are all before or all after those of this one. */
  lemma OwnersApart(r: Row, pubKey: Key, x: Key, y: Key)
    requires IsRow(r) && |pubKey| == KEY_SIZE && r.pubKey != pubKey
    ensures Less(Encode(r), Owner(pubKey) + x) <==> Less(Encode(r), Owner(pubKey) + y)
  {
    hide BigEndian;
    var rest := BigEndian(r.height, 8) + BigEndian(r.index, 4);
    assert Owner(r.pubKey)[1..] == r.pubKey && Owner(pubKey)[1..] == pubKey;
    LessConcat(Owner(r.pubKey), rest, Owner(pubKey), x);
    LessConcat(Owner(r.pubKey), rest, Owner(pubKey), y);
  }

  // ----- the table

  /** A snapshot of the index: its rows in the order of their keys. */
  ghost predicate IsTable(rows: seq<Row>)
  {
    && (forall j :: 0 <= j < |rows| ==> IsRow(rows[j]))
    && (forall j, k :: 0 <= j < k < |rows| ==> Less(Encode(rows[j]), Encode(rows[k])))
  }

  /** A place in the history: bounds may lie one past the greatest height or index. */
  datatype Place = Place(height: nat, index: nat)

  predicate IsPlace(p: Place) { p.height <= MAX_INT64 && p.index <= MAX_INT32 && (p.height == MAX_INT64 ==> p.index == 0) }

  predicate Wanted(r: Row, pubKey: Key, lo: Place, hi: Place)
  {
    r.pubKey == pubKey && !Before(r.height, r.index, lo.height, lo.index) && Before(r.height, r.index, hi.height, hi.index)
  }

  /** The rows of a key from `lo` up to but not including `hi`, in order. */
  function Range(rows: seq<Row>, pubKey: Key, lo: Place, hi: Place): seq<Row>
  {
    if rows == [] then [] else (if Wanted(rows[0], pubKey, lo, hi) then [rows[0]] else []) + Range(rows[1..], pubKey, lo, hi)
  }

  /** How many rows come before a key. */
  function Lower(rows: seq<Row>, key: Key): (n: nat)
    ensures n <= |rows|
  {
    if rows != [] && Less(Encode(rows[0]), key) then 1 + Lower(rows[1..], key) else 0
  }

  lemma {:induction false} LowerSplits(rows: seq<Row>, key: Key)
    requires IsTable(rows)
    ensures forall k :: 0 <= k < |rows| ==> (Less(Encode(rows[k]), key) <==> k < Lower(rows, key))
  {
    hide Less, Encode, IsRow;
    if rows == [] {
    } else {
      if Less(Encode(rows[0]), key) {
        LowerSplits(rows[1..], key);
        assert forall k :: 1 <= k < |rows| ==> rows[k] == rows[1..][k - 1];
      } else {
        forall k | 0 < k < |rows| ensures !Less(Encode(rows[k]), key) {
          if Less(Encode(rows[k]), key) {
            LessTransitive(Encode(rows[0]), Encode(rows[k]), key);
          }
        }
      }
    }
  }

  /** The key a place is sought by: with its index, or without it where the index is zero. */
  ghost predicate KeyOf(key: Key, pubKey: Key, p: Place)
  {
    key == IndexKey(pubKey, p.height, p.index) || (p.index == 0 && key == HeightKey(pubKey, p.height))
  }

  lemma KeyOfOrder(r: Row, key: Key, p: Place)
    requires IsRow(r) && IsPlace(p) && KeyOf(key, r.pubKey, p)
    ensures Less(Encode(r), key) <==> Before(r.height, r.index, p.height, p.index)
  {
    hide Less, BigEndian;
    if p.height < MAX_INT64 {
      KeyOrder(r.pubKey, r.height, r.index, p.height, p.index);
    } else {
      LastOrder(r);
    }
    if p.index == 0 {
      HeightOrder(r.pubKey, r.height, r.index, p.height);
    }
  }

  /** Every row comes before the place past the greatest height. */
  lemma LastOrder(r: Row)
    requires IsRow(r)
    ensures Less(Encode(r), IndexKey(r.pubKey, MAX_INT64, 0))
  {
    hide BigEndian, Power256;
    Widths();
    var owner := Owner(r.pubKey);
    LessConcat(owner, BigEndian(r.height, 8) + BigEndian(r.index, 4), owner, BigEndian(MAX_INT64, 8) + BigEndian(0, 4));
    LessConcat(BigEndian(r.height, 8), BigEndian(r.index, 4), BigEndian(MAX_INT64, 8), BigEndian(0, 4));
    LessIsNumeric(r.height, MAX_INT64, 8);
  }

  /** A scan between two keys of one owner meets exactly the wanted rows. */
  lemma ScanIsWanted(r: Row, pubKey: Key, lo: Place, hi: Place, start: Key, limit: Key)
    requires IsRow(r) && |pubKey| == KEY_SIZE && IsPlace(lo) && IsPlace(hi)
    requires KeyOf(start, pubKey, lo) && KeyOf(limit, pubKey, hi)
    ensures !Less(Encode(r), start) && Less(Encode(r), limit) <==> Wanted(r, pubKey, lo, hi)
  {
    hide Less, BigEndian, IsPlace;
    if r.pubKey == pubKey {
      KeyOfOrder(r, start, lo);
      KeyOfOrder(r, limit, hi);
    } else {
      var x := if start == HeightKey(pubKey, lo.height) then BigEndian(lo.height, 8) else BigEndian(lo.height, 8) + BigEndian(lo.index, 4);
      var y := if limit == HeightKey(pubKey, hi.height) then BigEndian(hi.height, 8) else BigEndian(hi.height, 8) + BigEndian(hi.index, 4);
      OwnersApart(r, pubKey, x, y);
    }
  }

  lemma {:induction false} RangeBlock(rows: seq<Row>, pubKey: Key, lo: Place, hi: Place, a: nat, b: nat)
    requires a <= |rows| && b <= |rows|
    requires forall k :: 0 <= k < |rows| ==> (Wanted(rows[k], pubKey, lo, hi) <==> a <= k < b)
    ensures Range(rows, pubKey, lo, hi) == if a <= b then rows[a..b] else []
  {
    hide Wanted;
    if rows == [] {
    } else {
      var rest := rows[1..];
      var a', b' := if a == 0 then 0 else a - 1, if b == 0 then 0 else b - 1;
      forall k | 0 <= k < |rest| ensures Wanted(rest[k], pubKey, lo, hi) <==> a' <= k < b' {
        assert rest[k] == rows[k + 1];
      }
      RangeBlock(rest, pubKey, lo, hi, a', b');
      BlockTail(rows, a, b, a', b');
    }
  }

  lemma BlockTail(rows: seq<Row>, a: nat, b: nat, a': nat, b': nat)
    requires rows != [] && a <= |rows| && b <= |rows|
    requires a' == (if a == 0 then 0 else a - 1) && b' == (if b == 0 then 0 else b - 1)
    ensures var tail := if a' <= b' then rows[1..][a'..b'] else [];
      (if a == 0 < b then [rows[0]] + tail else tail) == if a <= b then rows[a..b] else []
  {
  }

  /** The wanted rows are one block of the table, between the two keys. */
  lemma RangeIsScan(rows: seq<Row>, pubKey: Key, lo: Place, hi: Place, start: Key, limit: Key)
    requires IsTable(rows) && |pubKey| == KEY_SIZE && IsPlace(lo) && IsPlace(hi)
    requires KeyOf(start, pubKey, lo) && KeyOf(limit, pubKey, hi)
    ensures var a, b := Lower(rows, start), Lower(rows, limit);
      && Range(rows, pubKey, lo, hi) == (if a <= b then rows[a..b] else [])
      && forall k :: 0 <= k < |rows| ==> (Wanted(rows[k], pubKey, lo, hi) <==> a <= k < b)
  {
    hide Less, Encode, KeyOf, Wanted, Range, IsRow, IsPlace;
    var a, b := Lower(rows, start), Lower(rows, limit);
    LowerSplits(rows, start);
    LowerSplits(rows, limit);
    forall k | 0 <= k < |rows| ensures Wanted(rows[k], pubKey, lo, hi) <==> a <= k < b {
      ScanIsWanted(rows[k], pubKey, lo, hi, start, limit);
    }
    RangeBlock(rows, pubKey, lo, hi, a, b);
  }

  // ----- scans

  function Take(s: seq<Row>, limit: nat): seq<Row> { if limit == 0 || |s| < limit then s else s[..limit] }

  function Backward(s: seq<Row>): seq<Row> { seq(|s|, i requires 0 <= i < |s| => s[|s| - 1 - i]) }

  datatype Page = Page(ids: seq<nat>, indices: seq<nat>, lastHeight: nat, lastIndex: nat) | NoCountAt(height: nat)

  /** The page for rows that were hit: their count IDs and indices and the last place, unless a height is missing. */
  function PageOf(hits: seq<Row>, heights: map<int, nat>): Page
  {
    if hits == [] then Page([], [], 0, 0) else
      var below, r := PageOf(hits[..|hits| - 1], heights), hits[|hits| - 1];
      if below.NoCountAt? then below
      else if r.height !in heights then NoCountAt(r.height)
      else Page(below.ids + [heights[r.height]], below.indices + [r.index], r.height, r.index)
  }

  /** What a page says of its rows, one by one. */
  lemma {:induction false} PageOfSays(hits: seq<Row>, heights: map<int, nat>)
    ensures PageOf(hits, heights).Page? <==> forall k :: 0 <= k < |hits| ==> hits[k].height in heights
    ensures PageOf(hits, heights).Page? ==> |PageOf(hits, heights).ids| == |PageOf(hits, heights).indices| == |hits|
    ensures PageOf(hits, heights).Page? ==> forall k :: 0 <= k < |hits| ==> PageOf(hits, heights).indices[k] == hits[k].index
    ensures PageOf(hits, heights).Page? ==> forall k :: 0 <= k < |hits| ==> PageOf(hits, heights).ids[k] == heights[hits[k].height]
    ensures var page := PageOf(hits, heights);
      page.Page? && hits != [] ==> page.lastHeight == hits[|hits| - 1].height && page.lastIndex == hits[|hits| - 1].index
  {
    if hits == [] {
    } else {
      PageOfSays(hits[..|hits| - 1], heights);
    }
  }

  lemma PageOfMore(hits: seq<Row>, r: Row, heights: map<int, nat>)
    ensures PageOf(hits + [r], heights) == var below := PageOf(hits, heights);
      if below.NoCountAt? then below
      else if r.height !in heights then NoCountAt(r.height)
      else Page(below.ids + [heights[r.height]], below.indices + [r.index], r.height, r.index)
  {
    assert (hits + [r])[..|hits|] == hits;
  }

  lemma {:induction false} PageOfPrefix(hits: seq<Row>, n: nat, heights: map<int, nat>)
    requires n <= |hits| && PageOf(hits[..n], heights).NoCountAt?
    ensures PageOf(hits, heights) == PageOf(hits[..n], heights)
    decreases |hits|
  {
    if n < |hits| {
      assert hits[..|hits| - 1][..n] == hits[..n];
      PageOfPrefix(hits[..|hits| - 1], n, heights);
    } else {
      assert hits[..n] == hits;
    }
  }

  /** The first row not before a key; what the iterator seeks to. */
  method Seek(rows: seq<Row>, key: Key) returns (j: nat)
    requires IsTable(rows)
    ensures j == Lower(rows, key)
  {
    hide Less, Encode, IsRow;
    LowerSplits(rows, key);
    j := 0;
    while j < |rows| && Less(Encode(rows[j]), key)
      invariant j <= Lower(rows, key)
    {
      j := j + 1;
    }
  }

  /** Add one hit to a page: look up its height, and note its place. */
  method AddHit(page: Page, key: Key, heights: map<int, nat>, ghost hits: seq<Row>, ghost row: Row) returns (r: Page)
    requires page == PageOf(hits, heights) && page.Page? && IsRow(row) && key == Encode(row)
    ensures r == PageOf(hits + [row], heights) && (r.Page? ==> |r.indices| == |page.indices| + 1)
  {
    hide Encode, Decode, PageOf;
    DecodeEncode(row);
    PageOfMore(hits, row, heights);
    var found := Decode(key);
    if found.height !in heights {
      return NoCountAt(found.height);
    }
    return Page(page.ids + [heights[found.height]], page.indices + [found.index], found.height, found.index);
  }

  lemma EmptyPage(heights: map<int, nat>)
    ensures PageOf([], heights) == Page([], [], 0, 0)
  {
  }

  /** Scan forward over the inclusive range. */
  method RangeForward(rows: seq<Row>, heights: map<int, nat>, pubKey: Key, startHeight: nat, endHeight: nat,
                      startIndex: nat, limit: nat) returns (page: Page)
    requires IsTable(rows) && |pubKey| == KEY_SIZE
    requires startHeight < MAX_INT64 && endHeight < MAX_INT64 && startIndex <= MAX_INT32
    ensures var hits := Range(rows, pubKey, Place(startHeight, startIndex), Place(endHeight + 1, 0));
      page == PageOf(Take(hits, limit), heights)
  {
    hide Less, Encode, Range, IsRow, PageOf, Take, Lower, IndexKey, HeightKey, Wanted, PageOf;
    var startKey, endKey := IndexKey(pubKey, startHeight, startIndex), HeightKey(pubKey, endHeight + 1);
    RangeIsScan(rows, pubKey, Place(startHeight, startIndex), Place(endHeight + 1, 0), startKey, endKey);
    LowerSplits(rows, endKey);
    var j := Seek(rows, startKey);
    ghost var a, b := j, Lower(rows, endKey);
    ghost var hits := Range(rows, pubKey, Place(startHeight, startIndex), Place(endHeight + 1, 0));
    page := Page([], [], 0, 0);
    EmptyPage(heights);
    assert rows[a..a] == [];
    while j < |rows| && Less(Encode(rows[j]), endKey) && (limit == 0 || |page.indices| < limit)
      invariant a <= j <= |rows| && (j > a ==> j <= b) && (limit == 0 || j - a <= limit)
      invariant page.Page? && page == PageOf(rows[a..j], heights) && |page.indices| == j - a
      decreases |rows| - j
    {
      assert rows[a..j + 1] == rows[a..j] + [rows[j]];
      page := AddHit(page, Encode(rows[j]), heights, rows[a..j], rows[j]);
      j := j + 1;
      if page.NoCountAt? {
        TakePrefix(rows, hits, a, b, j, limit);
        PageOfPrefix(Take(hits, limit), j - a, heights);
        return;
      }
    }
    TakeBlock(rows, hits, a, b, j, limit);
  }

  /** Scan backward from (startHeight, startIndex) down to the start of endHeight. */
  method RangeReverse(rows: seq<Row>, heights: map<int, nat>, pubKey: Key, startHeight: nat, endHeight: nat,
                      startIndex: nat, limit: nat) returns (page: Page)
    requires IsTable(rows) && |pubKey| == KEY_SIZE
    requires startHeight < MAX_INT64 && endHeight < MAX_INT64 && startIndex < MAX_INT32
    ensures var hits := Range(rows, pubKey, Place(endHeight, 0), Place(startHeight, startIndex + 1));
      page == PageOf(Take(Backward(hits), limit), heights)
  {
    hide Less, Encode, Range, IsRow, PageOf, Take, Lower, IndexKey, HeightKey, Wanted, PageOf, Backward;
    var endKey, startKey := HeightKey(pubKey, endHeight), IndexKey(pubKey, startHeight, startIndex + 1);
    RangeIsScan(rows, pubKey, Place(endHeight, 0), Place(startHeight, startIndex + 1), endKey, startKey);
    LowerSplits(rows, endKey);
    var j := Seek(rows, startKey);
    ghost var a, b := Lower(rows, endKey), j;
    ghost var hits := Range(rows, pubKey, Place(endHeight, 0), Place(startHeight, startIndex + 1));
    page := Page([], [], 0, 0);
    EmptyPage(heights);
    BackwardNone(rows, b);
    while j > 0 && !Less(Encode(rows[j - 1]), endKey) && (limit == 0 || |page.indices| < limit)
      invariant j <= b && (j < b ==> a <= j) && (limit == 0 || b - j <= limit)
      invariant page.Page? && page == PageOf(Backward(rows[j..b]), heights) && |page.indices| == b - j
      decreases j
    {
      j := j - 1;
      BackwardMore(rows, j, b);
      page := AddHit(page, Encode(rows[j]), heights, Backward(rows[j + 1..b]), rows[j]);
      if page.NoCountAt? {
        BackwardPrefix(rows, hits, a, b, j, limit);
        PageOfPrefix(Take(Backward(hits), limit), b - j, heights);
        return;
      }
    }
    BackwardBlock(rows, hits, a, b, j, limit);
  }

  lemma BackwardNone(rows: seq<Row>, b: nat)
    requires b <= |rows|
    ensures Backward(rows[b..b]) == []
  {
  }

  lemma BackwardMore(rows: seq<Row>, j: nat, b: nat)
    requires j < b <= |rows|
    ensures Backward(rows[j..b]) == Backward(rows[j + 1..b]) + [rows[j]]
  {
  }

  lemma BackwardPrefix(rows: seq<Row>, hits: seq<Row>, a: nat, b: nat, j: nat, limit: nat)
    requires a <= j <= b <= |rows| && hits == rows[a..b] && (limit == 0 || b - j <= limit)
    ensures b - j <= |Take(Backward(hits), limit)| && Take(Backward(hits), limit)[..b - j] == Backward(rows[j..b])
  {
  }

  lemma BackwardBlock(rows: seq<Row>, hits: seq<Row>, a: nat, b: nat, j: nat, limit: nat)
    requires j <= b <= |rows| && a <= |rows| && hits == (if a <= b then rows[a..b] else [])
    requires (j < b ==> a <= j) && (limit == 0 || b - j <= limit) && (j <= a || b - j == limit > 0)
    ensures Take(Backward(hits), limit) == Backward(rows[j..b])
  {
  }

  lemma TakePrefix(rows: seq<Row>, hits: seq<Row>, a: nat, b: nat, j: nat, limit: nat)
    requires a <= j <= b <= |rows| && hits == rows[a..b] && (limit == 0 || j - a <= limit)
    ensures j - a <= |Take(hits, limit)| && Take(hits, limit)[..j - a] == rows[a..j]
  {
    assert rows[a..b][..j - a] == rows[a..j];
    assert Take(hits, limit)[..j - a] == hits[..j - a];
  }

  lemma TakeBlock(rows: seq<Row>, hits: seq<Row>, a: nat, b: nat, j: nat, limit: nat)
    requires a <= j <= |rows| && b <= |rows| && hits == (if a <= b then rows[a..b] else [])
    requires (j > a ==> j <= b) && (limit == 0 || j - a <= limit) && (j >= b || j - a == limit > 0)
    ensures Take(hits, limit) == rows[a..j]
  {
  }

  // ----- paging

  /** Later rows of one key are at later places. */
  lemma RowsInOrder(rows: seq<Row>, j: nat, k: nat)
    requires IsTable(rows) && j < k < |rows| && rows[j].pubKey == rows[k].pubKey
    ensures Before(rows[j].height, rows[j].index, rows[k].height, rows[k].index)
  {
    hide BigEndian, Less;
    assert Less(Encode(rows[j]), Encode(rows[k])) && IsRow(rows[j]) && IsRow(rows[k]);
    KeyOrder(rows[j].pubKey, rows[j].height, rows[j].index, rows[k].height, rows[k].index);
  }

  /** Resuming one index past the last place of a page gives just the rows the page left out. */
  lemma ResumeAfter(rows: seq<Row>, pubKey: Key, lo: Place, hi: Place, n: nat)
    requires IsTable(rows) && |pubKey| == KEY_SIZE && IsPlace(lo) && IsPlace(hi)
    requires 0 < n <= |Range(rows, pubKey, lo, hi)|
    ensures var hits := Range(rows, pubKey, lo, hi);
      IsRow(hits[n - 1]) && Range(rows, pubKey, Place(hits[n - 1].height, hits[n - 1].index + 1), hi) == hits[n..]
  {
    hide Less, Encode, Range, Lower, IndexKey, IsPlace;
    var start, limit := IndexKey(pubKey, lo.height, lo.index), IndexKey(pubKey, hi.height, hi.index);
    RangeIsScan(rows, pubKey, lo, hi, start, limit);
    var a, b := Lower(rows, start), Lower(rows, limit);
    var last := rows[a + n - 1];
    assert IsRow(last) && Wanted(last, pubKey, lo, hi);
    var next := Place(last.height, last.index + 1);
    forall k | 0 <= k < |rows| ensures Wanted(rows[k], pubKey, next, hi) <==> a + n <= k < b {
      assert Wanted(rows[k], pubKey, lo, hi) <==> a <= k < b;
      if rows[k].pubKey == pubKey {
        if k < a + n - 1 {
          RowsInOrder(rows, k, a + n - 1);
        } else if k > a + n - 1 {
          RowsInOrder(rows, a + n - 1, k);
        }
      }
    }
    RangeBlock(rows, pubKey, next, hi, a + n, b);
  }

  function IDsAt(hits: seq<Row>, heights: map<int, nat>): seq<nat>
    requires forall k :: 0 <= k < |hits| ==> hits[k].height in heights
  {
    seq(|hits|, k requires 0 <= k < |hits| => heights[hits[k].height])
  }

  function IndicesAt(hits: seq<Row>): seq<nat> { seq(|hits|, k requires 0 <= k < |hits| => hits[k].index) }

  /** One page, and where the next one starts. */
  method FetchPage(rows: seq<Row>, heights: map<int, nat>, pubKey: Key, startHeight: nat, endHeight: nat,
                   startIndex: nat, limit: nat, ghost hits: seq<Row>)
    returns (ids: seq<nat>, indices: seq<nat>, stopHeight: nat, stopIndex: nat)
    requires IsTable(rows) && |pubKey| == KEY_SIZE && limit > 0
    requires startHeight < MAX_INT64 && endHeight < MAX_INT64 && startIndex <= MAX_INT32
    requires hits == Range(rows, pubKey, Place(startHeight, startIndex), Place(endHeight + 1, 0))
    requires forall k :: 0 <= k < |hits| ==> hits[k].height in heights
    ensures |ids| == |indices| == (if |hits| < limit then |hits| else limit)
    ensures ids == IDsAt(hits[..|ids|], heights) && indices == IndicesAt(hits[..|ids|])
    ensures |ids| == limit ==> stopHeight < MAX_INT64 && stopIndex < MAX_INT32
    ensures |ids| == limit ==> Range(rows, pubKey, Place(stopHeight, stopIndex + 1), Place(endHeight + 1, 0)) == hits[limit..]
  {
    hide Range, IsTable, IsRow, PageOf;
    var page := RangeForward(rows, heights, pubKey, startHeight, endHeight, startIndex, limit);
    PageOfSays(Take(hits, limit), heights);
    assert Take(hits, limit) == hits[..|page.ids|];
    if |page.ids| == limit {
      ResumeAfter(rows, pubKey, Place(startHeight, startIndex), Place(endHeight + 1, 0), limit);
      IsRowBounds(hits[limit - 1]);
    }
    return page.ids, page.indices, page.lastHeight, page.lastIndex;
  }

  lemma PagesJoin(hits: seq<Row>, n: nat, m: nat, heights: map<int, nat>)
    requires n + m <= |hits| && forall k :: 0 <= k < |hits| ==> hits[k].height in heights
    ensures IDsAt(hits[..n + m], heights) == IDsAt(hits[..n], heights) + IDsAt(hits[n..][..m], heights)
    ensures IndicesAt(hits[..n + m]) == IndicesAt(hits[..n]) + IndicesAt(hits[n..][..m])
    ensures hits[n..][m..] == hits[n + m..] && hits[..|hits|] == hits
  {
  }

  /** Fetch page after page, as a client does; together the pages are the whole range, in order, nothing twice. */
  method AllPages(rows: seq<Row>, heights: map<int, nat>, pubKey: Key, startHeight: nat, endHeight: nat, limit: nat)
    returns (ids: seq<nat>, indices: seq<nat>)
    requires IsTable(rows) && |pubKey| == KEY_SIZE && startHeight < MAX_INT64 && endHeight < MAX_INT64 && limit > 0
    requires forall k :: 0 <= k < |rows| ==> rows[k].height in heights
    ensures var hits := Range(rows, pubKey, Place(startHeight, 0), Place(endHeight + 1, 0));
      (forall k :: 0 <= k < |hits| ==> hits[k].height in heights)
      && ids == IDsAt(hits, heights) && indices == IndicesAt(hits)
  {
    hide Range, IsTable, IsRow, PageOf, IDsAt, IndicesAt;
    ghost var hi := Place(endHeight + 1, 0);
    ghost var hits := Range(rows, pubKey, Place(startHeight, 0), hi);
    RangeHeights(rows, heights, pubKey, Place(startHeight, 0), hi);
    PagesStart(hits, heights);
    ids, indices := [], [];
    ghost var n: nat := 0;
    var height: nat, index: nat, more: bool := startHeight, 0, true;
    while more
      invariant n <= |hits| && height < MAX_INT64 && index <= MAX_INT32
      invariant ids == IDsAt(hits[..n], heights) && indices == IndicesAt(hits[..n])
      invariant if more then Range(rows, pubKey, Place(height, index), hi) == hits[n..] else n == |hits|
      decreases more, |hits| - n
    {
      var pageIDs, pageIndices, stopHeight, stopIndex :=
        FetchPage(rows, heights, pubKey, height, endHeight, index, limit, hits[n..]);
      PagesJoin(hits, n, |pageIDs|, heights);
      ids, indices := ids + pageIDs, indices + pageIndices;
      more := |pageIndices| >= limit;
      if more {
        height, index := stopHeight, stopIndex + 1;
      }
      n := n + |pageIDs|;
    }
    assert hits[..|hits|] == hits;
  }

  lemma PagesStart(hits: seq<Row>, heights: map<int, nat>)
    ensures hits[..0] == [] && hits[0..] == hits && IDsAt([], heights) == [] && IndicesAt([]) == []
  {
  }

  lemma IsRowBounds(r: Row)
    requires IsRow(r)
    ensures r.height < MAX_INT64 && r.index < MAX_INT32
  {
  }

  lemma {:induction false} RangeHeights(rows: seq<Row>, heights: map<int, nat>, pubKey: Key, lo: Place, hi: Place)
    requires forall k :: 0 <= k < |rows| ==> rows[k].height in heights
    ensures forall k :: 0 <= k < |Range(rows, pubKey, lo, hi)| ==> Range(rows, pubKey, lo, hi)[k].height in heights
  {
    hide Wanted;
    if rows == [] {
    } else {
      RangeHeights(rows[1..], heights, pubKey, lo, hi);
    }
  }
}
