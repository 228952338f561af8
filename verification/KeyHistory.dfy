/** What a scan of the per-key index returns, in terms of the chain the ledger represents. */
module KeyHistory {
  import opened Considerations
  import opened Chain
  import opened Bytes
  import opened RangeQuery

  function ByteOf(b: bv8): Byte { b as int }

  function BytesOf(k: PublicKey): Key { seq(|k.bytes|, i requires 0 <= i < |k.bytes| => ByteOf(k.bytes[i])) }

  lemma BytesAreDistinct(b: bv8, c: bv8)
    ensures ByteOf(b) == ByteOf(c) <==> b == c
  {
    assert (b as int) as bv8 == b && (c as int) as bv8 == c;
  }

  lemma BytesTellApart(k: PublicKey, l: PublicKey)
    ensures BytesOf(k) == BytesOf(l) <==> k == l
  {
    hide ByteOf;
    if BytesOf(k) == BytesOf(l) {
      assert |k.bytes| == |BytesOf(k)| == |l.bytes|;
      forall i | 0 <= i < |k.bytes| ensures k.bytes[i] == l.bytes[i] {
        assert BytesOf(k)[i] == ByteOf(k.bytes[i]) && BytesOf(l)[i] == ByteOf(l.bytes[i]);
        BytesAreDistinct(k.bytes[i], l.bytes[i]);
      }
      assert k.bytes == l.bytes;
    }
  }

  predicate IsRowOf(r: Row, k: KeyRow) { r.pubKey == BytesOf(k.key) && r.height == k.height && r.index == k.index }

  ghost predicate HasRow(index: set<KeyRow>, r: Row) { exists k :: k in index && IsRowOf(r, k) }

  /** A snapshot of the index of a ledger, in the order of its keys. */
  ghost predicate Tabulates(rows: seq<Row>, index: set<KeyRow>)
  {
    IsTable(rows) && forall r {:trigger HasRow(index, r)} :: r in rows <==> HasRow(index, r)
  }

  lemma {:induction false} RangeMembers(rows: seq<Row>, pubKey: Key, lo: Place, hi: Place, r: Row)
    ensures r in Range(rows, pubKey, lo, hi) <==> r in rows && Wanted(r, pubKey, lo, hi)
  {
    hide Wanted;
    if rows == [] {
    } else {
      RangeMembers(rows[1..], pubKey, lo, hi, r);
      assert rows == [rows[0]] + rows[1..];
    }
  }

  lemma RowIsAt(chain: Blocks, lo: nat, key: PublicKey, h: nat, i: nat)
    ensures HasRow(KeyRows(chain, lo), Row(BytesOf(key), h, i))
      <==> lo <= h && IsAt(chain, h, i) && At(chain, h, i).Involves(key)
  {
    hide BytesOf;
    var r := Row(BytesOf(key), h, i);
    if HasRow(KeyRows(chain, lo), r) {
      var k :| k in KeyRows(chain, lo) && IsRowOf(r, k);
      BytesTellApart(key, k.key);
    }
    if lo <= h && IsAt(chain, h, i) && At(chain, h, i).Involves(key) {
      assert key in Parties(chain[h].count.considerations[i]);
      assert KeyRow(key, h, i) in KeyRows(chain, lo) && IsRowOf(r, KeyRow(key, h, i));
    }
  }

  /** A scan meets exactly the indexed considerations of the chain that involve the key, between the two places. */
  lemma RangeIsHistory(rows: seq<Row>, chain: Blocks, lo: nat, key: PublicKey, from: Place, to: Place, h: nat, i: nat)
    requires Tabulates(rows, KeyRows(chain, lo))
    ensures Row(BytesOf(key), h, i) in Range(rows, BytesOf(key), from, to)
      <==> lo <= h && IsAt(chain, h, i) && At(chain, h, i).Involves(key)
           && !Before(h, i, from.height, from.index) && Before(h, i, to.height, to.index)
  {
    hide Range, BytesOf, IsTable, HasRow;
    var r := Row(BytesOf(key), h, i);
    RangeMembers(rows, BytesOf(key), from, to, r);
    RowIsAt(chain, lo, key, h, i);
    assert r in rows <==> HasRow(KeyRows(chain, lo), r);
  }

  /** On the tables of a chain no height is missing: a page always comes, and names the counts of the chain. */
  lemma NoHeightIsMissing(t: Tables, chain: Blocks, prune: bool, rows: seq<Row>, hits: seq<Row>)
    requires AllWellFormed(chain) && Represents(t, chain, prune) && Tabulates(rows, t.keyIndex)
    requires forall k :: 0 <= k < |hits| ==> hits[k] in rows
    ensures PageOf(hits, t.heights).Page? && |PageOf(hits, t.heights).ids| == |hits|
    ensures forall k :: 0 <= k < |hits| ==>
      hits[k].height < |chain| && PageOf(hits, t.heights).ids[k] == chain[hits[k].height].id
  {
    hide BytesOf, IsTable, BalancesOf, WellFormed, PageOf, Indexes;
    forall k | 0 <= k < |hits| ensures hits[k].height < |chain| {
      assert HasRow(t.keyIndex, hits[k]);
    }
    PageOfSays(hits, t.heights);
  }
}
