/** How each table of the ledger moves when the chain grows or shrinks by one count. */
module Replay {
  import opened Considerations
  import opened Balances
  import opened Chain

  type Index = map<ConsiderationID, Position>

  /** Index rows for the first `n` considerations of a count, later ones overwriting earlier ones. */
  function PutIDs(m: Index, cns: seq<Consideration>, height: int, n: nat): Index
    requires n <= |cns|
  {
    if n == 0 then m else PutIDs(m, cns, height, n - 1)[cns[n - 1].ID() := Position(height, n - 1)]
  }

  /** `r` is `m` with rows for the first `n` considerations. */
  ghost predicate AddsRows(m: Index, r: Index, cns: seq<Consideration>, height: int, n: nat)
    requires n <= |cns|
  {
    && r.Keys == m.Keys + IDsBetween(cns, 0, n)
    && (forall i :: 0 <= i < n ==> cns[i].ID() in r && r[cns[i].ID()] == Position(height, i))
    && (forall id :: id in m && id !in IDsBetween(cns, 0, n) ==> r[id] == m[id])
  }

  lemma {:induction false} PutIDsEffect(m: Index, count: Count, height: int, n: nat)
    requires WellFormed(count) && n <= |count.considerations|
    ensures AddsRows(m, PutIDs(m, count.considerations, height, n), count.considerations, height, n)
  {
    hide AddsRows, WellFormed, IDsBetween;
    var cns := count.considerations;
    if n > 0 {
      DistinctIDs(count);
      PutIDsEffect(m, count, height, n - 1);
      AddsRowsMore(m, PutIDs(m, cns, height, n - 1), cns, height, n - 1);
    } else {
      AddsNoRows(m, cns, height);
    }
  }

  lemma AddsNoRows(m: Index, cns: seq<Consideration>, height: int)
    ensures AddsRows(m, m, cns, height, 0)
  {
  }

  lemma AddsRowsMore(m: Index, r: Index, cns: seq<Consideration>, height: int, n: nat)
    requires n < |cns| && AddsRows(m, r, cns, height, n)
    requires forall i :: 0 <= i < n ==> cns[i].ID() != cns[n].ID()
    ensures AddsRows(m, r[cns[n].ID() := Position(height, n)], cns, height, n + 1)
  {
    assert IDsBetween(cns, 0, n + 1) == IDsBetween(cns, 0, n) + {cns[n].ID()};
  }

  // ----- the consideration index

  lemma IndexedIDsPush(chain: Blocks, b: Block, lo: nat)
    requires lo <= |chain|
    ensures IndexedIDs(chain + [b], lo) == IndexedIDs(chain, lo) + IDsOf(b.count)
  {
    var c := chain + [b];
    forall id | id in IndexedIDs(chain, lo) ensures id in IndexedIDs(c, lo) {
      var h, i := Locate(chain, lo, id);
      assert c[h] == chain[h];
    }
    forall id | id in IDsOf(b.count) ensures id in IndexedIDs(c, lo) {
      assert c[|chain|] == b;
    }
    forall id | id in IndexedIDs(c, lo) ensures id in IndexedIDs(chain, lo) + IDsOf(b.count) {
      var h, i := Locate(c, lo, id);
      if h < |chain| {
        assert c[h] == chain[h];
      }
    }
  }

  lemma IndexedIDsRaise(chain: Blocks, lo: nat)
    requires lo < |chain|
    ensures IndexedIDs(chain, lo) == IndexedIDs(chain, lo + 1) + IDsOf(chain[lo].count)
    ensures NoReplay(chain) ==> IndexedIDs(chain, lo + 1) !! IDsOf(chain[lo].count)
  {
    forall id | id in IndexedIDs(chain, lo)
      ensures id in IndexedIDs(chain, lo + 1) + IDsOf(chain[lo].count)
    {
      var h, i := Locate(chain, lo, id);
    }
    if NoReplay(chain) {
      forall id | id in IndexedIDs(chain, lo + 1) ensures id !in IDsOf(chain[lo].count) {
        var h, i := Locate(chain, lo + 1, id);
        assert forall j :: IsAt(chain, lo, j) ==> At(chain, lo, j).ID() != At(chain, h, i).ID();
        if j :| 0 <= j < |chain[lo].count.considerations| && chain[lo].count.considerations[j].ID() == id {
          assert IsAt(chain, lo, j);
        }
      }
    }
  }

  lemma IndexesPush(m: Index, chain: Blocks, lo: nat, b: Block)
    requires Indexes(m, chain, lo) && lo <= |chain| && WellFormed(b.count)
    requires IDsOf(b.count) !! IndexedIDs(chain, lo)
    ensures Indexes(PutIDs(m, b.count.considerations, |chain|, |b.count.considerations|), chain + [b], lo)
  {
    var c, cns := chain + [b], b.count.considerations;
    var m' := PutIDs(m, cns, |chain|, |cns|);
    PutIDsEffect(m, b.count, |chain|, |cns|);
    IndexedIDsPush(chain, b, lo);
    assert IDsBetween(cns, 0, |cns|) == IDsOf(b.count);
    forall h, i | lo <= h && IsAt(c, h, i) ensures At(c, h, i).ID() in m' && m'[At(c, h, i).ID()] == Position(h, i) {
      if h < |chain| {
        assert IsAt(chain, h, i) && At(chain, h, i) == At(c, h, i);
        assert At(chain, h, i).ID() in IndexedIDs(chain, lo);
      }
    }
  }

  lemma IndexesPop(m: Index, chain: Blocks, lo: nat)
    requires chain != [] && Indexes(m, chain, lo) && lo < |chain| && NoReplay(chain)
    ensures Indexes(m - IDsOf(Last(chain).count), Init(chain), lo)
  {
    var c := Init(chain);
    assert chain == c + [Last(chain)];
    IndexedIDsPush(c, Last(chain), lo);
    forall h, i | lo <= h && IsAt(c, h, i)
      ensures IsAt(chain, h, i) && At(c, h, i) == At(chain, h, i) && At(c, h, i).ID() !in IDsOf(Last(chain).count)
    {
      assert IsAt(chain, h, i);
      assert forall j :: IsAt(chain, |c|, j) ==> At(chain, |c|, j).ID() != At(chain, h, i).ID();
      if j :| 0 <= j < |Last(chain).count.considerations| && Last(chain).count.considerations[j].ID() == At(c, h, i).ID() {
        assert IsAt(chain, |c|, j);
      }
    }
    forall id | id in IndexedIDs(c, lo) ensures id !in IDsOf(Last(chain).count) {
      var h, i := Locate(c, lo, id);
    }
  }

  lemma IndexesRaise(m: Index, chain: Blocks, lo: nat)
    requires Indexes(m, chain, lo) && lo < |chain| && NoReplay(chain)
    ensures Indexes(m - IDsOf(chain[lo].count), chain, lo + 1)
  {
    IndexedIDsRaise(chain, lo);
    forall h, i | lo + 1 <= h && IsAt(chain, h, i) ensures At(chain, h, i).ID() !in IDsOf(chain[lo].count) {
      assert At(chain, h, i).ID() in IndexedIDs(chain, lo + 1);
    }
  }

  lemma IndexesLower(m: Index, chain: Blocks, lo: nat)
    requires lo < |chain| && Indexes(m, chain, lo + 1) && NoReplay(chain) && WellFormed(chain[lo].count)
    ensures Indexes(PutIDs(m, chain[lo].count.considerations, lo, |chain[lo].count.considerations|), chain, lo)
  {
    var cns := chain[lo].count.considerations;
    IndexedIDsRaise(chain, lo);
    PutIDsEffect(m, chain[lo].count, lo, |cns|);
    assert IDsBetween(cns, 0, |cns|) == IDsOf(chain[lo].count);
    forall h, i | lo + 1 <= h && IsAt(chain, h, i) ensures At(chain, h, i).ID() !in IDsOf(chain[lo].count) {
      assert At(chain, h, i).ID() in IndexedIDs(chain, lo + 1);
    }
  }

  // ----- the per-key index

  lemma KeyRowsPush(chain: Blocks, b: Block, lo: nat)
    requires lo <= |chain|
    ensures KeyRows(chain + [b], lo) == KeyRows(chain, lo) + RowsOf(b.count, |chain|)
    ensures KeyRows(chain, lo) !! RowsOf(b.count, |chain|)
  {
    var c := chain + [b];
    assert forall h :: 0 <= h < |chain| ==> c[h] == chain[h];
    assert c[|chain|] == b;
  }

  lemma KeyRowsRaise(chain: Blocks, lo: nat)
    requires lo < |chain|
    ensures KeyRows(chain, lo) == KeyRows(chain, lo + 1) + RowsOf(chain[lo].count, lo)
    ensures KeyRows(chain, lo + 1) !! RowsOf(chain[lo].count, lo)
  {
  }

  lemma HeightsPush(chain: Blocks, b: Block)
    ensures Heights(chain + [b]) == Heights(chain)[|chain| := b.id]
    ensures Heights(chain + [b]) - {|chain|} == Heights(chain)
  {
    var c := chain + [b];
    assert forall h :: 0 <= h < |chain| ==> c[h] == chain[h];
  }

  // ----- one count connected or disconnected

  predicate Prunes(chain: Blocks, prune: bool) { prune && |chain| >= PRUNE_WINDOW }

  /** The batch that connecting `b` on top of `chain` writes. */
  function Connected(t: Tables, chain: Blocks, b: Block, prune: bool): Tables
    requires AllWellFormed(chain) && WellFormed(b.count)
  {
    var cns := b.count.considerations;
    var ids := PutIDs(t.cnIndex, cns, |chain|, |cns|);
    var rows := t.keyIndex + RowsOf(b.count, |chain|);
    var balances := MoveAll(t.balances, Effects(chain, b.count));
    var heights, branch := t.heights[|chain| := b.id], t.branch[b.id := MAIN];
    if Prunes(chain, prune) then
      var lo := |chain| - PRUNE_WINDOW;
      Tables(Some(Tip(b.id, |chain|)), heights, ids - IDsOf(chain[lo].count), rows - RowsOf(chain[lo].count, lo), balances, branch)
    else
      Tables(Some(Tip(b.id, |chain|)), heights, ids, rows, balances, branch)
  }

  /** The batch that disconnecting the last count of `chain` writes, given the balances it restores. */
  function Disconnected(t: Tables, chain: Blocks, prune: bool, balances: Table): Tables
    requires chain != []
  {
    var b, below := Last(chain), Init(chain);
    var ids, rows := t.cnIndex - IDsOf(b.count), t.keyIndex - RowsOf(b.count, |below|);
    var tip := Some(Tip(b.count.header.previous, |below| - 1));
    var heights, branch := t.heights - {|below|}, t.branch[b.id := SIDE];
    if Prunes(below, prune) then
      var lo := |below| - PRUNE_WINDOW;
      var revived := chain[lo].count;
      Tables(tip, heights, PutIDs(ids, revived.considerations, lo, |revived.considerations|), rows + RowsOf(revived, lo), balances, branch)
    else
      Tables(tip, heights, ids, rows, balances, branch)
  }

  lemma SoundPush(chain: Blocks, b: Block, prune: bool)
    requires Sound(chain, prune) && Extends(chain, b, prune)
    ensures Sound(chain + [b], prune) && NoReplay(chain + [b])
  {
    hide Covered, BalancesOf, NoReplay;
    var c := chain + [b];
    assert c[..|chain|] == chain;
    forall h | 0 <= h < |c| ensures Extends(c[..h], c[h], prune) {
      if h < |chain| {
        assert c[..h] == chain[..h] && c[h] == chain[h];
      }
    }
    SoundNoReplay(c, prune);
  }

  lemma ConnectIndexes(t: Tables, chain: Blocks, b: Block, prune: bool)
    requires AllWellFormed(chain) && WellFormed(b.count) && NoReplay(chain + [b])
    requires Indexes(t.cnIndex, chain, Lowest(|chain|, prune))
    requires IDsOf(b.count) !! IndexedIDs(chain, Lowest(|chain|, prune))
    ensures Indexes(Connected(t, chain, b, prune).cnIndex, chain + [b], Lowest(|chain| + 1, prune))
  {
    hide NoReplay, Indexes;
    var c, lo := chain + [b], Lowest(|chain|, prune);
    IndexesPush(t.cnIndex, chain, lo, b);
    if Prunes(chain, prune) {
      assert c[lo] == chain[lo];
      IndexesRaise(PutIDs(t.cnIndex, b.count.considerations, |chain|, |b.count.considerations|), c, lo);
    }
  }

  lemma ConnectKeyRows(t: Tables, chain: Blocks, b: Block, prune: bool)
    requires AllWellFormed(chain) && WellFormed(b.count)
    requires t.keyIndex == KeyRows(chain, Lowest(|chain|, prune))
    ensures Connected(t, chain, b, prune).keyIndex == KeyRows(chain + [b], Lowest(|chain| + 1, prune))
  {
    var c, lo := chain + [b], Lowest(|chain|, prune);
    KeyRowsPush(chain, b, lo);
    if Prunes(chain, prune) {
      assert c[lo] == chain[lo];
      KeyRowsRaise(c, lo);
    }
  }

  lemma BalancesPush(chain: Blocks, b: Block)
    requires AllWellFormed(chain) && WellFormed(b.count)
    ensures AllWellFormed(chain + [b])
    ensures BalancesOf(chain + [b]) == MoveAll(BalancesOf(chain), Effects(chain, b.count))
  {
    assert Init(chain + [b]) == chain;
  }

  lemma ConnectTables(t: Tables, chain: Blocks, b: Block, prune: bool)
    requires AllWellFormed(chain) && WellFormed(b.count) && Represents(t, chain, prune)
    requires NoReplay(chain + [b]) && IDsOf(b.count) !! IndexedIDs(chain, Lowest(|chain|, prune))
    ensures AllWellFormed(chain + [b]) && Represents(Connected(t, chain, b, prune), chain + [b], prune)
  {
    hide NoReplay, MoveAll, PutIDs;
    BalancesPush(chain, b);
    HeightsPush(chain, b);
    ConnectKeyRows(t, chain, b, prune);
    ConnectIndexes(t, chain, b, prune);
  }

  lemma ConnectRepresents(t: Tables, chain: Blocks, b: Block, prune: bool)
    requires Sound(chain, prune) && Represents(t, chain, prune) && Extends(chain, b, prune)
    ensures Sound(chain + [b], prune) && Represents(Connected(t, chain, b, prune), chain + [b], prune)
  {
    hide Covered, BalancesOf, Represents, NoReplay;
    SoundPush(chain, b, prune);
    ConnectTables(t, chain, b, prune);
  }

  lemma DisconnectIndexes(t: Tables, chain: Blocks, prune: bool, balances: Table)
    requires chain != [] && AllWellFormed(chain) && NoReplay(chain) && NoReplay(Init(chain))
    requires Indexes(t.cnIndex, chain, Lowest(|chain|, prune))
    ensures Indexes(Disconnected(t, chain, prune, balances).cnIndex, Init(chain), Lowest(|chain| - 1, prune))
  {
    hide NoReplay, Indexes;
    var below, lo := Init(chain), Lowest(|chain|, prune);
    IndexesPop(t.cnIndex, chain, lo);
    if Prunes(below, prune) {
      assert below[lo - 1] == chain[lo - 1];
      IndexesLower(t.cnIndex - IDsOf(Last(chain).count), below, lo - 1);
    }
  }

  lemma DisconnectKeyRows(t: Tables, chain: Blocks, prune: bool, balances: Table)
    requires chain != []
    requires t.keyIndex == KeyRows(chain, Lowest(|chain|, prune))
    ensures Disconnected(t, chain, prune, balances).keyIndex == KeyRows(Init(chain), Lowest(|chain| - 1, prune))
  {
    var below, lo := Init(chain), Lowest(|chain|, prune);
    assert chain == below + [Last(chain)];
    KeyRowsPush(below, Last(chain), lo);
    if Prunes(below, prune) {
      assert below[lo - 1] == chain[lo - 1];
      KeyRowsRaise(below, lo - 1);
    }
  }

  lemma DisconnectTipHeights(t: Tables, chain: Blocks, prune: bool, balances: Table)
    requires |chain| >= 2 && t.heights == Heights(chain)
    requires Last(chain).count.header.previous == Last(Init(chain)).id
    ensures Disconnected(t, chain, prune, balances).heights == Heights(Init(chain))
    ensures Disconnected(t, chain, prune, balances).tip == TipOf(Init(chain))
  {
    assert chain == Init(chain) + [Last(chain)];
    HeightsPush(Init(chain), Last(chain));
  }

  lemma DisconnectTables(t: Tables, chain: Blocks, prune: bool)
    requires |chain| >= 2 && AllWellFormed(chain) && AllWellFormed(Init(chain)) && Represents(t, chain, prune)
    requires NoReplay(chain) && NoReplay(Init(chain)) && Last(chain).count.header.previous == Last(Init(chain)).id
    ensures Represents(Disconnected(t, chain, prune, BalancesOf(Init(chain))), Init(chain), prune)
  {
    hide NoReplay, PutIDs, BalancesOf;
    DisconnectTipHeights(t, chain, prune, BalancesOf(Init(chain)));
    DisconnectIndexes(t, chain, prune, BalancesOf(Init(chain)));
    DisconnectKeyRows(t, chain, prune, BalancesOf(Init(chain)));
  }

  lemma DisconnectRepresents(t: Tables, chain: Blocks, prune: bool)
    requires Sound(chain, prune) && |chain| >= 2 && Represents(t, chain, prune)
    ensures Sound(Init(chain), prune)
    ensures Represents(Disconnected(t, chain, prune, BalancesOf(Init(chain))), Init(chain), prune)
  {
    hide Covered, BalancesOf, Represents, NoReplay;
    SoundPrefix(chain, prune, |chain| - 1);
    SoundNoReplay(chain, prune);
    SoundNoReplay(Init(chain), prune);
    assert Extends(Init(chain), Last(chain), prune);
    DisconnectTables(t, chain, prune);
  }

  /** Disconnecting undoes connecting: every table but the branch types is what it was. */
  lemma DisconnectUndoesConnect(t: Tables, chain: Blocks, b: Block, prune: bool)
    requires chain != [] && Sound(chain, prune) && Represents(t, chain, prune) && Extends(chain, b, prune)
    ensures Disconnected(Connected(t, chain, b, prune), chain + [b], prune, t.balances).(branch := t.branch) == t
  {
    hide Covered, MoveAll, PutIDs, Sound, Extends;
    assert AllWellFormed(chain) && WellFormed(b.count) by { SoundHasWellFormed(chain, b, prune); }
    ConnectRepresents(t, chain, b, prune);
    DisconnectRepresents(Connected(t, chain, b, prune), chain + [b], prune);
    assert Init(chain + [b]) == chain;
    RepresentsUnique(Disconnected(Connected(t, chain, b, prune), chain + [b], prune, t.balances), t, chain, prune);
  }

  lemma SoundHasWellFormed(chain: Blocks, b: Block, prune: bool)
    requires Sound(chain, prune) && Extends(chain, b, prune)
    ensures AllWellFormed(chain) && WellFormed(b.count)
  {
  }
}
