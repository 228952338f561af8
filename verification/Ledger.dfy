/** The on-disk ledger and the balance cache it shares with the consideration queue. */
module Ledger {
  import opened Considerations
  import opened Balances
  import opened Chain
  import opened Replay
  import opened History

  function Clamp(n: int, high: nat): nat { if n < 0 then 0 else if n > high then high else n }

  /** May value flow from the sender to the recipient, or is the sender a descendant of the recipient? */
  type Descends = (PublicKey, PublicKey) -> bool

  /** A counterpoint's sender is the graph's root node, which is never a descendant. */
  predicate SenderDescends(descends: Descends, cn: Consideration)
  {
    !cn.IsCounterPoint() && descends(cn.recipient, cn.sender.value)
  }

  predicate AdmitsFirst(descends: Descends, cns: seq<Consideration>, n: nat)
    requires n <= |cns|
  {
    forall i :: 0 <= i < n ==> !SenderDescends(descends, cns[i])
  }

  lemma AdmitsGrow(descends: Descends, cns: seq<Consideration>, i: nat)
    requires i < |cns|
    ensures AdmitsFirst(descends, cns, i + 1) <==> AdmitsFirst(descends, cns, i) && !SenderDescends(descends, cns[i])
    ensures AdmitsFirst(descends, cns, |cns|) ==> AdmitsFirst(descends, cns, i + 1)
  {
  }

  predicate Admits(descends: Descends, count: Count)
  {
    AdmitsFirst(descends, count.considerations, |count.considerations|)
  }

  datatype Stored = Stored(count: Count, when: int)

  function ListIDs(cns: seq<Consideration>): seq<ConsiderationID>
  {
    if cns == [] then [] else ListIDs(cns[..|cns| - 1]) + [cns[|cns| - 1].ID()]
  }

  lemma ListIDsEmpty(cns: seq<Consideration>)
    ensures ListIDs(cns[..0]) == []
  {
  }

  lemma ListIDsGrow(cns: seq<Consideration>, i: nat)
    requires i < |cns|
    ensures ListIDs(cns[..i + 1]) == ListIDs(cns[..i]) + [cns[i].ID()]
  {
    assert cns[..i + 1][..i] == cns[..i];
  }

  class CountStorage {
    var counts: map<CountID, Stored>

    constructor ()
      ensures counts == map[]
    {
      counts := map[];
    }
  }

  class ImbalanceCache {
    const ledger: LedgerDisk
    var cache: Table

    constructor (ledger: LedgerDisk)
      ensures this.ledger == ledger && cache == map[]
    {
      this.ledger := ledger;
      cache := map[];
    }

    /** The ledger's balances with the cached ones laid over them. */
    function View(): Table
      reads this, ledger
    {
      Overlay(ledger.t.balances, cache)
    }

    method Reset()
      modifies this`cache
      ensures cache == map[]
      ensures Canonical(ledger.t.balances) ==> View() == ledger.t.balances
    {
      cache := map[];
      if Canonical(ledger.t.balances) {
        OverlayEmpty(ledger.t.balances);
      }
    }

    method Lookup(k: PublicKey) returns (v: int)
      ensures v == Get(View(), k)
    {
      OverlayGet(ledger.t.balances, cache);
      if k in cache {
        v := cache[k];
      } else {
        v := ledger.GetPublicKeyImbalance(k);
      }
    }

    /** Debit the sender and credit the recipient, unless the sender's balance would go negative. */
    method Apply(cn: Consideration) returns (ok: bool)
      modifies this`cache
      ensures ok <==> CanPay(old(View()), cn)
      ensures View() == if ok then Move(old(View()), cn) else old(View())
      ensures cache == if ok then ApplyTo(ledger.t.balances, old(cache), cn) else old(cache)
    {
      if !cn.IsCounterPoint() {
        var senderImbalance := Lookup(cn.sender.value);
        if senderImbalance < 1 {
          return false;
        }
        OverlayPut(ledger.t.balances, cache, cn.sender.value, senderImbalance - 1);
        cache := cache[cn.sender.value := senderImbalance - 1];
      }
      var recipientImbalance := Lookup(cn.recipient);
      OverlayPut(ledger.t.balances, cache, cn.recipient, recipientImbalance + 1);
      cache := cache[cn.recipient := recipientImbalance + 1];
      return true;
    }

    method ApplyChecked(cn: Consideration, descends: Descends) returns (error: Option<Error>)
      modifies this`cache
      ensures error.None? <==> CanPay(old(View()), cn) && !SenderDescends(descends, cn)
      ensures error.None? ==> View() == Move(old(View()), cn)
    {
      var ok := Apply(cn);
      if !ok {
        return Some(InsufficientImbalance);
      }
      return if SenderDescends(descends, cn) then Some(Descendant) else None;
    }

    /** The first `n` considerations of a count have passed and are staged. */
    ghost predicate Progress(count: Count, matured: Option<Consideration>, descends: Descends, n: nat, batch: Tables)
      requires n <= |count.considerations|
      reads this, ledger
    {
      var cns, t := count.considerations, ledger.t;
      && batch == Staged(t, cns, count.header.height, n)
      && IDsBetween(cns, 0, n) !! t.cnIndex.Keys
      && AdmitsFirst(descends, cns, n)
      && Covered(t.balances, Applied(matured, count, n))
      && View() == MoveAll(t.balances, Applied(matured, count, n))
    }

    lemma ProgressStart(count: Count, matured: Option<Consideration>, descends: Descends)
      requires View() == ledger.t.balances
      ensures Progress(count, matured, descends, 0, ledger.t)
    {
      assert RowsBetween(count.considerations, count.header.height, 0, 0) == {};
    }

    lemma ProgressDone(count: Count, matured: Option<Consideration>, descends: Descends, batch: Tables)
      requires Progress(count, matured, descends, |count.considerations|, batch)
      ensures Passes(ledger.t, count, matured, descends)
      ensures batch == Staged(ledger.t, count.considerations, count.header.height, |count.considerations|)
      ensures Overlay(ledger.t.balances, cache) == MoveAll(ledger.t.balances, Applied(matured, count, |count.considerations|))
    {
    }

    /** One round of ConnectCount's loop: check a consideration, stage its rows and apply it. */
    method ApplyNth(count: Count, matured: Option<Consideration>, descends: Descends, i: nat, batch: Tables)
      returns (r: Result<Tables>)
      requires WellFormed(count) && i < |count.considerations|
      requires matured.Some? ==> matured.value.IsCounterPoint()
      requires Progress(count, matured, descends, i, batch)
      modifies this`cache
      ensures r.Ok? ==> Progress(count, matured, descends, i + 1, r.value)
      ensures r.Err? ==> !Passes(ledger.t, count, matured, descends)
    {
      hide Covered, MoveAll, PutIDs, CanPay, Move, AdmitsFirst, Staged, Applied, View;
      var cns, h, t := count.considerations, count.header.height, ledger.t;
      var cn := cns[i];
      IDsGrow(cns, i);
      if cn.ID() in t.cnIndex {
        assert cn.ID() in IDsOf(count);
        return Err(AlreadyProcessed);
      }
      StagedStep(t, cns, h, i);
      AdmitsGrow(descends, cns, i);
      AppliedStep(matured, count, i);
      AppliedPrefix(t.balances, matured, count, i + 1);
      var cnToApply := if cn.IsCounterPoint() then matured else Some(cn);
      if cnToApply.Some? {
        MoveAllPush(t.balances, Applied(matured, count, i), cnToApply.value);
        var error := ApplyChecked(cnToApply.value, descends);
        if error.Some? {
          return Err(error.value);
        }
      }
      return Ok(Stage(batch, cn, h, i));
    }

    /** ConnectCount's loop, reading the tables as they were before the count. */
    method ApplyCount(count: Count, matured: Option<Consideration>, descends: Descends)
      returns (r: Result<(seq<ConsiderationID>, Tables)>)
      requires WellFormed(count) && View() == ledger.t.balances
      requires matured.Some? ==> matured.value.IsCounterPoint()
      modifies this`cache
      ensures r.Ok? ==> r.value.0 == ListIDs(count.considerations)
      ensures r.Ok? ==> Progress(count, matured, descends, |count.considerations|, r.value.1)
      ensures r.Err? ==> !Passes(ledger.t, count, matured, descends)
    {
      hide *;
      var cns := count.considerations;
      var batch := ledger.t;
      ProgressStart(count, matured, descends);
      ListIDsEmpty(cns);
      var cnIDs: seq<ConsiderationID> := [];
      for i := 0 to |cns|
        invariant Progress(count, matured, descends, i, batch)
        invariant cnIDs == ListIDs(cns[..i])
      {
        ListIDsGrow(cns, i);
        cnIDs := cnIDs + [cns[i].ID()];
        var step := ApplyNth(count, matured, descends, i, batch);
        if step.Err? {
          return Err(step.error);
        }
        batch := step.value;
      }
      assert cns[..|cns|] == cns;
      return Ok((cnIDs, batch));
    }

    lemma ViewIsOverlay()
      ensures View() == Overlay(ledger.t.balances, cache)
    {
    }

    /** Credit the sender and debit the recipient; the precondition is that the code does not panic. */
    method Undo(cn: Consideration)
      requires Get(View(), cn.recipient) + (if cn.sender == Some(cn.recipient) then 1 else 0) >= 1
      modifies this`cache
      ensures View() == Unmove(old(View()), cn)
    {
      if !cn.IsCounterPoint() {
        var senderImbalance := Lookup(cn.sender.value);
        OverlayPut(ledger.t.balances, cache, cn.sender.value, senderImbalance + 1);
        cache := cache[cn.sender.value := senderImbalance + 1];
      }
      var recipientImbalance := Lookup(cn.recipient);
      assert recipientImbalance >= 1;
      OverlayPut(ledger.t.balances, cache, cn.recipient, recipientImbalance - 1);
      cache := cache[cn.recipient := recipientImbalance - 1];
    }

    /** DisconnectCount's loop undoes the considerations from last to first, back to the balances `base`. */
    method UndoCount(count: Count, matured: Option<Consideration>, ghost base: Table)
      returns (cnIDs: seq<ConsiderationID>, batch: Tables)
      requires WellFormed(count) && (matured.Some? ==> matured.value.IsCounterPoint())
      requires Positive(base) && Covered(base, Applied(matured, count, |count.considerations|))
      requires View() == MoveAll(base, Applied(matured, count, |count.considerations|))
      modifies this`cache
      ensures View() == base && cnIDs == ListIDs(count.considerations)
      ensures batch == ledger.t.(cnIndex := ledger.t.cnIndex - IDsOf(count),
                                 keyIndex := ledger.t.keyIndex - RowsOf(count, count.header.height))
    {
      hide Covered, MoveAll, Applied, View, Positive, ListIDs, Move, Unmove, Unstage;
      var cns, h := count.considerations, count.header.height;
      batch := ledger.t;
      cnIDs := [];
      var i := |cns|;
      assert cns[..i] == cns;
      while i > 0
        invariant 0 <= i <= |cns|
        invariant View() == MoveAll(base, Applied(matured, count, i))
        invariant ListIDs(cns[..i]) + cnIDs == ListIDs(cns)
        invariant batch == ledger.t.(cnIndex := ledger.t.cnIndex - IDsBetween(cns, i, |cns|),
                                     keyIndex := ledger.t.keyIndex - RowsBetween(cns, h, i, |cns|))
      {
        i := i - 1;
        var cn := cns[i];
        ListIDsGrow(cns, i);
        cnIDs := [cn.ID()] + cnIDs;
        UnstageStep(ledger.t, cns, h, i);
        batch := Unstage(batch, cn, h, i);
        AppliedStep(matured, count, i);
        var cnToUndo := if cn.IsCounterPoint() then matured else Some(cn);
        if cnToUndo.Some? {
          UndoReady(base, matured, count, i, cnToUndo.value);
          Undo(cnToUndo.value);
        }
      }
      ListIDsEmpty(cns);
      AppliedNone(base, matured, count);
    }
  }

  class LedgerDisk {
    const store: CountStorage
    const prune: bool
    var t: Tables
    ghost var chain: Blocks

    constructor (store: CountStorage, prune: bool)
      ensures this.store == store && this.prune == prune && Valid() && chain == []
      ensures t.branch == map[]
    {
      this.store := store;
      this.prune := prune;
      t := Tables(None, map[], map[], {}, map[], map[]);
      chain := [];
    }

    /** The tables are what replaying the main chain leaves, and storage holds that chain. */
    ghost predicate Valid()
      reads this, store
    {
      && Sound(chain, prune)
      && Represents(t, chain, prune)
      && forall h :: 0 <= h < |chain| ==> Holds(chain[h])
    }

    ghost predicate Holds(b: Block)
      reads store
    {
      b.id in store.counts && store.counts[b.id].count == b.count
    }

    method GetPublicKeyImbalance(k: PublicKey) returns (v: int)
      ensures v == Get(t.balances, k)
    {
      v := if k in t.balances then t.balances[k] else 0;
    }

    method GetCountIDForHeight(height: int) returns (id: Option<CountID>)
      requires Valid()
      ensures id == if 0 <= height < |chain| then Some(chain[height].id) else None
    {
      id := if height in t.heights then Some(t.heights[height]) else None;
    }

    method SetBranchType(id: CountID, branchType: BranchType)
      requires Valid()
      modifies this`t
      ensures Valid() && t == old(t).(branch := old(t).branch[id := branchType])
    {
      t := t.(branch := t.branch[id := branchType]);
    }

    /** The counterpoint of the count 100 below `height`, if there is one; it is never missing. */
    method MaturedAt(height: int) returns (r: Option<Consideration>)
      requires Valid() && 0 <= height <= |chain|
      ensures AllWellFormed(chain[..height]) && r == Matured(chain[..height])
    {
      hide Extends, Covered, BalancesOf, Indexes, KeyRows, NoReplay;
      if height - COUNTERPOINT_MATURITY < 0 {
        return None;
      }
      var oldID := GetCountIDForHeight(height - COUNTERPOINT_MATURITY);
      assert Holds(chain[height - COUNTERPOINT_MATURITY]);
      assert oldID.Some? && oldID.value in store.counts;
      return Some(store.counts[oldID.value].count.considerations[0]);
    }

    /** The count at `height` of the main chain; it is never missing. */
    method CountAt(height: nat) returns (count: Count)
      requires Valid() && height < |chain|
      ensures count == chain[height].count && count.header.height == height
    {
      hide Covered, BalancesOf, Indexes, KeyRows, NoReplay;
      var id := GetCountIDForHeight(height);
      assert Holds(chain[height]);
      assert id.Some? && id.value in store.counts;
      assert Extends(chain[..height], chain[height], prune);
      count := store.counts[id.value].count;
    }

    /** Remove the indices of the count at `height` from the batch. */
    method PruneIndices(height: nat, batch: Tables) returns (r: Tables)
      requires Valid() && height < |chain|
      ensures r == batch.(cnIndex := batch.cnIndex - IDsOf(chain[height].count),
                          keyIndex := batch.keyIndex - RowsOf(chain[height].count, height))
    {
      hide Valid;
      var count := CountAt(height);
      r := DeleteIndices(count, batch);
    }

    /** Put the indices of the count at `height` back into the batch. */
    method RestoreIndices(height: nat, batch: Tables) returns (r: Tables)
      requires Valid() && height < |chain|
      ensures var cns := chain[height].count.considerations; r == Staged(batch, cns, height, |cns|)
    {
      hide Valid;
      var count := CountAt(height);
      r := PutIndices(count, batch);
    }

    /** Connect a count to the tip: all of its effects are written at once, or none is. */
    method ConnectCount(id: CountID, count: Count, descends: Descends) returns (r: Result<seq<ConsiderationID>>)
      requires Valid() && WellFormed(count) && count.header.height == |chain| && Holds(Block(id, count))
      requires AllCheckSeries(count, |chain|)
      modifies this
      ensures Valid()
      ensures r.Ok? <==> Extends(old(chain), Block(id, count), prune) && Admits(descends, count)
      ensures r.Ok? ==> chain == old(chain) + [Block(id, count)] && t.branch == old(t.branch)[id := MAIN]
      ensures r.Ok? ==> r.value == ListIDs(count.considerations)
      ensures r.Err? ==> t == old(t) && chain == old(chain)
    {
      hide *;
      ConnectFacts(Block(id, count), descends);
      if t.tip.Some? && t.tip.value.id != count.header.previous {
        return Err(TipMismatch);
      }
      var cache := new ImbalanceCache(this);
      cache.Reset();
      var matured := MaturedAt(count.header.height);
      var staged := cache.ApplyCount(count, matured, descends);
      if staged.Err? {
        return Err(staged.error);
      }
      var (cnIDs, batch) := staged.value;
      cache.ProgressDone(count, matured, descends, batch);
      var balances := WriteBalances(t.balances, cache.cache);
      FinishConnect(id, count, batch.(balances := balances));
      return Ok(cnIDs);
    }

    /** The rest of ConnectCount's batch, and the write, for a count that passed every check. */
    method FinishConnect(id: CountID, count: Count, staged: Tables)
      requires Valid() && Holds(Block(id, count)) && Extends(chain, Block(id, count), prune)
      requires var cns := count.considerations;
        staged == Staged(t, cns, |chain|, |cns|).(balances := MoveAll(t.balances, Effects(chain, count)))
      modifies this
      ensures Valid() && chain == old(chain) + [Block(id, count)] && t.branch == old(t.branch)[id := MAIN]
    {
      hide Represents, Covered, MoveAll, BalancesOf, PutIDs, WellFormed;
      var h := count.header.height;
      var batch := staged.(heights := staged.heights[h := id],
                           branch := staged.branch[id := MAIN], tip := Some(Tip(id, h)));
      if prune && h >= PRUNE_WINDOW {
        batch := PruneIndices(h - PRUNE_WINDOW, batch);
      }
      ConnectRepresents(t, chain, Block(id, count), prune);
      assert batch == Connected(t, chain, Block(id, count), prune);
      t := batch;
      chain := chain + [Block(id, count)];
    }

    /** Disconnect the tip, undoing the effects of its considerations; the genesis count is never asked for. */
    method DisconnectCount(id: CountID, count: Count) returns (r: Result<seq<ConsiderationID>>)
      requires Valid() && Holds(Block(id, count)) && count.header.height > 0
      modifies this
      ensures Valid()
      ensures r.Ok? <==> old(chain) != [] && Last(old(chain)).id == id
      ensures r.Ok? ==> chain == Init(old(chain)) && t.branch == old(t.branch)[id := SIDE]
      ensures r.Ok? ==> r.value == ListIDs(count.considerations)
      ensures r.Err? ==> t == old(t) && chain == old(chain)
    {
      hide *;
      TipFacts();
      if t.tip.None? || t.tip.value.id != id {
        return Err(TipMismatch);
      }
      DisconnectFacts(Block(id, count));
      var cache := new ImbalanceCache(this);
      cache.Reset();
      var matured := MaturedAt(count.header.height);
      var cnIDs, batch := cache.UndoCount(count, matured, BalancesOf(Init(chain)));
      cache.ViewIsOverlay();
      var balances := WriteBalances(t.balances, cache.cache);
      FinishDisconnect(id, count, batch.(balances := balances));
      return Ok(cnIDs);
    }

    method FinishDisconnect(id: CountID, count: Count, undone: Tables)
      requires Valid() && |chain| >= 2 && Last(chain) == Block(id, count) && count.header.height == |chain| - 1
      requires count.header.previous == Last(Init(chain)).id && AllWellFormed(Init(chain))
      requires undone == t.(cnIndex := t.cnIndex - IDsOf(count), keyIndex := t.keyIndex - RowsOf(count, |chain| - 1),
                            balances := BalancesOf(Init(chain)))
      modifies this
      ensures Valid() && chain == Init(old(chain)) && t.branch == old(t.branch)[id := SIDE]
    {
      hide Represents, Covered, BalancesOf, PutIDs, WellFormed, AllWellFormed, Extends, NoReplay;
      var h := count.header.height;
      var batch := undone.(heights := undone.heights - {h}, branch := undone.branch[id := SIDE],
                           tip := Some(Tip(count.header.previous, h - 1)));
      if prune && h >= PRUNE_WINDOW {
        batch := RestoreIndices(h - PRUNE_WINDOW, batch);
      }
      DisconnectRepresents(t, chain, prune);
      assert batch == Disconnected(t, chain, prune, BalancesOf(Init(chain)));
      t := batch;
      chain := Init(chain);
    }

    // ----- verification queries

    /** The sum of all stored balances is one per count that is at least 100 deep. */
    method Imbalance() returns (total: int)
      requires Valid()
      ensures total == Total(t.balances)
      ensures total == if |chain| > COUNTERPOINT_MATURITY then |chain| - COUNTERPOINT_MATURITY else 0
    {
      hide Extends, Indexes, KeyRows;
      Supply(chain);
      total := 0;
      var rest := t.balances;
      while rest != map[]
        invariant total + Total(rest) == Total(t.balances)
        decreases |rest|
      {
        var k :| k in rest;
        TotalRemove(rest, k);
        total := total + rest[k];
        rest := rest - {k};
      }
    }

    /** Sum a key's confirmed history up to `height`, judging maturity against the current tip. */
    method GetPublicKeyImbalanceAt(k: PublicKey, height: int) returns (v: int)
      requires Valid()
      ensures AllWellFormed(chain)
      ensures var n := Clamp(height + 1, |chain|); var lo := Lowest(|chain|, prune);
        v == Upto(chain, |chain|, n, k) - Upto(chain, |chain|, if lo <= n then lo else n, k)
      // at the tip: the stored balance, exactly when what pruning forgot nets to nothing
      ensures height == |chain| - 1 ==>
        (v == Get(t.balances, k) <==> Upto(chain, |chain|, Lowest(|chain|, prune), k) == 0)
    {
      hide Valid, Represents, Sound, Upto, Heights, SumRows, BalancesOf, AllWellFormed;
      var tipHeight := if t.tip.None? then 0 else t.tip.value.height;
      var rows := set r | r in t.keyIndex && r.key == k && r.height <= height;
      HistoryRows(k, height);
      v := 0;
      while rows != {}
        invariant rows <= KeyRows(chain, Lowest(|chain|, prune)) && forall r :: r in rows ==> r.key == k
        invariant v + SumRows(chain, rows) == SumRows(chain, RowsBelow(chain, Lowest(|chain|, prune), k, Clamp(height + 1, |chain|), 0))
        decreases |rows|
      {
        var row :| row in rows;
        SumRowsRemove(chain, rows, row);
        var value := ValueOf(k, row, tipHeight);
        v := v + value;
        rows := rows - {row};
      }
    }

    /** One row of the scan; the count and the consideration are never missing, and always involve the key. */
    method ValueOf(k: PublicKey, row: KeyRow, tipHeight: int) returns (v: int)
      requires Valid() && row in KeyRows(chain, Lowest(|chain|, prune)) && row.key == k
      requires tipHeight == |chain| - 1
      ensures v == RowValue(chain, row)
    {
      hide Extends, Indexes, BalancesOf;
      assert IsAt(chain, row.height, row.index) && k in Parties(At(chain, row.height, row.index));
      if row.index == 0 && row.height > tipHeight - COUNTERPOINT_MATURITY {
        return 0;
      }
      var count := CountAt(row.height);
      var cn := count.considerations[row.index];
      assert cn.Involves(k) && cn.sender != Some(cn.recipient);
      return if k == cn.recipient then 1 else -1;
    }

    lemma HistoryRows(k: PublicKey, height: int)
      requires Valid()
      ensures (set r | r in t.keyIndex && r.key == k && r.height <= height)
        == RowsBelow(chain, Lowest(|chain|, prune), k, Clamp(height + 1, |chain|), 0)
      ensures SumRows(chain, RowsBelow(chain, Lowest(|chain|, prune), k, Clamp(height + 1, |chain|), 0))
        == var n := Clamp(height + 1, |chain|); var lo := Lowest(|chain|, prune);
           Upto(chain, |chain|, n, k) - Upto(chain, |chain|, if lo <= n then lo else n, k)
      ensures t.keyIndex == KeyRows(chain, Lowest(|chain|, prune)) && (chain == [] ==> t.keyIndex == {})
      ensures AllWellFormed(chain) && Get(t.balances, k) == Upto(chain, |chain|, |chain|, k)
      ensures SumRows(chain, {}) == 0 && Upto(chain, |chain|, 0, k) == 0
      ensures chain != [] ==> t.tip == Some(Tip(Last(chain).id, |chain| - 1))
    {
      hide Extends, Indexes, BalancesOf;
      assert Upto(chain, |chain|, 0, k) == 0;
      BalanceIsHistory(chain, k);
      SumRowsIsUpto(chain, Lowest(|chain|, prune), k, Clamp(height + 1, |chain|));
    }

    lemma TipFacts()
      requires Valid()
      ensures t.tip.None? <==> chain == []
      ensures t.tip.Some? ==> t.tip.value.id == Last(chain).id
    {
    }

    lemma DisconnectFacts(b: Block)
      requires Valid() && Holds(b) && chain != [] && Last(chain).id == b.id && b.count.header.height > 0
      ensures Last(chain) == b && |chain| >= 2 && b.count.header.height == |chain| - 1
      ensures b.count.header.previous == Last(Init(chain)).id && chain[..|chain| - 1] == Init(chain)
      ensures AllWellFormed(Init(chain)) && WellFormed(b.count) && Canonical(t.balances)
      ensures var m := Matured(Init(chain)); var base := BalancesOf(Init(chain));
        && (m.Some? ==> m.value.IsCounterPoint())
        && Positive(base) && Covered(base, Applied(m, b.count, |b.count.considerations|))
        && t.balances == MoveAll(base, Applied(m, b.count, |b.count.considerations|))
    {
      hide Indexes, KeyRows, IndexedIDs, Heights, Covered, MoveAll, Positive, CheckSeries, IDsOf;
      assert Holds(Last(chain));
      assert Extends(Init(chain), Last(chain), prune);
      SoundPrefix(chain, prune, |chain| - 1);
      BalancesPositive(Init(chain), prune);
      BalancesCanonical(chain);
      assert Applied(Matured(Init(chain)), b.count, |b.count.considerations|) == Effects(Init(chain), b.count);
    }

    lemma ConnectFacts(b: Block, descends: Descends)
      requires Valid() && WellFormed(b.count) && b.count.header.height == |chain| && AllCheckSeries(b.count, |chain|)
      ensures AllWellFormed(chain) && Canonical(t.balances) && chain[..|chain|] == chain
      ensures Matured(chain).Some? ==> Matured(chain).value.IsCounterPoint()
      ensures Applied(Matured(chain), b.count, |b.count.considerations|) == Effects(chain, b.count)
      ensures Extends(chain, b, prune) && Admits(descends, b.count) <==>
        (t.tip.Some? ==> t.tip.value.id == b.count.header.previous) && Passes(t, b.count, Matured(chain), descends)
    {
      hide BalancesOf, Covered, MoveAll, KeyRows, Heights, IndexedIDs, IDsOf, CheckSeries, Extends, Passes, Effects, WellFormed;
      BalancesCanonical(chain);
      ExtendsIsPassing(t, chain, b, prune, descends);
    }
  }

  /** On the tables of a chain, what the ledger checks is what extending the chain means. */
  lemma {:induction false} ExtendsIsPassing(t: Tables, chain: Blocks, b: Block, prune: bool, descends: Descends)
    requires AllWellFormed(chain) && t.tip == TipOf(chain) && t.balances == BalancesOf(chain)
    requires t.cnIndex.Keys == IndexedIDs(chain, Lowest(|chain|, prune))
    requires WellFormed(b.count) && b.count.header.height == |chain| && AllCheckSeries(b.count, |chain|)
    ensures Matured(chain).Some? ==> Matured(chain).value.IsCounterPoint()
    ensures Applied(Matured(chain), b.count, |b.count.considerations|) == Effects(chain, b.count)
    ensures Extends(chain, b, prune) && Admits(descends, b.count) <==>
      (t.tip.Some? ==> t.tip.value.id == b.count.header.previous) && Passes(t, b.count, Matured(chain), descends)
  {
    hide BalancesOf, MoveAll, CheckSeries, Covered;
  }

  method DeleteIndices(count: Count, batch: Tables) returns (r: Tables)
    ensures r == batch.(cnIndex := batch.cnIndex - IDsOf(count),
                        keyIndex := batch.keyIndex - RowsOf(count, count.header.height))
  {
    var cns, h := count.considerations, count.header.height;
    var ids, rows := batch.cnIndex, batch.keyIndex;
    for i := 0 to |cns|
      invariant ids == batch.cnIndex - IDsBetween(cns, 0, i)
      invariant rows == batch.keyIndex - RowsBetween(cns, h, 0, i)
    {
      ids := ids - {cns[i].ID()};
      if !cns[i].IsCounterPoint() {
        rows := rows - {KeyRow(cns[i].sender.value, h, i)};
      }
      rows := rows - {KeyRow(cns[i].recipient, h, i)};
      IDsGrow(cns, i);
      RowsGrow(cns, h, i);
    }
    return batch.(cnIndex := ids, keyIndex := rows);
  }

  method PutIndices(count: Count, batch: Tables) returns (r: Tables)
    ensures r == Staged(batch, count.considerations, count.header.height, |count.considerations|)
  {
    var cns, h := count.considerations, count.header.height;
    r := batch;
    for i := 0 to |cns|
      invariant r == Staged(batch, cns, h, i)
    {
      StagedStep(batch, cns, h, i);
      r := Stage(r, cns[i], h, i);
    }
  }

  lemma IDsGrow(cns: seq<Consideration>, i: nat)
    requires i < |cns|
    ensures IDsBetween(cns, 0, i + 1) == IDsBetween(cns, 0, i) + {cns[i].ID()}
  {
  }

  lemma RowsGrow(cns: seq<Consideration>, h: int, i: nat)
    requires i < |cns|
    ensures RowsBetween(cns, h, 0, i + 1) == RowsBetween(cns, h, 0, i) + (set k | k in Parties(cns[i]) :: KeyRow(k, h, i))
  {
  }

  /** Write the cached balances over the table, deleting the rows that became zero. */
  method WriteBalances(balances: Table, cache: Table) returns (r: Table)
    requires Canonical(balances)
    ensures r == Overlay(balances, cache)
  {
    r := balances;
    var keys := cache.Keys;
    while keys != {}
      invariant keys <= cache.Keys && Canonical(r)
      invariant forall k :: Get(r, k) == if k in cache && k !in keys then cache[k] else Get(balances, k)
    {
      var k :| k in keys;
      r := Put(r, k, cache[k]);
      keys := keys - {k};
    }
    OverlayGet(balances, cache);
    CanonicalUnique(r, Overlay(balances, cache));
  }

  /** What the first `i` considerations of a count make ConnectCount apply. */
  ghost function Applied(matured: Option<Consideration>, count: Count, i: nat): seq<Consideration>
    requires i <= |count.considerations|
  {
    if i == 0 then [] else Optional(matured) + count.considerations[1..i]
  }

  lemma AppliedNone(base: Table, matured: Option<Consideration>, count: Count)
    ensures MoveAll(base, Applied(matured, count, 0)) == base
  {
  }

  /** Undo restores the balances before the move, and the recipient can always give back what it got. */
  lemma UndoReady(base: Table, matured: Option<Consideration>, count: Count, i: nat, cn: Consideration)
    requires i < |count.considerations| && Positive(base)
    requires Covered(base, Applied(matured, count, |count.considerations|))
    requires Applied(matured, count, i + 1) == Applied(matured, count, i) + [cn] && cn.sender != Some(cn.recipient)
    ensures var m := MoveAll(base, Applied(matured, count, i)); var n := MoveAll(base, Applied(matured, count, i + 1));
      Get(n, cn.recipient) >= 1 && Unmove(n, cn) == m
  {
    hide Covered, MoveAll, Applied;
    var m := MoveAll(base, Applied(matured, count, i));
    AppliedPrefix(base, matured, count, i);
    MoveAllPush(base, Applied(matured, count, i), cn);
    MoveAllPositive(base, Applied(matured, count, i));
    MoveEffect(m, cn, cn.recipient);
    UnmoveMove(m, cn);
  }

  /** Remove the rows of one consideration. */
  function Unstage(batch: Tables, cn: Consideration, h: int, i: int): Tables
  {
    var rows := if cn.IsCounterPoint() then batch.keyIndex else batch.keyIndex - {KeyRow(cn.sender.value, h, i)};
    batch.(cnIndex := batch.cnIndex - {cn.ID()}, keyIndex := rows - {KeyRow(cn.recipient, h, i)})
  }

  lemma UnstageStep(t: Tables, cns: seq<Consideration>, h: int, i: nat)
    requires i < |cns|
    ensures Unstage(t.(cnIndex := t.cnIndex - IDsBetween(cns, i + 1, |cns|),
                       keyIndex := t.keyIndex - RowsBetween(cns, h, i + 1, |cns|)), cns[i], h, i)
      == t.(cnIndex := t.cnIndex - IDsBetween(cns, i, |cns|), keyIndex := t.keyIndex - RowsBetween(cns, h, i, |cns|))
  {
    assert IDsBetween(cns, i, |cns|) == {cns[i].ID()} + IDsBetween(cns, i + 1, |cns|);
    assert RowsBetween(cns, h, i, |cns|)
      == (set k | k in Parties(cns[i]) :: KeyRow(k, h, i)) + RowsBetween(cns, h, i + 1, |cns|);
  }

  /** The checks ConnectCount makes, given the counterpoint it would mature. */
  ghost predicate Passes(t: Tables, count: Count, matured: Option<Consideration>, descends: Descends)
  {
    && IDsOf(count) !! t.cnIndex.Keys
    && Covered(t.balances, Applied(matured, count, |count.considerations|))
    && Admits(descends, count)
  }

  lemma AppliedStep(matured: Option<Consideration>, count: Count, i: nat)
    requires i < |count.considerations|
    ensures var next := if i == 0 then matured else Some(count.considerations[i]);
      Applied(matured, count, i + 1) == if next.None? then Applied(matured, count, i) else Applied(matured, count, i) + [next.value]
  {
    if i > 0 {
      assert count.considerations[1..i + 1] == count.considerations[1..i] + [count.considerations[i]];
    }
  }

  lemma AppliedPrefix(m: Table, matured: Option<Consideration>, count: Count, i: nat)
    requires i <= |count.considerations|
    ensures Covered(m, Applied(matured, count, |count.considerations|)) ==> Covered(m, Applied(matured, count, i))
  {
    var all := Applied(matured, count, |count.considerations|);
    if i > 0 && Covered(m, all) {
      assert count.considerations[1..][..i - 1] == count.considerations[1..i];
      assert all[..|Applied(matured, count, i)|] == Applied(matured, count, i);
      CoveredPrefix(m, all, |Applied(matured, count, i)|);
    }
  }

  /** Index one consideration, and associate it with both parties. */
  function Stage(batch: Tables, cn: Consideration, h: int, i: int): Tables
  {
    var rows := if cn.IsCounterPoint() then batch.keyIndex else batch.keyIndex + {KeyRow(cn.sender.value, h, i)};
    batch.(cnIndex := batch.cnIndex[cn.ID() := Position(h, i)], keyIndex := rows + {KeyRow(cn.recipient, h, i)})
  }

  /** The rows staged for the first `n` considerations. */
  function Staged(t: Tables, cns: seq<Consideration>, h: int, n: nat): Tables
    requires n <= |cns|
  {
    t.(cnIndex := PutIDs(t.cnIndex, cns, h, n), keyIndex := t.keyIndex + RowsBetween(cns, h, 0, n))
  }

  lemma StagedStep(t: Tables, cns: seq<Consideration>, h: int, i: nat)
    requires i < |cns|
    ensures Stage(Staged(t, cns, h, i), cns[i], h, i) == Staged(t, cns, h, i + 1)
  {
    RowsGrow(cns, h, i);
  }
}
