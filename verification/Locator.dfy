/** Finding the last count two peers share, from a short list of one peer's counts. */
module Locator {
  import opened Considerations
  import opened Chain
  import opened Ledger
  import opened Tree
  import opened ChainSelection
  import opened Processor

  const MAX_COUNTS_PER_INV: nat := 500

  // ----- the heights that are listed

  function NextStep(step: nat, n: nat): (r: nat)
    requires step > 0
    ensures r >= step
  {
    if n > 10 then 2 * step else step
  }

  /** From the `n`th entry on: steps of one for the first eleven entries, then each twice the last. */
  function Listed(height: nat, step: nat, n: nat): (s: seq<nat>)
    requires step > 0
    ensures s != [] && s[0] == height
    decreases height
  {
    if height <= step then [height] else [height] + Listed(height - step, NextStep(step, n), n + 1)
  }

  /** Strictly decreasing, from at most `top`, and above genesis. */
  predicate Falls(s: seq<nat>, top: nat)
  {
    (forall i :: 0 <= i < |s| ==> 0 < s[i] <= top) && forall i, j :: 0 <= i < j < |s| ==> s[i] > s[j]
  }

  /** The listed heights strictly decrease to genesis, which is listed last. */
  lemma {:induction false} HeightsDecrease(height: nat, step: nat, n: nat)
    requires step > 0 && height > 0
    ensures Falls(Listed(height, step, n), height)
    decreases height
  {
    if height <= step {
    } else {
      HeightsDecrease(height - step, NextStep(step, n), n + 1);
      FallsMore(height, Listed(height - step, NextStep(step, n), n + 1), height - step);
    }
  }

  lemma FallsMore(height: nat, rest: seq<nat>, top: nat)
    requires Falls(rest, top) && top < height
    ensures Falls([height] + rest, height)
  {
  }

  /** How far an entry lies above the next. */
  function Gap(hs: seq<nat>, i: nat): int
    requires i + 1 < |hs|
  {
    hs[i] as int - hs[i + 1] as int
  }

  lemma {:induction false} GapsFrom(height: nat, step: nat, n: nat)
    requires step > 0
    ensures var hs := Listed(height, step, n);
      && (|hs| > 1 ==> Gap(hs, 0) == step)
      && (forall i :: 0 < i < |hs| - 1 ==> Gap(hs, i) == if n + i > 11 then 2 * Gap(hs, i - 1) else Gap(hs, i - 1))
      && (if |hs| == 1 then height <= step else
          var last := |hs| - 1;
          hs[last] <= if n + last > 11 then 2 * Gap(hs, last - 1) else Gap(hs, last - 1))
    decreases height
  {
    hide Listed;
    ListedStep(height, step, n);
    if height <= step {
    } else {
      var hs, rest := Listed(height, step, n), Listed(height - step, NextStep(step, n), n + 1);
      ListedStep(height - step, NextStep(step, n), n + 1);
      GapsFrom(height - step, NextStep(step, n), n + 1);
      assert hs == [height] + rest;
      assert forall i :: 0 <= i < |rest| - 1 ==> Gap(hs, i + 1) == Gap(rest, i);
      forall i | 0 < i < |hs| - 1 ensures Gap(hs, i) == if n + i > 11 then 2 * Gap(hs, i - 1) else Gap(hs, i - 1) {
        assert Gap(hs, i) == Gap(rest, i - 1);
        if i > 1 {
          assert Gap(hs, i - 1) == Gap(rest, i - 2);
        }
      }
    }
  }

  /** A full list: eleven steps of one, then each step twice the one before, until the next would reach genesis. */
  lemma ListedGaps(height: nat)
    ensures var hs := Listed(height, 1, 1);
      && hs[0] == height
      && (forall i :: 0 <= i <= 10 && i + 1 < |hs| ==> Gap(hs, i) == 1)
      && (forall i :: 11 <= i < |hs| - 1 ==> Gap(hs, i) == 2 * Gap(hs, i - 1))
      && (|hs| > 1 ==> hs[|hs| - 1] <= 2 * Gap(hs, |hs| - 2))
  {
    hide Listed;
    GapsFrom(height, 1, 1);
    ListedStep(height, 1, 1);
    OnesBelow(Listed(height, 1, 1), 11);
    if height > 0 {
      HeightsDecrease(height, 1, 1);
    }
  }

  lemma {:induction false} OnesBelow(hs: seq<nat>, n: nat)
    requires |hs| > 1 ==> Gap(hs, 0) == 1
    requires forall i :: 0 < i < |hs| - 1 && i < 11 ==> Gap(hs, i) == Gap(hs, i - 1)
    requires n <= 11
    ensures forall i :: 0 <= i < n && i + 1 < |hs| ==> Gap(hs, i) == 1
  {
    if n == 0 {
    } else {
      OnesBelow(hs, n - 1);
      if 1 < n < |hs| {
        assert Gap(hs, n - 2) == 1 && Gap(hs, n - 1) == Gap(hs, n - 2);
      }
    }
  }

  /** How often the distance has doubled by the `n`th entry. */
  function Doublings(n: int): nat { if n <= 11 then 0 else n - 11 }

  /** The list is logarithmic: from the eleventh entry on, every entry doubles the distance covered. */
  lemma {:induction false} HeightsAreFew(start: nat, height: nat, step: nat, n: nat)
    requires 0 < height <= start && n > 0 && step > 0 && step == Power2(Doublings(n)) && start - height >= step - 1
    ensures Power2(Doublings(n + |Listed(height, step, n)| - 1)) <= start
    decreases height
  {
    if height <= step {
    } else {
      HeightsAreFew(start, height - step, NextStep(step, n), n + 1);
    }
  }

  /** The first listed height that is at most `f`, or genesis. */
  function Hit(s: seq<nat>, f: nat): (a: nat)
    ensures a <= f && (a != 0 ==> a in s)
  {
    if s == [] then 0 else if s[0] <= f then s[0] else Hit(s[1..], f)
  }

  /** The hit lies at most as far below the fork as the fork lies below the start. */
  lemma {:induction false} HitIsNear(start: nat, height: nat, step: nat, n: nat, f: nat)
    requires step > 0 && 0 < height <= start && f <= start && start - height >= step - 1
    requires height <= f ==> f - height <= start - f
    ensures var a := Hit(Listed(height, step, n), f); a <= f && f - a <= start - f
    decreases height
  {
    hide Hit;
    var all := Listed(height, step, n);
    HitStep(all, f);
    if height <= f {
    } else {
      if height > step {
        var rest := Listed(height - step, NextStep(step, n), n + 1);
        assert all[1..] == rest;
        HitIsNear(start, height - step, NextStep(step, n), n + 1, f);
      } else {
        assert all[1..] == [];
        HitStep([], f);
      }
    }
  }

  lemma HitStep(s: seq<nat>, f: nat)
    ensures s == [] ==> Hit(s, f) == 0
    ensures s != [] ==> Hit(s, f) == if s[0] <= f then s[0] else Hit(s[1..], f)
  {
  }

  /** What a peer whose tip is at `start` finds out about a chain that shares heights up to `f`. */
  lemma LocatorFinds(start: nat, f: nat)
    requires 0 < start && f <= start
    ensures var s := Listed(start, 1, 1); var a := Hit(s, f);
      && a <= f && f - a <= start - f && Power2(Doublings(|s|)) <= start
      && (forall i :: 0 <= i < |s| ==> s[i] <= f ==> s[i] <= a)
  {
    HitIsNear(start, start, 1, 1, f);
    HeightsAreFew(start, start, 1, 1);
    HeightsDecrease(start, 1, 1);
    HitIsHighest(Listed(start, 1, 1), f);
  }

  lemma {:induction false} HitIsHighest(s: seq<nat>, f: nat)
    requires forall i, j :: 0 <= i < j < |s| ==> s[i] > s[j]
    ensures forall i :: 0 <= i < |s| && s[i] <= f ==> s[i] <= Hit(s, f)
  {
    if s != [] && s[0] > f {
      HitIsHighest(s[1..], f);
    }
  }

  // ----- the two sides of the exchange

  /** The main-chain IDs at some heights. */
  function IDsAt(chain: Blocks, heights: seq<nat>): seq<CountID>
    requires forall i :: 0 <= i < |heights| ==> heights[i] < |chain|
  {
    seq(|heights|, i requires 0 <= i < |heights| => chain[heights[i]].id)
  }

  /** The list for a start at a height: the start, then main-chain counts at growing distances, then genesis. */
  function Entries(chain: Blocks, genesisID: CountID, id: CountID, height: nat): seq<CountID>
  {
    if id == genesisID then [genesisID]
    else
      var below := Listed(height, 1, 1)[1..];
      if below == [] || height - 1 >= |chain| then [id, genesisID]
      else
        HeightsWithin(height, 1, 1);
        [id] + IDsAt(chain, below) + [genesisID]
  }

  lemma HeightsWithin(height: nat, step: nat, n: nat)
    requires step > 0
    ensures forall i :: 0 < i < |Listed(height, step, n)| ==> Listed(height, step, n)[i] <= height - step
  {
    if height > step {
      HeightsDecrease(height, step, n);
      HeightsDecrease(height - step, NextStep(step, n), n + 1);
    }
  }

  /** A peer: the parts that find the last shared count. */
  class Peer {
    const ledger: LedgerDisk
    const genesisID: CountID
    var continuationCountID: Option<CountID>

    constructor (ledger: LedgerDisk, genesisID: CountID)
      ensures this.ledger == ledger && this.genesisID == genesisID && continuationCountID == None
    {
      this.ledger, this.genesisID, continuationCountID := ledger, genesisID, None;
    }

    /** The list sent to a peer; nothing is sent for a start that is not stored. */
    method SendFindCommonAncestor(startID: Option<CountID>) returns (r: Option<seq<CountID>>)
      requires ledger.Valid() && GenesisOnce(ledger.chain, genesisID)
      requires forall id :: id in ledger.store.counts ==> Header(ledger.store.counts, id).height >= 0
      ensures startID.Some? ==> (r.Some? <==> startID.value in ledger.store.counts)
      ensures startID.None? && ledger.chain == [] ==> r == Some([genesisID])
      ensures startID.None? && ledger.chain != [] ==>
        r == Some(Entries(ledger.chain, genesisID, Last(ledger.chain).id, |ledger.chain| - 1))
      ensures startID.Some? && r.Some? ==>
        r == Some(Entries(ledger.chain, genesisID, startID.value, Header(ledger.store.counts, startID.value).height))
    {
      hide LedgerDisk.Valid, Entries;
      LedgerTip();
      if startID.None? {
        if ledger.t.tip.None? {
          return Some([genesisID]);
        }
        var ids := List(ledger.t.tip.value.id, ledger.t.tip.value.height);
        return Some(ids);
      }
      if startID.value !in ledger.store.counts {
        return None;
      }
      var ids := List(startID.value, Header(ledger.store.counts, startID.value).height);
      return Some(ids);
    }

    lemma LedgerTip()
      requires ledger.Valid()
      ensures ledger.t.tip == TipOf(ledger.chain)
    {
    }

    /** The loop that lists counts at growing distances below the start. */
    method List(startID: CountID, startHeight: nat) returns (ids: seq<CountID>)
      requires ledger.Valid() && GenesisOnce(ledger.chain, genesisID)
      ensures ids == Entries(ledger.chain, genesisID, startID, startHeight)
    {
      hide LedgerDisk.Valid, Entries, Listed, Partial, NextStep;
      ghost var chain, hs := ledger.chain, Listed(startHeight, 1, 1);
      EntriesAre(chain, genesisID, startID, startHeight);
      PartialGrows(chain, startID, hs);
      ids := [];
      var id, height, step := Some(startID), startHeight, 1;
      var more := startID != genesisID;
      while more
        invariant 0 < step && 0 <= height <= startHeight && hs[0] == startHeight
        invariant more ==> |ids| < |hs| && hs[|ids|..] == Listed(height, step, |ids| + 1) && InRange(chain, hs, |ids|)
        invariant more ==> id.Some? && id.value == EntryAt(chain, startID, hs, |ids|) && ids == Partial(chain, startID, hs, |ids|)
        invariant !more ==> ids + [genesisID] == Entries(chain, genesisID, startID, startHeight)
        decreases more, height
      {
        ListStep(chain, startID, hs, |ids|, height, step);
        ids := ids + [id.value];
        var depth := height - step;
        if depth <= 0 {
          more := false;
        } else {
          id := ledger.GetCountIDForHeight(depth);
          if |ids| > 10 {
            step := step * 2;
          }
          height := depth;
          more := id.Some? && id.value != genesisID;
        }
      }
      ids := ids + [genesisID];
    }

    /** Answer one listed count: if it is on the main chain, with the run of counts that follows it there. */
    method OnFindCommonAncestor(id: CountID) returns (hit: bool, inv: seq<CountID>)
      requires Serves(ledger)
      modifies this`continuationCountID
      ensures hit <==> id in MainIDs(ledger)
      ensures !hit ==> inv == [] && continuationCountID == old(continuationCountID)
      ensures hit ==> exists a: nat :: a < |ledger.chain| && ledger.chain[a].id == id && inv == Inventory(ledger.chain, a + 1)
      ensures hit && inv != [] ==> continuationCountID == Some(inv[|inv| - 1])
      ensures hit && inv == [] ==> continuationCountID == old(continuationCountID)
    {
      hide Sound, Represents, LedgerDisk.Valid;
      ServesFacts(ledger, id);
      inv := [];
      if id !in ledger.store.counts || id !in ledger.t.branch || ledger.t.branch[id] != MAIN {
        return false, [];
      }
      var header := Header(ledger.store.counts, id);
      ghost var a := header.height;
      var height, more := header.height + 1, true;
      while |inv| < MAX_COUNTS_PER_INV && more
        invariant |inv| <= MAX_COUNTS_PER_INV && height == a + 1 + |inv| <= |ledger.chain|
        invariant forall i :: 0 <= i < |inv| ==> inv[i] == ledger.chain[a + 1 + i].id
        invariant !more ==> height == |ledger.chain|
        invariant continuationCountID == old(continuationCountID)
        decreases more, MAX_COUNTS_PER_INV - |inv|
      {
        var nextID := ledger.GetCountIDForHeight(height);
        if nextID.None? {
          more := false;
        } else {
          inv := inv + [nextID.value];
          height := height + 1;
        }
      }
      if |inv| > 0 {
        continuationCountID := Some(inv[|inv| - 1]);
      }
      assert inv == Inventory(ledger.chain, a + 1);
      return true, inv;
    }

    /** Go through a received list until a count is found. */
    method FindCommonAncestor(ids: seq<CountID>) returns (n: nat, inv: seq<CountID>)
      requires Serves(ledger)
      modifies this`continuationCountID
      ensures n == FirstShared(ids, MainIDs(ledger))
      ensures n < |ids| ==> exists a: nat :: a < |ledger.chain| && ledger.chain[a].id == ids[n] && inv == Inventory(ledger.chain, a + 1)
    {
      hide Serves, FirstShared, Inventory;
      inv := [];
      FirstSharedSays(ids, MainIDs(ledger));
      n := 0;
      while n < |ids|
        invariant n <= FirstShared(ids, MainIDs(ledger))
      {
        var hit;
        hit, inv := OnFindCommonAncestor(ids[n]);
        if hit {
          return;
        }
        n := n + 1;
      }
    }
  }

  /** Only the lowest count of a chain is genesis. */
  predicate GenesisOnce(chain: Blocks, genesisID: CountID)
  {
    forall h :: 0 < h < |chain| ==> chain[h].id != genesisID
  }

  /** The chain has all of the entries after the first, up to the `n`th. */
  predicate InRange(chain: Blocks, hs: seq<nat>, n: nat)
    requires n < |hs|
  {
    forall i :: 0 < i <= n ==> 0 < hs[i] < |chain|
  }

  function EntryAt(chain: Blocks, id: CountID, hs: seq<nat>, n: nat): CountID
    requires n < |hs| && InRange(chain, hs, n)
  {
    if n == 0 then id else chain[hs[n]].id
  }

  /** The first `n` entries. */
  function Partial(chain: Blocks, id: CountID, hs: seq<nat>, n: nat): seq<CountID>
    requires n <= |hs| && (n > 0 ==> InRange(chain, hs, n - 1))
  {
    if n == 0 then [] else Partial(chain, id, hs, n - 1) + [EntryAt(chain, id, hs, n - 1)]
  }

  lemma PartialGrows(chain: Blocks, id: CountID, hs: seq<nat>)
    ensures Partial(chain, id, hs, 0) == []
    ensures forall n :: 0 <= n < |hs| && InRange(chain, hs, n) ==>
      Partial(chain, id, hs, n + 1) == Partial(chain, id, hs, n) + [EntryAt(chain, id, hs, n)]
  {
  }

  /** One turn of the loop that lists: another entry, and the next height, step and range. */
  lemma ListStep(chain: Blocks, id: CountID, hs: seq<nat>, n: nat, height: nat, step: nat)
    requires n < |hs| && InRange(chain, hs, n) && step > 0 && hs[n..] == Listed(height, step, n + 1)
    ensures Partial(chain, id, hs, n + 1) == Partial(chain, id, hs, n) + [EntryAt(chain, id, hs, n)]
    ensures height <= step ==> n + 1 == |hs|
    ensures height > step ==> n + 1 < |hs| && hs[n + 1] == height - step
    ensures height > step ==> hs[n + 1..] == Listed(height - step, if n + 1 > 10 then step * 2 else step, n + 2)
    ensures height > step && height - step < |chain| ==>
      InRange(chain, hs, n + 1) && EntryAt(chain, id, hs, n + 1) == chain[height - step].id
  {
    hide Listed, Partial;
    PartialGrows(chain, id, hs);
    ListedStep(height, step, n + 1);
    assert hs[n..][1..] == hs[n + 1..];
    if height > step {
      ListedStep(height - step, NextStep(step, n + 1), n + 2);
      assert hs[n + 1] == hs[n + 1..][0];
    }
  }

  lemma ListedStep(height: nat, step: nat, n: nat)
    requires step > 0
    ensures Listed(height, step, n)[0] == height
    ensures var rest := Listed(height, step, n)[1..];
      if height <= step then rest == [] else rest == Listed(height - step, NextStep(step, n), n + 1)
  {
  }

  /** The list ends where the heights do, or after the start if the chain does not reach below it. */
  lemma EntriesAre(chain: Blocks, genesisID: CountID, id: CountID, height: nat)
    ensures id == genesisID ==> Entries(chain, genesisID, id, height) == [genesisID]
    ensures var hs := Listed(height, 1, 1); id != genesisID && (|hs| == 1 || hs[1] >= |chain|) ==>
      Entries(chain, genesisID, id, height) == [id] + [genesisID]
    ensures var hs := Listed(height, 1, 1); id != genesisID && InRange(chain, hs, |hs| - 1) ==>
      Entries(chain, genesisID, id, height) == Partial(chain, id, hs, |hs|) + [genesisID]
  {
    hide Listed, Partial, InRange, Entries;
    SecondHeight(height);
    EntriesCases(chain, genesisID, id, height);
    var hs := Listed(height, 1, 1);
    if InRange(chain, hs, |hs| - 1) {
      AllInRange(chain, hs);
      PartialIs(chain, id, hs, |hs|);
      assert hs[1..|hs|] == hs[1..];
      assert hs[1..] == [] ==> [id] + IDsAt(chain, hs[1..]) == [id];
      assert [id] + [genesisID] == [id, genesisID];
    }
  }

  lemma SecondHeight(height: nat)
    ensures var hs := Listed(height, 1, 1); |hs| > 1 ==> hs[1] == height - 1
  {
    hide Listed;
    ListedStep(height, 1, 1);
    var hs := Listed(height, 1, 1);
    if |hs| > 1 {
      ListedStep(height - 1, 1, 2);
      assert hs[1] == hs[1..][0];
    }
  }

  lemma AllInRange(chain: Blocks, hs: seq<nat>)
    requires hs != [] && InRange(chain, hs, |hs| - 1)
    ensures forall i :: 0 <= i < |hs[1..]| ==> hs[1..][i] < |chain|
    ensures |hs| > 1 ==> hs[1] < |chain|
  {
    assert forall i :: 0 <= i < |hs[1..]| ==> hs[1..][i] == hs[i + 1];
  }

  lemma EntriesCases(chain: Blocks, genesisID: CountID, id: CountID, height: nat)
    ensures id == genesisID ==> Entries(chain, genesisID, id, height) == [genesisID]
    ensures var hs := Listed(height, 1, 1); id != genesisID && (|hs| == 1 || height - 1 >= |chain|) ==>
      Entries(chain, genesisID, id, height) == [id, genesisID]
    ensures var hs := Listed(height, 1, 1);
      id != genesisID && |hs| > 1 && height - 1 < |chain| && (forall i :: 0 <= i < |hs[1..]| ==> hs[1..][i] < |chain|) ==>
      Entries(chain, genesisID, id, height) == [id] + IDsAt(chain, hs[1..]) + [genesisID]
  {
    hide Listed;
  }

  lemma {:induction false} PartialIs(chain: Blocks, id: CountID, hs: seq<nat>, n: nat)
    requires 0 < n <= |hs| && InRange(chain, hs, n - 1)
    ensures Partial(chain, id, hs, n) == [id] + IDsAt(chain, hs[1..n])
  {
    if n <= 1 {
    } else {
      PartialIs(chain, id, hs, n - 1);
      assert hs[1..n] == hs[1..n - 1] + [hs[n - 1]];
    }
  }

  /** At most 500 main-chain IDs in a row, from a height. */
  function Inventory(chain: Blocks, from: nat): seq<CountID>
    requires from <= |chain|
  {
    var n := if |chain| - from < MAX_COUNTS_PER_INV then |chain| - from else MAX_COUNTS_PER_INV;
    seq<CountID>(n, i requires 0 <= i < n => chain[from + i].id)
  }

  /** They come in chain order, 500 of them unless the chain ends before. */
  lemma InventoryIs(chain: Blocks, from: nat)
    requires from <= |chain|
    ensures var inv := Inventory(chain, from);
      && |inv| <= 500 && (|inv| < 500 ==> from + |inv| == |chain|)
      && forall i :: 0 <= i < |inv| ==> inv[i] == chain[from + i].id
  {
  }

  /** A ledger whose MAIN counts are all on its chain. */
  ghost predicate Serves(ledger: LedgerDisk)
    reads ledger, ledger.store
  {
    ledger.Valid() && OnlyChainIsMain(ledger.t.branch, ledger.chain) && ChainIDs(ledger.chain) <= ledger.t.branch.Keys
  }

  /** The counts it answers to: those of the chain but for any that an event has called SIDE. */
  ghost function MainIDs(ledger: LedgerDisk): set<CountID>
    reads ledger
  {
    ChainIDs(ledger.chain) - Flagged(ledger.t.branch, ledger.chain)
  }

  lemma ServesFacts(ledger: LedgerDisk, id: CountID)
    requires Serves(ledger)
    ensures ledger.Valid()
    ensures id in ledger.store.counts && id in ledger.t.branch && ledger.t.branch[id] == MAIN <==> id in MainIDs(ledger)
    ensures id in MainIDs(ledger) ==> id in ChainIDs(ledger.chain)
    ensures id in ChainIDs(ledger.chain) ==> id in ledger.store.counts && 0 <= Header(ledger.store.counts, id).height < |ledger.chain|
    ensures id in ChainIDs(ledger.chain) ==> ledger.chain[Header(ledger.store.counts, id).height].id == id
  {
    hide Represents, WellFormed, AllCheckSeries, BalancesOf, IndexedIDs;
    if id in ChainIDs(ledger.chain) {
      var h :| 0 <= h < |ledger.chain| && ledger.chain[h].id == id;
      assert ledger.Holds(ledger.chain[h]);
      assert Extends(ledger.chain[..h], ledger.chain[h], ledger.prune);
    }
  }

  /** The position of the first ID in the set, or the length. */
  function FirstShared(ids: seq<CountID>, shared: set<CountID>): (n: nat)
    ensures n <= |ids|
  {
    if ids == [] || ids[0] in shared then 0 else 1 + FirstShared(ids[1..], shared)
  }

  lemma {:induction false} FirstSharedSays(ids: seq<CountID>, shared: set<CountID>)
    ensures forall i :: 0 <= i < FirstShared(ids, shared) ==> ids[i] !in shared
    ensures FirstShared(ids, shared) < |ids| ==> ids[FirstShared(ids, shared)] in shared
  {
    if ids != [] && ids[0] !in shared {
      FirstSharedSays(ids[1..], shared);
      forall i | 0 < i < FirstShared(ids, shared) ensures ids[i] !in shared {
        assert ids[i] == ids[1..][i - 1];
      }
    }
  }

  // ----- both sides together

  /** A chain whose IDs are those of its headers, each naming its parent and its height. */
  ghost predicate Linked(w: World, chain: Blocks)
  {
    && chain != [] && chain[0].id == w.genesisID
    && (forall h {:trigger chain[h]} :: 0 <= h < |chain| ==>
          chain[h].id == w.headerID(chain[h].count.header) && chain[h].count.header.height == h)
    && forall h {:trigger chain[h].count} :: 0 < h < |chain| ==> chain[h].count.header.previous == chain[h - 1].id
  }

  ghost predicate Injective(f: CountHeader -> CountID) { forall g, h :: f(g) == f(h) ==> g == h }

  /** An ID commits to its whole ancestry. */
  lemma {:induction false} SharedBelow(w: World, c: Blocks, d: Blocks, h: nat, j: nat)
    requires Injective(w.headerID) && Linked(w, c) && Linked(w, d)
    requires h < |c| && j < |d| && c[h].id == d[j].id
    ensures h == j && forall i :: 0 <= i <= h ==> c[i].id == d[i].id
    decreases h
  {
    assert c[h].count.header == d[j].count.header;
    if h == 0 {
    } else {
      SharedBelow(w, c, d, h - 1, j - 1);
    }
  }

  /** The chains share exactly the counts up to height `f`. */
  ghost predicate Shares(c: Blocks, d: Blocks, f: nat)
  {
    f < |c| && f < |d| && forall h :: 0 <= h < |c| ==> (c[h].id in ChainIDs(d) <==> h <= f)
  }

  /** Two linked chains always share some lowest counts. */
  lemma ChainsShare(w: World, c: Blocks, d: Blocks) returns (f: nat)
    requires Injective(w.headerID) && Linked(w, c) && Linked(w, d)
    ensures Shares(c, d, f)
    ensures f + 1 < |c| && f + 1 < |d| ==> c[f + 1].id != d[f + 1].id
  {
    f := 0;
    while f + 1 < |c| && f + 1 < |d| && c[f + 1].id == d[f + 1].id
      invariant f < |c| && f < |d| && forall i :: 0 <= i <= f ==> c[i].id == d[i].id
      decreases |c| - f
    {
      f := f + 1;
    }
    forall h | 0 <= h < |c| ensures c[h].id in ChainIDs(d) <==> h <= f {
      if h <= f {
        assert d[h].id in ChainIDs(d);
      } else if c[h].id in ChainIDs(d) {
        var j :| 0 <= j < |d| && d[j].id == c[h].id;
        SharedBelow(w, c, d, h, j);
      }
    }
  }

  lemma {:induction false} HitIsFirst(s: seq<nat>, f: nat, n: nat)
    requires n <= |s| && (forall j :: 0 <= j < n ==> s[j] > f) && (n < |s| ==> s[n] <= f)
    ensures Hit(s, f) == if n < |s| then s[n] else 0
  {
    if n == 0 {
    } else {
      assert forall j :: 0 <= j < |s| - 1 ==> s[1..][j] == s[j + 1];
      HitIsFirst(s[1..], f, n - 1);
    }
  }

  /** The list of a peer that starts from its tip, by heights. */
  lemma EntriesByHeight(c: Blocks, genesisID: CountID)
    requires |c| > 1 && c[0].id == genesisID && GenesisOnce(c, genesisID)
    ensures var hs, ids := Listed(|c| - 1, 1, 1), Entries(c, genesisID, Last(c).id, |c| - 1);
      && |ids| == |hs| + 1 && ids[|hs|] == genesisID
      && forall i :: 0 <= i < |hs| ==> hs[i] < |c| && ids[i] == c[hs[i]].id
  {
    hide Listed, Entries, Partial;
    var start := |c| - 1;
    var hs, ids := Listed(start, 1, 1), Entries(c, genesisID, Last(c).id, start);
    HeightsWithin(start, 1, 1);
    HeightsDecrease(start, 1, 1);
    EntriesAre(c, genesisID, Last(c).id, start);
    PartialIs(c, Last(c).id, hs, |hs|);
    assert hs[1..|hs|] == hs[1..];
    assert ids == [Last(c).id] + IDsAt(c, hs[1..]) + [genesisID];
  }

  /** Whoever asks from its tip is answered at the highest count it listed that both share, near the fork. */
  lemma SyncFinds(c: Blocks, d: Blocks, genesisID: CountID, f: nat)
    requires |c| > 1 && Shares(c, d, f) && c[0].id == genesisID && GenesisOnce(c, genesisID)
    ensures var start := |c| - 1; var ids := Entries(c, genesisID, Last(c).id, start);
      var a, n := Hit(Listed(start, 1, 1), f), FirstShared(ids, ChainIDs(d));
      && n < |ids| && ids[n] == c[a].id && a <= f && f - a <= start - f && Power2(Doublings(|ids| - 1)) <= start
  {
    hide Listed, Entries, FirstShared, Hit, ChainIDs, GenesisOnce, Power2;
    var start := |c| - 1;
    var hs, ids := Listed(start, 1, 1), Entries(c, genesisID, Last(c).id, start);
    LocatorFinds(start, f);
    EntriesByHeight(c, genesisID);
    FirstSharedSays(ids, ChainIDs(d));
    assert c[0].id in ChainIDs(d);
    HitIsFirst(hs, f, FirstShared(ids, ChainIDs(d)));
  }

  /** A responder that does not answer for flagged counts hits at the highest count listed that both share and is not flagged. */
  lemma SyncFindsUnflagged(c: Blocks, d: Blocks, genesisID: CountID, f: nat, flagged: set<CountID>)
    requires |c| > 1 && Shares(c, d, f) && c[0].id == genesisID && GenesisOnce(c, genesisID)
    ensures var hs, ids := Listed(|c| - 1, 1, 1) + [0], Entries(c, genesisID, Last(c).id, |c| - 1);
      var n := FirstShared(ids, ChainIDs(d) - flagged);
      && |ids| == |hs| && (forall i :: 0 <= i < |hs| ==> hs[i] < |c| && ids[i] == c[hs[i]].id)
      && (n < |ids| ==> hs[n] <= f && ids[n] !in flagged)
      && (forall i :: 0 <= i < n ==> hs[i] > f || ids[i] in flagged)
  {
    hide Listed, Entries, FirstShared, ChainIDs, GenesisOnce;
    EntriesByHeight(c, genesisID);
    FirstSharedSays(Entries(c, genesisID, Last(c).id, |c| - 1), ChainIDs(d) - flagged);
  }

  /** The path to a stored count is linked, and holds genesis at the bottom only. */
  lemma PathIsLinked(w: World, counts: Counts, id: CountID)
    requires IsTree(w, counts) && id in counts
    ensures Linked(w, PathTo(w, counts, id)) && GenesisOnce(PathTo(w, counts, id), w.genesisID)
  {
    hide PathTo;
    var path := PathTo(w, counts, id);
    PathStartsAtGenesis(w, counts, id);
    forall h | 0 <= h < |path|
      ensures path[h].id == w.headerID(path[h].count.header) && path[h].count.header.height == h
      ensures h > 0 ==> path[h].count.header.previous == path[h - 1].id && path[h].id != w.genesisID
    {
      assert IsStored(counts, path[h], h);
      assert Rooted(w, counts, path[h].id);
      PathAt(w, counts, id, h);
      if h > 0 {
        PathAt(w, counts, id, h - 1);
        PathLast(w, counts, path[h].id);
        PathLast(w, counts, path[h].count.header.previous);
        assert Last(path[..h]) == path[h - 1] && Init(path[..h + 1]) == path[..h];
      }
    }
  }

  /** The ledger an idle processor keeps is one that can serve its peers. */
  lemma ConsistentServes(p: Processor)
    requires p.Consistent()
    ensures Serves(p.ledger) && GenesisOnce(p.ledger.chain, p.w.genesisID)
    ensures p.Abs().flagged == {} ==> MainIDs(p.ledger) == ChainIDs(p.ledger.chain)
    ensures p.ledger.chain != [] ==> Linked(p.w, p.ledger.chain)
  {
    hide Linked, PathTo, IsSoundTree, Sound, LedgerDisk.Valid, Unconfirmed, ChainIDs;
    p.TipFacts();
    p.ChainIsKnown();
    if p.ledger.chain != [] {
      PathIsLinked(p.w, p.store.counts, TipID(p.Abs()));
    }
  }
}
