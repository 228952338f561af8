/** Processing one count, as one atomic change of the stored counts, the main chain and the known counts. */
module ChainSelection {
  import opened Considerations
  import opened Chain
  import opened Replay
  import opened Ledger
  import opened Work
  import opened Tree
  import MedianTime

  /** `known` are the counts with a branch type, MAIN or SIDE; `flagged` those on the chain that are called SIDE. */
  datatype State = State(counts: Counts, chain: Blocks, known: set<CountID>, flagged: set<CountID>)

  datatype Event = Event(id: CountID, count: Count, now: int, target: nat, descends: Descends)

  function TipID(s: State): CountID
    requires s.chain != []
  {
    Last(s.chain).id
  }

  ghost predicate Structured(w: World, s: State, prune: bool)
  {
    && IsTree(w, s.counts) && IsSoundTree(w, s.counts)
    && Sound(s.chain, prune)
    && s.known <= s.counts.Keys
    && (s.chain == [] ==> s.known == {}) && s.flagged <= ChainIDs(s.chain)
    && (s.chain != [] ==> TipID(s) in s.known && s.chain == PathTo(w, s.counts, TipID(s)))
    && ParentsKnown(w, s.counts, s.known)
  }

  ghost predicate ParentsKnown(w: World, counts: Counts, known: set<CountID>)
  {
    forall x {:trigger Header(counts, x)} :: x in counts && x != w.genesisID ==> Header(counts, x).previous in known
  }

  /** The tip beats every other MAIN or SIDE count. */
  ghost predicate TipIsBest(s: State)
    requires s.known <= s.counts.Keys && (s.chain != [] ==> TipID(s) in s.counts)
  {
    s.chain != [] ==> forall x :: x in s.known && x != TipID(s) ==> Better(s.counts, TipID(s), x)
  }

  ghost predicate Inv(w: World, s: State, prune: bool) { Structured(w, s, prune) && TipIsBest(s) }

  // ----- checks

  /** The context-free checks on a count. */
  predicate CheckCount(w: World, id: CountID, count: Count, now: int)
  {
    var header, cns := count.header, count.considerations;
    && 0 <= header.time <= MAX_NUMBER && header.time <= now + MAX_FUTURE_SECONDS
    && id <= header.target < TWO_256
    && 0 <= header.nonce <= MAX_NUMBER && 0 <= header.height <= MAX_NUMBER
    && header.considerationCount == |cns| && |cns| > 0
    && cns[0].IsCounterPoint()
    && |cns| <= MaxConsiderations(header.height)
    && (forall i :: 1 <= i < |cns| ==> !cns[i].IsCounterPoint())
    && (forall i :: 0 <= i < |cns| ==> CheckConsideration(cns[i]))
    && |IDsOf(count)| == |cns|
    && w.listRoot(cns) == header.hashListRoot
  }

  /** The checks on a transfer for inclusion at a height. */
  predicate CheckTransfer(w: World, cn: Consideration, height: int)
  {
    !cn.IsCounterPoint() ==> cn.IsMature(height) && !cn.IsExpired(height) && w.verify(cn)
  }

  /** May this consideration be included at this height? */
  predicate Includable(w: World, cn: Consideration, height: int) { CheckSeries(cn, height) && CheckTransfer(w, cn, height) }

  predicate AllIncludable(w: World, count: Count)
  {
    forall i :: 0 <= i < |count.considerations| ==> Includable(w, count.considerations[i], count.header.height)
  }

  /** The checks of a count against its parent, given the target the retarget rule demands. */
  ghost predicate CheckContext(w: World, counts: Counts, count: Count, target: nat)
    requires IsTree(w, counts) && count.header.previous in counts
  {
    var header, parent := count.header, Header(counts, count.header.previous);
    && header.height == parent.height + 1
    && header.target == target
    && header.pointWork == parent.pointWork + CountWork(header.target)
    && header.time > MedianTime.Median(Times(PathTo(w, counts, header.previous)))
    && AllIncludable(w, count)
  }

  // ----- connecting a branch

  ghost predicate Connects(below: Blocks, b: Block, prune: bool, descends: Descends)
    requires AllWellFormed(below)
  {
    Extends(below, b, prune) && Admits(descends, b.count)
  }

  /** The lowest height from `k` on whose count cannot be connected, or the length of the path. */
  ghost function FirstFailure(path: Blocks, k: nat, prune: bool, descends: Descends): (n: nat)
    requires k <= |path| && AllWellFormed(path)
    ensures k <= n <= |path|
    ensures forall h :: k <= h < n ==> Connects(path[..h], path[h], prune, descends)
    ensures n < |path| ==> !Connects(path[..n], path[n], prune, descends)
    decreases |path| - k
  {
    hide Connects;
    if k == |path| || !Connects(path[..k], path[k], prune, descends) then k
    else FirstFailure(path, k + 1, prune, descends)
  }

  lemma FirstFailureUnique(path: Blocks, k: nat, prune: bool, descends: Descends, n: nat)
    requires AllWellFormed(path) && k <= n <= |path|
    requires forall h :: k <= h < n ==> Connects(path[..h], path[h], prune, descends)
    requires n < |path| ==> !Connects(path[..n], path[n], prune, descends)
    ensures FirstFailure(path, k, prune, descends) == n
    decreases n - k
  {
    if k < n {
      FirstFailureUnique(path, k + 1, prune, descends, n);
    }
  }

  lemma PathWellFormed(w: World, counts: Counts, id: CountID)
    requires IsTree(w, counts) && IsSoundTree(w, counts) && id in counts
    ensures AllWellFormed(PathTo(w, counts, id))
  {
    var path := PathTo(w, counts, id);
    forall h | 0 <= h < |path| ensures WellFormed(path[h].count) {
      assert IsStored(counts, path[h], h);
    }
  }

  // ----- storing a count

  function Store(s: State, e: Event): State { s.(counts := s.counts[e.id := Stored(e.count, e.now)]) }

  /** An event carries a count and its own ID, which commits to the whole count at genesis. */
  ghost predicate Honest(w: World, e: Event)
  {
    e.id == w.headerID(e.count.header) && (e.id == w.genesisID ==> e.count == w.genesis)
  }

  lemma CheckedIsWellFormed(w: World, id: CountID, count: Count, now: int)
    requires CheckCount(w, id, count, now)
    ensures WellFormed(count)
  {
  }

  lemma StoreKeepsTree(w: World, counts: Counts, known: set<CountID>, id: CountID, stored: Stored)
    requires ValidWorld(w) && IsTree(w, counts) && ParentsKnown(w, counts, known) && known <= counts.Keys
    requires id !in known && id == w.headerID(stored.count.header)
    requires var header := stored.count.header;
      if id == w.genesisID then header.height == 0 && header.previous == 0
      else header.previous in known && header.height > 0 && header.height == Header(counts, header.previous).height + 1
    ensures IsTree(w, counts[id := stored])
    ensures forall x :: x in counts && x != id ==> PathTo(w, counts[id := stored], x) == PathTo(w, counts, x)
  {
    hide PathTo;
    var counts' := counts[id := stored];
    forall x | x in counts' ensures Rooted(w, counts', x) {
      if x != id {
        assert Rooted(w, counts, x);
      }
    }
    forall x | x in counts && x != id ensures PathTo(w, counts', x) == PathTo(w, counts, x) {
      PathFrame(w, counts, counts', id, x);
    }
  }

  /** What the checks establish about the count that is about to be stored. */
  ghost predicate Storable(w: World, counts: Counts, known: set<CountID>, e: Event)
    requires IsTree(w, counts) && known <= counts.Keys
  {
    && e.id !in known && CheckCount(w, e.id, e.count, e.now)
    && (if e.id == w.genesisID then e.count.header.previous !in known
        else e.count.header.previous in known && CheckContext(w, counts, e.count, e.target))
  }

  lemma StorableFacts(w: World, counts: Counts, known: set<CountID>, e: Event)
    requires ValidWorld(w) && Honest(w, e) && IsTree(w, counts) && known <= counts.Keys && Storable(w, counts, known, e)
    ensures WellFormed(e.count) && AllVerified(w, e.count) && AllCheckSeries(e.count, e.count.header.height)
    ensures 0 < e.count.header.target < TWO_256 && Checked(w, e.id, Stored(e.count, e.now))
    ensures e.id == w.genesisID ==> e.count.header.height == 0 && e.count.header.previous == 0
    ensures e.id != w.genesisID ==> CheckContext(w, counts, e.count, e.target) && e.count.header.height > 0
    ensures e.id != w.genesisID ==> e.count.header.height == Header(counts, e.count.header.previous).height + 1
  {
    hide PathTo, MaxConsiderations, CheckSeries, IDsOf, CountWork, MedianTime.Median;
    if e.id != w.genesisID {
      assert Rooted(w, counts, e.count.header.previous);
    }
  }

  /** Storing another count leaves the context of a stored count alone. */
  lemma InContextFrame(w: World, counts: Counts, known: set<CountID>, id: CountID, stored: Stored, x: CountID)
    requires IsTree(w, counts) && ParentsKnown(w, counts, known) && id !in known
    requires x in counts && x != id && x != w.genesisID && InContext(w, counts, x)
    requires IsTree(w, counts[id := stored])
    requires forall y :: y in counts && y != id ==> PathTo(w, counts[id := stored], y) == PathTo(w, counts, y)
    ensures InContext(w, counts[id := stored], x)
  {
    hide PathTo, IsSoundTree, CountWork, MedianTime.Median, Times;
    assert Rooted(w, counts, x) && Rooted(w, counts[id := stored], x);
  }

  lemma NewInContext(w: World, counts: Counts, known: set<CountID>, e: Event)
    requires IsTree(w, counts) && known <= counts.Keys && e.id !in known && e.id != w.genesisID
    requires e.count.header.previous in known && CheckContext(w, counts, e.count, e.target) && e.count.header.target > 0
    requires IsTree(w, counts[e.id := Stored(e.count, e.now)])
    requires forall y :: y in counts && y != e.id ==>
      PathTo(w, counts[e.id := Stored(e.count, e.now)], y) == PathTo(w, counts, y)
    ensures InContext(w, counts[e.id := Stored(e.count, e.now)], e.id)
  {
    hide PathTo, IsSoundTree, CountWork, MedianTime.Median, Times;
    assert Rooted(w, counts[e.id := Stored(e.count, e.now)], e.id);
    assert Rooted(w, counts, e.count.header.previous);
  }

  lemma StoreKeepsSoundTree(w: World, counts: Counts, known: set<CountID>, e: Event)
    requires ValidWorld(w) && Honest(w, e) && IsTree(w, counts) && IsSoundTree(w, counts)
    requires ParentsKnown(w, counts, known) && known <= counts.Keys && Storable(w, counts, known, e)
    ensures var counts' := counts[e.id := Stored(e.count, e.now)];
      IsTree(w, counts') && IsSoundTree(w, counts')
    ensures forall x :: x in counts && x != e.id ==>
      PathTo(w, counts[e.id := Stored(e.count, e.now)], x) == PathTo(w, counts, x)
  {
    hide PathTo, CheckCount, CheckContext, WellFormed, AllVerified, AllCheckSeries, ValidWorld, IsTree, InContext, Checked;
    StorableFacts(w, counts, known, e);
    StoreKeepsTree(w, counts, known, e.id, Stored(e.count, e.now));
    var counts' := counts[e.id := Stored(e.count, e.now)];
    forall x | x in counts' && x != w.genesisID ensures InContext(w, counts', x) {
      if x != e.id {
        InContextFrame(w, counts, known, e.id, Stored(e.count, e.now), x);
      } else {
        NewInContext(w, counts, known, e);
      }
    }
  }

  lemma StoreKeepsStructure(w: World, s: State, e: Event, prune: bool)
    requires ValidWorld(w) && Structured(w, s, prune) && Honest(w, e) && Storable(w, s.counts, s.known, e)
    ensures Structured(w, Store(s, e), prune)
    ensures TipIsBest(s) ==> TipIsBest(Store(s, e))
    ensures forall x :: x in s.counts && x != e.id ==>
      PathTo(w, Store(s, e).counts, x) == PathTo(w, s.counts, x)
  {
    hide Sound, PathTo, IsTree, IsSoundTree, CheckCount, CheckContext, CountWork;
    StoreKeepsSoundTree(w, s.counts, s.known, e);
  }

  // ----- switching branches

  /** Every count of the main chain has a branch type. */
  lemma {:induction false} ChainKnown(w: World, s: State, prune: bool, id: CountID)
    requires Structured(w, s, prune) && id in s.known
    ensures forall h :: 0 <= h < |PathTo(w, s.counts, id)| ==> PathTo(w, s.counts, id)[h].id in s.known
    decreases Header(s.counts, id).height
  {
    hide IsSoundTree, Sound, InContext;
    assert Rooted(w, s.counts, id);
    if id == w.genesisID {
    } else {
      assert Header(s.counts, id).previous in s.known;
      ChainKnown(w, s, prune, Header(s.counts, id).previous);
    }
  }

  /** Paths through one tree share genesis. */
  lemma ForkAboveGenesis(w: World, s: State, prune: bool, id: CountID)
    requires Structured(w, s, prune) && s.chain != [] && id in s.counts
    ensures Fork(s.chain, PathTo(w, s.counts, id)) >= 1
  {
    hide IsSoundTree, Sound, PathTo;
    var path := PathTo(w, s.counts, id);
    PathStartsAtGenesis(w, s.counts, id);
    PathStartsAtGenesis(w, s.counts, TipID(s));
    assert IsStored(s.counts, path[0], 0) && IsStored(s.counts, s.chain[0], 0);
  }
}
