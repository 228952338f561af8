/** The count a renderer assembles from the front of the queue, and its running hash list. */
module Renderer {
  import opened Considerations
  import opened Balances
  import opened Chain
  import opened Ledger
  import opened Work
  import opened Tree
  import opened Queue
  import opened Replay
  import opened ChainSelection
  import opened Runs
  import opened Processor
  import Idle
  import MedianTime

  const MAX_CONSIDERATIONS_TO_INCLUDE: nat := 10000

  /** SHA3-256 of a list of IDs, and of an ID followed by a digest. */
  datatype Hashing = Hashing(sum: seq<ConsiderationID> -> nat, pair: (ConsiderationID, nat) -> nat)

  /** The counterpoint's ID over the digest of all other IDs. */
  function ListRoot(hashing: Hashing, cns: seq<Consideration>): nat
    requires cns != []
  {
    hashing.pair(cns[0].ID(), hashing.sum(ListIDs(cns[1..])))
  }

  /** Hashing that never maps two inputs to one digest. */
  ghost predicate CollisionFree(hashing: Hashing)
  {
    && (forall s, t :: hashing.sum(s) == hashing.sum(t) ==> s == t)
    && (forall a, b, x, y :: hashing.pair(a, x) == hashing.pair(b, y) ==> a == b && x == y)
  }

  /** The root commits to the IDs of the list, in order. */
  lemma RootCommits(hashing: Hashing, a: seq<Consideration>, b: seq<Consideration>)
    requires a != [] && b != [] && CollisionFree(hashing) && ListRoot(hashing, a) == ListRoot(hashing, b)
    ensures |a| == |b| && forall i :: 0 <= i < |a| ==> a[i].ID() == b[i].ID()
  {
    hide ListIDs;
    ListIDsAt(a[1..]);
    ListIDsAt(b[1..]);
    assert ListIDs(a[1..]) == ListIDs(b[1..]);
    forall i | 0 <= i < |a| ensures a[i].ID() == b[i].ID() {
      if i > 0 {
        assert a[i] == a[1..][i - 1] && b[i] == b[1..][i - 1];
      }
    }
  }

  class RenderedCount {
    const hashing: Hashing
    var header: CountHeader
    var considerations: seq<Consideration>
    /** The IDs the running hash has absorbed. */
    var hasher: seq<ConsiderationID>

    /** The header commits to the list, and the running hash to all of it but the counterpoint. */
    ghost predicate Valid()
      reads this
    {
      && considerations != [] && hasher == ListIDs(considerations[1..])
      && header.hashListRoot == ListRoot(hashing, considerations)
      && header.considerationCount == |considerations|
    }

    constructor (hashing: Hashing, previous: CountID, height: int, target: nat, pointWork: nat, time: int, nonce: int,
                 cns: seq<Consideration>)
      requires cns != []
      ensures Valid() && this.hashing == hashing && considerations == cns
      ensures header == CountHeader(previous, ListRoot(hashing, cns), time, target, pointWork + CountWork(target),
                                    nonce, height, |cns|)
    {
      this.hashing := hashing;
      considerations := cns;
      var ids: seq<ConsiderationID> := [];
      for i := 1 to |cns|
        invariant ids == ListIDs(cns[1..i])
      {
        assert cns[1..i + 1][..i - 1] == cns[1..i];
        ids := ids + [cns[i].ID()];
      }
      hasher := ids;
      header := CountHeader(previous, hashing.pair(cns[0].ID(), hashing.sum(ids)), time, target,
                            pointWork + CountWork(target), nonce, height, |cns|);
      assert cns[1..|cns|] == cns[1..];
    }

    /** Appending updates the root from the running hash, yet to the root of the whole new list. */
    method AddConsideration(id: ConsiderationID, cn: Consideration)
      requires Valid() && id == cn.ID()
      modifies this
      ensures Valid() && considerations == old(considerations) + [cn]
      ensures header == old(header).(hashListRoot := ListRoot(hashing, considerations),
                                     considerationCount := |considerations|)
    {
      hasher := hasher + [id];
      header := header.(hashListRoot := hashing.pair(considerations[0].ID(), hashing.sum(hasher)));
      assert (considerations + [cn])[1..][..|considerations| - 1] == considerations[1..];
      considerations := considerations + [cn];
      header := header.(considerationCount := header.considerationCount + 1);
    }
  }

  function Counterpoint(key: PublicKey, height: int, memo: string, time: int, nonce: int): Consideration
  {
    Consideration(time, nonce, None, key, memo, 0, 0, ComputeSeries(true, height), [])
  }

  /** The rendered counterpoint passes every check on a counterpoint at its height. */
  lemma CounterpointPasses(key: PublicKey, height: nat, memo: string, time: int, nonce: int)
    requires |key.bytes| == 32 && |memo| <= 150 && 0 <= time <= 9007199254740991 && nonce >= 0 && height <= 9007199254740991
    ensures var cn := Counterpoint(key, height, memo, time, nonce);
      cn.IsCounterPoint() && cn.recipient == key && CheckConsideration(cn) && CheckSeries(cn, height)
  {
    SeriesGrace(Counterpoint(key, height, memo, time, nonce), height, height);
  }

  /** A new count off the tip; the clock, the random numbers and the target are the caller's. */
  method CreateNextCount(p: Processor, hashing: Hashing, key: PublicKey, memo: string, time: int, nonce: int,
                         cnTime: int, cnNonce: int, target: nat) returns (c: RenderedCount)
    requires p.Consistent() && p.ledger.chain != []
    ensures c.Valid() && fresh(c)
    ensures c.considerations == [Counterpoint(key, |p.ledger.chain|, memo, cnTime, cnNonce)]
      + (if |p.queue.Contents()| < 9999 then p.queue.Contents() else p.queue.Contents()[..9999])
    ensures c.header.previous == Last(p.ledger.chain).id && c.header.height == |p.ledger.chain|
    ensures c.header.target == target && c.header.pointWork == Last(p.ledger.chain).count.header.pointWork + CountWork(target)
  {
    hide Processor.Consistent, CountWork, LedgerDisk.Valid, Structured, IsTree, WellFormed, ListRoot;
    p.TipFacts();
    p.ChainIsStored();
    ghost var chain := p.ledger.chain;
    var tipID := p.ledger.t.tip.value.id;
    var tipHeader := p.store.counts[tipID].count.header;
    assert IsStored(p.store.counts, chain[|chain| - 1], |chain| - 1);
    var cns := p.queue.Get(MAX_CONSIDERATIONS_TO_INCLUDE - 1);
    var counterpoint := Counterpoint(key, tipHeader.height + 1, memo, cnTime, cnNonce);
    c := new RenderedCount(hashing, tipID, tipHeader.height + 1, target, tipHeader.pointWork, time, nonce, [counterpoint] + cns);
  }

  /** Whatever prefix of a settled queue follows a fresh counterpoint, the ledger accepts the count. */
  lemma NextCountConnects(p: Processor, n: nat, b: Block, descends: Descends)
    requires p.Consistent() && p.ledger.chain != [] && p.queue.Settled()
    requires Solvent(p.ledger.t.balances, p.queue.Now())
    requires n <= |p.queue.Contents()|
    requires b.count.header.height == |p.ledger.chain| && b.count.header.previous == Last(p.ledger.chain).id
    requires var cns := b.count.considerations;
      cns != [] && cns[0].IsCounterPoint()
      && CheckSeries(cns[0], |p.ledger.chain|) && cns[0].ID() !in p.ledger.t.cnIndex
      && cns[1..] == p.queue.Contents()[..n]
    ensures AllWellFormed(p.ledger.chain)
    ensures Connects(p.ledger.chain, b, p.ledger.prune, descends) <==> Admits(descends, b.count)
  {
    hide Structured, Extends, Represents, OnlyChainIsMain, ValidWorld, Covered, MoveAll, CheckSeries, Agree, Flagged, Solvent, Accounts;
    p.TipFacts();
    p.LedgerFacts();
    p.QueueFacts();
    SettledFacts(p);
    NextCountExtends(p.w, p.ledger.chain, p.ledger.prune, p.queue.Contents(), n, b);
  }

  lemma SettledFacts(p: Processor)
    requires p.Consistent() && p.queue.Settled() && Solvent(p.ledger.t.balances, p.queue.Now())
    ensures AllWellFormed(p.ledger.chain) && Covered(BalancesOf(p.ledger.chain), p.queue.Contents())
    ensures forall i :: 0 <= i < |p.queue.Contents()| ==> Current(p.queue.Contents()[i], |p.ledger.chain|)
    ensures Distinct(p.queue.Contents())
  {
    hide Structured, Extends, Covered, MoveAll, BalancesOf, Current, Flagged, Accounts;
  }

  lemma NextCountExtends(w: World, chain: Blocks, prune: bool, queued: seq<Consideration>, n: nat, b: Block)
    requires Sound(chain, prune) && chain != [] && n <= |queued|
    requires Unconfirmed(w, queued, chain) && Distinct(queued) && Covered(BalancesOf(chain), queued)
    requires forall i :: 0 <= i < |queued| ==> Current(queued[i], |chain|)
    requires b.count.header.height == |chain| && b.count.header.previous == Last(chain).id
    requires var cns := b.count.considerations;
      cns != [] && cns[0].IsCounterPoint()
      && CheckSeries(cns[0], |chain|) && cns[0].ID() !in IndexedIDs(chain, Lowest(|chain|, prune))
      && cns[1..] == queued[..n]
    ensures Extends(chain, b, prune)
  {
    hide Covered, BalancesOf, IndexedIDs, CheckSeries;
    var cns := b.count.considerations;
    forall i | 1 <= i < |cns| ensures cns[i] == queued[i - 1] {
      assert cns[i] == cns[1..][i - 1];
    }
    NextCountWellFormed(w, chain, queued, b.count);
    NextCountCovered(chain, prune, queued, n);
    NextCountIsNew(w, chain, prune, queued, b.count);
  }

  lemma NextCountWellFormed(w: World, chain: Blocks, queued: seq<Consideration>, count: Count)
    requires Unconfirmed(w, queued, chain) && Distinct(queued)
    requires var cns := count.considerations;
      cns != [] && cns[0].IsCounterPoint() && |cns| <= |queued| + 1 && forall i :: 1 <= i < |cns| ==> cns[i] == queued[i - 1]
    ensures WellFormed(count)
  {
    var cns := count.considerations;
    forall j | 1 <= j < |cns| ensures cns[0].ID() != cns[j].ID() {
      assert cns[0].ID().content.sender != cns[j].ID().content.sender;
    }
    DistinctCardinality(cns, |cns|);
  }

  /** A matured counterpoint only adds funds, so what the queue could pay it still can. */
  lemma NextCountCovered(chain: Blocks, prune: bool, queued: seq<Consideration>, n: nat)
    requires Sound(chain, prune) && n <= |queued| && Covered(BalancesOf(chain), queued)
    ensures Covered(BalancesOf(chain), Optional(Matured(chain)) + queued[..n])
  {
    hide Extends, BalancesOf;
    var m, matured := BalancesOf(chain), Matured(chain);
    CoveredPrefix(m, queued, n);
    if matured.Some? {
      assert WellFormed(chain[|chain| - COUNTERPOINT_MATURITY].count);
      AppliedNothing(m);
      MoveAllPush(m, [], matured.value);
      assert [] + [matured.value] == [matured.value];
      forall k ensures Get(m, k) <= Get(Move(m, matured.value), k) {
        MoveEffect(m, matured.value, k);
      }
      CoveredMonotone(m, Move(m, matured.value), queued[..n]);
      MoveAllConcat(m, [matured.value], queued[..n]);
    } else {
      assert [] + queued[..n] == queued[..n];
    }
  }

  lemma NextCountIsNew(w: World, chain: Blocks, prune: bool, queued: seq<Consideration>, count: Count)
    requires Unconfirmed(w, queued, chain)
    requires var cns := count.considerations;
      cns != [] && |cns| <= |queued| + 1 && (forall i :: 1 <= i < |cns| ==> cns[i] == queued[i - 1])
      && cns[0].ID() !in IndexedIDs(chain, Lowest(|chain|, prune))
    ensures IDsOf(count) !! IndexedIDs(chain, Lowest(|chain|, prune))
  {
    hide IndexedIDs;
    var lo := Lowest(|chain|, prune);
    assert IndexedIDs(chain, lo) <= IndexedIDs(chain, 0) by {
      forall id | id in IndexedIDs(chain, lo) ensures id in IndexedIDs(chain, 0) {
        var h, i := Locate(chain, lo, id);
        IndexedFrom(chain, 0, h, i);
      }
    }
  }

  // ----- a rendered count with its proof of work

  /** What the renderer's clock, random numbers and search give the header of a count on top of the tip. */
  ghost predicate Worked(w: World, e: Event, tip: Block, times: seq<int>)
    requires times != []
  {
    var header := e.count.header;
    && e.id == w.headerID(header) && e.id <= header.target < TWO_256
    && header.target == e.target && header.pointWork == tip.count.header.pointWork + CountWork(e.target)
    && MedianTime.Median(times) < header.time <= e.now + 7200 && 0 <= header.time <= 9007199254740991
    && 0 <= header.nonce <= 9007199254740991 && header.previous == tip.id && header.height == tip.count.header.height + 1
    && header.height <= 9007199254740991
  }

  /** The list is a checked counterpoint and entries from the front of the queue, and the header commits to it. */
  ghost predicate Listed(w: World, count: Count, queued: seq<Consideration>)
  {
    var cns := count.considerations;
    && 0 < |cns| <= 10000 && |cns| <= |queued| + 1 && cns[1..] == queued[..|cns| - 1]
    && cns[0].IsCounterPoint() && CheckSeries(cns[0], count.header.height)
    && CheckConsideration(cns[0])
    && count.header.considerationCount == |cns| && count.header.hashListRoot == w.listRoot(cns)
  }

  lemma {:induction false} PowerIsPositive(n: nat)
    ensures Power2(n) >= 1
  {
    if n == 0 {
    } else {
      PowerIsPositive(n - 1);
    }
  }

  lemma EnoughRoom(height: nat)
    ensures MaxConsiderations(height) >= MAX_CONSIDERATIONS_TO_INCLUDE
  {
    hide Power2;
    PowerIsPositive(height / DOUBLING_PERIOD);
    var n := INITIAL_MAX_CONSIDERATIONS * Power2(height / DOUBLING_PERIOD);
    var r := height % DOUBLING_PERIOD;
    assert n * r >= 0;
  }

  lemma RenderedChecks(w: World, e: Event, tip: Block, times: seq<int>, queued: seq<Consideration>, chain: Blocks)
    requires times != [] && Worked(w, e, tip, times) && Listed(w, e.count, queued) && WellFormed(e.count)
    requires tip.count.header.height >= 0 && Unconfirmed(w, queued, chain)
    ensures CheckCount(w, e.id, e.count, e.now)
  {
    hide MaxConsiderations, CheckConsideration, MedianTime.Median, CountWork, CheckSeries, IDsOf, IndexedIDs;
    EnoughRoom(e.count.header.height);
    var cns := e.count.considerations;
    forall i | 0 <= i < |cns| ensures CheckConsideration(cns[i]) {
      if i > 0 {
        assert cns[i] == cns[1..][i - 1] == queued[i - 1];
      }
    }
  }

  lemma RenderedIncludable(w: World, count: Count, queued: seq<Consideration>, chain: Blocks)
    requires Listed(w, count, queued) && Unconfirmed(w, queued, chain)
    requires forall i :: 0 <= i < |queued| ==> Current(queued[i], count.header.height)
    ensures AllIncludable(w, count)
  {
    hide CheckConsideration, CheckSeries, IndexedIDs;
    var cns := count.considerations;
    forall i | 0 <= i < |cns| ensures Includable(w, cns[i], count.header.height) {
      if i > 0 {
        assert cns[i] == cns[1..][i - 1] == queued[i - 1];
      }
    }
  }

  /** With a proof of work, such a count passes every check, and becomes the tip where the descent check admits it. */
  lemma RenderedCountIsNext(p: Processor, e: Event)
    requires p.Consistent() && p.ledger.chain != [] && p.queue.Settled() && Solvent(p.ledger.t.balances, p.queue.Now())
    requires Honest(p.w, e) && e.id !in p.Abs().known
    requires Worked(p.w, e, Last(p.ledger.chain), Times(p.ledger.chain)) && Listed(p.w, e.count, p.queue.Contents())
    requires e.count.considerations[0].ID() !in p.ledger.t.cnIndex && Admits(e.descends, e.count)
    ensures Structured(p.w, p.Abs(), p.ledger.prune) && ValidWorld(p.w)
    ensures Step(p.w, p.Abs(), e, p.ledger.prune).chain == p.ledger.chain + [Block(e.id, e.count)]
  {
    hide Extends, OnlyChainIsMain, ValidWorld, Covered, CheckSeries, Agree, Flagged, Solvent, Accounts, CheckConsideration, IsSoundTree,
      MedianTime.Median, CountWork, Admits, Step, Represents, IsTree, PathTo, CheckCount, AllIncludable, Sound, ParentsKnown, Current,
      IndexedIDs, WellFormed;
    var chain, queued := p.ledger.chain, p.queue.Contents();
    p.TipFacts();
    p.LedgerFacts();
    p.QueueFacts();
    p.ChainIsStored();
    assert IsStored(p.store.counts, chain[|chain| - 1], |chain| - 1);
    SettledFacts(p);
    NextCountConnects(p, |e.count.considerations| - 1, Block(e.id, e.count), e.descends);
    ConnectsIsWellFormed(chain, Block(e.id, e.count), p.ledger.prune, e.descends);
    RenderedChecks(p.w, e, Last(chain), Times(chain), queued, chain);
    RenderedIncludable(p.w, e.count, queued, chain);
    ExtendsTip(p.w, p.Abs(), e, p.ledger.prune);
  }

  lemma ConnectsIsWellFormed(chain: Blocks, b: Block, prune: bool, descends: Descends)
    requires AllWellFormed(chain) && Connects(chain, b, prune, descends)
    ensures WellFormed(b.count)
  {
  }

  /** So it is in every state of a run without strays in which nothing was rejected late since the last rebuild. */
  lemma IdleCountIsNext(p: Processor, inputs: seq<Idle.Input>, e: Event)
    requires p.Consistent() && ValidWorld(p.w) && Idle.AllHonest(p.w, inputs) && Idle.Held(p) == Idle.After(p.w, inputs, p.ledger.prune)
    requires Idle.NoneStrays(p.w, inputs, p.ledger.prune) && !Idle.LateSince(p.w, inputs, p.ledger.prune)
    requires p.ledger.chain != [] && Honest(p.w, e) && e.id !in p.Abs().known
    requires Worked(p.w, e, Last(p.ledger.chain), Times(p.ledger.chain)) && Listed(p.w, e.count, p.queue.Contents())
    requires e.count.considerations[0].ID() !in p.ledger.t.cnIndex && Admits(e.descends, e.count)
    ensures Structured(p.w, p.Abs(), p.ledger.prune)
    ensures Step(p.w, p.Abs(), e, p.ledger.prune).chain == p.ledger.chain + [Block(e.id, e.count)]
  {
    hide Processor.Consistent, ValidWorld, Idle.AllHonest, Idle.After, Idle.NoneStrays, Idle.LateSince, Structured, Step, Worked, Listed,
      Honest, Admits, Solvent;
    Idle.IsWorth(p, inputs);
    RenderedCountIsNext(p, e);
  }
}
