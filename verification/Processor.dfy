/** The processor: it validates counts and considerations and keeps the ledger on the best chain. */
module Processor {
  import opened Considerations
  import opened Balances
  import opened Chain
  import opened Ledger
  import opened Work
  import opened Tree
  import opened Queue
  import opened ChainSelection
  import opened Acceptance
  import opened Runs
  import opened Following
  import opened Replay
  import MedianTime

  /** Only counts on the chain are called MAIN. */
  ghost predicate OnlyChainIsMain(branch: map<CountID, BranchType>, chain: Blocks)
  {
    forall id :: id in branch && branch[id] == MAIN ==> id in ChainIDs(chain)
  }

  /** The counts on the chain that are called SIDE nevertheless. */
  function Flagged(branch: map<CountID, BranchType>, chain: Blocks): set<CountID>
  {
    set id | id in ChainIDs(chain) && id in branch && branch[id] == SIDE
  }

  /** Queued entries are checked and verified transfers that the chain does not confirm. */
  ghost predicate Unconfirmed(w: World, queued: seq<Consideration>, chain: Blocks)
  {
    forall i :: 0 <= i < |queued| ==>
      && !queued[i].IsCounterPoint() && queued[i].sender != Some(queued[i].recipient)
      && CheckConsideration(queued[i]) && w.verify(queued[i]) && queued[i].ID() !in IndexedIDs(chain, 0)
  }

  /** The IDs of a path from index `i` up, lowest first. */
  ghost function IDsFrom(path: Blocks, i: nat): seq<CountID>
    requires i <= |path|
    decreases |path| - i
  {
    if i == |path| then [] else [path[i].id] + IDsFrom(path, i + 1)
  }

  /** The IDs of a path from index `i` up, highest first. */
  ghost function IDsDownTo(path: Blocks, i: nat): seq<CountID>
    requires i <= |path|
    decreases |path| - i
  {
    if i == |path| then [] else IDsDownTo(path, i + 1) + [path[i].id]
  }

  class Processor {
    const w: World
    const store: CountStorage
    const ledger: LedgerDisk
    const queue: ConsiderationQueueMemory

    constructor (w: World, prune: bool)
      requires ValidWorld(w)
      ensures this.w == w && ledger.prune == prune && Consistent()
      ensures Abs() == State(map[], [], {}, {}) && queue.Now() == QueueState([], map[], []) && queue.Settled()
    {
      var countStore := new CountStorage();
      var emptyLedger := new LedgerDisk(countStore, prune);
      this.w := w;
      store := countStore;
      ledger := emptyLedger;
      queue := new ConsiderationQueueMemory(emptyLedger);
      new;
      EmptyIsStructured(w, prune);
      EmptyAccounts(map[]);
    }

    ghost function Abs(): State
      reads store, ledger
    {
      State(store.counts, ledger.chain, ledger.t.branch.Keys, Side())
    }

    ghost function Side(): set<CountID>
      reads ledger
    {
      Flagged(ledger.t.branch, ledger.chain)
    }

    /** What holds between any two ledger operations. */
    ghost predicate Consistent()
      reads store, ledger, ledger.store, queue
    {
      && ledger.store == store && queue.ledger == ledger && queue.imbalanceCache.ledger == ledger
      && ValidWorld(w)
      && ledger.Valid() && queue.Valid()
      && Structured(w, Abs(), ledger.prune)
      && OnlyChainIsMain(ledger.t.branch, ledger.chain)
      && Unconfirmed(w, queue.Contents(), ledger.chain)
    }

    /** The IDs passed when walking the current branch back to a height, and the ancestor there. */
    method LeaveDownTo(tipID: CountID, minHeight: int, ghost p: Blocks) returns (id: CountID, toDisconnect: seq<CountID>)
      requires IsTree(w, store.counts) && tipID in store.counts && p == PathTo(w, store.counts, tipID)
      requires 0 <= minHeight <= Header(store.counts, tipID).height
      ensures id in store.counts && Header(store.counts, id).height == minHeight
      ensures OnPath(w, store.counts, p, id, Header(store.counts, id)) && toDisconnect == IDsDownTo(p, minHeight + 1)
    {
      hide PathTo, IsTree;
      var counts := store.counts;
      PathEnds(w, counts, tipID);
      id, toDisconnect := tipID, [];
      while Header(counts, id).height > minHeight
        invariant id in counts && OnPath(w, counts, p, id, Header(counts, id)) && minHeight <= Header(counts, id).height
        invariant toDisconnect == IDsDownTo(p, Header(counts, id).height + 1)
        decreases Header(counts, id).height
      {
        PathParent(w, counts, p, id, Header(counts, id));
        toDisconnect := toDisconnect + [id];
        id := Header(counts, id).previous;
      }
    }

    /** The IDs passed when walking the new branch back to a height, lowest first, and the ancestor there. */
    method AdoptDownTo(parentID: CountID, minHeight: int, ghost q: Blocks) returns (id: CountID, toConnect: seq<CountID>)
      requires IsTree(w, store.counts) && parentID in store.counts && q == PathTo(w, store.counts, parentID)
      requires 0 <= minHeight <= Header(store.counts, parentID).height
      ensures id in store.counts && Header(store.counts, id).height == minHeight
      ensures OnPath(w, store.counts, q, id, Header(store.counts, id)) && toConnect == IDsFrom(q, minHeight + 1)
    {
      hide PathTo, IsTree;
      var counts := store.counts;
      PathEnds(w, counts, parentID);
      id, toConnect := parentID, [];
      while Header(counts, id).height > minHeight
        invariant id in counts && OnPath(w, counts, q, id, Header(counts, id)) && minHeight <= Header(counts, id).height
        invariant toConnect == IDsFrom(q, Header(counts, id).height + 1)
        decreases Header(counts, id).height
      {
        PathParent(w, counts, q, id, Header(counts, id));
        toConnect := [id] + toConnect;
        id := Header(counts, id).previous;
      }
    }

    /** The ancestors to leave and to adopt, found by walking both branches back to where they part. */
    method FindFork(tipID: CountID, parentID: CountID) returns (toDisconnect: seq<CountID>, toConnect: seq<CountID>)
      requires IsTree(w, store.counts) && tipID in store.counts && parentID in store.counts
      ensures var p, q := PathTo(w, store.counts, tipID), PathTo(w, store.counts, parentID);
        toDisconnect == IDsDownTo(p, Fork(p, q)) && toConnect == IDsFrom(q, Fork(p, q))
    {
      hide PathTo, IDsFrom, IDsDownTo, Fork;
      var counts := store.counts;
      ghost var p, q := PathTo(w, counts, tipID), PathTo(w, counts, parentID);
      PathEnds(w, counts, tipID);
      PathEnds(w, counts, parentID);
      var tipHeight, newHeight := Header(counts, tipID).height, Header(counts, parentID).height;
      var minHeight := if newHeight < tipHeight then newHeight else tipHeight;
      var tipAncestorID, newAncestorID: CountID;
      tipAncestorID, toDisconnect := LeaveDownTo(tipID, minHeight, p);
      newAncestorID, toConnect := AdoptDownTo(parentID, minHeight, q);
      var tipAncestor, newAncestor := Header(counts, tipAncestorID), Header(counts, newAncestorID);
      SameGenesis(w, counts, tipID, parentID);
      while newAncestor != tipAncestor
        invariant Walked(w, counts, p, q, tipAncestorID, newAncestorID, toDisconnect, toConnect)
        invariant tipAncestor == Header(counts, tipAncestorID) && newAncestor == Header(counts, newAncestorID)
        decreases tipAncestor.height
      {
        WalkedStep(w, counts, p, q, tipAncestorID, newAncestorID, toDisconnect, toConnect);
        toDisconnect := toDisconnect + [tipAncestorID];
        toConnect := [newAncestorID] + toConnect;
        tipAncestorID := tipAncestor.previous;
        tipAncestor := Header(counts, tipAncestorID);
        newAncestorID := newAncestor.previous;
        newAncestor := Header(counts, newAncestorID);
      }
      CommonAncestor(w, counts, tipID, parentID, tipAncestorID, newAncestorID);
    }

    /** Update the ledger and the queue for a count on top of the tip. */
    method ConnectCount(id: CountID, count: Count, more: bool, descends: Descends) returns (error: Option<Error>)
      requires Consistent() && id in store.counts && store.counts[id].count == count
      requires if id == w.genesisID then ledger.chain == []
        else ledger.chain != [] && count.header.previous == TipID(Abs())
      modifies ledger, queue, queue.imbalanceCache
      ensures Consistent() && AllWellFormed(old(ledger.chain))
      ensures error.None? <==> Connects(old(ledger.chain), Block(id, count), ledger.prune, descends)
      ensures error.None? ==> ledger.chain == old(ledger.chain) + [Block(id, count)]
      ensures error.None? ==> ledger.t.branch.Keys == old(ledger.t.branch.Keys) + {id} && Side() == old(Side())
      ensures error.None? ==>
        queue.Now() == QConnect(old(queue.Now()), ledger.t.balances, Block(id, count), more, |ledger.chain|, descends)
      ensures error.Some? ==> ledger.t == old(ledger.t) && ledger.chain == old(ledger.chain) && queue.Now() == old(queue.Now())
    {
      hide Consistent, LedgerDisk.Valid, ConsiderationQueueMemory.Valid, Structured,
        OnlyChainIsMain, Unconfirmed, ValidWorld, Extends, Connects, Admits, WellFormed, AllWellFormed, AllCheckSeries,
        Sift, Excluding, ListIDs, LedgerDisk.Holds, Distinct, IDsBetween, SetOf, IDSet, Flagged, PathTo, IsTree;
      ghost var chain, branch, queued := ledger.chain, ledger.t.branch, queue.Contents();
      ConnectReady(Block(id, count), descends);
      var cnIDs := ledger.ConnectCount(id, count, descends);
      if cnIDs.Err? {
        ConsistentIf();
        return Some(cnIDs.error);
      }
      queue.RemoveBatch(cnIDs.value[1..], count.header.height, more, descends);
      TransferIDs(Block(id, count));
      LeftOver(queued, count, ledger.t.balances, descends);
      UnconfirmedConnect(w, queued, queue.Contents(), chain, Block(id, count));
      BranchConnect(w, store.counts, branch, chain, Block(id, count));
      ExtendKeepsStructure(w, State(store.counts, chain, branch.Keys, Flagged(branch, chain)), Block(id, count), ledger.prune);
      assert ledger.t.branch.Keys == branch.Keys + {id};
      ConsistentIf();
      return None;
    }

    /** Undo the tip in the ledger and put its transfers at the front of the queue. */
    method DisconnectCount(id: CountID, count: Count)
      requires Consistent() && |ledger.chain| >= 2 && Last(ledger.chain) == Block(id, count)
      modifies ledger, queue
      ensures Consistent()
      ensures ledger.chain == Init(old(ledger.chain)) && ledger.t.branch.Keys == old(ledger.t.branch).Keys
      ensures Side() == old(Side()) * ChainIDs(ledger.chain)
      ensures queue.Now() == QDisconnect(old(queue.Now()), Block(id, count))
    {
      hide Consistent, LedgerDisk.Valid, ConsiderationQueueMemory.Valid, Structured,
        OnlyChainIsMain, Unconfirmed, ValidWorld, Extends, Connects, Admits, WellFormed, AllWellFormed, AllCheckSeries,
        Sift, Excluding, ListIDs, LedgerDisk.Holds, Distinct, IDsBetween, SetOf, Sound, AllVerified, IsTree, PathTo, IDSet, Flagged, ChainIDs;
      ghost var chain, branch, queued := ledger.chain, ledger.t.branch, queue.Contents();
      DisconnectReady(Block(id, count));
      var cnIDs := ledger.DisconnectCount(id, count);
      assert cnIDs.Ok?;
      queue.AddBatch(cnIDs.value[1..], count.considerations[1..]);
      UnconfirmedDisconnect(w, queued, chain, ledger.prune);
      BranchDisconnect(w, store.counts, branch, chain);
      TruncateKeepsStructure(w, State(store.counts, chain, branch.Keys, Flagged(branch, chain)), ledger.prune, |chain| - 1,
        Flagged(branch[id := SIDE], Init(chain)));
      assert ledger.t.branch.Keys == branch.Keys;
      ConsistentIf();
    }

    /** Disconnect the listed counts, which are the chain from height `f` up, highest first. */
    method DisconnectAll(toDisconnect: seq<CountID>, ghost f: nat)
      requires Consistent() && 1 <= f <= |ledger.chain| && toDisconnect == IDsDownTo(ledger.chain, f)
      modifies ledger, queue
      ensures Consistent() && ledger.chain == old(ledger.chain)[..f]
      ensures ledger.t.branch.Keys == old(ledger.t.branch).Keys && Side() == old(Side()) * ChainIDs(ledger.chain)
      ensures queue.Now() == old(queue.Now()).(contents := PutBack(old(queue.Contents()), old(ledger.chain), f))
    {
      hide Consistent, IDsDownTo, ConsiderationQueueMemory.Contents, Excluding, IDSet, ChainIDs, Flagged, Transfers;
      ghost var p, q := ledger.chain, queue.Now();
      IDsDownToAt(p, f);
      SideOnChain();
      for n := 0 to |toDisconnect|
        invariant Consistent() && ledger.chain == p[..|p| - n]
        invariant ledger.t.branch.Keys == old(ledger.t.branch).Keys && Side() == old(Side()) * ChainIDs(ledger.chain)
        invariant queue.Now() == q.(contents := PutBack(q.contents, p, |p| - n))
      {
        ChainIsStored();
        var id := toDisconnect[n];
        PrefixIDs(p, |p| - n);
        DisconnectCount(id, store.counts[id].count);
      }
    }

    /** Connect the listed counts, which follow the tip on `path`; stops at the first that does not connect. */
    method ConnectAll(toConnect: seq<CountID>, ghost path: Blocks, ghost f: nat, descends: Descends)
      returns (error: Option<Error>)
      requires Consistent() && 1 <= f <= |path| - 1 && ledger.chain == path[..f]
      requires OnTree(path) && AllWellFormed(path) && toConnect == IDsFrom(Init(path), f)
      requires forall h :: 0 <= h < |path| - 1 ==> path[h].id in ledger.t.branch
      modifies ledger, queue, queue.imbalanceCache
      ensures Consistent() && ledger.t.branch.Keys == old(ledger.t.branch).Keys && Side() == old(Side())
      ensures error.None? ==> ledger.chain == Init(path)
      ensures error.None? ==> FirstFailure(path, f, ledger.prune, descends) >= |path| - 1
      ensures error.Some? ==> FirstFailure(path, f, ledger.prune, descends) < |path| - 1
      ensures error.Some? ==> ledger.chain == path[..FirstFailure(path, f, ledger.prune, descends)]
      ensures f <= |ledger.chain| < |path|
      ensures queue.Now() == old(queue.Now()).(contents := TakeOut(old(queue.Contents()), path, f, |ledger.chain|))
    {
      hide Consistent, IDsFrom, Connects, OnTree, WellFormed, ConsiderationQueueMemory.Contents, Excluding, IDSet,
        Transfers, Sift, Flagged, FirstFailure;
      IDsFromAt(Init(path), f);
      ghost var q := queue.Now();
      for n := 0 to |toConnect|
        invariant Consistent() && ledger.chain == path[..f + n]
        invariant ledger.t.branch.Keys == old(ledger.t.branch).Keys && Side() == old(Side())
        invariant forall h :: f <= h < f + n ==> Connects(path[..h], path[h], ledger.prune, descends)
        invariant queue.Now() == q.(contents := TakeOut(q.contents, path, f, f + n))
      {
        OnTreeLink(path, f + n);
        var id := toConnect[n];
        error := ConnectCount(id, store.counts[id].count, true, descends);
        if error.Some? {
          FirstFailureUnique(path, f, ledger.prune, descends, f + n);
          return;
        }
        assert ledger.t.branch.Keys == old(ledger.t.branch).Keys;
      }
      FirstFailureAtLeast(path, f, ledger.prune, descends, |path| - 1);
      error := None;
    }

    /** Try to make `id` the tip: leave the old branch for the new one, as far as the new one connects. */
    method AcceptCountContinue(id: CountID, descends: Descends) returns (error: Option<Error>)
      requires Consistent() && ledger.chain != [] && id in store.counts
      modifies ledger, queue, queue.imbalanceCache
      ensures Consistent() && Abs() == Continue(w, old(Abs()), id, ledger.prune, descends)
      ensures error.None? <==> Succeeds(w, old(Abs()), id, ledger.prune, descends)
      ensures queue.Now() == QContinue(w, old(Abs()), old(queue.Now()), id, ledger.prune, descends)
    {
      hide Consistent, Structured, PathTo, WholePathConnects, Better, Flagged, Stop, Edited, ChainIDs;
      TipFacts();
      var tipID := ledger.t.tip.value.id;
      if id == tipID {
        return None;
      }
      if !Better(store.counts, id, tipID) {
        MarkSide(id);
        return None;
      }
      error := SwitchBranch(id, descends);
    }

    /** Disconnect down to the common ancestor and connect the new branch. */
    method SwitchBranch(id: CountID, descends: Descends) returns (error: Option<Error>)
      requires Consistent() && ledger.chain != [] && id in store.counts && Better(store.counts, id, TipID(Abs()))
      modifies ledger, queue, queue.imbalanceCache
      ensures Consistent() && Abs() == Continue(w, old(Abs()), id, ledger.prune, descends)
      ensures error.None? <==> WholePathConnects(w, old(Abs()), id, ledger.prune, descends)
      ensures queue.Now() == QContinue(w, old(Abs()), old(queue.Now()), id, ledger.prune, descends)
    {
      hide Consistent, Structured, PathTo, Better, OnTree, Connects, ConsiderationQueueMemory.Contents, PutBack, TakeOut, Sift, BalancesOf,
        IDsFrom, IDsDownTo, WellFormed, AllWellFormed, FirstFailure, Fork, Continue, QContinue, WholePathConnects, LedgerDisk.Valid,
        Flagged, ChainIDs;
      TipFacts();
      ghost var before, path, prune, q := Abs(), PathTo(w, store.counts, id), ledger.prune, queue.Now();
      BetterIsStrictTotalOrder(store.counts, id, id, id);
      BeforeSwitch(id);
      SwitchCases(w, before, q, id, prune, descends);
      var toDisconnect, toConnect := FindFork(ledger.t.tip.value.id, store.counts[id].count.header.previous);
      ghost var f := Fork(ledger.chain, path);
      DisconnectAll(toDisconnect, f);
      error := ConnectBranch(id, toConnect, path, f, descends);
      LedgerBalances();
      assert path[..|path|] == path;
    }

    /** Connect the ancestors of the new count down to the fork, and finally the new count. */
    method ConnectBranch(id: CountID, toConnect: seq<CountID>, ghost path: Blocks, ghost f: nat, descends: Descends)
      returns (error: Option<Error>)
      requires Consistent() && 1 <= f <= |path| - 1 && ledger.chain == path[..f]
      requires OnTree(path) && AllWellFormed(path) && toConnect == IDsFrom(Init(path), f) && Last(path).id == id
      requires forall h :: 0 <= h < |path| - 1 ==> path[h].id in ledger.t.branch
      modifies ledger, queue, queue.imbalanceCache
      ensures Consistent() && ledger.chain == path[..FirstFailure(path, f, ledger.prune, descends)] && Side() == old(Side())
      ensures error.None? <==> FirstFailure(path, f, ledger.prune, descends) == |path|
      ensures ledger.t.branch.Keys == old(ledger.t.branch).Keys + (if error.None? then {id} else {})
      ensures f <= |ledger.chain| <= |path|
      ensures var edited := TakeOut(old(queue.Contents()), path, f, |ledger.chain|);
        queue.Now() == if error.Some? then old(queue.Now()).(contents := edited)
                       else Sift(ledger.t.balances, edited, |path|, descends)
    {
      hide Consistent, OnTree, Connects, IDsFrom, WellFormed, AllWellFormed, FirstFailure, ConsiderationQueueMemory.Contents,
        Excluding, IDSet, Transfers, Sift, Flagged, TakeOut;
      error := ConnectAll(toConnect, path, f, descends);
      FinalConnect(path, f, ledger.prune, descends);
      if error.Some? {
        return;
      }
      OnTreeLink(path, |path| - 1);
      TakeOutLast(old(queue.Contents()), path, f);
      error := ConnectCount(id, store.counts[id].count, false, descends);
    }

    /** The median timestamp of the last eleven counts of the branch that ends at `prevID`. */
    method ComputeMedianTimestamp(prevID: CountID) returns (median: int)
      requires IsTree(w, store.counts) && ValidWorld(w) && prevID in store.counts
      ensures PathTo(w, store.counts, prevID) != []
      ensures median == MedianTime.Median(Times(PathTo(w, store.counts, prevID)))
      ensures var last := MedianTime.Latest(Times(PathTo(w, store.counts, prevID)));
        MedianTime.Below(last, median) <= |last| / 2 < MedianTime.Below(last, median + 1)
    {
      hide PathTo, MedianTime.Sort, MedianTime.Window, MedianTime.Below, MedianTime.Latest, Times;
      var counts := store.counts;
      ghost var path := PathTo(w, counts, prevID);
      ghost var times := Times(path);
      PathEnds(w, counts, prevID);
      TimesAt(path);
      var timestamps: seq<int> := [];
      var id, found := prevID, true;
      var i := 0;
      MedianTime.WindowEmpty(times);
      while i < MedianTime.WINDOW && found
        invariant 0 <= i <= |path| && i <= MedianTime.WINDOW
        invariant timestamps == MedianTime.Window(times, i)
        invariant found ==> i < |path| && id in counts && OnPath(w, counts, path, id, Header(counts, id))
        invariant found ==> Header(counts, id).height == |path| - 1 - i
        invariant !found ==> i == |path|
        decreases MedianTime.WINDOW - i
      {
        var header := Header(counts, id);
        assert path[|path| - 1 - i].count.header.time == header.time by { assert IsStored(counts, path[header.height], header.height); }
        MedianTime.WindowGrow(times, i);
        timestamps := timestamps + [header.time];
        i := i + 1;
        GenesisParentMissing(w, counts, id);
        found := header.previous in counts;
        if found {
          PathParent(w, counts, path, id, header);
          id := header.previous;
        }
      }
      var sorted := MedianTime.Sort(timestamps);
      MedianTime.SortEffect(timestamps, 0);
      MedianTime.WindowLength(times, i);
      MedianTime.MedianIsMiddle(times);
      return sorted[|timestamps| / 2];
    }

    /** A count that is not better is called a side branch count, wherever it is. */
    method MarkSide(id: CountID)
      requires Consistent() && ledger.chain != [] && id in store.counts
      modifies ledger
      ensures Consistent() && ledger.chain == old(ledger.chain)
      ensures ledger.t.branch.Keys == old(ledger.t.branch).Keys + {id} && Side() == old(Side()) + {id} * ChainIDs(ledger.chain)
    {
      hide LedgerDisk.Valid, Unconfirmed, IsSoundTree, Sound, PathTo, ChainIDs;
      ledger.SetBranchType(id, SIDE);
      assert ledger.t.branch.Keys == old(ledger.t.branch).Keys + {id};
    }

    /** Check every consideration of a count for inclusion at its height, trusting signatures the queue has verified. */
    method CheckConsiderations(count: Count) returns (error: Option<Error>)
      requires Consistent()
      ensures error.None? <==> AllIncludable(w, count)
    {
      hide Consistent, ConsiderationQueueMemory.Valid, CheckSeries, Unconfirmed;
      QueueFacts();
      var cns, height := count.considerations, count.header.height;
      for i := 0 to |cns|
        invariant forall j :: 0 <= j < i ==> Includable(w, cns[j], height)
      {
        var cn := cns[i];
        if !CheckSeries(cn, height) {
          return Some(BadSeries);
        }
        if !cn.IsCounterPoint() {
          if !cn.IsMature(height) {
            return Some(Immature);
          }
          if cn.IsExpired(height) {
            return Some(Expired);
          }
          var known := queue.ExistsSigned(cn.ID(), cn.signature);
          if known {
            QueuedIsVerified(w, queue.Contents(), ledger.chain, cn);
          }
          if !known && !w.verify(cn) {
            return Some(BadSignature);
          }
        }
      }
      return None;
    }

    lemma QueueFacts()
      requires Consistent()
      ensures queue.Valid() && Unconfirmed(w, queue.Contents(), ledger.chain)
    {
    }

    /** Put a checked count into storage. */
    method StoreCount(e: Event)
      requires Consistent() && Honest(w, e) && Storable(w, store.counts, ledger.t.branch.Keys, e)
      modifies store
      ensures Consistent() && Abs() == Store(old(Abs()), e)
    {
      hide Structured, Unconfirmed, Storable, Honest, ValidWorld, OnlyChainIsMain, Sound, Represents;
      StoreKeepsStructure(w, Abs(), e, ledger.prune);
      StorableIsNew(w, Abs(), ledger.prune, e);
      store.counts := store.counts[e.id := Stored(e.count, e.now)];
      assert ledger.Valid();
    }

    /** Check a count against its parent, store it, and try to make it the tip; failing that, reconnect the old tip. */
    method AcceptCount(e: Event) returns (error: Option<Error>)
      requires Consistent() && Honest(w, e)
      requires e.id !in ledger.t.branch && CheckCount(w, e.id, e.count, e.now)
      requires e.count.header.previous in ledger.t.branch
      modifies store, ledger, queue, queue.imbalanceCache
      ensures Consistent() && Abs() == Step(w, old(Abs()), e, ledger.prune)
      ensures error.None? <==> Accepts(w, old(Abs()), e, ledger.prune)
      ensures queue.Now() == QStep(w, old(Abs()), old(queue.Now()), e, ledger.prune)
    {
      hide Consistent, Structured, PathTo, CheckCount, Honest, Better, Accepts, Step, ValidWorld, QAccept,
        CountWork, IsTree, CheckContext, Store, Storable, Accept, Succeeds, LedgerDisk.Valid, Flagged;
      TipFacts();
      WorldFacts();
      StepCases(w, Abs(), e, ledger.prune);
      error := CheckAgainstParent(e);
      if error.Some? {
        return;
      }
      StoreCount(e);
      error := ExtendPoint(e.id, e.descends);
    }

    /** The checks of acceptCount, in the order in which it makes them. */
    method CheckAgainstParent(e: Event) returns (error: Option<Error>)
      requires Consistent() && e.count.header.previous in store.counts
      ensures IsTree(w, store.counts)
      ensures error.None? <==> CheckContext(w, store.counts, e.count, e.target)
    {
      hide Consistent, Structured, PathTo, IsTree, CountWork, MedianTime.Median, Times, AllIncludable, ValidWorld;
      TipFacts();
      WorldFacts();
      var header, previous := e.count.header, e.count.header.previous;
      var prevHeader := Header(store.counts, previous);
      if header.height != prevHeader.height + 1 || header.target != e.target {
        return Some(BadContext);
      }
      if header.pointWork != prevHeader.pointWork + CountWork(header.target) {
        return Some(BadContext);
      }
      var median := ComputeMedianTimestamp(previous);
      if header.time <= median {
        return Some(BadContext);
      }
      error := CheckConsiderations(e.count);
    }

    /**
     * Between events the tip, the height index, both indices and the balances are those of the tip's ancestry, MAIN
     * counts lie on it, and all of it is MAIN but for the counts that an overtaking event called SIDE.
     */
    lemma MainIsAncestry()
      requires Consistent() && ledger.chain != []
      ensures ledger.t.tip.Some? && ledger.t.tip.value.id in store.counts && IsTree(w, store.counts)
      ensures var path := PathTo(w, store.counts, ledger.t.tip.value.id);
        && AllWellFormed(path) && Represents(ledger.t, path, ledger.prune) && NoReplay(path) && Positive(BalancesOf(path))
        && ChainIDs(path) <= ledger.t.branch.Keys
        && forall id :: id in ledger.t.branch ==>
             (ledger.t.branch[id] == MAIN <==> id in ChainIDs(path) && id !in Abs().flagged)
    {
      hide IsSoundTree, PathTo, Extends, NoReplay, Represents, ChainIDs;
      TipFacts();
      LedgerIsSound(ledger);
      assert Represents(ledger.t, ledger.chain, ledger.prune) by { LedgerRepresents(ledger); }
      SoundNoReplay(ledger.chain, ledger.prune);
      BalancesPositive(ledger.chain, ledger.prune);
      ChainIsKnown();
    }

    lemma ChainIsKnown()
      requires Consistent()
      ensures ChainIDs(ledger.chain) <= ledger.t.branch.Keys
    {
      hide IsSoundTree, PathTo, Extends, Unconfirmed, LedgerDisk.Valid;
      if ledger.chain != [] {
        ChainKnown(w, Abs(), ledger.prune, TipID(Abs()));
      }
    }

    lemma SideOnChain()
      requires Consistent()
      ensures Side() == Side() * ChainIDs(ledger.chain)
    {
    }

    lemma LedgerBalances()
      requires Consistent()
      ensures AllWellFormed(ledger.chain) && ledger.t.balances == BalancesOf(ledger.chain)
    {
      LedgerRepresents(ledger);
    }

    lemma WorldFacts()
      requires Consistent()
      ensures ValidWorld(w) && ledger.t.branch.Keys <= store.counts.Keys
    {
    }

    /** The rest of acceptCount: try the new tip, and go back to the old one if that fails. */
    method ExtendPoint(id: CountID, descends: Descends) returns (error: Option<Error>)
      requires Consistent() && ledger.chain != [] && id in store.counts
      modifies ledger, queue, queue.imbalanceCache
      ensures Consistent() && Abs() == Accept(w, old(Abs()), id, ledger.prune, descends)
      ensures error.None? <==> Succeeds(w, old(Abs()), id, ledger.prune, descends)
      ensures queue.Now() == QAccept(w, old(Abs()), old(queue.Now()), id, ledger.prune, descends)
    {
      hide Consistent, Structured, PathTo, Better, WholePathConnects, Continue, QContinue, LedgerDisk.Valid, Flagged;
      TipFacts();
      var tipID := ledger.t.tip.value.id;
      ContinueKeepsStructure(w, Abs(), id, ledger.prune, descends);
      error := AcceptCountContinue(id, descends);
      if error.Some? {
        var _ := AcceptCountContinue(tipID, descends);
      }
    }

    /** Process a new candidate tip. */
    method ProcessCount(e: Event) returns (error: Option<Error>)
      requires Consistent() && Honest(w, e)
      modifies store, ledger, queue, queue.imbalanceCache
      ensures Consistent() && Abs() == Step(w, old(Abs()), e, ledger.prune)
      ensures error.None? <==> Accepts(w, old(Abs()), e, ledger.prune)
      ensures queue.Now() == QStep(w, old(Abs()), old(queue.Now()), e, ledger.prune)
    {
      hide Consistent, Structured, PathTo, CheckCount, Honest, Better, Accept, QAccept, ValidWorld,
        IsTree, CheckContext, Connects, LedgerDisk.Valid, Flagged, BalancesOf, WellFormed, QConnect;
      TipFacts();
      WorldFacts();
      if e.id in ledger.t.branch {
        return None;
      }
      if !CheckCount(w, e.id, e.count, e.now) {
        return Some(BadCount);
      }
      if e.count.header.previous !in ledger.t.branch {
        if e.id != w.genesisID {
          return Some(Orphan);
        }
        BeginReady(w, Abs(), ledger.prune, e);
        StoreCount(e);
        error := ConnectCount(e.id, e.count, false, e.descends);
        LedgerBalances();
        return;
      }
      error := AcceptCount(e);
    }

    /** After any event: settled exactly under the condition on the event. */
    lemma SettledAfter(before: State, q: QueueState, e: Event)
      requires Consistent() && Structured(w, before, ledger.prune) && ValidWorld(w) && Honest(w, e)
      requires AllWellFormed(before.chain) && IsSettled(BalancesOf(before.chain), |before.chain|, q)
      requires Abs() == Step(w, before, e, ledger.prune) && queue.Now() == QStep(w, before, q, e, ledger.prune)
      ensures queue.Settled() <==> StepKeepsSettled(w, before, q, e, ledger.prune)
    {
      hide Structured, Step, QStep, StepKeepsSettled, IsSettled, Honest, ValidWorld, Flagged;
      StepSettledIff(w, before, q, e, ledger.prune);
      LedgerBalances();
    }

    /** Process a new consideration: it joins the queue if it could be in the next count. */
    method ProcessConsideration(cn: Consideration, descends: Descends) returns (r: Result<bool>)
      requires Consistent()
      modifies queue, queue.imbalanceCache
      ensures Consistent() && Abs() == old(Abs()) && AllWellFormed(ledger.chain)
      ensures queue.Now() == QConsider(w, ledger.chain, old(queue.Now()), cn, ledger.prune, descends)
      ensures old(queue.Settled()) ==> queue.Settled()
      ensures r == Ok(true) ==> queue.Contents() == old(queue.Contents()) + [cn] && |old(queue.Contents())| < 100000
      ensures r == Ok(true) <==>
        Acceptable(w, ledger.chain, ledger.prune, old(queue.Contents()), cn)
        && AddSucceeds(ledger.t.balances, old(queue.Now()), cn, descends)
    {
      hide Structured, LedgerDisk.Valid, ConsiderationQueueMemory.Valid, ValidWorld, OnlyChainIsMain, Represents,
        CanPay, CheckSeries, Sound, Flagged, IDSet, Added, IsSettled, BalancesOf, IndexedIDs, WellFormed;
      LedgerFacts();
      LedgerBalances();
      if queue.Settled() {
        ConsiderSettles(cn, descends);
      }
      if !CheckConsideration(cn) || cn.IsCounterPoint() {
        return Err(BadConsideration);
      }
      if queue.Len() >= MAX_QUEUE_LENGTH {
        return Err(QueueFull);
      }
      if cn.ID() in ledger.t.cnIndex {
        return Err(AlreadyConfirmed);
      }
      if ledger.t.tip.None? {
        return Err(MissingCount);
      }
      var next := ledger.t.tip.value.height + 1;
      if !CheckSeries(cn, next) {
        return Err(BadSeries);
      }
      if !cn.IsMature(next) {
        return Err(Immature);
      }
      if cn.IsExpired(next) {
        return Err(Expired);
      }
      if !w.verify(cn) {
        return Err(BadSignature);
      }
      NeverConfirmed(ledger.chain, ledger.prune, cn);
      AddedContents(ledger.t.balances, queue.Now(), cn, descends);
      r := queue.Add(cn, descends);
    }

    lemma ConsiderSettles(cn: Consideration, descends: Descends)
      requires Consistent() && queue.Settled()
      ensures AllWellFormed(ledger.chain)
      ensures IsSettled(ledger.t.balances, |ledger.chain|, QConsider(w, ledger.chain, queue.Now(), cn, ledger.prune, descends))
    {
      hide IsSettled, Flagged, Structured;
      LedgerBalances();
      ConsiderKeepsSettled(w, ledger.chain, queue.Now(), cn, ledger.prune, descends);
    }

    lemma LedgerFacts()
      requires Consistent()
      ensures Sound(ledger.chain, ledger.prune) && ledger.t.tip == TipOf(ledger.chain)
      ensures ledger.t.cnIndex.Keys == IndexedIDs(ledger.chain, Lowest(|ledger.chain|, ledger.prune))
      ensures queue.Valid()
    {
    }

    lemma TipFacts()
      requires Consistent()
      ensures Structured(w, Abs(), ledger.prune) && AllWellFormed(ledger.chain) && ledger.Valid()
      ensures IsTree(w, store.counts)
      ensures ledger.chain != [] ==> ledger.t.tip.Some? && ledger.t.tip.value.id == TipID(Abs())
      ensures ledger.chain != [] ==> TipID(Abs()) in store.counts && TipID(Abs()) in ledger.t.branch
    {
      hide IsSoundTree, Unconfirmed, Extends;
    }

    /** A path through the stored counts. */
    ghost predicate OnTree(path: Blocks)
      reads store
    {
      && path != [] && Last(path).id in store.counts
      && IsTree(w, store.counts) && IsSoundTree(w, store.counts)
      && path == PathTo(w, store.counts, Last(path).id)
    }

    lemma OnTreeLink(path: Blocks, h: nat)
      requires OnTree(path) && 1 <= h < |path|
      ensures path[h].id in store.counts && store.counts[path[h].id].count == path[h].count
      ensures path[h].id != w.genesisID && path[h].count.header.previous == path[h - 1].id
      ensures Last(path[..h]) == path[h - 1] && path[..h + 1] == path[..h] + [path[h]]
      ensures h == |path| - 1 ==> Init(path) == path[..h]
    {
      hide IsSoundTree, PathTo;
      assert IsStored(store.counts, path[h], h);
      PathAt(w, store.counts, Last(path).id, h);
      PathAt(w, store.counts, Last(path).id, h - 1);
      assert Rooted(w, store.counts, path[h].id);
      PathLast(w, store.counts, path[h].id);
      PathLast(w, store.counts, path[h].count.header.previous);
      assert Init(path[..h + 1]) == path[..h];
    }

    lemma ChainIsStored()
      requires Consistent()
      ensures forall h :: 0 <= h < |ledger.chain| ==> IsStored(store.counts, ledger.chain[h], h)
    {
      hide IsSoundTree, Unconfirmed, Extends;
      if ledger.chain != [] {
        PathEnds(w, store.counts, TipID(Abs()));
      }
    }

    lemma BeforeSwitch(id: CountID)
      requires Consistent() && ledger.chain != [] && id in store.counts
      requires Better(store.counts, id, TipID(Abs()))
      ensures var path, parentID := PathTo(w, store.counts, id), store.counts[id].count.header.previous;
        OnTree(path) && AllWellFormed(path) && ReadyToSwitch(w, Abs(), path, id, parentID)
    {
      hide Unconfirmed, Extends, PathTo, LedgerDisk.Valid, InContext, Better;
      BeforeSwitchFacts(w, Abs(), ledger.prune, id);
      PathWellFormed(w, store.counts, id);
      PathLast(w, store.counts, id);
    }

    /** The parts of Consistent, each by name. */
    ghost predicate Parts(chain: Blocks, branch: map<CountID, BranchType>, queued: seq<Consideration>)
      reads store, ledger, ledger.store, queue
    {
      && ledger.store == store && queue.ledger == ledger && queue.imbalanceCache.ledger == ledger
      && ValidWorld(w) && ledger.Valid() && queue.Valid()
      && Structured(w, State(store.counts, chain, branch.Keys, Flagged(branch, chain)), ledger.prune)
      && OnlyChainIsMain(branch, chain) && Unconfirmed(w, queued, chain)
    }

    lemma ConsistentIf()
      requires Parts(ledger.chain, ledger.t.branch, queue.Contents())
      ensures Consistent()
    {
    }

    lemma ConnectReady(b: Block, descends: Descends)
      requires Consistent() && b.id in store.counts && store.counts[b.id].count == b.count
      requires if b.id == w.genesisID then ledger.chain == []
        else ledger.chain != [] && b.count.header.previous == TipID(Abs())
      ensures Parts(ledger.chain, ledger.t.branch, queue.Contents())
      ensures AllWellFormed(ledger.chain) && WellFormed(b.count) && b.count.header.height == |ledger.chain|
      ensures ledger.Holds(b) && AllCheckSeries(b.count, |ledger.chain|)
      ensures |ListIDs(b.count.considerations)| >= 1
      ensures IsTree(w, store.counts)
      ensures ledger.chain != [] ==>
        Last(ledger.chain).id in store.counts && ledger.chain == PathTo(w, store.counts, Last(ledger.chain).id)
      ensures Connects(ledger.chain, b, ledger.prune, descends)
        <==> Extends(ledger.chain, b, ledger.prune) && Admits(descends, b.count)
    {
      hide LedgerDisk.Valid, Extends, Admits, PathTo, InContext, CheckSeries, Unconfirmed;
      LedgerIsSound(ledger);
      assert Rooted(w, store.counts, b.id);
      ListIDsAt(b.count.considerations);
      if ledger.chain != [] {
        PathEnds(w, store.counts, TipID(Abs()));
      }
    }

    lemma DisconnectReady(b: Block)
      requires Consistent() && |ledger.chain| >= 2 && Last(ledger.chain) == b
      ensures Parts(ledger.chain, ledger.t.branch, queue.Contents())
      ensures ledger.Holds(b) && b.count.header.height > 0
      ensures Sound(ledger.chain, ledger.prune) && AllVerified(w, b.count)
      ensures IsTree(w, store.counts) && b.id in store.counts && b.id in ledger.t.branch
      ensures ledger.chain == PathTo(w, store.counts, b.id)
      ensures ListIDs(b.count.considerations) != [] && b.count.considerations != []
      ensures ListIDs(b.count.considerations)[1..] == ListIDs(b.count.considerations[1..])
      ensures Distinct(b.count.considerations[1..])
    {
      hide Extends, Admits, PathTo, InContext, CheckSeries, Unconfirmed, Represents;
      assert ledger.Holds(Last(ledger.chain));
      assert Extends(Init(ledger.chain), b, ledger.prune) by { LedgerIsSound(ledger); }
      PathEnds(w, store.counts, TipID(Abs()));
      LedgerIsSound(ledger);
      assert IsStored(store.counts, b, |ledger.chain| - 1);
      DistinctIDs(b.count);
      ListIDsTail(b.count.considerations);
    }
  }

  /** An entry with the same ID and signature is the same consideration, so its verification stands. */
  lemma QueuedIsVerified(w: World, queued: seq<Consideration>, chain: Blocks, cn: Consideration)
    requires Unconfirmed(w, queued, chain)
    requires exists i :: 0 <= i < |queued| && queued[i].ID() == cn.ID() && queued[i].signature == cn.signature
    ensures w.verify(cn)
  {
    hide IndexedIDs;
    var i :| 0 <= i < |queued| && queued[i].ID() == cn.ID() && queued[i].signature == cn.signature;
    IDIgnoresOnlySignature(queued[i], cn);
  }

  /** A count without a branch type is not on the chain, whether or not it is stored. */
  lemma StorableIsNew(w: World, s: State, prune: bool, e: Event)
    requires Structured(w, s, prune) && Storable(w, s.counts, s.known, e)
    ensures forall h :: 0 <= h < |s.chain| ==> s.chain[h].id != e.id
  {
    hide Sound, PathTo, IsSoundTree, CheckCount, CheckContext;
    if s.chain != [] {
      ChainKnown(w, s, prune, TipID(s));
    }
  }

  lemma BeginReady(w: World, s: State, prune: bool, e: Event)
    requires ValidWorld(w) && Structured(w, s, prune) && Honest(w, e) && e.id == w.genesisID && e.id !in s.known
    requires CheckCount(w, e.id, e.count, e.now) && e.count.header.previous !in s.known
    ensures Storable(w, s.counts, s.known, e) && s.chain == [] && s.known == {} == s.flagged && AllWellFormed(s.chain)
  {
    hide Sound, PathTo, IsSoundTree, CheckCount, CheckContext, ValidWorld;
    if s.chain != [] {
      GenesisComesFirst(w, s, prune);
    }
  }

  lemma IndexedFrom(chain: Blocks, lo: nat, h: nat, i: nat)
    requires IsAt(chain, h, i)
    ensures h >= lo ==> At(chain, h, i).ID() in IndexedIDs(chain, lo)
  {
  }

  /** The series rule makes the pruned index enough: what it does not list was never confirmed. */
  lemma NeverConfirmed(chain: Blocks, prune: bool, cn: Consideration)
    requires Sound(chain, prune) && CheckSeries(cn, |chain|)
    requires cn.ID() !in IndexedIDs(chain, Lowest(|chain|, prune))
    ensures cn.ID() !in IndexedIDs(chain, 0)
  {
    hide Covered, BalancesOf, WellFormed, CheckSeries;
    if cn.ID() in IndexedIDs(chain, 0) {
      var h, i := Locate(chain, 0, cn.ID());
      assert Extends(chain[..h], chain[h], prune);
      IndexedFrom(chain, Lowest(|chain|, prune), h, i);
      SeriesSeparates(At(chain, h, i), cn, h, |chain|);
    }
  }

  /** What the walk back to the fork relies on. */
  ghost predicate ReadyToSwitch(w: World, s: State, path: Blocks, id: CountID, parentID: CountID)
  {
    && IsTree(w, s.counts) && s.chain != [] && TipID(s) in s.counts && parentID in s.counts && id in s.counts
    && id != w.genesisID && |path| >= 2
    && Init(path) == PathTo(w, s.counts, parentID) && Last(path) == Block(id, s.counts[id].count)
    && s.chain == PathTo(w, s.counts, TipID(s))
    && 1 <= Fork(s.chain, path) <= |path| - 1
    && Fork(s.chain, Init(path)) == Fork(s.chain, path)
    && forall h :: 0 <= h < |path| - 1 ==> path[h].id in s.known
  }

  lemma BeforeSwitchFacts(w: World, s: State, prune: bool, id: CountID)
    requires Structured(w, s, prune) && s.chain != [] && id in s.counts && Better(s.counts, id, TipID(s))
    ensures ReadyToSwitch(w, s, PathTo(w, s.counts, id), id, s.counts[id].count.header.previous)
  {
    hide IsSoundTree, Extends, PathTo, InContext, Better, Sound;
    var path := PathTo(w, s.counts, id);
    NotOnChain(w, s, prune, id);
    PathEnds(w, s.counts, id);
    PathLast(w, s.counts, id);
    PathStartsAtGenesis(w, s.counts, TipID(s));
    assert Rooted(w, s.counts, id);
    assert id != w.genesisID;
    ChainKnown(w, s, prune, Header(s.counts, id).previous);
    ForkAboveGenesis(w, s, prune, id);
    ForkBelow(s.chain, path);
  }

  /** Reading off Continue once the fork has been reached. */
  lemma SwitchCases(w: World, s: State, q: QueueState, id: CountID, prune: bool, descends: Descends)
    requires Structured(w, s, prune) && s.chain != [] && id in s.counts && id != TipID(s) && Better(s.counts, id, TipID(s))
    ensures AllWellFormed(PathTo(w, s.counts, id))
    ensures var path := PathTo(w, s.counts, id);
      var k := FirstFailure(path, Fork(s.chain, path), prune, descends);
      && (WholePathConnects(w, s, id, prune, descends) <==> k == |path|)
      && Continue(w, s, id, prune, descends)
        == s.(chain := path[..k], known := s.known + (if k == |path| then {id} else {}),
              flagged := s.flagged * ChainIDs(s.chain[..Fork(s.chain, path)]))
    ensures var path := PathTo(w, s.counts, id); var f := Fork(s.chain, path);
      var k := FirstFailure(path, f, prune, descends);
      var edited := TakeOut(PutBack(q.contents, s.chain, f), path, f, k);
      QContinue(w, s, q, id, prune, descends)
      == if k < |path| then q.(contents := edited) else Sift(BalancesOf(path), edited, |path|, descends)
  {
    hide Sound, IsTree, PathTo, IsSoundTree, FirstFailure, Fork, ChainIDs, Sift, BalancesOf, PutBack, TakeOut, Better, WellFormed;
    PathWellFormed(w, s.counts, id);
  }

  /** A count better than the tip is not on the chain. */
  lemma NotOnChain(w: World, s: State, prune: bool, id: CountID)
    requires Structured(w, s, prune) && s.chain != [] && id in s.counts && Better(s.counts, id, TipID(s))
    ensures forall h :: 0 <= h < |s.chain| ==> s.chain[h].id != id
  {
    hide PathTo, Sound, Better, IsSoundTree, IsTree;
    PathEnds(w, s.counts, TipID(s));
    forall h | 0 <= h < |s.chain| ensures s.chain[h].id != id {
      BetterIsStrictTotalOrder(s.counts, TipID(s), id, id);
      if h < |s.chain| - 1 {
        BetterThanAncestors(w, s.counts, TipID(s), h);
      }
    }
  }

  /** The last count of a path not on the chain does not move the fork. */
  lemma ForkBelow(chain: Blocks, path: Blocks)
    requires path != [] && forall h :: 0 <= h < |chain| ==> chain[h].id != Last(path).id
    ensures Fork(chain, path) <= |path| - 1 && Fork(chain, Init(path)) == Fork(chain, path)
  {
    var f := Fork(chain, path);
    assert forall i :: 0 <= i < f ==> chain[i] == chain[..f][i] == path[..f][i] == path[i];
    if f < |path| {
      assert Init(path)[..f] == path[..f];
      ForkUnique(chain, Init(path), f);
    }
  }

  /** These are the path's IDs from index `i` up, lowest first. */
  predicate Ascends(ids: seq<CountID>, path: Blocks, i: nat)
    requires i <= |path|
  {
    |ids| == |path| - i && forall n :: 0 <= n < |ids| ==> ids[n] == path[i + n].id
  }

  /** These are the path's IDs from index `i` up, highest first. */
  predicate GoesDown(ids: seq<CountID>, path: Blocks, i: nat)
    requires i <= |path|
  {
    |ids| == |path| - i && forall n :: 0 <= n < |ids| ==> ids[n] == path[|path| - 1 - n].id
  }

  lemma {:induction false} IDsDownToAt(path: Blocks, i: nat)
    requires i <= |path|
    ensures GoesDown(IDsDownTo(path, i), path, i)
    decreases |path| - i
  {
    if i == |path| {
    } else {
      IDsDownToAt(path, i + 1);
    }
  }

  lemma {:induction false} IDsFromAt(path: Blocks, i: nat)
    requires i <= |path|
    ensures Ascends(IDsFrom(path, i), path, i)
    decreases |path| - i
  {
    hide Ascends;
    if i < |path| {
      IDsFromAt(path, i + 1);
      AscendsMore(IDsFrom(path, i + 1), path, i);
    } else {
      AscendsNone(path);
    }
  }

  lemma AscendsMore(ids: seq<CountID>, path: Blocks, i: nat)
    requires i < |path| && Ascends(ids, path, i + 1)
    ensures Ascends([path[i].id] + ids, path, i)
  {
  }

  lemma AscendsNone(path: Blocks)
    ensures Ascends([], path, |path|)
  {
  }

  lemma TakeOutLast(s: seq<Consideration>, path: Blocks, f: nat)
    requires f < |path|
    ensures TakeOut(s, path, f, |path|) == Excluding(TakeOut(s, path, f, |path| - 1), IDSet(Transfers(Last(path))))
  {
  }

  lemma FinalConnect(path: Blocks, f: nat, prune: bool, descends: Descends)
    requires AllWellFormed(path) && f <= |path| - 1
    ensures AllWellFormed(Init(path)) && path[..|path|] == path
    ensures var n := if Connects(Init(path), Last(path), prune, descends) then |path| else |path| - 1;
      FirstFailure(path, f, prune, descends) >= |path| - 1 ==> FirstFailure(path, f, prune, descends) == n
  {
  }

  lemma FirstFailureAtLeast(path: Blocks, f: nat, prune: bool, descends: Descends, n: nat)
    requires AllWellFormed(path) && f <= n <= |path|
    requires forall h :: f <= h < n ==> Connects(path[..h], path[h], prune, descends)
    ensures FirstFailure(path, f, prune, descends) >= n
  {
  }

  lemma LedgerRepresents(ledger: LedgerDisk)
    requires ledger.Valid()
    ensures AllWellFormed(ledger.chain) && Represents(ledger.t, ledger.chain, ledger.prune)
  {
  }

  lemma LedgerIsSound(ledger: LedgerDisk)
    requires ledger.Valid()
    ensures Sound(ledger.chain, ledger.prune) && AllWellFormed(ledger.chain)
  {
  }

  lemma ListIDsTail(cns: seq<Consideration>)
    requires cns != []
    ensures ListIDs(cns) != [] && ListIDs(cns)[1..] == ListIDs(cns[1..])
  {
    ListIDsAt(cns);
    ListIDsAt(cns[1..]);
  }

  /** What is left of the queue once the transfers of a count are out of it. */
  ghost predicate Leaves(queued: seq<Consideration>, left: seq<Consideration>, count: Count)
    requires |count.considerations| >= 1
  {
    forall i :: 0 <= i < |left| ==>
      left[i] in queued && left[i].ID() !in IDsBetween(count.considerations, 1, |count.considerations|)
  }

  lemma LeftOver(queued: seq<Consideration>, count: Count, m: Table, descends: Descends)
    requires WellFormed(count)
    ensures ListIDs(count.considerations) != []
    ensures var left := Excluding(queued, SetOf(ListIDs(count.considerations)[1..]));
      var kept := Sift(m, left, count.header.height + 1, descends).contents;
      Leaves(queued, left, count) && Leaves(queued, kept, count)
  {
    var cns := count.considerations;
    ListIDsTail(cns);
    ListIDsAt(cns[1..]);
    var ids := SetOf(ListIDs(cns)[1..]);
    forall id | id in IDsBetween(cns, 1, |cns|) ensures id in ids {
      var i :| 1 <= i < |cns| && cns[i].ID() == id;
      assert ListIDs(cns[1..])[i - 1] == id;
    }
    ExcludingEffect(queued, ids);
    var left := Excluding(queued, ids);
    forall i | 0 <= i < |left| ensures left[i].ID() !in ids {
      assert left[i].ID() in IDSet(left);
    }
    SiftKeeps(m, left, count.header.height + 1, descends);
    var kept := Sift(m, left, count.header.height + 1, descends).contents;
    forall i | 0 <= i < |kept| ensures kept[i] in left {
      assert kept[i] in kept;
    }
  }

  lemma UnconfirmedConnect(w: World, queued: seq<Consideration>, left: seq<Consideration>, chain: Blocks, b: Block)
    requires Unconfirmed(w, queued, chain) && WellFormed(b.count)
    requires Leaves(queued, left, b.count)
    ensures Unconfirmed(w, left, chain + [b])
  {
    var cns := b.count.considerations;
    IndexedIDsPush(chain, b, 0);
    forall i | 0 <= i < |left| ensures left[i].ID() !in IDsOf(b.count) {
      assert left[i].ID().content.sender == left[i].sender;
      assert cns[0].ID().content.sender == None;
    }
  }

  lemma UnconfirmedDisconnect(w: World, queued: seq<Consideration>, chain: Blocks, prune: bool)
    requires chain != [] && Sound(chain, prune) && AllVerified(w, Last(chain).count)
    requires Unconfirmed(w, queued, chain)
    ensures var cns := Last(chain).count.considerations[1..];
      Unconfirmed(w, cns + Excluding(queued, IDSet(cns)), Init(chain))
  {
    hide IndexedIDs, Extends;
    var all := Last(chain).count.considerations;
    var cns := all[1..];
    assert chain == Init(chain) + [Last(chain)];
    IndexedIDsPush(Init(chain), Last(chain), 0);
    ExcludingEffect(queued, IDSet(cns));
    TipIsFresh(chain, prune);
    forall i | 1 <= i < |all| ensures all[i].ID() !in IndexedIDs(Init(chain), 0) {
      assert all[i].ID() in IDsOf(Last(chain).count);
    }
  }

  lemma TipIsFresh(chain: Blocks, prune: bool)
    requires chain != [] && Sound(chain, prune)
    ensures IDsOf(Last(chain).count) !! IndexedIDs(Init(chain), 0)
  {
    hide Sound;
    SoundNoReplay(chain, prune);
    forall id | id in IndexedIDs(Init(chain), 0) ensures id !in IDsOf(Last(chain).count) {
      var h, j := Locate(Init(chain), 0, id);
      assert At(chain, h, j) == At(Init(chain), h, j);
      var cns := Last(chain).count.considerations;
      forall i | 0 <= i < |cns| ensures cns[i].ID() != id {
        assert At(chain, |chain| - 1, i) == cns[i];
      }
    }
  }

  lemma BranchConnect(w: World, counts: Counts, branch: map<CountID, BranchType>, chain: Blocks, b: Block)
    requires OnlyChainIsMain(branch, chain) && IsTree(w, counts) && b.id in counts
    requires chain != [] ==> Last(chain).id in counts && chain == PathTo(w, counts, Last(chain).id)
    requires Header(counts, b.id).height == |chain|
    ensures OnlyChainIsMain(branch[b.id := MAIN], chain + [b])
    ensures Flagged(branch[b.id := MAIN], chain + [b]) == Flagged(branch, chain)
  {
    hide PathTo;
    ChainIDsPush(chain, b);
    forall h | 0 <= h < |chain| ensures chain[h].id != b.id {
      assert IsStored(counts, chain[h], h);
    }
  }

  lemma ChainIDsPush(chain: Blocks, b: Block)
    ensures ChainIDs(chain + [b]) == ChainIDs(chain) + {b.id}
  {
    var c := chain + [b];
    assert c[|chain|] == b;
    assert forall h :: 0 <= h < |chain| ==> c[h] == chain[h];
  }

  lemma BranchDisconnect(w: World, counts: Counts, branch: map<CountID, BranchType>, chain: Blocks)
    requires OnlyChainIsMain(branch, chain) && chain != []
    requires IsTree(w, counts) && Last(chain).id in counts && chain == PathTo(w, counts, Last(chain).id)
    ensures OnlyChainIsMain(branch[Last(chain).id := SIDE], Init(chain))
    ensures var flagged := Flagged(branch[Last(chain).id := SIDE], Init(chain));
      flagged == Flagged(branch, chain) * ChainIDs(Init(chain)) && flagged <= ChainIDs(Init(chain))
  {
    hide PathTo;
    var below, id := Init(chain), Last(chain).id;
    assert chain == below + [Last(chain)];
    ChainIDsPush(below, Last(chain));
    forall h | 0 <= h < |below| ensures below[h].id != id {
      assert IsStored(counts, chain[h], h) && IsStored(counts, Last(chain), |chain| - 1);
    }
  }

  /** Below a prefix of a chain the counts are those of the prefix. */
  lemma PrefixIDs(chain: Blocks, n: nat)
    requires 0 < n <= |chain|
    ensures Init(chain[..n]) == chain[..n - 1] && Last(chain[..n]) == chain[n - 1]
    ensures ChainIDs(chain[..n - 1]) <= ChainIDs(chain[..n])
  {
    assert chain[..n] == chain[..n - 1] + [chain[n - 1]];
    ChainIDsPush(chain[..n - 1], chain[n - 1]);
  }

  /** The IDs handed to the queue are those of the transfers. */
  lemma TransferIDs(b: Block)
    requires WellFormed(b.count)
    ensures ListIDs(b.count.considerations) != []
    ensures SetOf(ListIDs(b.count.considerations)[1..]) == IDSet(Transfers(b))
  {
    hide WellFormed;
    assert b.count.considerations != [] by { HasCounterpoint(b.count); }
    ListIDsTail(b.count.considerations);
    var cns := Transfers(b);
    ListIDsAt(cns);
    forall id | id in IDSet(cns) ensures id in SetOf(ListIDs(cns)) {
      var i :| 0 <= i < |cns| && cns[i].ID() == id;
      assert ListIDs(cns)[i] == id;
    }
    forall id | id in SetOf(ListIDs(cns)) ensures id in IDSet(cns) {
      var i :| 0 <= i < |ListIDs(cns)| && ListIDs(cns)[i] == id;
      assert cns[i].ID() == id;
    }
  }

  lemma HasCounterpoint(count: Count)
    requires WellFormed(count)
    ensures count.considerations != []
  {
  }

  /** A stored count whose parent is the tip extends the structure. */
  lemma ExtendKeepsStructure(w: World, s: State, b: Block, prune: bool)
    requires Structured(w, s, prune) && b.id in s.counts && s.counts[b.id].count == b.count
    requires if b.id == w.genesisID then s.chain == [] else s.chain != [] && b.count.header.previous == TipID(s)
    requires AllWellFormed(s.chain) && Extends(s.chain, b, prune)
    ensures Structured(w, State(s.counts, s.chain + [b], s.known + {b.id}, s.flagged), prune)
  {
    hide IsSoundTree, Extends;
    ChainIDsPush(s.chain, b);
    SoundPush(s.chain, b, prune);
    assert Rooted(w, s.counts, b.id);
    PathLast(w, s.counts, b.id);
  }

  /** `id` and its header are the ones at their height on this path. */
  ghost predicate OnPath(w: World, counts: Counts, path: Blocks, id: CountID, header: CountHeader)
  {
    && id in counts && Header(counts, id) == header
    && 0 <= header.height < |path| && path[header.height].id == id
    && IsTree(w, counts) && path[..header.height + 1] == PathTo(w, counts, id)
  }

  lemma PathEnds(w: World, counts: Counts, id: CountID)
    requires IsTree(w, counts) && id in counts
    ensures OnPath(w, counts, PathTo(w, counts, id), id, Header(counts, id))
    ensures |PathTo(w, counts, id)| == Header(counts, id).height + 1
  {
    assert Rooted(w, counts, id);
    PathAt(w, counts, id, Header(counts, id).height);
    PathLast(w, counts, id);
  }

  /** Above genesis, the walk to the parent stays on the path. */
  lemma PathParent(w: World, counts: Counts, path: Blocks, id: CountID, header: CountHeader)
    requires OnPath(w, counts, path, id, header) && header.height > 0
    ensures header.previous in counts && OnPath(w, counts, path, header.previous, Header(counts, header.previous))
    ensures Header(counts, header.previous).height == header.height - 1
    ensures IDsFrom(path, header.height) == [id] + IDsFrom(path, header.height + 1)
    ensures IDsDownTo(path, header.height) == IDsDownTo(path, header.height + 1) + [id]
  {
    hide PathTo;
    assert Rooted(w, counts, id);
    PathLast(w, counts, id);
    PathLast(w, counts, header.previous);
    var below := PathTo(w, counts, header.previous);
    assert below == path[..header.height + 1][..header.height] == path[..header.height];
    assert path[header.height - 1] == below[header.height - 1] == Last(below);
  }

  /** Only genesis has no stored parent. */
  lemma GenesisParentMissing(w: World, counts: Counts, id: CountID)
    requires ValidWorld(w) && IsTree(w, counts) && id in counts
    ensures Header(counts, id).previous in counts <==> Header(counts, id).height > 0
  {
    assert Rooted(w, counts, id);
    assert 0 in counts ==> Rooted(w, counts, 0);
  }

  lemma TimesAt(path: Blocks)
    ensures |Times(path)| == |path|
    ensures forall i :: 0 <= i < |path| ==> Times(path)[i] == path[i].count.header.time
  {
  }

  /** Both walks stand at one height, above which the paths differ and all IDs are listed. */
  ghost predicate Walked(w: World, counts: Counts, p: Blocks, q: Blocks, a: CountID, b: CountID,
                         toDisconnect: seq<CountID>, toConnect: seq<CountID>)
  {
    && a in counts && b in counts && Header(counts, a).height == Header(counts, b).height
    && OnPath(w, counts, p, a, Header(counts, a)) && OnPath(w, counts, q, b, Header(counts, b))
    && var h := Header(counts, a).height + 1;
      toDisconnect == IDsDownTo(p, h) && toConnect == IDsFrom(q, h) && (h < |p| && h < |q| ==> p[h] != q[h])
  }

  lemma WalkedStep(w: World, counts: Counts, p: Blocks, q: Blocks, a: CountID, b: CountID,
                   toDisconnect: seq<CountID>, toConnect: seq<CountID>)
    requires Walked(w, counts, p, q, a, b, toDisconnect, toConnect) && Header(counts, a) != Header(counts, b)
    requires p != [] && q != [] && p[0] == q[0]
    ensures Header(counts, a).previous in counts && Header(counts, b).previous in counts
    ensures Walked(w, counts, p, q, Header(counts, a).previous, Header(counts, b).previous, toDisconnect + [a], [b] + toConnect)
    ensures Header(counts, Header(counts, a).previous).height == Header(counts, a).height - 1 >= 0
  {
    hide PathTo, IDsFrom, IDsDownTo;
    var h := Header(counts, a).height;
    PathParent(w, counts, p, a, Header(counts, a));
    PathParent(w, counts, q, b, Header(counts, b));
  }

  lemma SameGenesis(w: World, counts: Counts, a: CountID, b: CountID)
    requires IsTree(w, counts) && a in counts && b in counts
    ensures PathTo(w, counts, a)[0] == PathTo(w, counts, b)[0]
  {
    hide PathTo;
    var p, q := PathTo(w, counts, a), PathTo(w, counts, b);
    PathStartsAtGenesis(w, counts, a);
    PathStartsAtGenesis(w, counts, b);
    assert IsStored(counts, p[0], 0) && IsStored(counts, q[0], 0);
  }

  /** Where the headers agree the paths have met, and nowhere higher. */
  lemma CommonAncestor(w: World, counts: Counts, tipID: CountID, parentID: CountID, a: CountID, b: CountID)
    requires IsTree(w, counts) && tipID in counts && parentID in counts && a in counts && b in counts
    requires var p, q, header := PathTo(w, counts, tipID), PathTo(w, counts, parentID), Header(counts, a);
      && OnPath(w, counts, p, a, header) && OnPath(w, counts, q, b, Header(counts, b)) && Header(counts, b) == header
      && (header.height + 1 < |p| && header.height + 1 < |q| ==> p[header.height + 1] != q[header.height + 1])
    ensures Fork(PathTo(w, counts, tipID), PathTo(w, counts, parentID)) == Header(counts, a).height + 1
  {
    hide PathTo;
    assert Rooted(w, counts, a) && Rooted(w, counts, b);
    ForkUnique(PathTo(w, counts, tipID), PathTo(w, counts, parentID), Header(counts, a).height + 1);
  }
}
