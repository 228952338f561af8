/** The targets of every branch that a run stores are the demanded ones, and the next is always defined. */
module Targets {
  import opened Considerations
  import opened Chain
  import opened Ledger
  import opened Work
  import opened Tree
  import opened ChainSelection
  import opened Acceptance
  import opened Runs
  import opened Retarget

  function HeadersOf(path: Blocks): Headers { seq(|path|, i requires 0 <= i < |path| => path[i].count.header) }

  /** The target that the rules demand of the count after `path`. */
  ghost predicate IsDemanded(path: Headers, target: nat)
  {
    && path != [] && SumsWork(path)
    && (TargetIsDefined(path);
        target == ExpectedTarget(path))
  }

  /** A branch both rules accept, whose last count has the target they demand. */
  ghost predicate Usable(w: World, counts: Counts, id: CountID)
    requires IsTree(w, counts) && id in counts
  {
    PathLast(w, counts, id);
    && SumsWork(HeadersOf(PathTo(w, counts, id)))
    && (id != w.genesisID ==> IsDemanded(HeadersOf(PathTo(w, counts, Header(counts, id).previous)), Header(counts, id).target))
  }

  /** The event carries the target that the rules demand on the branch it extends. */
  ghost predicate Demands(w: World, s: State, e: Event, prune: bool)
    requires ValidWorld(w) && Structured(w, s, prune) && Honest(w, e)
  {
    Extending(w, s, e, prune) && SumsWork(HeadersOf(PathTo(w, s.counts, e.count.header.previous))) ==>
      IsDemanded(HeadersOf(PathTo(w, s.counts, e.count.header.previous)), e.target)
  }

  /** Every stored branch is such a branch. */
  ghost predicate AllUsable(w: World, counts: Counts)
    requires IsTree(w, counts)
  {
    forall id {:trigger Usable(w, counts, id)} :: id in counts ==> Usable(w, counts, id)
  }

  /** Genesis has a target both rules could have given. */
  predicate UsableGenesis(w: World) { 0 < w.genesis.header.target <= INITIAL_TARGET }

  lemma PushUsable(path: Blocks, b: Block)
    requires SumsWork(HeadersOf(path)) && b.count.header.height == |path|
    requires 0 < b.count.header.target <= INITIAL_TARGET
    requires path != [] ==>
      b.count.header.pointWork == Last(path).count.header.pointWork + CountWork(b.count.header.target)
    ensures SumsWork(HeadersOf(path + [b]))
  {
    hide CountWork;
    var hs, hs' := HeadersOf(path), HeadersOf(path + [b]);
    assert forall h :: 0 <= h < |path| ==> hs'[h] == hs[h];
  }

  lemma StoredUsable(w: World, s: State, e: Event, prune: bool)
    requires ValidWorld(w) && Structured(w, s, prune) && Honest(w, e) && Extending(w, s, e, prune)
    requires AllUsable(w, s.counts) && Demands(w, s, e, prune)
    ensures IsTree(w, Store(s, e).counts) && AllUsable(w, Store(s, e).counts)
  {
    hide IsSoundTree, IsTree, CheckCount, Sound, PathTo, ValidWorld, ParentsKnown, Accept, Step, Succeeds, CountWork, SumsWork,
      AllIncludable, HeadersOf, ChainIDs, Usable, IsDemanded;
    StepCases(w, s, e, prune);
    StoreKeepsStructure(w, s, e, prune);
    var counts := Store(s, e).counts;
    NewUsable(w, s, e, prune);
    forall id | id in counts ensures Usable(w, counts, id) {
      if id != e.id {
        assert Usable(w, s.counts, id);
        UsableFrame(w, s.counts, counts, s.known, e.id, id);
      }
    }
  }

  /** Other branches keep their headers, and the counts below them too, as these are known. */
  lemma UsableFrame(w: World, counts: Counts, counts': Counts, known: set<CountID>, x: CountID, id: CountID)
    requires IsTree(w, counts) && IsTree(w, counts') && ParentsKnown(w, counts, known) && x !in known
    requires id in counts && id != x && x in counts' && counts' == counts[x := counts'[x]]
    requires forall y :: y in counts && y != x ==> PathTo(w, counts', y) == PathTo(w, counts, y)
    requires Usable(w, counts, id)
    ensures Usable(w, counts', id)
  {
    hide PathTo, IsTree, SumsWork, HeadersOf, IsDemanded;
    PathLast(w, counts, id);
    assert Header(counts, id) == Header(counts', id);
  }

  lemma NewUsable(w: World, s: State, e: Event, prune: bool)
    requires ValidWorld(w) && Structured(w, s, prune) && Honest(w, e) && Extending(w, s, e, prune)
    requires AllUsable(w, s.counts) && Demands(w, s, e, prune)
    ensures IsTree(w, Store(s, e).counts) && Usable(w, Store(s, e).counts, e.id)
  {
    hide IsSoundTree, IsTree, CheckCount, Sound, PathTo, ValidWorld, ParentsKnown, Accept, Step, Succeeds, CountWork, SumsWork,
      AllIncludable, HeadersOf, ChainIDs, IsDemanded;
    StepCases(w, s, e, prune);
    StoreKeepsStructure(w, s, e, prune);
    StoredPath(w, s, e, prune);
    StorableFacts(w, s.counts, s.known, e);
    var previous := e.count.header.previous;
    PathLast(w, s.counts, previous);
    HeightOf(w, s.counts, previous);
    assert Usable(w, s.counts, previous);
    DemandedBelow(HeadersOf(PathTo(w, s.counts, previous)), e.target);
    PushUsable(PathTo(w, s.counts, previous), Block(e.id, e.count));
  }

  lemma DemandedBelow(path: Headers, target: nat)
    requires IsDemanded(path, target)
    ensures target <= INITIAL_TARGET
  {
    hide SumsWork, ExpectedTarget;
    TargetIsDefined(path);
  }

  lemma HeightOf(w: World, counts: Counts, id: CountID)
    requires IsTree(w, counts) && id in counts
    ensures |PathTo(w, counts, id)| == Header(counts, id).height + 1
  {
  }

  lemma GenesisUsable(w: World, s: State, e: Event, prune: bool)
    requires ValidWorld(w) && Structured(w, s, prune) && Honest(w, e) && UsableGenesis(w) && AllUsable(w, s.counts)
    requires e.id == w.genesisID && Storable(w, s.counts, s.known, e)
    ensures IsTree(w, Store(s, e).counts) && AllUsable(w, Store(s, e).counts)
  {
    hide IsSoundTree, IsTree, CheckCount, CheckContext, Sound, PathTo, ParentsKnown, CountWork, SumsWork, HeadersOf, ChainIDs, Usable;
    StoreKeepsStructure(w, s, e, prune);
    var counts := Store(s, e).counts;
    GenesisAlone(w, counts);
    forall id | id in counts ensures Usable(w, counts, id) {
      if id != e.id {
        assert Usable(w, s.counts, id);
        UsableFrame(w, s.counts, counts, s.known, e.id, id);
      }
    }
  }

  lemma GenesisAlone(w: World, counts: Counts)
    requires UsableGenesis(w) && IsTree(w, counts) && w.genesisID in counts && counts[w.genesisID].count == w.genesis
    requires w.genesis.header.height == 0
    ensures Usable(w, counts, w.genesisID)
  {
    hide IsTree, PathTo, CountWork;
    PathLast(w, counts, w.genesisID);
    var path := PathTo(w, counts, w.genesisID);
    assert path == Init(path) + [Last(path)] == [] + [Block(w.genesisID, w.genesis)];
    PushUsable([], Block(w.genesisID, w.genesis));
  }

  lemma StepKeepsUsable(w: World, s: State, e: Event, prune: bool)
    requires ValidWorld(w) && Structured(w, s, prune) && Honest(w, e) && UsableGenesis(w)
    requires AllUsable(w, s.counts) && Demands(w, s, e, prune)
    ensures IsTree(w, Step(w, s, e, prune).counts) && AllUsable(w, Step(w, s, e, prune).counts)
  {
    hide IsSoundTree, IsTree, CheckCount, CheckContext, Sound, PathTo, ParentsKnown, Accept, Usable, UsableGenesis, Extends,
      ValidWorld, WellFormed, Honest, Demands;
    if Extending(w, s, e, prune) {
      StoredUsable(w, s, e, prune);
      StepCases(w, s, e, prune);
      AcceptKeepsStructure(w, Store(s, e), e.id, prune, e.descends);
    } else if e.id !in s.known && CheckCount(w, e.id, e.count, e.now) && e.count.header.previous !in s.known && e.id == w.genesisID {
      GenesisUsable(w, s, e, prune);
    }
  }

  /** Every event of the run carries the demanded target. */
  ghost predicate AllDemand(w: World, events: seq<Event>, prune: bool)
    requires ValidWorld(w) && forall i :: 0 <= i < |events| ==> Honest(w, events[i])
  {
    events == [] ||
    (AllDemand(w, events[..|events| - 1], prune)
     && Demands(w, Run(w, events[..|events| - 1], prune), events[|events| - 1], prune))
  }

  /** In every such run, every stored count has the target its branch demands, and every branch is one both rules accept. */
  lemma {:induction false} RunKeepsUsable(w: World, events: seq<Event>, prune: bool)
    requires ValidWorld(w) && UsableGenesis(w) && forall i :: 0 <= i < |events| ==> Honest(w, events[i])
    requires AllDemand(w, events, prune)
    ensures IsTree(w, Run(w, events, prune).counts) && AllUsable(w, Run(w, events, prune).counts)
  {
    hide Step, Honest, ValidWorld, Usable, UsableGenesis, IsTree, IsSoundTree, Sound, PathTo, ParentsKnown, Demands;
    if events == [] {
      NoTree(w);
    } else {
      RunKeepsUsable(w, events[..|events| - 1], prune);
      StepKeepsUsable(w, Run(w, events[..|events| - 1], prune), events[|events| - 1], prune);
    }
  }

  lemma NoTree(w: World)
    ensures IsTree(w, map[])
  {
  }

  /** So the next target is always defined, and at most the initial one. */
  lemma NextTarget(w: World, events: seq<Event>, prune: bool, id: CountID)
    requires ValidWorld(w) && UsableGenesis(w) && forall i :: 0 <= i < |events| ==> Honest(w, events[i])
    requires AllDemand(w, events, prune) && id in Run(w, events, prune).counts
    ensures IsTree(w, Run(w, events, prune).counts)
    ensures var path := HeadersOf(PathTo(w, Run(w, events, prune).counts, id));
      && path != [] && SumsWork(path)
      && (|path| > BITCOIN_CASH_RETARGET_ALGORITHM_HEIGHT ==> ExpectedWork(path) > 0)
      && ExpectedTarget(path) <= INITIAL_TARGET
  {
    hide Run, Honest, ValidWorld, UsableGenesis, IsTree, IsSoundTree, Sound, PathTo, ParentsKnown, SumsWork, ExpectedWork,
      OriginalRule, RevisedRule, AllDemand, IsDemanded;
    RunKeepsUsable(w, events, prune);
    var counts := Run(w, events, prune).counts;
    assert Usable(w, counts, id);
    PathLast(w, counts, id);
    TargetIsDefined(HeadersOf(PathTo(w, counts, id)));
  }
}
