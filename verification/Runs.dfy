/** Processing one count as one change of state, and whole runs of such steps. */
module Runs {
  import opened Considerations
  import opened Balances
  import opened Chain
  import opened History
  import opened Ledger
  import opened Tree
  import opened ChainSelection
  import opened Acceptance
  import opened Work
  import MedianTime

  // ----- one event

  /** Begin the ledger with the genesis count. */
  ghost function Begin(w: World, s: State, e: Event, prune: bool): State
    requires WellFormed(e.count)
  {
    var b := Block(e.id, e.count);
    if Connects([], b, prune, e.descends) then State(Store(s, e).counts, [b], {e.id}, {}) else Store(s, e)
  }

  ghost function Step(w: World, s: State, e: Event, prune: bool): State
    requires ValidWorld(w) && Structured(w, s, prune) && Honest(w, e)
  {
    if e.id in s.known || !CheckCount(w, e.id, e.count, e.now) then s
    else if e.count.header.previous !in s.known then
      CheckedIsWellFormed(w, e.id, e.count, e.now);
      if e.id == w.genesisID then Begin(w, s, e, prune) else s
    else if !CheckContext(w, s.counts, e.count, e.target) then s
    else
      GenesisHasNoParent(w, s, e, prune);
      StoreKeepsStructure(w, s, e, prune);
      Accept(w, Store(s, e), e.id, prune, e.descends)
  }

  lemma GenesisHasNoParent(w: World, s: State, e: Event, prune: bool)
    requires ValidWorld(w) && Structured(w, s, prune) && Honest(w, e) && e.count.header.previous in s.known
    ensures e.id != w.genesisID && s.chain != []
  {
    hide IsSoundTree, PathTo, Sound;
    assert Rooted(w, s.counts, e.count.header.previous);
  }

  lemma GenesisComesFirst(w: World, s: State, prune: bool)
    requires Structured(w, s, prune) && s.chain != []
    ensures w.genesisID in s.known
  {
    hide IsSoundTree, PathTo, Sound;
    PathStartsAtGenesis(w, s.counts, TipID(s));
    ChainKnown(w, s, prune, TipID(s));
  }

  lemma BeginKeepsInv(w: World, s: State, e: Event, prune: bool)
    requires ValidWorld(w) && Structured(w, s, prune) && Honest(w, e) && e.id == w.genesisID
    requires Storable(w, s.counts, s.known, e) && WellFormed(e.count)
    ensures s.chain == [] && Structured(w, Begin(w, s, e, prune), prune) && TipIsBest(Begin(w, s, e, prune))
    ensures Begin(w, s, e, prune).flagged == {} == s.flagged
  {
    hide IsSoundTree, IsTree, CheckCount, CheckContext, WellFormed, Extends;
    if s.chain != [] {
      GenesisComesFirst(w, s, prune);
    }
    StoreKeepsStructure(w, s, e, prune);
    var b := Block(e.id, e.count);
    if Connects([], b, prune, e.descends) {
      assert [b][..0] == [];
      PathLast(w, Store(s, e).counts, e.id);
      assert PathTo(w, Store(s, e).counts, e.id) == [] + [b] == [b];
    }
  }

  /** Processing this event reports no error. */
  ghost predicate Accepts(w: World, s: State, e: Event, prune: bool)
    requires ValidWorld(w) && Structured(w, s, prune) && Honest(w, e)
  {
    e.id in s.known ||
    (CheckCount(w, e.id, e.count, e.now) &&
     if e.count.header.previous !in s.known then
       e.id == w.genesisID && Connects([], Block(e.id, e.count), prune, e.descends)
     else
       CheckContext(w, s.counts, e.count, e.target) &&
       (GenesisHasNoParent(w, s, e, prune);
        StoreKeepsStructure(w, s, e, prune);
        Succeeds(w, Store(s, e), e.id, prune, e.descends)))
  }

  /** The one case in which a known parent leads to the point being extended. */
  lemma StepCases(w: World, s: State, e: Event, prune: bool)
    requires ValidWorld(w) && Structured(w, s, prune) && Honest(w, e)
    requires e.id !in s.known && CheckCount(w, e.id, e.count, e.now) && e.count.header.previous in s.known
    ensures s.chain != [] && e.id != w.genesisID
    ensures CheckContext(w, s.counts, e.count, e.target) ==> Storable(w, s.counts, s.known, e)
    ensures CheckContext(w, s.counts, e.count, e.target) ==> Structured(w, Store(s, e), prune)
    ensures CheckContext(w, s.counts, e.count, e.target) && TipIsBest(s) ==> TipIsBest(Store(s, e))
    ensures e.id in Store(s, e).counts && Header(Store(s, e).counts, e.id) == e.count.header
    ensures CheckContext(w, s.counts, e.count, e.target) ==>
      Step(w, s, e, prune) == Accept(w, Store(s, e), e.id, prune, e.descends)
    ensures CheckContext(w, s.counts, e.count, e.target) ==>
      (Accepts(w, s, e, prune) <==> Succeeds(w, Store(s, e), e.id, prune, e.descends))
    ensures !CheckContext(w, s.counts, e.count, e.target) ==> Step(w, s, e, prune) == s && !Accepts(w, s, e, prune)
  {
    hide IsSoundTree, IsTree, CheckCount, CheckContext, Extends, Sound, PathTo, Accept, Succeeds, ValidWorld;
    GenesisHasNoParent(w, s, e, prune);
    if CheckContext(w, s.counts, e.count, e.target) {
      StoreKeepsStructure(w, s, e, prune);
    }
  }

  /** The event gets as far as trying to extend the point. */
  ghost predicate Extending(w: World, s: State, e: Event, prune: bool)
    requires ValidWorld(w) && Structured(w, s, prune) && Honest(w, e)
  {
    && e.id !in s.known && CheckCount(w, e.id, e.count, e.now)
    && e.count.header.previous in s.known && CheckContext(w, s.counts, e.count, e.target)
  }

  /** Processing this event fails and does not leave the chain as it was. */
  ghost predicate StepStrays(w: World, s: State, e: Event, prune: bool)
    requires ValidWorld(w) && Structured(w, s, prune) && Honest(w, e)
  {
    Extending(w, s, e, prune) &&
    (StepCases(w, s, e, prune);
     Strays(w, Store(s, e), e.id, prune, e.descends))
  }

  /** Processing this event leaves the old tip on the chain, below counts that were not meant to stay. */
  ghost predicate StepOvertakes(w: World, s: State, e: Event, prune: bool)
    requires ValidWorld(w) && Structured(w, s, prune) && Honest(w, e)
  {
    Extending(w, s, e, prune) &&
    (StepCases(w, s, e, prune);
     Overtakes(w, Store(s, e), e.id, prune, e.descends))
  }

  /** Every step keeps the structure, and keeps the tip the best count exactly when it does not stray. */
  lemma StepKeepsInv(w: World, s: State, e: Event, prune: bool)
    requires ValidWorld(w) && Structured(w, s, prune) && Honest(w, e)
    ensures Structured(w, Step(w, s, e, prune), prune)
    ensures TipIsBest(s) ==> (TipIsBest(Step(w, s, e, prune)) <==> !StepStrays(w, s, e, prune))
    ensures TipIsBest(s) ==> Step(w, s, e, prune).flagged <= s.flagged
  {
    hide IsSoundTree, IsTree, CheckCount, CheckContext, WellFormed, Extends, Sound, PathTo, Begin, Accept, Strays, ValidWorld;
    if e.id in s.known || !CheckCount(w, e.id, e.count, e.now) {
    } else if e.count.header.previous !in s.known {
      CheckedIsWellFormed(w, e.id, e.count, e.now);
      if e.id == w.genesisID {
        BeginKeepsInv(w, s, e, prune);
      }
    } else if CheckContext(w, s.counts, e.count, e.target) {
      StepCases(w, s, e, prune);
      AcceptKeepsStructure(w, Store(s, e), e.id, prune, e.descends);
      if TipIsBest(s) {
        AcceptKeepsBestIff(w, Store(s, e), e.id, prune, e.descends);
      }
    }
  }

  /** A count of the main chain comes to be called SIDE exactly in an event that overtakes, and it is the old tip. */
  lemma StepFlagsIff(w: World, s: State, e: Event, prune: bool)
    requires ValidWorld(w) && Structured(w, s, prune) && Honest(w, e)
    ensures var s' := Step(w, s, e, prune);
      if StepOvertakes(w, s, e, prune)
      then s.chain != [] && s'.flagged == s.flagged + {TipID(s)} && TipID(s) in ChainIDs(s'.chain)
      else s'.flagged <= s.flagged
  {
    hide IsSoundTree, IsTree, CheckCount, CheckContext, WellFormed, Extends, Sound, PathTo, Begin, Accept, Overtakes, ValidWorld;
    if Extending(w, s, e, prune) {
      StepCases(w, s, e, prune);
      FlagsIff(w, Store(s, e), e.id, prune, e.descends);
    } else if e.id !in s.known && CheckCount(w, e.id, e.count, e.now) && e.count.header.previous !in s.known {
      CheckedIsWellFormed(w, e.id, e.count, e.now);
      if e.id == w.genesisID {
        BeginKeepsInv(w, s, e, prune);
      }
    }
  }

  /** Where a count that is about to extend the point will be. */
  lemma StoredPath(w: World, s: State, e: Event, prune: bool)
    requires ValidWorld(w) && Structured(w, s, prune) && Honest(w, e) && Extending(w, s, e, prune)
    ensures var counts := Store(s, e).counts;
      && IsTree(w, counts) && e.id in counts && e.count.header.previous in s.counts
      && PathTo(w, counts, e.id) == PathTo(w, s.counts, e.count.header.previous) + [Block(e.id, e.count)]
  {
    hide IsSoundTree, IsTree, CheckCount, CheckContext, Sound, PathTo, ValidWorld, ParentsKnown, Step, Accepts, Succeeds, Accept,
      TipIsBest, ChainIDs;
    StepCases(w, s, e, prune);
    StoreKeepsStructure(w, s, e, prune);
    PathLast(w, Store(s, e).counts, e.id);
    var path := PathTo(w, Store(s, e).counts, e.id);
    assert path == Init(path) + [Last(path)];
  }

  /** A count on top of the tip that connects becomes the tip. */
  lemma ExtendsTip(w: World, s: State, e: Event, prune: bool)
    requires ValidWorld(w) && Structured(w, s, prune) && Honest(w, e) && Extending(w, s, e, prune)
    requires s.chain != [] && e.count.header.previous == TipID(s) && AllWellFormed(s.chain)
    requires Connects(s.chain, Block(e.id, e.count), prune, e.descends)
    ensures Step(w, s, e, prune) == State(Store(s, e).counts, s.chain + [Block(e.id, e.count)], s.known + {e.id}, s.flagged)
  {
    hide IsSoundTree, IsTree, CheckCount, CheckContext, Extends, Sound, PathTo, ValidWorld, ParentsKnown, Better, FirstFailure, Fork;
    StepCases(w, s, e, prune);
    StoreKeepsStructure(w, s, e, prune);
    StoredPath(w, s, e, prune);
    var s1, b := Store(s, e), Block(e.id, e.count);
    var path := PathTo(w, s1.counts, e.id);
    BetterThanAncestors(w, s1.counts, e.id, |s.chain| - 1);
    PathWellFormed(w, s1.counts, e.id);
    OnTop(s.chain, b, prune, e.descends);
    assert Stop(w, s1, e.id, prune, e.descends) == |path| && path[..|path|] == path;
    assert s.chain[..|s.chain|] == s.chain && s.flagged * ChainIDs(s.chain) == s.flagged;
  }

  lemma OnTop(chain: Blocks, b: Block, prune: bool, descends: Descends)
    requires AllWellFormed(chain) && AllWellFormed(chain + [b]) && Connects(chain, b, prune, descends)
    ensures Fork(chain, chain + [b]) == |chain| && FirstFailure(chain + [b], |chain|, prune, descends) == |chain| + 1
  {
    hide Connects;
    var path := chain + [b];
    assert path[..|chain|] == chain == chain[..|chain|];
    ForkUnique(chain, path, |chain|);
    FirstFailureUnique(path, |chain|, prune, descends, |path|);
  }

  // ----- whole runs

  ghost function Run(w: World, events: seq<Event>, prune: bool): (s: State)
    requires ValidWorld(w) && forall i :: 0 <= i < |events| ==> Honest(w, events[i])
    ensures Structured(w, s, prune)
  {
    hide Step, Honest, Structured;
    if events == [] then
      EmptyIsStructured(w, prune);
      State(map[], [], {}, {})
    else
      var s := Run(w, events[..|events| - 1], prune);
      StepKeepsInv(w, s, events[|events| - 1], prune);
      Step(w, s, events[|events| - 1], prune)
  }

  lemma EmptyIsStructured(w: World, prune: bool)
    ensures Structured(w, State(map[], [], {}, {}), prune)
  {
  }

  /** No event of the run strays. */
  ghost predicate Steady(w: World, events: seq<Event>, prune: bool)
    requires ValidWorld(w) && forall i :: 0 <= i < |events| ==> Honest(w, events[i])
  {
    events == [] ||
    (Steady(w, events[..|events| - 1], prune)
     && !StepStrays(w, Run(w, events[..|events| - 1], prune), events[|events| - 1], prune))
  }

  /** In every state a steady run reaches, the tip is the best MAIN or SIDE count. */
  lemma {:induction false} ReachableTipIsBest(w: World, events: seq<Event>, prune: bool)
    requires ValidWorld(w) && forall i :: 0 <= i < |events| ==> Honest(w, events[i])
    requires Steady(w, events, prune)
    ensures Inv(w, Run(w, events, prune), prune) && Run(w, events, prune).flagged == {}
  {
    hide Step, Honest, Structured, StepStrays;
    if events != [] {
      ReachableTipIsBest(w, events[..|events| - 1], prune);
      StepKeepsInv(w, Run(w, events[..|events| - 1], prune), events[|events| - 1], prune);
    } else {
      EmptyTipIsBest(w, prune);
    }
  }

  /** What every run leaves: a chain of ancestors, nothing confirmed twice, no debts, and one unit per old count. */
  lemma ReachableLedger(w: World, events: seq<Event>, prune: bool)
    requires ValidWorld(w) && forall i :: 0 <= i < |events| ==> Honest(w, events[i])
    ensures var s := Run(w, events, prune);
      s.chain != [] ==> TipID(s) in s.counts && s.chain == PathTo(w, s.counts, TipID(s))
    ensures var chain := Run(w, events, prune).chain;
      AllWellFormed(chain) && NoReplay(chain) && Positive(BalancesOf(chain))
    ensures var chain := Run(w, events, prune).chain;
      Total(BalancesOf(chain)) == if |chain| > 100 then |chain| - 100 else 0
    ensures var chain := Run(w, events, prune).chain;
      forall k :: Get(BalancesOf(chain), k) == Upto(chain, |chain|, |chain|, k)
  {
    hide Run, IsSoundTree, IsTree, PathTo, Extends, NoReplay, BalancesOf, Upto;
    var chain := Run(w, events, prune).chain;
    SoundNoReplay(chain, prune);
    BalancesPositive(chain, prune);
    Supply(chain);
    forall k ensures Get(BalancesOf(chain), k) == Upto(chain, |chain|, |chain|, k) {
      BalanceIsHistory(chain, k);
    }
  }

  lemma EmptyTipIsBest(w: World, prune: bool)
    requires ValidWorld(w)
    ensures Structured(w, State(map[], [], {}, {}), prune) && TipIsBest(State(map[], [], {}, {}))
  {
  }

  // ----- what every run stores and confirms

  /** Whatever a run stores has its proof of work, commits to its list, and was not from the future. */
  lemma StoredIsChecked(w: World, events: seq<Event>, prune: bool, id: CountID)
    requires ValidWorld(w) && forall i :: 0 <= i < |events| ==> Honest(w, events[i])
    requires id in Run(w, events, prune).counts
    ensures var s := Run(w, events, prune).counts[id];
      var header, cns := s.count.header, s.count.considerations;
      && id == w.headerID(header) && 0 < id <= header.target
      && header.target < 0x1_0000_0000_0000_0000_0000_0000_0000_0000_0000_0000_0000_0000_0000_0000_0000_0000
      && w.listRoot(cns) == header.hashListRoot && header.considerationCount == |cns| >= 1
      && header.height >= 0 && |cns| <= MaxConsiderations(header.height) && 0 <= header.time <= s.when + 7200
      && cns[0].sender == None && (forall i :: 1 <= i < |cns| ==> cns[i].sender != None)
      && (forall i, j :: 0 <= i < j < |cns| ==> cns[i].ID() != cns[j].ID())
  {
    hide Run, PathTo, MaxConsiderations, CheckSeries, IDsOf, Sound, ParentsKnown, InContext, CheckConsideration;
    var counts := Run(w, events, prune).counts;
    assert Checked(w, id, counts[id]) && Rooted(w, counts, id);
    DistinctIDs(counts[id].count);
  }

  /** Every consideration it stores is of the right form, and every transfer signed. */
  lemma StoredIsFormed(w: World, events: seq<Event>, prune: bool, id: CountID, i: nat)
    requires ValidWorld(w) && forall j :: 0 <= j < |events| ==> Honest(w, events[j])
    requires id in Run(w, events, prune).counts && i < |Run(w, events, prune).counts[id].count.considerations|
    ensures var cn := Run(w, events, prune).counts[id].count.considerations[i];
      && |cn.recipient.bytes| == 32 && cn.sender != Some(cn.recipient) && |cn.memo| <= 150
      && 0 <= cn.time <= 9007199254740991 && cn.nonce >= 0 && 0 < cn.series
      && (if i == 0 then cn.signature == [] && cn.matures == 0 && cn.expires == 0
          else cn.sender.Some? && |cn.sender.value.bytes| == 32 && |cn.signature| == 64 && w.verify(cn))
  {
    hide Run, PathTo, MaxConsiderations, CheckSeries, IDsOf, Sound, ParentsKnown, InContext, Rooted;
    var counts := Run(w, events, prune).counts;
    assert Checked(w, id, counts[id]);
    assert WellFormed(counts[id].count) && AllVerified(w, counts[id].count);
  }

  /** A transfer that the chain confirms at a height is mature and not expired there, and has an acceptable series. */
  lemma ConfirmedInTime(w: World, events: seq<Event>, prune: bool, h: nat, i: nat)
    requires ValidWorld(w) && forall j :: 0 <= j < |events| ==> Honest(w, events[j])
    requires h < |Run(w, events, prune).chain| && 1 <= i < |Run(w, events, prune).chain[h].count.considerations|
    ensures var cn := Run(w, events, prune).chain[h].count.considerations[i];
      && h > 0 && (cn.matures == 0 || cn.matures >= h) && (cn.expires == 0 || cn.expires >= h)
      && h / 1008 <= cn.series <= h / 1008 + 1 && cn.series >= 1
  {
    hide Run, MaxConsiderations, IDsOf, InContext, Rooted, CheckConsideration, AllVerified, PathTo, IsSoundTree, Sound, ParentsKnown;
    var s := Run(w, events, prune);
    var b := s.chain[h];
    assert IsStored(s.counts, b, h);
    ChainExtends(s.chain, prune, h);
    if h == 0 {
      GenesisPaysNothing(b, prune);
    }
    CheckedAt(w, s.counts, b.id);
    PathAt(w, s.counts, TipID(s), h);
    OnlyGenesisIsLow(w, s.counts, b.id);
  }

  /** The counterpoint a chain holds at a height has the series of that height. */
  lemma CounterpointSeries(w: World, events: seq<Event>, prune: bool, h: nat)
    requires ValidWorld(w) && forall j :: 0 <= j < |events| ==> Honest(w, events[j])
    requires h < |Run(w, events, prune).chain|
    ensures |Run(w, events, prune).chain[h].count.considerations| >= 1
    ensures Run(w, events, prune).chain[h].count.considerations[0].series == h / 1008 + 1
  {
    hide Run, MaxConsiderations, IDsOf, CheckConsideration, PathTo, IsSoundTree, Sound, ParentsKnown;
    ChainExtends(Run(w, events, prune).chain, prune, h);
  }

  /** Whatever a run stores above genesis adds to its stored parent, and comes after the median of the branch. */
  lemma StoredFitsParent(w: World, events: seq<Event>, prune: bool, id: CountID)
    requires ValidWorld(w) && forall i :: 0 <= i < |events| ==> Honest(w, events[i])
    requires id in Run(w, events, prune).counts && id != w.genesisID
    ensures var counts := Run(w, events, prune).counts;
      && IsTree(w, counts) && Header(counts, id).previous in counts
      && var header, parent := Header(counts, id), Header(counts, Header(counts, id).previous);
        && header.height == parent.height + 1 && header.target > 0
        && header.pointWork == parent.pointWork + CountWork(header.target)
        && var times := Times(PathTo(w, counts, header.previous));
          times != [] && header.time > MedianTime.Median(times)
  {
    hide Run, PathTo, MaxConsiderations, CheckSeries, IDsOf, Sound, ParentsKnown, CheckConsideration, Checked, CountWork, MedianTime.Median;
    var counts := Run(w, events, prune).counts;
    assert InContext(w, counts, id) && Rooted(w, counts, id);
  }

  lemma CheckedAt(w: World, counts: Counts, id: CountID)
    requires IsSoundTree(w, counts) && id in counts
    ensures Checked(w, id, counts[id])
  {
  }

  lemma OnlyGenesisIsLow(w: World, counts: Counts, id: CountID)
    requires ValidWorld(w) && IsTree(w, counts) && id in counts && Header(counts, id).height > 0
    ensures id != w.genesisID
  {
    assert Rooted(w, counts, id);
  }

  lemma ChainExtends(chain: Blocks, prune: bool, h: nat)
    requires Sound(chain, prune) && h < |chain|
    ensures AllWellFormed(chain[..h]) && Extends(chain[..h], chain[h], prune)
  {
  }

  /** Nobody holds anything before the first count. */
  lemma GenesisPaysNothing(b: Block, prune: bool)
    requires Extends([], b, prune)
    ensures |b.count.considerations| == 1
  {
    var cns := b.count.considerations;
    if |cns| > 1 {
      assert Effects([], b.count) == cns[1..];
      CoveredPrefix(map[], cns[1..], 1);
    }
  }
}
