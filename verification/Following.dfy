/** How the queue follows the ledger through one event, and when that leaves it settled and solvent. */
module Following {
  import opened Considerations
  import opened Balances
  import opened Chain
  import opened Ledger
  import opened Tree
  import opened Queue
  import opened ChainSelection
  import opened Acceptance
  import opened Runs

  function Transfers(b: Block): seq<Consideration>
  {
    if b.count.considerations == [] then [] else b.count.considerations[1..]
  }

  /** Disconnecting a chain from its tip down to height `i` puts the transfers of each count to the front. */
  function PutBack(s: seq<Consideration>, chain: Blocks, i: nat): seq<Consideration>
    requires i <= |chain|
    decreases |chain| - i
  {
    if i == |chain| then s
    else Transfers(chain[i]) + Excluding(PutBack(s, chain, i + 1), IDSet(Transfers(chain[i])))
  }

  /** Connecting the counts of a path from height `f` up to but not including `n` takes their transfers out. */
  function TakeOut(s: seq<Consideration>, path: Blocks, f: nat, n: nat): seq<Consideration>
    requires f <= n <= |path|
  {
    if n == f then s else Excluding(TakeOut(s, path, f, n - 1), IDSet(Transfers(path[n - 1])))
  }

  /** Connecting one count: its transfers leave, and unless more connects follow the queue is rebuilt. */
  function QConnect(q: QueueState, m: Table, b: Block, more: bool, length: nat, descends: Descends): QueueState
  {
    var left := Excluding(q.contents, IDSet(Transfers(b)));
    if more then q.(contents := left) else Sift(m, left, length, descends)
  }

  /** Disconnecting one count. */
  function QDisconnect(q: QueueState, b: Block): QueueState
  {
    q.(contents := Transfers(b) + Excluding(q.contents, IDSet(Transfers(b))))
  }

  /** The entries after leaving the chain above height `f` for a path up to height `k`. */
  function Edited(s: seq<Consideration>, chain: Blocks, path: Blocks, f: nat, k: nat): seq<Consideration>
    requires f <= |chain| && f <= k <= |path|
  {
    TakeOut(PutBack(s, chain, f), path, f, k)
  }

  /** The queue after one call of acceptCountContinue: edited, and rebuilt only when the last count connects. */
  ghost function QContinue(w: World, s: State, q: QueueState, id: CountID, prune: bool, descends: Descends): QueueState
    requires Structured(w, s, prune) && s.chain != [] && id in s.counts
  {
    if id == TipID(s) || !Better(s.counts, id, TipID(s)) then q
    else
      PathWellFormed(w, s.counts, id);
      var path, k := PathTo(w, s.counts, id), Stop(w, s, id, prune, descends);
      var edited := Edited(q.contents, s.chain, path, Fork(s.chain, path), k);
      if k < |path| then q.(contents := edited) else Sift(BalancesOf(path), edited, |path|, descends)
  }

  ghost function QAccept(w: World, s: State, q: QueueState, id: CountID, prune: bool, descends: Descends): QueueState
    requires Structured(w, s, prune) && s.chain != [] && id in s.counts
  {
    ContinueKeepsStructure(w, s, id, prune, descends);
    var s1, q1 := Continue(w, s, id, prune, descends), QContinue(w, s, q, id, prune, descends);
    if Succeeds(w, s, id, prune, descends) then q1 else QContinue(w, s1, q1, TipID(s), prune, descends)
  }

  /** The queue after processing a count. */
  ghost function QStep(w: World, s: State, q: QueueState, e: Event, prune: bool): QueueState
    requires ValidWorld(w) && Structured(w, s, prune) && Honest(w, e)
  {
    if Extending(w, s, e, prune) then
      StepCases(w, s, e, prune);
      QAccept(w, Store(s, e), q, e.id, prune, e.descends)
    else if Begins(w, s, e, prune) then
      QBegin(q, Block(e.id, e.count), e.descends)
    else q
  }

  function QBegin(q: QueueState, b: Block, descends: Descends): QueueState
    requires WellFormed(b.count)
  {
    QConnect(q, BalancesOf([b]), b, false, 1, descends)
  }

  /** The event connects the genesis count. */
  ghost predicate Begins(w: World, s: State, e: Event, prune: bool)
  {
    && e.id !in s.known && CheckCount(w, e.id, e.count, e.now) && e.count.header.previous !in s.known
    && e.id == w.genesisID && Connects([], Block(e.id, e.count), prune, e.descends)
  }

  // ----- new considerations

  const MAX_QUEUE_LENGTH: nat := 100000

  /** What processConsideration checks before it asks the queue. */
  predicate Acceptable(w: World, chain: Blocks, prune: bool, queued: seq<Consideration>, cn: Consideration)
  {
    && CheckConsideration(cn) && !cn.IsCounterPoint() && |queued| < MAX_QUEUE_LENGTH
    && cn.ID() !in IndexedIDs(chain, Lowest(|chain|, prune)) && chain != [] && Current(cn, |chain|) && w.verify(cn)
  }

  /** The queue after processing a consideration. */
  function QConsider(w: World, chain: Blocks, q: QueueState, cn: Consideration, prune: bool, descends: Descends): QueueState
    requires AllWellFormed(chain)
  {
    if Acceptable(w, chain, prune, q.contents, cn) then Added(BalancesOf(chain), q, cn, descends) else q
  }

  /** A transfer newly made out for the next count, signed and payable, is queued at the back. */
  lemma FreshIsQueued(w: World, chain: Blocks, q: QueueState, cn: Consideration, prune: bool, descends: Descends)
    requires AllWellFormed(chain) && chain != [] && Solvent(BalancesOf(chain), q) && |q.contents| < 100000
    requires cn.sender.Some? && |cn.sender.value.bytes| == 32 && |cn.recipient.bytes| == 32 && |cn.signature| == 64
    requires cn.sender.value != cn.recipient && |cn.memo| <= 150 && 0 <= cn.time <= 9007199254740991 && cn.nonce >= 0
    requires cn.matures == 0 && cn.expires == 0 && cn.series == ComputeSeries(false, |chain| - 1) <= 9007199254740991
    requires w.verify(cn) && cn.ID() !in IndexedIDs(chain, 0) && cn.ID() !in IDSet(q.contents)
    requires Get(BalancesOf(chain), cn.sender.value) + DeltaAll(q.contents, cn.sender.value) >= 1
    requires !descends(cn.recipient, cn.sender.value)
    ensures QConsider(w, chain, q, cn, prune, descends).contents == q.contents + [cn]
    ensures Solvent(BalancesOf(chain), QConsider(w, chain, q, cn, prune, descends))
  {
    hide BalancesOf, WellFormed, Overlay, MoveAll, Covered, IDSet, IndexedIDs;
    SeriesGrace(cn, |chain| - 1, |chain|);
    LessIndexed(chain, Lowest(|chain|, prune));
    MoveAllEffect(BalancesOf(chain), q.contents, cn.sender.value);
    AddedContents(BalancesOf(chain), q, cn, descends);
    AddSolventIff(BalancesOf(chain), q, cn, descends);
  }

  lemma LessIndexed(chain: Blocks, lo: nat)
    ensures IndexedIDs(chain, lo) <= IndexedIDs(chain, 0)
  {
  }

  /** A new consideration leaves a settled queue settled. */
  lemma ConsiderKeepsSettled(w: World, chain: Blocks, q: QueueState, cn: Consideration, prune: bool, descends: Descends)
    requires AllWellFormed(chain) && IsSettled(BalancesOf(chain), |chain|, q)
    ensures IsSettled(BalancesOf(chain), |chain|, QConsider(w, chain, q, cn, prune, descends))
  {
    hide IsSettled, BalancesOf, Added, CheckConsideration, Current, WellFormed;
    if Acceptable(w, chain, prune, q.contents, cn) {
      AddKeepsSettled(BalancesOf(chain), |chain|, q, cn, descends);
    }
  }

  // ----- what a failed event leaves

  /** The entries when the old branch has been connected again up to height `n`. */
  ghost function EditedBack(w: World, s: State, c: seq<Consideration>, id: CountID, prune: bool, descends: Descends, n: nat): seq<Consideration>
    requires Structured(w, s, prune) && s.chain != [] && id in s.counts
    requires Fork(s.chain, PathTo(w, s.counts, id)) <= n <= |s.chain|
  {
    var path, k := PathTo(w, s.counts, id), Stop(w, s, id, prune, descends);
    var f := Fork(s.chain, path);
    Edited(Edited(c, s.chain, path, f, k), path[..k], s.chain, f, n)
  }

  /** Is the queue rebuilt in this event? */
  ghost predicate Rebuilds(w: World, s: State, id: CountID, prune: bool, descends: Descends)
    requires Structured(w, s, prune) && s.chain != [] && id in s.counts
  {
    ContinueKeepsStructure(w, s, id, prune, descends);
    && id != TipID(s) && Better(s.counts, id, TipID(s))
    && if WholePathConnects(w, s, id, prune, descends) then true
       else TipID(Continue(w, s, id, prune, descends)) != TipID(s) && Restores(w, s, id, prune, descends)
  }

  /** The entries it is rebuilt from. */
  ghost function RebuiltFrom(w: World, s: State, c: seq<Consideration>, id: CountID, prune: bool, descends: Descends): seq<Consideration>
    requires Structured(w, s, prune) && s.chain != [] && id in s.counts
  {
    var path := PathTo(w, s.counts, id);
    var f := Fork(s.chain, path);
    if WholePathConnects(w, s, id, prune, descends) then Edited(c, s.chain, path, f, |path|)
    else EditedBack(w, s, c, id, prune, descends, |s.chain|)
  }

  /** What edits without a rebuild leave, when the event strays. */
  ghost function StrayFrom(w: World, s: State, c: seq<Consideration>, id: CountID, prune: bool, descends: Descends): seq<Consideration>
    requires Structured(w, s, prune) && s.chain != [] && id in s.counts
  {
    ContinueKeepsStructure(w, s, id, prune, descends);
    SoundIsWellFormed(s.chain, prune);
    var path, k := PathTo(w, s.counts, id), Stop(w, s, id, prune, descends);
    var f := Fork(s.chain, path);
    if Better(s.counts, TipID(s), TipID(Continue(w, s, id, prune, descends)))
    then EditedBack(w, s, c, id, prune, descends, FirstFailure(s.chain, f, prune, descends))
    else Edited(c, s.chain, path, f, k)
  }

  lemma QSucceeds(w: World, s: State, q: QueueState, id: CountID, prune: bool, descends: Descends)
    requires Structured(w, s, prune) && s.chain != [] && id in s.counts && Succeeds(w, s, id, prune, descends)
    requires id != TipID(s) && Better(s.counts, id, TipID(s))
    ensures var path := PathTo(w, s.counts, id);
      && AllWellFormed(path) && Accept(w, s, id, prune, descends).chain == path
      && QAccept(w, s, q, id, prune, descends)
        == Sift(BalancesOf(path), Edited(q.contents, s.chain, path, Fork(s.chain, path), |path|), |path|, descends)
  {
    hide IsSoundTree, PathTo, Sound, IsTree, FirstFailure, Fork, ParentsKnown, Better, ChainIDs, Edited, Sift, BalancesOf, WellFormed, Stop;
    PathWellFormed(w, s.counts, id);
  }

  lemma QBackAtTip(w: World, s: State, q: QueueState, id: CountID, prune: bool, descends: Descends)
    requires Structured(w, s, prune) && s.chain != [] && id in s.counts && !Succeeds(w, s, id, prune, descends)
    requires var s1 := Continue(w, s, id, prune, descends); s1.chain != [] && TipID(s1) == TipID(s)
    ensures QAccept(w, s, q, id, prune, descends) == q
  {
    hide IsSoundTree, PathTo, Sound, IsTree, FirstFailure, Fork, ParentsKnown, Better, ChainIDs, Sift, BalancesOf, WellFormed, Continue,
      Stop, Excluding;
    BackAtTip(w, s, id, prune, descends);
    FailureIsSwitch(w, s, id, prune, descends);
    ContinueFacts(w, s, id, prune, descends);
    var path, k := PathTo(w, s.counts, id), Stop(w, s, id, prune, descends);
    assert s.chain == path[..k];
    assert Edited(q.contents, s.chain, path, |s.chain|, k) == q.contents;
  }

  lemma QBackFromBranch(w: World, s: State, q: QueueState, id: CountID, prune: bool, descends: Descends)
    requires Structured(w, s, prune) && s.chain != [] && id in s.counts && !Succeeds(w, s, id, prune, descends)
    requires var s1 := Continue(w, s, id, prune, descends);
      s1.chain != [] && TipID(s1) in s.counts && TipID(s1) != TipID(s) && Better(s.counts, TipID(s), TipID(s1))
    ensures AllWellFormed(s.chain)
    ensures var n := FirstFailure(s.chain, Fork(s.chain, PathTo(w, s.counts, id)), prune, descends);
      var edited := EditedBack(w, s, q.contents, id, prune, descends, n);
      && n <= |s.chain|
      && QAccept(w, s, q, id, prune, descends)
        == if n < |s.chain| then q.(contents := edited) else Sift(BalancesOf(s.chain), edited, |s.chain|, descends)
  {
    hide IsSoundTree, PathTo, Sound, IsTree, FirstFailure, Fork, ParentsKnown, Better, ChainIDs, Edited, Sift, BalancesOf, WellFormed;
    ContinueKeepsStructure(w, s, id, prune, descends);
    FailureIsSwitch(w, s, id, prune, descends);
    ContinueFacts(w, s, id, prune, descends);
    var s1 := Continue(w, s, id, prune, descends);
    assert Stop(w, s1, TipID(s), prune, descends) == FirstFailure(s.chain, Fork(s.chain, PathTo(w, s.counts, id)), prune, descends);
  }

  lemma QStaysOnBranch(w: World, s: State, q: QueueState, id: CountID, prune: bool, descends: Descends)
    requires Structured(w, s, prune) && s.chain != [] && id in s.counts && !Succeeds(w, s, id, prune, descends)
    requires var s1 := Continue(w, s, id, prune, descends);
      s1.chain != [] && TipID(s1) in s.counts && TipID(s1) != TipID(s) && !Better(s.counts, TipID(s), TipID(s1))
    ensures var path, k := PathTo(w, s.counts, id), Stop(w, s, id, prune, descends);
      QAccept(w, s, q, id, prune, descends) == q.(contents := Edited(q.contents, s.chain, path, Fork(s.chain, path), k))
  {
    hide IsSoundTree, PathTo, Sound, IsTree, FirstFailure, Fork, ParentsKnown, Better, ChainIDs, Edited, Sift, BalancesOf, WellFormed, Stop;
    ContinueKeepsStructure(w, s, id, prune, descends);
    FailureIsSwitch(w, s, id, prune, descends);
  }

  /** The queue after an event, case by case. */
  lemma QueueCases(w: World, s: State, q: QueueState, id: CountID, prune: bool, descends: Descends)
    requires Structured(w, s, prune) && s.chain != [] && id in s.counts
    ensures AllWellFormed(Accept(w, s, id, prune, descends).chain)
    ensures var s', q' := Accept(w, s, id, prune, descends), QAccept(w, s, q, id, prune, descends);
      Rebuilds(w, s, id, prune, descends) ==>
        q' == Sift(BalancesOf(s'.chain), RebuiltFrom(w, s, q.contents, id, prune, descends), |s'.chain|, descends)
    ensures Strays(w, s, id, prune, descends) ==>
      QAccept(w, s, q, id, prune, descends) == q.(contents := StrayFrom(w, s, q.contents, id, prune, descends))
    ensures !Rebuilds(w, s, id, prune, descends) && !Strays(w, s, id, prune, descends) ==>
      QAccept(w, s, q, id, prune, descends) == q && Accept(w, s, id, prune, descends).chain == s.chain
    ensures !(Rebuilds(w, s, id, prune, descends) && Strays(w, s, id, prune, descends))
  {
    hide IsSoundTree, PathTo, Sound, IsTree, FirstFailure, Fork, ParentsKnown, Better, Stop, ChainIDs, Edited, Sift, BalancesOf, WellFormed,
      QAccept, Accept, Continue, Admits, EditedBack;
    AcceptKeepsStructure(w, s, id, prune, descends);
    SoundIsWellFormed(Accept(w, s, id, prune, descends).chain, prune);
    if id == TipID(s) || !Better(s.counts, id, TipID(s)) {
      QNoSwitch(w, s, q, id, prune, descends);
    } else if Succeeds(w, s, id, prune, descends) {
      QSucceeds(w, s, q, id, prune, descends);
    } else {
      ContinueKeepsStructure(w, s, id, prune, descends);
      FailureIsSwitch(w, s, id, prune, descends);
      ContinueFacts(w, s, id, prune, descends);
      RollbackIff(w, s, id, prune, descends);
      var s1 := Continue(w, s, id, prune, descends);
      if TipID(s1) == TipID(s) {
        QBackAtTip(w, s, q, id, prune, descends);
        BackAtTip(w, s, id, prune, descends);
      } else if Better(s.counts, TipID(s), TipID(s1)) {
        QBackFromBranch(w, s, q, id, prune, descends);
        ReconnectStops(w, s, prune, Fork(s.chain, PathTo(w, s.counts, id)), descends);
      } else {
        QStaysOnBranch(w, s, q, id, prune, descends);
      }
    }
  }

  lemma QNoSwitch(w: World, s: State, q: QueueState, id: CountID, prune: bool, descends: Descends)
    requires Structured(w, s, prune) && s.chain != [] && id in s.counts
    requires id == TipID(s) || !Better(s.counts, id, TipID(s))
    ensures Succeeds(w, s, id, prune, descends) && QAccept(w, s, q, id, prune, descends) == q
    ensures Accept(w, s, id, prune, descends).chain == s.chain
  {
    hide IsSoundTree, PathTo, Sound, IsTree, FirstFailure, Fork, ParentsKnown, Better, Stop, ChainIDs;
  }

  // ----- settled and solvent

  /** For a key the old cache speaks of, chain and entries together moved nothing; for another, the entries alone did not. */
  predicate OffsetsAt(m: Table, q: QueueState, m': Table, c': seq<Consideration>, k: PublicKey)
  {
    if k in q.cache then Get(m', k) + DeltaAll(c', k) == Get(m, k) + DeltaAll(q.contents, k)
    else DeltaAll(c', k) == DeltaAll(q.contents, k)
  }

  /** What moved under a cache that was not rebuilt cancels out, and the entries can still be paid. */
  ghost predicate Offsets(m: Table, q: QueueState, m': Table, c': seq<Consideration>)
  {
    && (forall k {:trigger OffsetsAt(m, q, m', c', k)} :: OffsetsAt(m, q, m', c', k))
    && (q.leaked == [] ==> Covered(m', c'))
  }

  lemma StaleAt(m: Table, q: QueueState, m': Table, c': seq<Consideration>, k: PublicKey)
    requires AccountsAt(m, q, k)
    ensures AccountsAt(m', q.(contents := c'), k) <==> OffsetsAt(m, q, m', c', k)
  {
    hide Overlay, DeltaAll;
    OverlayGet(m, q.cache);
    OverlayGet(m', q.cache);
  }

  /** A cache that was not rebuilt still accounts for the queue exactly when what moved offsets. */
  lemma StaleAccountsIff(m: Table, q: QueueState, m': Table, c': seq<Consideration>)
    requires Accounts(m, q) && Canonical(m')
    ensures Accounts(m', q.(contents := c')) <==> Offsets(m, q, m', c')
  {
    hide Covered, MoveAll, Overlay, AccountsAt, OffsetsAt;
    var q' := q.(contents := c');
    forall k ensures AccountsAt(m', q', k) <==> OffsetsAt(m, q, m', c', k) {
      assert AccountsAt(m, q, k);
      StaleAt(m, q, m', c', k);
    }
    if q.leaked == [] && Offsets(m, q, m', c') {
      forall k ensures AccountsAt(m', q', k) {
        assert OffsetsAt(m, q, m', c', k);
      }
      ViewIsReplay(m', q');
    }
  }

  lemma ViewIsReplay(m: Table, q: QueueState)
    requires Canonical(m) && q.leaked == [] && forall k {:trigger AccountsAt(m, q, k)} :: AccountsAt(m, q, k)
    ensures ViewOf(m, q) == MoveAll(m, q.contents)
  {
    hide MoveAll, Overlay;
    OverlayGet(m, q.cache);
    MoveAllCanonical(m, q.contents);
    forall k ensures Get(ViewOf(m, q), k) == Get(MoveAll(m, q.contents), k) {
      assert AccountsAt(m, q, k);
      MoveAllEffect(m, q.contents, k);
    }
    CanonicalUnique(ViewOf(m, q), MoveAll(m, q.contents));
  }

  /** Must the event leave a settled queue settled? Only if it strays may it not, and then exactly if what moved does not offset. */
  ghost predicate KeepsSettled(w: World, s: State, q: QueueState, id: CountID, prune: bool, descends: Descends)
    requires Structured(w, s, prune) && s.chain != [] && id in s.counts
  {
    AcceptKeepsStructure(w, s, id, prune, descends);
    SoundIsWellFormed(s.chain, prune);
    SoundIsWellFormed(Accept(w, s, id, prune, descends).chain, prune);
    var s', c' := Accept(w, s, id, prune, descends), StrayFrom(w, s, q.contents, id, prune, descends);
    Strays(w, s, id, prune, descends) ==>
      Offsets(BalancesOf(s.chain), q, BalancesOf(s'.chain), c') && AllCurrent(c', |s'.chain|)
  }

  lemma SettledIff(w: World, s: State, q: QueueState, id: CountID, prune: bool, descends: Descends)
    requires Structured(w, s, prune) && s.chain != [] && id in s.counts
    requires AllWellFormed(s.chain) && IsSettled(BalancesOf(s.chain), |s.chain|, q)
    ensures AllWellFormed(Accept(w, s, id, prune, descends).chain)
    ensures var s' := Accept(w, s, id, prune, descends);
      IsSettled(BalancesOf(s'.chain), |s'.chain|, QAccept(w, s, q, id, prune, descends))
      <==> KeepsSettled(w, s, q, id, prune, descends)
  {
    hide IsSoundTree, PathTo, Sound, IsTree, FirstFailure, Fork, ParentsKnown, Better, Stop, ChainIDs, Edited, Sift, BalancesOf, WellFormed,
      QAccept, Accept, Continue, Rebuilds, Strays, StrayFrom, RebuiltFrom, Accounts, Offsets, AllCurrent;
    QueueCases(w, s, q, id, prune, descends);
    var s' := Accept(w, s, id, prune, descends);
    BalancesCanonical(s'.chain);
    if Strays(w, s, id, prune, descends) {
      StaleAccountsIff(BalancesOf(s.chain), q, BalancesOf(s'.chain), StrayFrom(w, s, q.contents, id, prune, descends));
    } else if Rebuilds(w, s, id, prune, descends) {
      SiftAccounts(BalancesOf(s'.chain), RebuiltFrom(w, s, q.contents, id, prune, descends), |s'.chain|, descends);
    }
  }

  /** Processing a count leaves a settled queue settled exactly under that condition, and whatever does not extend the point does. */
  lemma StepSettledIff(w: World, s: State, q: QueueState, e: Event, prune: bool)
    requires ValidWorld(w) && Structured(w, s, prune) && Honest(w, e)
    requires AllWellFormed(s.chain) && IsSettled(BalancesOf(s.chain), |s.chain|, q)
    ensures AllWellFormed(Step(w, s, e, prune).chain)
    ensures var s' := Step(w, s, e, prune);
      IsSettled(BalancesOf(s'.chain), |s'.chain|, QStep(w, s, q, e, prune)) <==> StepKeepsSettled(w, s, q, e, prune)
  {
    hide IsSoundTree, PathTo, Sound, IsTree, ParentsKnown, Sift, BalancesOf, WellFormed, QAccept, Accept, KeepsSettled, IsSettled,
      ValidWorld, CheckCount, CheckContext, Honest, Connects;
    StepKeepsInv(w, s, e, prune);
    SoundIsWellFormed(Step(w, s, e, prune).chain, prune);
    if Extending(w, s, e, prune) {
      StepCases(w, s, e, prune);
      SettledIff(w, Store(s, e), q, e.id, prune, e.descends);
    } else if Begins(w, s, e, prune) {
      BeginSettles(w, s, q, e, prune);
    }
  }

  ghost predicate StepKeepsSettled(w: World, s: State, q: QueueState, e: Event, prune: bool)
    requires ValidWorld(w) && Structured(w, s, prune) && Honest(w, e)
  {
    Extending(w, s, e, prune) ==>
      (StepCases(w, s, e, prune);
       KeepsSettled(w, Store(s, e), q, e.id, prune, e.descends))
  }

  lemma BeginSettles(w: World, s: State, q: QueueState, e: Event, prune: bool)
    requires ValidWorld(w) && Structured(w, s, prune) && Honest(w, e) && Begins(w, s, e, prune)
    ensures WellFormed(e.count) && AllWellFormed(Step(w, s, e, prune).chain)
    ensures var chain := Step(w, s, e, prune).chain;
      IsSettled(BalancesOf(chain), |chain|, QBegin(q, Block(e.id, e.count), e.descends))
  {
    hide IsSoundTree, PathTo, IsTree, ParentsKnown, Sift, BalancesOf, CheckContext, Accounts, AllCurrent, Extends;
    var b := Block(e.id, e.count);
    assert Step(w, s, e, prune).chain == [b];
    BalancesCanonical([b]);
    SiftAccounts(BalancesOf([b]), Excluding(q.contents, IDSet(Transfers(b))), 1, e.descends);
  }

  // ----- nothing pays itself

  ghost predicate Fair(s: seq<Consideration>) { forall cn :: cn in s ==> cn.sender != Some(cn.recipient) }

  lemma FairExcluding(s: seq<Consideration>, ids: set<ConsiderationID>)
    requires Fair(s)
    ensures Fair(Excluding(s, ids))
  {
    hide Excluding;
    ExcludingEffect(s, ids);
    forall cn | cn in Excluding(s, ids) ensures cn in s {
      var i :| 0 <= i < |Excluding(s, ids)| && Excluding(s, ids)[i] == cn;
    }
  }

  lemma {:induction false} FairPutBack(s: seq<Consideration>, chain: Blocks, i: nat)
    requires Fair(s) && AllWellFormed(chain) && i <= |chain|
    ensures Fair(PutBack(s, chain, i))
    decreases |chain| - i
  {
    hide Excluding, IDSet;
    if i == |chain| {
    } else {
      FairPutBack(s, chain, i + 1);
      FairExcluding(PutBack(s, chain, i + 1), IDSet(Transfers(chain[i])));
      assert WellFormed(chain[i].count);
    }
  }

  lemma {:induction false} FairTakeOut(s: seq<Consideration>, path: Blocks, f: nat, n: nat)
    requires Fair(s) && f <= n <= |path|
    ensures Fair(TakeOut(s, path, f, n))
  {
    hide Excluding, IDSet;
    if n <= f {
    } else {
      FairTakeOut(s, path, f, n - 1);
      FairExcluding(TakeOut(s, path, f, n - 1), IDSet(Transfers(path[n - 1])));
    }
  }

  lemma FairEdited(s: seq<Consideration>, chain: Blocks, path: Blocks, f: nat, k: nat)
    requires Fair(s) && AllWellFormed(chain) && f <= |chain| && f <= k <= |path|
    ensures Fair(Edited(s, chain, path, f, k))
  {
    FairPutBack(s, chain, f);
    FairTakeOut(PutBack(s, chain, f), path, f, k);
  }

  lemma FairRebuilt(w: World, s: State, c: seq<Consideration>, id: CountID, prune: bool, descends: Descends)
    requires Structured(w, s, prune) && s.chain != [] && id in s.counts && Fair(c)
    ensures Fair(RebuiltFrom(w, s, c, id, prune, descends))
  {
    hide IsSoundTree, PathTo, Sound, IsTree, FirstFailure, Fork, ParentsKnown, Better, Stop, ChainIDs, Edited, WellFormed;
    SoundIsWellFormed(s.chain, prune);
    PathWellFormed(w, s.counts, id);
    var path, k := PathTo(w, s.counts, id), Stop(w, s, id, prune, descends);
    var f := Fork(s.chain, path);
    FairEdited(c, s.chain, path, f, |path|);
    FairEdited(c, s.chain, path, f, k);
    FairEdited(Edited(c, s.chain, path, f, k), path[..k], s.chain, f, |s.chain|);
  }

  lemma FairStray(w: World, s: State, c: seq<Consideration>, id: CountID, prune: bool, descends: Descends)
    requires Structured(w, s, prune) && s.chain != [] && id in s.counts && Fair(c)
    ensures Fair(StrayFrom(w, s, c, id, prune, descends))
  {
    hide IsSoundTree, PathTo, Sound, IsTree, FirstFailure, Fork, ParentsKnown, Better, Stop, ChainIDs, Edited, WellFormed, Continue;
    SoundIsWellFormed(s.chain, prune);
    PathWellFormed(w, s.counts, id);
    ContinueKeepsStructure(w, s, id, prune, descends);
    var path, k := PathTo(w, s.counts, id), Stop(w, s, id, prune, descends);
    var f := Fork(s.chain, path);
    FairEdited(c, s.chain, path, f, k);
    FairEdited(Edited(c, s.chain, path, f, k), path[..k], s.chain, f, FirstFailure(s.chain, f, prune, descends));
  }

  lemma FairSift(m: Table, s: seq<Consideration>, height: int, descends: Descends)
    requires Fair(s)
    ensures Fair(Sift(m, s, height, descends).contents)
  {
    hide Sift;
    SiftKeeps(m, s, height, descends);
  }

  lemma FairAccept(w: World, s: State, q: QueueState, id: CountID, prune: bool, descends: Descends)
    requires Structured(w, s, prune) && s.chain != [] && id in s.counts && Fair(q.contents)
    ensures Fair(QAccept(w, s, q, id, prune, descends).contents)
    ensures Rebuilds(w, s, id, prune, descends) ==> Fair(RebuiltFrom(w, s, q.contents, id, prune, descends))
  {
    hide IsSoundTree, PathTo, Sound, IsTree, FirstFailure, Fork, ParentsKnown, Better, Stop, ChainIDs, Edited, Sift, BalancesOf, WellFormed,
      QAccept, Accept, Continue, Rebuilds, Strays, StrayFrom, RebuiltFrom, Fair;
    QueueCases(w, s, q, id, prune, descends);
    if Rebuilds(w, s, id, prune, descends) {
      FairRebuilt(w, s, q.contents, id, prune, descends);
      var chain := Accept(w, s, id, prune, descends).chain;
      FairSift(BalancesOf(chain), RebuiltFrom(w, s, q.contents, id, prune, descends), |chain|, descends);
    } else if Strays(w, s, id, prune, descends) {
      FairStray(w, s, q.contents, id, prune, descends);
    }
  }

  // ----- solvency through an event

  lemma SolventIsAccounts(m: Table, q: QueueState)
    requires q.leaked == [] && Canonical(m)
    ensures Accounts(m, q) <==> Solvent(m, q)
  {
    hide MoveAll, Overlay, Covered;
    if Solvent(m, q) {
      forall k ensures AccountsAt(m, q, k) {
        MoveAllEffect(m, q.contents, k);
        NoDelta(q.leaked);
      }
    }
  }

  lemma NoDelta(s: seq<Consideration>)
    ensures s == [] ==> forall k :: DeltaAll(s, k) == 0
  {
  }

  /** Must the event leave a solvent queue solvent? */
  ghost predicate KeepsSolvent(w: World, s: State, q: QueueState, id: CountID, prune: bool, descends: Descends)
    requires Structured(w, s, prune) && s.chain != [] && id in s.counts
  {
    AcceptKeepsStructure(w, s, id, prune, descends);
    SoundIsWellFormed(s.chain, prune);
    SoundIsWellFormed(Accept(w, s, id, prune, descends).chain, prune);
    var s' := Accept(w, s, id, prune, descends);
    && (Rebuilds(w, s, id, prune, descends) ==>
          !MeetsLate(BalancesOf(s'.chain), RebuiltFrom(w, s, q.contents, id, prune, descends), |s'.chain|, descends))
    && (Strays(w, s, id, prune, descends) ==>
          Offsets(BalancesOf(s.chain), q.(leaked := []), BalancesOf(s'.chain), StrayFrom(w, s, q.contents, id, prune, descends)))
  }

  /** Under a descent check that is an order, an event leaves a solvent queue solvent if and only if it meets that condition. */
  lemma SolventIff(w: World, s: State, q: QueueState, id: CountID, prune: bool, descends: Descends)
    requires Structured(w, s, prune) && s.chain != [] && id in s.counts && IsOrder(descends) && Fair(q.contents)
    requires AllWellFormed(s.chain) && Solvent(BalancesOf(s.chain), q)
    ensures AllWellFormed(Accept(w, s, id, prune, descends).chain)
    ensures Solvent(BalancesOf(Accept(w, s, id, prune, descends).chain), QAccept(w, s, q, id, prune, descends))
      <==> KeepsSolvent(w, s, q, id, prune, descends)
  {
    hide IsSoundTree, PathTo, Sound, IsTree, FirstFailure, Fork, ParentsKnown, Better, Stop, ChainIDs, Edited, Sift, BalancesOf, WellFormed,
      QAccept, Accept, Continue, Rebuilds, Strays, StrayFrom, RebuiltFrom, Offsets, IsOrder, MeetsLate, Covered, MoveAll, Overlay;
    QueueCases(w, s, q, id, prune, descends);
    var m, m' := BalancesOf(s.chain), BalancesOf(Accept(w, s, id, prune, descends).chain);
    BalancesCanonical(s.chain);
    BalancesCanonical(Accept(w, s, id, prune, descends).chain);
    if Strays(w, s, id, prune, descends) {
      var q0, c' := q.(leaked := []), StrayFrom(w, s, q.contents, id, prune, descends);
      SolventIsAccounts(m, q0);
      SolventIsAccounts(m', q0.(contents := c'));
      StaleAccountsIff(m, q0, m', c');
    } else if Rebuilds(w, s, id, prune, descends) {
      FairRebuilt(w, s, q.contents, id, prune, descends);
      var list := RebuiltFrom(w, s, q.contents, id, prune, descends);
      assert forall i :: 0 <= i < |list| ==> list[i] in list;
      OrderedSolventIff(m', list, |Accept(w, s, id, prune, descends).chain|, descends);
    }
  }
}
