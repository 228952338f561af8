/** One run in which a reorganisation is lost: the inputs at which rollback, branch types and the queue go wrong. */
module Scenario {
  import opened Considerations
  import opened Balances
  import opened Chain
  import opened Replay
  import opened Ledger
  import opened Work
  import opened Tree
  import opened Queue
  import opened ChainSelection
  import opened Acceptance
  import opened Runs
  import opened Following
  import opened Indexer
  import opened Descent
  import opened Retarget
  import G = Graph
  import MedianTime

  // ----- the counts

  function Key(b: bv8): PublicKey { PublicKey(seq(PUBLIC_KEY_SIZE, _ => b)) }

  const A: PublicKey := Key(1)
  const B: PublicKey := Key(2)
  const C: PublicKey := Key(3)

  lemma DistinctKeys()
    ensures A != B && A != C && B != C
  {
    assert A.bytes[0] != B.bytes[0] && A.bytes[0] != C.bytes[0] && B.bytes[0] != C.bytes[0];
  }

  /** A transfer any count of the first series may hold. */
  function Pay(nonce: nat, sender: PublicKey, recipient: PublicKey): Consideration
  {
    Consideration(0, nonce, Some(sender), recipient, "", 0, 0, 1, seq(SIGNATURE_SIZE, _ => 0))
  }

  function Counterpoint(nonce: nat): Consideration { Consideration(0, nonce, None, A, "", 0, 0, 1, []) }

  function Abs(x: int): nat { if x < 0 then -x else x }

  /** Stands for hashing: main counts are numbered from 1, those of other branches from 1001 and 2001. */
  function HashOf(header: CountHeader): CountID { 1 + Abs(header.height) + 1000 * Abs(header.nonce) }

  const HEIGHT: nat := 100

  /** The work of `n` counts. */
  function WorkOf(n: nat): nat { if n == 0 then 0 else WorkOf(n - 1) + CountWork(INITIAL_TARGET) }

  function CountAt(height: nat, branch: nat, previous: CountID, transfers: seq<Consideration>): Count
  {
    Count(CountHeader(previous, 0, height, INITIAL_TARGET, WorkOf(height + 1), branch, height, 1 + |transfers|),
          [Counterpoint(1 + height + 1000 * branch)] + transfers)
  }

  /** The last count of the main chain spends the first counterpoint to mature: A pays B, and B pays A. */
  const SPENT: seq<Consideration> := [Pay(1, A, B), Pay(2, B, A)]

  function MainCount(h: nat): Count { CountAt(h, 0, h, if h == HEIGHT then SPENT else []) }

  function MainBlock(h: nat): Block { Block(h + 1, MainCount(h)) }

  function MainChain(n: nat): Blocks { seq(n, h requires 0 <= h => MainBlock(h)) }

  const WORLD: World := World(HashOf, _ => 0, _ => true, 1, MainCount(0))

  /** Every count here passes the checks that need no context, with one transfer of any kind or the two above. */
  lemma Checks(h: nat, branch: nat, previous: CountID, transfers: seq<Consideration>, now: nat)
    requires h <= HEIGHT + 1 && branch <= 2 && h <= now
    requires transfers == [] || transfers == [Pay(3, B, A)] || transfers == SPENT
    ensures WellFormed(CountAt(h, branch, previous, transfers))
    ensures CheckCount(WORLD, 1 + h + 1000 * branch, CountAt(h, branch, previous, transfers), now)
    ensures AllIncludable(WORLD, CountAt(h, branch, previous, transfers))
    ensures HashOf(CountAt(h, branch, previous, transfers).header) == 1 + h + 1000 * branch
  {
    hide CountWork, WorkOf;
    DistinctKeys();
    var count := CountAt(h, branch, previous, transfers);
    var cns := count.considerations;
    assert MaxConsiderations(h) >= 10000 by { assert h / DOUBLING_PERIOD == 0; }
    DistinctCardinality(cns, |cns|);
  }

  // ----- the main chain extends itself

  lemma MainPrefix(n: nat, k: nat)
    requires k <= n
    ensures MainChain(n)[..k] == MainChain(k) && (k < n ==> MainChain(n)[k] == MainBlock(k))
  {
  }

  lemma MainWellFormed(n: nat)
    requires n <= HEIGHT + 1
    ensures AllWellFormed(MainChain(n))
  {
    forall h | 0 <= h < n ensures WellFormed(MainBlock(h).count) {
      Checks(h, 0, h, if h == HEIGHT then SPENT else [], h);
    }
  }

  /** No counterpoint matures in the first hundred counts. */
  lemma {:induction false} NoFunds(n: nat)
    requires n <= HEIGHT
    ensures AllWellFormed(MainChain(n)) && BalancesOf(MainChain(n)) == map[]
  {
    hide WellFormed;
    MainWellFormed(n);
    if n == 0 {
    } else {
      NoFunds(n - 1);
      MainPrefix(n, n - 1);
      assert Effects(MainChain(n - 1), MainCount(n - 1)) == [];
    }
  }

  lemma FreshIDs(n: nat, branch: nat, transfers: seq<Consideration>, prune: bool)
    requires n <= HEIGHT && forall i :: 0 <= i < |transfers| ==> !transfers[i].IsCounterPoint()
    ensures IDsOf(CountAt(n, branch, n, transfers)) !! IndexedIDs(MainChain(n), Lowest(n, prune))
  {
    var count := CountAt(n, branch, n, transfers);
    forall id | id in IndexedIDs(MainChain(n), Lowest(n, prune)) ensures id !in IDsOf(count) {
      var h, i := Locate(MainChain(n), Lowest(n, prune), id);
      assert id.content.IsCounterPoint() && id.content.nonce == 1 + h;
    }
  }

  /** The first matured unit pays for the two transfers. */
  lemma SpentIsCovered(first: Consideration)
    requires first == Counterpoint(1)
    ensures Covered(map[], [first] + SPENT) && MoveAll(map[], [first] + SPENT) == map[A := 1]
    ensures Covered(map[], [first])
  {
    DistinctKeys();
    var pay, back := Pay(1, A, B), Pay(2, B, A);
    MoveAllPush(map[], [], first);
    MoveAllPush(map[], [first], pay);
    MoveAllPush(map[], [first, pay], back);
    assert [first] + SPENT == [first, pay] + [back] && [first, pay] == [first] + [pay] && [first] == [] + [first];
    assert MoveAll(map[], [first]) == map[A := 1] && MoveAll(map[], [first, pay]) == map[B := 1];
  }

  /** On the first counts, the next count of the chain connects, and so does one without transfers. */
  lemma NextExtends(n: nat, branch: nat, transfers: seq<Consideration>, prune: bool)
    requires n <= HEIGHT && branch <= 2 && (transfers == [] || (n == HEIGHT && transfers == SPENT))
    ensures AllWellFormed(MainChain(n))
    ensures Extends(MainChain(n), Block(1 + n + 1000 * branch, CountAt(n, branch, n, transfers)), prune)
  {
    hide WellFormed, BalancesOf, MoveAll, Covered, IDsOf;
    NoFunds(n);
    Checks(n, branch, n, transfers, n);
    FreshIDs(n, branch, transfers, prune);
    var effects := Effects(MainChain(n), CountAt(n, branch, n, transfers));
    NothingIsCovered();
    if n == HEIGHT {
      assert effects == [Counterpoint(1)] + transfers;
      SpentIsCovered(Counterpoint(1));
      assert [Counterpoint(1)] + [] == [Counterpoint(1)];
    } else {
      assert effects == [];
    }
  }

  lemma NothingIsCovered()
    ensures Covered(map[], [])
  {
  }

  // ----- the graphs of keys

  /** The reading tells keys apart and takes neither party for the root. */
  ghost predicate Distinguishes(p: Parsing)
  {
    NamesKeys(p) && p.keyName(A) != G.ROOT && p.keyName(B) != G.ROOT && p.keyName(C) != G.ROOT
  }

  /** The graph while only counterpoints are indexed. */
  ghost function Funded(p: Parsing): (g: G.Contents)
    ensures G.IsGraph(g)
  {
    EmptyIsGraph();
    G.TouchedIsGraph(G.Contents(map[], map[], map[]), G.ROOT);
    G.Linked(G.Touched(G.Contents(map[], map[], map[]), G.ROOT), G.ROOT, p.keyName(A), 1.0, 0, 0)
  }

  ghost function Paid(p: Parsing): (g: G.Contents)
    ensures G.IsGraph(g)
  {
    G.Linked(Funded(p), p.keyName(A), p.keyName(B), 1.0, HEIGHT, 0)
  }

  /** The graph once the last count of the main chain is indexed. */
  ghost function Spent(p: Parsing): (g: G.Contents)
    ensures G.IsGraph(g)
  {
    G.Linked(Paid(p), p.keyName(B), p.keyName(A), 1.0, HEIGHT, 0)
  }

  ghost function FundedCheck(p: Parsing): Descends { GraphCheck(p, Funded(p)) }

  ghost function SpentCheck(p: Parsing): Descends { GraphCheck(p, Spent(p)) }

  lemma TouchedNames(g: G.Contents, name: string)
    ensures G.Touched(g, name).index.Keys == g.index.Keys + {name}
    ensures forall k :: k in g.index ==> G.Touched(g, name).index[k] == g.index[k]
  {
  }

  lemma LinkedNames(g: G.Contents, source: string, target: string, weight: real, height: int, time: int)
    requires G.IsGraph(g)
    ensures G.Linked(g, source, target, weight, height, time).index.Keys == g.index.Keys + {source, target}
    ensures forall k :: k in g.index ==> G.Linked(g, source, target, weight, height, time).index[k] == g.index[k]
  {
    hide G.IsGraph, G.Touched;
    TouchedNames(g, source);
    TouchedNames(G.Touched(g, source), target);
    LinkedIndex(g, source, target, weight, height, time);
  }

  lemma LinkedIndex(g: G.Contents, source: string, target: string, weight: real, height: int, time: int)
    requires G.IsGraph(g)
    ensures G.Linked(g, source, target, weight, height, time).index == G.Touched(G.Touched(g, source), target).index
  {
    hide G.IsGraph, G.Touched;
  }

  lemma FundedFacts(p: Parsing)
    requires Distinguishes(p)
    ensures Funded(p).index.Keys == {G.ROOT, p.keyName(A)} && G.HasRoot(Funded(p)) && Funded(p).index[p.keyName(A)] != 0
    ensures p.keyName(A) != p.keyName(B) && p.keyName(A) != p.keyName(C) && p.keyName(B) != p.keyName(C)
  {
    hide G.IsGraph, G.Linked;
    DistinctKeys();
    EmptyIsGraph();
    G.TouchedIsGraph(G.Contents(map[], map[], map[]), G.ROOT);
    var r := G.Touched(G.Contents(map[], map[], map[]), G.ROOT);
    LinkedNames(r, G.ROOT, p.keyName(A), 1.0, 0, 0);
    G.IndexOfOther(Funded(p), p.keyName(A));
  }

  /** Before it is spent, nothing keeps the unit from going there and back. */
  lemma FundedAdmits(p: Parsing, count: Count)
    requires Distinguishes(p)
    requires forall i :: 0 <= i < |count.considerations| ==>
      count.considerations[i].IsCounterPoint() || count.considerations[i].sender == Some(B)
      || count.considerations[i].recipient == B
    ensures Admits(FundedCheck(p), count)
  {
    hide G.IsGraph, Funded;
    FundedFacts(p);
    forall i | 0 <= i < |count.considerations| ensures !SenderDescends(FundedCheck(p), count.considerations[i]) {
    }
  }

  /** Once it is, each party descends from the other. */
  lemma SpentFacts(p: Parsing)
    requires Distinguishes(p)
    ensures SpentCheck(p)(A, B) && SpentCheck(p)(B, A) && !SpentCheck(p)(C, B)
  {
    hide G.IsGraph, G.Linked, Funded, G.Reaches;
    FundedFacts(p);
    var a, b := p.keyName(A), p.keyName(B);
    G.LinkedReaches(Funded(p), a, b, 1.0, HEIGHT, 0);
    G.LinkedReaches(Paid(p), b, a, 1.0, HEIGHT, 0);
    G.LinkedDescends(Paid(p), b, a, 1.0, HEIGHT, 0, a, b);
    LinkedNames(Funded(p), a, b, 1.0, HEIGHT, 0);
    LinkedNames(Paid(p), b, a, 1.0, HEIGHT, 0);
  }

  // ----- the run

  ghost function MainEvent(p: Parsing, h: nat): Event { Event(h + 1, MainCount(h), h, INITIAL_TARGET, FundedCheck(p)) }

  ghost function MainEvents(p: Parsing, n: nat): seq<Event> { seq(n, h requires 0 <= h => MainEvent(p, h)) }

  function MainCounts(n: nat): Counts { if n == 0 then map[] else MainCounts(n - 1)[n := Stored(MainCount(n - 1), n - 1)] }

  function MainKnown(n: nat): set<CountID> { if n == 0 then {} else MainKnown(n - 1) + {n} }

  function MainState(n: nat): State { State(MainCounts(n), MainChain(n), MainKnown(n), {}) }

  lemma {:induction false} MainNumbers(n: nat)
    ensures forall id :: id in MainKnown(n) <==> 1 <= id <= n
    ensures MainCounts(n).Keys == MainKnown(n)
  {
    if n == 0 {
    } else {
      MainNumbers(n - 1);
    }
  }

  lemma WorldIsValid()
    ensures ValidWorld(WORLD)
  {
    hide WorkOf, IDsOf, CountWork;
    Checks(0, 0, 0, [], 0);
  }

  lemma MainHonest(p: Parsing, h: nat)
    ensures Honest(WORLD, MainEvent(p, h))
  {
  }

  /** The context checks against a path whose times count up. */
  lemma InContextOf(counts: Counts, path: Blocks, branch: nat, previous: CountID, transfers: seq<Consideration>)
    requires IsTree(WORLD, counts) && previous in counts && PathTo(WORLD, counts, previous) == path != []
    requires forall h :: 0 <= h < |path| ==> path[h].count.header.time == h
    requires AllIncludable(WORLD, CountAt(|path|, branch, previous, transfers))
    requires Last(path).count.header.pointWork == WorkOf(|path|)
    ensures CheckContext(WORLD, counts, CountAt(|path|, branch, previous, transfers), INITIAL_TARGET)
  {
    hide CountWork, AllIncludable;
    PathLast(WORLD, counts, previous);
    MedianTime.MedianBelow(Times(path), |path|);
  }

  /** The next count of the main chain, or one without transfers beside it, may be stored. */
  lemma OnMain(s: State, prune: bool, n: nat, branch: nat, transfers: seq<Consideration>)
    requires 1 <= n <= HEIGHT + 1 && Structured(WORLD, s, prune)
    requires n in s.counts && PathTo(WORLD, s.counts, n) == MainChain(n)
    requires AllIncludable(WORLD, CountAt(n, branch, n, transfers))
    ensures CheckContext(WORLD, s.counts, CountAt(n, branch, n, transfers), INITIAL_TARGET)
  {
    hide AllIncludable, WorkOf, IsSoundTree, Sound, PathTo, CheckContext;
    InContextOf(s.counts, MainChain(n), branch, n, transfers);
  }

  lemma MainStep(p: Parsing, n: nat, prune: bool)
    requires 1 <= n <= HEIGHT && Distinguishes(p)
    requires ValidWorld(WORLD) && Structured(WORLD, MainState(n), prune) && Honest(WORLD, MainEvent(p, n))
    ensures Step(WORLD, MainState(n), MainEvent(p, n), prune) == MainState(n + 1)
  {
    hide IsSoundTree, Sound, PathTo, CheckContext, CheckCount, Extends, Admits, ValidWorld, AllIncludable, IsTree, WorkOf, FundedCheck,
      ParentsKnown, WellFormed, Distinguishes, Step;
    var s, e, transfers := MainState(n), MainEvent(p, n), if n == HEIGHT then SPENT else [];
    MainNumbers(n);
    Checks(n, 0, n, transfers, n);
    OnMain(s, prune, n, 0, transfers);
    NextExtends(n, 0, transfers, prune);
    FundedAdmits(p, e.count);
    ExtendsTip(WORLD, s, e, prune);
    assert MainChain(n) + [MainBlock(n)] == MainChain(n + 1);
  }

  lemma FirstBegins(p: Parsing, prune: bool)
    requires Distinguishes(p)
    ensures CheckCount(WORLD, 1, MainCount(0), 0) && WellFormed(MainCount(0))
    ensures Connects([], MainBlock(0), prune, FundedCheck(p))
  {
    hide CheckCount, Extends, Admits, Distinguishes, FundedCheck, WellFormed, WorkOf;
    Checks(0, 0, 0, [], 0);
    NextExtends(0, 0, [], prune);
    FundedAdmits(p, MainCount(0));
    assert MainChain(0) == [];
  }

  lemma FirstState()
    ensures MainState(1) == State(map[1 := Stored(MainCount(0), 0)], [MainBlock(0)], {1}, {})
  {
    hide MainCount;
    assert MainCounts(0) == map[] && MainKnown(0) == {};
    assert MainChain(1) == [MainBlock(0)];
  }

  lemma FirstStep(p: Parsing, prune: bool)
    requires Distinguishes(p) && ValidWorld(WORLD) && Honest(WORLD, MainEvent(p, 0))
    requires Structured(WORLD, State(map[], [], {}, {}), prune)
    ensures Step(WORLD, State(map[], [], {}, {}), MainEvent(p, 0), prune) == MainState(1)
  {
    hide CheckCount, Connects, Distinguishes, FundedCheck, WellFormed, Structured, MainCount, MainState, ValidWorld;
    FirstBegins(p, prune);
    FirstState();
  }

  lemma RunPush(w: World, events: seq<Event>, e: Event, prune: bool)
    requires ValidWorld(w) && Honest(w, e) && forall i :: 0 <= i < |events| ==> Honest(w, events[i])
    ensures Run(w, events + [e], prune) == Step(w, Run(w, events, prune), e, prune)
  {
    hide Step, Honest, Structured;
    assert (events + [e])[..|events|] == events;
  }

  /** Up to a hundred and one counts, each becomes the tip. */
  lemma {:induction false} MainRun(p: Parsing, n: nat, prune: bool)
    requires Distinguishes(p) && n <= HEIGHT + 1 && ValidWorld(WORLD) && forall h: nat :: Honest(WORLD, MainEvent(p, h))
    ensures Run(WORLD, MainEvents(p, n), prune) == if n == 0 then State(map[], [], {}, {}) else MainState(n)
  {
    hide Step, Honest, Structured, Distinguishes, MainState, MainEvent, ValidWorld;
    if n == 0 {
    } else {
      MainRun(p, n - 1, prune);
      assert MainEvents(p, n) == MainEvents(p, n - 1) + [MainEvent(p, n - 1)];
      RunPush(WORLD, MainEvents(p, n - 1), MainEvent(p, n - 1), prune);
      if n == 1 {
        FirstStep(p, prune);
      } else {
        MainStep(p, n - 1, prune);
      }
    }
  }

  // ----- a branch beside the last count

  const SIDE_ID: CountID := 1 + HEIGHT + 1000
  const LOSING_ID: CountID := SIDE_ID + 1
  const LATE_ID: CountID := LOSING_ID + 1000

  const SIDE_COUNT: Count := CountAt(HEIGHT, 1, HEIGHT, [])
  const LOSING_COUNT: Count := CountAt(HEIGHT + 1, 1, SIDE_ID, [Pay(3, B, A)])
  const LATE_COUNT: Count := CountAt(HEIGHT + 1, 2, HEIGHT + 1, [Pay(3, B, A)])

  ghost function SideEvent(p: Parsing): Event { Event(SIDE_ID, SIDE_COUNT, 200, INITIAL_TARGET, SpentCheck(p)) }

  /** On the longer branch: a transfer that the check rejects. */
  ghost function LosingEvent(p: Parsing): Event { Event(LOSING_ID, LOSING_COUNT, 201, INITIAL_TARGET, SpentCheck(p)) }

  /** On the count that was lost, when the graph has been built again: a transfer that cannot be paid. */
  ghost function LateEvent(p: Parsing): Event { Event(LATE_ID, LATE_COUNT, 202, INITIAL_TARGET, FundedCheck(p)) }

  function SideState(): State
  {
    State(MainCounts(HEIGHT + 1)[SIDE_ID := Stored(SIDE_COUNT, 200)], MainChain(HEIGHT + 1), MainKnown(HEIGHT + 1) + {SIDE_ID}, {})
  }

  function LostState(): State
  {
    State(SideState().counts[LOSING_ID := Stored(LOSING_COUNT, 201)], MainChain(HEIGHT), SideState().known, {})
  }

  lemma {:induction false} MainStored(n: nat, h: nat)
    requires h < n
    ensures h + 1 in MainCounts(n) && MainCounts(n)[h + 1] == Stored(MainCount(h), h)
  {
    hide MainCount;
    if h == n - 1 {
    } else {
      MainStored(n - 1, h);
    }
  }

  lemma MainIDs(n: nat)
    ensures ChainIDs(MainChain(n)) == MainKnown(n)
  {
    hide MainKnown;
    MainNumbers(n);
    forall id | 1 <= id <= n ensures id in ChainIDs(MainChain(n)) {
      assert MainChain(n)[id - 1].id == id;
    }
  }

  /** The side count is no better than the last count of the main chain, which was stored first. */
  lemma SideStep(p: Parsing, prune: bool)
    requires Distinguishes(p) && ValidWorld(WORLD)
    requires Structured(WORLD, MainState(HEIGHT + 1), prune) && Honest(WORLD, SideEvent(p))
    ensures Step(WORLD, MainState(HEIGHT + 1), SideEvent(p), prune) == SideState()
  {
    hide IsSoundTree, Sound, PathTo, CheckContext, CheckCount, ValidWorld, AllIncludable, IsTree, WorkOf, SpentCheck,
      ParentsKnown, WellFormed, Distinguishes, Step, MainCounts, MainKnown;
    var s, e := MainState(HEIGHT + 1), SideEvent(p);
    MainNumbers(HEIGHT + 1);
    MainIDs(HEIGHT + 1);
    MainStored(HEIGHT + 1, HEIGHT);
    Checks(HEIGHT, 1, HEIGHT, [], 200);
    PathAt(WORLD, s.counts, TipID(s), HEIGHT - 1);
    MainPrefix(HEIGHT + 1, HEIGHT);
    OnMain(s, prune, HEIGHT, 1, []);
    StepCases(WORLD, s, e, prune);
    assert !Better(Store(s, e).counts, SIDE_ID, TipID(s));
  }

  lemma SidePath(prune: bool)
    requires Structured(WORLD, SideState(), prune)
    ensures SIDE_ID in SideState().counts
    ensures PathTo(WORLD, SideState().counts, SIDE_ID) == MainChain(HEIGHT) + [Block(SIDE_ID, SIDE_COUNT)]
  {
    hide IsSoundTree, Sound, PathTo, IsTree, WorkOf, ParentsKnown, MainCounts, MainKnown;
    var s := SideState();
    PathAt(WORLD, s.counts, TipID(s), HEIGHT - 1);
    MainPrefix(HEIGHT + 1, HEIGHT);
    PathLast(WORLD, s.counts, SIDE_ID);
    var path := PathTo(WORLD, s.counts, SIDE_ID);
    assert path == Init(path) + [Last(path)];
  }

  function LosingPath(): Blocks { MainChain(HEIGHT) + [Block(SIDE_ID, SIDE_COUNT), Block(LOSING_ID, LOSING_COUNT)] }

  /** The second count of the branch may be stored. */
  lemma LosingExtends(p: Parsing, prune: bool)
    requires ValidWorld(WORLD) && Structured(WORLD, SideState(), prune) && Honest(WORLD, LosingEvent(p))
    ensures Extending(WORLD, SideState(), LosingEvent(p), prune)
    ensures var counts := Store(SideState(), LosingEvent(p)).counts;
      && IsTree(WORLD, counts) && LOSING_ID in counts
      && PathTo(WORLD, counts, LOSING_ID) == LosingPath()
  {
    hide IsSoundTree, Sound, PathTo, IsTree, WorkOf, ParentsKnown, MainCounts, MainKnown, CheckContext, CheckCount, AllIncludable, SpentCheck,
      ValidWorld;
    SidePath(prune);
    MainNumbers(HEIGHT + 1);
    Checks(HEIGHT + 1, 1, SIDE_ID, [Pay(3, B, A)], 201);
    InContextOf(SideState().counts, MainChain(HEIGHT) + [Block(SIDE_ID, SIDE_COUNT)], 1, SIDE_ID, [Pay(3, B, A)]);
    StoredPath(WORLD, SideState(), LosingEvent(p), prune);
    assert MainChain(HEIGHT) + [Block(SIDE_ID, SIDE_COUNT)] + [Block(LOSING_ID, LOSING_COUNT)] == LosingPath();
  }

  // ----- the reorganisation is lost

  lemma LosingStops(p: Parsing, prune: bool)
    requires Distinguishes(p)
    ensures AllWellFormed(LosingPath()) && AllWellFormed(MainChain(HEIGHT + 1))
    ensures |LosingPath()| == HEIGHT + 2 && LosingPath()[HEIGHT].id == SIDE_ID && Fork(MainChain(HEIGHT + 1), LosingPath()) == HEIGHT
    ensures FirstFailure(LosingPath(), HEIGHT, prune, SpentCheck(p)) == HEIGHT + 1
    ensures FirstFailure(MainChain(HEIGHT + 1), HEIGHT, prune, SpentCheck(p)) == HEIGHT
    ensures !Admits(SpentCheck(p), MainCount(HEIGHT))
  {
    hide WorkOf, SpentCheck, WellFormed, Extends, Distinguishes;
    var path, chain, d := LosingPath(), MainChain(HEIGHT + 1), SpentCheck(p);
    MainWellFormed(HEIGHT + 1);
    Checks(HEIGHT, 1, HEIGHT, [], 200);
    Checks(HEIGHT + 1, 1, SIDE_ID, [Pay(3, B, A)], 201);
    MainPrefix(HEIGHT + 1, HEIGHT);
    assert path[..HEIGHT] == MainChain(HEIGHT);
    ForkUnique(chain, path, HEIGHT);
    SpentFacts(p);
    NextExtends(HEIGHT, 1, [], prune);
    assert Connects(path[..HEIGHT], path[HEIGHT], prune, d);
    assert SenderDescends(d, LOSING_COUNT.considerations[1]) && !Connects(path[..HEIGHT + 1], path[HEIGHT + 1], prune, d);
    FirstFailureUnique(path, HEIGHT, prune, d, HEIGHT + 1);
    assert SenderDescends(d, MainCount(HEIGHT).considerations[1]) && !Connects(chain[..HEIGHT], chain[HEIGHT], prune, d);
    FirstFailureUnique(chain, HEIGHT, prune, d, HEIGHT);
  }

  /** The branch stops at its first count, which the old tip beats. */
  lemma LosingBack(p: Parsing, prune: bool)
    requires Distinguishes(p) && ValidWorld(WORLD)
    requires Structured(WORLD, SideState(), prune) && Honest(WORLD, LosingEvent(p))
    ensures var s, d := Store(SideState(), LosingEvent(p)), SpentCheck(p);
      && Structured(WORLD, s, prune) && LOSING_ID in s.counts && !Succeeds(WORLD, s, LOSING_ID, prune, d)
      && var s1 := Continue(WORLD, s, LOSING_ID, prune, d);
        s1.chain != [] && TipID(s1) == SIDE_ID && SIDE_ID in s.counts && TipID(s1) != TipID(s) && Better(s.counts, TipID(s), TipID(s1))
  {
    hide IsSoundTree, Sound, PathTo, CheckContext, CheckCount, ValidWorld, AllIncludable, IsTree, WorkOf, SpentCheck, Accept, Continue,
      ParentsKnown, WellFormed, Distinguishes, Step, MainCounts, MainKnown, Connects, FirstFailure, Fork, LosingPath, Admits, Better;
    var s, e := SideState(), LosingEvent(p);
    LosingExtends(p, prune);
    LosingStops(p, prune);
    StepCases(WORLD, s, e, prune);
    var s1 := Store(s, e);
    LosingIsBetter(s1);
    assert Stop(WORLD, s1, LOSING_ID, prune, e.descends) == HEIGHT + 1;
    ContinueKeepsStructure(WORLD, s1, LOSING_ID, prune, e.descends);
    ContinueFacts(WORLD, s1, LOSING_ID, prune, e.descends);
  }

  /** A hundred and one counts were connected; the failed reorganisation leaves a hundred. */
  lemma LosingStep(p: Parsing, prune: bool)
    requires Distinguishes(p) && ValidWorld(WORLD)
    requires Structured(WORLD, SideState(), prune) && Honest(WORLD, LosingEvent(p))
    ensures StepStrays(WORLD, SideState(), LosingEvent(p), prune)
    ensures Step(WORLD, SideState(), LosingEvent(p), prune) == LostState()
  {
    hide IsSoundTree, Sound, PathTo, CheckContext, CheckCount, ValidWorld, AllIncludable, IsTree, WorkOf, SpentCheck, Accept, Continue,
      ParentsKnown, WellFormed, Distinguishes, Step, MainCounts, MainKnown, Connects, FirstFailure, Fork, LosingPath, Admits;
    var s, e := SideState(), LosingEvent(p);
    LosingExtends(p, prune);
    LosingStops(p, prune);
    StepCases(WORLD, s, e, prune);
    var s1 := Store(s, e);
    LosingBack(p, prune);
    assert Stop(WORLD, s1, LOSING_ID, prune, e.descends) == HEIGHT + 1;
    BackFromBranch(WORLD, s1, LOSING_ID, prune, e.descends);
    MainPrefix(HEIGHT + 1, HEIGHT);
  }

  lemma LosingIsBetter(s: State)
    requires s.counts == SideState().counts[LOSING_ID := Stored(LOSING_COUNT, 201)]
    ensures HEIGHT + 1 in s.counts && SIDE_ID in s.counts && LOSING_ID in s.counts
    ensures Better(s.counts, LOSING_ID, HEIGHT + 1) && Better(s.counts, HEIGHT + 1, SIDE_ID)
  {
    hide MainCounts, CountWork;
    MainStored(HEIGHT + 1, HEIGHT);
    WorkAntitone(INITIAL_TARGET, TWO_256 - 1);
    assert WorkOf(HEIGHT + 2) == WorkOf(HEIGHT + 1) + CountWork(INITIAL_TARGET);
  }

  // ----- the lost count comes back

  function LatePath(): Blocks { MainChain(HEIGHT + 1) + [Block(LATE_ID, LATE_COUNT)] }

  lemma LostPath(prune: bool)
    requires Structured(WORLD, LostState(), prune)
    ensures HEIGHT + 1 in LostState().counts && PathTo(WORLD, LostState().counts, HEIGHT + 1) == MainChain(HEIGHT + 1)
  {
    hide IsSoundTree, Sound, PathTo, IsTree, WorkOf, ParentsKnown, MainCounts, MainKnown;
    var s := LostState();
    MainStored(HEIGHT + 1, HEIGHT);
    PathLast(WORLD, s.counts, HEIGHT + 1);
    var path := PathTo(WORLD, s.counts, HEIGHT + 1);
    MainPrefix(HEIGHT + 1, HEIGHT);
    assert path == Init(path) + [Last(path)] && MainChain(HEIGHT + 1) == MainChain(HEIGHT) + [MainBlock(HEIGHT)];
  }

  lemma LateExtends(p: Parsing, prune: bool)
    requires ValidWorld(WORLD) && Structured(WORLD, LostState(), prune) && Honest(WORLD, LateEvent(p))
    ensures Extending(WORLD, LostState(), LateEvent(p), prune)
    ensures var counts := Store(LostState(), LateEvent(p)).counts;
      IsTree(WORLD, counts) && LATE_ID in counts && PathTo(WORLD, counts, LATE_ID) == LatePath()
  {
    hide IsSoundTree, Sound, PathTo, IsTree, WorkOf, ParentsKnown, MainCounts, CheckContext, CheckCount, AllIncludable, FundedCheck,
      ValidWorld, MainKnown;
    LostPath(prune);
    MainNumbers(HEIGHT + 1);
    Checks(HEIGHT + 1, 2, HEIGHT + 1, [Pay(3, B, A)], 202);
    OnMain(LostState(), prune, HEIGHT + 1, 2, [Pay(3, B, A)]);
    StoredPath(WORLD, LostState(), LateEvent(p), prune);
  }

  /** After the two transfers cancel out, only the funded party holds anything. */
  lemma OnlyAHolds()
    ensures AllWellFormed(MainChain(HEIGHT + 1)) && BalancesOf(MainChain(HEIGHT + 1)) == map[A := 1]
  {
    hide WellFormed;
    MainWellFormed(HEIGHT + 1);
    NoFunds(HEIGHT);
    MainPrefix(HEIGHT + 1, HEIGHT);
    assert Effects(MainChain(HEIGHT), MainCount(HEIGHT)) == [Counterpoint(1)] + SPENT;
    SpentIsCovered(Counterpoint(1));
  }

  lemma LateIsUncovered()
    ensures AllWellFormed(MainChain(HEIGHT + 1)) && WellFormed(LATE_COUNT)
    ensures !Covered(BalancesOf(MainChain(HEIGHT + 1)), Effects(MainChain(HEIGHT + 1), LATE_COUNT))
  {
    hide WellFormed, BalancesOf;
    DistinctKeys();
    Checks(HEIGHT + 1, 2, HEIGHT + 1, [Pay(3, B, A)], 202);
    OnlyAHolds();
    assert Effects(MainChain(HEIGHT + 1), LATE_COUNT) == [Counterpoint(2)] + [Pay(3, B, A)];
    MoveAllPush(map[A := 1], [], Counterpoint(2));
    MoveAllPush(map[A := 1], [Counterpoint(2)], Pay(3, B, A));
    assert [] + [Counterpoint(2)] == [Counterpoint(2)];
  }

  lemma LateFork()
    ensures AllWellFormed(LatePath()) && |LatePath()| == HEIGHT + 2 && Fork(MainChain(HEIGHT), LatePath()) == HEIGHT
    ensures LatePath()[..HEIGHT] == MainChain(HEIGHT) && LatePath()[..HEIGHT + 1] == MainChain(HEIGHT + 1)
    ensures LatePath()[HEIGHT] == MainBlock(HEIGHT) && LatePath()[HEIGHT + 1] == Block(LATE_ID, LATE_COUNT)
  {
    hide WorkOf, WellFormed;
    var path := LatePath();
    MainWellFormed(HEIGHT + 1);
    Checks(HEIGHT + 1, 2, HEIGHT + 1, [Pay(3, B, A)], 202);
    MainPrefix(HEIGHT + 1, HEIGHT);
    assert path[..HEIGHT] == MainChain(HEIGHT) == MainChain(HEIGHT)[..HEIGHT] && path[..HEIGHT + 1] == MainChain(HEIGHT + 1);
    ForkUnique(MainChain(HEIGHT), path, HEIGHT);
  }

  lemma LateStops(p: Parsing, prune: bool)
    requires Distinguishes(p)
    ensures AllWellFormed(LatePath()) && |LatePath()| == HEIGHT + 2 && Fork(MainChain(HEIGHT), LatePath()) == HEIGHT
    ensures FirstFailure(LatePath(), HEIGHT, prune, FundedCheck(p)) == HEIGHT + 1
  {
    hide WorkOf, FundedCheck, WellFormed, Covered, BalancesOf, Distinguishes, Admits, LatePath, Fork, FirstFailure, MainChain, IDsOf;
    var path, d := LatePath(), FundedCheck(p);
    LateIsUncovered();
    LateFork();
    NextExtends(HEIGHT, 0, SPENT, prune);
    FundedAdmits(p, MainCount(HEIGHT));
    assert Connects(path[..HEIGHT], path[HEIGHT], prune, d);
    assert !Connects(path[..HEIGHT + 1], path[HEIGHT + 1], prune, d);
    FirstFailureUnique(path, HEIGHT, prune, d, HEIGHT + 1);
  }

  /** The late count fails on top of the lost one, which stays connected above a tip that is now called SIDE. */
  lemma LateStep(p: Parsing, prune: bool)
    requires Distinguishes(p) && ValidWorld(WORLD)
    requires Structured(WORLD, LostState(), prune) && Honest(WORLD, LateEvent(p))
    ensures StepOvertakes(WORLD, LostState(), LateEvent(p), prune)
    ensures var s := Step(WORLD, LostState(), LateEvent(p), prune);
      s.flagged == {HEIGHT} && HEIGHT in ChainIDs(s.chain) && |s.chain| > HEIGHT
  {
    hide IsSoundTree, Sound, PathTo, CheckContext, CheckCount, ValidWorld, AllIncludable, IsTree, WorkOf, FundedCheck, Accept, Continue,
      ParentsKnown, WellFormed, Distinguishes, Step, MainCounts, MainKnown, Connects, FirstFailure, Fork, LatePath, Admits, ChainIDs, Better;
    var s, e := LostState(), LateEvent(p);
    LateExtends(p, prune);
    LateStops(p, prune);
    MainNumbers(HEIGHT + 1);
    StepCases(WORLD, s, e, prune);
    var s1 := Store(s, e);
    BetterThanAncestors(WORLD, s1.counts, LATE_ID, HEIGHT - 1);
    assert LatePath()[HEIGHT - 1].id == HEIGHT by { LateAt(); }
    assert Stop(WORLD, s1, LATE_ID, prune, e.descends) == HEIGHT + 1;
    FlagsIff(WORLD, s1, LATE_ID, prune, e.descends);
  }

  lemma LateAt()
    ensures LatePath()[HEIGHT - 1].id == HEIGHT
  {
  }

  // ----- the queue

  const EMPTY: QueueState := QueueState([], map[], [])

  lemma EmptyIsSettled(m: Table, length: nat)
    requires Canonical(m)
    ensures IsSettled(m, length, EMPTY) && Solvent(m, EMPTY)
  {
    EmptyAccounts(m);
  }

  lemma SpentIsUncovered(q: QueueState, length: nat)
    requires q.contents == SPENT && q.leaked == []
    ensures !Solvent(map[], q) && !IsSettled(map[], length, q)
  {
    DistinctKeys();
    var pay, back := Pay(1, A, B), Pay(2, B, A);
    MoveAllPush(map[], [], pay);
    MoveAllPush(map[], [pay], back);
    assert [] + [pay] == [pay] && [pay] + [back] == SPENT;
  }

  /** What is put back, and what then stays. */
  lemma PutBackSpent(p: Parsing)
    ensures Edited([], MainChain(HEIGHT + 1), LosingPath(), HEIGHT, HEIGHT + 1) == SPENT
    ensures Edited(SPENT, LosingPath()[..HEIGHT + 1], MainChain(HEIGHT + 1), HEIGHT, HEIGHT) == SPENT
  {
    hide WorkOf;
    var chain, path := MainChain(HEIGHT + 1), LosingPath();
    MainPrefix(HEIGHT + 1, HEIGHT);
    assert Transfers(chain[HEIGHT]) == SPENT && Transfers(path[HEIGHT]) == [];
    ExcludingNone(SPENT, IDSet([]));
    assert PutBack([], chain, HEIGHT + 1) == [] && PutBack([], chain, HEIGHT) == SPENT + [] == SPENT;
    assert TakeOut(SPENT, path, HEIGHT, HEIGHT) == SPENT && TakeOut(SPENT, path, HEIGHT, HEIGHT + 1) == SPENT;
    var side := path[..HEIGHT + 1];
    assert side[HEIGHT] == path[HEIGHT] && PutBack(SPENT, side, HEIGHT + 1) == SPENT;
    assert PutBack(SPENT, side, HEIGHT) == [] + SPENT == SPENT;
  }

  /** The lost reorganisation puts two transfers into an empty queue that the shorter chain cannot pay for. */
  lemma LosingQueue(p: Parsing, prune: bool)
    requires Distinguishes(p) && ValidWorld(WORLD)
    requires Structured(WORLD, SideState(), prune) && Honest(WORLD, LosingEvent(p))
    ensures AllWellFormed(MainChain(HEIGHT + 1)) && AllWellFormed(MainChain(HEIGHT))
    ensures IsSettled(BalancesOf(MainChain(HEIGHT + 1)), HEIGHT + 1, EMPTY)
    ensures Solvent(BalancesOf(MainChain(HEIGHT + 1)), EMPTY)
    ensures var q := QStep(WORLD, SideState(), EMPTY, LosingEvent(p), prune);
      && q.contents == SPENT
      && !Solvent(BalancesOf(MainChain(HEIGHT)), q) && !IsSettled(BalancesOf(MainChain(HEIGHT)), HEIGHT, q)
  {
    hide IsSoundTree, Sound, PathTo, CheckContext, CheckCount, ValidWorld, AllIncludable, IsTree, WorkOf, SpentCheck, Accept, Continue, Edited,
      ParentsKnown, WellFormed, Distinguishes, Step, MainCounts, MainKnown, Connects, FirstFailure, Fork, LosingPath, Admits, Better, BalancesOf,
      QAccept, Succeeds, IsSettled, Solvent;
    var s, e := SideState(), LosingEvent(p);
    OnlyAHolds();
    EmptyIsSettled(map[A := 1], HEIGHT + 1);
    NoFunds(HEIGHT);
    LosingExtends(p, prune);
    LosingStops(p, prune);
    StepCases(WORLD, s, e, prune);
    var s1 := Store(s, e);
    assert Stop(WORLD, s1, LOSING_ID, prune, e.descends) == HEIGHT + 1;
    LosingBack(p, prune);
    QBackFromBranch(WORLD, s1, EMPTY, LOSING_ID, prune, e.descends);
    PutBackSpent(p);
    SpentIsUncovered(QStep(WORLD, s, EMPTY, e, prune), HEIGHT);
  }

  /** On the main chain, adding a payment the check rejects lets in another that nobody can pay. */
  lemma LateRejection(p: Parsing)
    requires Distinguishes(p)
    ensures AllWellFormed(MainChain(HEIGHT + 1))
    ensures CheckConsideration(Pay(4, A, B)) && CheckConsideration(Pay(5, B, C))
    ensures Current(Pay(4, A, B), HEIGHT + 1) && Current(Pay(5, B, C), HEIGHT + 1)
    ensures var m, d := BalancesOf(MainChain(HEIGHT + 1)), SpentCheck(p);
      var q1 := Added(m, EMPTY, Pay(4, A, B), d);
      var q2 := Added(m, q1, Pay(5, B, C), d);
      && Solvent(m, EMPTY) && !AddSucceeds(m, EMPTY, Pay(4, A, B), d) && q1.contents == [] && !Solvent(m, q1)
      && AddSucceeds(m, q1, Pay(5, B, C), d) && q2.contents == [Pay(5, B, C)] && !Covered(m, q2.contents)
  {
    hide BalancesOf, WellFormed, SpentCheck, Distinguishes;
    DistinctKeys();
    OnlyAHolds();
    EmptyIsSettled(map[A := 1], HEIGHT + 1);
    SpentFacts(p);
    var m, d, pay, next := map[A := 1], SpentCheck(p), Pay(4, A, B), Pay(5, B, C);
    var q1 := Added(m, EMPTY, pay, d);
    assert CanPay(ViewOf(m, EMPTY), pay) && SenderDescends(d, pay) && q1 == Taken(m, EMPTY, pay, d);
    AddSolventIff(m, EMPTY, pay, d);
    assert CanPay(ViewOf(m, q1), next) && !SenderDescends(d, next);
    assert q1.contents + [next] == [next];
    MoveAllPush(m, [], next);
    assert [] + [next] == [next];
  }

  // ----- the whole run

  ghost function EventsUntil(p: Parsing, n: nat): seq<Event>
    requires n <= 3
  {
    MainEvents(p, HEIGHT + 1) + [SideEvent(p), LosingEvent(p), LateEvent(p)][..n]
  }

  lemma LastAreHonest(p: Parsing)
    ensures Honest(WORLD, SideEvent(p)) && Honest(WORLD, LosingEvent(p)) && Honest(WORLD, LateEvent(p))
  {
    hide WorkOf, SpentCheck, FundedCheck;
  }

  lemma EventAt(p: Parsing, n: nat, i: nat)
    requires n <= 3 && i < |EventsUntil(p, n)|
    ensures var e := EventsUntil(p, n)[i];
      if i <= HEIGHT then e == MainEvent(p, i) else e == SideEvent(p) || e == LosingEvent(p) || e == LateEvent(p)
  {
    hide MainEvent, SideEvent, LosingEvent, LateEvent;
  }

  lemma FirstEvents(p: Parsing)
    ensures EventsUntil(p, 0) == MainEvents(p, HEIGHT + 1)
  {
  }

  lemma EventsAreHonest(p: Parsing)
    ensures ValidWorld(WORLD) && forall n, i :: 0 <= n <= 3 && 0 <= i < |EventsUntil(p, n)| ==> Honest(WORLD, EventsUntil(p, n)[i])
    ensures Honest(WORLD, SideEvent(p)) && Honest(WORLD, LosingEvent(p)) && Honest(WORLD, LateEvent(p))
    ensures forall h: nat :: Honest(WORLD, MainEvent(p, h))
  {
    hide Honest, MainEvent, SideEvent, LosingEvent, LateEvent, EventsUntil, ValidWorld;
    WorldIsValid();
    LastAreHonest(p);
    forall h: nat ensures Honest(WORLD, MainEvent(p, h)) {
      MainHonest(p, h);
    }
    forall n, i | 0 <= n <= 3 && 0 <= i < |EventsUntil(p, n)| ensures Honest(WORLD, EventsUntil(p, n)[i]) {
      EventAt(p, n, i);
    }
  }

  ghost function After(p: Parsing, n: nat, prune: bool): (s: State)
    requires n <= 3
    ensures ValidWorld(WORLD) && Structured(WORLD, s, prune)
  {
    hide Structured;
    EventsAreHonest(p);
    Run(WORLD, EventsUntil(p, n), prune)
  }

  lemma AfterNext(p: Parsing, n: nat, prune: bool)
    requires 1 <= n <= 3
    ensures var e := [SideEvent(p), LosingEvent(p), LateEvent(p)][n - 1];
      Honest(WORLD, e) && After(p, n, prune) == Step(WORLD, After(p, n - 1, prune), e, prune)
  {
    hide Structured, Step, MainEvents, SideEvent, LosingEvent, LateEvent, Run, Honest, ValidWorld;
    EventsAreHonest(p);
    var last := [SideEvent(p), LosingEvent(p), LateEvent(p)];
    assert EventsUntil(p, n) == EventsUntil(p, n - 1) + [last[n - 1]];
    RunPush(WORLD, EventsUntil(p, n - 1), last[n - 1], prune);
  }

  /** A run of accepted inputs in which a reorganisation loses a count, and an event then calls a count of the chain SIDE. */
  lemma LostRun(p: Parsing, prune: bool)
    requires Distinguishes(p)
    ensures Honest(WORLD, LosingEvent(p)) && Honest(WORLD, LateEvent(p))
    ensures After(p, 1, prune).chain == MainChain(HEIGHT + 1) && After(p, 2, prune).chain == MainChain(HEIGHT)
    ensures StepStrays(WORLD, After(p, 1, prune), LosingEvent(p), prune)
    ensures StepOvertakes(WORLD, After(p, 2, prune), LateEvent(p), prune)
    ensures After(p, 3, prune).flagged == {HEIGHT} && HEIGHT in ChainIDs(After(p, 3, prune).chain)
    ensures var q := QStep(WORLD, After(p, 1, prune), EMPTY, LosingEvent(p), prune);
      && AllWellFormed(MainChain(HEIGHT)) && AllWellFormed(MainChain(HEIGHT + 1))
      && IsSettled(BalancesOf(MainChain(HEIGHT + 1)), HEIGHT + 1, EMPTY)
      && !Solvent(BalancesOf(MainChain(HEIGHT)), q) && !IsSettled(BalancesOf(MainChain(HEIGHT)), HEIGHT, q)
  {
    hide Structured, Step, Honest, ValidWorld, Distinguishes, StepStrays, StepOvertakes, QStep, Solvent, IsSettled, WellFormed, BalancesOf,
      SideEvent, LosingEvent, LateEvent, MainEvents, MainChain, MainCounts, MainKnown, ChainIDs;
    EventsAreHonest(p);
    Beginning(p, prune);
    AfterNext(p, 1, prune);
    SideStep(p, prune);
    AfterNext(p, 2, prune);
    LosingStep(p, prune);
    LosingQueue(p, prune);
    AfterNext(p, 3, prune);
    LateStep(p, prune);
  }

  lemma Beginning(p: Parsing, prune: bool)
    requires Distinguishes(p)
    ensures After(p, 0, prune) == MainState(HEIGHT + 1)
  {
    hide Structured, Step, Distinguishes, MainState, Run, Honest, EventsUntil, MainEvents, MainEvent, ValidWorld;
    EventsAreHonest(p);
    MainRun(p, HEIGHT + 1, prune);
    FirstEvents(p);
  }
}
