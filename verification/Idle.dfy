/** Whole runs of the processor, counts and considerations mixed, and what its queue is worth between inputs. */
module Idle {
  import opened Considerations
  import opened Balances
  import opened Chain
  import opened Ledger
  import opened Tree
  import opened Queue
  import opened ChainSelection
  import opened Acceptance
  import opened Runs
  import opened Following
  import opened Processor

  datatype Input = NewCount(e: Event) | NewConsideration(cn: Consideration, descends: Descends)
  {
    function Check(): Descends { if NewCount? then e.descends else descends }
  }

  /** The state between events, and the queue. */
  datatype Node = Node(s: State, q: QueueState)

  ghost predicate IsHonest(w: World, x: Input) { x.NewCount? ==> Honest(w, x.e) }

  ghost predicate AllHonest(w: World, inputs: seq<Input>) { forall i :: 0 <= i < |inputs| ==> IsHonest(w, inputs[i]) }

  ghost function Next(w: World, n: Node, x: Input, prune: bool): Node
    requires ValidWorld(w) && Structured(w, n.s, prune) && IsHonest(w, x)
  {
    match x
    case NewCount(e) => Node(Step(w, n.s, e, prune), QStep(w, n.s, n.q, e, prune))
    case NewConsideration(cn, descends) =>
      SoundIsWellFormed(n.s.chain, prune);
      n.(q := QConsider(w, n.s.chain, n.q, cn, prune, descends))
  }

  const START: Node := Node(State(map[], [], {}, {}), QueueState([], map[], []))

  ghost function After(w: World, inputs: seq<Input>, prune: bool): (n: Node)
    requires ValidWorld(w) && AllHonest(w, inputs)
    ensures Structured(w, n.s, prune)
  {
    hide Step, QStep, IsHonest, Structured;
    if inputs == [] then
      EmptyIsStructured(w, prune);
      START
    else
      var n := After(w, inputs[..|inputs| - 1], prune);
      NextIsStructured(w, n, inputs[|inputs| - 1], prune);
      Next(w, n, inputs[|inputs| - 1], prune)
  }

  lemma NextIsStructured(w: World, n: Node, x: Input, prune: bool)
    requires ValidWorld(w) && Structured(w, n.s, prune) && IsHonest(w, x)
    ensures Structured(w, Next(w, n, x, prune).s, prune)
  {
    hide Step, QStep, Structured, Honest, ValidWorld;
    if x.NewCount? {
      StepKeepsInv(w, n.s, x.e, prune);
    }
  }

  // ----- settled

  ghost predicate InputStrays(w: World, n: Node, x: Input, prune: bool)
    requires ValidWorld(w) && Structured(w, n.s, prune) && IsHonest(w, x)
  {
    x.NewCount? && StepStrays(w, n.s, x.e, prune)
  }

  /** No input of the run strays. */
  ghost predicate NoneStrays(w: World, inputs: seq<Input>, prune: bool)
    requires ValidWorld(w) && AllHonest(w, inputs)
  {
    inputs == [] ||
    (NoneStrays(w, inputs[..|inputs| - 1], prune)
     && !InputStrays(w, After(w, inputs[..|inputs| - 1], prune), inputs[|inputs| - 1], prune))
  }

  /** The queue is what a rebuild leaves. */
  ghost predicate SettledNode(n: Node)
  {
    AllWellFormed(n.s.chain) && IsSettled(BalancesOf(n.s.chain), |n.s.chain|, n.q)
  }

  ghost predicate SolventNode(n: Node) { AllWellFormed(n.s.chain) && Solvent(BalancesOf(n.s.chain), n.q) }

  lemma NextIsSettled(w: World, n: Node, x: Input, prune: bool)
    requires ValidWorld(w) && Structured(w, n.s, prune) && IsHonest(w, x) && SettledNode(n)
    requires !InputStrays(w, n, x, prune)
    ensures SettledNode(Next(w, n, x, prune))
  {
    hide Step, QStep, Structured, Honest, ValidWorld, IsSettled, Strays, QConsider, BalancesOf, CheckCount, CheckContext, AllWellFormed;
    match x
    case NewCount(e) =>
      NoStrayKeepsSettled(w, n.s, n.q, e, prune);
      StepSettledIff(w, n.s, n.q, e, prune);
    case NewConsideration(cn, descends) =>
      ConsiderKeepsSettled(w, n.s.chain, n.q, cn, prune, descends);
  }

  lemma NoStrayKeepsSettled(w: World, s: State, q: QueueState, e: Event, prune: bool)
    requires ValidWorld(w) && Structured(w, s, prune) && Honest(w, e) && !StepStrays(w, s, e, prune)
    ensures StepKeepsSettled(w, s, q, e, prune)
  {
    hide Structured, Honest, ValidWorld, Strays, CheckCount, CheckContext, Offsets, AllCurrent, Store, Accept;
  }

  /** In every state of a run in which nothing strays, the queue is settled. */
  lemma {:induction false} AlwaysSettled(w: World, inputs: seq<Input>, prune: bool)
    requires ValidWorld(w) && AllHonest(w, inputs) && NoneStrays(w, inputs, prune)
    ensures SettledNode(After(w, inputs, prune))
  {
    hide Next, IsHonest, Structured, InputStrays, SettledNode, ValidWorld;
    if inputs == [] {
      StartIsSettled();
    } else {
      AlwaysSettled(w, inputs[..|inputs| - 1], prune);
      NextIsSettled(w, After(w, inputs[..|inputs| - 1], prune), inputs[|inputs| - 1], prune);
    }
  }

  lemma StartIsSettled()
    ensures SettledNode(START)
  {
    EmptyAccounts(map[]);
  }

  // ----- late rejections

  /** The queue is rebuilt. */
  ghost predicate InputRebuilds(w: World, n: Node, x: Input, prune: bool)
    requires ValidWorld(w) && Structured(w, n.s, prune) && IsHonest(w, x)
  {
    x.NewCount? && StepRebuilds(w, n.s, x.e, prune)
  }

  ghost predicate StepRebuilds(w: World, s: State, e: Event, prune: bool)
    requires ValidWorld(w) && Structured(w, s, prune) && Honest(w, e)
  {
    if Extending(w, s, e, prune) then
      StepCases(w, s, e, prune);
      Rebuilds(w, Store(s, e), e.id, prune, e.descends)
    else Begins(w, s, e, prune)
  }

  /** What it is rebuilt from. */
  ghost function StepList(w: World, s: State, c: seq<Consideration>, e: Event, prune: bool): seq<Consideration>
    requires ValidWorld(w) && Structured(w, s, prune) && Honest(w, e)
  {
    if Extending(w, s, e, prune) then
      StepCases(w, s, e, prune);
      RebuiltFrom(w, Store(s, e), c, e.id, prune, e.descends)
    else Excluding(c, IDSet(Transfers(Block(e.id, e.count))))
  }

  /** The input makes the queue apply a consideration that the descent check then rejects. */
  ghost predicate RejectsLate(w: World, n: Node, x: Input, prune: bool)
    requires ValidWorld(w) && Structured(w, n.s, prune) && IsHonest(w, x)
  {
    match x
    case NewCount(e) =>
      StepRebuilds(w, n.s, e, prune) &&
      (StepKeepsInv(w, n.s, e, prune);
       SoundIsWellFormed(Step(w, n.s, e, prune).chain, prune);
       var chain := Step(w, n.s, e, prune).chain;
       MeetsLate(BalancesOf(chain), StepList(w, n.s, n.q.contents, e, prune), |chain|, e.descends))
    case NewConsideration(cn, descends) =>
      SoundIsWellFormed(n.s.chain, prune);
      && Acceptable(w, n.s.chain, prune, n.q.contents, cn) && cn.ID() !in IDSet(n.q.contents)
      && CanPay(ViewOf(BalancesOf(n.s.chain), n.q), cn) && SenderDescends(descends, cn)
  }

  /** Since the queue was last rebuilt, something was rejected late. */
  ghost predicate LateSince(w: World, inputs: seq<Input>, prune: bool)
    requires ValidWorld(w) && AllHonest(w, inputs)
  {
    inputs != [] &&
    var n, x := After(w, inputs[..|inputs| - 1], prune), inputs[|inputs| - 1];
    RejectsLate(w, n, x, prune) || (!InputRebuilds(w, n, x, prune) && LateSince(w, inputs[..|inputs| - 1], prune))
  }

  /** The queue after a count: rebuilt from that list, or with its cache and record of leaks as before. */
  lemma StepQueue(w: World, s: State, q: QueueState, e: Event, prune: bool)
    requires ValidWorld(w) && Structured(w, s, prune) && Honest(w, e)
    ensures AllWellFormed(Step(w, s, e, prune).chain)
    ensures var chain, q' := Step(w, s, e, prune).chain, QStep(w, s, q, e, prune);
      if StepRebuilds(w, s, e, prune)
      then q' == Sift(BalancesOf(chain), StepList(w, s, q.contents, e, prune), |chain|, e.descends)
      else q'.leaked == q.leaked && q'.cache == q.cache
  {
    hide IsSoundTree, PathTo, Sound, IsTree, ParentsKnown, Sift, BalancesOf, CheckCount, CheckContext, Rebuilds, RebuiltFrom, Strays,
      StrayFrom, QAccept, Accept, ValidWorld, Honest, Connects, WellFormed, Excluding, IDSet;
    StepKeepsInv(w, s, e, prune);
    SoundIsWellFormed(Step(w, s, e, prune).chain, prune);
    if Extending(w, s, e, prune) {
      StepCases(w, s, e, prune);
      QueueCases(w, Store(s, e), q, e.id, prune, e.descends);
    } else if Begins(w, s, e, prune) {
      BeginsChain(w, s, e, prune);
    }
  }

  lemma BeginsChain(w: World, s: State, e: Event, prune: bool)
    requires ValidWorld(w) && Structured(w, s, prune) && Honest(w, e) && Begins(w, s, e, prune)
    ensures Step(w, s, e, prune).chain == [Block(e.id, e.count)]
  {
    hide IsSoundTree, PathTo, Sound, IsTree, ParentsKnown, CheckContext, Extends;
  }

  lemma NextLeaks(w: World, n: Node, x: Input, prune: bool)
    requires ValidWorld(w) && Structured(w, n.s, prune) && IsHonest(w, x)
    ensures Next(w, n, x, prune).q.leaked != [] <==>
      RejectsLate(w, n, x, prune) || (!InputRebuilds(w, n, x, prune) && n.q.leaked != [])
  {
    hide Step, QStep, Structured, Honest, ValidWorld, Sift, BalancesOf, StepRebuilds, StepList, MeetsLate, Acceptable, CanPay, IDSet,
      ApplyTo, Overlay, AllWellFormed;
    match x
    case NewCount(e) =>
      StepQueue(w, n.s, n.q, e, prune);
      if StepRebuilds(w, n.s, e, prune) {
        var chain := Step(w, n.s, e, prune).chain;
        LeaksIff(BalancesOf(chain), StepList(w, n.s, n.q.contents, e, prune), |chain|, e.descends);
      }
    case NewConsideration(cn, descends) =>
  }

  /** The record of leaks is empty exactly when nothing was rejected late since the last rebuild. */
  lemma {:induction false} LeakedIff(w: World, inputs: seq<Input>, prune: bool)
    requires ValidWorld(w) && AllHonest(w, inputs)
    ensures After(w, inputs, prune).q.leaked != [] <==> LateSince(w, inputs, prune)
  {
    hide Next, IsHonest, Structured, RejectsLate, InputRebuilds, ValidWorld;
    if inputs == [] {
    } else {
      LeakedIff(w, inputs[..|inputs| - 1], prune);
      NextLeaks(w, After(w, inputs[..|inputs| - 1], prune), inputs[|inputs| - 1], prune);
    }
  }

  // ----- solvent

  /** Each entry was rejected by a check that the order contains. */
  ghost predicate AllRejected(order: Descends, s: seq<Consideration>)
  {
    forall i :: 0 <= i < |s| ==> SenderDescends(order, s[i]) && s[i].sender != Some(s[i].recipient)
  }

  ghost predicate Within(check: Descends, order: Descends)
  {
    forall a, b {:trigger check(a, b)} :: check(a, b) ==> order(a, b)
  }

  ghost predicate AllWithin(inputs: seq<Input>, order: Descends)
  {
    forall i :: 0 <= i < |inputs| ==> Within(inputs[i].Check(), order)
  }

  lemma StepIsFair(w: World, s: State, q: QueueState, e: Event, prune: bool)
    requires ValidWorld(w) && Structured(w, s, prune) && Honest(w, e) && Fair(q.contents)
    ensures Fair(QStep(w, s, q, e, prune).contents)
    ensures StepRebuilds(w, s, e, prune) ==> Fair(StepList(w, s, q.contents, e, prune))
  {
    hide IsSoundTree, PathTo, Sound, IsTree, ParentsKnown, Sift, BalancesOf, CheckCount, CheckContext, Rebuilds, RebuiltFrom,
      QAccept, Accept, ValidWorld, Honest, Connects, WellFormed, Excluding, IDSet, Fair;
    if Extending(w, s, e, prune) {
      StepCases(w, s, e, prune);
      FairAccept(w, Store(s, e), q, e.id, prune, e.descends);
    } else if Begins(w, s, e, prune) {
      var b := Block(e.id, e.count);
      FairExcluding(q.contents, IDSet(Transfers(b)));
      BeginsChain(w, s, e, prune);
      StepKeepsInv(w, s, e, prune);
      SoundIsWellFormed([b], prune);
      FairSift(BalancesOf([b]), Excluding(q.contents, IDSet(Transfers(b))), 1, e.descends);
    }
  }

  lemma LateAreRejected(m: Table, s: seq<Consideration>, height: int, descends: Descends, order: Descends)
    requires Fair(s) && Within(descends, order)
    ensures AllRejected(order, Sift(m, s, height, descends).leaked)
  {
    hide Sift;
    LeakedDescend(m, s, height, descends);
  }

  /** Everything recorded as leaked was rejected, and nothing queued pays itself. */
  ghost predicate Recorded(n: Node, order: Descends) { Fair(n.q.contents) && AllRejected(order, n.q.leaked) }

  lemma NextIsRecorded(w: World, n: Node, x: Input, prune: bool, order: Descends)
    requires ValidWorld(w) && Structured(w, n.s, prune) && IsHonest(w, x) && Recorded(n, order) && Within(x.Check(), order)
    ensures Recorded(Next(w, n, x, prune), order)
  {
    hide Step, QStep, Structured, Honest, ValidWorld, Sift, BalancesOf, StepRebuilds, StepList, CanPay, IDSet, ApplyTo, Overlay,
      AllWellFormed, Current, IndexedIDs;
    match x
    case NewCount(e) =>
      StepQueue(w, n.s, n.q, e, prune);
      StepIsFair(w, n.s, n.q, e, prune);
      if StepRebuilds(w, n.s, e, prune) {
        var chain := Step(w, n.s, e, prune).chain;
        LateAreRejected(BalancesOf(chain), StepList(w, n.s, n.q.contents, e, prune), |chain|, e.descends, order);
      }
    case NewConsideration(cn, descends) =>
  }

  lemma {:induction false} AlwaysRecorded(w: World, inputs: seq<Input>, prune: bool, order: Descends)
    requires ValidWorld(w) && AllHonest(w, inputs) && AllWithin(inputs, order)
    ensures Recorded(After(w, inputs, prune), order)
  {
    hide Next, IsHonest, Structured, ValidWorld, Within, Recorded;
    if inputs == [] {
      StartIsRecorded(order);
    } else {
      AlwaysRecorded(w, inputs[..|inputs| - 1], prune, order);
      NextIsRecorded(w, After(w, inputs[..|inputs| - 1], prune), inputs[|inputs| - 1], prune, order);
    }
  }

  lemma StartIsRecorded(order: Descends)
    ensures Recorded(START, order)
  {
  }

  /** In such a run the queue is solvent in every state in which nothing was rejected late since the last rebuild. */
  lemma SolventUnlessLate(w: World, inputs: seq<Input>, prune: bool)
    requires ValidWorld(w) && AllHonest(w, inputs) && NoneStrays(w, inputs, prune) && !LateSince(w, inputs, prune)
    ensures SettledNode(After(w, inputs, prune)) && SolventNode(After(w, inputs, prune))
  {
    hide After, LateSince, NoneStrays, ValidWorld, Solvent, BalancesOf, AccountsAt, AllCurrent, Structured;
    AlwaysSettled(w, inputs, prune);
    LeakedIff(w, inputs, prune);
  }

  /** And in no other, if the checks of the run lie within one order. */
  lemma SolventIffNotLate(w: World, inputs: seq<Input>, prune: bool, order: Descends)
    requires ValidWorld(w) && AllHonest(w, inputs) && NoneStrays(w, inputs, prune)
    requires IsOrder(order) && AllWithin(inputs, order)
    ensures SolventNode(After(w, inputs, prune)) <==> !LateSince(w, inputs, prune)
  {
    hide After, LateSince, NoneStrays, ValidWorld, Solvent, BalancesOf, Structured, Accounts, IsOrder, AllWithin;
    AlwaysSettled(w, inputs, prune);
    AlwaysRecorded(w, inputs, prune, order);
    LeakedIff(w, inputs, prune);
    var n := After(w, inputs, prune);
    BalancesCanonical(n.s.chain);
    LeakedSolventIff(BalancesOf(n.s.chain), n.q, order);
  }

  // ----- the loop

  /** What the processor holds. */
  ghost function Held(p: Processor): Node
    reads p.store, p.ledger, p.queue, p.queue.imbalanceCache
  {
    Node(p.Abs(), p.queue.Now())
  }

  /** Take the inputs one by one, as the loop does; the errors go back to the senders. */
  method Run(p: Processor, inputs: seq<Input>)
    requires p.Consistent() && AllHonest(p.w, inputs) && Held(p) == START
    modifies p.store, p.ledger, p.queue, p.queue.imbalanceCache
    ensures p.Consistent() && Held(p) == After(p.w, inputs, p.ledger.prune)
    ensures NoneStrays(p.w, inputs, p.ledger.prune) ==> p.queue.Settled()
    ensures NoneStrays(p.w, inputs, p.ledger.prune) && !LateSince(p.w, inputs, p.ledger.prune) ==>
      Solvent(p.ledger.t.balances, p.queue.Now())
  {
    hide Processor.Consistent, Step, QStep, Honest, Structured, ValidWorld, NoneStrays, LateSince;
    p.WorldFacts();
    for i := 0 to |inputs|
      invariant p.Consistent() && Held(p) == After(p.w, inputs[..i], p.ledger.prune)
    {
      assert inputs[..i + 1][..i] == inputs[..i];
      p.TipFacts();
      match inputs[i]
      case NewCount(e) =>
        var _ := p.ProcessCount(e);
      case NewConsideration(cn, descends) =>
        var _ := p.ProcessConsideration(cn, descends);
    }
    assert inputs[..|inputs|] == inputs;
    IsWorth(p, inputs);
  }

  lemma QueueIsOurs(p: Processor)
    requires p.Consistent()
    ensures p.queue.ledger == p.ledger && p.Abs().chain == p.ledger.chain
  {
  }

  /** A processor that has taken a run without strays is settled, and solvent unless something was rejected late. */
  lemma IsWorth(p: Processor, inputs: seq<Input>)
    requires p.Consistent() && ValidWorld(p.w) && AllHonest(p.w, inputs) && Held(p) == After(p.w, inputs, p.ledger.prune)
    ensures NoneStrays(p.w, inputs, p.ledger.prune) ==> p.queue.Settled()
    ensures NoneStrays(p.w, inputs, p.ledger.prune) && !LateSince(p.w, inputs, p.ledger.prune) ==>
      Solvent(p.ledger.t.balances, p.queue.Now())
  {
    hide Processor.Consistent, After, LateSince, NoneStrays, ValidWorld, Solvent, BalancesOf, IsSettled, Structured, AllWellFormed, AllHonest;
    p.LedgerBalances();
    QueueIsOurs(p);
    if NoneStrays(p.w, inputs, p.ledger.prune) {
      AlwaysSettled(p.w, inputs, p.ledger.prune);
      if !LateSince(p.w, inputs, p.ledger.prune) {
        SolventUnlessLate(p.w, inputs, p.ledger.prune);
      }
    }
  }
}
