/** The tip changes that processing counts announces, and the graph an indexer builds from them. */
module Notices {
  import opened Considerations
  import opened Chain
  import opened Ledger
  import opened Tree
  import opened ChainSelection
  import opened Acceptance
  import opened Runs
  import opened Following
  import opened Indexer

  /** Disconnecting a chain from its tip down to height `f`. */
  function Leaving(chain: Blocks, f: nat): seq<TipChange>
    requires f <= |chain|
  {
    if |chain| == f then [] else [TipChange(Last(chain), false)] + Leaving(Init(chain), f)
  }

  /** Connecting the counts of a path from height `f` up to but not including `k`. */
  function Joining(path: Blocks, f: nat, k: nat): seq<TipChange>
    requires f <= k <= |path|
  {
    if k == f then [] else Joining(path, f, k - 1) + [TipChange(path[k - 1], true)]
  }

  ghost function OfContinue(w: World, s: State, id: CountID, prune: bool, descends: Descends): seq<TipChange>
    requires Structured(w, s, prune) && s.chain != [] && id in s.counts
  {
    if id == TipID(s) || !Better(s.counts, id, TipID(s)) then [] else
      var path := PathTo(w, s.counts, id);
      Leaving(s.chain, Fork(s.chain, path)) + Joining(path, Fork(s.chain, path), Stop(w, s, id, prune, descends))
  }

  ghost function OfAccept(w: World, s: State, id: CountID, prune: bool, descends: Descends): seq<TipChange>
    requires Structured(w, s, prune) && s.chain != [] && id in s.counts
  {
    ContinueKeepsStructure(w, s, id, prune, descends);
    OfContinue(w, s, id, prune, descends)
    + (if Succeeds(w, s, id, prune, descends) then []
       else OfContinue(w, Continue(w, s, id, prune, descends), TipID(s), prune, descends))
  }

  /** What processing a count announces. */
  ghost function OfStep(w: World, s: State, e: Event, prune: bool): seq<TipChange>
    requires ValidWorld(w) && Structured(w, s, prune) && Honest(w, e)
  {
    if Extending(w, s, e, prune) then
      StepCases(w, s, e, prune);
      OfAccept(w, Store(s, e), e.id, prune, e.descends)
    else if Begins(w, s, e, prune) then [TipChange(Block(e.id, e.count), true)]
    else []
  }

  ghost function OfRun(w: World, events: seq<Event>, prune: bool): seq<TipChange>
    requires ValidWorld(w) && forall i :: 0 <= i < |events| ==> Honest(w, events[i])
  {
    if events == [] then []
    else OfRun(w, events[..|events| - 1], prune) + OfStep(w, Run(w, events[..|events| - 1], prune), events[|events| - 1], prune)
  }

  /** The series is one an indexer can follow, and leads to a chain. */
  ghost predicate Leads(tips: seq<TipChange>, chain: Blocks) { Orderly(tips) && ChainAfterAll(tips) == chain }

  lemma LeadsOn(tips: seq<TipChange>, chain: Blocks, tip: TipChange)
    requires Leads(tips, chain) && (tip.connect || (chain != [] && Last(chain) == tip.block))
    ensures Leads(tips + [tip], ChainAfter(chain, tip))
  {
    assert (tips + [tip])[..|tips|] == tips;
  }

  lemma {:induction false} LeavingLeads(tips: seq<TipChange>, chain: Blocks, f: nat)
    requires Leads(tips, chain) && f <= |chain|
    ensures Leads(tips + Leaving(chain, f), chain[..f])
    decreases |chain|
  {
    hide Leads;
    if |chain| == f {
      assert tips + [] == tips && chain[..f] == chain;
    } else {
      var tip := TipChange(Last(chain), false);
      LeadsOn(tips, chain, tip);
      LeavingLeads(tips + [tip], Init(chain), f);
      assert tips + ([tip] + Leaving(Init(chain), f)) == tips + [tip] + Leaving(Init(chain), f);
      assert Init(chain)[..f] == chain[..f];
    }
  }

  lemma {:induction false} JoiningLeads(tips: seq<TipChange>, path: Blocks, f: nat, k: nat)
    requires f <= k <= |path| && Leads(tips, path[..f])
    ensures Leads(tips + Joining(path, f, k), path[..k])
  {
    hide Leads;
    if k == f {
      assert tips + [] == tips;
    } else {
      var tip := TipChange(path[k - 1], true);
      JoiningLeads(tips, path, f, k - 1);
      LeadsOn(tips + Joining(path, f, k - 1), path[..k - 1], tip);
      assert tips + (Joining(path, f, k - 1) + [tip]) == tips + Joining(path, f, k - 1) + [tip];
      assert path[..k - 1] + [path[k - 1]] == path[..k];
    }
  }

  lemma ContinueLeads(w: World, s: State, id: CountID, prune: bool, descends: Descends, tips: seq<TipChange>)
    requires Structured(w, s, prune) && s.chain != [] && id in s.counts && Leads(tips, s.chain)
    ensures Leads(tips + OfContinue(w, s, id, prune, descends), Continue(w, s, id, prune, descends).chain)
  {
    hide Leads, IsSoundTree, IsTree, Sound, PathTo, ParentsKnown, Better, Fork, FirstFailure, Stop, Leaving, Joining, ChainIDs;
    if id == TipID(s) || !Better(s.counts, id, TipID(s)) {
      assert tips + [] == tips;
    } else {
      ContinueFacts(w, s, id, prune, descends);
      var path, k := PathTo(w, s.counts, id), Stop(w, s, id, prune, descends);
      var f := Fork(s.chain, path);
      LeavingLeads(tips, s.chain, f);
      JoiningLeads(tips + Leaving(s.chain, f), path, f, k);
      assert tips + (Leaving(s.chain, f) + Joining(path, f, k)) == tips + Leaving(s.chain, f) + Joining(path, f, k);
    }
  }

  lemma AcceptLeads(w: World, s: State, id: CountID, prune: bool, descends: Descends, tips: seq<TipChange>)
    requires Structured(w, s, prune) && s.chain != [] && id in s.counts && Leads(tips, s.chain)
    ensures Leads(tips + OfAccept(w, s, id, prune, descends), Accept(w, s, id, prune, descends).chain)
  {
    hide Leads, Structured, OfContinue, Continue, Succeeds;
    ContinueKeepsStructure(w, s, id, prune, descends);
    TipIsStored(w, s, prune);
    ContinueLeads(w, s, id, prune, descends, tips);
    var s1, first := Continue(w, s, id, prune, descends), OfContinue(w, s, id, prune, descends);
    if Succeeds(w, s, id, prune, descends) {
      assert tips + (first + []) == tips + first;
    } else {
      ContinueLeads(w, s1, TipID(s), prune, descends, tips + first);
      var second := OfContinue(w, s1, TipID(s), prune, descends);
      assert tips + (first + second) == tips + first + second;
    }
  }

  lemma StepLeads(w: World, s: State, e: Event, prune: bool, tips: seq<TipChange>)
    requires ValidWorld(w) && Structured(w, s, prune) && Honest(w, e) && Leads(tips, s.chain)
    ensures Leads(tips + OfStep(w, s, e, prune), Step(w, s, e, prune).chain)
  {
    hide Leads, IsSoundTree, IsTree, Sound, PathTo, ParentsKnown, OfAccept, Accept, CheckCount, CheckContext, Connects, ValidWorld,
      WellFormed, Honest;
    if Extending(w, s, e, prune) {
      StepCases(w, s, e, prune);
      AcceptLeads(w, Store(s, e), e.id, prune, e.descends, tips);
    } else if Begins(w, s, e, prune) {
      CheckedIsWellFormed(w, e.id, e.count, e.now);
      BeginKeepsInv(w, s, e, prune);
      LeadsOn(tips, [], TipChange(Block(e.id, e.count), true));
      assert [] + [Block(e.id, e.count)] == [Block(e.id, e.count)];
    } else {
      assert tips + [] == tips;
    }
  }

  /** What a run announces only ever disconnects the tip, and leads to the chain of the run. */
  lemma {:induction false} RunLeads(w: World, events: seq<Event>, prune: bool)
    requires ValidWorld(w) && forall i :: 0 <= i < |events| ==> Honest(w, events[i])
    ensures Orderly(OfRun(w, events, prune)) && ChainAfterAll(OfRun(w, events, prune)) == Run(w, events, prune).chain
  {
    hide Step, Honest, Structured, OfStep, ValidWorld;
    if events == [] {
    } else {
      RunLeads(w, events[..|events| - 1], prune);
      var s := Run(w, events[..|events| - 1], prune);
      StepLeads(w, s, events[|events| - 1], prune, OfRun(w, events[..|events| - 1], prune));
    }
  }

  /** So the graph an indexer builds from them stands for the chain of the run, losses included. */
  lemma RunIsFollowed(w: World, p: Parsing, events: seq<Event>, prune: bool)
    requires ValidWorld(w) && forall i :: 0 <= i < |events| ==> Honest(w, events[i])
    ensures Follows(p, GraphAfterAll(p, OfRun(w, events, prune)), Run(w, events, prune).chain)
  {
    hide Run, OfRun, Honest, Orderly, ValidWorld, Follows, ChainAfterAll;
    RunLeads(w, events, prune);
    FollowsAll(p, OfRun(w, events, prune));
  }
}
