/** Making a stored count the tip, and going back to the old tip when that fails. */
module Acceptance {
  import opened Considerations
  import opened Chain
  import opened Ledger
  import opened Tree
  import opened ChainSelection

  /** The lowest height of the path to `id`, above its fork from the chain, that does not connect. */
  ghost function Stop(w: World, s: State, id: CountID, prune: bool, descends: Descends): (k: nat)
    requires IsTree(w, s.counts) && IsSoundTree(w, s.counts) && id in s.counts
    ensures Fork(s.chain, PathTo(w, s.counts, id)) <= k <= |PathTo(w, s.counts, id)|
  {
    PathWellFormed(w, s.counts, id);
    var path := PathTo(w, s.counts, id);
    FirstFailure(path, Fork(s.chain, path), prune, descends)
  }

  ghost predicate WholePathConnects(w: World, s: State, id: CountID, prune: bool, descends: Descends)
    requires IsTree(w, s.counts) && IsSoundTree(w, s.counts) && id in s.counts
  {
    Stop(w, s, id, prune, descends) == |PathTo(w, s.counts, id)|
  }

  /** One call of acceptCountContinue: the chain to a better count is adopted as far as it connects. */
  ghost function Continue(w: World, s: State, id: CountID, prune: bool, descends: Descends): State
    requires Structured(w, s, prune) && s.chain != [] && id in s.counts
  {
    if id == TipID(s) then s
    else if !Better(s.counts, id, TipID(s)) then
      s.(known := s.known + {id}, flagged := s.flagged + {id} * ChainIDs(s.chain))
    else
      var path, k := PathTo(w, s.counts, id), Stop(w, s, id, prune, descends);
      s.(chain := path[..k], known := s.known + (if k == |path| then {id} else {}),
         flagged := s.flagged * ChainIDs(s.chain[..Fork(s.chain, path)]))
  }

  ghost predicate Succeeds(w: World, s: State, id: CountID, prune: bool, descends: Descends)
    requires Structured(w, s, prune) && s.chain != [] && id in s.counts
  {
    id == TipID(s) || !Better(s.counts, id, TipID(s)) || WholePathConnects(w, s, id, prune, descends)
  }

  /** The rest of acceptCount: if the new tip does not connect, the same is done for the old one. */
  ghost function Accept(w: World, s: State, id: CountID, prune: bool, descends: Descends): State
    requires Structured(w, s, prune) && s.chain != [] && id in s.counts
  {
    ContinueKeepsStructure(w, s, id, prune, descends);
    var s1 := Continue(w, s, id, prune, descends);
    if Succeeds(w, s, id, prune, descends) then s1 else Continue(w, s1, TipID(s), prune, descends)
  }

  // ----- structure

  /** A path is sound as far as it connects. */
  lemma StoppedIsSound(chain: Blocks, path: Blocks, prune: bool, descends: Descends)
    requires Sound(chain, prune) && AllWellFormed(path)
    ensures Sound(path[..FirstFailure(path, Fork(chain, path), prune, descends)], prune)
  {
    hide Extends, WellFormed;
    var f := Fork(chain, path);
    var c := path[..FirstFailure(path, f, prune, descends)];
    forall h | 0 <= h < |c| ensures Extends(c[..h], c[h], prune) {
      assert c[..h] == path[..h];
      if h < f {
        assert path[..h] == path[..f][..h] == chain[..h] && path[h] == path[..f][h] == chain[h];
      } else {
        assert Connects(path[..h], path[h], prune, descends);
      }
    }
  }

  /** A prefix of a path is again a path, and to a known count unless it is the whole of it. */
  lemma PrefixIsKnown(w: World, s: State, id: CountID, prune: bool, k: nat)
    requires Structured(w, s, prune) && id in s.counts && 0 < k <= |PathTo(w, s.counts, id)|
    ensures var path := PathTo(w, s.counts, id);
      && path[k - 1].id in s.counts && PathTo(w, s.counts, path[k - 1].id) == path[..k]
      && (if k == |path| then path[k - 1].id == id else path[k - 1].id in s.known)
  {
    hide IsSoundTree, PathTo, Sound;
    var path := PathTo(w, s.counts, id);
    PathAt(w, s.counts, id, k - 1);
    PathLast(w, s.counts, id);
    if k < |path| {
      assert Rooted(w, s.counts, id) && Header(s.counts, id).height > 0;
      ChainKnown(w, s, prune, Header(s.counts, id).previous);
      assert path[k - 1] == Init(path)[k - 1];
    }
  }

  /** The chain may be any sound path to a known count. */
  lemma MoveKeepsStructure(w: World, s: State, s': State, prune: bool)
    requires Structured(w, s, prune) && s'.counts == s.counts && s.known <= s'.known <= s.counts.Keys
    requires s'.chain != [] && Sound(s'.chain, prune) && TipID(s') in s'.known
    requires s'.chain == PathTo(w, s.counts, TipID(s')) && s'.flagged <= ChainIDs(s'.chain)
    ensures Structured(w, s', prune)
  {
    hide IsSoundTree, PathTo, Sound, IsTree, ChainIDs;
  }

  lemma ContinueKeepsStructure(w: World, s: State, id: CountID, prune: bool, descends: Descends)
    requires Structured(w, s, prune) && s.chain != [] && id in s.counts
    ensures Structured(w, Continue(w, s, id, prune, descends), prune) && Continue(w, s, id, prune, descends).chain != []
    ensures Continue(w, s, id, prune, descends).counts == s.counts
  {
    hide IsSoundTree, PathTo, Sound, IsTree, Better, FirstFailure, Fork, ParentsKnown, ChainIDs, Stop;
    var s1 := Continue(w, s, id, prune, descends);
    if id != TipID(s) && Better(s.counts, id, TipID(s)) {
      StopFacts(w, s, id, prune, descends);
      var path, k := PathTo(w, s.counts, id), Stop(w, s, id, prune, descends);
      PrefixIsKnown(w, s, id, prune, k);
      SharedIDs(s.chain, path, k);
      assert Last(path[..k]) == path[k - 1];
      MoveKeepsStructure(w, s, s1, prune);
    } else if id != TipID(s) {
      MoveKeepsStructure(w, s, s1, prune);
    }
  }

  lemma StopFacts(w: World, s: State, id: CountID, prune: bool, descends: Descends)
    requires Structured(w, s, prune) && s.chain != [] && id in s.counts
    ensures var path, k := PathTo(w, s.counts, id), Stop(w, s, id, prune, descends);
      1 <= Fork(s.chain, path) <= k <= |path| && Sound(path[..k], prune)
  {
    hide IsSoundTree, PathTo, Sound, IsTree, FirstFailure, Fork;
    PathWellFormed(w, s.counts, id);
    ForkAboveGenesis(w, s, prune, id);
    StoppedIsSound(s.chain, PathTo(w, s.counts, id), prune, descends);
  }

  /** The counts below a fork are on both sides of it. */
  lemma SharedIDs(chain: Blocks, path: Blocks, k: nat)
    requires Fork(chain, path) <= k <= |path|
    ensures ChainIDs(chain[..Fork(chain, path)]) <= ChainIDs(path[..k]) && ChainIDs(chain[..Fork(chain, path)]) <= ChainIDs(chain)
  {
    var f := Fork(chain, path);
    assert forall h :: 0 <= h < f ==> chain[..f][h] == path[..f][h] == path[..k][h] && chain[..f][h] == chain[h];
  }

  /** A prefix of the chain, down to genesis at most, is again the path to its last count. */
  lemma TruncateKeepsStructure(w: World, s: State, prune: bool, n: nat, flagged: set<CountID>)
    requires Structured(w, s, prune) && 1 <= n <= |s.chain| && flagged <= ChainIDs(s.chain[..n])
    ensures Structured(w, s.(chain := s.chain[..n], flagged := flagged), prune)
  {
    hide IsSoundTree, PathTo, Extends, ChainIDs;
    SoundPrefix(s.chain, prune, n);
    PathAt(w, s.counts, TipID(s), n - 1);
    ChainKnown(w, s, prune, TipID(s));
  }

  lemma AcceptKeepsStructure(w: World, s: State, id: CountID, prune: bool, descends: Descends)
    requires Structured(w, s, prune) && s.chain != [] && id in s.counts
    ensures Structured(w, Accept(w, s, id, prune, descends), prune)
    ensures Accept(w, s, id, prune, descends).chain != [] && Accept(w, s, id, prune, descends).counts == s.counts
  {
    hide Structured, Continue, Succeeds;
    ContinueKeepsStructure(w, s, id, prune, descends);
    var s1 := Continue(w, s, id, prune, descends);
    assert TipID(s) in s1.counts by { TipIsStored(w, s, prune); }
    ContinueKeepsStructure(w, s1, TipID(s), prune, descends);
  }

  lemma TipIsStored(w: World, s: State, prune: bool)
    requires Structured(w, s, prune) && s.chain != []
    ensures TipID(s) in s.known && TipID(s) in s.counts
  {
  }

  // ----- going back

  /** Where the first call stops, and what it leaves, when it switches branches. */
  lemma ContinueFacts(w: World, s: State, id: CountID, prune: bool, descends: Descends)
    requires Structured(w, s, prune) && s.chain != [] && id in s.counts && id != TipID(s) && Better(s.counts, id, TipID(s))
    ensures var path, k := PathTo(w, s.counts, id), Stop(w, s, id, prune, descends);
      var f, s1 := Fork(s.chain, path), Continue(w, s, id, prune, descends);
      && 1 <= f <= k <= |path| && f <= |s.chain| && s1.chain == path[..k] && s1.counts == s.counts
      && TipID(s1) == path[k - 1].id && path[k - 1].id in s.counts && PathTo(w, s.counts, path[k - 1].id) == path[..k]
      && Fork(path[..k], s.chain) == f && path[..k][..f] == s.chain[..f]
      && s1.flagged == s.flagged * ChainIDs(s.chain[..f])
      && (k < |path| ==> s1.known == s.known && TipID(s1) in s.known)
      && s.chain == PathTo(w, s.counts, TipID(s)) && AllWellFormed(s.chain)
  {
    hide IsSoundTree, PathTo, Sound, IsTree, FirstFailure, Fork, ParentsKnown, ChainIDs, Stop, Better;
    StopFacts(w, s, id, prune, descends);
    var path, k := PathTo(w, s.counts, id), Stop(w, s, id, prune, descends);
    PrefixIsKnown(w, s, id, prune, k);
    ForkOfPrefix(s.chain, path, k);
    SoundIsWellFormed(s.chain, prune);
  }

  lemma ForkOfPrefix(chain: Blocks, path: Blocks, k: nat)
    requires Fork(chain, path) <= k <= |path|
    ensures Fork(path[..k], chain) == Fork(chain, path) <= |chain|
    ensures path[..k][..Fork(chain, path)] == chain[..Fork(chain, path)]
  {
    var f := Fork(chain, path);
    assert path[..k][..f] == path[..f] == chain[..f];
    ForkUnique(path[..k], chain, f);
  }

  lemma SoundIsWellFormed(chain: Blocks, prune: bool)
    requires Sound(chain, prune)
    ensures AllWellFormed(chain)
  {
  }

  /** The new branch failed at once on top of the old tip: nothing has happened. */
  lemma BackAtTip(w: World, s: State, id: CountID, prune: bool, descends: Descends)
    requires Structured(w, s, prune) && s.chain != [] && id in s.counts && !Succeeds(w, s, id, prune, descends)
    requires var s1 := Continue(w, s, id, prune, descends); s1.chain != [] && TipID(s1) == TipID(s)
    ensures Accept(w, s, id, prune, descends) == s == Continue(w, s, id, prune, descends)
    ensures Fork(s.chain, PathTo(w, s.counts, id)) == |s.chain|
  {
    hide IsSoundTree, PathTo, Sound, IsTree, FirstFailure, Fork, ParentsKnown, Stop, Better, ChainIDs, Continue;
    ContinueKeepsStructure(w, s, id, prune, descends);
    ContinueFacts(w, s, id, prune, descends);
    var path, k := PathTo(w, s.counts, id), Stop(w, s, id, prune, descends);
    assert path[..k] == s.chain;
    ForkOfSame(s.chain, path, k);
    assert s.chain[..|s.chain|] == s.chain;
    assert s.flagged * ChainIDs(s.chain) == s.flagged;
    ContinueAtTip(w, s, prune, descends);
  }

  lemma ForkOfSame(chain: Blocks, path: Blocks, k: nat)
    requires k <= |path| && path[..k] == chain
    ensures Fork(chain, path) == |chain|
  {
    assert chain[..|chain|] == chain;
    ForkUnique(chain, path, k);
  }

  lemma ContinueAtTip(w: World, s: State, prune: bool, descends: Descends)
    requires Structured(w, s, prune) && s.chain != []
    ensures Continue(w, s, TipID(s), prune, descends) == s
  {
    hide IsSoundTree, PathTo, Sound, IsTree, Better, Stop, Fork;
  }

  /** The old tip beats where the new branch stopped: the old branch is connected as far as it is still admitted. */
  lemma BackFromBranch(w: World, s: State, id: CountID, prune: bool, descends: Descends)
    requires Structured(w, s, prune) && s.chain != [] && id in s.counts && !Succeeds(w, s, id, prune, descends)
    requires var s1 := Continue(w, s, id, prune, descends);
      s1.chain != [] && TipID(s1) in s.counts && TipID(s1) != TipID(s) && Better(s.counts, TipID(s), TipID(s1))
    ensures AllWellFormed(s.chain)
    ensures var f := Fork(s.chain, PathTo(w, s.counts, id));
      Accept(w, s, id, prune, descends)
      == s.(chain := s.chain[..FirstFailure(s.chain, f, prune, descends)], flagged := s.flagged * ChainIDs(s.chain[..f]))
  {
    hide IsSoundTree, PathTo, Sound, IsTree, FirstFailure, Fork, ParentsKnown, Better, ChainIDs;
    ContinueKeepsStructure(w, s, id, prune, descends);
    ContinueFacts(w, s, id, prune, descends);
    var s1 := Continue(w, s, id, prune, descends);
    var f := Fork(s.chain, PathTo(w, s.counts, id));
    assert Stop(w, s1, TipID(s), prune, descends) == FirstFailure(s.chain, f, prune, descends);
    assert s.known + {TipID(s)} == s.known;
    var shared := ChainIDs(s.chain[..f]);
    assert s.flagged * shared * shared == s.flagged * shared;
  }

  /** The old tip is beaten by where the new branch stopped: the chain stays there, and the old tip is called SIDE. */
  lemma StaysOnBranch(w: World, s: State, id: CountID, prune: bool, descends: Descends)
    requires Structured(w, s, prune) && s.chain != [] && id in s.counts && !Succeeds(w, s, id, prune, descends)
    requires var s1 := Continue(w, s, id, prune, descends);
      s1.chain != [] && TipID(s1) in s.counts && TipID(s1) != TipID(s) && !Better(s.counts, TipID(s), TipID(s1))
    ensures var path, k := PathTo(w, s.counts, id), Stop(w, s, id, prune, descends);
      Accept(w, s, id, prune, descends)
      == s.(chain := path[..k],
            flagged := s.flagged * ChainIDs(s.chain[..Fork(s.chain, path)]) + {TipID(s)} * ChainIDs(path[..k]))
  {
    hide IsSoundTree, PathTo, Sound, IsTree, FirstFailure, Fork, ParentsKnown, Better, ChainIDs, Stop;
    ContinueKeepsStructure(w, s, id, prune, descends);
    ContinueFacts(w, s, id, prune, descends);
    assert s.known + {TipID(s)} == s.known;
  }

  /** Is the old tip back, or about to be, and are the counts above the fork still admitted? */
  ghost predicate Restores(w: World, s: State, id: CountID, prune: bool, descends: Descends)
    requires Structured(w, s, prune) && s.chain != [] && id in s.counts
  {
    ContinueKeepsStructure(w, s, id, prune, descends);
    var s1 := Continue(w, s, id, prune, descends);
    && (TipID(s1) == TipID(s) || Better(s.counts, TipID(s), TipID(s1)))
    && forall h :: Fork(s.chain, PathTo(w, s.counts, id)) <= h < |s.chain| ==> Admits(descends, s.chain[h].count)
  }

  /** The event fails and does not leave the chain as it was. */
  ghost predicate Strays(w: World, s: State, id: CountID, prune: bool, descends: Descends)
    requires Structured(w, s, prune) && s.chain != [] && id in s.counts
  {
    !Succeeds(w, s, id, prune, descends) && !Restores(w, s, id, prune, descends)
  }

  /** Reconnecting the old branch stops at the first count the descent check no longer admits. */
  lemma ReconnectStops(w: World, s: State, prune: bool, f: nat, descends: Descends)
    requires Structured(w, s, prune) && f <= |s.chain|
    ensures AllWellFormed(s.chain)
    ensures FirstFailure(s.chain, f, prune, descends) == |s.chain|
      <==> forall h :: f <= h < |s.chain| ==> Admits(descends, s.chain[h].count)
  {
    hide IsSoundTree, PathTo, Extends, Admits;
    var n := FirstFailure(s.chain, f, prune, descends);
    assert forall h :: 0 <= h < |s.chain| ==> Extends(s.chain[..h], s.chain[h], prune);
    if n == |s.chain| {
      forall h | f <= h < |s.chain| ensures Admits(descends, s.chain[h].count) {
        assert Connects(s.chain[..h], s.chain[h], prune, descends);
      }
    }
  }

  /** A failed reorganisation leaves the chain as it was if and only if it meets that condition. */
  lemma RollbackIff(w: World, s: State, id: CountID, prune: bool, descends: Descends)
    requires Structured(w, s, prune) && s.chain != [] && id in s.counts && !Succeeds(w, s, id, prune, descends)
    ensures Accept(w, s, id, prune, descends).chain == s.chain <==> Restores(w, s, id, prune, descends)
    ensures Accept(w, s, id, prune, descends).known == s.known && Accept(w, s, id, prune, descends).counts == s.counts
  {
    hide IsSoundTree, PathTo, Sound, IsTree, FirstFailure, Fork, ParentsKnown, Better, ChainIDs, Accept, Admits, Continue, Stop;
    ContinueKeepsStructure(w, s, id, prune, descends);
    ContinueFacts(w, s, id, prune, descends);
    var s1 := Continue(w, s, id, prune, descends);
    if TipID(s1) == TipID(s) {
      BackAtTip(w, s, id, prune, descends);
    } else if Better(s.counts, TipID(s), TipID(s1)) {
      BackFromBranch(w, s, id, prune, descends);
      ReconnectStops(w, s, prune, Fork(s.chain, PathTo(w, s.counts, id)), descends);
      assert s.chain[..|s.chain|] == s.chain;
    } else {
      StaysOnBranch(w, s, id, prune, descends);
    }
  }

  /** A reorganisation strays when a count of the new branch does not connect and one of the old is no longer admitted. */
  lemma RejectionStrays(w: World, s: State, id: CountID, prune: bool, descends: Descends, lost: nat, tried: nat)
    requires Structured(w, s, prune) && s.chain != [] && id in s.counts && Better(s.counts, id, TipID(s))
    requires AllWellFormed(PathTo(w, s.counts, id))
    requires var path := PathTo(w, s.counts, id); var f := Fork(s.chain, path);
      && f <= lost < |s.chain| && !Admits(descends, s.chain[lost].count)
      && f <= tried < |path| && !Connects(path[..tried], path[tried], prune, descends)
    ensures Strays(w, s, id, prune, descends)
  {
    hide IsSoundTree, PathTo, Sound, IsTree, Connects, Continue;
    BetterIsStrictTotalOrder(s.counts, id, id, id);
  }

  // ----- counts on the chain that are called SIDE

  /** The new branch goes on from the old tip, its next counts connect, and a later one does not. */
  ghost predicate Overtakes(w: World, s: State, id: CountID, prune: bool, descends: Descends)
    requires Structured(w, s, prune) && s.chain != [] && id in s.counts
  {
    && !Succeeds(w, s, id, prune, descends)
    && Fork(s.chain, PathTo(w, s.counts, id)) == |s.chain| < Stop(w, s, id, prune, descends)
  }

  /** An event calls a count of the main chain SIDE exactly when the new branch overtakes; it is the old tip. */
  lemma FlagsIff(w: World, s: State, id: CountID, prune: bool, descends: Descends)
    requires Structured(w, s, prune) && s.chain != [] && id in s.counts && id !in s.known
    ensures var s' := Accept(w, s, id, prune, descends);
      if Overtakes(w, s, id, prune, descends)
      then s'.flagged == s.flagged + {TipID(s)} && TipID(s) in ChainIDs(s'.chain) && |s'.chain| > |s.chain|
      else s'.flagged <= s.flagged
  {
    hide IsSoundTree, PathTo, Sound, IsTree, FirstFailure, Fork, ParentsKnown, Better, Accept, Continue, Stop, Succeeds;
    ContinueKeepsStructure(w, s, id, prune, descends);
    var s1 := Continue(w, s, id, prune, descends);
    if Succeeds(w, s, id, prune, descends) {
      SuccessFlags(w, s, id, prune, descends);
    } else {
      FailureIsSwitch(w, s, id, prune, descends);
      ContinueFacts(w, s, id, prune, descends);
      OldTipBelow(w, s, id, prune, descends);
      if TipID(s1) == TipID(s) {
        BackAtTip(w, s, id, prune, descends);
      } else if Better(s.counts, TipID(s), TipID(s1)) {
        BackFromBranch(w, s, id, prune, descends);
      } else {
        StaysOnBranch(w, s, id, prune, descends);
      }
    }
  }

  lemma FailureIsSwitch(w: World, s: State, id: CountID, prune: bool, descends: Descends)
    requires Structured(w, s, prune) && s.chain != [] && id in s.counts && !Succeeds(w, s, id, prune, descends)
    ensures id != TipID(s) && Better(s.counts, id, TipID(s)) && !WholePathConnects(w, s, id, prune, descends)
  {
  }

  lemma SuccessFlags(w: World, s: State, id: CountID, prune: bool, descends: Descends)
    requires Structured(w, s, prune) && s.chain != [] && id in s.counts && id !in s.known
    requires Succeeds(w, s, id, prune, descends)
    ensures Accept(w, s, id, prune, descends).flagged <= s.flagged
  {
    hide IsSoundTree, PathTo, Sound, IsTree, FirstFailure, Fork, ParentsKnown, Better, Stop;
    ChainKnown(w, s, prune, TipID(s));
    assert id !in ChainIDs(s.chain);
  }

  /** The old tip is on the branch where it stopped exactly when that branch goes on from it, and then it is beaten. */
  lemma OldTipBelow(w: World, s: State, id: CountID, prune: bool, descends: Descends)
    requires Structured(w, s, prune) && s.chain != [] && id in s.counts && !Succeeds(w, s, id, prune, descends)
    ensures var path, k := PathTo(w, s.counts, id), Stop(w, s, id, prune, descends);
      var f, s1 := Fork(s.chain, path), Continue(w, s, id, prune, descends);
      && (TipID(s) in ChainIDs(path[..k]) <==> f == |s.chain|)
      && (f == |s.chain| && k == f ==> TipID(s1) == TipID(s))
      && (f == |s.chain| && k > f ==> TipID(s1) != TipID(s) && !Better(s.counts, TipID(s), TipID(s1)))
      && (f == |s.chain| ==> s.chain[..f] == s.chain && path[..k][..f] == s.chain)
  {
    hide IsSoundTree, PathTo, Sound, IsTree, FirstFailure, Fork, ParentsKnown, Better, Stop, Continue;
    FailureIsSwitch(w, s, id, prune, descends);
    ContinueFacts(w, s, id, prune, descends);
    var path, k := PathTo(w, s.counts, id), Stop(w, s, id, prune, descends);
    var f := Fork(s.chain, path);
    TipHeights(w, s, prune, path[k - 1].id);
    if f == |s.chain| {
      assert s.chain[..f] == s.chain;
      assert path[..k][f - 1] == path[..k][..f][f - 1] == s.chain[f - 1];
      if k > f {
        BetterThanAncestors(w, s.counts, path[k - 1].id, f - 1);
        BetterIsStrictTotalOrder(s.counts, TipID(s), path[k - 1].id, TipID(s));
      }
    } else if TipID(s) in ChainIDs(path[..k]) {
      SharesTip(w, s, path[k - 1].id, prune);
      SharedAbove(path[..k], s.chain);
    }
  }

  lemma TipHeights(w: World, s: State, prune: bool, id: CountID)
    requires Structured(w, s, prune) && s.chain != [] && id in s.counts
    ensures Header(s.counts, TipID(s)).height == |s.chain| - 1
    ensures Header(s.counts, id).height == |PathTo(w, s.counts, id)| - 1
  {
  }

  /** A path on which the tip lies goes through the whole chain. */
  lemma SharesTip(w: World, s: State, id: CountID, prune: bool)
    requires Structured(w, s, prune) && s.chain != [] && id in s.counts && TipID(s) in ChainIDs(PathTo(w, s.counts, id))
    ensures var path := PathTo(w, s.counts, id); |path| >= |s.chain| && path[..|s.chain|] == s.chain
  {
    hide IsSoundTree, Sound;
    var path := PathTo(w, s.counts, id);
    var h :| 0 <= h < |path| && path[h].id == TipID(s);
    PathAt(w, s.counts, id, h);
    TipHeights(w, s, prune, id);
  }

  lemma SharedAbove(path: Blocks, chain: Blocks)
    requires |path| >= |chain| && path[..|chain|] == chain
    ensures Fork(path, chain) == |chain|
  {
    assert chain[..|chain|] == chain;
    ForkUnique(path, chain, |chain|);
  }

  // ----- the best tip

  /** Under the best tip, a failure strays exactly when a disconnected count is no longer admitted, and flags nothing. */
  lemma BestStraysIff(w: World, s: State, id: CountID, prune: bool, descends: Descends)
    requires Inv(w, s, prune) && s.chain != [] && id in s.counts && id !in s.known && !Succeeds(w, s, id, prune, descends)
    ensures Strays(w, s, id, prune, descends) <==>
      exists h :: Fork(s.chain, PathTo(w, s.counts, id)) <= h < |s.chain| && !Admits(descends, s.chain[h].count)
    ensures !Overtakes(w, s, id, prune, descends)
  {
    hide IsSoundTree, PathTo, Sound, IsTree, FirstFailure, Fork, ParentsKnown, Better, Stop, Continue, Admits;
    FailureIsSwitch(w, s, id, prune, descends);
    ContinueKeepsStructure(w, s, id, prune, descends);
    ContinueFacts(w, s, id, prune, descends);
    OldTipBelow(w, s, id, prune, descends);
  }

  /** A chain cut short no longer ends in the best known count. */
  lemma ShorterIsNotBest(w: World, s: State, s': State, n: nat, prune: bool)
    requires Structured(w, s, prune) && 0 < n < |s.chain|
    requires s'.counts == s.counts && s'.known == s.known && s'.chain == s.chain[..n]
    ensures TipID(s') in s'.counts && !TipIsBest(s')
  {
    hide IsSoundTree, PathTo, Sound, IsTree, Better;
    BetterThanAncestors(w, s.counts, TipID(s), n - 1);
    BetterIsStrictTotalOrder(s.counts, TipID(s), s.chain[n - 1].id, TipID(s));
    assert Last(s.chain[..n]) == s.chain[n - 1];
  }

  lemma AdoptIsBest(w: World, s: State, id: CountID, prune: bool, descends: Descends)
    requires Inv(w, s, prune) && s.chain != [] && id in s.counts && id !in s.known && Succeeds(w, s, id, prune, descends)
    ensures Structured(w, Accept(w, s, id, prune, descends), prune) && TipIsBest(Accept(w, s, id, prune, descends))
  {
    hide IsSoundTree, PathTo, Sound, IsTree, FirstFailure, Fork, ParentsKnown, Better, Stop, ChainIDs;
    AcceptKeepsStructure(w, s, id, prune, descends);
    if Better(s.counts, id, TipID(s)) {
      ContinueFacts(w, s, id, prune, descends);
      PathLast(w, s.counts, id);
      forall x | x in s.known && x != id ensures Better(s.counts, id, x) {
        BetterIsStrictTotalOrder(s.counts, id, TipID(s), x);
      }
    } else {
      BetterIsStrictTotalOrder(s.counts, TipID(s), id, id);
    }
  }

  /** The tip stays the best MAIN or SIDE count exactly when no event strays. */
  lemma AcceptKeepsBestIff(w: World, s: State, id: CountID, prune: bool, descends: Descends)
    requires Inv(w, s, prune) && s.chain != [] && id in s.counts && id !in s.known
    ensures Structured(w, Accept(w, s, id, prune, descends), prune)
    ensures TipIsBest(Accept(w, s, id, prune, descends)) <==> !Strays(w, s, id, prune, descends)
    ensures Accept(w, s, id, prune, descends).flagged <= s.flagged
  {
    hide IsSoundTree, PathTo, Sound, IsTree, FirstFailure, Fork, ParentsKnown, Better, Stop, Continue, Admits, Succeeds,
      TipIsBest, Structured, Accept, Overtakes, Restores;
    AcceptKeepsStructure(w, s, id, prune, descends);
    FlagsIff(w, s, id, prune, descends);
    if Succeeds(w, s, id, prune, descends) {
      AdoptIsBest(w, s, id, prune, descends);
      SuccessFlags(w, s, id, prune, descends);
    } else {
      BestStraysIff(w, s, id, prune, descends);
      RollbackIff(w, s, id, prune, descends);
      FailureUnderBest(w, s, id, prune, descends);
    }
  }

  lemma FailureUnderBest(w: World, s: State, id: CountID, prune: bool, descends: Descends)
    requires Inv(w, s, prune) && s.chain != [] && id in s.counts && !Succeeds(w, s, id, prune, descends)
    ensures Structured(w, Accept(w, s, id, prune, descends), prune)
    ensures TipIsBest(Accept(w, s, id, prune, descends)) <==> Accept(w, s, id, prune, descends).chain == s.chain
  {
    hide IsSoundTree, PathTo, Sound, IsTree, FirstFailure, Fork, ParentsKnown, Better, Stop, Continue, Admits, Accept, ChainIDs;
    AcceptKeepsStructure(w, s, id, prune, descends);
    FailureIsSwitch(w, s, id, prune, descends);
    ContinueKeepsStructure(w, s, id, prune, descends);
    ContinueFacts(w, s, id, prune, descends);
    RollbackIff(w, s, id, prune, descends);
    var s1, s' := Continue(w, s, id, prune, descends), Accept(w, s, id, prune, descends);
    if TipID(s1) == TipID(s) {
      BackAtTip(w, s, id, prune, descends);
    } else {
      BackFromBranch(w, s, id, prune, descends);
      if s'.chain != s.chain {
        ForkAboveGenesis(w, s, prune, id);
        ShorterIsNotBest(w, s, s', |s'.chain|, prune);
      }
    }
  }
}
