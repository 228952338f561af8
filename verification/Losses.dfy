/** What a lost reorganisation does to the queue, in terms of the counts that were lost. */
module Losses {
  import opened Considerations
  import opened Balances
  import opened Chain
  import opened Ledger
  import opened Tree
  import opened Queue
  import opened ChainSelection
  import opened Acceptance
  import opened Following

  /** The transfers of the counts of a chain from height `n` up, in order. */
  function TransfersFrom(chain: Blocks, n: nat): seq<Consideration>
    requires n <= |chain|
    decreases |chain| - n
  {
    if n == |chain| then [] else Transfers(chain[n]) + TransfersFrom(chain, n + 1)
  }

  /** The counterpoints that matured when those counts were connected. */
  function MaturedFrom(chain: Blocks, n: nat): seq<Consideration>
    requires n <= |chain| && AllWellFormed(chain)
  {
    if n == |chain| then [] else MaturedFrom(Init(chain), n) + Optional(Matured(Init(chain)))
  }

  lemma {:induction false} FromPush(chain: Blocks, n: nat)
    requires n < |chain|
    ensures TransfersFrom(chain, n) == TransfersFrom(Init(chain), n) + Transfers(Last(chain))
    decreases |chain| - n
  {
    hide Transfers;
    if n == |chain| - 1 {
      assert TransfersFrom(chain, n + 1) == [];
    } else {
      FromPush(chain, n + 1);
    }
  }

  /** Losing the counts from height `n` up takes back just what they moved. */
  lemma {:induction false} LostBalance(chain: Blocks, n: nat, k: PublicKey)
    requires n <= |chain| && AllWellFormed(chain)
    ensures AllWellFormed(chain[..n])
    ensures Get(BalancesOf(chain), k)
      == Get(BalancesOf(chain[..n]), k) + DeltaAll(MaturedFrom(chain, n), k) + DeltaAll(TransfersFrom(chain, n), k)
  {
    hide WellFormed, Matured, Transfers, DeltaAll, MoveAll;
    if n == |chain| {
      assert chain[..n] == chain;
      NoDelta([]);
    } else {
      var below, count := Init(chain), Last(chain).count;
      LostBalance(below, n, k);
      assert below[..n] == chain[..n];
      FromPush(chain, n);
      TransfersOf(Last(chain));
      MoveAllEffect(BalancesOf(below), Effects(below, count), k);
      DeltaAllConcat(Optional(Matured(below)), count.considerations[1..], k);
      DeltaAllConcat(MaturedFrom(below, n), Optional(Matured(below)), k);
      DeltaAllConcat(TransfersFrom(below, n), Transfers(Last(chain)), k);
    }
  }

  lemma TransfersOf(b: Block)
    requires WellFormed(b.count)
    ensures |b.count.considerations| >= 1 && Transfers(b) == b.count.considerations[1..]
  {
  }

  /** No transfer occurs in two counts, or both in a count and in `s`. */
  ghost predicate Apart(s: seq<Consideration>, chain: Blocks)
  {
    && (forall h :: 0 <= h < |chain| ==> IDSet(Transfers(chain[h])) !! IDSet(s))
    && (forall h, j :: 0 <= h < j < |chain| ==> IDSet(Transfers(chain[h])) !! IDSet(Transfers(chain[j])))
  }

  lemma {:induction false} FromIDs(chain: Blocks, n: nat, id: ConsiderationID)
    requires n <= |chain| && id in IDSet(TransfersFrom(chain, n))
    ensures exists h :: n <= h < |chain| && id in IDSet(Transfers(chain[h]))
    decreases |chain| - n
  {
    hide IDSet, Transfers;
    if n == |chain| {
      NoIDs();
    } else {
      IDSetConcat(Transfers(chain[n]), TransfersFrom(chain, n + 1));
      if id !in IDSet(Transfers(chain[n])) {
        FromIDs(chain, n + 1, id);
      }
    }
  }

  lemma NoIDs()
    ensures IDSet([]) == {}
  {
  }

  lemma ApartFrom(s: seq<Consideration>, chain: Blocks, n: nat)
    requires Apart(s, chain) && n < |chain|
    ensures IDSet(Transfers(chain[n])) !! IDSet(TransfersFrom(chain, n + 1) + s)
  {
    hide IDSet, Transfers;
    IDSetConcat(TransfersFrom(chain, n + 1), s);
    forall id | id in IDSet(TransfersFrom(chain, n + 1)) ensures id !in IDSet(Transfers(chain[n])) {
      FromIDs(chain, n + 1, id);
    }
  }

  lemma {:induction false} PutBackApart(s: seq<Consideration>, chain: Blocks, n: nat)
    requires n <= |chain| && Apart(s, chain)
    ensures PutBack(s, chain, n) == TransfersFrom(chain, n) + s
    decreases |chain| - n
  {
    hide IDSet, Transfers, Excluding, Apart;
    if n == |chain| {
      assert [] + s == s;
    } else {
      PutBackApart(s, chain, n + 1);
      ApartFrom(s, chain, n);
      ExcludingNone(TransfersFrom(chain, n + 1) + s, IDSet(Transfers(chain[n])));
      assert Transfers(chain[n]) + (TransfersFrom(chain, n + 1) + s) == Transfers(chain[n]) + TransfersFrom(chain, n + 1) + s;
    }
  }

  lemma {:induction false} ExcludingOwn(s: seq<Consideration>, ids: set<ConsiderationID>)
    requires IDSet(s) <= ids
    ensures Excluding(s, ids) == []
  {
    if s == [] {
    } else {
      assert s[0].ID() in IDSet(s);
      IDSetConcat([s[0]], s[1..]);
      assert s == [s[0]] + s[1..];
      ExcludingOwn(s[1..], ids);
    }
  }

  lemma {:induction false} TakeOutApart(s: seq<Consideration>, chain: Blocks, f: nat, n: nat)
    requires f <= n <= |chain| && Apart(s, chain)
    ensures TakeOut(TransfersFrom(chain, f) + s, chain, f, n) == TransfersFrom(chain, n) + s
  {
    hide IDSet, Transfers, Excluding, Apart;
    if n == f {
    } else {
      TakeOutApart(s, chain, f, n - 1);
      var own, rest := Transfers(chain[n - 1]), TransfersFrom(chain, n) + s;
      assert TransfersFrom(chain, n - 1) + s == own + rest;
      ApartFrom(s, chain, n - 1);
      ExcludingConcat(own, rest, IDSet(own));
      ExcludingOwn(own, IDSet(own));
      ExcludingNone(rest, IDSet(own));
      assert [] + rest == rest;
    }
  }

  ghost predicate Bare(path: Blocks, f: nat, k: nat)
    requires f <= k <= |path|
  {
    forall h :: f <= h < k ==> Transfers(path[h]) == []
  }

  lemma {:induction false} TakeOutBare(s: seq<Consideration>, path: Blocks, f: nat, k: nat)
    requires f <= k <= |path| && Bare(path, f, k)
    ensures TakeOut(s, path, f, k) == s
  {
    hide Transfers, Excluding;
    if k == f {
    } else {
      TakeOutBare(s, path, f, k - 1);
      NoIDs();
      ExcludingNone(s, IDSet([]));
    }
  }

  lemma {:induction false} PutBackBare(s: seq<Consideration>, path: Blocks, f: nat)
    requires f <= |path| && Bare(path, f, |path|)
    ensures PutBack(s, path, f) == s
    decreases |path| - f
  {
    hide Transfers, Excluding;
    if f == |path| {
    } else {
      PutBackBare(s, path, f + 1);
      NoIDs();
      ExcludingNone(s, IDSet([]));
      assert [] + s == s;
    }
  }

  /** Leaving the chain for a branch without transfers and coming back up to height `n` only puts the lost transfers in front. */
  lemma EditedBackBare(s: seq<Consideration>, chain: Blocks, path: Blocks, f: nat, k: nat, n: nat)
    requires f <= n <= |chain| && f <= k <= |path| && Apart(s, chain) && Bare(path, f, k)
    ensures Edited(Edited(s, chain, path, f, k), path[..k], chain, f, n) == TransfersFrom(chain, n) + s
  {
    hide TransfersFrom, TakeOut, PutBack, Apart;
    PutBackApart(s, chain, f);
    var out := TransfersFrom(chain, f) + s;
    TakeOutBare(out, path, f, k);
    assert Bare(path[..k], f, k);
    PutBackBare(out, path[..k], f);
    TakeOutApart(s, chain, f, n);
  }

  /** A key whose balance the cache holds must have gained no counterpoint; any other, nothing by the lost transfers. */
  predicate SparedAt(cache: Table, matured: seq<Consideration>, lost: seq<Consideration>, k: PublicKey)
  {
    if k in cache then forall i :: 0 <= i < |matured| ==> matured[i].recipient != k else DeltaAll(lost, k) == 0
  }

  ghost predicate Spared(cache: Table, matured: seq<Consideration>, lost: seq<Consideration>)
  {
    forall k {:trigger SparedAt(cache, matured, lost, k)} :: SparedAt(cache, matured, lost, k)
  }

  lemma {:induction false} MaturedPays(chain: Blocks, n: nat)
    requires n <= |chain| && AllWellFormed(chain)
    ensures forall i :: 0 <= i < |MaturedFrom(chain, n)| ==> MaturedFrom(chain, n)[i].IsCounterPoint()
  {
    hide WellFormed;
    if n == |chain| {
    } else {
      MaturedPays(Init(chain), n);
      MaturedIsCounterpoint(Init(chain));
    }
  }

  lemma MaturedIsCounterpoint(chain: Blocks)
    requires AllWellFormed(chain)
    ensures Matured(chain).Some? ==> Matured(chain).value.IsCounterPoint()
  {
  }

  /** After such a loss the old cache still accounts for the queue exactly when it spares its keys and the entries are covered. */
  lemma LossOffsetsIff(chain: Blocks, q: QueueState, n: nat)
    requires n <= |chain| && AllWellFormed(chain)
    ensures AllWellFormed(chain[..n])
    ensures var m', c' := BalancesOf(chain[..n]), TransfersFrom(chain, n) + q.contents;
      Offsets(BalancesOf(chain), q, m', c')
      <==> Spared(q.cache, MaturedFrom(chain, n), TransfersFrom(chain, n)) && (q.leaked == [] ==> Covered(m', c'))
  {
    hide WellFormed, BalancesOf, TransfersFrom, MaturedFrom, Covered, DeltaAll;
    var m, m', matured, lost := BalancesOf(chain), BalancesOf(chain[..n]), MaturedFrom(chain, n), TransfersFrom(chain, n);
    var c' := lost + q.contents;
    forall k ensures OffsetsAt(m, q, m', c', k) <==> SparedAt(q.cache, matured, lost, k) {
      LostBalance(chain, n, k);
      DeltaAllConcat(lost, q.contents, k);
      MaturedPays(chain, n);
      OnlyReceives(matured, k);
      NotReceives(matured, k);
    }
  }

  lemma {:induction false} NotReceives(s: seq<Consideration>, k: PublicKey)
    requires forall i :: 0 <= i < |s| ==> s[i].IsCounterPoint()
    ensures (forall i :: 0 <= i < |s| ==> s[i].recipient != k) ==> DeltaAll(s, k) == 0
  {
    if s == [] {
    } else {
      NotReceives(s[..|s| - 1], k);
    }
  }

  lemma ChainIsApart(chain: Blocks, prune: bool, s: seq<Consideration>)
    requires Sound(chain, prune) && IDSet(s) !! IndexedIDs(chain, 0)
    ensures Apart(s, chain)
  {
    hide Extends;
    SoundNoReplay(chain, prune);
    forall h | 0 <= h < |chain| ensures IDSet(Transfers(chain[h])) <= IndexedIDs(chain, 0) {
      TransfersOf(chain[h]);
      forall id | id in IDSet(Transfers(chain[h])) ensures id in IndexedIDs(chain, 0) {
        var i :| 0 <= i < |Transfers(chain[h])| && Transfers(chain[h])[i].ID() == id;
        assert chain[h].count.considerations[i + 1].ID() == id;
      }
    }
    forall h, j | 0 <= h < j < |chain| ensures IDSet(Transfers(chain[h])) !! IDSet(Transfers(chain[j])) {
      forall id | id in IDSet(Transfers(chain[h])) ensures id !in IDSet(Transfers(chain[j])) {
        TransfersDiffer(chain, h, j, id);
      }
    }
  }

  lemma TransfersDiffer(chain: Blocks, h: nat, j: nat, id: ConsiderationID)
    requires AllWellFormed(chain) && NoReplay(chain) && h < j < |chain| && id in IDSet(Transfers(chain[h]))
    ensures id !in IDSet(Transfers(chain[j]))
  {
    TransfersOf(chain[h]);
    TransfersOf(chain[j]);
    var a :| 0 <= a < |Transfers(chain[h])| && Transfers(chain[h])[a].ID() == id;
    forall b | 0 <= b < |Transfers(chain[j])| ensures Transfers(chain[j])[b].ID() != id {
      assert At(chain, h, a + 1).ID() == id && At(chain, j, b + 1) == Transfers(chain[j])[b];
      assert IsAt(chain, h, a + 1) && IsAt(chain, j, b + 1);
    }
  }

  /** The event loses counts to a branch that carried no transfers as far as it connected. */
  ghost predicate LosesToBare(w: World, s: State, id: CountID, prune: bool, descends: Descends)
    requires Structured(w, s, prune) && s.chain != [] && id in s.counts
  {
    ContinueKeepsStructure(w, s, id, prune, descends);
    var path, k := PathTo(w, s.counts, id), Stop(w, s, id, prune, descends);
    && Strays(w, s, id, prune, descends) && Bare(path, Fork(s.chain, path), k)
    && Better(s.counts, TipID(s), TipID(Continue(w, s, id, prune, descends)))
  }

  /** Such an event keeps a settled queue settled exactly when the lost counts spare the cache and what is queued can be paid and is current. */
  lemma LossKeepsSettledIff(w: World, s: State, q: QueueState, id: CountID, prune: bool, descends: Descends)
    requires Structured(w, s, prune) && s.chain != [] && id in s.counts && LosesToBare(w, s, id, prune, descends)
    requires IDSet(q.contents) !! IndexedIDs(s.chain, 0)
    ensures AllWellFormed(s.chain)
    ensures var n := FirstFailure(s.chain, Fork(s.chain, PathTo(w, s.counts, id)), prune, descends);
      var entries := TransfersFrom(s.chain, n) + q.contents;
      && n < |s.chain| && AllWellFormed(s.chain[..n]) && Accept(w, s, id, prune, descends).chain == s.chain[..n]
      && (KeepsSettled(w, s, q, id, prune, descends) <==>
            Spared(q.cache, MaturedFrom(s.chain, n), TransfersFrom(s.chain, n))
            && (q.leaked == [] ==> Covered(BalancesOf(s.chain[..n]), entries)) && AllCurrent(entries, n))
  {
    hide IsSoundTree, PathTo, Sound, IsTree, FirstFailure, Fork, ParentsKnown, Better, Stop, ChainIDs, Edited, BalancesOf, WellFormed,
      Accept, Continue, Offsets, AllCurrent, Spared, TransfersFrom, MaturedFrom, Covered, Bare, Apart, Admits, IndexedIDs, IDSet, Succeeds;
    SoundIsWellFormed(s.chain, prune);
    ContinueKeepsStructure(w, s, id, prune, descends);
    BetterIsStrictTotalOrder(s.counts, TipID(s), TipID(s), TipID(s));
    FailureIsSwitch(w, s, id, prune, descends);
    ContinueFacts(w, s, id, prune, descends);
    BackFromBranch(w, s, id, prune, descends);
    var path, k := PathTo(w, s.counts, id), Stop(w, s, id, prune, descends);
    var f := Fork(s.chain, path);
    ReconnectStops(w, s, prune, f, descends);
    var n := FirstFailure(s.chain, f, prune, descends);
    ChainIsApart(s.chain, prune, q.contents);
    EditedBackBare(q.contents, s.chain, path, f, k, n);
    LossOffsetsIff(s.chain, q, n);
  }
}
