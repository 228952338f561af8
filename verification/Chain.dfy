/** The main chain as a value, and what the ledger tables must say about it. */
module Chain {
  import opened Considerations
  import opened Balances

  datatype Block = Block(id: CountID, count: Count)

  type Blocks = seq<Block>

  function Last(chain: Blocks): Block
    requires chain != []
  {
    chain[|chain| - 1]
  }

  function Init(chain: Blocks): Blocks
    requires chain != []
  {
    chain[..|chain| - 1]
  }

  function ChainIDs(chain: Blocks): set<CountID> { set h | 0 <= h < |chain| :: chain[h].id }

  /** What checkCount establishes about the considerations of a count. */
  predicate WellFormed(count: Count)
  {
    var cns := count.considerations;
    && |cns| >= 1
    && cns[0].IsCounterPoint()
    && (forall i :: 1 <= i < |cns| ==> !cns[i].IsCounterPoint())
    && (forall i :: 0 <= i < |cns| ==> cns[i].sender != Some(cns[i].recipient))
    && |IDsOf(count)| == |cns|
  }

  function IDsBetween(cns: seq<Consideration>, a: nat, b: nat): set<ConsiderationID>
    requires a <= b <= |cns|
  {
    set i | a <= i < b :: cns[i].ID()
  }

  function IDsOf(count: Count): set<ConsiderationID>
  {
    IDsBetween(count.considerations, 0, |count.considerations|)
  }

  lemma {:induction false} CardinalityOfIDs(cns: seq<Consideration>, n: nat)
    requires n <= |cns|
    ensures |IDsBetween(cns, 0, n)| <= n
    ensures |IDsBetween(cns, 0, n)| == n ==> forall i, j :: 0 <= i < j < n ==> cns[i].ID() != cns[j].ID()
  {
    if n == 0 {
    } else {
      CardinalityOfIDs(cns, n - 1);
      assert IDsBetween(cns, 0, n) == IDsBetween(cns, 0, n - 1) + {cns[n - 1].ID()};
    }
  }

  /** checkCount compares the size of the set of IDs with the number of considerations. */
  lemma DistinctIDs(count: Count)
    requires WellFormed(count)
    ensures var cns := count.considerations; forall i, j :: 0 <= i < j < |cns| ==> cns[i].ID() != cns[j].ID()
  {
    CardinalityOfIDs(count.considerations, |count.considerations|);
  }

  predicate AllWellFormed(chain: Blocks) { forall h :: 0 <= h < |chain| ==> WellFormed(chain[h].count) }

  /** The counterpoint that becomes spendable when a count is connected on top of `chain`. */
  function Matured(chain: Blocks): Option<Consideration>
    requires AllWellFormed(chain)
  {
    if |chain| >= COUNTERPOINT_MATURITY
    then Some(chain[|chain| - COUNTERPOINT_MATURITY].count.considerations[0])
    else None
  }

  function Optional(cn: Option<Consideration>): seq<Consideration> { if cn.Some? then [cn.value] else [] }

  /** What connecting a count on top of `chain` moves: a matured counterpoint, then the transfers. */
  function Effects(chain: Blocks, count: Count): seq<Consideration>
    requires AllWellFormed(chain) && WellFormed(count)
  {
    Optional(Matured(chain)) + count.considerations[1..]
  }

  /** Replay of the whole chain from genesis. */
  function BalancesOf(chain: Blocks): Table
    requires AllWellFormed(chain)
  {
    if chain == [] then map[] else MoveAll(BalancesOf(Init(chain)), Effects(Init(chain), Last(chain).count))
  }

  lemma {:induction false} BalancesCanonical(chain: Blocks)
    requires AllWellFormed(chain)
    ensures Canonical(BalancesOf(chain))
  {
    if chain == [] {
    } else {
      BalancesCanonical(Init(chain));
      MoveAllCanonical(BalancesOf(Init(chain)), Effects(Init(chain), Last(chain).count));
    }
  }

  // ----- which considerations are indexed

  /** The lowest height whose indices are kept when the chain has `length` counts. */
  function Lowest(length: nat, prune: bool): nat { if prune && length > PRUNE_WINDOW then length - PRUNE_WINDOW else 0 }

  predicate IsAt(chain: Blocks, h: int, i: int)
  {
    0 <= h < |chain| && 0 <= i < |chain[h].count.considerations|
  }

  function At(chain: Blocks, h: int, i: int): Consideration
    requires IsAt(chain, h, i)
  {
    chain[h].count.considerations[i]
  }

  function IndexedIDs(chain: Blocks, lo: nat): set<ConsiderationID>
  {
    set h, i | lo <= h < |chain| && 0 <= i < |chain[h].count.considerations| :: chain[h].count.considerations[i].ID()
  }

  lemma Locate(chain: Blocks, lo: nat, id: ConsiderationID) returns (h: nat, i: nat)
    requires id in IndexedIDs(chain, lo)
    ensures lo <= h && IsAt(chain, h, i) && At(chain, h, i).ID() == id
  {
    h, i :| lo <= h < |chain| && 0 <= i < |chain[h].count.considerations| && chain[h].count.considerations[i].ID() == id;
  }

  // ----- chains that the ledger accepts

  predicate AllCheckSeries(count: Count, height: int)
  {
    forall i :: 0 <= i < |count.considerations| ==> CheckSeries(count.considerations[i], height)
  }

  /** `b` may be connected on top of `chain`, the descent check aside. */
  predicate Extends(chain: Blocks, b: Block, prune: bool)
    requires AllWellFormed(chain)
  {
    && WellFormed(b.count)
    && b.count.header.height == |chain|
    && (chain != [] ==> b.count.header.previous == Last(chain).id)
    && AllCheckSeries(b.count, |chain|)
    && IDsOf(b.count) !! IndexedIDs(chain, Lowest(|chain|, prune))
    && Covered(BalancesOf(chain), Effects(chain, b.count))
  }

  /** Every count extends the counts below it. */
  predicate Sound(chain: Blocks, prune: bool)
  {
    && AllWellFormed(chain)
    && forall h {:trigger chain[..h]} :: 0 <= h < |chain| ==> Extends(chain[..h], chain[h], prune)
  }

  lemma SoundPrefix(chain: Blocks, prune: bool, n: nat)
    requires Sound(chain, prune) && n <= |chain|
    ensures Sound(chain[..n], prune)
  {
    hide Extends, WellFormed;
    var c := chain[..n];
    assert AllWellFormed(c);
    forall h {:trigger c[..h]} | 0 <= h < |c| ensures Extends(c[..h], c[h], prune) {
      assert c[..h] == chain[..h] && c[h] == chain[h];
    }
    assert Sound(c, prune);
  }

  lemma {:induction false} BalancesPositive(chain: Blocks, prune: bool)
    requires Sound(chain, prune)
    ensures Positive(BalancesOf(chain))
  {
    if chain == [] {
    } else {
      SoundPrefix(chain, prune, |chain| - 1);
      BalancesPositive(Init(chain), prune);
      assert Extends(Init(chain), Last(chain), prune);
      MoveAllPositive(BalancesOf(Init(chain)), Effects(Init(chain), Last(chain).count));
    }
  }

  // ----- no replay

  ghost predicate NoReplay(chain: Blocks)
  {
    forall h, i, h', i' {:trigger At(chain, h, i), At(chain, h', i')} ::
      IsAt(chain, h, i) && IsAt(chain, h', i') && At(chain, h, i).ID() == At(chain, h', i').ID()
      ==> h == h' && i == i'
  }

  lemma NoReplayTwice(chain: Blocks, prune: bool, h: nat, i: nat, later: nat, j: nat)
    requires Sound(chain, prune) && IsAt(chain, h, i) && IsAt(chain, later, j) && h < later
    ensures At(chain, h, i).ID() != At(chain, later, j).ID()
  {
    hide Covered, BalancesOf, WellFormed;
    var below := chain[..later];
    assert Extends(below, chain[later], prune) && Extends(chain[..h], chain[h], prune);
    assert At(chain, later, j).ID() in IDsOf(chain[later].count);
    assert below[h] == chain[h];
    if later < h + PRUNE_WINDOW {
      assert At(chain, h, i).ID() in IndexedIDs(below, Lowest(|below|, prune));
    } else if At(chain, h, i).ID() == At(chain, later, j).ID() {
      SeriesSeparates(At(chain, h, i), At(chain, later, j), h, later);
    }
  }

  /** No consideration is confirmed twice, although the pruned index forgets all but 2016 counts. */
  lemma SoundNoReplay(chain: Blocks, prune: bool)
    requires Sound(chain, prune)
    ensures NoReplay(chain)
  {
    hide Extends;
    forall h, i, h', i' | IsAt(chain, h, i) && IsAt(chain, h', i') && At(chain, h, i).ID() == At(chain, h', i').ID()
      ensures h == h' && i == i'
    {
      DistinctIDs(chain[h].count);
      if h < h' {
        NoReplayTwice(chain, prune, h, i, h', i');
      } else if h' < h {
        NoReplayTwice(chain, prune, h', i', h, i);
      }
    }
  }

  // ----- the tables

  datatype BranchType = MAIN | SIDE

  datatype Tip = Tip(id: CountID, height: int)

  datatype Position = Position(height: int, index: int)

  datatype KeyRow = KeyRow(key: PublicKey, height: int, index: int)

  /** The leveldb schema: tip T, heights h, considerations t, per-key rows k, balances b, branch types B. */
  datatype Tables = Tables(
    tip: Option<Tip>, heights: map<int, CountID>, cnIndex: map<ConsiderationID, Position>,
    keyIndex: set<KeyRow>, balances: Table, branch: map<CountID, BranchType>)

  function Parties(cn: Consideration): set<PublicKey>
  {
    (if cn.IsCounterPoint() then {} else {cn.sender.value}) + {cn.recipient}
  }

  /** The per-key rows of the considerations numbered from `a` to `b` in one count. */
  function RowsBetween(cns: seq<Consideration>, height: int, a: nat, b: nat): set<KeyRow>
    requires a <= b <= |cns|
  {
    set i, k | a <= i < b && k in Parties(cns[i]) :: KeyRow(k, height, i)
  }

  function RowsOf(count: Count, height: int): set<KeyRow>
  {
    RowsBetween(count.considerations, height, 0, |count.considerations|)
  }

  function KeyRows(chain: Blocks, lo: nat): set<KeyRow>
  {
    set h, i, k | lo <= h < |chain| && 0 <= i < |chain[h].count.considerations| && k in Parties(chain[h].count.considerations[i])
      :: KeyRow(k, h, i)
  }

  function Heights(chain: Blocks): map<int, CountID> { map h | 0 <= h < |chain| :: chain[h].id }

  ghost predicate Indexes(m: map<ConsiderationID, Position>, chain: Blocks, lo: nat)
  {
    && m.Keys == IndexedIDs(chain, lo)
    && forall h, i {:trigger At(chain, h, i)} ::
        lo <= h && IsAt(chain, h, i) ==> At(chain, h, i).ID() in m && m[At(chain, h, i).ID()] == Position(h, i)
  }

  function TipOf(chain: Blocks): Option<Tip> { if chain == [] then None else Some(Tip(Last(chain).id, |chain| - 1)) }

  /** The tables, branch types aside, are exactly what replaying `chain` leaves. */
  ghost predicate Represents(t: Tables, chain: Blocks, prune: bool)
    requires AllWellFormed(chain)
  {
    && t.tip == TipOf(chain)
    && t.heights == Heights(chain)
    && Indexes(t.cnIndex, chain, Lowest(|chain|, prune))
    && t.keyIndex == KeyRows(chain, Lowest(|chain|, prune))
    && t.balances == BalancesOf(chain)
  }

  /** A chain determines its tables. */
  lemma RepresentsUnique(t: Tables, u: Tables, chain: Blocks, prune: bool)
    requires AllWellFormed(chain) && Represents(t, chain, prune) && Represents(u, chain, prune)
    ensures t.(branch := u.branch) == u
  {
    forall id | id in t.cnIndex ensures t.cnIndex[id] == u.cnIndex[id] {
      var h, i := Locate(chain, Lowest(|chain|, prune), id);
    }
    assert t.cnIndex == u.cnIndex;
  }

  /** With pruning, the indices hold exactly what the last 2016 counts confirmed; without, everything. */
  lemma IndexedWindow(t: Tables, chain: Blocks, prune: bool, h: nat, i: nat)
    requires AllWellFormed(chain) && Represents(t, chain, prune) && NoReplay(chain) && IsAt(chain, h, i)
    ensures At(chain, h, i).ID() in t.cnIndex <==> !prune || h >= |chain| - 2016
    ensures At(chain, h, i).ID() in t.cnIndex ==> t.cnIndex[At(chain, h, i).ID()] == Position(h, i)
    ensures forall k :: KeyRow(k, h, i) in t.keyIndex <==> At(chain, h, i).Involves(k) && (!prune || h >= |chain| - 2016)
  {
    hide BalancesOf, WellFormed;
    var lo, cn := Lowest(|chain|, prune), At(chain, h, i);
    if cn.ID() in t.cnIndex {
      var g, j := Locate(chain, lo, cn.ID());
    }
    forall k ensures k in Parties(chain[h].count.considerations[i]) <==> cn.Involves(k) {
    }
  }
}
