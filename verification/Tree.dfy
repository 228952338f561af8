/** The stored counts as a tree of headers, and the paths from genesis through it. */
module Tree {
  import opened Considerations
  import opened Chain
  import opened Ledger
  import opened Work
  import MedianTime

  type Counts = map<CountID, Stored>

  /** What is outside the processor: hashing, signatures and the genesis count. */
  datatype World = World(
    headerID: CountHeader -> CountID, listRoot: seq<Consideration> -> nat,
    verify: Consideration -> bool, genesisID: CountID, genesis: Count)

  /** Every transfer was checked, and its signature verified. */
  predicate AllVerified(w: World, count: Count)
  {
    forall i :: 1 <= i < |count.considerations| ==> w.verify(count.considerations[i]) && CheckConsideration(count.considerations[i])
  }

  /** What the checks establish of a stored count alone, its place in the tree aside. */
  predicate Checked(w: World, id: CountID, s: Stored)
  {
    var header, cns := s.count.header, s.count.considerations;
    && id <= header.target && 0 <= header.time <= MAX_NUMBER && header.time <= s.when + MAX_FUTURE_SECONDS
    && 0 <= header.nonce <= MAX_NUMBER && 0 <= header.height <= MAX_NUMBER
    && header.considerationCount == |cns| && |cns| <= MaxConsiderations(header.height)
    && w.listRoot(cns) == header.hashListRoot && (forall i :: 0 <= i < |cns| ==> CheckConsideration(cns[i]))
    && (id != w.genesisID ==> forall i :: 1 <= i < |cns| ==> cns[i].IsMature(header.height) && !cns[i].IsExpired(header.height))
  }

  /** The genesis count is sound, and no header hashes to zero, which genesis gives as its parent. */
  ghost predicate ValidWorld(w: World)
  {
    && w.headerID(w.genesis.header) == w.genesisID && w.genesis.header.height == 0
    && WellFormed(w.genesis) && AllCheckSeries(w.genesis, 0) && AllVerified(w, w.genesis)
    && w.genesis.header.previous == 0
    && forall h :: w.headerID(h) > 0
  }

  function Header(counts: Counts, id: CountID): CountHeader
    requires id in counts
  {
    counts[id].count.header
  }

  ghost predicate Rooted(w: World, counts: Counts, id: CountID)
    requires id in counts
  {
    var header := Header(counts, id);
    && w.headerID(header) == id
    && (id == w.genesisID ==> header.height == 0 && header.previous == 0)
    && (id != w.genesisID ==> header.height > 0 && header.previous in counts
                              && header.height == Header(counts, header.previous).height + 1)
  }

  ghost predicate IsTree(w: World, counts: Counts) 
  {
    forall id {:trigger Rooted(w, counts, id)} :: id in counts ==> Rooted(w, counts, id)
  }

  /** The counts from genesis to `id`, each stored and at its own height. */
  ghost function PathTo(w: World, counts: Counts, id: CountID): (path: Blocks)
    requires IsTree(w, counts) && id in counts
    ensures |path| == Header(counts, id).height + 1
    ensures forall h :: 0 <= h < |path| ==> IsStored(counts, path[h], h)
    decreases Header(counts, id).height
  {
    assert Rooted(w, counts, id);
    (if id == w.genesisID then [] else PathTo(w, counts, Header(counts, id).previous)) + [Block(id, counts[id].count)]
  }

  ghost predicate IsStored(counts: Counts, b: Block, h: int)
  {
    b.id in counts && b.count == counts[b.id].count && b.count.header.height == h
  }

  /** Every count on a path has the path below it as its own path. */
  lemma {:induction false} PathAt(w: World, counts: Counts, id: CountID, h: nat)
    requires IsTree(w, counts) && id in counts && h <= Header(counts, id).height
    ensures var b := PathTo(w, counts, id)[h];
      IsStored(counts, b, h) && PathTo(w, counts, b.id) == PathTo(w, counts, id)[..h + 1]
    decreases Header(counts, id).height
  {
    assert Rooted(w, counts, id);
    var path := PathTo(w, counts, id);
    assert IsStored(counts, path[h], h);
    if h == Header(counts, id).height {
      assert path[..h + 1] == path;
    } else {
      PathAt(w, counts, Header(counts, id).previous, h);
      assert path[..h + 1] == PathTo(w, counts, Header(counts, id).previous)[..h + 1];
    }
  }

  lemma PathLast(w: World, counts: Counts, id: CountID)
    requires IsTree(w, counts) && id in counts
    ensures PathTo(w, counts, id) != [] && Last(PathTo(w, counts, id)) == Block(id, counts[id].count)
    ensures id != w.genesisID ==> Header(counts, id).previous in counts
    ensures id != w.genesisID ==> Init(PathTo(w, counts, id)) == PathTo(w, counts, Header(counts, id).previous)
    ensures id == w.genesisID ==> Init(PathTo(w, counts, id)) == []
  {
    assert Rooted(w, counts, id);
  }

  /** Storing a count that no stored count descends from leaves the paths to all others alone. */
  lemma {:induction false} PathFrame(w: World, counts: Counts, counts': Counts, x: CountID, id: CountID)
    requires IsTree(w, counts) && IsTree(w, counts') && id in counts && id in counts' && id != x
    requires forall y :: y in counts && y != x ==> y in counts' && counts'[y] == counts[y]
    requires forall y {:trigger Header(counts, y)} :: y in counts && y != w.genesisID ==> Header(counts, y).previous != x
    ensures PathTo(w, counts', id) == PathTo(w, counts, id)
    decreases Header(counts, id).height
  {
    assert Rooted(w, counts, id);
    if id == w.genesisID {
    } else {
      PathFrame(w, counts, counts', x, Header(counts, id).previous);
    }
  }

  // ----- what acceptCount checks against the parent

  function Times(path: Blocks): seq<int> { seq(|path|, i requires 0 <= i < |path| => path[i].count.header.time) }

  /** The context checks that relate a stored count to the path it extends. */
  ghost predicate InContext(w: World, counts: Counts, id: CountID)
    requires IsTree(w, counts) && id in counts && id != w.genesisID
  {
    assert Rooted(w, counts, id);
    var header := Header(counts, id);
    var path := PathTo(w, counts, header.previous);
    && header.target > 0
    && header.pointWork == Header(counts, header.previous).pointWork + CountWork(header.target)
    && path != [] && header.time > MedianTime.Median(Times(path))
  }

  ghost predicate IsSoundTree(w: World, counts: Counts)
  {
    && IsTree(w, counts)
    && (forall id :: id in counts ==> WellFormed(counts[id].count) && AllVerified(w, counts[id].count)
                                      && AllCheckSeries(counts[id].count, Header(counts, id).height))
    && (forall id {:trigger InContext(w, counts, id)} :: id in counts && id != w.genesisID ==> InContext(w, counts, id))
    && (forall id :: id in counts ==> 0 <= Header(counts, id).target < TWO_256)
    && (forall id {:trigger Checked(w, id, counts[id])} :: id in counts ==> Checked(w, id, counts[id]))
  }

  /** Work grows strictly along every path. */
  lemma {:induction false} WorkGrows(w: World, counts: Counts, id: CountID, h: nat)
    requires IsTree(w, counts) && IsSoundTree(w, counts) && id in counts && h < Header(counts, id).height
    ensures IsStored(counts, PathTo(w, counts, id)[h], h)
    ensures PathTo(w, counts, id)[h].count.header.pointWork < Header(counts, id).pointWork
    decreases Header(counts, id).height
  {
    assert Rooted(w, counts, id) && InContext(w, counts, id);
    hide IsSoundTree, WellFormed, AllCheckSeries, AllVerified, IsTree;
    var parent := Header(counts, id).previous;
    var path, below := PathTo(w, counts, id), PathTo(w, counts, parent);
    PathLast(w, counts, id);
    assert path[h] == below[h] && IsStored(counts, path[h], h);
    WorkAntitone(Header(counts, id).target, TWO_256 - 1);
    if h < Header(counts, parent).height {
      WorkGrows(w, counts, parent, h);
    } else {
      PathLast(w, counts, parent);
    }
  }

  lemma ContextTime(w: World, counts: Counts, id: CountID)
    requires IsSoundTree(w, counts) && id in counts && id != w.genesisID
    ensures IsTree(w, counts) && Header(counts, id).previous in counts
    ensures var below := PathTo(w, counts, Header(counts, id).previous);
      below != [] && Header(counts, id).time > MedianTime.Median(Times(below))
  {
    hide PathTo, MedianTime.Median, CountWork, AllVerified, AllCheckSeries, WellFormed;
    assert Rooted(w, counts, id) && InContext(w, counts, id);
  }

  /** Along every accepted chain, the median a child must exceed is at least its parent's. */
  lemma MedianMonotone(w: World, counts: Counts, id: CountID)
    requires IsSoundTree(w, counts) && id in counts && id != w.genesisID
    ensures var parent := Header(counts, id).previous;
      && parent in counts && PathTo(w, counts, id) != [] && PathTo(w, counts, parent) != []
      && MedianTime.Median(Times(PathTo(w, counts, id))) >= MedianTime.Median(Times(PathTo(w, counts, parent)))
  {
    hide PathTo, IsSoundTree, InContext, MedianTime.Median, CountWork;
    ContextTime(w, counts, id);
    var parent := Header(counts, id).previous;
    var below := PathTo(w, counts, parent);
    PathLast(w, counts, id);
    assert Times(PathTo(w, counts, id)) == Times(below) + [Header(counts, id).time];
    MedianTime.MedianNeverGoesBack(Times(below), Header(counts, id).time);
  }

  // ----- preference

  predicate Better(counts: Counts, a: CountID, b: CountID)
    requires a in counts && b in counts
  {
    Compare(Header(counts, a), counts[a].when, a, Header(counts, b), counts[b].when, b)
  }

  /** Among stored counts the preference is a strict total order. */
  lemma BetterIsStrictTotalOrder(counts: Counts, a: CountID, b: CountID, c: CountID)
    requires a in counts && b in counts && c in counts
    ensures !Better(counts, a, a)
    ensures a != b ==> (Better(counts, a, b) <==> !Better(counts, b, a))
    ensures Better(counts, a, b) && Better(counts, b, c) ==> Better(counts, a, c)
  {
  }

  /** A count is better than each of its proper ancestors. */
  lemma BetterThanAncestors(w: World, counts: Counts, id: CountID, h: nat)
    requires IsTree(w, counts) && IsSoundTree(w, counts) && id in counts && h < Header(counts, id).height
    ensures IsStored(counts, PathTo(w, counts, id)[h], h) && Better(counts, id, PathTo(w, counts, id)[h].id)
  {
    hide IsSoundTree, IsTree;
    WorkGrows(w, counts, id, h);
  }

  // ----- where two paths part

  function Fork(p: Blocks, q: Blocks): (f: nat)
    ensures f <= |p| && f <= |q| && p[..f] == q[..f]
    ensures f < |p| && f < |q| ==> p[f] != q[f]
  {
    if p == [] || q == [] || p[0] != q[0] then 0 else
      assert p == [p[0]] + p[1..] && q == [q[0]] + q[1..];
      1 + Fork(p[1..], q[1..])
  }

  lemma ForkUnique(p: Blocks, q: Blocks, f: nat)
    requires f <= |p| && f <= |q| && p[..f] == q[..f] && (f < |p| && f < |q| ==> p[f] != q[f])
    ensures Fork(p, q) == f
  {
    var g := Fork(p, q);
    assert forall i :: 0 <= i < f ==> p[i] == p[..f][i] == q[..f][i] == q[i];
    assert forall i :: 0 <= i < g ==> p[i] == p[..g][i] == q[..g][i] == q[i];
  }

  /** Every path starts at genesis. */
  lemma PathStartsAtGenesis(w: World, counts: Counts, id: CountID)
    requires IsTree(w, counts) && id in counts
    ensures PathTo(w, counts, id) != [] && PathTo(w, counts, id)[0].id == w.genesisID
    decreases Header(counts, id).height
  {
    assert Rooted(w, counts, id);
    if id != w.genesisID {
      PathStartsAtGenesis(w, counts, Header(counts, id).previous);
    }
  }
}
