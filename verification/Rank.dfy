/** One pass of the rank computation, over exact numbers. */
module Rank {
  import opened Sums
  import G = Graph

  type Weights = map<nat, map<nat, real>>

  function RankOf(g: G.Contents, i: nat): real { if i in g.nodes then g.nodes[i].ranking else 0.0 }

  function OutOf(g: G.Contents, i: nat): real { if i in g.nodes then g.nodes[i].outbound else 0.0 }

  /** The share of its ranking that a node passes along an edge. */
  function Share(g: G.Contents, s: nat, t: nat): real
  {
    if OutOf(g, s) > 0.0 && t in G.Successors(g.edges, s) then G.WeightOf(g.edges, s, t) / OutOf(g, s) else 0.0
  }

  function ShareOf(g: G.Contents, s: nat): nat -> real { (t: nat) => Share(g, s, t) }

  function Sign(x: real): int { if x > 0.0 then 1 else if x == 0.0 then 0 else -1 }

  function Ranks(g: G.Contents): nat -> real { (i: nat) => RankOf(g, i) }

  function RanksOfSign(g: G.Contents, sign: int): nat -> real
  {
    (i: nat) => if Sign(OutOf(g, i)) == sign then RankOf(g, i) else 0.0
  }

  /** The ranking of the nodes with a positive (1), zero (0) or negative (-1) outbound total. */
  ghost function Mass(g: G.Contents, sign: int): real { Sum(g.nodes.Keys, RanksOfSign(g, sign)) }

  ghost function TotalRank(g: G.Contents): real { Sum(g.nodes.Keys, Ranks(g)) }

  /** What one node brings another. */
  function Brings(g: G.Contents, alpha: real, s: nat, t: nat): real { alpha * RankOf(g, s) * Share(g, s, t) }

  function Brought(g: G.Contents, alpha: real): (nat, nat) -> real { (s: nat, t: nat) => Brings(g, alpha, s, t) }

  /** What every node gets: the undamped part and the leak of the nodes without outbound weight, spread evenly. */
  ghost function Base(g: G.Contents, alpha: real, inverse: real): real
  {
    (1.0 - alpha) * inverse + alpha * Mass(g, 0) * inverse
  }

  ghost function NextRank(g: G.Contents, alpha: real, inverse: real, t: nat): real
  {
    Sum(g.nodes.Keys, Column(Brought(g, alpha), t)) + Base(g, alpha, inverse)
  }

  ghost function NextRanks(g: G.Contents, alpha: real, inverse: real): nat -> real { (t: nat) => NextRank(g, alpha, inverse, t) }

  // ----- conservation

  lemma ShareIsScaled(g: G.Contents, s: nat, t: nat)
    requires OutOf(g, s) > 0.0 && t in G.Successors(g.edges, s)
    ensures Share(g, s, t) == 1.0 / OutOf(g, s) * G.OutSum(g.edges, s)(t)
  {
  }

  /** A node with positive outbound total passes on its whole ranking, any other node nothing. */
  lemma SharesAddUp(g: G.Contents, s: nat)
    requires G.IsGraph(g) && s in g.nodes
    ensures Sum(g.nodes.Keys, ShareOf(g, s)) == if OutOf(g, s) > 0.0 then 1.0 else 0.0
  {
    hide Sum, G.Indexed, G.Joined;
    JoinedFacts(g, s);
    var nodes, out := g.nodes.Keys, OutOf(g, s);
    if out > 0.0 {
      var targets := G.Successors(g.edges, s).Keys;
      assert G.Balanced(g, s);
      var w, c := G.OutSum(g.edges, s), 1.0 / out;
      SumSubset(nodes, targets, ShareOf(g, s));
      forall t | t in targets ensures ShareOf(g, s)(t) == c * w(t) {
        ShareIsScaled(g, s, t);
      }
      SumScaled(targets, ShareOf(g, s), w, c);
      assert c * out == 1.0;
    } else {
      SumZero(nodes, ShareOf(g, s));
    }
  }

  lemma JoinedFacts(g: G.Contents, s: nat)
    requires G.Joined(g)
    ensures G.Successors(g.edges, s).Keys <= g.nodes.Keys
  {
  }

  lemma SumScaled(s: set<nat>, f: nat -> real, g: nat -> real, c: real)
    requires forall x :: x in s ==> f(x) == c * g(x)
    ensures Sum(s, f) == c * Sum(s, g)
  {
    hide Sum;
    SumScale(s, g, c);
    SumSame(s, f, (x: nat) => c * g(x));
  }

  /** What one node brings to all nodes together. */
  lemma BringsAddUp(g: G.Contents, alpha: real, s: nat)
    requires G.IsGraph(g) && s in g.nodes
    ensures Sum(g.nodes.Keys, Row(Brought(g, alpha), s)) == alpha * RanksOfSign(g, 1)(s)
  {
    hide Sum, G.IsGraph;
    SharesAddUp(g, s);
    SumScaled(g.nodes.Keys, Row(Brought(g, alpha), s), ShareOf(g, s), alpha * RankOf(g, s));
  }

  lemma AllBringsAddUp(g: G.Contents, alpha: real, columns: nat -> real)
    requires G.IsGraph(g)
    requires forall t :: t in g.nodes ==> columns(t) == Sum(g.nodes.Keys, Column(Brought(g, alpha), t))
    ensures Sum(g.nodes.Keys, columns) == alpha * Mass(g, 1)
  {
    hide Sum, G.IsGraph;
    var nodes := g.nodes.Keys;
    var rows := (s: nat) => Sum(nodes, Row(Brought(g, alpha), s));
    SumExchange(nodes, nodes, Brought(g, alpha), rows, columns);
    forall s | s in nodes ensures rows(s) == alpha * RanksOfSign(g, 1)(s) {
      BringsAddUp(g, alpha, s);
    }
    SumScaled(nodes, rows, RanksOfSign(g, 1), alpha);
  }

  lemma MassSplits(g: G.Contents)
    ensures TotalRank(g) == Mass(g, 1) + Mass(g, 0) + Mass(g, -1)
  {
    hide Sum;
    var nodes := g.nodes.Keys;
    var plus, zero, minus := RanksOfSign(g, 1), RanksOfSign(g, 0), RanksOfSign(g, -1);
    var two := (i: nat) => plus(i) + zero(i);
    SumPlus(nodes, plus, zero);
    SumPlus(nodes, two, minus);
    SumSame(nodes, Ranks(g), (i: nat) => two(i) + minus(i));
  }

  /** A pass from total 1 loses just what nodes with a negative outbound total held. */
  lemma NextMass(g: G.Contents, alpha: real, inverse: real)
    requires G.IsGraph(g) && inverse * (|g.nodes.Keys| as real) == 1.0 && TotalRank(g) == 1.0
    ensures Sum(g.nodes.Keys, NextRanks(g, alpha, inverse)) == 1.0 - alpha * Mass(g, -1)
  {
    hide Sum, G.IsGraph, Base, Brought, Mass, TotalRank;
    var nodes := g.nodes.Keys;
    var base := Base(g, alpha, inverse);
    var columns, flat := (t: nat) => Sum(nodes, Column(Brought(g, alpha), t)), (t: nat) => base;
    AllBringsAddUp(g, alpha, columns);
    SumPlus(nodes, columns, flat);
    SumConstant(nodes, base);
    SumSame(nodes, NextRanks(g, alpha, inverse), (t: nat) => columns(t) + flat(t));
    MassSplits(g);
    BaseAddsUp(g, alpha, inverse);
    assert alpha * Mass(g, 1) + alpha * Mass(g, 0) == alpha * (1.0 - Mass(g, -1));
  }

  lemma BaseAddsUp(g: G.Contents, alpha: real, inverse: real)
    requires inverse * (|g.nodes.Keys| as real) == 1.0
    ensures Base(g, alpha, inverse) * (|g.nodes.Keys| as real) == 1.0 - alpha + alpha * Mass(g, 0)
  {
    hide Sum, Mass;
    var n, m := |g.nodes.Keys| as real, alpha * Mass(g, 0);
    assert (1.0 - alpha) * inverse * n == (1.0 - alpha) * (inverse * n);
    assert m * inverse * n == m * (inverse * n);
  }

  /** The total ranking stays 1 exactly when no ranking sits on a negative outbound total, or alpha is 0. */
  lemma RankKeepsMassIff(g: G.Contents, alpha: real, inverse: real)
    requires G.IsGraph(g) && inverse * (|g.nodes.Keys| as real) == 1.0 && TotalRank(g) == 1.0
    ensures Sum(g.nodes.Keys, NextRanks(g, alpha, inverse)) == 1.0 <==> alpha * Mass(g, -1) == 0.0
    ensures (forall i :: i in g.nodes ==> g.nodes[i].outbound >= 0.0) ==> Mass(g, -1) == 0.0
  {
    hide Sum, G.IsGraph;
    NextMass(g, alpha, inverse);
    if forall i :: i in g.nodes ==> g.nodes[i].outbound >= 0.0 {
      SumZero(g.nodes.Keys, RanksOfSign(g, -1));
    }
  }

  // ----- the computation

  /** Two graphs that differ in rankings only. */
  ghost predicate SameButRanks(g: G.Contents, r: G.Contents)
  {
    && r.index == g.index && r.edges == g.edges && r.nodes.Keys == g.nodes.Keys
    && forall i :: i in g.nodes ==> r.nodes[i] == g.nodes[i].(ranking := r.nodes[i].ranking)
  }

  /** The normalized weights: for every source with positive outbound total, its shares. */
  ghost predicate Normalized(g: G.Contents, w: Weights)
  {
    && (forall s :: s in w <==> s in g.edges && OutOf(g, s) > 0.0)
    && (forall s :: s in w ==> w[s].Keys == g.edges[s].Keys)
    && (forall s, t :: s in w && t in w[s] ==> w[s][t] == Share(g, s, t))
  }

  method Normalize(g: G.Graph) returns (w: Weights)
    requires G.IsGraph(g.Now())
    ensures Normalized(g.Now(), w)
  {
    hide G.Indexed, Sum;
    w := map[];
    var rest := g.edges.Keys;
    while rest != {}
      invariant rest <= g.edges.Keys
      invariant forall s :: s in w <==> s in g.edges && s !in rest && OutOf(g.Now(), s) > 0.0
      invariant forall s :: s in w ==> w[s].Keys == g.edges[s].Keys
      invariant forall s, t :: s in w && t in w[s] ==> w[s][t] == Share(g.Now(), s, t)
      decreases rest
    {
      var source :| source in rest;
      rest := rest - {source};
      if g.nodes[source].outbound > 0.0 {
        var out := g.edges[source];
        w := w[source := map t | t in out :: out[t].weight / g.nodes[source].outbound];
      }
    }
  }

  lemma SameAsItself(g: G.Contents)
    ensures SameButRanks(g, g)
  {
  }

  /** Giving a node another rank changes nothing else. */
  lemma RankChanges(g: G.Contents, r: G.Contents, i: nat, ranking: real)
    requires SameButRanks(g, r) && i in g.nodes
    ensures i in r.nodes && r.nodes.Keys == g.nodes.Keys && r.nodes[i].outbound == g.nodes[i].outbound
    ensures SameButRanks(g, r.(nodes := r.nodes[i := r.nodes[i].(ranking := ranking)]))
  {
  }

  /** Remember and clear all rankings, and add up those of the nodes without outbound weight. */
  method Clear(g: G.Graph) returns (nodes: map<nat, real>, leak: real)
    modifies g`nodes
    ensures SameButRanks(old(g.Now()), g.Now()) && forall i :: i in g.nodes ==> g.nodes[i].ranking == 0.0
    ensures nodes.Keys == g.nodes.Keys && forall i :: i in nodes ==> nodes[i] == RankOf(old(g.Now()), i)
    ensures leak == Mass(old(g.Now()), 0)
  {
    hide Sum, SameButRanks;
    ghost var was := g.Now();
    nodes, leak := map[], 0.0;
    var rest := g.nodes.Keys;
    SameAsItself(was);
    SumEmpty(RanksOfSign(was, 0));
    assert was.nodes.Keys - rest == {};
    while rest != {}
      invariant rest <= was.nodes.Keys == g.nodes.Keys && SameButRanks(was, g.Now()) && nodes.Keys == was.nodes.Keys - rest
      invariant forall i :: i in nodes ==> nodes[i] == RankOf(was, i)
      invariant forall i :: i in was.nodes ==> g.nodes[i].ranking == if i in rest then RankOf(was, i) else 0.0
      invariant leak == Sum(was.nodes.Keys - rest, RanksOfSign(was, 0))
      decreases rest
    {
      var key :| key in rest;
      SumInsert(was.nodes.Keys - rest, RanksOfSign(was, 0), key);
      assert was.nodes.Keys - (rest - {key}) == was.nodes.Keys - rest + {key};
      rest := rest - {key};
      RankChanges(was, g.Now(), key, 0.0);
      var value := g.nodes[key];
      nodes := nodes[key := value.ranking];
      if value.outbound == 0.0 {
        leak := leak + value.ranking;
      }
      g.nodes := g.nodes[key := value.(ranking := 0.0)];
    }
    assert was.nodes.Keys - {} == was.nodes.Keys;
  }

  /** Hand the shares of one source to its targets. */
  method Distribute(g: G.Graph, source: nat, shares: map<nat, real>, alpha: real, held: real, ghost was: G.Contents)
    requires SameButRanks(was, g.Now()) && shares.Keys <= g.nodes.Keys && held == RankOf(was, source)
    requires forall t :: t in g.nodes ==> Share(was, source, t) == if t in shares then shares[t] else 0.0
    modifies g`nodes
    ensures SameButRanks(was, g.Now())
    ensures forall t :: t in g.nodes ==> RankOf(g.Now(), t) == RankOf(old(g.Now()), t) + Brings(was, alpha, source, t)
  {
    hide Brings, Share;
    ghost var start := g.Now();
    var rest := shares.Keys;
    forall t | t in g.nodes ensures Brings(was, alpha, source, t) == if t in shares then alpha * held * shares[t] else 0.0 {
      BringsIs(was, alpha, source, t);
    }
    while rest != {}
      invariant rest <= shares.Keys && SameButRanks(was, g.Now())
      invariant forall t :: t in g.nodes ==>
        RankOf(g.Now(), t) == RankOf(start, t) + (if t in rest then 0.0 else Brings(was, alpha, source, t))
      decreases rest
    {
      var target :| target in rest;
      rest := rest - {target};
      var node := g.nodes[target];
      g.nodes := g.nodes[target := node.(ranking := node.ranking + alpha * held * shares[target])];
    }
  }

  lemma BringsIs(g: G.Contents, alpha: real, s: nat, t: nat)
    ensures Brings(g, alpha, s, t) == alpha * RankOf(g, s) * Share(g, s, t)
    ensures Share(g, s, t) == 0.0 ==> Brings(g, alpha, s, t) == 0.0
  {
  }

  /** The rankings when the nodes in `done` have been visited. */
  ghost predicate Partial(g: G.Contents, now: G.Contents, alpha: real, base: real, done: set<nat>)
  {
    forall t :: t in g.nodes ==>
      RankOf(now, t) == Sum(done, Column(Brought(g, alpha), t)) + (if t in done then base else 0.0)
  }

  /** Visit one source: its shares go out, and it gets its own even part. */
  method Visit(g: G.Graph, source: nat, shares: map<nat, real>, alpha: real, held: real, own: real,
               ghost was: G.Contents, ghost done: set<nat>)
    requires SameButRanks(was, g.Now()) && Partial(was, g.Now(), alpha, own, done)
    requires source in g.nodes && source !in done && shares.Keys <= g.nodes.Keys && held == RankOf(was, source)
    requires forall t :: t in g.nodes ==> Share(was, source, t) == if t in shares then shares[t] else 0.0
    modifies g`nodes
    ensures SameButRanks(was, g.Now()) && Partial(was, g.Now(), alpha, own, done + {source})
  {
    hide Sum, Brings, Share, Brought, SameButRanks, Partial;
    ghost var start := g.Now();
    SameKeys(was, start);
    Distribute(g, source, shares, alpha, held, was);
    ghost var mid := g.Now();
    SameKeys(was, mid);
    var node := g.nodes[source];
    g.nodes := g.nodes[source := node.(ranking := node.ranking + own)];
    SameAfter(was, mid, source, node.ranking + own);
    PartialMore(was, start, mid, g.Now(), alpha, own, source, done);
  }

  lemma SameAfter(g: G.Contents, r: G.Contents, i: nat, ranking: real)
    requires SameButRanks(g, r) && i in r.nodes
    ensures SameButRanks(g, r.(nodes := r.nodes[i := r.nodes[i].(ranking := ranking)]))
  {
  }

  lemma PartialMore(g: G.Contents, start: G.Contents, mid: G.Contents, end: G.Contents, alpha: real, base: real,
                    source: nat, done: set<nat>)
    requires source in g.nodes && source !in done && Partial(g, start, alpha, base, done)
    requires mid.nodes.Keys == g.nodes.Keys
    requires forall t :: t in g.nodes ==> RankOf(mid, t) == RankOf(start, t) + Brings(g, alpha, source, t)
    requires end == mid.(nodes := mid.nodes[source := mid.nodes[source].(ranking := mid.nodes[source].ranking + base)])
    ensures Partial(g, end, alpha, base, done + {source})
  {
    hide Sum, Brings;
    MoreBrought(Brought(g, alpha), done, source);
  }

  /** One pass: every node ends with what the others bring it, and an even part of the rest. */
  method Pass(g: G.Graph, alpha: real, inverse: real, w: Weights)
    requires G.IsGraph(g.Now()) && Normalized(g.Now(), w)
    modifies g`nodes
    ensures SameButRanks(old(g.Now()), g.Now())
    ensures forall t :: t in g.nodes ==> RankOf(g.Now(), t) == NextRank(old(g.Now()), alpha, inverse, t)
  {
    hide Sum, G.Indexed, Brings, Base, Mass, Share, Normalized, SameButRanks, Partial;
    ghost var was := g.Now();
    var nodes, leak := Clear(g);
    leak := leak * alpha;
    var own := (1.0 - alpha) * inverse + leak * inverse;
    BaseIs(was, alpha, inverse, leak);
    var rest := g.nodes.Keys;
    PartialStart(was, g.Now(), alpha, own);
    assert was.nodes.Keys - rest == {} by { SameKeys(was, g.Now()); }
    while rest != {}
      invariant rest <= was.nodes.Keys == g.nodes.Keys && SameButRanks(was, g.Now())
      invariant Partial(was, g.Now(), alpha, own, was.nodes.Keys - rest)
      decreases rest
    {
      var source :| source in rest;
      assert was.nodes.Keys - (rest - {source}) == was.nodes.Keys - rest + {source};
      var shares := if source in w then w[source] else map[];
      SharesAre(was, w, source);
      Visit(g, source, shares, alpha, nodes[source], own, was, was.nodes.Keys - rest);
      SameKeys(was, g.Now());
      rest := rest - {source};
    }
    assert was.nodes.Keys - {} == was.nodes.Keys;
    PartialEnd(was, g.Now(), alpha, inverse);
  }

  lemma SameKeys(g: G.Contents, r: G.Contents)
    requires SameButRanks(g, r)
    ensures r.nodes.Keys == g.nodes.Keys
  {
  }

  lemma PartialStart(g: G.Contents, now: G.Contents, alpha: real, base: real)
    requires SameButRanks(g, now) && forall i :: i in now.nodes ==> now.nodes[i].ranking == 0.0
    ensures Partial(g, now, alpha, base, {}) && now.nodes.Keys == g.nodes.Keys
  {
    NothingBrought(Brought(g, alpha));
  }

  lemma PartialEnd(g: G.Contents, now: G.Contents, alpha: real, inverse: real)
    requires Partial(g, now, alpha, Base(g, alpha, inverse), g.nodes.Keys)
    ensures forall t :: t in g.nodes ==> RankOf(now, t) == NextRank(g, alpha, inverse, t)
  {
    hide Sum, Base;
  }

  lemma BaseIs(g: G.Contents, alpha: real, inverse: real, leak: real)
    requires leak == Mass(g, 0) * alpha
    ensures Base(g, alpha, inverse) == (1.0 - alpha) * inverse + leak * inverse
  {
  }

  lemma NothingBrought(brought: (nat, nat) -> real)
    ensures forall t :: Sum({}, Column(brought, t)) == 0.0
  {
  }

  lemma MoreBrought(brought: (nat, nat) -> real, done: set<nat>, source: nat)
    requires source !in done
    ensures forall t :: Sum(done + {source}, Column(brought, t)) == Sum(done, Column(brought, t)) + brought(source, t)
  {
    hide Sum;
    forall t ensures Sum(done + {source}, Column(brought, t)) == Sum(done, Column(brought, t)) + brought(source, t) {
      SumInsert(done, Column(brought, t), source);
    }
  }

  lemma SharesAre(g: G.Contents, w: Weights, s: nat)
    requires G.Joined(g) && Normalized(g, w)
    ensures s in w ==> w[s].Keys <= g.nodes.Keys && forall t :: t in g.nodes && t in w[s] ==> Share(g, s, t) == w[s][t]
    ensures s in w ==> forall t :: t in g.nodes && t !in w[s] ==> Share(g, s, t) == 0.0
    ensures s !in w ==> forall t :: t in g.nodes ==> Share(g, s, t) == 0.0
  {
  }

  lemma SameIsGraph(g: G.Contents, r: G.Contents)
    requires G.IsGraph(g) && SameButRanks(g, r)
    ensures G.IsGraph(r)
  {
    hide Sum;
    forall k | k in r.index ensures G.Named(r, k) {
      assert G.Named(g, k);
    }
    forall i | i in r.nodes ensures G.Numbered(r, i) && G.Balanced(r, i) {
      assert G.Numbered(g, i) && G.Balanced(g, i);
    }
  }

  lemma SameNormalized(g: G.Contents, r: G.Contents, w: Weights)
    requires SameButRanks(g, r) && Normalized(g, w)
    ensures Normalized(r, w)
  {
    assert forall i :: OutOf(r, i) == OutOf(g, i);
    assert forall s, t :: Share(r, s, t) == Share(g, s, t);
  }

  /** All nodes start with the same ranking. */
  method Spread(g: G.Graph, inverse: real)
    modifies g`nodes
    ensures SameButRanks(old(g.Now()), g.Now()) && forall i :: i in g.nodes ==> g.nodes[i].ranking == inverse
  {
    ghost var was := g.Now();
    var rest := g.nodes.Keys;
    while rest != {}
      invariant rest <= was.nodes.Keys && SameButRanks(was, g.Now())
      invariant forall i :: i in was.nodes && i !in rest ==> g.nodes[i].ranking == inverse
      decreases rest
    {
      var key :| key in rest;
      rest := rest - {key};
      g.nodes := g.nodes[key := g.nodes[key].(ranking := inverse)];
    }
  }

  // ----- what a ranking is

  /** What a source with positive outbound total hands to a target: its damped ranking in proportion to the edge. */
  function Carried(g: G.Contents, alpha: real, t: nat): nat -> real
  {
    (s: nat) => if s in g.nodes && g.nodes[s].outbound > 0.0
                then alpha * g.nodes[s].ranking * G.WeightOf(g.edges, s, t) / g.nodes[s].outbound else 0.0
  }

  /** The ranking of the nodes without outbound weight. */
  function Stuck(g: G.Contents): nat -> real { (s: nat) => if s in g.nodes && g.nodes[s].outbound == 0.0 then g.nodes[s].ranking else 0.0 }

  /** One pass, node by node: what the sources hand over, and an even part of what is not damped and what is stuck. */
  ghost predicate Follows(g: G.Contents, r: G.Contents, alpha: real)
    requires g.nodes != map[]
  {
    forall t :: t in r.nodes ==>
      r.nodes[t].ranking == Sum(g.nodes.Keys, Carried(g, alpha, t))
                            + (1.0 - alpha + alpha * Sum(g.nodes.Keys, Stuck(g))) / (|g.nodes| as real)
  }

  lemma CarriedIsBrought(g: G.Contents, alpha: real, s: nat, t: nat)
    requires s in g.nodes
    ensures Carried(g, alpha, t)(s) == Column(Brought(g, alpha), t)(s)
  {
    if g.nodes[s].outbound > 0.0 {
      Regroup(alpha * g.nodes[s].ranking, G.WeightOf(g.edges, s, t), g.nodes[s].outbound);
    }
  }

  lemma Regroup(x: real, w: real, o: real)
    requires o > 0.0
    ensures x * w / o == x * (w / o)
  {
  }

  lemma EvenPart(alpha: real, stuck: real, n: real, inverse: real)
    requires n > 0.0 && inverse == 1.0 / n
    ensures (1.0 - alpha) * inverse + alpha * stuck * inverse == (1.0 - alpha + alpha * stuck) / n
  {
    var x := 1.0 - alpha + alpha * stuck;
    assert (1.0 - alpha) * inverse + alpha * stuck * inverse == x * inverse;
    assert x * (1.0 / n) == x / n;
  }

  lemma NextFollows(g: G.Contents, r: G.Contents, alpha: real, inverse: real)
    requires g.nodes != map[] && |g.nodes| > 0 && inverse == 1.0 / (|g.nodes| as real) && r.nodes.Keys == g.nodes.Keys
    requires forall t :: t in r.nodes ==> RankOf(r, t) == NextRank(g, alpha, inverse, t)
    ensures Follows(g, r, alpha)
  {
    hide Sum, Carried, Brought, Stuck;
    EvenPart(alpha, Mass(g, 0), |g.nodes| as real, inverse);
    StuckIsMass(g);
    forall t | t in r.nodes
      ensures RankOf(r, t) == Sum(g.nodes.Keys, Carried(g, alpha, t)) + Base(g, alpha, inverse)
    {
      forall s | s in g.nodes.Keys ensures Carried(g, alpha, t)(s) == Column(Brought(g, alpha), t)(s) {
        CarriedIsBrought(g, alpha, s, t);
      }
      SumSame(g.nodes.Keys, Carried(g, alpha, t), Column(Brought(g, alpha), t));
    }
  }

  lemma StuckIsMass(g: G.Contents)
    ensures Sum(g.nodes.Keys, Stuck(g)) == Mass(g, 0)
  {
    hide Sum;
    SumSame(g.nodes.Keys, Stuck(g), RanksOfSign(g, 0));
  }

  /** The rankings from pass to pass: all alike at first, then each from the one before. */
  ghost predicate IsTrace(trace: seq<G.Contents>, g: G.Contents, alpha: real)
    requires g.nodes != map[]
  {
    && trace != [] && (forall n :: 0 <= n < |trace| ==> SameButRanks(g, trace[n]) && trace[n].nodes != map[])
    && (forall i :: i in trace[0].nodes ==> trace[0].nodes[i].ranking == 1.0 / (|g.nodes| as real))
    && forall n :: 0 <= n < |trace| - 1 ==> Follows(trace[n], trace[n + 1], alpha)
  }

  lemma TraceStarts(g: G.Contents, first: G.Contents, alpha: real)
    requires g.nodes != map[] && SameButRanks(g, first)
    requires forall i :: i in first.nodes ==> first.nodes[i].ranking == 1.0 / (|g.nodes| as real)
    ensures IsTrace([first], g, alpha)
  {
    SameNodes(g, first);
  }

  lemma SameNodes(g: G.Contents, r: G.Contents)
    requires SameButRanks(g, r) && g.nodes != map[]
    ensures r.nodes.Keys == g.nodes.Keys && r.nodes != map[] && |r.nodes| == |g.nodes|
  {
    assert |r.nodes.Keys| == |r.nodes| && |g.nodes.Keys| == |g.nodes|;
    var i :| i in g.nodes;
    assert i in r.nodes;
  }

  lemma TraceGrows(trace: seq<G.Contents>, g: G.Contents, r: G.Contents, alpha: real)
    requires g.nodes != map[] && IsTrace(trace, g, alpha) && SameButRanks(g, r) && r.nodes != map[]
    requires Follows(trace[|trace| - 1], r, alpha)
    ensures IsTrace(trace + [r], g, alpha)
  {
    hide SameButRanks, Follows;
  }

  /** Rank the graph; the code repeats the pass until the change is small, and `passes` is how often that is. */
  method RankGraph(g: G.Graph, alpha: real, passes: nat) returns (ghost trace: seq<G.Contents>)
    requires G.IsGraph(g.Now()) && g.nodes != map[]
    modifies g`nodes
    ensures G.IsGraph(g.Now()) && SameButRanks(old(g.Now()), g.Now())
    ensures IsTrace(trace, old(g.Now()), alpha) && |trace| == passes + 1 && trace[passes] == g.Now()
    ensures (forall i :: i in g.nodes ==> g.nodes[i].outbound >= 0.0) ==> TotalRank(g.Now()) == 1.0
  {
    hide Sum, G.IsGraph, SameButRanks, Normalized, NextRank, TotalRank, IsTrace, Follows;
    ghost var was := g.Now();
    CountNodes(was);
    var inverse := 1.0 / (|g.nodes| as real);
    var w := Normalize(g);
    Spread(g, inverse);
    SameIsGraph(was, g.Now());
    SameNormalized(was, g.Now(), w);
    SpreadTotal(was, g.Now(), inverse);
    TraceStarts(was, g.Now(), alpha);
    trace := [g.Now()];
    for n := 0 to passes
      invariant G.IsGraph(g.Now()) && SameButRanks(was, g.Now()) && Normalized(g.Now(), w)
      invariant IsTrace(trace, was, alpha) && |trace| == n + 1 && trace[n] == g.Now()
      invariant (forall i :: i in was.nodes ==> was.nodes[i].outbound >= 0.0) ==> TotalRank(g.Now()) == 1.0
    {
      ghost var before := g.Now();
      Pass(g, alpha, inverse, w);
      SameIsGraph(before, g.Now());
      SameNormalized(before, g.Now(), w);
      SameTwice(was, before, g.Now());
      if forall i :: i in was.nodes ==> was.nodes[i].outbound >= 0.0 {
        PassTotal(was, before, g.Now(), alpha, inverse);
      }
      SameNodes(was, before);
      SameNodes(was, g.Now());
      NextFollows(before, g.Now(), alpha, inverse);
      TraceGrows(trace, was, g.Now(), alpha);
      trace := trace + [g.Now()];
    }
    SameOutbound(was, g.Now());
  }

  lemma CountNodes(g: G.Contents)
    requires g.nodes != map[]
    ensures |g.nodes| > 0 && |g.nodes.Keys| == |g.nodes|
  {
  }

  lemma SpreadTotal(was: G.Contents, g: G.Contents, inverse: real)
    requires SameButRanks(was, g) && inverse * (|was.nodes.Keys| as real) == 1.0
    requires forall i :: i in g.nodes ==> g.nodes[i].ranking == inverse
    ensures TotalRank(g) == 1.0
  {
    hide Sum;
    SumConstant(g.nodes.Keys, inverse);
    SumSame(g.nodes.Keys, Ranks(g), (i: nat) => inverse);
  }

  lemma SameTwice(g: G.Contents, h: G.Contents, r: G.Contents)
    requires SameButRanks(g, h) && SameButRanks(h, r)
    ensures SameButRanks(g, r)
  {
  }

  lemma SameOutbound(g: G.Contents, r: G.Contents)
    requires SameButRanks(g, r)
    ensures r.nodes.Keys == g.nodes.Keys && forall i :: i in g.nodes ==> r.nodes[i].outbound == g.nodes[i].outbound
  {
  }

  lemma PassTotal(was: G.Contents, g: G.Contents, r: G.Contents, alpha: real, inverse: real)
    requires SameButRanks(was, g) && SameButRanks(g, r) && G.IsGraph(g) && inverse * (|was.nodes.Keys| as real) == 1.0
    requires TotalRank(g) == 1.0 && forall i :: i in was.nodes ==> was.nodes[i].outbound >= 0.0
    requires forall t :: t in r.nodes ==> RankOf(r, t) == NextRank(g, alpha, inverse, t)
    ensures TotalRank(r) == 1.0
  {
    hide Sum, G.IsGraph, NextRank, TotalRank;
    RankKeepsMassIff(g, alpha, inverse);
    assert TotalRank(r) == Sum(r.nodes.Keys, Ranks(r)) by { TotalIs(r); }
    SumSame(g.nodes.Keys, Ranks(r), NextRanks(g, alpha, inverse));
  }

  lemma TotalIs(g: G.Contents)
    ensures TotalRank(g) == Sum(g.nodes.Keys, Ranks(g))
  {
  }
}
