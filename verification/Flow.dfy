/** What a consideration adds to the graph flows: from the sender through the places its key names to the root. */
module Flow {
  import opened Considerations
  import opened Indexer
  import G = Graph

  function InOf(op: Op, x: string): real { if op.Tie? && Name(op.target) == x then op.weight else 0.0 }

  /** What a name passes on less what it is given. */
  function NetOf(op: Op, x: string): real { OutOf(op, x) - InOf(op, x) }

  function Net(ops: seq<Op>, x: string): real
  {
    if ops == [] then 0.0 else Net(ops[..|ops| - 1], x) + NetOf(ops[|ops| - 1], x)
  }

  /** One for a name, and zero for others. */
  function At(name: string, x: string): real { if Name(name) == x then 1.0 else 0.0 }

  lemma {:induction false} NetConcat(a: seq<Op>, b: seq<Op>, x: string)
    ensures Net(a + b, x) == Net(a, x) + Net(b, x)
  {
    if b == [] {
      assert a + b == a;
    } else {
      assert (a + b)[..|a + b| - 1] == a + b[..|b| - 1];
      NetConcat(a, b[..|b| - 1], x);
    }
  }

  lemma NetPush(a: seq<Op>, op: Op, x: string)
    ensures Net(a + [op], x) == Net(a, x) + NetOf(op, x)
  {
    assert (a + [op])[..|a|] == a;
  }

  lemma NetNothing(x: string)
    ensures Net([], x) == 0.0
  {
  }

  lemma NetOne(op: Op, x: string)
    ensures Net([op], x) == NetOf(op, x)
  {
    assert [op][..0] == [];
  }

  lemma TieNet(source: string, target: string, weight: real, time: int, x: string)
    ensures NetOf(Tie(source, target, weight, time), x) == weight * At(source, x) - weight * At(target, x)
  {
  }

  lemma TemporalNet(p: Parsing, name: string, time: int, x: string)
    ensures Net(Temporal(p, name, time), x) == 0.25 * At(name, x) - 0.25 * At("0", x)
  {
    hide Name, At, Net, NetOf;
    var a, b := Tie(name, p.day(time), DIMENSION, time + 20), Tie(p.day(time), p.month(time), DIMENSION, time + 21);
    var c, d := Tie(p.month(time), p.year(time), DIMENSION, time + 22), Tie(p.year(time), "0", DIMENSION, time + 23);
    assert Temporal(p, name, time) == [a] + [b] + [c] + [d];
    NetOne(a, x);
    NetPush([a], b, x);
    NetPush([a] + [b], c, x);
    NetPush([a] + [b] + [c], d, x);
    TieNet(name, p.day(time), DIMENSION, time + 20, x);
    TieNet(p.day(time), p.month(time), DIMENSION, time + 21, x);
    TieNet(p.month(time), p.year(time), DIMENSION, time + 22, x);
    TieNet(p.year(time), "0", DIMENSION, time + 23, x);
  }

  lemma RatedNet(p: Parsing, name: string, time: int, x: string)
    ensures Net(Rated(p, name, time), x) == 0.25 * At(name, x) - 0.25 * At("0", x)
  {
    hide Name, At, Net, NetOf;
    var node := "+" + p.decimal(p.rating(name));
    var a, b := Tie(name, node, DIMENSION, time + 30), Tie(node, "0", DIMENSION, time + 31);
    assert Rated(p, name, time) == [a] + [b];
    NetOne(a, x);
    NetPush([a], b, x);
    TieNet(name, node, DIMENSION, time + 30, x);
    TieNet(node, "0", DIMENSION, time + 31, x);
  }

  lemma SpatialAtNet(name: string, nodes: seq<string>, locale: string, i: nat, time: int, x: string)
    requires i < |nodes|
    ensures Net(SpatialAt(name, nodes, locale, i, time), x)
      == NodeWeight(|nodes|, 1) * At(name, x) - NodeWeight(|nodes|, 1) * At(nodes[i], x)
         + (if i + 1 < |nodes| then NodeWeight(|nodes|, i + 1) * At(nodes[i], x) - NodeWeight(|nodes|, i + 1) * At(nodes[i + 1], x)
            else 0.25 * At(nodes[i], x) - 0.25 * At(locale, x))
  {
    hide Name, At, NodeWeight;
    var a := Tie(name, nodes[i], NodeWeight(|nodes|, 1), time + 40 + i);
    NetOne(a, x);
    TieNet(name, nodes[i], NodeWeight(|nodes|, 1), time + 40 + i, x);
    if i + 1 < |nodes| {
      var b := Tie(nodes[i], nodes[i + 1], NodeWeight(|nodes|, i + 1), time + 40 + i + (i + 1));
      assert SpatialAt(name, nodes, locale, i, time) == [a] + [b];
      NetPush([a], b, x);
      TieNet(nodes[i], nodes[i + 1], NodeWeight(|nodes|, i + 1), time + 40 + i + (i + 1), x);
    } else {
      var b := Tie(nodes[i], locale, DIMENSION, time + 40 + i + (i + 1));
      assert SpatialAt(name, nodes, locale, i, time) == [a] + [b];
      NetPush([a], b, x);
      TieNet(nodes[i], locale, DIMENSION, time + 40 + i + (i + 1), x);
    }
  }

  /** The parts of the nodes add up. */
  lemma NodeWeights(n: nat, j: nat)
    requires n > 0
    ensures NodeWeight(n, j + 1) == NodeWeight(n, j) + NodeWeight(n, 1) && NodeWeight(n, 0) == 0.0 && NodeWeight(n, n) == 0.25
  {
    var w := DIMENSION / (n as real);
    assert w * ((j + 1) as real) == w * (j as real) + w * (1 as real);
  }

  lemma {:induction false} SpatialNet(name: string, nodes: seq<string>, locale: string, n: nat, time: int, x: string)
    requires n <= |nodes| && nodes != []
    ensures Net(Spatial(name, nodes, locale, n, time), x)
      == NodeWeight(|nodes|, n) * At(name, x)
         - (if n < |nodes| then NodeWeight(|nodes|, n) * At(nodes[n], x) else 0.25 * At(locale, x))
  {
    hide Name, At, NodeWeight, SpatialAt, Net;
    if n == 0 {
      NetNothing(x);
      NodeWeights(|nodes|, 0);
    } else {
      SpatialNet(name, nodes, locale, n - 1, time, x);
      NetConcat(Spatial(name, nodes, locale, n - 1, time), SpatialAt(name, nodes, locale, n - 1, time), x);
      SpatialAtNet(name, nodes, locale, n - 1, time, x);
      NodeWeights(|nodes|, n - 1);
      NodeWeights(|nodes|, n);
      Telescope(NodeWeight(|nodes|, n - 1), NodeWeight(|nodes|, 1), At(name, x), At(nodes[n - 1], x));
    }
  }

  lemma Telescope(a: real, w: real, x: real, y: real)
    ensures a * x - a * y + (w * x - w * y) == (a + w) * x - (a + w) * y
  {
  }

  function Above(h: seq<string>, n: nat): string
    requires n <= |h|
  {
    if n < |h| then h[n] else "0"
  }

  lemma HierarchyStep(h: seq<string>, n: nat, time: int)
    requires 0 < n <= |h|
    ensures Hierarchy(h, n, time) == Hierarchy(h, n - 1, time) + [Tie(h[n - 1], Above(h, n), DIMENSION, time + (n - 1))]
    ensures Hierarchy(h, 0, time) == []
  {
  }

  lemma {:induction false} HierarchyNet(h: seq<string>, n: nat, time: int, x: string)
    requires n <= |h| && h != []
    ensures Net(Hierarchy(h, n, time), x) == 0.25 * At(h[0], x) - 0.25 * At(Above(h, n), x)
  {
    hide Name, At, Net, Hierarchy, NetOf;
    HierarchyStep(h, 1, time);
    if n == 0 {
      NetNothing(x);
    } else {
      HierarchyNet(h, n - 1, time, x);
      HierarchyStep(h, n, time);
      NetPush(Hierarchy(h, n - 1, time), Tie(h[n - 1], Above(h, n), DIMENSION, time + (n - 1)), x);
      TieNet(h[n - 1], Above(h, n), DIMENSION, time + (n - 1), x);
    }
  }

  lemma {:induction false} MetricNet(p: Parsing, name: string, height: int, orders: seq<int>, n: nat, time: int, x: string)
    requires 0 < n <= |orders| && orders[0] == height
    ensures Net(Metric(p, name, height, orders, n, time), x) == 0.25 * At(name, x) - 0.25 * At(p.decimal(orders[n - 1]), x)
  {
    hide Name, At;
    if n == 1 {
      var op := Tie(name, p.decimal(height), DIMENSION, time + 10);
      assert Metric(p, name, height, orders, 1, time) == Metric(p, name, height, orders, 0, time) == [op];
      NetOne(op, x);
      TieNet(name, p.decimal(height), DIMENSION, time + 10, x);
    } else {
      MetricNet(p, name, height, orders, n - 1, time, x);
      var op := Tie(p.decimal(orders[n - 2]), p.decimal(orders[n - 1]), DIMENSION, time + 10 + (n - 1));
      NetPush(Metric(p, name, height, orders, n - 1, time), op, x);
      TieNet(p.decimal(orders[n - 2]), p.decimal(orders[n - 1]), DIMENSION, time + 10 + (n - 1), x);
    }
  }

  /** The orders of a height go from itself down to zero, which is the root. */
  predicate OrdersDown(p: Parsing, height: int)
  {
    var orders := p.orders(height);
    orders != [] && orders[0] == height && p.decimal(orders[|orders| - 1]) == "0"
  }

  predicate NamesPlace(p: Parsing, name: string)
  {
    p.nodes(name).Some? && p.nodes(name).value != [] && p.locale(name).Some? && p.locale(name).value != []
  }

  /** A key that names a place passes on a whole unit, in four quarters, and all of it reaches the root. */
  lemma LocatedNet(p: Parsing, name: string, time: int, height: int, x: string)
    requires NamesPlace(p, name) && OrdersDown(p, height)
    ensures Net(Located(p, name, time, height), x) == At(name, x) - At("0", x)
  {
    hide Name, At, Temporal, Rated, Spatial, Hierarchy, Metric, NodeWeight;
    var nodes, h, orders := Reversed(p.nodes(name).value), p.locale(name).value, p.orders(height);
    var a, b := Temporal(p, name, time), Rated(p, name, time);
    var c, d := Spatial(name, nodes, h[0], |nodes|, time), Hierarchy(h, |h|, time + 40 + |nodes|);
    var e := Metric(p, name, height, orders, |orders|, time);
    NetConcat(a, b, x);
    NetConcat(a + b, c, x);
    NetConcat(a + b + c, d, x);
    NetConcat(a + b + c + d, e, x);
    TemporalNet(p, name, time, x);
    RatedNet(p, name, time, x);
    SpatialNet(name, nodes, h[0], |nodes|, time, x);
    NodeWeights(|nodes|, 0);
    HierarchyNet(h, |h|, time + 40 + |nodes|, x);
    MetricNet(p, name, height, orders, |orders|, time, x);
  }

  /** Indexing a consideration: the sender gives one unit; the recipient keeps it, or passes it on to the root if it names a place. */
  lemma ConsiderationNet(p: Parsing, cn: Consideration, height: int, x: string)
    requires p.nodes(ForName(p, cn)).Some? || !p.pseudonymous(ForName(p, cn))
    requires NamesPlace(p, ForName(p, cn)) ==> OrdersDown(p, height)
    requires p.nodes(ForName(p, cn)).Some? ==> p.nodes(ForName(p, cn)).value != []
    ensures Net(OpsOf(p, cn, height), x)
      == At(ByName(p, cn), x) - (if NamesPlace(p, ForName(p, cn)) then At("0", x) else At(ForName(p, cn), x))
  {
    hide Name, At, Located, G.Pad44;
    var byName, forName := ByName(p, cn), ForName(p, cn);
    var start := [Credit(byName, -1), Credit(forName, 1)];
    var tie, group := Tie(byName, forName, 1.0, cn.time), Group(forName);
    var located := Located(p, forName, cn.time, height);
    assert OpsOf(p, cn, height) == [Credit(byName, -1)] + [Credit(forName, 1)] + [tie] + [group] + located;
    NetOne(Credit(byName, -1), x);
    NetPush([Credit(byName, -1)], Credit(forName, 1), x);
    NetPush([Credit(byName, -1)] + [Credit(forName, 1)], tie, x);
    NetPush([Credit(byName, -1)] + [Credit(forName, 1)] + [tie], group, x);
    NetConcat([Credit(byName, -1)] + [Credit(forName, 1)] + [tie] + [group], located, x);
    TieNet(byName, forName, 1.0, cn.time, x);
    if NamesPlace(p, forName) {
      LocatedNet(p, forName, cn.time, height, x);
    } else {
      NotLocated(p, forName, cn.time, height);
    }
  }

  lemma NotLocated(p: Parsing, name: string, time: int, height: int)
    requires p.nodes(name).Some? ==> p.nodes(name).value != []
    requires !NamesPlace(p, name)
    ensures Located(p, name, time, height) == []
  {
  }
}
