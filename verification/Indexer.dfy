/** The indexer: it follows the ledger's tip and keeps the graph of considerations. */
module Indexer {
  import opened Considerations
  import opened Balances
  import opened Chain
  import opened History
  import G = Graph

  /** How keys and times read as text; the parsers, the calendar and the number format are outside the model. */
  datatype Parsing = Parsing(
    keyName: PublicKey -> string, nodes: string -> Option<seq<string>>, rating: string -> int,
    locale: string -> Option<seq<string>>, pseudonymous: string -> bool,
    day: int -> string, month: int -> string, year: int -> string, decimal: int -> string, orders: int -> seq<int>)

  predicate AllPaddable(names: seq<string>) { forall i :: 0 <= i < |names| ==> G.Paddable(names[i]) }

  /** What the code relies on: no list it indexes is empty, and no name has the one length that cannot be padded. */
  ghost predicate Readable(p: Parsing)
  {
    && (forall k :: G.Paddable(p.keyName(k)))
    && (forall s :: p.nodes(s).Some? ==> p.nodes(s).value != [] && AllPaddable(p.nodes(s).value))
    && (forall s :: p.locale(s).Some? ==> p.locale(s).value != [] && AllPaddable(p.locale(s).value))
    && (forall t :: G.Paddable(p.day(t)) && G.Paddable(p.month(t)) && G.Paddable(p.year(t)))
    && (forall n {:trigger p.decimal(n)} :: G.Paddable(p.decimal(n)) && G.Paddable("+" + p.decimal(n)))
  }

  lemma ReadsKey(p: Parsing, k: PublicKey)
    requires Readable(p)
    ensures G.Paddable(p.keyName(k))
  {
  }

  lemma ReadsPlace(p: Parsing, name: string)
    requires Readable(p)
    ensures p.nodes(name).Some? ==> p.nodes(name).value != [] && AllPaddable(p.nodes(name).value)
    ensures p.locale(name).Some? ==> p.locale(name).value != [] && AllPaddable(p.locale(name).value)
  {
  }

  lemma ReadsTime(p: Parsing, t: int)
    requires Readable(p)
    ensures G.Paddable(p.day(t)) && G.Paddable(p.month(t)) && G.Paddable(p.year(t))
  {
  }

  lemma ReadsNumber(p: Parsing, n: int)
    requires Readable(p)
    ensures G.Paddable(p.decimal(n)) && G.Paddable("+" + p.decimal(n))
  {
    assert p.decimal(n) == p.decimal(n);
  }

  /** A change of the graph when a count is connected; when it is disconnected the amounts change sign. */
  datatype Op =
    | Credit(name: string, amount: int)
    | Tie(source: string, target: string, weight: real, time: int)
    | Group(name: string)

  function Name(s: string): string { if G.Paddable(s) then G.Pad44(s) else s }

  function Scaled(sign: int, weight: real): real { (sign as real) * weight }

  function Apply(g: G.Contents, op: Op, sign: int, height: int): (r: G.Contents)
    requires G.IsGraph(g)
    ensures G.IsGraph(r)
  {
    match op
    case Credit(name, amount) => G.Credited(g, Name(name), sign * amount)
    case Tie(source, target, weight, time) => G.Linked(g, Name(source), Name(target), Scaled(sign, weight), height, time)
    case Group(name) => G.Grouped(g, Name(name), 0)
  }

  function ApplyAll(g: G.Contents, ops: seq<Op>, sign: int, height: int): (r: G.Contents)
    requires G.IsGraph(g)
    ensures G.IsGraph(r)
  {
    if ops == [] then g else Apply(ApplyAll(g, ops[..|ops| - 1], sign, height), ops[|ops| - 1], sign, height)
  }

  lemma ApplyOne(g: G.Contents, a: seq<Op>, op: Op, sign: int, height: int)
    requires G.IsGraph(g)
    ensures ApplyAll(g, a + [op], sign, height) == Apply(ApplyAll(g, a, sign, height), op, sign, height)
    ensures ApplyAll(g, [], sign, height) == g
  {
    assert (a + [op])[..|a|] == a;
  }

  // ----- what a list of changes adds

  function WeightOf(op: Op, a: string, b: string): real
  {
    if op.Tie? && Name(op.source) == a && Name(op.target) == b then op.weight else 0.0
  }

  function OutOf(op: Op, a: string): real { if op.Tie? && Name(op.source) == a then op.weight else 0.0 }

  function CreditOf(op: Op, a: string): int { if op.Credit? && Name(op.name) == a then op.amount else 0 }

  function WeightOfAll(ops: seq<Op>, a: string, b: string): real
  {
    if ops == [] then 0.0 else WeightOfAll(ops[..|ops| - 1], a, b) + WeightOf(ops[|ops| - 1], a, b)
  }

  function OutOfAll(ops: seq<Op>, a: string): real
  {
    if ops == [] then 0.0 else OutOfAll(ops[..|ops| - 1], a) + OutOf(ops[|ops| - 1], a)
  }

  function CreditOfAll(ops: seq<Op>, a: string): int
  {
    if ops == [] then 0 else CreditOfAll(ops[..|ops| - 1], a) + CreditOf(ops[|ops| - 1], a)
  }

  lemma ApplySays(g: G.Contents, op: Op, sign: int, height: int, a: string, b: string)
    requires G.IsGraph(g)
    ensures var r := Apply(g, op, sign, height);
      && G.Weight(r, a, b) == G.Weight(g, a, b) + (sign as real) * WeightOf(op, a, b)
      && G.Outbound(r, a) == G.Outbound(g, a) + (sign as real) * OutOf(op, a)
      && G.Imbalance(r, a) == G.Imbalance(g, a) + sign * CreditOf(op, a)
  {
    hide G.IsGraph, G.Weight, G.Outbound, G.Imbalance, G.Linked, G.Credited, G.Grouped, G.HasEdge, Name;
    match op
    case Credit(name, amount) => G.CreditedSays(g, Name(name), sign * amount, a, b);
    case Tie(source, target, weight, time) =>
      var w := Scaled(sign, weight);
      G.LinkedSays(g, Name(source), Name(target), w, height, time, a, b);
      assert (sign as real) * WeightOf(op, a, b) == if a == Name(source) && b == Name(target) then w else 0.0;
      assert (sign as real) * OutOf(op, a) == if a == Name(source) then w else 0.0;
    case Group(name) => G.GroupedSays(g, Name(name), 0, a, b);
  }

  /** Every weight, outbound total and imbalance moves by the signed sum of the changes. */
  lemma {:induction false} ApplyAllSays(g: G.Contents, ops: seq<Op>, sign: int, height: int, a: string, b: string)
    requires G.IsGraph(g)
    ensures var r := ApplyAll(g, ops, sign, height);
      && G.Weight(r, a, b) == G.Weight(g, a, b) + (sign as real) * WeightOfAll(ops, a, b)
      && G.Outbound(r, a) == G.Outbound(g, a) + (sign as real) * OutOfAll(ops, a)
      && G.Imbalance(r, a) == G.Imbalance(g, a) + sign * CreditOfAll(ops, a)
  {
    hide G.IsGraph, G.Weight, G.Outbound, G.Imbalance, Apply, WeightOf, OutOf, CreditOf;
    if ops == [] {
    } else {
      ApplyAllSays(g, ops[..|ops| - 1], sign, height, a, b);
      ApplySays(ApplyAll(g, ops[..|ops| - 1], sign, height), ops[|ops| - 1], sign, height, a, b);
    }
  }

  /** Connecting and then disconnecting restores every weight, outbound total and imbalance. */
  lemma IndexUndo(g: G.Contents, ops: seq<Op>, height: int, a: string, b: string)
    requires G.IsGraph(g)
    ensures var r := ApplyAll(ApplyAll(g, ops, 1, height), ops, -1, height);
      G.Weight(r, a, b) == G.Weight(g, a, b) && G.Outbound(r, a) == G.Outbound(g, a) && G.Imbalance(r, a) == G.Imbalance(g, a)
  {
    hide ApplyAll, G.IsGraph;
    ApplyAllSays(g, ops, 1, height, a, b);
    ApplyAllSays(ApplyAll(g, ops, 1, height), ops, -1, height, a, b);
  }

  // ----- the changes a consideration makes

  function ByName(p: Parsing, cn: Consideration): string { if cn.IsCounterPoint() then G.Pad44("0") else p.keyName(cn.sender.value) }

  function ForName(p: Parsing, cn: Consideration): string { p.keyName(cn.recipient) }

  const DIMENSION: real := 0.25

  function Temporal(p: Parsing, name: string, time: int): seq<Op>
  {
    [Tie(name, p.day(time), DIMENSION, time + 20), Tie(p.day(time), p.month(time), DIMENSION, time + 21),
     Tie(p.month(time), p.year(time), DIMENSION, time + 22), Tie(p.year(time), "0", DIMENSION, time + 23)]
  }

  function Rated(p: Parsing, name: string, time: int): seq<Op>
  {
    var ratingNode := "+" + p.decimal(p.rating(name));
    [Tie(name, ratingNode, DIMENSION, time + 30), Tie(ratingNode, "0", DIMENSION, time + 31)]
  }

  /** The part of `j` out of `n` nodes of one perspective. */
  function NodeWeight(n: nat, j: nat): (w: real)
    requires n > 0
    ensures w >= 0.0
  {
    DIMENSION / (n as real) * (j as real)
  }

  /** Node `i` of the location, innermost first: the key to the node, the node to the next, the last to the locale. */
  function SpatialAt(name: string, nodes: seq<string>, locale: string, i: nat, time: int): seq<Op>
    requires i < |nodes|
  {
    [Tie(name, nodes[i], NodeWeight(|nodes|, 1), time + 40 + i)]
    + (if i + 1 < |nodes| then [Tie(nodes[i], nodes[i + 1], NodeWeight(|nodes|, i + 1), time + 40 + i + (i + 1))] else [])
    + (if i == |nodes| - 1 then [Tie(nodes[i], locale, DIMENSION, time + 40 + i + (i + 1))] else [])
  }

  function Spatial(name: string, nodes: seq<string>, locale: string, n: nat, time: int): seq<Op>
    requires n <= |nodes|
  {
    if n == 0 then [] else Spatial(name, nodes, locale, n - 1, time) + SpatialAt(name, nodes, locale, n - 1, time)
  }

  function HierarchyAt(h: seq<string>, i: nat, time: int): seq<Op>
    requires i < |h|
  {
    [Tie(h[i], if i + 1 < |h| then h[i + 1] else "0", DIMENSION, time + i)]
  }

  function Hierarchy(h: seq<string>, n: nat, time: int): seq<Op>
    requires n <= |h|
  {
    if n == 0 then [] else Hierarchy(h, n - 1, time) + HierarchyAt(h, n - 1, time)
  }

  function Metric(p: Parsing, name: string, height: int, orders: seq<int>, n: nat, time: int): seq<Op>
    requires n <= |orders|
  {
    if n == 0 then [Tie(name, p.decimal(height), DIMENSION, time + 10)]
    else if n == 1 then Metric(p, name, height, orders, 0, time)
    else Metric(p, name, height, orders, n - 1, time)
         + [Tie(p.decimal(orders[n - 2]), p.decimal(orders[n - 1]), DIMENSION, time + 10 + (n - 1))]
  }

  function Reversed(s: seq<string>): seq<string> { seq(|s|, i requires 0 <= i < |s| => s[|s| - 1 - i]) }

  /** The four quarter-weight perspectives on a key that names a place. */
  function Located(p: Parsing, name: string, time: int, height: int): seq<Op>
  {
    if p.nodes(name).None? || p.locale(name).None? || p.locale(name).value == [] then [] else
      var nodes, h, orders := Reversed(p.nodes(name).value), p.locale(name).value, p.orders(height);
      Temporal(p, name, time) + Rated(p, name, time)
      + Spatial(name, nodes, h[0], |nodes|, time) + Hierarchy(h, |h|, time + 40 + |nodes|)
      + Metric(p, name, height, orders, |orders|, time)
  }

  function OpsOf(p: Parsing, cn: Consideration, height: int): seq<Op>
  {
    var byName, forName := ByName(p, cn), ForName(p, cn);
    [Credit(byName, -1), Credit(forName, 1)]
    + (if p.nodes(forName).None? && p.pseudonymous(forName) then [] else
         [Tie(byName, forName, 1.0, cn.time), Group(forName)] + Located(p, forName, cn.time, height))
  }

  function OpsOfFirst(p: Parsing, cns: seq<Consideration>, n: nat, height: int): seq<Op>
    requires n <= |cns|
  {
    if n == 0 then [] else OpsOfFirst(p, cns, n - 1, height) + OpsOf(p, cns[n - 1], height)
  }

  function OpsOfCount(p: Parsing, count: Count): seq<Op>
  {
    OpsOfFirst(p, count.considerations, |count.considerations|, count.header.height)
  }

  // ----- the indexer

  class Indexer {
    const p: Parsing
    const cnGraph: G.Graph
    var latestCountID: CountID
    var latestHeight: int

    constructor (p: Parsing, cnGraph: G.Graph, genesisID: CountID)
      ensures this.p == p && this.cnGraph == cnGraph && latestCountID == genesisID
    {
      this.p, this.cnGraph, latestCountID, latestHeight := p, cnGraph, genesisID, 0;
    }

    /** One edge of a perspective. */
    method Link(source: string, target: string, weight: real, incrementBy: int, height: int, time: int,
                ghost start: G.Contents, ghost ops: seq<Op>)
      requires G.IsGraph(start) && cnGraph.Now() == ApplyAll(start, ops, incrementBy, height)
      requires G.Paddable(source) && G.Paddable(target)
      modifies cnGraph
      ensures cnGraph.Now() == ApplyAll(start, ops + [Tie(source, target, weight, time)], incrementBy, height)
    {
      hide G.IsGraph, ApplyAll, G.Linked, G.Paddable, G.Pad44;
      NamePads(source);
      NamePads(target);
      ApplyOne(start, ops, Tie(source, target, weight, time), incrementBy, height);
      cnGraph.Link(source, target, Scaled(incrementBy, weight), height, time);
    }

    method IndexTime(name: string, time: int, incrementBy: int, height: int, ghost start: G.Contents, ghost ops: seq<Op>)
      requires G.IsGraph(start) && cnGraph.Now() == ApplyAll(start, ops, incrementBy, height)
      requires Readable(p) && G.Paddable(name)
      modifies cnGraph
      ensures cnGraph.Now() == ApplyAll(start, ops + (Temporal(p, name, time) + Rated(p, name, time)), incrementBy, height)
    {
      hide G.IsGraph, ApplyAll, Readable, G.Paddable;
      ReadsTime(p, time);
      ReadsNumber(p, p.rating(name));
      ZeroPads();
      ghost var o := ops;
      Link(name, p.day(time), DIMENSION, incrementBy, height, time + 20, start, o);
      o := o + [Tie(name, p.day(time), DIMENSION, time + 20)];
      Link(p.day(time), p.month(time), DIMENSION, incrementBy, height, time + 21, start, o);
      o := o + [Tie(p.day(time), p.month(time), DIMENSION, time + 21)];
      Link(p.month(time), p.year(time), DIMENSION, incrementBy, height, time + 22, start, o);
      o := o + [Tie(p.month(time), p.year(time), DIMENSION, time + 22)];
      Link(p.year(time), "0", DIMENSION, incrementBy, height, time + 23, start, o);
      o := o + [Tie(p.year(time), "0", DIMENSION, time + 23)];
      var ratingNode := "+" + p.decimal(p.rating(name));
      Link(name, ratingNode, DIMENSION, incrementBy, height, time + 30, start, o);
      o := o + [Tie(name, ratingNode, DIMENSION, time + 30)];
      Link(ratingNode, "0", DIMENSION, incrementBy, height, time + 31, start, o);
      o := o + [Tie(ratingNode, "0", DIMENSION, time + 31)];
      assert o == ops + (Temporal(p, name, time) + Rated(p, name, time));
    }

    /** The edges of node `i` of a place. */
    method IndexNode(name: string, nodes: seq<string>, locale: string, i: nat, time: int, incrementBy: int, height: int,
                     ghost start: G.Contents, ghost ops: seq<Op>)
      requires G.IsGraph(start) && cnGraph.Now() == ApplyAll(start, ops, incrementBy, height)
      requires G.Paddable(name) && AllPaddable(nodes) && G.Paddable(locale) && i < |nodes|
      modifies cnGraph
      ensures cnGraph.Now() == ApplyAll(start, ops + SpatialAt(name, nodes, locale, i, time), incrementBy, height)
    {
      hide G.IsGraph, ApplyAll, G.Paddable, NodeWeight;
      var nodeWeight := NodeWeight(|nodes|, 1);
      var j := i + 1;
      Link(name, nodes[i], nodeWeight, incrementBy, height, time + 40 + i, start, ops);
      ghost var first := [Tie(name, nodes[i], nodeWeight, time + 40 + i)];
      ghost var next, last: seq<Op> := [], [];
      assert ops + first + next == ops + first;
      if j < |nodes| {
        Link(nodes[i], nodes[j], NodeWeight(|nodes|, j), incrementBy, height, time + 40 + i + j, start, ops + first);
        next := [Tie(nodes[i], nodes[j], NodeWeight(|nodes|, j), time + 40 + i + j)];
      }
      assert ops + first + next + last == ops + first + next;
      if i == |nodes| - 1 {
        Link(nodes[i], locale, DIMENSION, incrementBy, height, time + 40 + i + (i + 1), start, ops + first + next);
        last := [Tie(nodes[i], locale, DIMENSION, time + 40 + i + (i + 1))];
      }
      assert SpatialAt(name, nodes, locale, i, time) == first + next + last;
      assert ops + first + next + last == ops + (first + next + last);
    }

    method IndexSpace(name: string, nodes: seq<string>, h: seq<string>, time: int, incrementBy: int, height: int,
                      ghost start: G.Contents, ghost ops: seq<Op>)
      requires G.IsGraph(start) && cnGraph.Now() == ApplyAll(start, ops, incrementBy, height)
      requires G.Paddable(name) && AllPaddable(nodes) && AllPaddable(h) && nodes != [] && h != []
      modifies cnGraph
      ensures cnGraph.Now() == ApplyAll(start, ops + Spatial(name, nodes, h[0], |nodes|, time), incrementBy, height)
    {
      hide G.IsGraph, ApplyAll, G.Paddable, SpatialAt;
      assert ops + [] == ops;
      for i := 0 to |nodes|
        invariant cnGraph.Now() == ApplyAll(start, ops + Spatial(name, nodes, h[0], i, time), incrementBy, height)
      {
        ghost var o := ops + Spatial(name, nodes, h[0], i, time);
        IndexNode(name, nodes, h[0], i, time, incrementBy, height, start, o);
        assert o + SpatialAt(name, nodes, h[0], i, time) == ops + Spatial(name, nodes, h[0], i + 1, time);
      }
    }

    method IndexHierarchy(h: seq<string>, time: int, incrementBy: int, height: int,
                          ghost start: G.Contents, ghost ops: seq<Op>)
      requires G.IsGraph(start) && cnGraph.Now() == ApplyAll(start, ops, incrementBy, height) && AllPaddable(h)
      modifies cnGraph
      ensures cnGraph.Now() == ApplyAll(start, ops + Hierarchy(h, |h|, time), incrementBy, height)
    {
      hide G.IsGraph, ApplyAll, G.Paddable;
      ZeroPads();
      assert ops + [] == ops;
      for i := 0 to |h|
        invariant cnGraph.Now() == ApplyAll(start, ops + Hierarchy(h, i, time), incrementBy, height)
      {
        ghost var o := ops + Hierarchy(h, i, time);
        var j := i + 1;
        if j < |h| {
          Link(h[i], h[j], DIMENSION, incrementBy, height, time + i, start, o);
        }
        if i == |h| - 1 {
          Link(h[i], "0", DIMENSION, incrementBy, height, time + i, start, o);
        }
        assert o + HierarchyAt(h, i, time) == ops + Hierarchy(h, i + 1, time);
      }
    }

    method IndexHeight(name: string, time: int, incrementBy: int, height: int, ghost start: G.Contents, ghost ops: seq<Op>)
      requires G.IsGraph(start) && cnGraph.Now() == ApplyAll(start, ops, incrementBy, height)
      requires Readable(p) && G.Paddable(name)
      modifies cnGraph
      ensures var orders := p.orders(height);
        cnGraph.Now() == ApplyAll(start, ops + Metric(p, name, height, orders, |orders|, time), incrementBy, height)
    {
      hide G.IsGraph, ApplyAll, Readable, G.Paddable;
      var orders := p.orders(height);
      ReadsNumber(p, height);
      Link(name, p.decimal(height), DIMENSION, incrementBy, height, time + 10, start, ops);
      var j := 1;
      while j < |orders|
        invariant 1 <= j && (j <= |orders| || (j == 1 && |orders| == 0))
        invariant var n := if j <= |orders| then j else 0;
          cnGraph.Now() == ApplyAll(start, ops + Metric(p, name, height, orders, n, time), incrementBy, height)
      {
        var i := j - 1;
        ghost var o := ops + Metric(p, name, height, orders, j, time);
        ReadsNumber(p, orders[i]);
        ReadsNumber(p, orders[j]);
        Link(p.decimal(orders[i]), p.decimal(orders[j]), DIMENSION, incrementBy, height, time + 10 + j, start, o);
        assert o + [Tie(p.decimal(orders[i]), p.decimal(orders[j]), DIMENSION, time + 10 + j)]
            == ops + Metric(p, name, height, orders, j + 1, time);
        j := j + 1;
      }
    }

    /** Both parties' imbalances. */
    method IndexParties(conBy: string, conFor: string, incrementBy: int, height: int,
                        ghost start: G.Contents, ghost ops: seq<Op>)
      requires G.IsGraph(start) && cnGraph.Now() == ApplyAll(start, ops, incrementBy, height)
      requires G.Paddable(conBy) && G.Paddable(conFor)
      modifies cnGraph
      ensures cnGraph.Now() == ApplyAll(start, ops + [Credit(conBy, -1), Credit(conFor, 1)], incrementBy, height)
    {
      hide G.IsGraph, ApplyAll, G.Credited, G.Paddable, G.Pad44;
      NamePads(conBy);
      NamePads(conFor);
      ApplyOne(start, ops, Credit(conBy, -1), incrementBy, height);
      var _ := cnGraph.SetImbalance(conBy, -incrementBy);
      ApplyOne(start, ops + [Credit(conBy, -1)], Credit(conFor, 1), incrementBy, height);
      var _ := cnGraph.SetImbalance(conFor, incrementBy);
      assert ops + [Credit(conBy, -1)] + [Credit(conFor, 1)] == ops + [Credit(conBy, -1), Credit(conFor, 1)];
    }

    /** The edge between the parties, of full weight. */
    method IndexTransfer(conBy: string, conFor: string, time: int, incrementBy: int, height: int,
                         ghost start: G.Contents, ghost ops: seq<Op>)
      requires G.IsGraph(start) && cnGraph.Now() == ApplyAll(start, ops, incrementBy, height)
      requires G.Paddable(conBy) && G.Paddable(conFor)
      modifies cnGraph
      ensures cnGraph.Now() == ApplyAll(start, ops + [Tie(conBy, conFor, 1.0, time), Group(conFor)], incrementBy, height)
    {
      hide G.IsGraph, ApplyAll, G.Linked, G.Grouped, G.Paddable, G.Pad44;
      NamePads(conFor);
      Link(conBy, conFor, 1.0, incrementBy, height, time, start, ops);
      ApplyOne(start, ops + [Tie(conBy, conFor, 1.0, time)], Group(conFor), incrementBy, height);
      var _ := cnGraph.SetGroup(conFor, 0);
      assert ops + [Tie(conBy, conFor, 1.0, time)] + [Group(conFor)] == ops + [Tie(conBy, conFor, 1.0, time), Group(conFor)];
    }

    /** The changes of one consideration. */
    method IndexOne(cn: Consideration, incrementBy: int, height: int, ghost start: G.Contents, ghost ops: seq<Op>)
      requires G.IsGraph(start) && cnGraph.Now() == ApplyAll(start, ops, incrementBy, height) && Readable(p)
      modifies cnGraph
      ensures cnGraph.Now() == ApplyAll(start, ops + OpsOf(p, cn, height), incrementBy, height)
    {
      hide G.IsGraph, ApplyAll, Located, G.Paddable, G.Pad44, Readable;
      ZeroPads();
      var conFor, conBy := p.keyName(cn.recipient), if cn.sender.None? then G.Pad44("0") else p.keyName(cn.sender.value);
      ReadsKey(p, cn.recipient);
      if cn.sender.Some? {
        ReadsKey(p, cn.sender.value);
      }
      IndexParties(conBy, conFor, incrementBy, height, start, ops);
      ghost var o := ops + [Credit(conBy, -1), Credit(conFor, 1)];
      var nodes := p.nodes(conFor);
      if nodes.None? && p.pseudonymous(conFor) {
        assert o == ops + OpsOf(p, cn, height);
        return;
      }
      IndexTransfer(conBy, conFor, cn.time, incrementBy, height, start, o);
      o := o + [Tie(conBy, conFor, 1.0, cn.time), Group(conFor)];
      IndexLocated(conFor, cn.time, incrementBy, height, start, o);
      assert o + Located(p, conFor, cn.time, height) == ops + OpsOf(p, cn, height);
    }

    /** If the key names a place, the four perspectives on it. */
    method IndexLocated(conFor: string, time: int, incrementBy: int, height: int, ghost start: G.Contents, ghost ops: seq<Op>)
      requires G.IsGraph(start) && cnGraph.Now() == ApplyAll(start, ops, incrementBy, height) && Readable(p)
      requires G.Paddable(conFor)
      modifies cnGraph
      ensures cnGraph.Now() == ApplyAll(start, ops + Located(p, conFor, time, height), incrementBy, height)
    {
      hide G.IsGraph, ApplyAll, Temporal, Rated, Spatial, Hierarchy, Metric, G.Paddable, Readable;
      ReadsPlace(p, conFor);
      assert ops + [] == ops;
      var nodes, locale := p.nodes(conFor), p.locale(conFor);
      if nodes.None? || locale.None? {
        return;
      }
      var reversedNodes, h := Reversed(nodes.value), locale.value;
      ghost var o := ops;
      IndexTime(conFor, time, incrementBy, height, start, o);
      o := o + (Temporal(p, conFor, time) + Rated(p, conFor, time));
      IndexSpace(conFor, reversedNodes, h, time, incrementBy, height, start, o);
      o := o + Spatial(conFor, reversedNodes, h[0], |reversedNodes|, time);
      IndexHierarchy(h, time + 40 + |reversedNodes|, incrementBy, height, start, o);
      o := o + Hierarchy(h, |h|, time + 40 + |reversedNodes|);
      IndexHeight(conFor, time, incrementBy, height, start, o);
      o := o + Metric(p, conFor, height, p.orders(height), |p.orders(height)|, time);
      assert o == ops + Located(p, conFor, time, height);
    }

    /** Index a connected count, or take a disconnected one out again. */
    method IndexConsiderations(count: Count, id: CountID, increment: bool)
      requires G.IsGraph(cnGraph.Now()) && Readable(p)
      modifies this, cnGraph
      ensures G.IsGraph(cnGraph.Now()) && latestCountID == id && latestHeight == count.header.height
      ensures cnGraph.Now() == ApplyAll(old(cnGraph.Now()), OpsOfCount(p, count), if increment then 1 else -1, count.header.height)
    {
      hide G.IsGraph, ApplyAll, OpsOf, Readable;
      latestCountID, latestHeight := id, count.header.height;
      var incrementBy := if increment then 1 else -1;
      ghost var start := cnGraph.Now();
      var cns, height := count.considerations, count.header.height;
      ApplyNone(start, incrementBy, height);
      for c := 0 to |cns|
        invariant cnGraph.Now() == ApplyAll(start, OpsOfFirst(p, cns, c, height), incrementBy, height)
        invariant latestCountID == id && latestHeight == height
      {
        IndexOne(cns[c], incrementBy, height, start, OpsOfFirst(p, cns, c, height));
      }
    }
  }

  lemma ZeroPads()
    ensures G.Paddable("0") && G.Pad44("0") == G.ROOT && G.Paddable(G.ROOT) && G.Pad44(G.ROOT) == G.ROOT
  {
  }

  lemma NamePads(name: string)
    requires G.Paddable(name)
    ensures Name(name) == G.Pad44(name)
  {
  }

  lemma ApplyNone(g: G.Contents, sign: int, height: int)
    requires G.IsGraph(g)
    ensures ApplyAll(g, [], sign, height) == g
  {
  }

  // ----- following the tip

  function CreditOfChain(p: Parsing, chain: Blocks, a: string): int
  {
    if chain == [] then 0 else CreditOfChain(p, Init(chain), a) + CreditOfAll(OpsOfCount(p, Last(chain).count), a)
  }

  function OutOfChain(p: Parsing, chain: Blocks, a: string): real
  {
    if chain == [] then 0.0 else OutOfChain(p, Init(chain), a) + OutOfAll(OpsOfCount(p, Last(chain).count), a)
  }

  function WeightOfChain(p: Parsing, chain: Blocks, a: string, b: string): real
  {
    if chain == [] then 0.0 else WeightOfChain(p, Init(chain), a, b) + WeightOfAll(OpsOfCount(p, Last(chain).count), a, b)
  }

  /** The graph says of every name exactly what the counts of the chain add up to. */
  ghost predicate Follows(p: Parsing, g: G.Contents, chain: Blocks)
  {
    && (forall a, b :: G.Weight(g, a, b) == WeightOfChain(p, chain, a, b))
    && (forall a :: G.Outbound(g, a) == OutOfChain(p, chain, a) && G.Imbalance(g, a) == CreditOfChain(p, chain, a))
  }

  datatype TipChange = TipChange(block: Block, connect: bool)

  function GraphAfter(p: Parsing, g: G.Contents, tip: TipChange): (r: G.Contents)
    requires G.IsGraph(g)
    ensures G.IsGraph(r)
  {
    ApplyAll(g, OpsOfCount(p, tip.block.count), if tip.connect then 1 else -1, tip.block.count.header.height)
  }

  function ChainAfter(chain: Blocks, tip: TipChange): Blocks
  {
    if tip.connect then chain + [tip.block] else if chain == [] then [] else Init(chain)
  }

  /** One tip change of the ledger, connecting on top of the tip or disconnecting it. */
  lemma FollowsTip(p: Parsing, g: G.Contents, chain: Blocks, tip: TipChange)
    requires G.IsGraph(g) && Follows(p, g, chain)
    requires !tip.connect ==> chain != [] && Last(chain) == tip.block
    ensures Follows(p, GraphAfter(p, g, tip), ChainAfter(chain, tip))
  {
    hide G.IsGraph, ApplyAll, G.Weight, G.Outbound, G.Imbalance, OpsOfCount, WeightOfAll, OutOfAll, CreditOfAll;
    var ops, sign, height := OpsOfCount(p, tip.block.count), if tip.connect then 1 else -1, tip.block.count.header.height;
    var after := ChainAfter(chain, tip);
    if tip.connect {
      assert Init(after) == chain && Last(after) == tip.block;
    }
    forall a, b ensures G.Weight(GraphAfter(p, g, tip), a, b) == WeightOfChain(p, after, a, b) {
      ApplyAllSays(g, ops, sign, height, a, b);
    }
    forall a
      ensures G.Outbound(GraphAfter(p, g, tip), a) == OutOfChain(p, after, a)
      ensures G.Imbalance(GraphAfter(p, g, tip), a) == CreditOfChain(p, after, a)
    {
      ApplyAllSays(g, ops, sign, height, a, a);
    }
  }

  /** The chain that a series of tip changes leaves. */
  function ChainAfterAll(tips: seq<TipChange>): Blocks
  {
    if tips == [] then [] else ChainAfter(ChainAfterAll(tips[..|tips| - 1]), tips[|tips| - 1])
  }

  /** Only the tip is ever disconnected. */
  predicate Orderly(tips: seq<TipChange>)
  {
    tips == [] ||
    (var below, tip := ChainAfterAll(tips[..|tips| - 1]), tips[|tips| - 1];
     Orderly(tips[..|tips| - 1]) && (tip.connect || (below != [] && Last(below) == tip.block)))
  }

  ghost function GraphAfterAll(p: Parsing, tips: seq<TipChange>): (r: G.Contents)
    ensures G.IsGraph(r)
  {
    if tips == [] then G.Contents(map[], map[], map[])
    else GraphAfter(p, GraphAfterAll(p, tips[..|tips| - 1]), tips[|tips| - 1])
  }

  /** After any series of tip changes the graph stands for the chain they leave. */
  lemma {:induction false} FollowsAll(p: Parsing, tips: seq<TipChange>)
    requires Orderly(tips)
    ensures Follows(p, GraphAfterAll(p, tips), ChainAfterAll(tips))
  {
    hide GraphAfter, ChainAfter, Follows;
    if tips == [] {
      FollowsNothing(p);
    } else {
      var before, tip := tips[..|tips| - 1], tips[|tips| - 1];
      FollowsAll(p, before);
      FollowsTip(p, GraphAfterAll(p, before), ChainAfterAll(before), tip);
    }
  }

  lemma FollowsNothing(p: Parsing)
    ensures Follows(p, G.Contents(map[], map[], map[]), [])
  {
  }

  // ----- imbalances

  predicate AllTies(ops: seq<Op>) { forall i :: 0 <= i < |ops| ==> ops[i].Tie? && ops[i].weight >= 0.0 }

  lemma {:induction false} SpatialTies(name: string, nodes: seq<string>, locale: string, n: nat, time: int)
    requires n <= |nodes|
    ensures AllTies(Spatial(name, nodes, locale, n, time))
  {
    hide NodeWeight;
    if n == 0 {
    } else {
      SpatialTies(name, nodes, locale, n - 1, time);
      assert AllTies(SpatialAt(name, nodes, locale, n - 1, time));
    }
  }

  lemma {:induction false} HierarchyTies(h: seq<string>, n: nat, time: int)
    requires n <= |h|
    ensures AllTies(Hierarchy(h, n, time))
  {
    if n == 0 {
    } else {
      HierarchyTies(h, n - 1, time);
    }
  }

  lemma {:induction false} MetricTies(p: Parsing, name: string, height: int, orders: seq<int>, n: nat, time: int)
    requires n <= |orders|
    ensures AllTies(Metric(p, name, height, orders, n, time))
  {
    if n == 0 {
    } else {
      MetricTies(p, name, height, orders, n - 1, time);
    }
  }

  lemma LocatedTies(p: Parsing, name: string, time: int, height: int)
    ensures AllTies(Located(p, name, time, height))
  {
    hide Spatial, Hierarchy, Metric;
    if p.nodes(name).Some? && p.locale(name).Some? && p.locale(name).value != [] {
      var nodes, h, orders := Reversed(p.nodes(name).value), p.locale(name).value, p.orders(height);
      SpatialTies(name, nodes, h[0], |nodes|, time);
      HierarchyTies(h, |h|, time + 40 + |nodes|);
      MetricTies(p, name, height, orders, |orders|, time);
    }
  }

  lemma {:induction false} ConcatSays(x: seq<Op>, y: seq<Op>, a: string)
    ensures CreditOfAll(x + y, a) == CreditOfAll(x, a) + CreditOfAll(y, a)
    ensures OutOfAll(x + y, a) == OutOfAll(x, a) + OutOfAll(y, a)
  {
    hide CreditOf, OutOf;
    if y == [] {
      assert x + y == x;
    } else {
      assert (x + y)[..|x + y| - 1] == x + y[..|y| - 1];
      ConcatSays(x, y[..|y| - 1], a);
    }
  }

  lemma {:induction false} TiesSay(ops: seq<Op>, a: string)
    requires AllTies(ops)
    ensures CreditOfAll(ops, a) == 0 && OutOfAll(ops, a) >= 0.0
  {
    hide Name;
    if ops == [] {
    } else {
      TiesSay(ops[..|ops| - 1], a);
    }
  }

  function Is(a: string, b: string): int { if a == b then 1 else 0 }

  /** A consideration credits its recipient with one and debits its sender with one, and adds no negative weight. */
  lemma OpsSay(p: Parsing, cn: Consideration, height: int, a: string)
    ensures CreditOfAll(OpsOf(p, cn, height), a) == Is(Name(ForName(p, cn)), a) - Is(Name(ByName(p, cn)), a)
    ensures OutOfAll(OpsOf(p, cn, height), a) >= 0.0
  {
    hide Name, Located, CreditOfAll, OutOfAll;
    var byName, forName := ByName(p, cn), ForName(p, cn);
    var parties := [Credit(byName, -1), Credit(forName, 1)];
    var ties := [Tie(byName, forName, 1.0, cn.time), Group(forName)];
    TwoSay(parties[0], parties[1], a);
    TwoSay(ties[0], ties[1], a);
    ConcatSays(parties, ties + Located(p, forName, cn.time, height), a);
    ConcatSays(ties, Located(p, forName, cn.time, height), a);
    LocatedTies(p, forName, cn.time, height);
    TiesSay(Located(p, forName, cn.time, height), a);
    assert parties + [] == parties;
  }

  lemma TwoSay(x: Op, y: Op, a: string)
    ensures CreditOfAll([x, y], a) == CreditOf(x, a) + CreditOf(y, a)
    ensures OutOfAll([x, y], a) == OutOf(x, a) + OutOf(y, a)
  {
    ConcatSays([x], [y], a);
    assert [x, y] == [x] + [y] && [x][..0] == [] && [y][..0] == [];
  }

  /** Keys of the size checkConsideration demands have different names, none of them shorter than a key. */
  ghost predicate NamesKeys(p: Parsing)
  {
    forall k: PublicKey, l: PublicKey {:trigger p.keyName(k), p.keyName(l)} ::
      |k.bytes| == PUBLIC_KEY_SIZE && |l.bytes| == PUBLIC_KEY_SIZE ==>
      |p.keyName(k)| == G.KEY_LENGTH && (p.keyName(k) == p.keyName(l) ==> k == l)
  }

  predicate Sized(cn: Consideration)
  {
    |cn.recipient.bytes| == PUBLIC_KEY_SIZE && (cn.sender.Some? ==> |cn.sender.value.bytes| == PUBLIC_KEY_SIZE)
  }

  predicate AllSized(chain: Blocks)
  {
    forall h, i :: 0 <= h < |chain| && 0 <= i < |chain[h].count.considerations| ==> Sized(chain[h].count.considerations[i])
  }

  /** For a key that is not the root's, what the graph is credited is what the ledger would move. */
  lemma CreditIsDelta(p: Parsing, cn: Consideration, height: int, k: PublicKey)
    requires NamesKeys(p) && Sized(cn) && |k.bytes| == PUBLIC_KEY_SIZE && p.keyName(k) != G.ROOT
    ensures CreditOfAll(OpsOf(p, cn, height), p.keyName(k)) == Delta(cn, k)
  {
    hide CreditOfAll, OpsOf;
    OpsSay(p, cn, height, p.keyName(k));
    assert |p.keyName(k)| == G.KEY_LENGTH && |p.keyName(cn.recipient)| == G.KEY_LENGTH;
    ZeroPads();
    if cn.sender.Some? {
      assert |p.keyName(cn.sender.value)| == G.KEY_LENGTH;
    }
  }

  lemma {:induction false} CreditOfFirst(p: Parsing, cns: seq<Consideration>, n: nat, height: int, k: PublicKey)
    requires NamesKeys(p) && |k.bytes| == PUBLIC_KEY_SIZE && p.keyName(k) != G.ROOT && n <= |cns|
    requires forall i :: 0 <= i < |cns| ==> Sized(cns[i])
    ensures CreditOfAll(OpsOfFirst(p, cns, n, height), p.keyName(k)) == DeltaAll(cns[..n], k)
  {
    hide CreditOfAll, OpsOf, Delta, NamesKeys;
    if n > 0 {
      CreditOfFirst(p, cns, n - 1, height, k);
      CreditIsDelta(p, cns[n - 1], height, k);
      ConcatSays(OpsOfFirst(p, cns, n - 1, height), OpsOf(p, cns[n - 1], height), p.keyName(k));
      assert cns[..n][..n - 1] == cns[..n - 1];
    } else {
      NoCredit(p.keyName(k));
    }
  }

  lemma NoCredit(a: string)
    ensures CreditOfAll([], a) == 0 && OutOfAll([], a) == 0.0
  {
  }

  /** The counterpoints among the lowest `n` counts that a chain of `length` counts has not matured. */
  function Immature(chain: Blocks, length: nat, n: nat, k: PublicKey): int
    requires AllWellFormed(chain) && n <= |chain|
  {
    if n == 0 then 0 else
      Immature(chain, length, n - 1, k)
      + (if n + COUNTERPOINT_MATURITY <= length then 0 else Delta(chain[n - 1].count.considerations[0], k))
  }

  lemma {:induction false} CreditIsHistory(p: Parsing, chain: Blocks, n: nat, k: PublicKey)
    requires NamesKeys(p) && AllWellFormed(chain) && AllSized(chain) && n <= |chain|
    requires |k.bytes| == PUBLIC_KEY_SIZE && p.keyName(k) != G.ROOT
    ensures CreditOfChain(p, chain[..n], p.keyName(k)) == Upto(chain, |chain|, n, k) + Immature(chain, |chain|, n, k)
  {
    hide CreditOfAll, NamesKeys, Delta, AllSized, AllWellFormed;
    if n == 0 {
    } else {
      CreditIsHistory(p, chain, n - 1, k);
      var count := chain[n - 1].count;
      assert Init(chain[..n]) == chain[..n - 1] && Last(chain[..n]) == chain[n - 1];
      SizedAt(chain, n - 1);
      CreditOfFirst(p, count.considerations, |count.considerations|, count.header.height, k);
      WholeDelta(count, k);
    }
  }

  lemma SizedAt(chain: Blocks, h: nat)
    requires AllSized(chain) && AllWellFormed(chain) && h < |chain|
    ensures WellFormed(chain[h].count)
    ensures forall i :: 0 <= i < |chain[h].count.considerations| ==> Sized(chain[h].count.considerations[i])
  {
  }

  lemma WholeDelta(count: Count, k: PublicKey)
    requires WellFormed(count)
    ensures var cns := count.considerations;
      cns[..|cns|] == cns && DeltaAll(cns, k) == Delta(cns[0], k) + DeltaAll(cns[1..], k)
    ensures CountDelta(count, true, k) == DeltaAll(count.considerations, k)
    ensures CountDelta(count, false, k) == DeltaAll(count.considerations[1..], k)
  {
    var cns := count.considerations;
    assert cns == [cns[0]] + cns[1..];
    DeltaAllConcat([cns[0]], cns[1..], k);
    assert DeltaAll([cns[0]], k) == DeltaAll([cns[0]][..0], k) + Delta(cns[0], k);
  }

  /** A key's graph imbalance is its ledger balance plus its counterpoints that are still to mature. */
  lemma {:induction false} ImbalanceIsBalance(p: Parsing, g: G.Contents, chain: Blocks, k: PublicKey)
    requires NamesKeys(p) && AllWellFormed(chain) && AllSized(chain) && Follows(p, g, chain)
    requires |k.bytes| == PUBLIC_KEY_SIZE && p.keyName(k) != G.ROOT
    ensures G.Imbalance(g, p.keyName(k)) == Get(BalancesOf(chain), k) + Immature(chain, |chain|, |chain|, k)
  {
    hide NamesKeys, AllSized, AllWellFormed, CreditOfChain, BalancesOf, Upto, Immature, G.Imbalance;
    CreditIsHistory(p, chain, |chain|, k);
    assert chain[..|chain|] == chain;
    BalanceIsHistory(chain, k);
  }

  // ----- nothing negative goes out

  lemma {:induction false} OutOfFirst(p: Parsing, cns: seq<Consideration>, n: nat, height: int, a: string)
    requires n <= |cns|
    ensures OutOfAll(OpsOfFirst(p, cns, n, height), a) >= 0.0
  {
    hide OutOfAll, OpsOf;
    if n > 0 {
      OutOfFirst(p, cns, n - 1, height, a);
      OpsSay(p, cns[n - 1], height, a);
      ConcatSays(OpsOfFirst(p, cns, n - 1, height), OpsOf(p, cns[n - 1], height), a);
    } else {
      NoCredit(a);
    }
  }

  lemma {:induction false} OutOfChainSays(p: Parsing, chain: Blocks, a: string)
    ensures OutOfChain(p, chain, a) >= 0.0
  {
    hide OutOfAll;
    if chain == [] {
    } else {
      OutOfChainSays(p, Init(chain), a);
      var count := Last(chain).count;
      OutOfFirst(p, count.considerations, |count.considerations|, count.header.height, a);
    }
  }

  /** A graph that follows the ledger has no negative outbound total, so its rank passes conserve mass. */
  lemma FollowedIsNonNegative(p: Parsing, g: G.Contents, chain: Blocks)
    requires G.IsGraph(g) && Follows(p, g, chain)
    ensures forall i :: i in g.nodes ==> g.nodes[i].outbound >= 0.0
  {
    hide OutOfChain, WeightOfChain, CreditOfChain;
    forall i | i in g.nodes ensures g.nodes[i].outbound >= 0.0 {
      assert G.Numbered(g, i);
      OutOfChainSays(p, chain, g.nodes[i].pubkey);
      assert G.Outbound(g, g.nodes[i].pubkey) == g.nodes[i].outbound;
    }
  }

  // ----- the root

  lemma ApplyKeepsIndex(g: G.Contents, op: Op, sign: int, height: int, name: string)
    requires G.IsGraph(g) && name in g.index
    ensures name in Apply(g, op, sign, height).index && Apply(g, op, sign, height).index[name] == g.index[name]
  {
    hide G.IsGraph;
  }

  lemma {:induction false} FirstIsNodeZero(g: G.Contents, ops: seq<Op>, sign: int, height: int)
    requires G.IsGraph(g) && g.index == map[] && ops != [] && ops[0].Credit?
    ensures var name := Name(ops[0].name);
      name in ApplyAll(g, ops, sign, height).index && ApplyAll(g, ops, sign, height).index[name] == 0
  {
    hide G.IsGraph, Name, Apply;
    if |ops| == 1 {
      ApplyOne(g, [], ops[0], sign, height);
      assert [] + [ops[0]] == ops;
      CreditFirst(g, ops[0], sign, height);
    } else {
      var rest := ops[..|ops| - 1];
      FirstIsNodeZero(g, rest, sign, height);
      ApplyKeepsIndex(ApplyAll(g, rest, sign, height), ops[|ops| - 1], sign, height, Name(ops[0].name));
    }
  }

  lemma CreditFirst(g: G.Contents, op: Op, sign: int, height: int)
    requires G.IsGraph(g) && g.index == map[] && op.Credit?
    ensures Name(op.name) in Apply(g, op, sign, height).index && Apply(g, op, sign, height).index[Name(op.name)] == 0
  {
    hide G.IsGraph, Name;
  }

  lemma {:induction false} OpsStart(p: Parsing, cns: seq<Consideration>, n: nat, height: int)
    requires 0 < n <= |cns|
    ensures OpsOfFirst(p, cns, n, height) != [] && OpsOfFirst(p, cns, n, height)[0] == Credit(ByName(p, cns[0]), -1)
  {
    hide Located;
    if n <= 1 {
    } else {
      OpsStart(p, cns, n - 1, height);
    }
  }

  /** The first count indexed makes the sender of all counterpoints node 0, which the descent check skips. */
  lemma RootIsNodeZero(p: Parsing, count: Count)
    requires WellFormed(count)
    ensures var r := ApplyAll(G.Contents(map[], map[], map[]), OpsOfCount(p, count), 1, count.header.height);
      G.ROOT in r.index && r.index[G.ROOT] == 0
  {
    hide ApplyAll, G.IsGraph;
    OpsStart(p, count.considerations, |count.considerations|, count.header.height);
    ZeroPads();
    EmptyIsGraph();
    FirstIsNodeZero(G.Contents(map[], map[], map[]), OpsOfCount(p, count), 1, count.header.height);
  }

  lemma EmptyIsGraph()
    ensures G.IsGraph(G.Contents(map[], map[], map[]))
  {
  }
}
