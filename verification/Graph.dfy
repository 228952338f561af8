/** The weighted directed graph of keys, and the descent check on it. */
module Graph {
  import opened Sums

  datatype Node = Node(pubkey: string, ranking: real, outbound: real, imbalance: int, group: nat)

  datatype Edge = Edge(weight: real, height: int, time: int)

  type Edges = map<nat, map<nat, Edge>>

  /** The contents of a graph: node 0 is the root, the first key ever indexed. */
  datatype Contents = Contents(index: map<string, nat>, nodes: map<nat, Node>, edges: Edges)

  // ----- names

  const KEY_LENGTH: nat := 44

  function Zeros(n: nat): string { seq(n, i => '0') }

  /** The padding is negative, and the code panics, for exactly the names this excludes. */
  predicate Paddable(input: string) { |input| != KEY_LENGTH - 1 || input == "0" || '/' in input }

  /** Pad a short name to the form of a Base64 key. */
  function Pad44(input: string): (name: string)
    requires Paddable(input)
    ensures |input| >= KEY_LENGTH ==> name == input
    ensures |input| < KEY_LENGTH ==> |name| == KEY_LENGTH && name[KEY_LENGTH - 1] == '='
  {
    if |input| >= KEY_LENGTH then input else
      var reInput := if input != "0" && '/' !in input then input + "/" else input;
      reInput + Zeros(KEY_LENGTH - |reInput| - 1) + "="
  }

  /** The count of zeros the code asks for is negative for no other name. */
  lemma PaddableIff(input: string)
    ensures var reInput := if input != "0" && '/' !in input then input + "/" else input;
      Paddable(input) <==> |input| >= KEY_LENGTH || KEY_LENGTH - |reInput| - 1 >= 0
  {
  }

  /** Short names without a slash are kept apart by the padding. */
  lemma PadsApart(a: string, b: string)
    requires '/' !in a && '/' !in b && |a| < KEY_LENGTH && |b| < KEY_LENGTH && Paddable(a) && Paddable(b) && a != b
    ensures Pad44(a) != Pad44(b)
  {
    var x, y := Pad44(a), Pad44(b);
    if a != "0" {
      assert x[|a|] == '/' && x[..|a|] == a;
    }
    if b != "0" {
      assert y[|b|] == '/' && y[..|b|] == b;
    }
    if a == "0" || b == "0" {
      assert forall i :: 0 <= i < |Pad44("0")| ==> Pad44("0")[i] != '/';
    } else if |a| < |b| {
      assert y[..|b|][|a|] == b[|a|] != '/';
    } else if |b| < |a| {
      assert x[..|a|][|b|] == a[|b|] != '/';
    } else {
      assert x == y ==> a == b;
    }
  }

  /** A full plus code of 43 characters, as the text of a key without its final padding can be. */
  const PLUS_CODE: string := "8FVC9G8F+" + "222222222222222222222222222222222" + "4"

  /** It is a name the code cannot pad. */
  lemma PlusCodePanics()
    ensures |PLUS_CODE| == KEY_LENGTH - 1 && !Paddable(PLUS_CODE)
  {
    assert '/' !in PLUS_CODE;
  }

  const ROOT: string := "0" + Zeros(KEY_LENGTH - 2) + "="

  // ----- adding nodes and edges

  /** A name keeps its index; a new name gets the next one. */
  function Touched(g: Contents, name: string): Contents
  {
    if name in g.index then g else
      var i := |g.index|;
      Contents(g.index[name := i], g.nodes[i := Node(name, 0.0, 0.0, 0, 0)], g.edges)
  }

  function Successors(edges: Edges, s: nat): map<nat, Edge> { if s in edges then edges[s] else map[] }

  function WeightOf(edges: Edges, s: nat, t: nat): real
  {
    if t in Successors(edges, s) then Successors(edges, s)[t].weight else 0.0
  }

  function OutSum(edges: Edges, s: nat): (f: nat -> real) { (t: nat) => WeightOf(edges, s, t) }

  ghost predicate Named(g: Contents, k: string)
    requires k in g.index
  {
    g.index[k] in g.nodes && g.nodes[g.index[k]].pubkey == k
  }

  ghost predicate Numbered(g: Contents, i: nat)
    requires i in g.nodes
  {
    i < |g.index| && g.nodes[i].pubkey in g.index && g.index[g.nodes[i].pubkey] == i
  }

  ghost predicate Indexed(g: Contents)
  {
    && (forall k {:trigger Named(g, k)} :: k in g.index ==> Named(g, k))
    && (forall i {:trigger Numbered(g, i)} :: i in g.nodes ==> Numbered(g, i))
  }

  ghost predicate Joined(g: Contents)
  {
    && (forall s :: s in g.edges ==> s in g.nodes)
    && (forall s, t :: s in g.edges && t in g.edges[s] ==> t in g.nodes)
  }

  /** Outbound is the sum of the weights of the outgoing edges. */
  ghost predicate Balanced(g: Contents, s: nat)
    requires s in g.nodes
  {
    g.nodes[s].outbound == Sum(Successors(g.edges, s).Keys, OutSum(g.edges, s))
  }

  ghost predicate IsGraph(g: Contents)
  {
    Indexed(g) && Joined(g) && forall s {:trigger Balanced(g, s)} :: s in g.nodes ==> Balanced(g, s)
  }

  // ----- what a graph says about names

  predicate HasEdge(g: Contents, a: string, b: string)
  {
    a in g.index && b in g.index && g.index[b] in Successors(g.edges, g.index[a])
  }

  function Weight(g: Contents, a: string, b: string): real
  {
    if a in g.index && b in g.index then WeightOf(g.edges, g.index[a], g.index[b]) else 0.0
  }

  function Outbound(g: Contents, a: string): real
  {
    if a in g.index && g.index[a] in g.nodes then g.nodes[g.index[a]].outbound else 0.0
  }

  function Imbalance(g: Contents, a: string): int
  {
    if a in g.index && g.index[a] in g.nodes then g.nodes[g.index[a]].imbalance else 0
  }

  /** Indexing a name. */
  lemma TouchedIsGraph(g: Contents, name: string)
    requires IsGraph(g)
    ensures IsGraph(Touched(g, name)) && name in Touched(g, name).index
  {
    var r, i := Touched(g, name), |g.index|;
    if name !in g.index {
      assert i in g.nodes ==> Numbered(g, i);
      assert |r.index| == i + 1;
      forall k | k in r.index ensures Named(r, k) {
        assert k != name ==> Named(g, k);
      }
      forall j | j in r.nodes ensures Numbered(r, j) {
        assert j != i ==> Numbered(g, j);
      }
      forall s | s in r.nodes ensures Balanced(r, s) {
        if s == i {
          SumZero({}, OutSum(r.edges, s));
        } else {
          assert Balanced(g, s);
        }
      }
    }
  }

  /** Indexing a name changes nothing a graph says. */
  lemma TouchedSays(g: Contents, name: string, a: string, b: string)
    requires IsGraph(g)
    ensures Weight(Touched(g, name), a, b) == Weight(g, a, b) && (HasEdge(Touched(g, name), a, b) <==> HasEdge(g, a, b))
    ensures Outbound(Touched(g, name), a) == Outbound(g, a) && Imbalance(Touched(g, name), a) == Imbalance(g, a)
  {
    var i := |g.index|;
    assert i in g.nodes ==> Numbered(g, i);
    assert a in g.index ==> Named(g, a);
    assert b in g.index ==> Named(g, b);
  }

  function WithImbalance(g: Contents, name: string, value: int): Contents
    requires name in g.index && g.index[name] in g.nodes
  {
    var i := g.index[name];
    g.(nodes := g.nodes[i := g.nodes[i].(imbalance := g.nodes[i].imbalance + value)])
  }

  function WithWeight(g: Contents, source: string, target: string, weight: real, height: int, time: int): Contents
    requires source in g.index && target in g.index && g.index[source] in g.nodes
  {
    var s, t := g.index[source], g.index[target];
    var out := Successors(g.edges, s);
    g.(edges := g.edges[s := out[t := Edge(WeightOf(g.edges, s, t) + weight, height, time)]],
       nodes := g.nodes[s := g.nodes[s].(outbound := g.nodes[s].outbound + weight)])
  }

  lemma WithImbalanceIsGraph(g: Contents, name: string, value: int)
    requires IsGraph(g) && name in g.index && g.index[name] in g.nodes
    ensures IsGraph(WithImbalance(g, name, value))
  {
    var r := WithImbalance(g, name, value);
    forall k | k in r.index ensures Named(r, k) {
      assert Named(g, k);
    }
    forall j | j in r.nodes ensures Numbered(r, j) && Balanced(r, j) {
      assert Numbered(g, j) && Balanced(g, j);
    }
  }

  lemma SameNode(g: Contents, a: string, b: string)
    requires IsGraph(g) && a in g.index && b in g.index && g.index[a] == g.index[b]
    ensures a == b
  {
    assert Named(g, a) && Named(g, b);
  }

  lemma WithImbalanceSays(g: Contents, name: string, value: int, a: string)
    requires IsGraph(g) && name in g.index && g.index[name] in g.nodes
    ensures Outbound(WithImbalance(g, name, value), a) == Outbound(g, a)
    ensures Imbalance(WithImbalance(g, name, value), a) == Imbalance(g, a) + (if a == name then value else 0)
  {
    if a in g.index && g.index[a] == g.index[name] {
      SameNode(g, a, name);
    }
  }

  lemma WithWeightSays(g: Contents, source: string, target: string, weight: real, height: int, time: int, a: string, b: string)
    requires IsGraph(g) && source in g.index && target in g.index && g.index[source] in g.nodes
    ensures var r := WithWeight(g, source, target, weight, height, time);
      && Weight(r, a, b) == Weight(g, a, b) + (if a == source && b == target then weight else 0.0)
      && (HasEdge(r, a, b) <==> HasEdge(g, a, b) || (a == source && b == target))
      && Outbound(r, a) == Outbound(g, a) + (if a == source then weight else 0.0)
      && Imbalance(r, a) == Imbalance(g, a)
  {
    hide IsGraph;
    if a in g.index && g.index[a] == g.index[source] {
      SameNode(g, a, source);
    }
    if b in g.index && g.index[b] == g.index[target] {
      SameNode(g, b, target);
    }
  }

  /** Adding a weight to one edge adds it to its source's outbound total. */
  lemma WithWeightBalances(g: Contents, source: string, target: string, weight: real, height: int, time: int)
    requires IsGraph(g) && source in g.index && target in g.index && g.index[source] in g.nodes
    ensures Balanced(WithWeight(g, source, target, weight, height, time), g.index[source])
  {
    hide Indexed, Joined;
    var r, s, t := WithWeight(g, source, target, weight, height, time), g.index[source], g.index[target];
    assert Balanced(g, s);
    var out := Successors(g.edges, s).Keys;
    assert r.edges[s].Keys == out + {t};
    SumRemove(out + {t}, OutSum(r.edges, s), t);
    SumSame(out - {t}, OutSum(r.edges, s), OutSum(g.edges, s));
    assert out + {t} - {t} == out - {t};
    if t in out {
      SumRemove(out, OutSum(g.edges, s), t);
    } else {
      assert out - {t} == out;
    }
  }

  lemma WithWeightIsGraph(g: Contents, source: string, target: string, weight: real, height: int, time: int)
    requires IsGraph(g) && source in g.index && target in g.index && g.index[source] in g.nodes
    ensures IsGraph(WithWeight(g, source, target, weight, height, time))
  {
    var r := WithWeight(g, source, target, weight, height, time);
    forall k | k in r.index ensures Named(r, k) {
      assert Named(g, k);
    }
    forall j | j in r.nodes ensures Numbered(r, j) && Balanced(r, j) {
      assert Numbered(g, j) && Balanced(g, j);
      if j == g.index[source] {
        WithWeightBalances(g, source, target, weight, height, time);
      } else {
        SumSame(Successors(r.edges, j).Keys, OutSum(r.edges, j), OutSum(g.edges, j));
      }
    }
    assert Named(g, target);
  }

  function WithGroup(g: Contents, name: string, value: nat): Contents
    requires name in g.index && g.index[name] in g.nodes
  {
    var i := g.index[name];
    g.(nodes := g.nodes[i := g.nodes[i].(group := value)])
  }

  lemma WithGroupSays(g: Contents, name: string, value: nat)
    requires IsGraph(g) && name in g.index && g.index[name] in g.nodes
    ensures IsGraph(WithGroup(g, name, value))
  {
    var r := WithGroup(g, name, value);
    forall k | k in r.index ensures Named(r, k) {
      assert Named(g, k);
    }
    forall j | j in r.nodes ensures Numbered(r, j) && Balanced(r, j) {
      assert Numbered(g, j) && Balanced(g, j);
    }
  }

  /** What SetGroup leaves: the group is the only thing said of the name that changes. */
  function Grouped(g: Contents, name: string, value: nat): (r: Contents)
    requires IsGraph(g)
    ensures IsGraph(r)
  {
    TouchedIsGraph(g, name);
    var t := Touched(g, name);
    assert Named(t, name);
    WithGroupSays(t, name, value);
    WithGroup(t, name, value)
  }

  lemma GroupedSays(g: Contents, name: string, value: nat, a: string, b: string)
    requires IsGraph(g)
    ensures var r := Grouped(g, name, value);
      && Weight(r, a, b) == Weight(g, a, b) && (HasEdge(r, a, b) <==> HasEdge(g, a, b))
      && Outbound(r, a) == Outbound(g, a) && Imbalance(r, a) == Imbalance(g, a)
  {
    hide Outbound, Imbalance, Weight, HasEdge, IsGraph;
    TouchedIsGraph(g, name);
    IndexInNodes(Touched(g, name), name);
    TouchedSays(g, name, a, b);
    WithGroupEffect(Touched(g, name), name, value, a, b);
  }

  lemma WithGroupEffect(g: Contents, name: string, value: nat, a: string, b: string)
    requires name in g.index && g.index[name] in g.nodes
    ensures var r := WithGroup(g, name, value);
      && Weight(r, a, b) == Weight(g, a, b) && (HasEdge(r, a, b) <==> HasEdge(g, a, b))
      && Outbound(r, a) == Outbound(g, a) && Imbalance(r, a) == Imbalance(g, a)
  {
  }

  /** What Link leaves: both names indexed, and the weight added to the one edge. */
  function Linked(g: Contents, source: string, target: string, weight: real, height: int, time: int): (r: Contents)
    requires IsGraph(g)
    ensures IsGraph(r)
  {
    TouchedIsGraph(g, source);
    TouchedIsGraph(Touched(g, source), target);
    var both := Touched(Touched(g, source), target);
    TouchedKeeps(Touched(g, source), target, source);
    assert Named(both, source);
    WithWeightIsGraph(both, source, target, weight, height, time);
    WithWeight(both, source, target, weight, height, time)
  }

  lemma TouchedKeeps(g: Contents, name: string, k: string)
    requires k in g.index
    ensures k in Touched(g, name).index && Touched(g, name).index[k] == g.index[k]
  {
  }

  lemma LinkedSays(g: Contents, source: string, target: string, weight: real, height: int, time: int, a: string, b: string)
    requires IsGraph(g)
    ensures var r := Linked(g, source, target, weight, height, time);
      && Weight(r, a, b) == Weight(g, a, b) + (if a == source && b == target then weight else 0.0)
      && (HasEdge(r, a, b) <==> HasEdge(g, a, b) || (a == source && b == target))
      && Outbound(r, a) == Outbound(g, a) + (if a == source then weight else 0.0)
      && Imbalance(r, a) == Imbalance(g, a)
  {
    hide IsGraph, Touched, WithWeight, Weight, HasEdge, Outbound, Imbalance;
    TouchedIsGraph(g, source);
    TouchedIsGraph(Touched(g, source), target);
    var both := Touched(Touched(g, source), target);
    TouchedKeeps(Touched(g, source), target, source);
    IndexInNodes(both, source);
    TouchedSays(g, source, a, b);
    TouchedSays(Touched(g, source), target, a, b);
    WithWeightSays(both, source, target, weight, height, time, a, b);
  }

  lemma IndexInNodes(g: Contents, name: string)
    requires IsGraph(g) && name in g.index
    ensures g.index[name] in g.nodes
  {
    assert Named(g, name);
  }

  /** What SetImbalance leaves. */
  function Credited(g: Contents, name: string, value: int): (r: Contents)
    requires IsGraph(g)
    ensures IsGraph(r)
  {
    TouchedIsGraph(g, name);
    var t := Touched(g, name);
    assert Named(t, name);
    WithImbalanceIsGraph(t, name, value);
    WithImbalance(t, name, value)
  }

  lemma CreditedSays(g: Contents, name: string, value: int, a: string, b: string)
    requires IsGraph(g)
    ensures var r := Credited(g, name, value);
      && Weight(r, a, b) == Weight(g, a, b) && (HasEdge(r, a, b) <==> HasEdge(g, a, b))
      && Outbound(r, a) == Outbound(g, a)
      && Imbalance(r, a) == Imbalance(g, a) + (if a == name then value else 0)
  {
    TouchedIsGraph(g, name);
    IndexInNodes(Touched(g, name), name);
    TouchedSays(g, name, a, b);
    WithImbalanceSays(Touched(g, name), name, value, a);
  }

  // ----- paths that avoid the root

  predicate Steps(edges: Edges, a: nat, b: nat) { b != 0 && b in Successors(edges, a) }

  ghost predicate IsPath(edges: Edges, p: seq<nat>)
  {
    p != [] && (|p| > 1 ==> Steps(edges, p[0], p[1]) && IsPath(edges, p[1..]))
  }

  ghost predicate Reaches(edges: Edges, a: nat, b: nat)
  {
    exists p :: IsPath(edges, p) && p[0] == a && p[|p| - 1] == b
  }

  lemma ReachesSelf(edges: Edges, a: nat)
    ensures Reaches(edges, a, a)
  {
    var p := [a];
    assert IsPath(edges, p) && p[0] == a && p[|p| - 1] == a;
  }

  lemma ReachesStep(edges: Edges, a: nat, b: nat, c: nat)
    requires Steps(edges, a, b) && Reaches(edges, b, c)
    ensures Reaches(edges, a, c)
  {
    var p :| IsPath(edges, p) && p[0] == b && p[|p| - 1] == c;
    var q := [a] + p;
    assert q[1..] == p;
    assert IsPath(edges, q) && q[0] == a && q[|q| - 1] == c;
  }

  lemma ReachesThen(edges: Edges, a: nat, b: nat, c: nat)
    requires Reaches(edges, a, b) && Reaches(edges, b, c)
    ensures Reaches(edges, a, c)
  {
    var p :| IsPath(edges, p) && p[0] == a && p[|p| - 1] == b;
    ReachesAlong(edges, p, c);
  }

  lemma {:induction false} ReachesAlong(edges: Edges, p: seq<nat>, c: nat)
    requires IsPath(edges, p) && Reaches(edges, p[|p| - 1], c)
    ensures Reaches(edges, p[0], c)
    decreases |p|
  {
    if |p| <= 1 {
    } else {
      ReachesAlong(edges, p[1..], c);
      ReachesStep(edges, p[0], p[1], c);
    }
  }

  /** From a set closed under steps no path leads out. */
  lemma {:induction false} ClosedKeepsIn(edges: Edges, closed: set<nat>, p: seq<nat>)
    requires IsPath(edges, p) && p[0] in closed
    requires forall x, y :: x in closed && Steps(edges, x, y) ==> y in closed
    ensures p[|p| - 1] in closed
    decreases |p|
  {
    if |p| <= 1 {
    } else {
      ClosedKeepsIn(edges, closed, p[1..]);
    }
  }

  // ----- the descent check

  /** Both names are indexed, neither is the root, and a path avoiding the root leads down. */
  ghost predicate Descends(g: Contents, parent: string, descendant: string)
  {
    && parent in g.index && descendant in g.index && g.index[parent] != 0 && g.index[descendant] != 0
    && Reaches(g.edges, g.index[parent], g.index[descendant])
  }

  /** No edge lies on a cycle that avoids the root. */
  ghost predicate Acyclic(edges: Edges)
  {
    forall a, b :: a != 0 && Steps(edges, a, b) ==> !Reaches(edges, b, a)
  }

  ghost predicate AddsEdge(edges: Edges, more: Edges, s: nat, t: nat)
  {
    forall a, b :: Steps(more, a, b) <==> Steps(edges, a, b) || (a == s && b == t && t != 0)
  }

  lemma {:induction false} ReachesMore(edges: Edges, more: Edges, p: seq<nat>)
    requires (forall a, b :: Steps(edges, a, b) ==> Steps(more, a, b)) && IsPath(edges, p)
    ensures Reaches(more, p[0], p[|p| - 1])
    decreases |p|
  {
    if |p| > 1 {
      ReachesMore(edges, more, p[1..]);
      ReachesStep(more, p[0], p[1], p[|p| - 1]);
    } else {
      ReachesSelf(more, p[0]);
    }
  }

  /** A path through a new edge was a path before, or reached its source and went on from its target. */
  lemma {:induction false} ReachesSplit(edges: Edges, more: Edges, s: nat, t: nat, p: seq<nat>)
    requires AddsEdge(edges, more, s, t) && IsPath(more, p)
    ensures Reaches(edges, p[0], p[|p| - 1]) || (Reaches(edges, p[0], s) && Reaches(edges, t, p[|p| - 1]))
    decreases |p|
  {
    if |p| == 1 {
      ReachesSelf(edges, p[0]);
    } else {
      ReachesSplit(edges, more, s, t, p[1..]);
      var end := p[|p| - 1];
      if Steps(edges, p[0], p[1]) {
        if Reaches(edges, p[1], end) {
          ReachesStep(edges, p[0], p[1], end);
        } else {
          ReachesStep(edges, p[0], p[1], s);
        }
      } else {
        ReachesSelf(edges, s);
      }
    }
  }

  lemma NewEdgeReaches(edges: Edges, more: Edges, s: nat, t: nat, a: nat, b: nat)
    requires AddsEdge(edges, more, s, t) && Reaches(more, a, b)
    ensures Reaches(edges, a, b) || (Reaches(edges, a, s) && Reaches(edges, t, b))
  {
    var p :| IsPath(more, p) && p[0] == a && p[|p| - 1] == b;
    ReachesSplit(edges, more, s, t, p);
  }

  /** A new edge between nodes other than the root closes a cycle exactly when its target reached its source. */
  lemma AcyclicIff(edges: Edges, more: Edges, s: nat, t: nat)
    requires AddsEdge(edges, more, s, t) && s != 0 && t != 0 && Acyclic(edges)
    ensures Acyclic(more) <==> !Reaches(edges, t, s)
  {
    if Reaches(edges, t, s) {
      var p :| IsPath(edges, p) && p[0] == t && p[|p| - 1] == s;
      ReachesMore(edges, more, p);
      assert Steps(more, s, t);
    } else {
      forall a, b | a != 0 && Steps(more, a, b) ensures !Reaches(more, b, a) {
        if Reaches(more, b, a) {
          NewEdgeReaches(edges, more, s, t, b, a);
          if Steps(edges, a, b) {
            if !Reaches(edges, b, a) {
              ReachesStep(edges, a, b, s);
              ReachesThen(edges, t, a, s);
            }
          }
        }
      }
    }
  }

  class Graph {
    var index: map<string, nat>
    var nodes: map<nat, Node>
    var edges: Edges

    constructor ()
      ensures IsGraph(Now()) && Now() == Contents(map[], map[], map[])
    {
      index, nodes, edges := map[], map[], map[];
    }

    function Now(): Contents
      reads this
    {
      Contents(index, nodes, edges)
    }

    method Touch(name: string)
      requires IsGraph(Now())
      modifies this
      ensures IsGraph(Now()) && Now() == Touched(old(Now()), name) && name in index && index[name] in nodes
    {
      TouchedIsGraph(Now(), name);
      IndexInNodes(Touched(Now(), name), name);
      if name !in index {
        var i := |index|;
        index := index[name := i];
        nodes := nodes[i := Node(name, 0.0, 0.0, 0, 0)];
      }
    }

    method SetGroup(tgt: string, value: nat) returns (r: nat)
      requires IsGraph(Now()) && Paddable(tgt)
      modifies this
      ensures IsGraph(Now()) && r == value && Now() == Grouped(old(Now()), Pad44(tgt), value)
    {
      var target := Pad44(tgt);
      ghost var g := Grouped(Now(), target, value);
      Touch(target);
      var tIndex := index[target];
      nodes := nodes[tIndex := nodes[tIndex].(group := value)];
      assert Now() == g;
      return nodes[tIndex].group;
    }

    method SetImbalance(tgt: string, value: int) returns (r: int)
      requires IsGraph(Now()) && Paddable(tgt)
      modifies this
      ensures IsGraph(Now()) && Now() == Credited(old(Now()), Pad44(tgt), value) && r == Imbalance(Now(), Pad44(tgt))
    {
      var target := Pad44(tgt);
      ghost var g := Credited(Now(), target, value);
      Touch(target);
      var tIndex := index[target];
      nodes := nodes[tIndex := nodes[tIndex].(imbalance := nodes[tIndex].imbalance + value)];
      assert Now() == g;
      return nodes[tIndex].imbalance;
    }

    /** Create the edge if it is missing, and add the weight to it. */
    method AddWeight(sIndex: nat, tIndex: nat, weight: real, height: int, time: int)
      modifies this`edges
      ensures edges == old(edges)[sIndex := Successors(old(edges), sIndex)
                                 [tIndex := Edge(WeightOf(old(edges), sIndex, tIndex) + weight, height, time)]]
    {
      ghost var e := Edge(WeightOf(edges, sIndex, tIndex) + weight, height, time);
      var out: map<nat, Edge> := map[];
      if sIndex !in edges {
        edges := edges[sIndex := out];
      }
      out := edges[sIndex];
      if tIndex !in out {
        out := out[tIndex := Edge(0.0, 0, 0)];
      }
      out := out[tIndex := Edge(out[tIndex].weight + weight, height, time)];
      edges := edges[sIndex := out];
      assert edges[sIndex] == Successors(old(edges), sIndex)[tIndex := e];
    }

    /** Create a weighted edge, or add to the weight of an existing one. */
    method Link(src: string, tgt: string, weight: real, height: int, time: int)
      requires IsGraph(Now()) && Paddable(src) && Paddable(tgt)
      modifies this
      ensures IsGraph(Now()) && Now() == Linked(old(Now()), Pad44(src), Pad44(tgt), weight, height, time)
    {
      hide IsGraph, Touched, Pad44;
      var source, target := Pad44(src), Pad44(tgt);
      ghost var g := Linked(Now(), source, target, weight, height, time);
      Touch(source);
      Touch(target);
      TouchedKeeps(Touched(old(Now()), source), target, source);
      IndexInNodes(Now(), source);
      var sIndex, tIndex := index[source], index[target];
      AddWeight(sIndex, tIndex, weight, height, time);
      nodes := nodes[sIndex := nodes[sIndex].(outbound := nodes[sIndex].outbound + weight)];
      assert Now() == g;
    }

    /** Does a path lead from the parent down to the descendant? For every order of iteration over the edges. */
    method IsParentDescendant(parent: string, descendant: string) returns (r: bool)
      requires IsGraph(Now())
      ensures r <==> Descends(Now(), parent, descendant)
    {
      if parent !in index || descendant !in index {
        return false;
      }
      if index[parent] == 0 || index[descendant] == 0 {
        return false;
      }
      IndexInNodes(Now(), parent);
      var visited: set<nat>;
      r, visited := Dfs(index[parent], index[descendant], {});
      if !r && Reaches(edges, index[parent], index[descendant]) {
        var p :| IsPath(edges, p) && p[0] == index[parent] && p[|p| - 1] == index[descendant];
        ClosedKeepsIn(edges, visited, p);
      }
    }

    /** Depth first, marking what it visits; a search that fails leaves only finished nodes behind. */
    method Dfs(current: nat, target: nat, visited: set<nat>) returns (found: bool, marked: set<nat>)
      requires IsGraph(Now()) && current in nodes && current !in visited
      ensures found ==> Reaches(edges, current, target)
      ensures visited <= marked <= visited + nodes.Keys
      ensures !found ==> current in marked && (target in marked ==> target in visited)
      ensures !found ==> forall x, y :: x in marked && x !in visited && Steps(edges, x, y) ==> y in marked
      decreases nodes.Keys - visited
    {
      if current == target {
        ReachesSelf(edges, current);
        return true, visited;
      }
      marked := visited + {current};
      var rest := Successors(edges, current).Keys;
      while rest != {}
        invariant rest <= Successors(edges, current).Keys
        invariant visited + {current} <= marked <= visited + nodes.Keys
        invariant target in marked ==> target in visited
        invariant forall x, y :: x in marked && x !in visited && x != current && Steps(edges, x, y) ==> y in marked
        invariant forall y :: Steps(edges, current, y) && y !in rest ==> y in marked
        decreases rest
      {
        var next :| next in rest;
        rest := rest - {next};
        if next != 0 && next !in marked {
          var below;
          found, below := Dfs(next, target, marked);
          if found {
            ReachesStep(edges, current, next, target);
            return true, below;
          }
          marked := below;
        }
      }
      return false, marked;
    }
  }

  /** A path between different nodes leaves an indexed node and enters one. */
  lemma {:induction false} PathEndsIndexed(g: Contents, p: seq<nat>)
    requires Joined(g) && IsPath(g.edges, p) && |p| > 1
    ensures p[0] in g.nodes && p[|p| - 1] in g.nodes
    decreases |p|
  {
    if |p| <= 2 {
    } else {
      PathEndsIndexed(g, p[1..]);
    }
  }

  lemma TouchedIndex(g: Contents, name: string, k: string)
    requires IsGraph(g) && k in Touched(g, name).index
    ensures k !in g.index ==> Touched(g, name).index[k] !in g.nodes
    ensures g.index != map[] && (k in g.index ==> g.index[k] != 0) ==> Touched(g, name).index[k] != 0
  {
    var i := |g.index|;
    assert i in g.nodes ==> Numbered(g, i);
  }

  /** Linking a pair that passed the check keeps the graph below the root acyclic; linking one that did not, never. */
  lemma LinkKeepsAcyclicIff(g: Contents, source: string, target: string, weight: real, height: int, time: int)
    requires IsGraph(g) && Acyclic(g.edges) && source != target
    requires g.index != map[] && (source in g.index ==> g.index[source] != 0) && (target in g.index ==> g.index[target] != 0)
    ensures Acyclic(Linked(g, source, target, weight, height, time).edges) <==> !Descends(g, target, source)
  {
    hide Acyclic, Reaches, WithWeight;
    var half := Touched(g, source);
    TouchedIsGraph(g, source);
    TouchedIsGraph(half, target);
    TouchedKeeps(half, target, source);
    var both := Touched(half, target);
    var s, t := both.index[source], both.index[target];
    var r := Linked(g, source, target, weight, height, time);
    NewIndices(g, source, target);
    IndexInNodes(both, source);
    EdgeAdded(both, source, target, weight, height, time);
    AcyclicIff(g.edges, r.edges, s, t);
    if Reaches(g.edges, t, s) {
      ReachesIndexed(g, t, s);
    }
  }

  lemma EdgeAdded(g: Contents, source: string, target: string, weight: real, height: int, time: int)
    requires source in g.index && target in g.index && g.index[source] in g.nodes
    ensures AddsEdge(g.edges, WithWeight(g, source, target, weight, height, time).edges, g.index[source], g.index[target])
  {
  }

  lemma ReachesIndexed(g: Contents, t: nat, s: nat)
    requires Joined(g) && Reaches(g.edges, t, s) && t != s
    ensures t in g.nodes && s in g.nodes
  {
    var p :| IsPath(g.edges, p) && p[0] == t && p[|p| - 1] == s;
    PathEndsIndexed(g, p);
  }

  lemma NewIndices(g: Contents, source: string, target: string)
    requires IsGraph(g) && source != target && g.index != map[]
    ensures var both := Touched(Touched(g, source), target);
      && source in both.index && target in both.index && both.index[source] != both.index[target]
      && (source in g.index ==> both.index[source] == g.index[source])
      && (target in g.index ==> both.index[target] == g.index[target])
      && (source in g.index || both.index[source] !in g.nodes)
      && (target in g.index || both.index[target] !in g.nodes)
      && both.edges == g.edges
      && ((source in g.index ==> g.index[source] != 0) ==> both.index[source] != 0)
      && ((target in g.index ==> g.index[target] != 0) ==> both.index[target] != 0)
  {
    var half := Touched(g, source);
    TouchedIsGraph(g, source);
    TouchedIsGraph(half, target);
    TouchedKeeps(half, target, source);
    TouchedIndex(g, source, source);
    TouchedIndex(half, target, target);
    var both := Touched(half, target);
    if both.index[source] == both.index[target] {
      SameNode(both, source, target);
    }
    assert |g.index| in g.nodes ==> Numbered(g, |g.index|);
  }

  lemma LinkedReaches(g: Contents, source: string, target: string, weight: real, height: int, time: int)
    requires IsGraph(g) && source != target && g.index != map[]
    requires (source in g.index ==> g.index[source] != 0) && (target in g.index ==> g.index[target] != 0)
    ensures var r := Linked(g, source, target, weight, height, time);
      && Descends(r, source, target) && r.index != map[] && r.index[source] != 0 && r.index[target] != 0
  {
    hide Reaches;
    NewIndices(g, source, target);
    var r := Linked(g, source, target, weight, height, time);
    ReachesSelf(r.edges, r.index[target]);
    ReachesStep(r.edges, r.index[source], r.index[target], r.index[target]);
  }

  /** Two opposite transfers each pass a check made before both, and close a cycle together. */
  lemma PairClosesCycle(g: Contents, a: string, b: string, height: int, time: int)
    requires IsGraph(g) && Acyclic(g.edges) && a != b && g.index != map[]
    requires (a in g.index ==> g.index[a] != 0) && (b in g.index ==> g.index[b] != 0)
    requires !Descends(g, b, a) && !Descends(g, a, b)
    ensures !Acyclic(Linked(Linked(g, a, b, 1.0, height, time), b, a, 1.0, height, time).edges)
  {
    hide Acyclic, Reaches, Linked;
    LinkedReaches(g, a, b, 1.0, height, time);
    LinkKeepsAcyclicIff(g, a, b, 1.0, height, time);
    LinkKeepsAcyclicIff(Linked(g, a, b, 1.0, height, time), b, a, 1.0, height, time);
  }

  // ----- any tie, with the root in the graph

  /** The root is indexed, as node 0. */
  ghost predicate HasRoot(g: Contents) { ROOT in g.index && g.index[ROOT] == 0 }

  /** A tie that touches the root, or whose ends differ and whose target does not reach its source. */
  ghost predicate TiePasses(g: Contents, source: string, target: string)
  {
    source == ROOT || target == ROOT || (source != target && !Descends(g, target, source))
  }

  /** An edge at the root lies on no cycle that avoids it. */
  lemma RootEdgeIff(edges: Edges, more: Edges, s: nat, t: nat)
    requires AddsEdge(edges, more, s, t) && (s == 0 || t == 0)
    ensures Acyclic(more) <==> Acyclic(edges)
  {
    if Acyclic(edges) {
      forall a, b | a != 0 && Steps(more, a, b) ensures !Reaches(more, b, a) {
        if Reaches(more, b, a) {
          NewEdgeReaches(edges, more, s, t, b, a);
          if s == 0 && !Reaches(edges, b, a) {
            ReachesRootOnlyFrom(edges, b);
          } else if t == 0 && !Reaches(edges, b, a) {
            SameSteps(edges, more, b, a);
          }
        }
      }
    } else {
      MoreIsNotAcyclic(edges, more);
    }
  }

  /** No path from another node leads to the root. */
  lemma ReachesRootOnlyFrom(edges: Edges, a: nat)
    requires a != 0
    ensures !Reaches(edges, a, 0)
  {
    if Reaches(edges, a, 0) {
      var p :| IsPath(edges, p) && p[0] == a && p[|p| - 1] == 0;
      PathAvoidsRoot(edges, p);
    }
  }

  lemma {:induction false} PathAvoidsRoot(edges: Edges, p: seq<nat>)
    requires IsPath(edges, p) && p[0] != 0
    ensures p[|p| - 1] != 0
    decreases |p|
  {
    if |p| <= 1 {
    } else {
      PathAvoidsRoot(edges, p[1..]);
    }
  }

  lemma SameSteps(edges: Edges, more: Edges, a: nat, b: nat)
    requires (forall x, y :: Steps(more, x, y) <==> Steps(edges, x, y)) && Reaches(more, a, b)
    ensures Reaches(edges, a, b)
  {
    var p :| IsPath(more, p) && p[0] == a && p[|p| - 1] == b;
    ReachesMore(more, edges, p);
  }

  /** Edges are never taken away, so neither is a cycle. */
  lemma MoreIsNotAcyclic(edges: Edges, more: Edges)
    requires !Acyclic(edges) && forall a, b :: Steps(edges, a, b) ==> Steps(more, a, b)
    ensures !Acyclic(more)
  {
    var a, b :| a != 0 && Steps(edges, a, b) && Reaches(edges, b, a);
    var p :| IsPath(edges, p) && p[0] == b && p[|p| - 1] == a;
    ReachesMore(edges, more, p);
    assert Steps(more, a, b);
  }

  /** The indices of both names after a link, and the one edge it adds. */
  lemma LinkedAdds(g: Contents, source: string, target: string, weight: real, height: int, time: int)
    requires IsGraph(g)
    ensures var r := Linked(g, source, target, weight, height, time);
      && source in r.index && target in r.index && AddsEdge(g.edges, r.edges, r.index[source], r.index[target])
      && (forall k :: k in g.index ==> k in r.index && r.index[k] == g.index[k])
      && (source != target ==> r.index[source] != r.index[target])
  {
    hide IsGraph, Reaches, AddsEdge;
    TouchedIsGraph(g, source);
    TouchedIsGraph(Touched(g, source), target);
    var both := Touched(Touched(g, source), target);
    TouchedKeeps(Touched(g, source), target, source);
    IndexInNodes(both, source);
    EdgeAdded(both, source, target, weight, height, time);
    if source != target && both.index[source] == both.index[target] {
      SameNode(both, source, target);
    }
  }

  lemma IndexOfOther(g: Contents, k: string)
    requires IsGraph(g) && HasRoot(g) && k in g.index && k != ROOT
    ensures g.index[k] != 0
  {
    if g.index[k] == 0 {
      SameNode(g, k, ROOT);
    }
  }

  /** A link leaves the graph below the root acyclic exactly when it was, and the tie passes. */
  lemma TieKeepsAcyclicIff(g: Contents, source: string, target: string, weight: real, height: int, time: int)
    requires IsGraph(g) && HasRoot(g)
    ensures var r := Linked(g, source, target, weight, height, time);
      HasRoot(r) && (Acyclic(r.edges) <==> Acyclic(g.edges) && TiePasses(g, source, target))
  {
    hide IsGraph, Acyclic, Linked, Reaches;
    var r := Linked(g, source, target, weight, height, time);
    LinkedAdds(g, source, target, weight, height, time);
    var s, t := r.index[source], r.index[target];
    if source == ROOT || target == ROOT {
      RootEdgeIff(g.edges, r.edges, s, t);
    } else {
      IndexOfOther(r, source);
      IndexOfOther(r, target);
      if source == target {
        SelfEdge(r.edges, s);
      } else if Acyclic(g.edges) {
        if source in g.index {
          IndexOfOther(g, source);
        }
        if target in g.index {
          IndexOfOther(g, target);
        }
        LinkKeepsAcyclicIff(g, source, target, weight, height, time);
      } else {
        MoreIsNotAcyclic(g.edges, r.edges);
      }
    }
  }

  lemma SelfEdge(edges: Edges, s: nat)
    requires s != 0 && Steps(edges, s, s)
    ensures !Acyclic(edges)
  {
    ReachesSelf(edges, s);
  }

  /** Indexing a name makes no name descend from a different one. */
  lemma TouchedDescends(g: Contents, name: string, a: string, b: string)
    requires IsGraph(g) && a != b
    ensures Descends(g, a, b) <==> Descends(Touched(g, name), a, b)
  {
    hide Reaches;
    var r := Touched(g, name);
    TouchedIsGraph(g, name);
    if Descends(r, a, b) {
      if r.index[a] == r.index[b] {
        SameNode(r, a, b);
      }
      ReachesIndexed(r, r.index[a], r.index[b]);
      if a !in g.index {
        TouchedIndex(g, name, a);
        ReachesIndexed(g, r.index[a], r.index[b]);
      }
      if b !in g.index {
        TouchedIndex(g, name, b);
        ReachesIndexed(g, r.index[a], r.index[b]);
      }
    }
  }

  /** A link from the root makes no name descend from a different one. */
  lemma RootLinkDescends(g: Contents, target: string, weight: real, height: int, time: int, a: string, b: string)
    requires IsGraph(g) && HasRoot(g) && a != b
    ensures Descends(g, a, b) <==> Descends(Linked(g, ROOT, target, weight, height, time), a, b)
  {
    hide IsGraph, Reaches, AddsEdge;
    TouchedIsGraph(g, ROOT);
    TouchedIsGraph(Touched(g, ROOT), target);
    var both := Touched(Touched(g, ROOT), target);
    TouchedKeeps(Touched(g, ROOT), target, ROOT);
    IndexInNodes(both, ROOT);
    TouchedDescends(g, ROOT, a, b);
    TouchedDescends(Touched(g, ROOT), target, a, b);
    EdgeAdded(both, ROOT, target, weight, height, time);
    var r := WithWeight(both, ROOT, target, weight, height, time);
    if a in both.index && b in both.index && both.index[a] != 0 {
      RootEdgeReaches(both.edges, r.edges, both.index[target], both.index[a], both.index[b]);
    }
  }

  lemma RootEdgeReaches(edges: Edges, more: Edges, t: nat, a: nat, b: nat)
    requires AddsEdge(edges, more, 0, t) && a != 0
    ensures Reaches(more, a, b) <==> Reaches(edges, a, b)
  {
    hide Reaches;
    if Reaches(more, a, b) {
      NewEdgeReaches(edges, more, 0, t, a, b);
      ReachesRootOnlyFrom(edges, a);
    }
    if Reaches(edges, a, b) {
      DescentGrows(edges, more, a, b);
    }
  }

  /** Links only ever add descent. */
  lemma LinkedDescends(g: Contents, source: string, target: string, weight: real, height: int, time: int, a: string, b: string)
    requires IsGraph(g) && Descends(g, a, b)
    ensures Descends(Linked(g, source, target, weight, height, time), a, b)
  {
    hide IsGraph, Linked, Reaches;
    LinkedAdds(g, source, target, weight, height, time);
    var r := Linked(g, source, target, weight, height, time);
    DescentGrows(g.edges, r.edges, g.index[a], g.index[b]);
  }

  lemma DescentGrows(edges: Edges, more: Edges, a: nat, b: nat)
    requires (forall x, y :: Steps(edges, x, y) ==> Steps(more, x, y)) && Reaches(edges, a, b)
    ensures Reaches(more, a, b)
  {
    var p :| IsPath(edges, p) && p[0] == a && p[|p| - 1] == b;
    ReachesMore(edges, more, p);
  }

  /** In an acyclic graph two names that descend from each other are one. */
  lemma AcyclicIsAntisymmetric(g: Contents, a: string, b: string)
    requires IsGraph(g) && Acyclic(g.edges) && Descends(g, a, b) && Descends(g, b, a)
    ensures a == b
  {
    var i, j := g.index[a], g.index[b];
    if i == j {
      SameNode(g, a, b);
    } else {
      var p :| IsPath(g.edges, p) && p[0] == i && p[|p| - 1] == j;
      assert Steps(g.edges, i, p[1]) && IsPath(g.edges, p[1..]);
      assert Reaches(g.edges, p[1], j);
      ReachesThen(g.edges, p[1], j, i);
    }
  }
}
