/** When a whole count keeps the graph of keys free of cycles, and how the ledger's check compares. */
module Descent {
  import opened Considerations
  import opened Balances
  import opened Chain
  import opened Ledger
  import opened Queue
  import opened Indexer
  import G = Graph

  // ----- descent over a whole count

  /** Every tie passes in the graph that the changes before it leave. */
  ghost predicate TiesPass(g: G.Contents, ops: seq<Op>, sign: int, height: int)
    requires G.IsGraph(g)
  {
    ops == [] ||
    (TiesPass(g, ops[..|ops| - 1], sign, height) &&
     OpPasses(ApplyAll(g, ops[..|ops| - 1], sign, height), ops[|ops| - 1]))
  }

  ghost predicate OpPasses(g: G.Contents, op: Op) { op.Tie? ==> G.TiePasses(g, Name(op.source), Name(op.target)) }

  lemma OpKeepsAcyclicIff(g: G.Contents, op: Op, sign: int, height: int)
    requires G.IsGraph(g) && G.HasRoot(g)
    ensures var r := Apply(g, op, sign, height);
      G.HasRoot(r) && (G.Acyclic(r.edges) <==> G.Acyclic(g.edges) && OpPasses(g, op))
  {
    hide G.IsGraph, G.Acyclic, G.Linked, G.TiePasses, Name;
    ApplyKeepsIndex(g, op, sign, height, G.ROOT);
    if op.Tie? {
      G.TieKeepsAcyclicIff(g, Name(op.source), Name(op.target), Scaled(sign, op.weight), height, op.time);
    } else {
      OthersKeepEdges(g, op, sign, height);
    }
  }

  lemma OthersKeepEdges(g: G.Contents, op: Op, sign: int, height: int)
    requires G.IsGraph(g) && !op.Tie?
    ensures Apply(g, op, sign, height).edges == g.edges
  {
    hide G.IsGraph, Name;
  }

  /** Any list of changes leaves the graph below the root acyclic exactly when it was and every tie passes in its turn. */
  lemma {:induction false} AcyclicIff(g: G.Contents, ops: seq<Op>, sign: int, height: int)
    requires G.IsGraph(g) && G.HasRoot(g)
    ensures var r := ApplyAll(g, ops, sign, height);
      G.HasRoot(r) && (G.Acyclic(r.edges) <==> G.Acyclic(g.edges) && TiesPass(g, ops, sign, height))
  {
    hide G.IsGraph, G.Acyclic, Apply, OpPasses, G.HasRoot;
    if ops == [] {
    } else {
      AcyclicIff(g, ops[..|ops| - 1], sign, height);
      OpKeepsAcyclicIff(ApplyAll(g, ops[..|ops| - 1], sign, height), ops[|ops| - 1], sign, height);
    }
  }

  /** So does a whole count, connected or disconnected. */
  lemma CountKeepsAcyclicIff(p: Parsing, g: G.Contents, count: Count, sign: int)
    requires G.IsGraph(g) && G.HasRoot(g) && G.Acyclic(g.edges)
    ensures G.Acyclic(ApplyAll(g, OpsOfCount(p, count), sign, count.header.height).edges)
      <==> TiesPass(g, OpsOfCount(p, count), sign, count.header.height)
  {
    hide G.IsGraph, G.Acyclic, ApplyAll, TiesPass, OpsOfCount, G.HasRoot;
    AcyclicIff(g, OpsOfCount(p, count), sign, count.header.height);
  }

  lemma {:induction false} TiesPassConcat(g: G.Contents, a: seq<Op>, b: seq<Op>, sign: int, height: int)
    requires G.IsGraph(g)
    ensures ApplyAll(g, a + b, sign, height) == ApplyAll(ApplyAll(g, a, sign, height), b, sign, height)
    ensures TiesPass(g, a + b, sign, height) <==>
      TiesPass(g, a, sign, height) && TiesPass(ApplyAll(g, a, sign, height), b, sign, height)
  {
    hide G.IsGraph, OpPasses, Apply;
    if b == [] {
      assert a + b == a;
    } else {
      assert (a + b)[..|a + b| - 1] == a + b[..|b| - 1];
      TiesPassConcat(g, a, b[..|b| - 1], sign, height);
    }
  }

  // ----- counts that name no places

  /** The key names no place, so only the transfer itself is tied. */
  predicate Plain(p: Parsing, cn: Consideration, height: int) { Located(p, ForName(p, cn), cn.time, height) == [] }

  /** Each transfer passes in the graph that those before it leave. */
  ghost predicate TransfersPass(p: Parsing, g: G.Contents, cns: seq<Consideration>, n: nat, height: int)
    requires G.IsGraph(g) && n <= |cns|
  {
    n == 0 ||
    (TransfersPass(p, g, cns, n - 1, height) &&
     TransferPasses(p, ApplyAll(g, OpsOfFirst(p, cns, n - 1, height), 1, height), cns[n - 1]))
  }

  ghost predicate TransferPasses(p: Parsing, g: G.Contents, cn: Consideration)
  {
    Ties(p, cn) ==> G.TiePasses(g, Name(ByName(p, cn)), Name(ForName(p, cn)))
  }

  /** Pseudonyms are not tied. */
  predicate Ties(p: Parsing, cn: Consideration) { p.nodes(ForName(p, cn)).Some? || !p.pseudonymous(ForName(p, cn)) }

  lemma PlainTies(p: Parsing, g: G.Contents, cn: Consideration, height: int)
    requires G.IsGraph(g) && Plain(p, cn, height)
    ensures TiesPass(g, OpsOf(p, cn, height), 1, height) <==> TransferPasses(p, g, cn)
  {
    hide G.IsGraph, G.TiePasses, Name, Located, ApplyAll, Apply, TiesPass, G.Descends;
    var byName, forName := ByName(p, cn), ForName(p, cn);
    var parties: seq<Op> := [Credit(byName, -1), Credit(forName, 1)];
    PartiesPass(g, byName, forName, height);
    if Ties(p, cn) {
      var tie, group := Tie(byName, forName, 1.0, cn.time), Group(forName);
      assert OpsOf(p, cn, height) == parties + ([tie] + [group]);
      TiesPassConcat(g, parties, [tie] + [group], 1, height);
      var g2 := ApplyAll(g, parties, 1, height);
      TiesPassConcat(g2, [tie], [group], 1, height);
      OnePasses(g2, tie, height);
      OnePasses(ApplyAll(g2, [tie], 1, height), group, height);
      CreditsKeepDescent(g, byName, forName, height, Name(forName), Name(byName));
      TiePassesSame(g, g2, Name(byName), Name(forName));
    } else {
      assert OpsOf(p, cn, height) == parties + [] == parties;
    }
  }

  lemma OnePasses(g: G.Contents, op: Op, height: int)
    requires G.IsGraph(g)
    ensures TiesPass(g, [op], 1, height) <==> OpPasses(g, op)
  {
    assert [op][..0] == [];
  }

  lemma PartiesPass(g: G.Contents, byName: string, forName: string, height: int)
    requires G.IsGraph(g)
    ensures TiesPass(g, [Credit(byName, -1), Credit(forName, 1)], 1, height)
  {
    hide G.IsGraph, Name, ApplyAll, Apply;
    TiesPassConcat(g, [Credit(byName, -1)], [Credit(forName, 1)], 1, height);
    OnePasses(g, Credit(byName, -1), height);
    OnePasses(ApplyAll(g, [Credit(byName, -1)], 1, height), Credit(forName, 1), height);
    assert [Credit(byName, -1)] + [Credit(forName, 1)] == [Credit(byName, -1), Credit(forName, 1)];
  }

  lemma TiePassesSame(g: G.Contents, h: G.Contents, source: string, target: string)
    requires source != target ==> (G.Descends(g, target, source) <==> G.Descends(h, target, source))
    ensures G.TiePasses(g, source, target) <==> G.TiePasses(h, source, target)
  {
  }

  /** Crediting names makes no name descend from a different one. */
  lemma CreditsKeepDescent(g: G.Contents, byName: string, forName: string, height: int, a: string, b: string)
    requires G.IsGraph(g)
    ensures var r := ApplyAll(g, [Credit(byName, -1), Credit(forName, 1)], 1, height);
      a != b ==> (G.Descends(g, a, b) <==> G.Descends(r, a, b))
  {
    hide G.IsGraph, Name, G.Descends, Apply;
    var c, d := Credit(byName, -1), Credit(forName, 1);
    ApplyOne(g, [], c, 1, height);
    ApplyOne(g, [c], d, 1, height);
    assert [] + [c] == [c] && [c] + [d] == [c, d];
    CreditKeepsDescent(g, c, height, a, b);
    CreditKeepsDescent(ApplyAll(g, [c], 1, height), d, height, a, b);
  }

  lemma CreditKeepsDescent(g: G.Contents, op: Op, height: int, a: string, b: string)
    requires G.IsGraph(g) && op.Credit?
    ensures a != b ==> (G.Descends(g, a, b) <==> G.Descends(Apply(g, op, 1, height), a, b))
  {
    hide Name, G.Reaches;
    if a != b {
      G.TouchedDescends(g, Name(op.name), a, b);
    }
    OthersKeepEdges(g, op, 1, height);
  }

  /** A count that names no places keeps the graph acyclic exactly when its transfers pass one after the other. */
  lemma {:induction false} PlainCountIff(p: Parsing, g: G.Contents, cns: seq<Consideration>, n: nat, height: int)
    requires G.IsGraph(g) && n <= |cns| && forall i :: 0 <= i < |cns| ==> Plain(p, cns[i], height)
    ensures TiesPass(g, OpsOfFirst(p, cns, n, height), 1, height) <==> TransfersPass(p, g, cns, n, height)
  {
    hide G.IsGraph, OpsOf, TransferPasses, ApplyAll, Plain, TiesPass;
    if n == 0 {
      NothingPasses(g, height);
    } else {
      PlainCountIff(p, g, cns, n - 1, height);
      TiesPassConcat(g, OpsOfFirst(p, cns, n - 1, height), OpsOf(p, cns[n - 1], height), 1, height);
      PlainTies(p, ApplyAll(g, OpsOfFirst(p, cns, n - 1, height), 1, height), cns[n - 1], height);
    }
  }

  /** So does the whole of such a count. */
  lemma TransfersKeepAcyclicIff(p: Parsing, g: G.Contents, count: Count)
    requires G.IsGraph(g) && G.HasRoot(g) && G.Acyclic(g.edges)
    requires forall i :: 0 <= i < |count.considerations| ==> Plain(p, count.considerations[i], count.header.height)
    ensures G.Acyclic(ApplyAll(g, OpsOfCount(p, count), 1, count.header.height).edges)
      <==> TransfersPass(p, g, count.considerations, |count.considerations|, count.header.height)
  {
    hide G.IsGraph, G.Acyclic, ApplyAll, TiesPass, G.HasRoot, TransfersPass, OpsOfFirst, Plain;
    CountKeepsAcyclicIff(p, g, count, 1);
    PlainCountIff(p, g, count.considerations, |count.considerations|, count.header.height);
  }

  lemma NothingPasses(g: G.Contents, height: int)
    requires G.IsGraph(g)
    ensures TiesPass(g, [], 1, height)
  {
  }

  // ----- the ledger's check

  /** The check the ledger and the queue make, on a graph as it stands. */
  ghost function GraphCheck(p: Parsing, g: G.Contents): Descends
  {
    (recipient: PublicKey, sender: PublicKey) => IsDescendant(p, g, recipient, sender)
  }

  ghost predicate IsDescendant(p: Parsing, g: G.Contents, recipient: PublicKey, sender: PublicKey)
  {
    && |recipient.bytes| == PUBLIC_KEY_SIZE && |sender.bytes| == PUBLIC_KEY_SIZE
    && G.Descends(g, p.keyName(recipient), p.keyName(sender))
  }

  /** On an acyclic graph the check is an order. */
  lemma AcyclicIsOrder(p: Parsing, g: G.Contents)
    requires G.IsGraph(g) && G.Acyclic(g.edges) && NamesKeys(p)
    ensures IsOrder(GraphCheck(p, g))
  {
    hide G.IsGraph, G.Acyclic, G.Descends;
    var d := GraphCheck(p, g);
    forall a, b, c {:trigger d(a, b), d(b, c)} | d(a, b) && d(b, c) ensures d(a, c) {
      DescendsThen(g, p.keyName(a), p.keyName(b), p.keyName(c));
    }
    forall a, b {:trigger d(a, b), d(b, a)} | d(a, b) && d(b, a) ensures a == b {
      G.AcyclicIsAntisymmetric(g, p.keyName(a), p.keyName(b));
    }
  }

  lemma DescendsThen(g: G.Contents, a: string, b: string, c: string)
    requires G.Descends(g, a, b) && G.Descends(g, b, c)
    ensures G.Descends(g, a, c)
  {
    hide G.Reaches;
    G.ReachesThen(g.edges, g.index[a], g.index[b], g.index[c]);
  }

  lemma ApplyDescends(g: G.Contents, op: Op, sign: int, height: int, a: string, b: string)
    requires G.IsGraph(g) && G.Descends(g, a, b)
    ensures G.Descends(Apply(g, op, sign, height), a, b)
  {
    hide G.Reaches, Name, G.Linked;
    match op
    case Tie(source, target, weight, time) =>
      G.LinkedDescends(g, Name(source), Name(target), Scaled(sign, weight), height, time, a, b);
    case _ =>
      ApplyKeepsIndex(g, op, sign, height, a);
      ApplyKeepsIndex(g, op, sign, height, b);
      OthersKeepEdges(g, op, sign, height);
  }

  lemma {:induction false} ApplyAllDescends(g: G.Contents, ops: seq<Op>, sign: int, height: int, a: string, b: string)
    requires G.IsGraph(g) && G.Descends(g, a, b)
    ensures G.Descends(ApplyAll(g, ops, sign, height), a, b)
  {
    hide G.IsGraph, G.Descends, Apply;
    if ops == [] {
    } else {
      ApplyAllDescends(g, ops[..|ops| - 1], sign, height, a, b);
      ApplyDescends(ApplyAll(g, ops[..|ops| - 1], sign, height), ops[|ops| - 1], sign, height, a, b);
    }
  }

  /** The names of 32-byte keys are used as they are. */
  lemma KeyNames(p: Parsing, cn: Consideration)
    requires NamesKeys(p) && Sized(cn)
    ensures Name(ForName(p, cn)) == p.keyName(cn.recipient)
    ensures cn.sender.Some? ==> Name(ByName(p, cn)) == p.keyName(cn.sender.value)
    ensures cn.sender.None? ==> Name(ByName(p, cn)) == G.ROOT
  {
    assert |p.keyName(cn.recipient)| == G.KEY_LENGTH;
    ZeroPads();
    if cn.sender.Some? {
      assert |p.keyName(cn.sender.value)| == G.KEY_LENGTH;
    }
  }

  /** Transfers that pass one after the other all pass the ledger's check, which sees the graph before the count only. */
  lemma {:induction false} PassingIsAdmitted(p: Parsing, g: G.Contents, cns: seq<Consideration>, n: nat, height: int)
    requires G.IsGraph(g) && NamesKeys(p) && n <= |cns| && TransfersPass(p, g, cns, n, height) && G.HasRoot(g)
    requires forall i :: 0 <= i < |cns| ==> Sized(cns[i]) && Ties(p, cns[i]) && cns[i].sender != Some(cns[i].recipient)
    ensures forall i :: 0 <= i < n ==> !SenderDescends(GraphCheck(p, g), cns[i])
  {
    hide G.IsGraph, ApplyAll, NamesKeys, Sized, G.HasRoot, TransferPasses, SenderDescends, Ties;
    if n == 0 {
    } else {
      PassingIsAdmitted(p, g, cns, n - 1, height);
      OneIsAdmitted(p, g, OpsOfFirst(p, cns, n - 1, height), cns[n - 1], height);
    }
  }

  lemma OneIsAdmitted(p: Parsing, g: G.Contents, ops: seq<Op>, cn: Consideration, height: int)
    requires G.IsGraph(g) && NamesKeys(p) && G.HasRoot(g) && Sized(cn) && Ties(p, cn)
    requires TransferPasses(p, ApplyAll(g, ops, 1, height), cn)
    ensures cn.sender != Some(cn.recipient) ==> !SenderDescends(GraphCheck(p, g), cn)
  {
    hide G.IsGraph, G.Descends, ApplyAll, NamesKeys, Sized, G.HasRoot, Name;
    if SenderDescends(GraphCheck(p, g), cn) {
      KeyNames(p, cn);
      ApplyAllDescends(g, ops, 1, height, p.keyName(cn.recipient), p.keyName(cn.sender.value));
      RootDescendsNot(g, p.keyName(cn.recipient), p.keyName(cn.sender.value));
    }
  }

  lemma RootDescendsNot(g: G.Contents, a: string, b: string)
    requires G.HasRoot(g)
    ensures a == G.ROOT || b == G.ROOT ==> !G.Descends(g, a, b)
  {
  }

  /** For a count with one transfer the two checks are the same: it keeps the graph acyclic exactly when it is admitted. */
  lemma SingleTransferIff(p: Parsing, g: G.Contents, count: Count)
    requires G.IsGraph(g) && G.HasRoot(g) && G.Acyclic(g.edges) && NamesKeys(p)
    requires |count.considerations| == 2 && count.considerations[0].IsCounterPoint() && !count.considerations[1].IsCounterPoint()
    requires forall i :: 0 <= i < 2 ==> Plain(p, count.considerations[i], count.header.height) && Sized(count.considerations[i])
    requires Ties(p, count.considerations[1]) && count.considerations[1].sender != Some(count.considerations[1].recipient)
    ensures G.Acyclic(ApplyAll(g, OpsOfCount(p, count), 1, count.header.height).edges) <==> Admits(GraphCheck(p, g), count)
  {
    hide G.IsGraph, G.Acyclic, ApplyAll, G.HasRoot, Name, Located, OpsOf, Plain, TiesPass, NamesKeys, Sized;
    var cns, height := count.considerations, count.header.height;
    TransfersKeepAcyclicIff(p, g, count);
    FirstPasses(p, g, cns, height);
    var r := ApplyAll(g, OpsOf(p, cns[0], height), 1, height);
    SecondPassesIff(p, g, r, cns[0], cns[1], height);
    AdmitsSecond(GraphCheck(p, g), count);
  }

  lemma FirstPasses(p: Parsing, g: G.Contents, cns: seq<Consideration>, height: int)
    requires G.IsGraph(g) && |cns| == 2 && cns[0].IsCounterPoint()
    ensures TransfersPass(p, g, cns, 2, height) <==>
      TransferPasses(p, ApplyAll(g, OpsOf(p, cns[0], height), 1, height), cns[1])
  {
    hide G.IsGraph, ApplyAll, OpsOf, G.Descends, TransferPasses;
    assert OpsOfFirst(p, cns, 1, height) == [] + OpsOf(p, cns[0], height) == OpsOf(p, cns[0], height);
    assert TransfersPass(p, g, cns, 0, height);
    CounterpointPasses(p, ApplyAll(g, OpsOfFirst(p, cns, 0, height), 1, height), cns[0]);
    assert TransfersPass(p, g, cns, 1, height);
  }

  lemma CounterpointPasses(p: Parsing, g: G.Contents, cn: Consideration)
    requires cn.IsCounterPoint()
    ensures TransferPasses(p, g, cn)
  {
    hide G.Descends;
    ZeroPads();
  }

  lemma SecondPassesIff(p: Parsing, g: G.Contents, r: G.Contents, first: Consideration, cn: Consideration, height: int)
    requires G.IsGraph(g) && G.HasRoot(g) && NamesKeys(p) && Sized(cn) && Ties(p, cn) && cn.sender.Some?
    requires cn.sender != Some(cn.recipient) && first.IsCounterPoint() && Plain(p, first, height)
    requires r == ApplyAll(g, OpsOf(p, first, height), 1, height)
    ensures TransferPasses(p, r, cn) <==> !SenderDescends(GraphCheck(p, g), cn)
  {
    hide G.IsGraph, ApplyAll, OpsOf, G.Descends, G.HasRoot, Name, Plain;
    var a, b := p.keyName(cn.recipient), p.keyName(cn.sender.value);
    KeyNames(p, cn);
    assert a != b;
    CounterpointKeepsDescent(p, g, first, height, a, b);
    RootDescendsNot(g, a, b);
  }

  lemma AdmitsSecond(descends: Descends, count: Count)
    requires |count.considerations| == 2 && count.considerations[0].IsCounterPoint()
    ensures Admits(descends, count) <==> !SenderDescends(descends, count.considerations[1])
  {
  }

  /** A counterpoint ties the root only, which makes nothing descend. */
  lemma CounterpointKeepsDescent(p: Parsing, g: G.Contents, cn: Consideration, height: int, a: string, b: string)
    requires G.IsGraph(g) && G.HasRoot(g) && Plain(p, cn, height) && cn.IsCounterPoint() && a != b
    ensures G.Descends(ApplyAll(g, OpsOf(p, cn, height), 1, height), a, b) <==> G.Descends(g, a, b)
  {
    hide G.IsGraph, G.Descends, Name, Located, ApplyAll, Apply, G.HasRoot;
    var byName, forName := ByName(p, cn), ForName(p, cn);
    var parties: seq<Op> := [Credit(byName, -1), Credit(forName, 1)];
    CreditsKeepDescent(g, byName, forName, height, a, b);
    if Ties(p, cn) {
      var tie, group := Tie(byName, forName, 1.0, cn.time), Group(forName);
      assert OpsOf(p, cn, height) == parties + [tie] + [group];
      ApplyOne(g, parties, tie, 1, height);
      ApplyOne(g, parties + [tie], group, 1, height);
      var g2 := ApplyAll(g, parties, 1, height);
      AcyclicIff(g, parties, 1, height);
      AcyclicIff(g, parties + [tie], 1, height);
      RootTieKeepsDescent(g2, tie, height, a, b);
      GroupKeepsDescent(Apply(g2, tie, 1, height), group, height, a, b);
    } else {
      assert OpsOf(p, cn, height) == parties + [] == parties;
    }
  }

  lemma RootTieKeepsDescent(g: G.Contents, op: Op, height: int, a: string, b: string)
    requires G.IsGraph(g) && G.HasRoot(g) && op.Tie? && op.source == G.Pad44("0") && a != b
    ensures G.Descends(Apply(g, op, 1, height), a, b) <==> G.Descends(g, a, b)
  {
    hide G.IsGraph, G.Descends, G.HasRoot, G.Linked;
    ZeroPads();
    G.RootLinkDescends(g, Name(op.target), Scaled(1, op.weight), height, op.time, a, b);
  }

  lemma GroupKeepsDescent(g: G.Contents, op: Op, height: int, a: string, b: string)
    requires G.IsGraph(g) && op.Group? && a != b
    ensures G.Descends(Apply(g, op, 1, height), a, b) <==> G.Descends(g, a, b)
  {
    hide G.Reaches, Name;
    G.TouchedDescends(g, Name(op.name), a, b);
  }

  // ----- ties that never pass

  /** A tie from a name to itself, or two opposite ties, leave a cycle whatever the graph was. */
  lemma OppositeTiesFail(g: G.Contents, ops: seq<Op>, i: nat, j: nat, height: int)
    requires G.IsGraph(g) && G.HasRoot(g) && i <= j < |ops| && ops[i].Tie? && ops[j].Tie?
    requires Name(ops[i].source) == Name(ops[j].target) != G.ROOT && Name(ops[i].target) == Name(ops[j].source) != G.ROOT
    ensures !G.Acyclic(ApplyAll(g, ops, 1, height).edges)
  {
    hide G.IsGraph, G.Acyclic, ApplyAll, Apply, TiesPass, G.HasRoot, Name, G.Descends;
    AcyclicIff(g, ops, 1, height);
    var x, y := Name(ops[i].source), Name(ops[i].target);
    assert ops == ops[..j] + ops[j..] && ops[j..] == [ops[j]] + ops[j + 1..];
    TiesPassConcat(g, ops[..j], ops[j..], 1, height);
    var r := ApplyAll(g, ops[..j], 1, height);
    TiesPassConcat(r, [ops[j]], ops[j + 1..], 1, height);
    OnePasses(r, ops[j], height);
    if x != y {
      assert ops[..j] == ops[..i + 1] + ops[i + 1..j] && ops[..i + 1] == ops[..i] + [ops[i]];
      ApplyOne(g, ops[..i], ops[i], 1, height);
      TiesPassConcat(g, ops[..i + 1], ops[i + 1..j], 1, height);
      var before := ApplyAll(g, ops[..i], 1, height);
      AcyclicIff(g, ops[..i], 1, height);
      TieDescends(before, ops[i], height);
      ApplyAllDescends(ApplyAll(g, ops[..i + 1], 1, height), ops[i + 1..j], 1, height, x, y);
    }
  }

  lemma TieDescends(g: G.Contents, op: Op, height: int)
    requires G.IsGraph(g) && G.HasRoot(g) && op.Tie?
    requires Name(op.source) != Name(op.target) && Name(op.source) != G.ROOT && Name(op.target) != G.ROOT
    ensures G.Descends(Apply(g, op, 1, height), Name(op.source), Name(op.target))
  {
    hide G.IsGraph, G.Descends, G.Linked, Name;
    var source, target := Name(op.source), Name(op.target);
    RootedIndices(g, source, target);
    G.LinkedReaches(g, source, target, Scaled(1, op.weight), height, op.time);
  }

  lemma RootedIndices(g: G.Contents, a: string, b: string)
    requires G.IsGraph(g) && G.HasRoot(g) && a != G.ROOT && b != G.ROOT
    ensures g.index != map[] && (a in g.index ==> g.index[a] != 0) && (b in g.index ==> g.index[b] != 0)
  {
    if a in g.index {
      G.IndexOfOther(g, a);
    }
    if b in g.index {
      G.IndexOfOther(g, b);
    }
  }

  /** The ties between the nodes of a place are checked by nobody: a place that names a node twice in a row ties it to itself. */
  lemma RepeatedNodeFails(p: Parsing, g: G.Contents, cn: Consideration, height: int, i: nat)
    requires G.IsGraph(g) && G.HasRoot(g)
    requires var name := ForName(p, cn);
      && p.nodes(name).Some? && p.locale(name).Some? && p.locale(name).value != []
      && i + 1 < |p.nodes(name).value| && p.nodes(name).value[i] == p.nodes(name).value[i + 1]
      && Name(p.nodes(name).value[i]) != G.ROOT
    ensures !G.Acyclic(ApplyAll(g, OpsOf(p, cn, height), 1, height).edges)
  {
    hide G.IsGraph, G.Acyclic, ApplyAll, G.HasRoot, Name, Temporal, Rated, Hierarchy, Metric, Spatial;
    var name := ForName(p, cn);
    var nodes, h, orders := Reversed(p.nodes(name).value), p.locale(name).value, p.orders(height);
    var k := |nodes| - 2 - i;
    assert nodes[k] == nodes[k + 1] == p.nodes(name).value[i];
    var n := SpatialHas(name, nodes, h[0], k, |nodes|, cn.time);
    var before := [Credit(ByName(p, cn), -1), Credit(name, 1)] + ([Tie(ByName(p, cn), name, 1.0, cn.time), Group(name)]
      + (Temporal(p, name, cn.time) + Rated(p, name, cn.time)));
    var spatial := Spatial(name, nodes, h[0], |nodes|, cn.time);
    var after := Hierarchy(h, |h|, cn.time + 40 + |nodes|) + Metric(p, name, height, orders, |orders|, cn.time);
    assert OpsOf(p, cn, height) == before + spatial + after;
    assert OpsOf(p, cn, height)[|before| + n] == spatial[n];
    OppositeTiesFail(g, OpsOf(p, cn, height), |before| + n, |before| + n, height);
  }

  lemma {:induction false} SpatialHas(name: string, nodes: seq<string>, locale: string, k: nat, n: nat, time: int) returns (at: nat)
    requires k + 1 < |nodes| && k < n <= |nodes|
    ensures var ops := Spatial(name, nodes, locale, n, time);
      at < |ops| && ops[at].Tie? && ops[at].source == nodes[k] && ops[at].target == nodes[k + 1]
  {
    if k == n - 1 {
      at := |Spatial(name, nodes, locale, n - 1, time)| + 1;
      assert SpatialAt(name, nodes, locale, k, time)[1].source == nodes[k];
    } else {
      at := SpatialHas(name, nodes, locale, k, n - 1, time);
    }
  }
}
