/** Balance tables: a public key with balance zero has no row. */
module Balances {
  import opened Considerations

  type Table = map<PublicKey, int>

  function Get(m: Table, k: PublicKey): int { if k in m then m[k] else 0 }

  function Put(m: Table, k: PublicKey, v: int): Table { if v == 0 then m - {k} else m[k := v] }

  ghost predicate Canonical(m: Table) { forall k :: k in m ==> m[k] != 0 }

  ghost predicate Positive(m: Table) { forall k :: k in m ==> m[k] > 0 }

  lemma CanonicalUnique(m: Table, n: Table)
    requires Canonical(m) && Canonical(n)
    requires forall k :: Get(m, k) == Get(n, k)
    ensures m == n
  {
    forall k ensures k in m <==> k in n {
      assert Get(m, k) == Get(n, k);
    }
    forall k | k in m ensures m[k] == n[k] {
      assert Get(m, k) == Get(n, k);
    }
  }

  /** The effect of a consideration on both parties, whether or not the sender can afford it. */
  function Move(m: Table, cn: Consideration): Table
  {
    var paid := if cn.IsCounterPoint() then m else Put(m, cn.sender.value, Get(m, cn.sender.value) - 1);
    Put(paid, cn.recipient, Get(paid, cn.recipient) + 1)
  }

  function Unmove(m: Table, cn: Consideration): Table
  {
    var back := if cn.IsCounterPoint() then m else Put(m, cn.sender.value, Get(m, cn.sender.value) + 1);
    Put(back, cn.recipient, Get(back, cn.recipient) - 1)
  }

  predicate CanPay(m: Table, cn: Consideration) { cn.IsCounterPoint() || Get(m, cn.sender.value) >= 1 }

  function MoveAll(m: Table, cns: seq<Consideration>): Table
  {
    if cns == [] then m else Move(MoveAll(m, cns[..|cns| - 1]), cns[|cns| - 1])
  }

  /** Every sender has a positive balance when its turn comes. */
  predicate Covered(m: Table, cns: seq<Consideration>)
  {
    cns == [] ||
    (Covered(m, cns[..|cns| - 1]) && CanPay(MoveAll(m, cns[..|cns| - 1]), cns[|cns| - 1]))
  }

  function Delta(cn: Consideration, k: PublicKey): int
  {
    (if cn.recipient == k then 1 else 0) - (if cn.sender == Some(k) then 1 else 0)
  }

  function DeltaAll(cns: seq<Consideration>, k: PublicKey): int
  {
    if cns == [] then 0 else DeltaAll(cns[..|cns| - 1], k) + Delta(cns[|cns| - 1], k)
  }

  lemma MoveEffect(m: Table, cn: Consideration, k: PublicKey)
    ensures Get(Move(m, cn), k) == Get(m, k) + Delta(cn, k)
    ensures Get(Unmove(m, cn), k) == Get(m, k) - Delta(cn, k)
  {
  }

  lemma {:induction false} MoveAllEffect(m: Table, cns: seq<Consideration>, k: PublicKey)
    ensures Get(MoveAll(m, cns), k) == Get(m, k) + DeltaAll(cns, k)
  {
    if cns == [] {
    } else {
      MoveAllEffect(m, cns[..|cns| - 1], k);
      MoveEffect(MoveAll(m, cns[..|cns| - 1]), cns[|cns| - 1], k);
    }
  }

  lemma {:induction false} MoveAllCanonical(m: Table, cns: seq<Consideration>)
    requires Canonical(m)
    ensures Canonical(MoveAll(m, cns))
  {
    if cns == [] {
    } else {
      MoveAllCanonical(m, cns[..|cns| - 1]);
    }
  }

  /** Undoing a move gives back the very same table, rows included. */
  lemma UnmoveMove(m: Table, cn: Consideration)
    requires Canonical(m)
    ensures Unmove(Move(m, cn), cn) == m
  {
    var n := Unmove(Move(m, cn), cn);
    forall k ensures Get(n, k) == Get(m, k) {
      MoveEffect(m, cn, k);
      MoveEffect(Move(m, cn), cn, k);
    }
    CanonicalUnique(n, m);
  }

  lemma MovePositive(m: Table, cn: Consideration)
    requires Positive(m) && CanPay(m, cn)
    ensures Positive(Move(m, cn))
  {
  }

  lemma {:induction false} MoveAllPositive(m: Table, cns: seq<Consideration>)
    requires Positive(m) && Covered(m, cns)
    ensures Positive(MoveAll(m, cns))
  {
    if cns == [] {
    } else {
      MoveAllPositive(m, cns[..|cns| - 1]);
      MovePositive(MoveAll(m, cns[..|cns| - 1]), cns[|cns| - 1]);
    }
  }

  lemma {:induction false} MoveAllConcat(m: Table, a: seq<Consideration>, b: seq<Consideration>)
    ensures MoveAll(m, a + b) == MoveAll(MoveAll(m, a), b)
    ensures Covered(m, a + b) <==> Covered(m, a) && Covered(MoveAll(m, a), b)
  {
    if b == [] {
      assert a + b == a;
    } else {
      var b' := b[..|b| - 1];
      assert (a + b)[..|a + b| - 1] == a + b';
      MoveAllConcat(m, a, b');
    }
  }

  lemma {:induction false} DeltaAllConcat(a: seq<Consideration>, b: seq<Consideration>, k: PublicKey)
    ensures DeltaAll(a + b, k) == DeltaAll(a, k) + DeltaAll(b, k)
  {
    if b == [] {
      assert a + b == a;
    } else {
      assert (a + b)[..|a + b| - 1] == a + b[..|b| - 1];
      DeltaAllConcat(a, b[..|b| - 1], k);
    }
  }

  lemma MoveAllPush(m: Table, cns: seq<Consideration>, cn: Consideration)
    ensures MoveAll(m, cns + [cn]) == Move(MoveAll(m, cns), cn)
    ensures Covered(m, cns + [cn]) <==> Covered(m, cns) && CanPay(MoveAll(m, cns), cn)
  {
    assert (cns + [cn])[..|cns|] == cns;
  }

  lemma CoveredPrefix(m: Table, cns: seq<Consideration>, n: nat)
    requires Covered(m, cns) && n <= |cns|
    ensures Covered(m, cns[..n])
  {
    assert cns == cns[..n] + cns[n..];
    MoveAllConcat(m, cns[..n], cns[n..]);
  }

  /** More funds never make a covered sequence uncovered. */
  lemma {:induction false} CoveredMonotone(m: Table, n: Table, cns: seq<Consideration>)
    requires forall k :: Get(m, k) <= Get(n, k)
    requires Covered(m, cns)
    ensures Covered(n, cns)
  {
    if cns == [] {
    } else {
      var cns' := cns[..|cns| - 1];
      CoveredMonotone(m, n, cns');
      var last := cns[|cns| - 1];
      if last.sender.Some? {
        MoveAllEffect(m, cns', last.sender.value);
        MoveAllEffect(n, cns', last.sender.value);
      }
    }
  }

  // ----- the sum of all balances

  ghost function Total(m: Table): int
  {
    if m == map[] then 0 else
      var k :| k in m;
      m[k] + Total(m - {k})
  }

  lemma {:induction false} TotalRemove(m: Table, k: PublicKey)
    requires k in m
    ensures Total(m) == m[k] + Total(m - {k})
    decreases |m|
  {
    var x :| x in m && Total(m) == m[x] + Total(m - {x});
    if x == k {
    } else {
      TotalRemove(m - {x}, k);
      TotalRemove(m - {k}, x);
      assert m - {x} - {k} == m - {k} - {x};
    }
  }

  lemma TotalPut(m: Table, k: PublicKey, v: int)
    ensures Total(Put(m, k, v)) == Total(m) - Get(m, k) + v
  {
    var rest := m - {k};
    if k in m {
      TotalRemove(m, k);
    } else {
      assert rest == m;
    }
    if v != 0 {
      TotalRemove(m[k := v], k);
      assert m[k := v] - {k} == rest;
    }
  }

  /** A transfer moves value; only a counterpoint creates it. */
  lemma MoveTotal(m: Table, cn: Consideration)
    ensures Total(Move(m, cn)) == Total(m) + (if cn.IsCounterPoint() then 1 else 0)
  {
    if cn.IsCounterPoint() {
      TotalPut(m, cn.recipient, Get(m, cn.recipient) + 1);
    } else {
      var paid := Put(m, cn.sender.value, Get(m, cn.sender.value) - 1);
      TotalPut(m, cn.sender.value, Get(m, cn.sender.value) - 1);
      TotalPut(paid, cn.recipient, Get(paid, cn.recipient) + 1);
    }
  }

  lemma {:induction false} MoveAllTotal(m: Table, cns: seq<Consideration>)
    requires forall i :: 0 <= i < |cns| ==> !cns[i].IsCounterPoint()
    ensures Total(MoveAll(m, cns)) == Total(m)
  {
    if cns == [] {
    } else {
      MoveAllTotal(m, cns[..|cns| - 1]);
      MoveTotal(MoveAll(m, cns[..|cns| - 1]), cns[|cns| - 1]);
    }
  }

  // ----- a table seen through a partial cache of newer balances

  function Overlay(m: Table, cache: Table): Table
  {
    map k | k in m.Keys + cache.Keys && (if k in cache then cache[k] else m[k]) != 0
      :: if k in cache then cache[k] else m[k]
  }

  lemma OverlayGet(m: Table, cache: Table)
    ensures Canonical(Overlay(m, cache))
    ensures forall k :: Get(Overlay(m, cache), k) == if k in cache then cache[k] else Get(m, k)
  {
  }

  lemma OverlayPut(m: Table, cache: Table, k: PublicKey, v: int)
    ensures Overlay(m, cache[k := v]) == Put(Overlay(m, cache), k, v)
  {
    var r, e := Overlay(m, cache[k := v]), Put(Overlay(m, cache), k, v);
    OverlayGet(m, cache);
    OverlayGet(m, cache[k := v]);
    CanonicalUnique(r, e);
  }

  lemma OverlayEmpty(m: Table)
    requires Canonical(m)
    ensures Overlay(m, map[]) == m
  {
    OverlayGet(m, map[]);
    CanonicalUnique(Overlay(m, map[]), m);
  }

  /** The cache after both parties of a consideration have been looked up and written back. */
  function ApplyTo(m: Table, cache: Table, cn: Consideration): Table
  {
    var paid := if cn.IsCounterPoint() then cache else cache[cn.sender.value := Get(Overlay(m, cache), cn.sender.value) - 1];
    paid[cn.recipient := Get(Overlay(m, paid), cn.recipient) + 1]
  }

  lemma ApplyToMoves(m: Table, cache: Table, cn: Consideration)
    ensures Overlay(m, ApplyTo(m, cache, cn)) == Move(Overlay(m, cache), cn)
  {
    hide Overlay;
    if !cn.IsCounterPoint() {
      OverlayPut(m, cache, cn.sender.value, Get(Overlay(m, cache), cn.sender.value) - 1);
    }
    var paid := if cn.IsCounterPoint() then cache else cache[cn.sender.value := Get(Overlay(m, cache), cn.sender.value) - 1];
    OverlayPut(m, paid, cn.recipient, Get(Overlay(m, paid), cn.recipient) + 1);
  }
}
