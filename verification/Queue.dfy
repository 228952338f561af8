/** The in-memory FIFO of unconfirmed considerations. */
module Queue {
  import opened Considerations
  import opened Balances
  import opened Chain
  import opened Replay
  import opened Ledger

  // ----- sequences of considerations as the queue edits them

  function Excluding(s: seq<Consideration>, ids: set<ConsiderationID>): seq<Consideration>
  {
    if s == [] then []
    else if s[0].ID() in ids then Excluding(s[1..], ids)
    else [s[0]] + Excluding(s[1..], ids)
  }

  function IDSet(s: seq<Consideration>): set<ConsiderationID> { IDsBetween(s, 0, |s|) }

  ghost predicate Distinct(s: seq<Consideration>)
  {
    forall i, j :: 0 <= i < j < |s| ==> s[i].ID() != s[j].ID()
  }

  lemma {:induction false} DistinctCardinality(cns: seq<Consideration>, n: nat)
    requires Distinct(cns) && n <= |cns|
    ensures |IDsBetween(cns, 0, n)| == n
  {
    if n == 0 {
    } else {
      hide Distinct;
      DistinctCardinality(cns, n - 1);
      DistinctFrom(cns, n - 1);
      assert IDsBetween(cns, 0, n) == IDsBetween(cns, 0, n - 1) + {cns[n - 1].ID()};
    }
  }

  lemma DistinctFrom(cns: seq<Consideration>, n: nat)
    requires Distinct(cns) && n < |cns|
    ensures cns[n].ID() !in IDsBetween(cns, 0, n)
  {
  }

  lemma {:induction false} ExcludingEffect(s: seq<Consideration>, ids: set<ConsiderationID>)
    ensures IDSet(Excluding(s, ids)) == IDSet(s) - ids
    ensures Distinct(s) ==> Distinct(Excluding(s, ids))
    ensures forall i :: 0 <= i < |Excluding(s, ids)| ==> Excluding(s, ids)[i] in s
  {
    if s == [] {
    } else {
      ExcludingEffect(s[1..], ids);
      var rest := Excluding(s[1..], ids);
      assert s == [s[0]] + s[1..];
      IDSetConcat([s[0]], s[1..]);
      IDSetConcat([s[0]], rest);
      assert IDSet([s[0]]) == {s[0].ID()};
      if Distinct(s) {
        assert Distinct(s[1..]);
        forall j | 0 <= j < |rest| ensures rest[j].ID() != s[0].ID() {
          assert rest[j].ID() in IDSet(rest);
          var k :| 0 <= k < |s[1..]| && s[1..][k].ID() == rest[j].ID();
          assert s[k + 1] == s[1..][k];
        }
      }
    }
  }

  lemma IDSetConcat(a: seq<Consideration>, b: seq<Consideration>)
    ensures IDSet(a + b) == IDSet(a) + IDSet(b)
  {
    forall id | id in IDSet(b) ensures id in IDSet(a + b) {
      var i :| 0 <= i < |b| && b[i].ID() == id;
      assert (a + b)[|a| + i] == b[i];
    }
    forall id | id in IDSet(a) ensures id in IDSet(a + b) {
      var i :| 0 <= i < |a| && a[i].ID() == id;
      assert (a + b)[i] == a[i];
    }
  }

  lemma {:induction false} ExcludingConcat(a: seq<Consideration>, b: seq<Consideration>, ids: set<ConsiderationID>)
    ensures Excluding(a + b, ids) == Excluding(a, ids) + Excluding(b, ids)
  {
    if a == [] {
      assert a + b == b;
    } else {
      assert (a + b)[1..] == a[1..] + b;
      ExcludingConcat(a[1..], b, ids);
    }
  }

  lemma {:induction false} ExcludingNone(s: seq<Consideration>, ids: set<ConsiderationID>)
    requires IDSet(s) !! ids
    ensures Excluding(s, ids) == s
  {
    if s == [] {
    } else {
      assert s[0].ID() in IDSet(s);
      assert s == [s[0]] + s[1..];
      IDSetConcat([s[0]], s[1..]);
      ExcludingNone(s[1..], ids);
    }
  }

  lemma {:induction false} ExcludingTwice(s: seq<Consideration>, a: set<ConsiderationID>, b: set<ConsiderationID>)
    ensures Excluding(Excluding(s, a), b) == Excluding(s, a + b)
  {
    if s == [] {
    } else {
      ExcludingTwice(s[1..], a, b);
    }
  }

  // ----- list elements

  /** A list element; the serial number stands for its address. */
  datatype Element = Element(serial: nat, value: Consideration)

  function Values(q: seq<Element>): seq<Consideration> { seq(|q|, i requires 0 <= i < |q| => q[i].value) }

  function Without(q: seq<Element>, e: Element): seq<Element>
  {
    if q == [] then [] else if q[0] == e then q[1..] else [q[0]] + Without(q[1..], e)
  }

  lemma {:induction false} WithoutEffect(q: seq<Element>, e: Element)
    requires e in q && Distinct(Values(q))
    ensures Values(Without(q, e)) == Excluding(Values(q), {e.value.ID()})
    ensures forall x :: x in Without(q, e) <==> x in q && x != e
  {
    assert Values(q)[0] == q[0].value;
    assert Values(q)[1..] == Values(q[1..]);
    forall k | 0 <= k < |q[1..]| ensures q[1..][k].value.ID() != q[0].value.ID() {
      assert Values(q)[k + 1] == q[k + 1].value;
    }
    if q[0] == e {
      assert IDSet(Values(q[1..])) !! {e.value.ID()};
      ExcludingNone(Values(q[1..]), {e.value.ID()});
      forall x | x in q && x != e ensures x in q[1..] {
      }
    } else {
      assert e in q[1..];
      assert Distinct(Values(q[1..])) by {
        assert forall i :: 0 <= i < |q| - 1 ==> Values(q[1..])[i] == Values(q)[i + 1];
      }
      WithoutEffect(q[1..], e);
      assert Values([q[0]] + Without(q[1..], e)) == [q[0].value] + Values(Without(q[1..], e));
    }
  }

  // ----- rebuilding the queue

  predicate Current(cn: Consideration, height: int)
  {
    CheckSeries(cn, height) && cn.IsMature(height) && !cn.IsExpired(height)
  }

  /** The queue as a value: its entries in order, its cache, and what was applied since the last reset but rejected. */
  datatype QueueState = QueueState(contents: seq<Consideration>, cache: Table, leaked: seq<Consideration>)

  /** The ledger's balances with the cached ones laid over them. */
  function ViewOf(m: Table, q: QueueState): Table { Overlay(m, q.cache) }

  /** A payable consideration is applied first; only then does the descent check keep or reject it. */
  function Taken(m: Table, q: QueueState, cn: Consideration, descends: Descends): QueueState
  {
    var cache := ApplyTo(m, q.cache, cn);
    if SenderDescends(descends, cn) then QueueState(q.contents, cache, q.leaked + [cn])
    else QueueState(q.contents + [cn], cache, q.leaked)
  }

  /** Adding a consideration at the back. */
  function Added(m: Table, q: QueueState, cn: Consideration, descends: Descends): QueueState
  {
    if cn.ID() in IDSet(q.contents) || !CanPay(ViewOf(m, q), cn) then q else Taken(m, q, cn, descends)
  }

  predicate AddSucceeds(m: Table, q: QueueState, cn: Consideration, descends: Descends)
  {
    cn.ID() !in IDSet(q.contents) && CanPay(ViewOf(m, q), cn) && !SenderDescends(descends, cn)
  }

  /** One pass over a list with a fresh cache. */
  function Sift(m: Table, s: seq<Consideration>, height: int, descends: Descends): QueueState
  {
    if s == [] then QueueState([], map[], []) else
      SiftOne(m, Sift(m, s[..|s| - 1], height, descends), s[|s| - 1], height, descends)
  }

  function SiftOne(m: Table, p: QueueState, cn: Consideration, height: int, descends: Descends): QueueState
  {
    if !Current(cn, height) || !CanPay(ViewOf(m, p), cn) then p else Taken(m, p, cn, descends)
  }

  // ----- solvency

  /** The cache is the ledger plus the queue in order, and every entry can be paid when its turn comes. */
  ghost predicate Solvent(m: Table, q: QueueState)
  {
    Covered(m, q.contents) && ViewOf(m, q) == MoveAll(m, q.contents)
  }

  predicate AccountsAt(m: Table, q: QueueState, k: PublicKey)
  {
    Get(ViewOf(m, q), k) == Get(m, k) + DeltaAll(q.contents, k) + DeltaAll(q.leaked, k)
  }

  /** The cache is the ledger plus everything applied; with nothing leaked, the queue is solvent. */
  ghost predicate Accounts(m: Table, q: QueueState)
  {
    && (forall k {:trigger AccountsAt(m, q, k)} :: AccountsAt(m, q, k))
    && (q.leaked == [] ==> Solvent(m, q))
  }

  predicate AllCurrent(s: seq<Consideration>, height: int) { forall i :: 0 <= i < |s| ==> Current(s[i], height) }

  /** What a rebuild establishes: the cache accounts for the queue, and every entry may be in the next count. */
  ghost predicate IsSettled(m: Table, length: nat, q: QueueState) { Accounts(m, q) && AllCurrent(q.contents, length) }

  lemma TakenAccounts(m: Table, q: QueueState, cn: Consideration, descends: Descends)
    requires Accounts(m, q) && CanPay(ViewOf(m, q), cn)
    ensures Accounts(m, Taken(m, q, cn, descends))
  {
    hide ApplyTo, Overlay, Move, Covered, MoveAll, DeltaAll, CanPay;
    var r := Taken(m, q, cn, descends);
    ApplyToMoves(m, q.cache, cn);
    MoveAllPush(m, q.contents, cn);
    forall k ensures AccountsAt(m, r, k) {
      assert AccountsAt(m, q, k);
      MoveEffect(ViewOf(m, q), cn, k);
      DeltaAllPush(q.contents, cn, k);
      DeltaAllPush(q.leaked, cn, k);
    }
  }

  lemma DeltaAllPush(s: seq<Consideration>, cn: Consideration, k: PublicKey)
    ensures DeltaAll(s + [cn], k) == DeltaAll(s, k) + Delta(cn, k)
  {
    assert (s + [cn])[..|s|] == s;
  }

  lemma {:induction false} SiftAccounts(m: Table, s: seq<Consideration>, height: int, descends: Descends)
    requires Canonical(m)
    ensures Accounts(m, Sift(m, s, height, descends)) && AllCurrent(Sift(m, s, height, descends).contents, height)
  {
    hide Accounts, Taken, CanPay, Current, ViewOf;
    if s == [] {
      EmptyAccounts(m);
      SiftNone(m, height, descends);
    } else {
      var p, cn := Sift(m, s[..|s| - 1], height, descends), s[|s| - 1];
      SiftAccounts(m, s[..|s| - 1], height, descends);
      if Current(cn, height) && CanPay(ViewOf(m, p), cn) {
        TakenAccounts(m, p, cn, descends);
        TakenContents(m, p, cn, descends);
      }
    }
  }

  lemma TakenContents(m: Table, q: QueueState, cn: Consideration, descends: Descends)
    ensures var c := Taken(m, q, cn, descends).contents; c == q.contents || c == q.contents + [cn]
  {
  }

  lemma {:induction false} SiftKeeps(m: Table, s: seq<Consideration>, height: int, descends: Descends)
    ensures forall cn :: cn in Sift(m, s, height, descends).contents || cn in Sift(m, s, height, descends).leaked ==> cn in s
  {
    hide CanPay, Current, ViewOf, ApplyTo;
    if s == [] {
      SiftNone(m, height, descends);
    } else {
      SiftKeeps(m, s[..|s| - 1], height, descends);
    }
  }

  lemma EmptyAccounts(m: Table)
    requires Canonical(m)
    ensures Accounts(m, QueueState([], map[], [])) && AllCurrent([], 0)
  {
    OverlayEmpty(m);
  }

  ghost predicate Neutral(s: seq<Consideration>) { forall k :: DeltaAll(s, k) == 0 }

  /** From a solvent queue, adding leaves it solvent exactly unless the descent check rejects what was just applied. */
  lemma AddSolventIff(m: Table, q: QueueState, cn: Consideration, descends: Descends)
    requires Solvent(m, q) && cn.sender != Some(cn.recipient)
    ensures Solvent(m, Added(m, q, cn, descends)) <==>
      !(cn.ID() !in IDSet(q.contents) && CanPay(ViewOf(m, q), cn) && SenderDescends(descends, cn))
  {
    hide ApplyTo, Overlay, Covered, MoveAll, IDSet;
    ApplyToMoves(m, q.cache, cn);
    MoveAllPush(m, q.contents, cn);
    if cn.ID() !in IDSet(q.contents) && CanPay(ViewOf(m, q), cn) && SenderDescends(descends, cn) {
      MoveEffect(ViewOf(m, q), cn, cn.recipient);
    }
  }

  /** The pass meets a current, payable entry that the descent check rejects. */
  ghost predicate MeetsLate(m: Table, s: seq<Consideration>, height: int, descends: Descends)
  {
    exists i :: 0 <= i < |s| && IsLate(m, s, i, height, descends)
  }

  predicate IsLate(m: Table, s: seq<Consideration>, i: nat, height: int, descends: Descends)
    requires i < |s|
  {
    Current(s[i], height) && CanPay(ViewOf(m, Sift(m, s[..i], height, descends)), s[i]) && SenderDescends(descends, s[i])
  }

  lemma {:induction false} LeaksIff(m: Table, s: seq<Consideration>, height: int, descends: Descends)
    ensures Sift(m, s, height, descends).leaked != [] <==> MeetsLate(m, s, height, descends)
  {
    hide Current, CanPay, ApplyTo, ViewOf;
    if s == [] {
      SiftNone(m, height, descends);
    } else {
      var t, n := s[..|s| - 1], |s| - 1;
      LeaksIff(m, t, height, descends);
      forall i | 0 <= i < n ensures IsLate(m, s, i, height, descends) <==> IsLate(m, t, i, height, descends) {
        assert s[..i] == t[..i];
      }
      if MeetsLate(m, t, height, descends) {
        var i :| 0 <= i < |t| && IsLate(m, t, i, height, descends);
        assert IsLate(m, s, i, height, descends);
      }
      if MeetsLate(m, s, height, descends) {
        var i :| 0 <= i < |s| && IsLate(m, s, i, height, descends);
        assert i < n ==> IsLate(m, t, i, height, descends);
      }
      assert IsLate(m, s, n, height, descends) ==> MeetsLate(m, s, height, descends);
    }
  }

  /** A queue that accounts is solvent exactly when what leaked nets to nothing and its entries are covered. */
  lemma AccountsSolventIff(m: Table, q: QueueState)
    requires Canonical(m) && Accounts(m, q)
    ensures Solvent(m, q) <==> Neutral(q.leaked) && Covered(m, q.contents)
  {
    hide Covered, MoveAll, Overlay, DeltaAll;
    OverlayGet(m, q.cache);
    MoveAllCanonical(m, q.contents);
    var replayed := MoveAll(m, q.contents);
    forall k ensures DeltaAll(q.leaked, k) == Get(ViewOf(m, q), k) - Get(replayed, k) {
      assert AccountsAt(m, q, k);
      MoveAllEffect(m, q.contents, k);
    }
    if Neutral(q.leaked) {
      CanonicalUnique(ViewOf(m, q), replayed);
    }
  }

  /** After a rebuild the queue is solvent exactly when the late rejections net to nothing and what is kept is covered. */
  lemma RebuildSolventIff(m: Table, s: seq<Consideration>, height: int, descends: Descends)
    requires Canonical(m)
    ensures var p := Sift(m, s, height, descends);
      Solvent(m, p) <==> Neutral(p.leaked) && Covered(m, p.contents)
  {
    hide Sift, Covered, MoveAll, Overlay, DeltaAll, Accounts, Solvent, Neutral;
    SiftAccounts(m, s, height, descends);
    AccountsSolventIff(m, Sift(m, s, height, descends));
  }

  lemma AddedContents(m: Table, q: QueueState, cn: Consideration, descends: Descends)
    ensures Added(m, q, cn, descends).contents == if AddSucceeds(m, q, cn, descends) then q.contents + [cn] else q.contents
  {
  }

  /** Adding what could be in the next count keeps a settled queue settled, late rejections included. */
  lemma AddKeepsSettled(m: Table, length: nat, q: QueueState, cn: Consideration, descends: Descends)
    requires IsSettled(m, length, q) && Current(cn, length)
    ensures IsSettled(m, length, Added(m, q, cn, descends))
  {
    hide Accounts, Taken, CanPay, Current, ViewOf, IDSet;
    if cn.ID() !in IDSet(q.contents) && CanPay(ViewOf(m, q), cn) {
      TakenAccounts(m, q, cn, descends);
      TakenContents(m, q, cn, descends);
    }
  }

  // ----- a descent check that is an order

  /** Descent from a graph without cycles: transitive, and never both ways between two keys. */
  ghost predicate IsOrder(descends: Descends)
  {
    && (forall a, b, c {:trigger descends(a, b), descends(b, c)} :: descends(a, b) && descends(b, c) ==> descends(a, c))
    && (forall a, b {:trigger descends(a, b), descends(b, a)} :: descends(a, b) && descends(b, a) ==> a == b)
  }

  /** Among finitely many keys, one descends from no other. */
  lemma {:induction false} SomeTop(descends: Descends, keys: set<PublicKey>) returns (top: PublicKey)
    requires IsOrder(descends) && keys != {}
    ensures top in keys && forall k :: k in keys && k != top ==> !descends(k, top)
    decreases |keys|
  {
    var x :| x in keys;
    if keys == {x} {
      top := x;
    } else {
      var y := SomeTop(descends, keys - {x});
      top := if descends(x, y) then x else y;
    }
  }

  function PartiesOf(s: seq<Consideration>): set<PublicKey> { set i, k | 0 <= i < |s| && k in Parties(s[i]) :: k }

  lemma {:induction false} OnlyReceives(s: seq<Consideration>, k: PublicKey)
    requires forall i :: 0 <= i < |s| ==> s[i].sender != Some(k)
    ensures DeltaAll(s, k) >= 0 && ((exists i :: 0 <= i < |s| && s[i].recipient == k) ==> DeltaAll(s, k) > 0)
  {
    if s == [] {
    } else {
      var t := s[..|s| - 1];
      OnlyReceives(t, k);
      if i :| 0 <= i < |s| && s[i].recipient == k {
        assert i < |t| ==> t[i].recipient == k;
      }
    }
  }

  /** Late rejections under an order never cancel: some key only gains by them. */
  lemma OrderNeverCancels(s: seq<Consideration>, descends: Descends)
    requires IsOrder(descends) && s != []
    requires forall i :: 0 <= i < |s| ==> SenderDescends(descends, s[i]) && s[i].sender != Some(s[i].recipient)
    ensures !Neutral(s)
  {
    hide DeltaAll, IsOrder;
    assert s[0].recipient in Parties(s[0]);
    assert s[0].recipient in PartiesOf(s);
    var top := SomeTop(descends, PartiesOf(s));
    forall i | 0 <= i < |s| ensures s[i].sender != Some(top) {
      assert s[i].recipient in Parties(s[i]);
      assert s[i].recipient in PartiesOf(s);
    }
    OnlyReceives(s, top);
    assert DeltaAll(s, top) > 0;
  }

  lemma {:induction false} LeakedDescend(m: Table, s: seq<Consideration>, height: int, descends: Descends)
    ensures forall i :: 0 <= i < |Sift(m, s, height, descends).leaked| ==>
      SenderDescends(descends, Sift(m, s, height, descends).leaked[i]) && Sift(m, s, height, descends).leaked[i] in s
  {
    hide CanPay, Current, ViewOf, ApplyTo;
    if s == [] {
      SiftNone(m, height, descends);
    } else {
      LeakedDescend(m, s[..|s| - 1], height, descends);
    }
  }

  /** If some order rejects all that leaked, a queue that accounts is solvent exactly when nothing leaked. */
  lemma LeakedSolventIff(m: Table, q: QueueState, order: Descends)
    requires Canonical(m) && Accounts(m, q) && IsOrder(order)
    requires forall i :: 0 <= i < |q.leaked| ==> SenderDescends(order, q.leaked[i]) && q.leaked[i].sender != Some(q.leaked[i].recipient)
    ensures Solvent(m, q) <==> q.leaked == []
  {
    hide Covered, MoveAll, Overlay, DeltaAll, IsOrder, AccountsAt;
    AccountsSolventIff(m, q);
    if q.leaked != [] {
      OrderNeverCancels(q.leaked, order);
    }
  }

  /** Under such a check, a rebuild leaves the queue solvent exactly when it meets no late rejection. */
  lemma OrderedSolventIff(m: Table, s: seq<Consideration>, height: int, descends: Descends)
    requires Canonical(m) && IsOrder(descends)
    requires forall i :: 0 <= i < |s| ==> s[i].sender != Some(s[i].recipient)
    ensures Solvent(m, Sift(m, s, height, descends)) <==> !MeetsLate(m, s, height, descends)
  {
    hide Sift, Covered, MoveAll, Overlay, DeltaAll, IsOrder;
    SiftAccounts(m, s, height, descends);
    LeaksIff(m, s, height, descends);
    RebuildSolventIff(m, s, height, descends);
    LeakedDescend(m, s, height, descends);
    if MeetsLate(m, s, height, descends) {
      OrderNeverCancels(Sift(m, s, height, descends).leaked, descends);
    }
  }

  // ----- what a rebuild keeps, entry by entry

  /** What the applied ones among the first `n` entries have moved for a key. */
  function Moved(m: Table, s: seq<Consideration>, n: nat, height: int, k: PublicKey): int
    requires n <= |s|
    decreases n, 0
  {
    if n == 0 then 0
    else Moved(m, s, n - 1, height, k) + (if Applies(m, s, n - 1, height) then Delta(s[n - 1], k) else 0)
  }

  /** An entry is applied if it may be in the next count and, in its turn, its sender has a unit. */
  predicate Applies(m: Table, s: seq<Consideration>, i: nat, height: int)
    requires i < |s|
    decreases i, 1
  {
    Current(s[i], height) && (s[i].sender.Some? ==> Get(m, s[i].sender.value) + Moved(m, s, i, height, s[i].sender.value) >= 1)
  }

  /** Those of the first `n` entries that are applied and that the descent check admits, or rejects. */
  function Those(m: Table, s: seq<Consideration>, n: nat, height: int, descends: Descends, rejected: bool): seq<Consideration>
    requires n <= |s|
  {
    if n == 0 then [] else
      var last := if Applies(m, s, n - 1, height) && SenderDescends(descends, s[n - 1]) == rejected then [s[n - 1]] else [];
      Those(m, s, n - 1, height, descends, rejected) + last
  }

  /** A rebuild keeps, in order, just the entries that are applied and admitted; the others that are applied leak. */
  lemma {:induction false} SiftIs(m: Table, s: seq<Consideration>, n: nat, height: int, descends: Descends)
    requires n <= |s|
    ensures var p := Sift(m, s[..n], height, descends);
      && p.contents == Those(m, s, n, height, descends, false) && p.leaked == Those(m, s, n, height, descends, true)
      && forall k :: Get(ViewOf(m, p), k) == Get(m, k) + Moved(m, s, n, height, k)
  {
    hide Sift, ApplyTo, Overlay, Delta, Move, Current;
    if n == 0 {
      assert s[..0] == [];
      SiftNone(m, height, descends);
      OverlayGet(m, map[]);
    } else {
      var p, cn := Sift(m, s[..n - 1], height, descends), s[n - 1];
      SiftIs(m, s, n - 1, height, descends);
      assert s[..n] == s[..n - 1] + [cn];
      SiftPush(m, s[..n - 1], cn, height, descends);
      ApplyToMoves(m, p.cache, cn);
      forall k ensures Get(Move(ViewOf(m, p), cn), k) == Get(ViewOf(m, p), k) + Delta(cn, k) {
        MoveEffect(ViewOf(m, p), cn, k);
      }
    }
  }

  lemma SiftPush(m: Table, s: seq<Consideration>, cn: Consideration, height: int, descends: Descends)
    ensures Sift(m, s + [cn], height, descends) == SiftOne(m, Sift(m, s, height, descends), cn, height, descends)
  {
    assert (s + [cn])[..|s|] == s;
  }

  lemma SiftNone(m: Table, height: int, descends: Descends)
    ensures Sift(m, [], height, descends) == QueueState([], map[], [])
  {
  }

  lemma AppliedNothing(m: Table)
    ensures MoveAll(m, []) == m
  {
  }

  // ----- the map and the list agree

  ghost predicate Agree(cnMap: map<ConsiderationID, Element>, q: seq<Element>, serial: nat)
  {
    && (forall e :: e in q ==> e.serial < serial && e.value.ID() in cnMap && cnMap[e.value.ID()] == e)
    && (forall id :: id in cnMap ==> cnMap[id] in q && cnMap[id].value.ID() == id)
    && Distinct(Values(q))
  }

  lemma AgreeRemove(cnMap: map<ConsiderationID, Element>, q: seq<Element>, serial: nat, id: ConsiderationID)
    requires Agree(cnMap, q, serial) && id in cnMap
    ensures Agree(cnMap - {id}, Without(q, cnMap[id]), serial)
    ensures Values(Without(q, cnMap[id])) == Excluding(Values(q), {id})
  {
    WithoutEffect(q, cnMap[id]);
    ExcludingEffect(Values(q), {id});
  }

  lemma AgreeIDs(cnMap: map<ConsiderationID, Element>, q: seq<Element>, serial: nat)
    requires Agree(cnMap, q, serial)
    ensures cnMap.Keys == IDSet(Values(q))
  {
    forall id | id in cnMap ensures id in IDSet(Values(q)) {
      var i :| 0 <= i < |q| && q[i] == cnMap[id];
      assert Values(q)[i].ID() == id;
    }
    forall id | id in IDSet(Values(q)) ensures id in cnMap {
      var i :| 0 <= i < |Values(q)| && Values(q)[i].ID() == id;
      assert q[i] in q;
    }
  }

  lemma DistinctInsert(s: seq<Consideration>, cn: Consideration)
    requires Distinct(s) && cn.ID() !in IDSet(s)
    ensures Distinct([cn] + s) && Distinct(s + [cn])
  {
    assert forall i :: 0 <= i < |s| ==> s[i].ID() in IDSet(s);
  }

  lemma ValuesInsert(q: seq<Element>, e: Element)
    ensures Values([e] + q) == [e.value] + Values(q)
    ensures Values(q + [e]) == Values(q) + [e.value]
  {
  }

  lemma AgreeInsert(cnMap: map<ConsiderationID, Element>, q: seq<Element>, serial: nat, cn: Consideration, front: bool)
    requires Agree(cnMap, q, serial) && cn.ID() !in cnMap
    ensures var e := Element(serial, cn);
      Agree(cnMap[cn.ID() := e], if front then [e] + q else q + [e], serial + 1)
    ensures Values([Element(serial, cn)] + q) == [cn] + Values(q)
    ensures Values(q + [Element(serial, cn)]) == Values(q) + [cn]
  {
    hide Distinct, Values, IDSet;
    AgreeIDs(cnMap, q, serial);
    DistinctInsert(Values(q), cn);
    ValuesInsert(q, Element(serial, cn));
  }

  /** A rebuild in place, when the entries up to `i` have been looked at. */
  function Midway(m: Table, s: seq<Consideration>, i: nat, height: int, descends: Descends): QueueState
    requires i <= |s|
  {
    var p := Sift(m, s[..i], height, descends);
    p.(contents := p.contents + s[i..])
  }

  lemma MidwayNext(m: Table, s: seq<Consideration>, i: nat, height: int, descends: Descends)
    requires i < |s|
    ensures var p := Sift(m, s[..i], height, descends);
      && Midway(m, s, i, height, descends) == p.(contents := p.contents + ([s[i]] + s[i + 1..]))
      && var q := SiftOne(m, p, s[i], height, descends);
        Midway(m, s, i + 1, height, descends) == q.(contents := q.contents + s[i + 1..])
  {
    hide SiftOne;
    assert s[..i + 1] == s[..i] + [s[i]] && s[i..] == [s[i]] + s[i + 1..];
    SiftPush(m, s[..i], s[i], height, descends);
  }

  lemma MidwayEnds(m: Table, s: seq<Consideration>, height: int, descends: Descends)
    ensures Midway(m, s, 0, height, descends) == QueueState(s, map[], [])
    ensures Midway(m, s, |s|, height, descends) == Sift(m, s, height, descends)
  {
    SiftNone(m, height, descends);
    assert s[..0] == [] && s[0..] == s && [] + s == s && s[..|s|] == s;
    var p := Sift(m, s, height, descends);
    assert p.contents + s[|s|..] == p.contents;
  }

  class ConsiderationQueueMemory {
    const ledger: LedgerDisk
    const imbalanceCache: ImbalanceCache
    var cnMap: map<ConsiderationID, Element>
    var cnQueue: seq<Element>
    var nextSerial: nat
    /** Applied to the cache since it was last reset, but rejected by the descent check. */
    ghost var leaked: seq<Consideration>

    constructor (ledger: LedgerDisk)
      ensures Valid() && this.ledger == ledger && Contents() == [] && leaked == [] && fresh(imbalanceCache)
      ensures imbalanceCache.cache == map[]
    {
      this.ledger := ledger;
      imbalanceCache := new ImbalanceCache(ledger);
      cnMap := map[];
      cnQueue := [];
      nextSerial := 0;
      leaked := [];
    }

    ghost predicate Valid()
      reads this
    {
      imbalanceCache.ledger == ledger && Agree(cnMap, cnQueue, nextSerial)
    }

    function Contents(): seq<Consideration>
      reads this
    {
      Values(cnQueue)
    }

    function Len(): nat
      reads this
      ensures Len() == |Contents()|
    {
      |cnQueue|
    }

    ghost function Now(): QueueState
      reads this, imbalanceCache
    {
      QueueState(Contents(), imbalanceCache.cache, leaked)
    }

    ghost predicate Settled()
      reads this, imbalanceCache, ledger
    {
      IsSettled(ledger.t.balances, |ledger.chain|, Now())
    }

    /** Add to the back; returns whether it was added on this call. */
    method Add(cn: Consideration, descends: Descends) returns (r: Result<bool>)
      requires Valid()
      modifies this, imbalanceCache
      ensures Valid() && Now() == Added(ledger.t.balances, old(Now()), cn, descends)
      ensures r == Ok(false) <==> cn.ID() in IDSet(old(Contents()))
      ensures r == Ok(true) <==> AddSucceeds(ledger.t.balances, old(Now()), cn, descends)
    {
      hide Agree, CanPay, Move, ImbalanceCache.View, ApplyTo, IDSet;
      AgreeIDs(cnMap, cnQueue, nextSerial);
      imbalanceCache.ViewIsOverlay();
      if cn.ID() in cnMap {
        return Ok(false);
      }
      AgreeInsert(cnMap, cnQueue, nextSerial, cn, false);
      var ok := imbalanceCache.Apply(cn);
      if !ok {
        return Err(InsufficientImbalance);
      }
      if SenderDescends(descends, cn) {
        leaked := leaked + [cn];
        return Err(Descendant);
      }
      var e := Element(nextSerial, cn);
      cnQueue := cnQueue + [e];
      nextSerial := nextSerial + 1;
      cnMap := cnMap[cn.ID() := e];
      return Ok(true);
    }

    method Remove(id: ConsiderationID)
      requires Valid() && id in cnMap
      modifies this`cnMap, this`cnQueue
      ensures Valid() && Contents() == Excluding(old(Contents()), {id})
      ensures cnMap == old(cnMap) - {id}
    {
      hide Agree;
      AgreeRemove(cnMap, cnQueue, nextSerial, id);
      cnQueue := Without(cnQueue, cnMap[id]);
      cnMap := cnMap - {id};
    }

    /** The considerations of a disconnected count go to the front, in order. */
    method AddBatch(ids: seq<ConsiderationID>, cns: seq<Consideration>)
      requires Valid() && ids == ListIDs(cns) && Distinct(cns)
      modifies this`cnMap, this`cnQueue, this`nextSerial
      ensures Valid() && Contents() == cns + Excluding(old(Contents()), IDSet(cns))
    {
      hide Agree, Excluding, ListIDs, IDSet, Distinct;
      var i := |cns|;
      ListIDsAt(cns);
      PushBatchStart(Contents(), cns);
      while i > 0
        invariant 0 <= i <= |cns| && Valid()
        invariant Contents() == cns[i..] + Excluding(old(Contents()), IDSet(cns[i..]))
      {
        i := i - 1;
        PushBatchStep(old(Contents()), cns, i);
        AgreeIDs(cnMap, cnQueue, nextSerial);
        if ids[i] in cnMap {
          Remove(ids[i]);
        } else {
          ExcludingNone(Contents(), {ids[i]});
        }
        AgreeIDs(cnMap, cnQueue, nextSerial);
        AgreeInsert(cnMap, cnQueue, nextSerial, cns[i], true);
        var e := Element(nextSerial, cns[i]);
        cnQueue := [e] + cnQueue;
        nextSerial := nextSerial + 1;
        cnMap := cnMap[ids[i] := e];
      }
    }

    /** The considerations of a connected count leave; after the last connection the queue is rebuilt. */
    method RemoveBatch(ids: seq<ConsiderationID>, height: int, more: bool, descends: Descends)
      requires Valid() && ledger.Valid()
      modifies this, imbalanceCache
      ensures Valid()
      ensures var left := Excluding(old(Contents()), SetOf(ids));
        Now() == if more then old(Now()).(contents := left) else Sift(ledger.t.balances, left, height + 1, descends)
    {
      hide Agree, Excluding, IDSet, Distinct, Sift, LedgerDisk.Valid;
      assert SetOf(ids[..0]) == {};
      ExcludingNone(Contents(), {});
      for i := 0 to |ids|
        invariant Valid() && leaked == old(leaked) && imbalanceCache.cache == old(imbalanceCache.cache)
        invariant Contents() == Excluding(old(Contents()), SetOf(ids[..i]))
      {
        assert SetOf(ids[..i + 1]) == SetOf(ids[..i]) + {ids[i]};
        ExcludingTwice(old(Contents()), SetOf(ids[..i]), {ids[i]});
        AgreeIDs(cnMap, cnQueue, nextSerial);
        if ids[i] in cnMap {
          Remove(ids[i]);
        } else {
          ExcludingNone(Contents(), {ids[i]});
        }
      }
      assert ids[..|ids|] == ids;
      if !more {
        ReprocessQueue(height, descends);
      }
    }

    /** One round of ReprocessQueue's loop, with `p` the outcome so far and `rest` still to come. */
    method ReprocessOne(cn: Consideration, height: int, descends: Descends, ghost p: QueueState, ghost rest: seq<Consideration>)
      requires Valid() && Now() == p.(contents := p.contents + ([cn] + rest))
      modifies this`cnMap, this`cnQueue, this`leaked, imbalanceCache
      ensures Valid()
      ensures var q := SiftOne(ledger.t.balances, p, cn, height, descends); Now() == q.(contents := q.contents + rest)
    {
      hide Agree, Excluding, IDSet, Distinct, SiftOne, ApplyTo, CanPay, ImbalanceCache.View, Current;
      DropsOnly(p.contents, cn, rest);
      AgreeIDs(cnMap, cnQueue, nextSerial);
      AgreeDistinct(cnMap, cnQueue, nextSerial);
      imbalanceCache.ViewIsOverlay();
      SiftCases(ledger.t.balances, p, cn, height, descends);
      if !Current(cn, height) {
        Remove(cn.ID());
      } else {
        var ok := imbalanceCache.Apply(cn);
        if ok && SenderDescends(descends, cn) {
          leaked := leaked + [cn];
        }
        if !ok || SenderDescends(descends, cn) {
          Remove(cn.ID());
        }
      }
    }

    /** Rebuild the cache and drop the entries that are now in violation. */
    method ReprocessQueue(height: int, descends: Descends)
      requires Valid() && ledger.Valid()
      modifies this, imbalanceCache
      ensures Valid() && Now() == Sift(ledger.t.balances, old(Contents()), height + 1, descends)
    {
      hide Agree, SiftOne, Sift, LedgerDisk.Valid, Values, Midway;
      ghost var m := ledger.t.balances;
      imbalanceCache.Reset();
      leaked := [];
      var tmpQueue := Contents();
      MidwayEnds(m, tmpQueue, height + 1, descends);
      for i := 0 to |tmpQueue|
        invariant Valid() && ledger.t.balances == m
        invariant Now() == Midway(m, tmpQueue, i, height + 1, descends)
      {
        MidwayNext(m, tmpQueue, i, height + 1, descends);
        ReprocessOne(tmpQueue[i], height + 1, descends, Sift(m, tmpQueue[..i], height + 1, descends), tmpQueue[i + 1..]);
      }
    }

    /** The first considerations of the queue, or all of them. */
    method Get(limit: nat) returns (cns: seq<Consideration>)
      ensures cns == if limit == 0 || |Contents()| < limit then Contents() else Contents()[..limit]
    {
      var n := if limit == 0 || |cnQueue| < limit then |cnQueue| else limit;
      cns := [];
      for i := 0 to n
        invariant cns == Contents()[..i]
      {
        cns := cns + [cnQueue[i].value];
      }
    }

    method ExistsSigned(id: ConsiderationID, signature: seq<bv8>) returns (found: bool)
      requires Valid()
      ensures found <==> exists i :: 0 <= i < |Contents()| && Contents()[i].ID() == id && Contents()[i].signature == signature
    {
      found := id in cnMap && cnMap[id].value.signature == signature;
      if id in cnMap {
        var i :| 0 <= i < |cnQueue| && cnQueue[i] == cnMap[id];
        assert Contents()[i] == cnMap[id].value;
      }
      forall j | 0 <= j < |Contents()| && Contents()[j].ID() == id ensures id in cnMap && Contents()[j] == cnMap[id].value {
        assert cnQueue[j] in cnQueue;
      }
    }
  }

  function SetOf(ids: seq<ConsiderationID>): set<ConsiderationID> { set id | id in ids }

  lemma AgreeDistinct(cnMap: map<ConsiderationID, Element>, q: seq<Element>, serial: nat)
    requires Agree(cnMap, q, serial)
    ensures Distinct(Values(q))
  {
  }

  /** Dropping one entry of a list without duplicates drops just that entry. */
  lemma DropsOnly(kept: seq<Consideration>, cn: Consideration, rest: seq<Consideration>)
    ensures kept + ([cn] + rest) == kept + [cn] + rest
    ensures cn.ID() in IDSet(kept + ([cn] + rest))
    ensures Distinct(kept + ([cn] + rest)) ==> Excluding(kept + ([cn] + rest), {cn.ID()}) == kept + rest
  {
    hide Excluding;
    var s := kept + ([cn] + rest);
    assert s[|kept|] == cn;
    if Distinct(s) {
      assert forall i :: 0 <= i < |rest| ==> rest[i] == s[|kept| + 1 + i];
      assert forall i :: 0 <= i < |kept| ==> kept[i] == s[i];
      ExcludingConcat(kept, [cn] + rest, {cn.ID()});
      ExcludingConcat([cn], rest, {cn.ID()});
      ExcludingNone(kept, {cn.ID()});
      ExcludingNone(rest, {cn.ID()});
      ExcludingIt(cn);
      assert [] + rest == rest;
    }
  }

  lemma ExcludingIt(cn: Consideration)
    ensures Excluding([cn], {cn.ID()}) == []
  {
  }

  lemma SiftCases(m: Table, p: QueueState, cn: Consideration, height: int, descends: Descends)
    ensures !Current(cn, height) || !CanPay(Overlay(m, p.cache), cn) ==> SiftOne(m, p, cn, height, descends) == p
    ensures Current(cn, height) && CanPay(Overlay(m, p.cache), cn) && SenderDescends(descends, cn)
      ==> SiftOne(m, p, cn, height, descends) == QueueState(p.contents, ApplyTo(m, p.cache, cn), p.leaked + [cn])
    ensures Current(cn, height) && CanPay(Overlay(m, p.cache), cn) && !SenderDescends(descends, cn)
      ==> SiftOne(m, p, cn, height, descends) == QueueState(p.contents + [cn], ApplyTo(m, p.cache, cn), p.leaked)
  {
  }

  lemma {:induction false} ListIDsAt(cns: seq<Consideration>)
    ensures |ListIDs(cns)| == |cns|
    ensures forall i :: 0 <= i < |cns| ==> ListIDs(cns)[i] == cns[i].ID()
  {
    if cns == [] {
    } else {
      ListIDsAt(cns[..|cns| - 1]);
    }
  }

  lemma PushBatchStart(s: seq<Consideration>, cns: seq<Consideration>)
    ensures cns[|cns|..] + Excluding(s, IDSet(cns[|cns|..])) == s
    ensures cns[0..] == cns
  {
    assert cns[|cns|..] == [];
    ExcludingNone(s, IDSet([]));
  }

  /** Moving one more consideration to the front, out of wherever it was. */
  lemma PushBatchStep(s: seq<Consideration>, cns: seq<Consideration>, i: nat)
    requires i < |cns| && Distinct(cns)
    ensures [cns[i]] + Excluding(cns[i + 1..] + Excluding(s, IDSet(cns[i + 1..])), {cns[i].ID()})
      == cns[i..] + Excluding(s, IDSet(cns[i..]))
  {
    hide Excluding, IDSet;
    var tail, id := cns[i + 1..], {cns[i].ID()};
    ExcludingConcat(tail, Excluding(s, IDSet(tail)), id);
    TailDistinct(cns, i);
    ExcludingNone(tail, id);
    ExcludingTwice(s, IDSet(tail), id);
    assert cns[i..] == [cns[i]] + tail;
    IDSetConcat([cns[i]], tail);
    assert IDSet(tail) + id == IDSet(cns[i..]);
    var rest := Excluding(s, IDSet(cns[i..]));
    assert [cns[i]] + (tail + rest) == ([cns[i]] + tail) + rest;
  }

  lemma TailDistinct(cns: seq<Consideration>, i: nat)
    requires i < |cns| && Distinct(cns)
    ensures IDSet([cns[i]]) == {cns[i].ID()} && IDSet(cns[i + 1..]) !! {cns[i].ID()}
  {
    var tail := cns[i + 1..];
    forall k | 0 <= k < |tail| ensures tail[k].ID() != cns[i].ID() {
      assert tail[k] == cns[i + 1 + k];
    }
    assert [cns[i]][0].ID() in IDSet([cns[i]]);
  }
}
