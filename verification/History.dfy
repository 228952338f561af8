/** What the balances mean: received minus sent plus matured counterpoints, and the total supply. */
module History {
  import opened Considerations
  import opened Balances
  import opened Chain

  // ----- supply

  /** A counterpoint is created by every count, and becomes spendable 100 counts later. */
  lemma {:induction false} Supply(chain: Blocks)
    requires AllWellFormed(chain)
    ensures Total(BalancesOf(chain)) == if |chain| > 100 then |chain| - 100 else 0
  {
    if chain == [] {
    } else {
      var below, cns := Init(chain), Last(chain).count.considerations;
      var m := BalancesOf(below);
      Supply(below);
      var matured := Optional(Matured(below));
      MoveAllConcat(m, matured, cns[1..]);
      MoveAllTotal(MoveAll(m, matured), cns[1..]);
      if matured != [] {
        MoveAllPush(m, [], matured[0]);
        assert [] + matured == matured;
        MoveTotal(m, matured[0]);
      }
    }
  }

  // ----- balance equals history

  /** What a count adds to a key's balance once its counterpoint is, or is not, mature. */
  function CountDelta(count: Count, mature: bool, k: PublicKey): int
    requires WellFormed(count)
  {
    (if mature then Delta(count.considerations[0], k) else 0) + DeltaAll(count.considerations[1..], k)
  }

  /** The sum over the lowest `n` counts of a chain of `length` counts, which decides what is mature. */
  function Upto(chain: Blocks, length: nat, n: nat, k: PublicKey): int
    requires AllWellFormed(chain) && n <= |chain|
  {
    if n == 0 then 0
    else Upto(chain, length, n - 1, k) + CountDelta(chain[n - 1].count, n + COUNTERPOINT_MATURITY <= length, k)
  }

  /** One more count matures the counterpoint 100 counts below it and no other. */
  lemma {:induction false} UptoGrows(chain: Blocks, b: Block, n: nat, k: PublicKey)
    requires AllWellFormed(chain) && WellFormed(b.count) && n <= |chain|
    ensures AllWellFormed(chain + [b])
    ensures Upto(chain + [b], |chain| + 1, n, k) == Upto(chain, |chain|, n, k)
      + (if 0 <= |chain| - COUNTERPOINT_MATURITY < n then Delta(chain[|chain| - COUNTERPOINT_MATURITY].count.considerations[0], k) else 0)
  {
    if n == 0 {
    } else {
      UptoGrows(chain, b, n - 1, k);
      assert (chain + [b])[n - 1] == chain[n - 1];
    }
  }

  /** The replayed balance of a key is the sum of its history. */
  lemma {:induction false} BalanceIsHistory(chain: Blocks, k: PublicKey)
    requires AllWellFormed(chain)
    ensures Get(BalancesOf(chain), k) == Upto(chain, |chain|, |chain|, k)
  {
    if chain == [] {
    } else {
      var below, b := Init(chain), Last(chain);
      assert chain == below + [b];
      BalanceIsHistory(below, k);
      UptoGrows(below, b, |below|, k);
      MoveAllEffect(BalancesOf(below), Effects(below, b.count), k);
      DeltaAllConcat(Optional(Matured(below)), b.count.considerations[1..], k);
      MaturedDelta(below, k);
    }
  }

  lemma MaturedDelta(chain: Blocks, k: PublicKey)
    requires AllWellFormed(chain)
    ensures DeltaAll(Optional(Matured(chain)), k) == if Matured(chain).Some? then Delta(Matured(chain).value, k) else 0
  {
    if Matured(chain).Some? {
      assert DeltaAll([Matured(chain).value], k) == DeltaAll([], k) + Delta(Matured(chain).value, k);
    }
  }

  // ----- the sum over a key's index rows, in whatever order they are read

  function RowValue(chain: Blocks, row: KeyRow): int
  {
    if !IsAt(chain, row.height, row.index) || (row.index == 0 && row.height + COUNTERPOINT_MATURITY >= |chain|) then 0
    else Delta(At(chain, row.height, row.index), row.key)
  }

  ghost function SumRows(chain: Blocks, rows: set<KeyRow>): int
  {
    if rows == {} then 0 else
      var row :| row in rows;
      RowValue(chain, row) + SumRows(chain, rows - {row})
  }

  lemma {:induction false} SumRowsRemove(chain: Blocks, rows: set<KeyRow>, row: KeyRow)
    requires row in rows
    ensures SumRows(chain, rows) == RowValue(chain, row) + SumRows(chain, rows - {row})
    decreases |rows|
  {
    var x :| x in rows && SumRows(chain, rows) == RowValue(chain, x) + SumRows(chain, rows - {x});
    if x == row {
    } else {
      SumRowsRemove(chain, rows - {x}, row);
      SumRowsRemove(chain, rows - {row}, x);
      assert rows - {x} - {row} == rows - {row} - {x};
    }
  }

  /** The rows of a key below position (n, i). */
  function RowsBelow(chain: Blocks, lo: nat, k: PublicKey, n: nat, i: nat): set<KeyRow>
  {
    set r | r in KeyRows(chain, lo) && r.key == k && (r.height < n || (r.height == n && r.index < i))
  }

  function PartialDelta(count: Count, mature: bool, i: nat, k: PublicKey): int
    requires WellFormed(count) && i <= |count.considerations|
  {
    if i == 0 then 0
    else (if mature then Delta(count.considerations[0], k) else 0) + DeltaAll(count.considerations[1..i], k)
  }

  lemma PartialDeltaStep(count: Count, mature: bool, i: nat, k: PublicKey)
    requires WellFormed(count) && i < |count.considerations|
    ensures PartialDelta(count, mature, i + 1, k) == PartialDelta(count, mature, i, k)
      + (if i == 0 && !mature then 0 else Delta(count.considerations[i], k))
  {
    var cns := count.considerations;
    if i > 0 {
      assert cns[1..i + 1] == cns[1..i] + [cns[i]];
      assert cns[1..i + 1][..i - 1] == cns[1..i];
    }
  }

  lemma RowsBelowStep(chain: Blocks, lo: nat, k: PublicKey, n: nat, i: nat)
    requires lo <= n && IsAt(chain, n, i)
    ensures RowsBelow(chain, lo, k, n, i + 1)
      == if k in Parties(At(chain, n, i)) then RowsBelow(chain, lo, k, n, i) + {KeyRow(k, n, i)} else RowsBelow(chain, lo, k, n, i)
    ensures RowsBelow(chain, lo, k, n, i + 1) - {KeyRow(k, n, i)} == RowsBelow(chain, lo, k, n, i)
  {
    if k in Parties(At(chain, n, i)) {
      assert KeyRow(k, n, i) in KeyRows(chain, lo);
    }
  }

  lemma {:induction false} SumRowsInCount(chain: Blocks, lo: nat, k: PublicKey, n: nat, i: nat)
    requires AllWellFormed(chain) && lo <= n < |chain| && i <= |chain[n].count.considerations|
    ensures SumRows(chain, RowsBelow(chain, lo, k, n, i)) == SumRows(chain, RowsBelow(chain, lo, k, n, 0))
      + PartialDelta(chain[n].count, n + 1 + COUNTERPOINT_MATURITY <= |chain|, i, k)
  {
    hide SumRows, KeyRows, RowsBelow, DeltaAll, WellFormed;
    if i == 0 {
    } else {
      hide PartialDelta;
      SumRowsInCount(chain, lo, k, n, i - 1);
      RowsBelowStep(chain, lo, k, n, i - 1);
      PartialDeltaStep(chain[n].count, n + 1 + COUNTERPOINT_MATURITY <= |chain|, i - 1, k);
      var row, after := KeyRow(k, n, i - 1), RowsBelow(chain, lo, k, n, i);
      if k in Parties(At(chain, n, i - 1)) {
        SumRowsRemove(chain, after, row);
      }
    }
  }

  lemma RowsBelowNextCount(chain: Blocks, lo: nat, k: PublicKey, n: nat)
    requires n < |chain|
    ensures RowsBelow(chain, lo, k, n + 1, 0) == RowsBelow(chain, lo, k, n, |chain[n].count.considerations|)
  {
  }

  lemma NoRowsBelow(chain: Blocks, lo: nat, k: PublicKey, n: nat)
    requires n <= lo
    ensures SumRows(chain, RowsBelow(chain, lo, k, n, 0)) == 0
  {
    assert RowsBelow(chain, lo, k, n, 0) == {};
  }

  lemma WholeCountDelta(count: Count, mature: bool, k: PublicKey)
    requires WellFormed(count)
    ensures PartialDelta(count, mature, |count.considerations|, k) == CountDelta(count, mature, k)
  {
    assert count.considerations[1..|count.considerations|] == count.considerations[1..];
  }

  lemma {:induction false} SumRowsIsUpto(chain: Blocks, lo: nat, k: PublicKey, n: nat)
    requires AllWellFormed(chain) && n <= |chain| && lo <= |chain|
    ensures SumRows(chain, RowsBelow(chain, lo, k, n, 0))
      == Upto(chain, |chain|, n, k) - Upto(chain, |chain|, if lo <= n then lo else n, k)
  {
    hide RowsBelow, KeyRows, SumRows, CountDelta, DeltaAll, WellFormed;
    if n <= lo {
      NoRowsBelow(chain, lo, k, n);
    } else {
      var cns := chain[n - 1].count.considerations;
      SumRowsIsUpto(chain, lo, k, n - 1);
      SumRowsInCount(chain, lo, k, n - 1, |cns|);
      RowsBelowNextCount(chain, lo, k, n - 1);
      WholeCountDelta(chain[n - 1].count, n + COUNTERPOINT_MATURITY <= |chain|, k);
    }
  }
}
