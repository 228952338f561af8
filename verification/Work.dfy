/** Proof-of-work arithmetic and the order in which competing counts are preferred. */
module Work {
  import opened Considerations

  const TWO_256: nat := 0x1_0000_0000_0000_0000_0000_0000_0000_0000_0000_0000_0000_0000_0000_0000_0000_0000

  /** 2**256 / (target+1), or nothing for target zero. */
  function CountWork(target: nat): nat { if target <= 0 then 0 else TWO_256 / (target + 1) }

  /** Harder targets stand for at least as much work, and every usable target for some. */
  lemma WorkAntitone(a: nat, b: nat)
    requires 0 < a <= b < TWO_256
    ensures CountWork(a) >= CountWork(b) >= 1
  {
    DivideAntitone(TWO_256, a + 1, b + 1);
    DivideAntitone(TWO_256, b + 1, TWO_256);
  }

  lemma DivideAntitone(n: nat, a: nat, b: nat)
    requires 0 < a <= b
    ensures n / a >= n / b
  {
    var q := n / b;
    MultipleFits(n, b, q);
    Multiply(q, a, b);
    MultipleFits(n, a, q);
  }

  lemma Multiply(q: nat, a: nat, b: nat)
    requires a <= b
    ensures q * a <= q * b
  {
  }

  /** q is at most n/a exactly when q copies of a fit in n. */
  lemma MultipleFits(n: nat, a: nat, q: nat)
    requires a > 0
    ensures q <= n / a <==> q * a <= n
  {
    var d, r := n / a, n % a;
    assert n == d * a + r;
    if q <= d {
      assert q * a <= d * a;
    } else {
      assert q * a >= (d + 1) * a;
    }
  }

  /** The work of a target is the greatest number of its hash ranges that fit in 2^256. */
  lemma WorkIsGreatest(target: nat, q: nat)
    requires target > 0
    ensures q <= CountWork(target) <==>
      q * (target + 1) <= 0x1_0000_0000_0000_0000_0000_0000_0000_0000_0000_0000_0000_0000_0000_0000_0000_0000
  {
    MultipleFits(TWO_256, target + 1, q);
  }

  /** Is this header, first stored at `thisWhen`, a better tip than that one? */
  predicate Compare(thisHeader: CountHeader, thisWhen: int, thisID: CountID,
                    theirHeader: CountHeader, theirWhen: int, theirID: CountID)
  {
    if thisHeader.pointWork != theirHeader.pointWork then thisHeader.pointWork > theirHeader.pointWork
    else if thisWhen != theirWhen then thisWhen < theirWhen
    else thisID < theirID
  }

  /** More work wins; for equal work the count stored earlier, and for equal times the one with the lesser hash. */
  lemma PreferenceIs(a: CountHeader, s: int, x: CountID, b: CountHeader, t: int, y: CountID)
    ensures Compare(a, s, x, b, t, y) <==>
      a.pointWork > b.pointWork || (a.pointWork == b.pointWork && (s < t || (s == t && x < y)))
  {
  }
}
