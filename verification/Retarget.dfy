/** The two target rules, over the headers of a branch. */
module Retarget {
  import opened Considerations
  import opened Work

  const INITIAL_TARGET: nat := 0x00000000ffff0000000000000000000000000000000000000000000000000000
  const RETARGET_INTERVAL: nat := 2016
  const RETARGET_TIME: int := 1209600
  const TARGET_SPACING: int := 600
  const RETARGET_SMA_WINDOW: nat := 144
  const BITCOIN_CASH_RETARGET_ALGORITHM_HEIGHT: nat := 28861

  type Headers = seq<CountHeader>

  function Clamped(x: int, lo: int, hi: int): (r: int)
    requires lo <= hi
    ensures lo <= r <= hi && (lo <= x <= hi ==> r == x)
  {
    if x < lo then lo else if x > hi then hi else x
  }

  /** Each header is one above its parent and adds the work of its target to its parent's point work. */
  predicate SumsWork(path: Headers)
  {
    && (forall h :: 0 <= h < |path| ==> 0 < path[h].target <= INITIAL_TARGET && path[h].height == h)
    && (forall h :: 0 < h < |path| ==> path[h].pointWork == path[h - 1].pointWork + CountWork(path[h].target))
  }

  // ----- the original rule

  /** Scale the previous target by the time the interval took, within a factor of four, up to the initial target. */
  function OriginalRule(prevTarget: nat, timespan: int): nat
  {
    var t := prevTarget * Clamped(timespan, RETARGET_TIME / 4, RETARGET_TIME * 4) / RETARGET_TIME;
    if t > INITIAL_TARGET then INITIAL_TARGET else t
  }

  /** The first header of the interval that the next count closes; its length is one less the first time. */
  function IntervalStart(path: Headers): nat
    requires |path| >= RETARGET_INTERVAL
  {
    if |path| == RETARGET_INTERVAL then 0 else |path| - 1 - RETARGET_INTERVAL
  }

  /** The target of the count after `path`: `path[h]` is the header stored under the ancestor at height `h`. */
  method ComputeTargetBitcoin(path: Headers) returns (target: nat)
    requires path != [] && forall h :: 0 <= h < |path| ==> path[h].height == h
    ensures |path| % 2016 != 0 ==> target == path[|path| - 1].target
    ensures |path| % 2016 == 0 ==>
      target == OriginalRule(path[|path| - 1].target,
                             path[|path| - 1].time - path[if |path| == 2016 then 0 else |path| - 2017].time)
  {
    var prevHeader := path[|path| - 1];
    if (prevHeader.height + 1) % RETARGET_INTERVAL != 0 {
      return prevHeader.target;
    }
    var countsToGoBack := RETARGET_INTERVAL - 1;
    if prevHeader.height + 1 != RETARGET_INTERVAL {
      countsToGoBack := RETARGET_INTERVAL;
    }
    var first := |path| - 1;
    for i := 0 to countsToGoBack
      invariant first == |path| - 1 - i
    {
      first := first - 1;
    }
    var actualTimespan := prevHeader.time - path[first].time;
    if actualTimespan < RETARGET_TIME / 4 {
      actualTimespan := RETARGET_TIME / 4;
    }
    if actualTimespan > RETARGET_TIME * 4 {
      actualTimespan := RETARGET_TIME * 4;
    }
    var newTarget := prevHeader.target * actualTimespan / RETARGET_TIME;
    return if newTarget > INITIAL_TARGET then INITIAL_TARGET else newTarget;
  }

  /** One step moves the target by a factor of four at most, up to rounding, and never above the initial target. */
  lemma OriginalRuleBounds(prevTarget: nat, timespan: int)
    ensures var t := OriginalRule(prevTarget, timespan);
      t <= INITIAL_TARGET && t <= 4 * prevTarget && (t == INITIAL_TARGET || t >= prevTarget / 4)
  {
    var c := Clamped(timespan, RETARGET_TIME / 4, RETARGET_TIME * 4);
    Multiply(prevTarget, RETARGET_TIME / 4, c);
    Multiply(prevTarget, c, RETARGET_TIME * 4);
    DivideMonotone(prevTarget * (RETARGET_TIME / 4), prevTarget * c, RETARGET_TIME);
    DivideMonotone(prevTarget * c, prevTarget * (RETARGET_TIME * 4), RETARGET_TIME);
    FourTimes(prevTarget);
  }

  /** Between its bounds the target scales with the time the interval took; one of exactly two weeks keeps it. */
  lemma OriginalRuleScales(prevTarget: nat, timespan: int)
    ensures OriginalRule(prevTarget, 1209600) == if prevTarget > INITIAL_TARGET then INITIAL_TARGET else prevTarget
    ensures 302400 <= timespan <= 4838400 ==>
      var t := OriginalRule(prevTarget, timespan);
      && 1209600 * t <= prevTarget * timespan && (t < INITIAL_TARGET ==> prevTarget * timespan < 1209600 * (t + 1))
  {
    var n := prevTarget * Clamped(timespan, RETARGET_TIME / 4, RETARGET_TIME * 4);
    assert prevTarget * 1209600 / 1209600 == prevTarget;
    assert 1209600 * (n / 1209600) <= n < 1209600 * (n / 1209600 + 1);
  }

  /** A slower interval never makes the target harder. */
  lemma SlowerIsEasier(prevTarget: nat, timespan: int, longer: int)
    requires timespan <= longer
    ensures OriginalRule(prevTarget, timespan) <= OriginalRule(prevTarget, longer)
  {
    var c, d := Clamped(timespan, RETARGET_TIME / 4, RETARGET_TIME * 4), Clamped(longer, RETARGET_TIME / 4, RETARGET_TIME * 4);
    Multiply(prevTarget, c, d);
    DivideMonotone(prevTarget * c, prevTarget * d, RETARGET_TIME);
  }

  lemma FourTimes(x: nat)
    ensures x * (RETARGET_TIME / 4) / RETARGET_TIME == x / 4 && x * (RETARGET_TIME * 4) / RETARGET_TIME == 4 * x
  {
  }

  lemma DivideMonotone(a: nat, b: nat, d: nat)
    requires a <= b && d > 0
    ensures a / d <= b / d
  {
    MultipleFits(b, d, a / d);
    MultipleFits(a, d, a / d);
  }

  // ----- the revised rule

  function WindowWork(path: Headers): int
    requires |path| > RETARGET_SMA_WINDOW
  {
    path[|path| - 1].pointWork - path[|path| - 1 - RETARGET_SMA_WINDOW].pointWork
  }

  function WindowTime(path: Headers): int
    requires |path| > RETARGET_SMA_WINDOW
  {
    Clamped(path[|path| - 1].time - path[|path| - 1 - RETARGET_SMA_WINDOW].time,
            (RETARGET_SMA_WINDOW / 2) * TARGET_SPACING, 2 * RETARGET_SMA_WINDOW * TARGET_SPACING)
  }

  /** The work expected of one count. */
  function ExpectedWork(path: Headers): int
    requires |path| > RETARGET_SMA_WINDOW
  {
    WindowWork(path) * TARGET_SPACING / WindowTime(path)
  }

  /** T = (2^256 / W) - 1, but not above the initial target. */
  function RevisedRule(work: nat): int
    requires work > 0
  {
    var t := TWO_256 / work - 1;
    if t > INITIAL_TARGET then INITIAL_TARGET else t
  }

  method ComputeTargetBitcoinCash(path: Headers) returns (target: int)
    requires |path| > BITCOIN_CASH_RETARGET_ALGORITHM_HEIGHT && SumsWork(path)
    ensures ExpectedWork(path) > 0 && target == RevisedRule(ExpectedWork(path))
  {
    var prevHeader := path[|path| - 1];
    var firstHeader := path[prevHeader.height - RETARGET_SMA_WINDOW];
    var work := prevHeader.pointWork - firstHeader.pointWork;
    work := work * TARGET_SPACING;
    var actualTimespan := prevHeader.time - firstHeader.time;
    if actualTimespan > 2 * RETARGET_SMA_WINDOW * TARGET_SPACING {
      actualTimespan := 2 * RETARGET_SMA_WINDOW * TARGET_SPACING;
    } else if actualTimespan < (RETARGET_SMA_WINDOW / 2) * TARGET_SPACING {
      actualTimespan := (RETARGET_SMA_WINDOW / 2) * TARGET_SPACING;
    }
    work := work / actualTimespan;
    ExpectedWorkBounds(path);
    assert work == ExpectedWork(path);
    var newTarget := TWO_256 / work;
    newTarget := newTarget - 1;
    return if newTarget > INITIAL_TARGET then INITIAL_TARGET else newTarget;
  }

  lemma InitialWork()
    ensures CountWork(INITIAL_TARGET) >= 288
  {
    MultipleFits(TWO_256, INITIAL_TARGET + 1, 288);
  }

  /** Every count of the window stands for some work. */
  lemma {:induction false} WorkSince(path: Headers, from: nat, to: nat)
    requires SumsWork(path) && from <= to < |path|
    ensures path[to].pointWork - path[from].pointWork >= 288 * (to - from)
  {
    if from == to {
    } else {
      WorkSince(path, from, to - 1);
      InitialWork();
      WorkAntitone(path[to].target, INITIAL_TARGET);
    }
  }

  lemma DivideBounds(n: nat, d: nat, lo: nat, hi: nat)
    requires 0 < lo <= d <= hi
    ensures n / hi <= n / d <= n / lo
  {
    DivideAntitone(n, lo, d);
    DivideAntitone(n, d, hi);
  }

  /** The expected work is between a 288th and a 72nd of the window's work, and never zero: nothing divides by zero. */
  lemma ExpectedWorkBounds(path: Headers)
    requires |path| > RETARGET_SMA_WINDOW && SumsWork(path)
    ensures WindowWork(path) >= 288
    ensures WindowWork(path) / 288 <= ExpectedWork(path) <= WindowWork(path) / 72
    ensures ExpectedWork(path) > 0
  {
    hide SumsWork;
    WorkSince(path, |path| - 1 - RETARGET_SMA_WINDOW, |path| - 1);
    var work := WindowWork(path);
    DivideBounds(work * TARGET_SPACING, WindowTime(path), 72 * TARGET_SPACING, 288 * TARGET_SPACING);
    assert work * TARGET_SPACING / (288 * TARGET_SPACING) == work / 288;
    assert work * TARGET_SPACING / (72 * TARGET_SPACING) == work / 72;
  }

  /** The window's work goes into counts of ten minutes over the time the window took, within half and twice that. */
  lemma ExpectedWorkIs(path: Headers)
    requires |path| > 144 && SumsWork(path)
    ensures var last, first := path[|path| - 1], path[|path| - 145];
      var work, dt, e := last.pointWork - first.pointWork, last.time - first.time, ExpectedWork(path);
      && (43200 <= dt <= 172800 ==> e * dt <= work * 600 < (e + 1) * dt)
      && (dt < 43200 ==> e * 43200 <= work * 600 < (e + 1) * 43200)
      && (dt > 172800 ==> e * 172800 <= work * 600 < (e + 1) * 172800)
  {
    hide SumsWork;
    WorkSince(path, |path| - 145, |path| - 1);
    Quotient(WindowWork(path) * TARGET_SPACING, WindowTime(path));
  }

  lemma Quotient(n: nat, d: nat)
    requires d > 0
    ensures n / d * d <= n < (n / d + 1) * d
  {
    MultipleFits(n, d, n / d);
    MultipleFits(n, d, n / d + 1);
  }

  /** For equal work, a window that took longer never expects more work, and never gives a harder target. */
  lemma LaterIsEasier(path: Headers, later: Headers)
    requires |path| > 144 && |later| > 144 && SumsWork(path) && SumsWork(later)
    requires path[|path| - 1].pointWork - path[|path| - 145].pointWork == later[|later| - 1].pointWork - later[|later| - 145].pointWork
    requires path[|path| - 1].time - path[|path| - 145].time <= later[|later| - 1].time - later[|later| - 145].time
    ensures 0 < ExpectedWork(later) <= ExpectedWork(path)
    ensures RevisedRule(ExpectedWork(path)) <= RevisedRule(ExpectedWork(later))
  {
    hide SumsWork;
    ExpectedWorkBounds(path);
    ExpectedWorkBounds(later);
    DivideAntitone(WindowWork(path) * TARGET_SPACING, WindowTime(path), WindowTime(later));
    DivideAntitone(TWO_256, ExpectedWork(later), ExpectedWork(path));
  }

  /** Which targets are easy enough, and which too easy, for an expected work. */
  lemma RevisedRuleSplits(work: nat, t: nat)
    requires 0 < work <= TWO_256 / 2 && t > 0
    ensures t <= TWO_256 / work - 1 <==> CountWork(t) >= work
  {
    MultipleFits(TWO_256, work, t + 1);
    MultipleFits(TWO_256, t + 1, work);
  }

  /** The rule returns the easiest target, up to the initial one, whose work is at least the expected work. */
  lemma RetargetIsOptimal(work: nat)
    requires 0 < work <= TWO_256 / 2
    ensures 0 < RevisedRule(work) <= INITIAL_TARGET && CountWork(RevisedRule(work)) >= work
    ensures forall t: nat {:trigger CountWork(t)} ::
      RevisedRule(work) < t <= INITIAL_TARGET ==> CountWork(t) < work
  {
    hide CountWork;
    MultipleFits(TWO_256, work, 2);
    RevisedRuleSplits(work, RevisedRule(work));
    forall t: nat | RevisedRule(work) < t <= INITIAL_TARGET ensures CountWork(t) < work {
      RevisedRuleSplits(work, t);
    }
  }

  /** On every branch whose point work fits in 32 bytes, the revised rule is optimal and its target usable. */
  lemma RevisedTargetIsOptimal(path: Headers)
    requires |path| > RETARGET_SMA_WINDOW && SumsWork(path) && path[|path| - 1].pointWork < TWO_256
    ensures ExpectedWork(path) > 0
    ensures var t, work := RevisedRule(ExpectedWork(path)), ExpectedWork(path);
      && 0 < t <= INITIAL_TARGET && CountWork(t) >= work
      && forall u: nat {:trigger CountWork(u)} :: t < u <= INITIAL_TARGET ==> CountWork(u) < work
  {
    hide SumsWork, RevisedRule;
    ExpectedWorkBounds(path);
    DivideMonotone(WindowWork(path), TWO_256, 72);
    assert TWO_256 / 72 <= TWO_256 / 2;
    RetargetIsOptimal(ExpectedWork(path));
  }

  // ----- which rule

  function ExpectedTarget(path: Headers): int
    requires path != [] && (|path| > BITCOIN_CASH_RETARGET_ALGORITHM_HEIGHT ==> ExpectedWork(path) > 0)
  {
    if |path| > BITCOIN_CASH_RETARGET_ALGORITHM_HEIGHT then RevisedRule(ExpectedWork(path))
    else if |path| % RETARGET_INTERVAL != 0 then path[|path| - 1].target
    else OriginalRule(path[|path| - 1].target, path[|path| - 1].time - path[IntervalStart(path)].time)
  }

  /** Below height 28861 the target changes only every 2016 counts. */
  lemma WhichRule(path: Headers)
    requires path != [] && SumsWork(path)
    ensures |path| > 28861 ==> ExpectedWork(path) > 0 && ExpectedTarget(path) == RevisedRule(ExpectedWork(path))
    ensures |path| <= 28861 && |path| % 2016 != 0 ==> ExpectedTarget(path) == path[|path| - 1].target
    ensures |path| <= 28861 && |path| % 2016 == 0 ==>
      var first := if |path| == 2016 then 0 else |path| - 2017;
      ExpectedTarget(path) == OriginalRule(path[|path| - 1].target, path[|path| - 1].time - path[first].time)
  {
    hide SumsWork, ExpectedWork, OriginalRule, RevisedRule;
    if |path| > 28861 {
      ExpectedWorkBounds(path);
    }
  }

  method ComputeTarget(path: Headers) returns (target: int)
    requires path != [] && SumsWork(path)
    ensures |path| > BITCOIN_CASH_RETARGET_ALGORITHM_HEIGHT ==> ExpectedWork(path) > 0
    ensures target == ExpectedTarget(path)
  {
    if path[|path| - 1].height >= BITCOIN_CASH_RETARGET_ALGORITHM_HEIGHT {
      target := ComputeTargetBitcoinCash(path);
    } else {
      target := ComputeTargetBitcoin(path);
    }
  }

  /** Appending a count with the demanded target keeps the branch one that both rules accept, unless the target is zero. */
  lemma BranchStaysUsable(path: Headers, next: CountHeader)
    requires path != [] && SumsWork(path)
    requires |path| > BITCOIN_CASH_RETARGET_ALGORITHM_HEIGHT ==> ExpectedWork(path) > 0
    requires next.height == |path| && next.target == ExpectedTarget(path)
    requires next.pointWork == path[|path| - 1].pointWork + CountWork(next.target)
    ensures next.target <= INITIAL_TARGET
    ensures next.target > 0 <==> SumsWork(path + [next])
    ensures |path| > BITCOIN_CASH_RETARGET_ALGORITHM_HEIGHT && path[|path| - 1].pointWork < TWO_256 ==> next.target > 0
    ensures path[|path| - 1].target >= 4 && |path| <= BITCOIN_CASH_RETARGET_ALGORITHM_HEIGHT ==> next.target > 0
  {
    hide CountWork, ExpectedWork, OriginalRule, RevisedRule;
    var last := |path| - 1;
    if |path| > BITCOIN_CASH_RETARGET_ALGORITHM_HEIGHT {
      RevisedRuleBelow(ExpectedWork(path));
      if path[last].pointWork < TWO_256 {
        RevisedTargetIsOptimal(path);
      }
    } else if |path| % RETARGET_INTERVAL == 0 {
      OriginalRuleBounds(path[last].target, path[last].time - path[IntervalStart(path)].time);
    }
    var longer := path + [next];
    assert longer[last] == path[last] && longer[last + 1] == next;
  }

  /** On a usable branch the demanded target is always defined, and never above the initial one. */
  lemma TargetIsDefined(path: Headers)
    requires path != [] && SumsWork(path)
    ensures |path| > BITCOIN_CASH_RETARGET_ALGORITHM_HEIGHT ==> ExpectedWork(path) > 0
    ensures ExpectedTarget(path) <= INITIAL_TARGET
  {
    hide SumsWork, ExpectedWork, OriginalRule, RevisedRule;
    UsableTip(path);
    if |path| > BITCOIN_CASH_RETARGET_ALGORITHM_HEIGHT {
      ExpectedWorkBounds(path);
      RevisedRuleBelow(ExpectedWork(path));
    } else if |path| % RETARGET_INTERVAL == 0 {
      OriginalRuleBounds(path[|path| - 1].target, path[|path| - 1].time - path[IntervalStart(path)].time);
    }
  }

  lemma UsableTip(path: Headers)
    requires SumsWork(path) && path != []
    ensures path[|path| - 1].target <= INITIAL_TARGET
  {
  }

  lemma RevisedRuleBelow(work: nat)
    requires work > 0
    ensures RevisedRule(work) <= INITIAL_TARGET
  {
  }
}
