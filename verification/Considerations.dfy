/** Considerations, counts and the consensus constants they are checked against. */
module Considerations {

  const COUNTERPOINT_MATURITY: int := 100
  const COUNTS_UNTIL_NEW_SERIES: int := 1008
  const MAX_NUMBER: int := 9007199254740991 // 2^53 - 1
  const MAX_MEMO_LENGTH: int := 150
  const MAX_FUTURE_SECONDS: int := 7200
  const PUBLIC_KEY_SIZE: nat := 32
  const SIGNATURE_SIZE: nat := 64

  /** Pruning keeps the indices of the last two series. */
  const PRUNE_WINDOW: int := 2 * COUNTS_UNTIL_NEW_SERIES

  datatype Option<+T> = None | Some(value: T)

  /** A 32-byte ed25519 public key; the wrapper keeps its bytes opaque to the ledger. */
  datatype PublicKey = PublicKey(bytes: seq<bv8>)

  /** The big-endian value of a 32-byte hash, as GetBigInt reads it. */
  type CountID = nat

  /** `sender` is the field By (nil in a counterpoint) and `recipient` the field For. */
  datatype Consideration = Consideration(
    time: int, nonce: int, sender: Option<PublicKey>, recipient: PublicKey, memo: string,
    matures: int, expires: int, series: int, signature: seq<bv8>)
  {
    predicate IsCounterPoint() { sender.None? }

    /** The comparison is the code's, not the one its comment describes. */
    predicate IsMature(height: int) { matures == 0 || matures >= height }

    predicate IsExpired(height: int) { expires != 0 && expires < height }

    predicate Involves(k: PublicKey) { sender == Some(k) || recipient == k }

    /** Stands for the SHA3-256 hash of the JSON form with the signature removed. */
    function ID(): ConsiderationID { Digest(this.(signature := [])) }
  }

  /** A collision-free hash: equal digests are digests of equal contents. */
  datatype ConsiderationID = Digest(content: Consideration)

  datatype CountHeader = CountHeader(
    previous: CountID, hashListRoot: nat, time: int, target: nat, pointWork: nat,
    nonce: int, height: int, considerationCount: int)

  datatype Count = Count(header: CountHeader, considerations: seq<Consideration>)

  /** The context-free checks on a consideration. */
  predicate CheckConsideration(cn: Consideration)
  {
    && 0 <= cn.time <= MAX_NUMBER && cn.nonce >= 0
    && (if cn.IsCounterPoint() then cn.matures <= 0 && cn.expires <= 0 && cn.signature == []
        else |cn.sender.value.bytes| == PUBLIC_KEY_SIZE && |cn.signature| == SIGNATURE_SIZE)
    && |cn.recipient.bytes| == PUBLIC_KEY_SIZE
    && cn.sender != Some(cn.recipient)
    && |cn.memo| <= MAX_MEMO_LENGTH
    && 0 <= cn.matures <= MAX_NUMBER && 0 <= cn.expires <= MAX_NUMBER && 0 < cn.series <= MAX_NUMBER
  }

  /** A counterpoint has the series of its height, a transfer that one or the one before. */
  predicate CheckSeries(cn: Consideration, height: int)
  {
    if cn.IsCounterPoint() then
      cn.series == height / COUNTS_UNTIL_NEW_SERIES + 1
    else
      var high := height / COUNTS_UNTIL_NEW_SERIES + 1;
      var low := if high - 1 == 0 then 1 else high - 1;
      low <= cn.series <= high
  }

  const INITIAL_MAX_CONSIDERATIONS: int := 10000
  const DOUBLING_PERIOD: int := 105000
  const MAX_CONSIDERATIONS: int := 2147483647
  const MAX_CONSIDERATIONS_HEIGHT: int := 1852032

  function Power2(n: nat): nat { if n == 0 then 1 else 2 * Power2(n - 1) }

  function MaxConsiderations(height: nat): int
  {
    if height >= MAX_CONSIDERATIONS_HEIGHT then MAX_CONSIDERATIONS else
      var factor := Power2(height / DOUBLING_PERIOD);
      INITIAL_MAX_CONSIDERATIONS * factor
        + INITIAL_MAX_CONSIDERATIONS * factor * (height % DOUBLING_PERIOD) / DOUBLING_PERIOD
  }

  lemma MaxAtDoubling(k: nat)
    requires 105000 * k < 1852032
    ensures MaxConsiderations(105000 * k) == 10000 * Power2(k)
  {
    hide Power2;
    assert 105000 * k / 105000 == k && 105000 * k % 105000 == 0;
  }

  /** The limit starts at 10000, doubles every 105000 counts, and lies on the straight line between, rounded down. */
  lemma MaxInterpolates(height: nat)
    requires 105000 * (height / 105000 + 1) < 1852032
    ensures var k, r := height / 105000, height % 105000;
      var lo, hi := MaxConsiderations(105000 * k), MaxConsiderations(105000 * (k + 1));
      && hi == 2 * lo
      && 105000 * MaxConsiderations(height) <= (105000 - r) * lo + r * hi < 105000 * (MaxConsiderations(height) + 1)
    ensures MaxConsiderations(0) == 10000
  {
    var k, r := height / 105000, height % 105000;
    MaxAtDoubling(0);
    MaxAtDoubling(k);
    MaxAtDoubling(k + 1);
    Interpolate(10000 * Power2(k), r);
  }

  lemma Interpolate(a: nat, r: nat)
    requires r < 105000
    ensures var m := a + a * r / 105000;
      105000 * m <= (105000 - r) * a + r * (2 * a) < 105000 * (m + 1)
  {
    var n := a * r;
    assert (105000 - r) * a + r * (2 * a) == 105000 * a + n;
  }

  /** Go's integer division truncates toward zero. */
  function GoDiv(a: int, b: int): int
    requires b > 0
  {
    if a >= 0 then a / b else -((-a) / b)
  }

  function ComputeSeries(isCountpoint: bool, height: int): int
  {
    if isCountpoint then GoDiv(height, COUNTS_UNTIL_NEW_SERIES) + 1
    else GoDiv(height - 100, COUNTS_UNTIL_NEW_SERIES) + 1
  }

  /** A consideration created at a height keeps an acceptable series for the next 908 counts at least. */
  lemma SeriesGrace(cn: Consideration, height: nat, later: nat)
    requires cn.series == ComputeSeries(cn.IsCounterPoint(), height)
    requires height <= later <= height + (if cn.IsCounterPoint() then 0 else 908)
    ensures CheckSeries(cn, later)
  {
    if !cn.IsCounterPoint() && height >= 100 {
      var s := (height - 100) / 1008;
      assert 1008 * s <= height - 100 < 1008 * s + 1008;
    }
  }

  lemma DivideGap(a: nat, b: nat)
    ensures b >= a + PRUNE_WINDOW ==> b / COUNTS_UNTIL_NEW_SERIES >= a / COUNTS_UNTIL_NEW_SERIES + 2
  {
  }

  /** The series of an ID rules out inclusion 2016 or more counts after a first inclusion. */
  lemma SeriesSeparates(first: Consideration, again: Consideration, h: nat, later: nat)
    requires first.ID() == again.ID()
    requires CheckSeries(first, h) && CheckSeries(again, later)
    ensures later < h + PRUNE_WINDOW
  {
    assert first.series == first.ID().content.series == again.series;
    assert first.sender == first.ID().content.sender == again.sender;
    DivideGap(h, later);
  }

  /** Malleating a signature never changes an ID, and nothing else is outside it. */
  lemma IDIgnoresOnlySignature(a: Consideration, b: Consideration)
    ensures a.ID() == b.ID() <==> a == b.(signature := a.signature)
  {
    if a.ID() == b.ID() {
      var content := a.ID().content;
      assert a == content.(signature := a.signature);
    }
  }

  /** Read literally, the comment on IsMature says "from `matures` on"; the code agrees exactly here. */
  lemma MaturityAsDocumented(cn: Consideration, height: int)
    requires cn.matures > 0
    ensures (cn.IsMature(height) <==> height >= cn.matures) <==> height == cn.matures
  {
  }

  /** A consideration can be included up to the height at which it expires, and never after. */
  lemma ExpiresAfter(cn: Consideration, height: int)
    requires cn.expires > 0
    ensures !cn.IsExpired(cn.expires) && cn.IsExpired(cn.expires + 1)
    ensures cn.IsExpired(height) ==> cn.IsExpired(height + 1)
    ensures !cn.(expires := 0).IsExpired(height)
  {
  }

  /** Why a consideration or count was refused. */
  datatype Error =
    | BadConsideration | BadCount | Orphan | BadContext
    | TipMismatch | AlreadyProcessed | MissingCount | InsufficientImbalance | Descendant
    | QueueFull | AlreadyConfirmed | BadSeries | Immature | Expired | BadSignature

  datatype Result<+T> = Ok(value: T) | Err(error: Error)
}
