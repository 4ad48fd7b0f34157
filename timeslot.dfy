/**
 * Millisecond arithmetic for tiny-block deadlines: the time one tiny block may take,
 * the time left until a miner's next tiny block, and the conversion of a protobuf
 * `Duration` to milliseconds.
 *
 * Timestamps are integer milliseconds; a `Duration` keeps protobuf's (seconds, nanos)
 * form because the conversion works on that form.
 */
module TimeSlot {
  import opened ConsensusTypes

  const MillisecondsPerSecond: int := 1000
  const NanosecondsPerMillisecond: int := 1_000_000
  const NanosecondsPerSecond: int := 1_000_000_000

  /** C# integer division by a positive divisor: the quotient is rounded toward zero,
      unlike Dafny's `/`, which rounds toward negative infinity for a negative dividend. */
  function TruncDiv(a: int, b: int): (q: int)
    requires b > 0
    ensures a >= 0 ==> 0 <= q * b <= a < q * b + b
    ensures a < 0 ==> q * b - b < a <= q * b <= 0
  {
    if a >= 0 then
      DivisionBounds(a, b);
      a / b
    else
      DivisionBounds(-a, b);
      assert -((-a) / b) * b == -(((-a) / b) * b);
      -((-a) / b)
  }

  /** Dafny's division of a non-negative number leaves a remainder below the divisor. */
  lemma DivisionBounds(a: int, b: int)
    requires a >= 0 && b > 0
    ensures 0 <= (a / b) * b <= a < (a / b) * b + b
  {
  }

  /** A protobuf `Duration` in normal form: `nanos` has the sign of `seconds` and less
      than a second in magnitude. */
  datatype Duration = Duration(seconds: int, nanos: int)

  predicate Normalized(d: Duration)
  {
    -NanosecondsPerSecond < d.nanos < NanosecondsPerSecond
    && (d.seconds > 0 ==> d.nanos >= 0)
    && (d.seconds < 0 ==> d.nanos <= 0)
  }

  function TotalNanoseconds(d: Duration): int
  {
    d.seconds * NanosecondsPerSecond + d.nanos
  }

  /** `later - earlier` on two timestamps: the normalised duration of the difference. */
  function TimestampDifference(later: int, earlier: int): (d: Duration)
    ensures Normalized(d)
    ensures TotalNanoseconds(d) == (later - earlier) * NanosecondsPerMillisecond
  {
    var ms := later - earlier;
    var seconds := TruncDiv(ms, MillisecondsPerSecond);
    Duration(seconds, (ms - seconds * MillisecondsPerSecond) * NanosecondsPerMillisecond)
  }

  /** `ConvertDurationToMilliseconds`: whole seconds in milliseconds plus the nanoseconds
      divided down with truncation. The `(int)` narrowing is not modelled. */
  function ConvertDurationToMilliseconds(d: Duration): (ms: int)
    ensures Normalized(d) ==> ms == TruncDiv(TotalNanoseconds(d), NanosecondsPerMillisecond)
  {
    d.seconds * MillisecondsPerSecond + TruncDiv(d.nanos, NanosecondsPerMillisecond)
  }

  /** On a normalised duration the conversion is the duration's length in milliseconds,
      rounded toward zero. */
  lemma ConvertTruncatesTowardZero(d: Duration)
    requires Normalized(d)
    ensures ConvertDurationToMilliseconds(d) == TruncDiv(TotalNanoseconds(d), NanosecondsPerMillisecond)
  {
  }

  /** Converting the difference of two millisecond timestamps gives the difference back. */
  lemma MillisecondsRoundTrip(later: int, earlier: int)
    ensures ConvertDurationToMilliseconds(TimestampDifference(later, earlier)) == later - earlier
  {
  }

  /** The time one tiny block may take: the mining interval split evenly over the tiny
      blocks of a turn, rounded toward zero, so that a full turn of tiny blocks fits in
      one mining interval. */
  function TimeForEachBlock(miningInterval: int): (d: int)
    ensures miningInterval >= 0 ==>
      0 <= d && d * TinyBlocksNumber <= miningInterval < (d + 1) * TinyBlocksNumber
    ensures miningInterval < 0 ==>
      d <= 0 && (d - 1) * TinyBlocksNumber < miningInterval <= d * TinyBlocksNumber
  {
    TruncDiv(miningInterval, TinyBlocksNumber)
  }

  /** `GetNextBlockMiningLeftMillisecondsForFirstRound`: the time left until the miner's
      next tiny block, counted from its first actual mining time this round; `None` where
      `ActualMiningTimes.First()` throws on an empty list. */
  function GetNextBlockMiningLeftMillisecondsForFirstRound(
    s: ConsensusState, minerInRound: MinerInRound, blockTime: int): (r: Option<int>)
    ensures r.Some? <==> |minerInRound.actualMiningTimes| > 0
    ensures r.Some? ==>
      r.value == minerInRound.actualMiningTimes[0]
                 + TimeForEachBlock(s.miningInterval) * minerInRound.producedTinyBlocks - blockTime
  {
    if minerInRound.actualMiningTimes == [] then None
    else
      var actualMiningTime := minerInRound.actualMiningTimes[0];
      var producedTinyBlocks := minerInRound.producedTinyBlocks;
      var timeForEachBlock := TimeForEachBlock(s.miningInterval);
      var expectedMiningTime := actualMiningTime + timeForEachBlock * producedTinyBlocks;
      MillisecondsRoundTrip(expectedMiningTime, blockTime);
      Some(ConvertDurationToMilliseconds(TimestampDifference(expectedMiningTime, blockTime)))
  }

  /** `GetNextBlockMiningLeftMillisecondsForPreviousRoundExtraBlockProducer`: the same
      deadline, counted from the previous round's extra block. */
  function GetNextBlockMiningLeftMillisecondsForPreviousRoundExtraBlockProducer(
    s: ConsensusState, previousExtraBlockTimestamp: int, producedTinyBlocks: int, blockTime: int): (r: int)
    ensures r == previousExtraBlockTimestamp + TimeForEachBlock(s.miningInterval) * producedTinyBlocks - blockTime
  {
    var timeForEachBlock := TimeForEachBlock(s.miningInterval);
    var expectedMiningTime := previousExtraBlockTimestamp + timeForEachBlock * producedTinyBlocks;
    MillisecondsRoundTrip(expectedMiningTime, blockTime);
    ConvertDurationToMilliseconds(TimestampDifference(expectedMiningTime, blockTime))
  }

  /** Each tiny block already produced postpones the next deadline by one tiny-block
      duration, and with a non-negative interval the deadline after a full quota is no
      later than one mining interval after the anchor. */
  lemma DeadlineMovesByOneTinyBlock(
    s: ConsensusState, previousExtraBlockTimestamp: int, producedTinyBlocks: int, blockTime: int)
    ensures GetNextBlockMiningLeftMillisecondsForPreviousRoundExtraBlockProducer(
              s, previousExtraBlockTimestamp, producedTinyBlocks + 1, blockTime)
            == GetNextBlockMiningLeftMillisecondsForPreviousRoundExtraBlockProducer(
                 s, previousExtraBlockTimestamp, producedTinyBlocks, blockTime)
               + TimeForEachBlock(s.miningInterval)
    ensures s.miningInterval >= 0 ==>
      GetNextBlockMiningLeftMillisecondsForPreviousRoundExtraBlockProducer(
        s, previousExtraBlockTimestamp, TinyBlocksNumber, blockTime)
      <= previousExtraBlockTimestamp + s.miningInterval - blockTime
  {
  }

  /** Literal inputs where truncation differs from Dafny's own division: a 4007 ms
      interval gives 500 ms tiny blocks, and a duration of -1.5 ms converts to -1 ms. */
  lemma TruncationExamples(s: ConsensusState)
    requires s.miningInterval == 4007
    ensures TimeForEachBlock(s.miningInterval) == 500
    ensures GetNextBlockMiningLeftMillisecondsForPreviousRoundExtraBlockProducer(s, 10_000, 3, 11_000) == 500
    ensures TimeForEachBlock(-4007) == -500
    ensures ConvertDurationToMilliseconds(Duration(0, -1_500_000)) == -1
  {
  }
}
