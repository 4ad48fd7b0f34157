/**
 * The data the AEDPoS consensus contract keeps about rounds and miners, and the
 * members of `Round` whose bodies live outside the help methods.
 *
 * Times are integer milliseconds since an arbitrary epoch.
 */
module ConsensusTypes {

  datatype Option<+T> = None | Some(value: T)

  type PublicKey = string

  type Hash = seq<bv8>

  /** Maximum number of tiny blocks a miner produces per normal turn
      (`AEDPoSContractConstants.TinyBlocksNumber`). */
  const TinyBlocksNumber: int := 8

  /** `int.MaxValue`, the `TimeEachTerm` value of a chain that never changes term. */
  const IntMaxValue: int := 0x7fff_ffff

  /** A miner's record inside one round. `outValue == None` means the miner has
      not produced its full block of this round yet. */
  datatype MinerInRound = MinerInRound(
    order: int,
    outValue: Option<Hash>,
    producedTinyBlocks: int,
    actualMiningTimes: seq<int>)

  /** One entry of `RealTimeMinersInformation`, a protobuf map kept in insertion order. */
  datatype MinerEntry = MinerEntry(key: PublicKey, info: MinerInRound)

  datatype Round = Round(
    roundNumber: int,
    termNumber: int,
    realTimeMinersInformation: seq<MinerEntry>,
    extraBlockProducerOfPreviousRound: PublicKey)

  /** `new Round()`: every field at its protobuf default. */
  const EmptyRound: Round := Round(0, 0, [], "")

  datatype Behaviour =
    | Nothing
    | UpdateValueWithoutPreviousInValue
    | UpdateValue
    | TinyBlock
    | NextRound
    | NextTerm

  /** The contract's persisted state that the help methods read and write.
      `blockchainStartTimestamp == None` is the unset (null) timestamp. */
  datatype ConsensusState = ConsensusState(
    currentRoundNumber: int,
    currentTermNumber: int,
    rounds: map<int, Round>,
    blockchainStartTimestamp: Option<int>,
    timeEachTerm: int,
    miningInterval: int)

  /** Members of `Round` that the help methods call but whose bodies are not part of
      this model: `IsEmpty`, `IsTimeSlotPassed(publicKey, now)`, `GetStartTime()` and
      `IsTimeToChangeTerm(previousRound, startTimestamp, termNumber, timeEachTerm)`.
      A previous round passed as `None` stands for a null reference. */
  datatype RoundQueries = RoundQueries(
    isEmpty: Round -> bool,
    isTimeSlotPassed: (Round, PublicKey, int) -> bool,
    getStartTime: Round -> int,
    isTimeToChangeTerm: (Round, Option<Round>, int, int, int) -> bool)

  /** `RealTimeMinersInformation[key]`: the entry stored under `key`. */
  function Lookup(miners: seq<MinerEntry>, key: PublicKey): (r: Option<MinerInRound>)
    ensures r.Some? <==> exists i :: 0 <= i < |miners| && miners[i].key == key
    ensures r.Some? ==> exists i :: 0 <= i < |miners| && miners[i] == MinerEntry(key, r.value)
    decreases |miners|
  {
    if miners == [] then None
    else if miners[0].key == key then Some(miners[0].info)
    else
      var r := Lookup(miners[1..], key);
      assert forall i :: 0 < i < |miners| ==> miners[i] == miners[1..][i - 1];
      r
  }

  /** `RealTimeMinersInformation.ContainsKey(key)`. */
  predicate ContainsKey(miners: seq<MinerEntry>, key: PublicKey): (b: bool)
    ensures b <==> exists i :: 0 <= i < |miners| && miners[i].key == key
  {
    Lookup(miners, key).Some?
  }

  /** `RealTimeMinersInformation.Values.First(m => m.Order == order)`; `None` where
      `First` throws because no miner has that order. */
  function FirstWithOrder(miners: seq<MinerEntry>, order: int): (r: Option<MinerInRound>)
    ensures r.Some? <==> exists i :: 0 <= i < |miners| && miners[i].info.order == order
    ensures r.Some? ==> r.value.order == order
    ensures r.Some? ==> exists i :: 0 <= i < |miners| && miners[i].info == r.value
    decreases |miners|
  {
    if miners == [] then None
    else if miners[0].info.order == order then Some(miners[0].info)
    else
      var r := FirstWithOrder(miners[1..], order);
      assert forall i :: 0 < i < |miners| ==> miners[i] == miners[1..][i - 1];
      r
  }
}
