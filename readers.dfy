/**
 * The guarded readers of the consensus state. Each C# `TryToGet…(out x)` that
 * returns a flag together with an out value becomes a function returning
 * `Some(x)` exactly when the flag is true.
 */
module RoundReaders {
  import opened ConsensusTypes

  /** `TryToGetBlockchainStartTimestamp`: the start timestamp, if one was set. */
  function TryToGetBlockchainStartTimestamp(s: ConsensusState): (r: Option<int>)
    ensures r.Some? <==> s.blockchainStartTimestamp != None
    ensures r.Some? ==> s.blockchainStartTimestamp == Some(r.value)
  {
    s.blockchainStartTimestamp
  }

  /** `TryToGetTermNumber`: the stored term number; 0 means "no term yet". */
  function TryToGetTermNumber(s: ConsensusState): (r: Option<int>)
    ensures r.Some? <==> s.currentTermNumber != 0
    ensures r.Some? ==> r.value == s.currentTermNumber
  {
    if s.currentTermNumber != 0 then Some(s.currentTermNumber) else None
  }

  /** `TryToGetRoundNumber`: the stored round number; 0 means "no round yet". */
  function TryToGetRoundNumber(s: ConsensusState): (r: Option<int>)
    ensures r.Some? <==> s.currentRoundNumber != 0
    ensures r.Some? ==> r.value == s.currentRoundNumber
  {
    if s.currentRoundNumber != 0 then Some(s.currentRoundNumber) else None
  }

  /** `TryToGetRoundInformation(n)`: the round stored under number `n`. */
  function TryToGetRoundInformation(s: ConsensusState, roundNumber: int): (r: Option<Round>)
    ensures r.Some? <==> roundNumber in s.rounds
    ensures r.Some? ==> r.value == s.rounds[roundNumber]
  {
    if roundNumber in s.rounds then Some(s.rounds[roundNumber]) else None
  }

  /** `TryToGetCurrentRoundInformation`: the round the current round number points at. */
  function TryToGetCurrentRoundInformation(s: ConsensusState): (r: Option<Round>)
    ensures r.Some? <==> s.currentRoundNumber != 0 && s.currentRoundNumber in s.rounds
    ensures r.Some? ==> r.value == s.rounds[s.currentRoundNumber]
  {
    match TryToGetRoundNumber(s)
    case None => None
    case Some(roundNumber) => TryToGetRoundInformation(s, roundNumber)
  }

  /** `TryToGetPreviousRoundInformation`: the round before the current one, when the
      current round number is at least 2 and that round is stored and not empty. */
  function TryToGetPreviousRoundInformation(q: RoundQueries, s: ConsensusState): (r: Option<Round>)
    ensures r.Some? <==>
      s.currentRoundNumber >= 2 && s.currentRoundNumber - 1 in s.rounds
      && !q.isEmpty(s.rounds[s.currentRoundNumber - 1])
    ensures r.Some? ==> r.value == s.rounds[s.currentRoundNumber - 1]
  {
    match TryToGetRoundNumber(s)
    case None => None
    case Some(roundNumber) =>
      if roundNumber < 2 then None
      else
        match TryToGetRoundInformation(s, roundNumber - 1)
        case None => None
        case Some(previousRound) => if q.isEmpty(previousRound) then None else Some(previousRound)
  }

  /** The value `TryToGetPreviousRoundInformation` leaves in its out parameter, which
      `GetBehaviour` hands on to `IsTimeToChangeTerm` whether or not the call succeeded:
      a fresh empty round below round 2, otherwise the stored entry (`None` for null). */
  function PreviousRoundArgument(s: ConsensusState): (r: Option<Round>)
    ensures s.currentRoundNumber < 2 ==> r == Some(EmptyRound)
    ensures s.currentRoundNumber >= 2 ==> r == TryToGetRoundInformation(s, s.currentRoundNumber - 1)
  {
    if s.currentRoundNumber < 2 then Some(EmptyRound)
    else TryToGetRoundInformation(s, s.currentRoundNumber - 1)
  }

  /** Result of `IsJustChangedTerm(out termNumber)`: the flag and the out value. */
  datatype TermCheck = TermCheck(justChanged: bool, termNumber: int)

  /** `IsJustChangedTerm`: the previous round is available, a term number is stored,
      and the previous round belongs to a different term. The out term number is the
      stored one once the previous round was found, and 0 otherwise. */
  function IsJustChangedTerm(q: RoundQueries, s: ConsensusState): (r: TermCheck)
    ensures r.justChanged <==>
      TryToGetPreviousRoundInformation(q, s).Some? && s.currentTermNumber != 0
      && s.rounds[s.currentRoundNumber - 1].termNumber != s.currentTermNumber
    ensures r.termNumber == if TryToGetPreviousRoundInformation(q, s).Some? then s.currentTermNumber else 0
  {
    match TryToGetPreviousRoundInformation(q, s)
    case None => TermCheck(false, 0)
    case Some(previousRound) =>
      match TryToGetTermNumber(s)
      case None => TermCheck(false, s.currentTermNumber)
      case Some(termNumber) => TermCheck(previousRound.termNumber != termNumber, termNumber)
  }
}
