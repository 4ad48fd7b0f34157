/**
 * The writers of the consensus state: the blockchain start timestamp, the current
 * round number, and the round records keyed by round number.
 *
 * Each writer is given twice: as a pure transition on `ConsensusState`, which the
 * lemmas reason about, and as a method of `ConsensusStore`, the object whose fields
 * the contract updates in place, proved to perform exactly that transition.
 */
module RoundStore {
  import opened ConsensusTypes
  import opened RoundReaders
  import BehaviourDecision

  /** The boolean a "try" writer returns and the state it leaves behind. */
  datatype Attempt = Attempt(ok: bool, state: ConsensusState)

  /** Setting the start timestamp overwrites whatever was set before. */
  function WithBlockchainStartTimestamp(s: ConsensusState, timestamp: int): (r: ConsensusState)
    ensures r.blockchainStartTimestamp == Some(timestamp)
    ensures r.(blockchainStartTimestamp := s.blockchainStartTimestamp) == s
  {
    s.(blockchainStartTimestamp := Some(timestamp))
  }

  /** The round number may only restart at 1 or advance by one. */
  function RoundNumberUpdated(s: ConsensusState, roundNumber: int): (r: Attempt)
    ensures r.ok <==> roundNumber == 1 || roundNumber == s.currentRoundNumber + 1
    ensures r.state.currentRoundNumber == if r.ok then roundNumber else s.currentRoundNumber
    ensures r.state.(currentRoundNumber := s.currentRoundNumber) == s
  {
    if roundNumber != 1 && s.currentRoundNumber + 1 != roundNumber then Attempt(false, s)
    else Attempt(true, s.(currentRoundNumber := roundNumber))
  }

  /** A round is stored only under a number that holds no round yet. */
  function RoundAdded(s: ConsensusState, round: Round): (r: Attempt)
    ensures r.ok <==> round.roundNumber !in s.rounds
    ensures r.state.rounds.Keys == s.rounds.Keys + {round.roundNumber}
    ensures r.state.rounds[round.roundNumber] == if r.ok then round else s.rounds[round.roundNumber]
    ensures forall n :: n in s.rounds ==> r.state.rounds[n] == s.rounds[n]
    ensures r.state.(rounds := s.rounds) == s
  {
    if round.roundNumber in s.rounds then Attempt(false, s)
    else Attempt(true, s.(rounds := s.rounds[round.roundNumber := round]))
  }

  /** A round replaces only a round already stored under its number. */
  function RoundUpdated(s: ConsensusState, round: Round): (r: Attempt)
    ensures r.ok <==> round.roundNumber in s.rounds
    ensures r.state.rounds.Keys == s.rounds.Keys
    ensures r.ok ==> r.state.rounds[round.roundNumber] == round
    ensures forall n :: n in s.rounds && n != round.roundNumber ==> r.state.rounds[n] == s.rounds[n]
    ensures r.state.(rounds := s.rounds) == s
  {
    if round.roundNumber !in s.rounds then Attempt(false, s)
    else Attempt(true, s.(rounds := s.rounds[round.roundNumber := round]))
  }

  /** A call of one of the writers, for reasoning about sequences of them. */
  datatype Write =
    | SetStartTimestamp(timestamp: int)
    | UpdateRoundNumber(roundNumber: int)
    | AddRound(round: Round)
    | UpdateRound(round: Round)

  function Apply(s: ConsensusState, w: Write): Attempt
  {
    match w
    case SetStartTimestamp(timestamp) => Attempt(true, WithBlockchainStartTimestamp(s, timestamp))
    case UpdateRoundNumber(roundNumber) => RoundNumberUpdated(s, roundNumber)
    case AddRound(round) => RoundAdded(s, round)
    case UpdateRound(round) => RoundUpdated(s, round)
  }

  /** The state after the writes in order, whatever each of them returned. */
  function ApplyAll(s: ConsensusState, ws: seq<Write>): ConsensusState
    decreases |ws|
  {
    if ws == [] then s else ApplyAll(Apply(s, ws[0]).state, ws[1..])
  }

  // ---------------------------------------------------------------------------
  // One write at a time

  /** `TryToUpdateRoundNumber` succeeds exactly for 1 and for the successor of the stored
      number, then stores it; a rejected request changes nothing, and no other field
      ever changes. */
  lemma RoundNumberGate(s: ConsensusState, roundNumber: int)
    ensures RoundNumberUpdated(s, roundNumber).ok <==> roundNumber == 1 || roundNumber == s.currentRoundNumber + 1
    ensures RoundNumberUpdated(s, roundNumber).ok ==>
      RoundNumberUpdated(s, roundNumber).state.currentRoundNumber == roundNumber
    ensures RoundNumberUpdated(s, roundNumber).state.(currentRoundNumber := s.currentRoundNumber) == s
    ensures !RoundNumberUpdated(s, roundNumber).ok ==> RoundNumberUpdated(s, roundNumber).state == s
  {
  }

  /** `TryToAddRoundInformation` is write-once: it succeeds exactly when no round is stored
      under the number, afterwards the round stored there is the first one written, and
      every other number reads as before. */
  lemma AddThenRead(s: ConsensusState, round: Round)
    ensures RoundAdded(s, round).ok <==> TryToGetRoundInformation(s, round.roundNumber).None?
    ensures TryToGetRoundInformation(RoundAdded(s, round).state, round.roundNumber) ==
      if RoundAdded(s, round).ok then Some(round) else TryToGetRoundInformation(s, round.roundNumber)
    ensures forall n :: n != round.roundNumber ==>
      TryToGetRoundInformation(RoundAdded(s, round).state, n) == TryToGetRoundInformation(s, n)
    ensures RoundAdded(s, round).state.(rounds := s.rounds) == s
  {
  }

  /** A second add under the same round number is refused and leaves the state alone, so
      reading returns the first round written, not the second. */
  lemma SecondAddRejected(s: ConsensusState, first: Round, second: Round)
    requires first.roundNumber == second.roundNumber
    requires RoundAdded(s, first).ok
    ensures RoundAdded(RoundAdded(s, first).state, second) == Attempt(false, RoundAdded(s, first).state)
    ensures TryToGetRoundInformation(RoundAdded(RoundAdded(s, first).state, second).state, second.roundNumber)
            == Some(first)
  {
  }

  /** `TryToUpdateRoundInformation` succeeds exactly when a round is stored under the
      number, replaces only that entry, and never adds a number. */
  lemma UpdateThenRead(s: ConsensusState, round: Round)
    ensures RoundUpdated(s, round).ok <==> TryToGetRoundInformation(s, round.roundNumber).Some?
    ensures RoundUpdated(s, round).state.rounds.Keys == s.rounds.Keys
    ensures RoundUpdated(s, round).ok ==>
      TryToGetRoundInformation(RoundUpdated(s, round).state, round.roundNumber) == Some(round)
    ensures forall n :: n != round.roundNumber ==>
      TryToGetRoundInformation(RoundUpdated(s, round).state, n) == TryToGetRoundInformation(s, n)
    ensures RoundUpdated(s, round).state.(rounds := s.rounds) == s
  {
  }

  /** `SetBlockchainStartTimestamp` is seen by `TryToGetBlockchainStartTimestamp`, and
      nothing else changes. */
  lemma StartTimestampThenRead(s: ConsensusState, timestamp: int)
    ensures TryToGetBlockchainStartTimestamp(WithBlockchainStartTimestamp(s, timestamp)) == Some(timestamp)
    ensures WithBlockchainStartTimestamp(s, timestamp).(blockchainStartTimestamp := s.blockchainStartTimestamp) == s
  {
  }

  /** Adding round n + 1 and then moving the round number to it makes that round current
      and the old current round the previous one (unless it is empty). */
  lemma AdvanceThenRead(q: RoundQueries, s: ConsensusState, next: Round)
    requires s.currentRoundNumber >= 1 && s.currentRoundNumber in s.rounds
    requires next.roundNumber == s.currentRoundNumber + 1
    requires RoundAdded(s, next).ok
    ensures
      var t := RoundNumberUpdated(RoundAdded(s, next).state, next.roundNumber);
      t.ok
      && TryToGetCurrentRoundInformation(t.state) == Some(next)
      && TryToGetPreviousRoundInformation(q, t.state) ==
         (if q.isEmpty(s.rounds[s.currentRoundNumber]) then None else Some(s.rounds[s.currentRoundNumber]))
  {
  }

  /** Adding a round other than the current and the previous one changes no miner's
      decision. */
  lemma AddingOtherRoundKeepsDecisions(q: RoundQueries, s: ConsensusState, round: Round, publicKey: PublicKey, now: int)
    requires round.roundNumber != s.currentRoundNumber && round.roundNumber != s.currentRoundNumber - 1
    ensures BehaviourDecision.GetBehaviour(q, RoundAdded(s, round).state, publicKey, now)
            == BehaviourDecision.GetBehaviour(q, s, publicKey, now)
  {
    BehaviourDecision.DecisionReadsOnlyCurrentAndPreviousRound(q, RoundAdded(s, round).state, s, publicKey, now);
  }

  // ---------------------------------------------------------------------------
  // Sequences of writes

  /** No sequence of writes deletes a round, touches the term number, the term length or
      the mining interval, or moves the round number by more than one per write. */
  lemma {:induction false} WritesKeepConfiguration(s: ConsensusState, ws: seq<Write>)
    requires s.currentRoundNumber >= 0
    ensures s.rounds.Keys <= ApplyAll(s, ws).rounds.Keys
    ensures ApplyAll(s, ws).currentTermNumber == s.currentTermNumber
    ensures ApplyAll(s, ws).timeEachTerm == s.timeEachTerm
    ensures ApplyAll(s, ws).miningInterval == s.miningInterval
    ensures 0 <= ApplyAll(s, ws).currentRoundNumber <= s.currentRoundNumber + |ws|
    decreases |ws|
  {
    if ws != [] {
      WritesKeepConfiguration(Apply(s, ws[0]).state, ws[1..]);
    }
  }

  /** Without a request to restart at round 1, the round number never goes back. */
  lemma {:induction false} RoundNumberNeverRewinds(s: ConsensusState, ws: seq<Write>)
    requires forall i :: 0 <= i < |ws| ==> ws[i] != UpdateRoundNumber(1)
    ensures ApplyAll(s, ws).currentRoundNumber >= s.currentRoundNumber
    decreases |ws|
  {
    if ws != [] {
      RoundNumberNeverRewinds(Apply(s, ws[0]).state, ws[1..]);
    }
  }

  /** The writes contain no `TryToUpdateRoundInformation`. */
  predicate NoOverwrite(ws: seq<Write>)
  {
    forall i :: 0 <= i < |ws| ==> !ws[i].UpdateRound?
  }

  /** Without `TryToUpdateRoundInformation`, a stored round is never replaced. */
  lemma {:induction false} StoredRoundsAreStable(s: ConsensusState, ws: seq<Write>)
    requires NoOverwrite(ws)
    ensures forall n :: n in s.rounds ==> n in ApplyAll(s, ws).rounds && ApplyAll(s, ws).rounds[n] == s.rounds[n]
    decreases |ws|
  {
    if ws != [] {
      StoredRoundsAreStable(Apply(s, ws[0]).state, ws[1..]);
    }
  }

  /** Without `TryToUpdateRoundInformation`, the round read back under a number is the
      first one added under it. */
  lemma {:induction false} FirstAddWins(s: ConsensusState, ws: seq<Write>, i: nat)
    requires NoOverwrite(ws)
    requires i < |ws| && ws[i].AddRound?
    requires ws[i].round.roundNumber !in s.rounds
    requires forall j :: 0 <= j < i ==> !(ws[j].AddRound? && ws[j].round.roundNumber == ws[i].round.roundNumber)
    ensures TryToGetRoundInformation(ApplyAll(s, ws), ws[i].round.roundNumber) == Some(ws[i].round)
    decreases i
  {
    var s' := Apply(s, ws[0]).state;
    if i == 0 {
      StoredRoundsAreStable(s', ws[1..]);
    } else {
      assert ws[1..][i - 1] == ws[i];
      assert NoOverwrite(ws[1..]) by {
        forall j | 0 <= j < |ws[1..]| ensures !ws[1..][j].UpdateRound? {
          assert ws[1..][j] == ws[j + 1];
        }
      }
      forall j | 0 <= j < i - 1
        ensures !(ws[1..][j].AddRound? && ws[1..][j].round.roundNumber == ws[i].round.roundNumber)
      {
        assert ws[1..][j] == ws[j + 1];
      }
      FirstAddWins(s', ws[1..], i - 1);
    }
  }

  // ---------------------------------------------------------------------------
  // The persisted state, updated in place

  /** The contract's state fields. The methods are the source's writers; each is proved
      to perform the matching transition above. */
  class ConsensusStore {
    var currentRoundNumber: int
    var currentTermNumber: int
    var rounds: map<int, Round>
    var blockchainStartTimestamp: Option<int>
    var timeEachTerm: int
    var miningInterval: int

    function Snapshot(): ConsensusState
      reads this
    {
      ConsensusState(currentRoundNumber, currentTermNumber, rounds, blockchainStartTimestamp,
                     timeEachTerm, miningInterval)
    }

    /** A store with no round, no start timestamp and the given configuration. */
    constructor (currentTermNumber: int, timeEachTerm: int, miningInterval: int)
      ensures Snapshot() == ConsensusState(0, currentTermNumber, map[], None, timeEachTerm, miningInterval)
    {
      this.currentRoundNumber := 0;
      this.currentTermNumber := currentTermNumber;
      this.rounds := map[];
      this.blockchainStartTimestamp := None;
      this.timeEachTerm := timeEachTerm;
      this.miningInterval := miningInterval;
    }

    method SetBlockchainStartTimestamp(timestamp: int)
      modifies this
      ensures Snapshot() == WithBlockchainStartTimestamp(old(Snapshot()), timestamp)
      ensures blockchainStartTimestamp == Some(timestamp)
    {
      blockchainStartTimestamp := Some(timestamp);
    }

    method TryToUpdateRoundNumber(roundNumber: int) returns (ok: bool)
      modifies this
      ensures ok <==> roundNumber == 1 || roundNumber == old(currentRoundNumber) + 1
      ensures currentRoundNumber == if ok then roundNumber else old(currentRoundNumber)
      ensures Attempt(ok, Snapshot()) == RoundNumberUpdated(old(Snapshot()), roundNumber)
    {
      var oldRoundNumber := currentRoundNumber;
      if roundNumber != 1 && oldRoundNumber + 1 != roundNumber {
        return false;
      }
      currentRoundNumber := roundNumber;
      return true;
    }

    method TryToAddRoundInformation(round: Round) returns (ok: bool)
      modifies this
      ensures ok <==> round.roundNumber !in old(rounds)
      ensures rounds == if ok then old(rounds)[round.roundNumber := round] else old(rounds)
      ensures Attempt(ok, Snapshot()) == RoundAdded(old(Snapshot()), round)
    {
      if round.roundNumber in rounds {
        return false;
      }
      rounds := rounds[round.roundNumber := round];
      return true;
    }

    method TryToUpdateRoundInformation(round: Round) returns (ok: bool)
      modifies this
      ensures ok <==> round.roundNumber in old(rounds)
      ensures rounds == if ok then old(rounds)[round.roundNumber := round] else old(rounds)
      ensures Attempt(ok, Snapshot()) == RoundUpdated(old(Snapshot()), round)
    {
      if round.roundNumber !in rounds {
        return false;
      }
      rounds := rounds[round.roundNumber := round];
      return true;
    }
  }
}
