/**
 * `GetBehaviour`: the consensus behaviour a miner should take next, decided from
 * its public key, the current time and the persisted round state.
 */
module BehaviourDecision {
  import opened ConsensusTypes
  import opened RoundReaders

  /** The two ways the decision aborts instead of returning a behaviour:
      `Values.First(m => m.Order == 1)` finds no boot miner, or the assertion that the
      blockchain start timestamp is set fails. */
  datatype Fault = BootMinerMissing | StartTimestampMissing

  /** A behaviour with the current round handed back through the out parameter
      (`None` for null), or an abort. */
  datatype Outcome = Decided(behaviour: Behaviour, currentRound: Option<Round>) | Aborted(fault: Fault)

  /** The caller is a miner of the current round. */
  predicate Participates(s: ConsensusState, publicKey: PublicKey)
  {
    s.currentRoundNumber != 0 && s.currentRoundNumber in s.rounds
    && ContainsKey(s.rounds[s.currentRoundNumber].realTimeMinersInformation, publicKey)
  }

  function CurrentRound(s: ConsensusState): Round
    requires s.currentRoundNumber in s.rounds
  {
    s.rounds[s.currentRoundNumber]
  }

  /** The caller's record in the current round. */
  function Miner(s: ConsensusState, publicKey: PublicKey): MinerInRound
    requires Participates(s, publicKey)
  {
    Lookup(CurrentRound(s).realTimeMinersInformation, publicKey).value
  }

  function GetBehaviour(q: RoundQueries, s: ConsensusState, publicKey: PublicKey, now: int): (r: Outcome)
    // Nothing is the answer exactly for callers outside the current round.
    ensures (r.Decided? && r.behaviour == Nothing) <==> !Participates(s, publicKey)
    // Every other answer comes with the current round.
    ensures r.Decided? && r.behaviour != Nothing ==> r.currentRound == Some(CurrentRound(s))
    ensures r.Aborted? ==> Participates(s, publicKey)
    // Tiny-block quota: the ordinary quota, doubled for the previous round's extra block producer.
    ensures r.Decided? && r.behaviour == TinyBlock ==>
      Miner(s, publicKey).producedTinyBlocks < TinyBlocksNumber
      || (CurrentRound(s).extraBlockProducerOfPreviousRound == publicKey
          && Miner(s, publicKey).producedTinyBlocks < 2 * TinyBlocksNumber)
  {
    match TryToGetCurrentRoundInformation(s)
    case None => Decided(Nothing, None)
    case Some(currentRound) =>
      match Lookup(currentRound.realTimeMinersInformation, publicKey)
      case None => Decided(Nothing, Some(currentRound))
      case Some(minerInRound) =>
        var ableToGetPreviousRound := TryToGetPreviousRoundInformation(q, s).Some?;
        var termCheck := IsJustChangedTerm(q, s);
        var isTimeSlotPassed := q.isTimeSlotPassed(currentRound, publicKey, now);
        if minerInRound.outValue.None? then
          if !ableToGetPreviousRound && minerInRound.order != 1 then
            // Boot-node guard: wait for the order-1 miner's first block.
            match FirstWithOrder(currentRound.realTimeMinersInformation, 1)
            case None => Aborted(BootMinerMissing)
            case Some(bootMiner) =>
              if bootMiner.outValue.None? then Decided(NextRound, Some(currentRound))
              else Decided(UpdateValueWithoutPreviousInValue, Some(currentRound))
          else if !ableToGetPreviousRound || termCheck.justChanged then
            Decided(UpdateValueWithoutPreviousInValue, Some(currentRound))
          else if currentRound.extraBlockProducerOfPreviousRound == publicKey
                  && now < q.getStartTime(currentRound)
                  && minerInRound.producedTinyBlocks < TinyBlocksNumber then
            Decided(TinyBlock, Some(currentRound))
          else if !isTimeSlotPassed then
            Decided(UpdateValue, Some(currentRound))
          else
            EndOfRound(q, s, currentRound, termCheck.termNumber)
        else if minerInRound.producedTinyBlocks < TinyBlocksNumber then
          Decided(TinyBlock, Some(currentRound))
        else if currentRound.extraBlockProducerOfPreviousRound == publicKey
                && minerInRound.producedTinyBlocks < 2 * TinyBlocksNumber then
          Decided(TinyBlock, Some(currentRound))
        else
          EndOfRound(q, s, currentRound, termCheck.termNumber)
  }

  /** The tail of `GetBehaviour` for a miner that missed its slot and used up its tiny
      blocks: end the round, or end the term when its time has come. */
  function EndOfRound(q: RoundQueries, s: ConsensusState, currentRound: Round, termNumber: int): (r: Outcome)
    ensures r.Decided? ==> r.behaviour in {NextRound, NextTerm} && r.currentRound == Some(currentRound)
    ensures r.Aborted? <==>
      s.timeEachTerm != IntMaxValue && currentRound.roundNumber != 1 && s.blockchainStartTimestamp.None?
    ensures r.Aborted? ==> r.fault == StartTimestampMissing
    ensures r.Decided? && r.behaviour == NextTerm ==>
      s.timeEachTerm != IntMaxValue && currentRound.roundNumber != 1
  {
    if s.timeEachTerm == IntMaxValue then
      // A side chain never changes term.
      Decided(NextRound, Some(currentRound))
    else if currentRound.roundNumber == 1 then
      // The start timestamp is not yet trustworthy in the first round.
      Decided(NextRound, Some(currentRound))
    else
      match TryToGetBlockchainStartTimestamp(s)
      case None => Aborted(StartTimestampMissing)
      case Some(blockchainStartTimestamp) =>
        var changeTerm :=
          q.isTimeToChangeTerm(currentRound, PreviousRoundArgument(s), blockchainStartTimestamp,
                               termNumber, s.timeEachTerm);
        if changeTerm then Decided(NextTerm, Some(currentRound)) else Decided(NextRound, Some(currentRound))
  }

  /** The conditions under which a participating miner falls through every producing
      branch of the decision: it missed its slot and has no tiny-block allowance left. */
  predicate MissedSlot(q: RoundQueries, s: ConsensusState, publicKey: PublicKey, now: int)
    requires Participates(s, publicKey)
  {
    var round := CurrentRound(s);
    var miner := Miner(s, publicKey);
    if miner.outValue.None? then
      TryToGetPreviousRoundInformation(q, s).Some?
      && !IsJustChangedTerm(q, s).justChanged
      && !(round.extraBlockProducerOfPreviousRound == publicKey && now < q.getStartTime(round)
           && miner.producedTinyBlocks < TinyBlocksNumber)
      && q.isTimeSlotPassed(round, publicKey, now)
    else
      miner.producedTinyBlocks >= TinyBlocksNumber
      && !(round.extraBlockProducerOfPreviousRound == publicKey
           && miner.producedTinyBlocks < 2 * TinyBlocksNumber)
  }

  /** The boot-node guard fires: the miner has not produced, no previous round is
      available, its order is not 1, and the first order-1 miner has not produced either. */
  predicate BootGuardFires(q: RoundQueries, s: ConsensusState, publicKey: PublicKey)
    requires Participates(s, publicKey)
  {
    var boot := FirstWithOrder(CurrentRound(s).realTimeMinersInformation, 1);
    Miner(s, publicKey).outValue.None? && TryToGetPreviousRoundInformation(q, s).None?
    && Miner(s, publicKey).order != 1 && boot.Some? && boot.value.outValue.None?
  }

  /** Boot-node guard: before any previous round exists, a miner other than the
      order-1 miner asks for the next round while the order-1 miner has not produced,
      and the decision aborts when there is no order-1 miner at all. */
  lemma BootNodeGuard(q: RoundQueries, s: ConsensusState, publicKey: PublicKey, now: int)
    requires Participates(s, publicKey)
    requires Miner(s, publicKey).outValue.None?
    requires TryToGetPreviousRoundInformation(q, s).None?
    requires Miner(s, publicKey).order != 1
    ensures FirstWithOrder(CurrentRound(s).realTimeMinersInformation, 1).None? ==>
      GetBehaviour(q, s, publicKey, now) == Aborted(BootMinerMissing)
    ensures (exists i :: 0 <= i < |CurrentRound(s).realTimeMinersInformation|
               && CurrentRound(s).realTimeMinersInformation[i].info.order == 1
               && CurrentRound(s).realTimeMinersInformation[i].info.outValue.None?
               && forall j :: 0 <= j < i ==> CurrentRound(s).realTimeMinersInformation[j].info.order != 1) ==>
      GetBehaviour(q, s, publicKey, now) == Decided(NextRound, Some(CurrentRound(s)))
  {
    var miners := CurrentRound(s).realTimeMinersInformation;
    if i :| (0 <= i < |miners| && miners[i].info.order == 1 && miners[i].info.outValue.None?
             && forall j :: 0 <= j < i ==> miners[j].info.order != 1) {
      FirstWithOrderIsFirst(miners, 1, i);
    }
  }

  /** `FirstWithOrder` returns the earliest miner with the order asked for. */
  lemma {:induction false} FirstWithOrderIsFirst(miners: seq<MinerEntry>, order: int, i: int)
    requires 0 <= i < |miners| && miners[i].info.order == order
    requires forall j :: 0 <= j < i ==> miners[j].info.order != order
    ensures FirstWithOrder(miners, order) == Some(miners[i].info)
    decreases i
  {
    if i > 0 {
      assert miners[1..][i - 1] == miners[i];
      FirstWithOrderIsFirst(miners[1..], order, i - 1);
    }
  }

  /** A miner produces without a previous in-value exactly when it has not produced in
      this round, the previous round is unavailable or the term just changed, and the
      boot-node guard lets it through. */
  lemma WithoutPreviousInValueCases(q: RoundQueries, s: ConsensusState, publicKey: PublicKey, now: int)
    requires Participates(s, publicKey)
    ensures GetBehaviour(q, s, publicKey, now) == Decided(UpdateValueWithoutPreviousInValue, Some(CurrentRound(s)))
      <==>
      Miner(s, publicKey).outValue.None?
      && (TryToGetPreviousRoundInformation(q, s).None? || IsJustChangedTerm(q, s).justChanged)
      && !(TryToGetPreviousRoundInformation(q, s).None? && Miner(s, publicKey).order != 1
           && (FirstWithOrder(CurrentRound(s).realTimeMinersInformation, 1).None?
               || FirstWithOrder(CurrentRound(s).realTimeMinersInformation, 1).value.outValue.None?))
  {
  }

  /** The term counts as just changed only once round 2 is reached: in round 0 or 1
      no previous round is available. */
  lemma EarlyRoundsHaveNoPreviousRound(q: RoundQueries, s: ConsensusState)
    requires s.currentRoundNumber < 2
    ensures TryToGetPreviousRoundInformation(q, s).None?
    ensures !IsJustChangedTerm(q, s).justChanged && IsJustChangedTerm(q, s).termNumber == 0
  {
  }

  /** The three ways to get `TinyBlock`: the extra block producer's grace window before
      the round starts, the ordinary quota after the miner's own block, and the
      extra block producer's second quota. */
  lemma TinyBlockCases(q: RoundQueries, s: ConsensusState, publicKey: PublicKey, now: int)
    requires Participates(s, publicKey)
    ensures GetBehaviour(q, s, publicKey, now) == Decided(TinyBlock, Some(CurrentRound(s)))
      <==>
      var round := CurrentRound(s);
      var miner := Miner(s, publicKey);
      var isExtra := round.extraBlockProducerOfPreviousRound == publicKey;
      if miner.outValue.None? then
        TryToGetPreviousRoundInformation(q, s).Some? && !IsJustChangedTerm(q, s).justChanged
        && isExtra && now < q.getStartTime(round) && miner.producedTinyBlocks < TinyBlocksNumber
      else
        miner.producedTinyBlocks < TinyBlocksNumber || (isExtra && miner.producedTinyBlocks < 2 * TinyBlocksNumber)
  {
  }

  /** A miner that is not the previous round's extra block producer never gets
      `TinyBlock` once it has produced its quota. */
  lemma QuotaReachedMeansNoTinyBlock(q: RoundQueries, s: ConsensusState, publicKey: PublicKey, now: int)
    requires Participates(s, publicKey)
    requires CurrentRound(s).extraBlockProducerOfPreviousRound != publicKey
    requires Miner(s, publicKey).producedTinyBlocks >= TinyBlocksNumber
    ensures GetBehaviour(q, s, publicKey, now).Decided? ==> GetBehaviour(q, s, publicKey, now).behaviour != TinyBlock
  {
  }

  /** Ordinary in-slot production: `UpdateValue` exactly when the miner has not produced
      in this round, the previous round is available in the same term, the grace window
      does not apply, and the miner's time slot has not passed. */
  lemma UpdateValueCases(q: RoundQueries, s: ConsensusState, publicKey: PublicKey, now: int)
    requires Participates(s, publicKey)
    ensures GetBehaviour(q, s, publicKey, now) == Decided(UpdateValue, Some(CurrentRound(s)))
      <==>
      var round := CurrentRound(s);
      var miner := Miner(s, publicKey);
      miner.outValue.None?
      && TryToGetPreviousRoundInformation(q, s).Some? && !IsJustChangedTerm(q, s).justChanged
      && !(round.extraBlockProducerOfPreviousRound == publicKey && now < q.getStartTime(round)
           && miner.producedTinyBlocks < TinyBlocksNumber)
      && !q.isTimeSlotPassed(round, publicKey, now)
  {
  }

  /** Once a participating miner has missed its slot, the decision is the end of the round
      or of the term: `NextRound` on a side chain and in round 1, an abort when the start
      timestamp is missing, otherwise `NextTerm` exactly when `IsTimeToChangeTerm` holds. */
  lemma MissedSlotDecision(q: RoundQueries, s: ConsensusState, publicKey: PublicKey, now: int)
    requires Participates(s, publicKey)
    requires MissedSlot(q, s, publicKey, now)
    ensures
      var round := CurrentRound(s);
      GetBehaviour(q, s, publicKey, now) ==
        if s.timeEachTerm == IntMaxValue || round.roundNumber == 1 then Decided(NextRound, Some(round))
        else if s.blockchainStartTimestamp.None? then Aborted(StartTimestampMissing)
        else if q.isTimeToChangeTerm(round, PreviousRoundArgument(s), s.blockchainStartTimestamp.value,
                                     IsJustChangedTerm(q, s).termNumber, s.timeEachTerm)
        then Decided(NextTerm, Some(round))
        else Decided(NextRound, Some(round))
  {
  }

  /** `NextRound` is the answer exactly when the boot-node guard fires, or when a
      participating miner missed its slot and the chain is a side chain, is in round 1, or
      is not yet due for a term change. */
  lemma NextRoundCases(q: RoundQueries, s: ConsensusState, publicKey: PublicKey, now: int)
    ensures (GetBehaviour(q, s, publicKey, now).Decided? && GetBehaviour(q, s, publicKey, now).behaviour == NextRound)
      <==>
      Participates(s, publicKey)
      && (BootGuardFires(q, s, publicKey)
          || (MissedSlot(q, s, publicKey, now)
              && (s.timeEachTerm == IntMaxValue || CurrentRound(s).roundNumber == 1
                  || (s.blockchainStartTimestamp.Some?
                      && !q.isTimeToChangeTerm(CurrentRound(s), PreviousRoundArgument(s),
                                               s.blockchainStartTimestamp.value,
                                               IsJustChangedTerm(q, s).termNumber, s.timeEachTerm)))))
  {
  }

  /** `NextTerm`, and the missing-timestamp abort, are reachable only from a missed slot. */
  lemma EndOfTermOnlyAfterMissedSlot(q: RoundQueries, s: ConsensusState, publicKey: PublicKey, now: int)
    requires (GetBehaviour(q, s, publicKey, now).Decided? && GetBehaviour(q, s, publicKey, now).behaviour == NextTerm)
             || GetBehaviour(q, s, publicKey, now) == Aborted(StartTimestampMissing)
    ensures Participates(s, publicKey) && MissedSlot(q, s, publicKey, now)
    ensures s.timeEachTerm != IntMaxValue && CurrentRound(s).roundNumber != 1
  {
  }

  /** A side chain (`TimeEachTerm == int.MaxValue`) never changes term and never needs the
      start timestamp. */
  lemma SideChainNeverChangesTerm(q: RoundQueries, s: ConsensusState, publicKey: PublicKey, now: int)
    requires s.timeEachTerm == IntMaxValue
    ensures GetBehaviour(q, s, publicKey, now) != Aborted(StartTimestampMissing)
    ensures GetBehaviour(q, s, publicKey, now).Decided? ==> GetBehaviour(q, s, publicKey, now).behaviour != NextTerm
  {
  }

  /** Two nodes whose states agree on what the decision reads (the round and term
      numbers, the current and previous round entries, the term length and the start
      timestamp) reach the same decision; the other stored rounds and the mining
      interval play no part. */
  lemma {:induction false} DecisionReadsOnlyCurrentAndPreviousRound(
    q: RoundQueries, s: ConsensusState, t: ConsensusState, publicKey: PublicKey, now: int)
    requires s.currentRoundNumber == t.currentRoundNumber && s.currentTermNumber == t.currentTermNumber
    requires s.timeEachTerm == t.timeEachTerm && s.blockchainStartTimestamp == t.blockchainStartTimestamp
    requires TryToGetRoundInformation(s, s.currentRoundNumber) == TryToGetRoundInformation(t, t.currentRoundNumber)
    requires TryToGetRoundInformation(s, s.currentRoundNumber - 1) == TryToGetRoundInformation(t, t.currentRoundNumber - 1)
    ensures GetBehaviour(q, s, publicKey, now) == GetBehaviour(q, t, publicKey, now)
  {
  }
}
