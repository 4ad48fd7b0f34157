# AEDPoS consensus help methods in Dafny

This project models the help methods of the AElf AEDPoS consensus contract
(`AEDPoSContract_HelpMethods.cs`). They make up the round-based decision engine of a node:

- **Behaviour decision.** `GetBehaviour` takes a miner's public key, the current time and the
  persisted round state. It returns exactly one of `Nothing`,
  `UpdateValueWithoutPreviousInValue`, `UpdateValue`, `TinyBlock`, `NextRound` and
  `NextTerm`, or it aborts.
- **Round-state store.**
  - Guarded readers: `TryToGet…` and `IsJustChangedTerm`.
  - Writers: `SetBlockchainStartTimestamp` and the three "try" writers. These are the
    round-number gate, write-once add, and update of an existing round only.
- **Time-slot arithmetic.** The duration of one tiny block, the milliseconds left until a
  miner's next tiny block, and the conversion of a protobuf `Duration` to milliseconds.

Files:

- `types.dfy` (`ConsensusTypes`): rounds, miners, behaviours and the state record.
  - `RealTimeMinersInformation` is a sequence of entries in insertion order. This keeps
    `Values.First(m => m.Order == 1)` deterministic.
  - `RoundQueries` holds the `Round` members whose bodies are not part of this model:
    `IsEmpty`, `IsTimeSlotPassed`, `GetStartTime` and `IsTimeToChangeTerm`. They are passed in
    as total functions.
- `readers.dfy` (`RoundReaders`): the readers. Each `bool TryToGetX(out x)` becomes a function
  that returns `Some(x)` exactly when the C# method returns true.
- `behaviour.dfy` (`BehaviourDecision`): `GetBehaviour` and one lemma per branch of its
  decision table.
  - The two exceptions of the C# code are modelled as `Aborted`. One is `First` finding no
    order-1 miner; the other is the failing start-timestamp assertion.
  - The out parameter `currentRound` is returned beside the behaviour.
- `store.dfy` (`RoundStore`): the writers, in two forms.
  - Pure transitions on `ConsensusState`, with lemmas about single writes and about any
    sequence of writes.
  - Methods of the class `ConsensusStore`, whose fields the contract updates in place. Each
    method is proved to perform its pure transition.
- `timeslot.dfy` (`TimeSlot`): millisecond arithmetic with C#'s truncating division.

Behaviour of the code worth knowing:

- `IsJustChangedTerm` also requires a stored term number different from 0 (`AEDPoSContract_HelpMethods.cs:116`).
- `TryToUpdateRoundNumber` accepts 1 from any round, so a reset to round 1 is possible (`:218`).
- `SetBlockchainStartTimestamp` overwrites an existing timestamp; it is not write-once (`:212`).
- The extra block producer's grace-window `TinyBlock` takes precedence over `UpdateValue` (`:53-64`).

## Model

| member | source | states |
|---|---|---|
| `BehaviourDecision.GetBehaviour` | src/AElf.Contracts.Consensus.AEDPoS/AEDPoSContract_HelpMethods.cs:22-104 | `Nothing` exactly when the caller is not a miner of the current round (no round number, no stored round, or not a participant); every other result hands back the current round; `TinyBlock` only below the quota, or below twice the quota for the previous round's extra block producer; aborts only for participants |
| `BehaviourDecision.EndOfRound` | src/AElf.Contracts.Consensus.AEDPoS/AEDPoSContract_HelpMethods.cs:76-103 | the missed-slot tail yields only `NextRound` or `NextTerm`; it aborts with the missing-start-timestamp fault exactly when the chain changes terms, the round is not round 1 and no timestamp is set; `NextTerm` never on a side chain or in round 1 |
| `BehaviourDecision.BootNodeGuard` | src/AElf.Contracts.Consensus.AEDPoS/AEDPoSContract_HelpMethods.cs:39-45 | a miner without an out value, with no previous round and order other than 1, gets `NextRound` while the first order-1 miner has no out value; the decision aborts when no miner has order 1 |
| `BehaviourDecision.FirstWithOrderIsFirst` | src/AElf.Contracts.Consensus.AEDPoS/AEDPoSContract_HelpMethods.cs:40 | the boot miner found is the earliest entry with order 1 |
| `BehaviourDecision.WithoutPreviousInValueCases` | src/AElf.Contracts.Consensus.AEDPoS/AEDPoSContract_HelpMethods.cs:47-51 | `UpdateValueWithoutPreviousInValue` if and only if the miner has no out value, the previous round is unavailable or the term just changed, and the boot-node guard does not fire |
| `BehaviourDecision.EarlyRoundsHaveNoPreviousRound` | src/AElf.Contracts.Consensus.AEDPoS/AEDPoSContract_HelpMethods.cs:147-162 | below round 2 no previous round is available, the term never counts as just changed and the term number handed on is 0 |
| `BehaviourDecision.TinyBlockCases` | src/AElf.Contracts.Consensus.AEDPoS/AEDPoSContract_HelpMethods.cs:53-74 | `TinyBlock` if and only if one of three cases holds: the extra block producer's grace window before the round starts, the ordinary quota after the miner's own block, or the extra block producer's doubled quota |
| `BehaviourDecision.QuotaReachedMeansNoTinyBlock` | src/AElf.Contracts.Consensus.AEDPoS/AEDPoSContract_HelpMethods.cs:66-74 | a miner other than the previous round's extra block producer never gets `TinyBlock` at or above `TinyBlocksNumber`, whatever its out value and the time |
| `BehaviourDecision.UpdateValueCases` | src/AElf.Contracts.Consensus.AEDPoS/AEDPoSContract_HelpMethods.cs:60-64 | `UpdateValue` if and only if all of these hold: no out value, the previous round is available in the same term, no grace window, and the time slot has not passed |
| `BehaviourDecision.MissedSlotDecision` | src/AElf.Contracts.Consensus.AEDPoS/AEDPoSContract_HelpMethods.cs:79-103 | after a missed slot with no allowance left: `NextRound` on a side chain (`TimeEachTerm == int.MaxValue`) or in round 1; an abort when the start timestamp is missing; otherwise `NextTerm` exactly when `IsTimeToChangeTerm` holds for the previous round, the start timestamp, the term number and the term length |
| `ConsensusTypes.ContainsKey` | src/AElf.Contracts.Consensus.AEDPoS/AEDPoSContract_HelpMethods.cs:27 | a key is a participant exactly when some entry of the round's miner table has that key |
| `TimeSlot.ConvertDurationToMilliseconds` | src/AElf.Contracts.Consensus.AEDPoS/AEDPoSContract_HelpMethods.cs:183-186 | on a normalised duration, the result is its length in milliseconds rounded toward zero |
| `RoundStore.WithBlockchainStartTimestamp` | src/AElf.Contracts.Consensus.AEDPoS/AEDPoSContract_HelpMethods.cs:209-213 | the start timestamp becomes the given one, overwriting any earlier value; no other field changes |
| `RoundStore.RoundNumberUpdated` | src/AElf.Contracts.Consensus.AEDPoS/AEDPoSContract_HelpMethods.cs:215-225 | succeeds if and only if the number is 1 or the stored number plus 1; the stored number is then the requested one, otherwise unchanged; no other field changes |
| `RoundStore.RoundAdded` | src/AElf.Contracts.Consensus.AEDPoS/AEDPoSContract_HelpMethods.cs:227-237 | succeeds if and only if the number is free; afterwards the number is stored, holding the new round on success and the old one otherwise; no stored round is ever replaced; no other field changes |
| `RoundStore.RoundUpdated` | src/AElf.Contracts.Consensus.AEDPoS/AEDPoSContract_HelpMethods.cs:239-249 | succeeds if and only if the number is taken; the set of numbers is unchanged, the entry holds the new round on success, every other entry and field is unchanged |
| `BehaviourDecision.NextRoundCases` | src/AElf.Contracts.Consensus.AEDPoS/AEDPoSContract_HelpMethods.cs:39-103 | `NextRound` if and only if the caller participates and either the boot-node guard fires, or it missed its slot and the chain is a side chain, is in round 1, or has a start timestamp and `IsTimeToChangeTerm` does not hold |
| `BehaviourDecision.EndOfTermOnlyAfterMissedSlot` | src/AElf.Contracts.Consensus.AEDPoS/AEDPoSContract_HelpMethods.cs:76-103 | `NextTerm` and the missing-timestamp abort happen only to a participating miner that missed its slot, off a side chain, after round 1 |
| `BehaviourDecision.SideChainNeverChangesTerm` | src/AElf.Contracts.Consensus.AEDPoS/AEDPoSContract_HelpMethods.cs:79-83 | with `TimeEachTerm == int.MaxValue` the decision is never `NextTerm` and never needs the start timestamp |
| `BehaviourDecision.DecisionReadsOnlyCurrentAndPreviousRound` | src/AElf.Contracts.Consensus.AEDPoS/AEDPoSContract_HelpMethods.cs:22-104 | two nodes reach the same decision if their states agree on the round and term numbers, the current and previous round entries, the term length and the start timestamp |
| `ConsensusTypes.Lookup` | src/AElf.Contracts.Consensus.AEDPoS/AEDPoSContract_HelpMethods.cs:26-34 | the miner record of a key is found exactly when some entry has that key, and it is that entry's record |
| `ConsensusTypes.FirstWithOrder` | src/AElf.Contracts.Consensus.AEDPoS/AEDPoSContract_HelpMethods.cs:40 | a miner with the order is found exactly when one exists (otherwise `First` throws), and it has that order |
| `RoundReaders.TryToGetBlockchainStartTimestamp` | src/AElf.Contracts.Consensus.AEDPoS/AEDPoSContract_HelpMethods.cs:106-110 | succeeds exactly when a timestamp is set, and returns it |
| `RoundReaders.IsJustChangedTerm` | src/AElf.Contracts.Consensus.AEDPoS/AEDPoSContract_HelpMethods.cs:112-118 | true exactly when the previous round is available, the stored term number is not 0 and differs from the previous round's; the out term number is the stored one once the previous round was found, else 0 |
| `RoundReaders.TryToGetTermNumber` | src/AElf.Contracts.Consensus.AEDPoS/AEDPoSContract_HelpMethods.cs:120-124 | succeeds exactly when the stored term number is not 0 |
| `RoundReaders.TryToGetRoundNumber` | src/AElf.Contracts.Consensus.AEDPoS/AEDPoSContract_HelpMethods.cs:126-130 | succeeds exactly when the stored round number is not 0 |
| `RoundReaders.TryToGetCurrentRoundInformation` | src/AElf.Contracts.Consensus.AEDPoS/AEDPoSContract_HelpMethods.cs:132-145 | succeeds exactly when the round number is not 0 and a round is stored under it, and returns that round |
| `RoundReaders.TryToGetPreviousRoundInformation` | src/AElf.Contracts.Consensus.AEDPoS/AEDPoSContract_HelpMethods.cs:147-162 | succeeds exactly when the round number is at least 2 and the round before it is stored and not empty, and returns that round |
| `RoundReaders.PreviousRoundArgument` | src/AElf.Contracts.Consensus.AEDPoS/AEDPoSContract_HelpMethods.cs:149-157 | the previous round handed to `IsTimeToChangeTerm`: a fresh empty round below round 2, otherwise whatever is stored under the previous number |
| `RoundReaders.TryToGetRoundInformation` | src/AElf.Contracts.Consensus.AEDPoS/AEDPoSContract_HelpMethods.cs:164-168 | succeeds exactly when a round is stored under the number, and returns it |
| `RoundStore.RoundNumberGate` | src/AElf.Contracts.Consensus.AEDPoS/AEDPoSContract_HelpMethods.cs:215-225 | the round-number update succeeds if and only if the number is 1 or the stored number plus 1; on success the stored number is the requested one; on failure nothing changes; no other field ever changes |
| `RoundStore.AddThenRead` | src/AElf.Contracts.Consensus.AEDPoS/AEDPoSContract_HelpMethods.cs:227-237 | adding succeeds if and only if no round is stored under the number; afterwards the number reads as the added round, or as the old round on failure; every other number and field is unchanged |
| `RoundStore.SecondAddRejected` | src/AElf.Contracts.Consensus.AEDPoS/AEDPoSContract_HelpMethods.cs:227-237 | a second add under the same number returns false, leaves the state unchanged and the first round is read back |
| `RoundStore.UpdateThenRead` | src/AElf.Contracts.Consensus.AEDPoS/AEDPoSContract_HelpMethods.cs:239-249 | updating succeeds if and only if a round is stored under the number; it never adds a number, replaces only that entry and leaves every other field alone |
| `RoundStore.StartTimestampThenRead` | src/AElf.Contracts.Consensus.AEDPoS/AEDPoSContract_HelpMethods.cs:209-213 | after setting the start timestamp the reader returns it, and nothing else changes |
| `RoundStore.AdvanceThenRead` | src/AElf.Contracts.Consensus.AEDPoS/AEDPoSContract_HelpMethods.cs:215-237 | adding round n + 1 and then moving the round number to it succeeds; the new round is current and the old current round is the previous one (unless empty) |
| `RoundStore.AddingOtherRoundKeepsDecisions` | src/AElf.Contracts.Consensus.AEDPoS/AEDPoSContract_HelpMethods.cs:227-237 | adding a round other than the current and the previous one changes no miner's decision |
| `RoundStore.WritesKeepConfiguration` | src/AElf.Contracts.Consensus.AEDPoS/AEDPoSContract_HelpMethods.cs:209-249 | no sequence of writes deletes a round, changes the term number, the term length or the mining interval, or raises the round number by more than one per write (nor makes it negative) |
| `RoundStore.RoundNumberNeverRewinds` | src/AElf.Contracts.Consensus.AEDPoS/AEDPoSContract_HelpMethods.cs:215-225 | without a request for round 1, the round number never decreases over any sequence of writes |
| `RoundStore.StoredRoundsAreStable` | src/AElf.Contracts.Consensus.AEDPoS/AEDPoSContract_HelpMethods.cs:227-237 | without round updates, every stored round stays stored with the same value over any sequence of writes |
| `RoundStore.FirstAddWins` | src/AElf.Contracts.Consensus.AEDPoS/AEDPoSContract_HelpMethods.cs:227-237 | without round updates, the round read back under a number is the first one added under it |
| `RoundStore.ConsensusStore.SetBlockchainStartTimestamp` | src/AElf.Contracts.Consensus.AEDPoS/AEDPoSContract_HelpMethods.cs:209-213 | stores the timestamp; every other field is unchanged |
| `RoundStore.ConsensusStore.TryToUpdateRoundNumber` | src/AElf.Contracts.Consensus.AEDPoS/AEDPoSContract_HelpMethods.cs:215-225 | returns true if and only if the number is 1 or the old number plus 1; stores it only then; performs the gate transition |
| `RoundStore.ConsensusStore.TryToAddRoundInformation` | src/AElf.Contracts.Consensus.AEDPoS/AEDPoSContract_HelpMethods.cs:227-237 | returns true if and only if the number was free; stores the round only then; performs the write-once transition |
| `RoundStore.ConsensusStore.TryToUpdateRoundInformation` | src/AElf.Contracts.Consensus.AEDPoS/AEDPoSContract_HelpMethods.cs:239-249 | returns true if and only if the number was taken; replaces the round only then; performs the update transition |
| `TimeSlot.TruncDiv` | src/AElf.Contracts.Consensus.AEDPoS/AEDPoSContract_HelpMethods.cs:185 | C# `Div` by a positive divisor: the quotient times the divisor lies within one divisor of the dividend, on the dividend's side of zero (rounding toward zero) |
| `TimeSlot.TimestampDifference` | src/AElf.Contracts.Consensus.AEDPoS/AEDPoSContract_HelpMethods.cs:195 | the difference of two timestamps is a normalised duration of exactly that many milliseconds |
| `TimeSlot.ConvertTruncatesTowardZero` | src/AElf.Contracts.Consensus.AEDPoS/AEDPoSContract_HelpMethods.cs:183-186 | converting a normalised duration gives its length in milliseconds, rounded toward zero |
| `TimeSlot.MillisecondsRoundTrip` | src/AElf.Contracts.Consensus.AEDPoS/AEDPoSContract_HelpMethods.cs:183-186 | converting the difference of two millisecond timestamps returns the difference |
| `TimeSlot.TimeForEachBlock` | src/AElf.Contracts.Consensus.AEDPoS/AEDPoSContract_HelpMethods.cs:192 | the tiny-block duration is the mining interval over `TinyBlocksNumber`, rounded toward zero, so a full quota fits within one interval |
| `TimeSlot.GetNextBlockMiningLeftMillisecondsForFirstRound` | src/AElf.Contracts.Consensus.AEDPoS/AEDPoSContract_HelpMethods.cs:188-197 | exactly the first actual mining time plus tiny-block duration times tiny blocks produced, minus the block time; no result when there is no actual mining time |
| `TimeSlot.GetNextBlockMiningLeftMillisecondsForPreviousRoundExtraBlockProducer` | src/AElf.Contracts.Consensus.AEDPoS/AEDPoSContract_HelpMethods.cs:199-207 | exactly the previous extra block's time plus tiny-block duration times tiny blocks produced, minus the block time |
| `TimeSlot.DeadlineMovesByOneTinyBlock` | src/AElf.Contracts.Consensus.AEDPoS/AEDPoSContract_HelpMethods.cs:202-206 | each tiny block produced moves the deadline by one tiny-block duration; after a full quota the deadline is within one mining interval of the anchor |
| `TimeSlot.TruncationExamples` | src/AElf.Contracts.Consensus.AEDPoS/AEDPoSContract_HelpMethods.cs:185-202 | for literal inputs: a 4007 ms interval gives 500 ms tiny blocks (and -4007 gives -500), the extra-producer deadline comes out to 500 ms, and -1.5 ms converts to -1 ms |

## Left out

- `GenerateTransaction`: it builds a protobuf transaction from the execution context's sender and self address. That is serialisation, not consensus logic.
- `Context.LogDebug` calls: logging only.
- Time conversions: `DateTime`, `Timestamp` and `Duration` library conversions are not modelled. Every time is an integer number of milliseconds, so the sub-millisecond part of a block time is not modelled.
- `Round.IsEmpty`, `Round.IsTimeSlotPassed`, `Round.GetStartTime` and `Round.IsTimeToChangeTerm`: their bodies are not part of this model. They are parameters (`RoundQueries`). The miner record that `IsTimeSlotPassed` returns through its out parameter is taken to be the caller's entry in the current round.
- Monotonicity of `IsTimeToChangeTerm` in the current time: this cannot be stated without that function's body.
- `TinyBlocksNumber` is 8, AElf's constant. Only `TimeSlot.TruncationExamples` depends on that value (its 500 ms tiny blocks and 500 ms deadline); every other proof uses only that it is positive.
- `RoundReaders.TryToGetPreviousRoundInformation`: a previous round number with no stored entry is treated as unavailable. The C# code reads a null entry there (its other readers treat a missing entry as null, :137-138, :166-167, :229-230) and asks it `IsEmpty`, which for an instance member throws; `GetBehaviour` (through :32 and :115) would then abort for every participant, where the model returns a decision (for example the boot-node guard's `NextRound` or `UpdateValueWithoutPreviousInValue`).
- `TimeSlot.ConvertDurationToMilliseconds`: does not model the `(int)` narrowing of the 64-bit result, because integers are unbounded here.
- `TimeSlot.GetNextBlockMiningLeftMillisecondsForFirstRound`: does not model overflow of the checked `timeForEachBlock.Mul(producedTinyBlocks)` (:194). Integers are unbounded here.
- `TimeSlot.GetNextBlockMiningLeftMillisecondsForPreviousRoundExtraBlockProducer`: does not model overflow of the checked `timeForEachBlock.Mul(producedTinyBlocks)` (:204). Integers are unbounded here.
- `RoundStore.RoundNumberUpdated`: does not model overflow of `oldRoundNumber + 1` (:218), because integers are unbounded here.
- Persistence, replication, the gRPC cross-chain clients, the receipt manager, the consensus transaction generator and node plugins: they are outside the decision engine.
