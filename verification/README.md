# Dione: a verified model

Dione is an oracle network: a PBFT-style node written in Go, and its token, staking, oracle, dispute and timelock
contracts written in Solidity. This project models the parts of it whose behaviour is hard to see from any one
function, and proves what they guarantee. `dafny verify dfyconfig.toml` checks all of it.

| part | files | main results |
|---|---|---|
| stake-weighted election | `FixedPoint`, `ExpNeg`, `Poisson`, `Election`, `ElectionStakes`, `ThresholdAccuracy`, `SeriesProduct`, `ExpectedWins`; the error of `expneg`: `ExponentialSeries`, `Jets`, `Recentring`, `Decay`, `ErrorTrend`, `ErrorGrowth`, `ErrorValues`, `ErrorBounds`, `ExpAccuracy` | `ExpectedWins.ExpectedWinsAreShare`, `ThresholdAccuracy.ThresholdIsPoissonTail`, `ExpAccuracy.FirstBound`, `ExpAccuracy.SecondBound`, `Election.ComputeWinCount`, `Poisson.IcdfRounding` |
| consensus rounds | `Blocks`, `Consensus`, `ConsensusOrder`, `BlockSelection`, `ConsensusNetwork`, `ConsensusProgress` | `ConsensusNetwork.CommittedIsSupported`, `ConsensusProgress.SettledIsCommitted`, `Consensus.StateMeans`, `BlockSelection.SameMessagesSameSelection`, `BlockSelection.SelectionDeterministicIff` |
| governance token | `Sums`, `Token`, `TokenRuns`, `TokenDelegation` | `TokenRuns.PriorVotesAreHistory`, `TokenRuns.PriorVotesNeverChange`, `TokenDelegation.RunKeepsVotes`, `TokenDelegation.DelegateRevertsIff`, `TokenRuns.NonceUsedOnce` |
| staking, oracle, disputes | `Staking`, `Oracle`, `Dispute`, `System`, `Accounts`, `Ownership`, `OracleRuns`, `DisputeRuns` | `System.StakeLedger`, `Accounts.AccountStake`, `Accounts.AccountTokens`, `Ownership.SetByOwner`, `Staking.SlashMinerIff`, `OracleRuns.EndedAtMostOnce`, `DisputeRuns.DisputeSafety`, `DisputeRuns.FinishedAfterWindow`, `DisputeRuns.GuiltyVerdict` |
| timelock | `Timelock` | `Timelock.ExecutionsWaited`, `Timelock.ChangesWaited`, `Timelock.LogTellsState`, `Timelock.AdminActed` |
| chain store and sync | `Chain`, `GapFree`, `KeyEncoding`, `Databases`, `BlockChain`, `Sync`, `DisputeSearch` | `BlockChain.Replay`, `Databases.PutsAgreeIff`, `GapFree.GapFreeAlways`, `GapFree.StoreKeepsNoGapsIff`, `Sync.SyncedIsPrefix`, `DisputeSearch.SearchGapFree` |

## How the code is modelled

- A contract or Go type that updates its fields is a class whose methods work on those fields. Each method is proved
  equal to a function on plain values, and the lemmas about whole runs are about those functions. A Solidity revert is
  `None`, or `false` with the old state kept.
- e^-x is known by the partial sums of its series. How the exact quotient of `expneg` misses it is followed from exact
  values at 26 places by the sign of a derivative: `Decay` shows what a bound on the derivative says about an interval,
  `ErrorTrend` and `ErrorGrowth` bound it with the real coefficient tables.
- A run is a sequence of calls with their senders, block numbers and times; `At(y, steps, t)` is the state after the
  first `t` of them. A call that reverts leaves the state alone.
- Go's `big.Int` is `int`, with `Rsh` as division that rounds down. `uint64`, `uint32`, `uint8`, `uint256` and `int256`
  are integers with their overflow, wrap-around or revert written out.
- Hashes that identify something are taken to be free of collisions: a timelock transaction and a dispute's pair of
  accused and request stand for their hashes. A block's hash is data of the block and may be anything.
- Merkle proofs, signatures, the VRF, the beacon and CBOR are not modelled: their verdicts are parameters, and CBOR is
  taken to give back what it was given. The equality of the message set is a parameter too.
- EIP-20 balances are modelled with the token; `transferFrom` is a transfer that the holder has allowed, and allowances
  are left aside. `delegateBySig` takes the recovered signer as given. The oracle's callback does nothing, since
  the request is deleted before its callback address is read.
- `getPriorVotes` needs checkpoints with increasing block numbers; `TokenRuns.RunTracks` shows them in every run.
- `sort.Slice` is any permutation that respects the comparison; the walk of a Go map is any order.
- In the timelock a transaction being executed may call back any number of times and to any depth; the calls that reach
  the timelock meanwhile are part of the call. What a reverted call did is undone.
- A remote node in `Sync` is given by the chain it answers from, which does not change during one synchronisation.

## What the code does differently from its comments

- `expneg` is documented with an error below 3.4e-30 on [0, 1.725) and below 4.6e-15 on [0, 5). The first holds up to
  0.8694 and again from 1.5544 on, and fails everywhere from 0.8695 to 1.5542 (`ExpAccuracy.FirstBound`). The second holds
  up to 4.9838 and fails from 4.9839 on (`ExpAccuracy.SecondBound`). On [0, 2], all the rates the election produces, the
  error is below 1.25e-26 (`ExpAccuracy.ExpnegAccuracy`).
- The comment of a dispute's hash names a timestamp; the code hashes accused and request only, so there is one dispute
  per accused and request. For the zero address the guard against a second dispute does not work
  (`DisputeRuns.ZeroAccusedReopens`).
- Token transfers do not move votes, so a delegation can revert after one (`TokenDelegation.TransferBreaksDelegation`);
  `TokenDelegation.DelegateRevertsIff` says exactly when.
- A block from a NewBlock message is stored without a look at its height, which can leave a gap
  (`GapFree.StoreBlockAloneLeavesGap`); `GapFree.StoreKeepsNoGapsIff` says exactly when.

## Model

| member | source | states |
|---|---|---|
| FixedPoint.Polyval | types/electionproof.go:88-99 | the loop computes the Horner recurrence with a floor at every step |
| FixedPoint.HornerRounding | types/electionproof.go:88-99 | for every coefficient list of degree n and x in [0, c] the result is at most the exact polynomial, a sum of powers, and at most 1 + c + .. + c^(n-1) units below it |
| FixedPoint.HornerInRange | types/electionproof.go:88-99 | interval evaluation over [0, 2] encloses the fixed-point value |
| FixedPoint.HornerAtLeastConstant | types/electionproof.go:88-99 | without negative coefficients the value is at least the constant term, for every x >= 0 |
| ExpNeg.ComputeExpneg | types/electionproof.go:75-84 | quotient of the two polynomials with the real coefficient tables, for every x; the division is defined for every x >= 0 |
| ExpNeg.ExpnegRange | types/electionproof.go:23-84 | with the real tables 0 < expneg(x) <= 1 for every x in [0, 2] |
| ExpNeg.ExpnegAtZero | types/electionproof.go:75-84 | expneg(0) is exactly 1 |
| ExponentialSeries.SeriesSplit | types/electionproof.go:70-84 | the partial sums of the series of e^-u, cut at any term into a sum and a nested tail |
| Decay.ErrorFalls | types/electionproof.go:70-84 | where the derivative of the exact quotient guarantees a growth of k minus the error, an error of at least k falls from a to b by at most the factor 1 - (b - a) of its excess over k |
| ErrorTrend.TrendExpanded | types/electionproof.go:23-84 | the polynomial of degree 20 whose sign decides the growth of the error, with the real tables |
| ErrorGrowth.GrowsEverywhere | types/electionproof.go:23-84 | that sign never turns on [0, 5] |
| ErrorBounds.FirstBoundHolds | types/electionproof.go:70-84 | the exact quotient is below the series by less than 3.4e-30 on [0, 0.8694] and [1.5544, 1.725] |
| ErrorBounds.FirstBoundFails | types/electionproof.go:70-84 | and by more on [0.8695, 1.5542] |
| ErrorBounds.SecondBoundHolds | types/electionproof.go:70-84 | it is below it by less than 4.6e-15 on [0, 4.9838] |
| ErrorBounds.SecondBoundFails | types/electionproof.go:70-84 | and by more on [4.9839, 5] |
| ErrorBounds.ErrorToTwo | types/electionproof.go:70-84 | on [0, 2] by less than 1.24e-26 |
| ExpAccuracy.RoundingError | types/electionproof.go:75-99 | all rounding in expneg for x in [0, c]: at most 1 + c + .. + c^6 and 1 + c + .. + c^12 units in the polynomials and one in the quotient |
| ExpAccuracy.ExpnegIsQuotient | types/electionproof.go:75-99 | below 5 expneg is within 1e-60 of the exact quotient |
| ExpAccuracy.FirstBound | types/electionproof.go:70-84 | against every partial sum of order 40 and up: for every x in [0, 1.725] the documented 3.4e-30 holds if x <= 0.8694 or x >= 1.5544, and fails if 0.8695 <= x <= 1.5542 |
| ExpAccuracy.SecondBound | types/electionproof.go:70-84 | for every x in [0, 5) the documented 4.6e-15 holds if x <= 4.9838, and fails if x >= 4.9839 |
| ExpAccuracy.ExpnegAccuracy | types/electionproof.go:70-84 | on [0, 2], all the rates of the election, expneg is within 1.25e-26 of every partial sum of order 40 and up, and within 4.6e-15 of those from order 24 on |
| Poisson.PmfNonNegative | types/electionproof.go:155-174 | the incremental probabilities are never negative |
| Poisson.IcdfNeverIncreases | types/electionproof.go:125-174 | the thresholds never increase with k |
| Poisson.PmfRounding | types/electionproof.go:155-174 | every pmf(k) is at most elam * lambda^k / k! and at most 5 units below it |
| Poisson.IcdfRounding | types/electionproof.go:155-174 | every icdf(k) is at least the exact value and at most 5k units above it |
| Election.LambdaRange | types/electionproof.go:101-107 | the rate is never negative, and at most 2 when power <= totalPower |
| Election.Poiss.constructor | types/electionproof.go:125-143 | the state after creation is step 0 of the recurrence |
| Election.Poiss.Next | types/electionproof.go:155-174 | one call moves to the next step of the recurrence and returns its threshold |
| Election.ThresholdsNeverIncrease | types/electionproof.go:102-174 | for 0 <= power <= totalPower the thresholds never increase and stay below 1 |
| Election.ComputeWinCount | types/electionproof.go:179-206 | the count is the length of the leading run of thresholds above the hash, and for power <= totalPower the number of k < 20 with hash < icdf(k) |
| Election.WinsAntitoneInHash | types/electionproof.go:179-206 | a smaller hash never wins less often |
| Election.NoStakeNoWin | types/electionproof.go:179-206 | no power, no win, for every hash |
| ThresholdAccuracy.ExactIcdfSum | types/electionproof.go:125-174 | the unrounded thresholds are 1 - elam * (1 + u + .. + u^k/k!) |
| ThresholdAccuracy.ThresholdIsPoissonTail | types/electionproof.go:75-206 | every threshold the election uses is within 1.2e-25 of the tail probability of the Poisson distribution with the miner's rate, its e^-lambda taken with 40 terms or more; within 4.2e-14 with 24 or more |
| SeriesProduct.SumsMultiplyToOne | types/electionproof.go:70-84 | on [0, 2] the partial sums of the series of e^-u and e^u multiply to 1, up to 18 times their last terms, for any two orders |
| ExpectedWins.WinsByThreshold | types/electionproof.go:179-206 | counted over all digests below any bound, a miner's wins are the sum over k < 20 of the digests below the k-th threshold |
| ExpectedWins.TailsAddUp | types/electionproof.go:125-174 | the first twenty tails of the Poisson distribution with rate u in [0, 2] add up to u within 3.1e-9 |
| ExpectedWins.RateIsShare | config/win_config.go:5 | the rate is 2 * power / totalPower, rounded down by less than 1e-30 |
| ExpectedWins.ExpectedWinsAreShare | types/electionproof.go:101-206 | over all 2^256 digests a miner wins 2 * power / totalPower times on average, within 1e-8, for every legal stake: two leaders are expected, shared in proportion to stake |
| ElectionStakes.StakesFitElection | eth-contracts/contracts/DioneStaking.sol:104-111 | stake and total stake read from one reachable contract state satisfy power <= totalPower, so rate and e^-rate are in range; without stake there is no win |
| Consensus.Get | consensus/msg_log.go:30-52 | returns exactly the logged messages that count for a type and hash |
| Consensus.Proposal | consensus/consensus_manager.go:81-87 | the block kept for a hash is that of the first proposal in its log |
| Consensus.ConsensusManager.constructor | consensus/consensus_manager.go:39-48 | starts without entries |
| Consensus.StateMeans | consensus/consensus_manager.go:81-98 | in terms of the places in the log that hold a Prepare or Commit for the hash: without a proposal a hash is Unknown; with one it is PrePrepared exactly below minApprovals - 1 Prepares, Prepared exactly with as many and below minApprovals Commits, and Committed exactly with both |
| Consensus.EventsMean | consensus/consensus_manager.go:81-98 | inserting a message announces exactly the states between the old and the new one, each with the block of the first proposal |
| Consensus.ConsensusManager.InsertMessageIntoLog | consensus/consensus_manager.go:57-79 | a message is refused exactly if the log of its hash holds the same one, and then nothing changes; otherwise it is appended to that log and no other entry changes, the entry is Unknown, PrePrepared, Prepared or Committed exactly as `Consensus.StateMeans` says, its block is that of the first proposal, and each state newly reached is announced once, in order |
| Consensus.ConsensusManager.MaybeUpdateConsensusState | consensus/consensus_manager.go:81-98 | brings an entry from the state of the log without the message to that of the log with it, in the terms of `Consensus.StateMeans` |
| Consensus.ConsensusManager.Prune | consensus/consensus_manager.go:100-106 | removes every entry |
| Consensus.ConsensusManager.GetAllBlocksWithCommit | consensus/consensus_manager.go:108-118 | lists exactly the committed entries, each once, in whatever order the map is walked |
| ConsensusOrder.MatchingCountPermuted | consensus/msg_log.go:30-52 | how many messages count does not depend on their order |
| ConsensusOrder.StatePermuted | consensus/consensus_manager.go:81-98 | the state of a hash does not depend on the order of its log |
| ConsensusOrder.EqualLogsCommitEqually | consensus/consensus_manager.go:81-118 | nodes whose logs are permutations of each other commit the same hashes |
| ConsensusOrder.ReceivedLog | consensus/consensus_manager.go:57-79 | for every equality of the message set that only identifies messages the manager treats alike: the log of a hash holds one received message of each kind received for it, and no other |
| ConsensusOrder.ByValueInterchangeable | consensus/msg_log.go:22-28 | equality by value is such an equality |
| ConsensusOrder.MatchingCountRepresented | consensus/msg_log.go:22-52 | logs that hold one message of each of the same kinds count the same, whichever representatives they keep |
| ConsensusOrder.SameMessagesSameCommits | consensus/consensus_manager.go:57-118 | nodes that received the same messages, in any order and number, hold the same states and commit the same hashes, if the message set only identifies messages with the same type, hash, counted hash and proposal status |
| BlockSelection.SortSlice | consensus/consensus_handler.go:364-384 | a permutation; if every stake is answered, no entry comes after one with less stake, or with equal stake and an earlier timestamp |
| BlockSelection.SelectBlock | consensus/consensus_handler.go:357-391 | no outcome exactly if nothing is committed; if every stake is answered, the selected block is committed and no committed block has a proposer with more stake, or with equal stake and a later timestamp; otherwise the outcome is that of the head of some sorted listing |
| BlockSelection.CommitAcceptedBlocks | consensus/consensus_handler.go:357-416 | with a selected block, which is greatest by stake and then timestamp if every stake is answered, all entries are pruned and the chain is that after StoreBlock, whose error is returned; without one, or on a failed stake query, entries and chain stay |
| BlockSelection.HeadUnbeaten | consensus/consensus_handler.go:364-386 | the selected entry is committed and no other has more stake, or equal stake and a later timestamp |
| BlockSelection.SelectableIsGreatest | consensus/consensus_handler.go:357-391 | if every stake is answered, whichever way the map was walked: the selected block is committed and every other committed block has less stake behind it, or as much and no later timestamp |
| BlockSelection.FirstIffUnbeaten | consensus/consensus_handler.go:364-386 | exactly the entries that no other beats can be selected |
| BlockSelection.SelectionDeterministicIff | consensus/consensus_handler.go:357-386 | the selection is independent of the map's order if and only if all unbeaten entries carry the same block |
| BlockSelection.PermutedLogsAgree | consensus/consensus_manager.go:81-118 | logs that are permutations of each other give the same states and, if a hash identifies its block, the same blocks |
| BlockSelection.SameMessagesAgree | consensus/consensus_manager.go:57-118 | so do the logs of nodes that received the same messages |
| BlockSelection.AgreeingNodesSelectTheSame | consensus/consensus_handler.go:357-391 | two outcomes of nodes that agree are equal, however each walked and sorted its entries, if every stake is answered and no two committed blocks tie |
| BlockSelection.SameMessagesSameSelection | consensus/consensus_handler.go:357-416 | nodes that received the same messages in any order and number come to the same outcome, and from the same chain to the same chain, under the same conditions |
| ConsensusNetwork.AnnouncedEntered | consensus/consensus_manager.go:81-98 | every announced state is entered by the step that announces it |
| ConsensusNetwork.StepKeeps | consensus/consensus_handler.go:89-264 | every step of the network keeps the invariant that links broadcasts and logs to states entered earlier |
| ConsensusNetwork.InvAlways | consensus/consensus_handler.go:89-264 | the invariant holds throughout every run with faulty senders |
| ConsensusNetwork.EnteredMeansAccepted | consensus/consensus_handler.go:140-200 | a correct node enters a state for a hash only after a step that put a block with it into its log: its own proposal, or a broadcast that its validator passed |
| ConsensusNetwork.CountedWasValidated | consensus/consensus_handler.go:202-264 | every Prepare or Commit in a correct node's log was sent, delivered to it by another node and passed by its validator |
| ConsensusNetwork.BroadcastsReact | consensus/consensus_handler.go:89-164 | in every run what a correct node broadcasts is a proposal it made, a Prepare for a block of another proposer announced to it, or a Commit for a block announced as prepared |
| ConsensusNetwork.PrunedForgets | consensus/consensus_manager.go:100-106 | after pruning every hash is unknown to the node and every message new, and no other node is affected |
| ConsensusNetwork.CorrectSenders | pubsub/pubsub_router.go:86-108 | behind n counted messages with distinct authenticated senders stand n - f other correct nodes that entered the state the message announces |
| ConsensusNetwork.CommittedIsSupported | consensus/consensus_manager.go:81-98 | whenever a correct node holds a hash as committed, at least minApprovals - f other correct nodes entered Prepared for it earlier, each after proposing or validating a block with that hash |
| ConsensusNetwork.PreparedIsSupported | consensus/consensus_manager.go:81-92 | the same for Prepared, with minApprovals - 1 - f nodes that entered PrePrepared |
| ConsensusNetwork.CountedSendersDistinct | consensus/msg_log.go:22-52 | if the message set keeps one message per kind and sender, counted entries have distinct senders in every run |
| ConsensusNetwork.SameSenderFits | consensus/msg_log.go:22-52 | such a set is among those for which the order of arrival does not matter |
| ConsensusProgress.ProgressAlways | consensus/consensus_handler.go:89-264 | in every run without pruning each state a node has reached was answered by its broadcast or is still to be announced, and a proposer logs its own proposal |
| ConsensusProgress.SettledIsCommitted | consensus/consensus_handler.go:89-264 | once no announcement about a correct node's proposal is left and what correct nodes broadcast about it is in the logs of the others, every correct node has committed it, whatever faulty ones sent, if the hash identifies the block, thresholds are at most the number of other correct nodes, and nothing was pruned |
| Token.LookupFound | eth-contracts/contracts/DioneToken.sol:146-182 | the last checkpoint at or before a block, characterised by its neighbours |
| Token.LookupBeforeFirst | eth-contracts/contracts/DioneToken.sol:163-166 | before the first checkpoint there are no votes |
| Token.DioneToken.GetCurrentVotes | eth-contracts/contracts/DioneToken.sol:130-137 | the newest checkpoint's votes, 0 without one |
| Token.DioneToken.GetPriorVotes | eth-contracts/contracts/DioneToken.sol:146-182 | the binary search ends and returns the value of the last checkpoint at or before the block; it refuses exactly the blocks that are not past |
| Token.DioneToken.WriteCheckpoint | eth-contracts/contracts/DioneToken.sol:216-239 | appends, or overwrites within one block, or reverts when block or count leave 32 bits |
| Token.DioneToken.MoveDelegatesInPlace | eth-contracts/contracts/DioneToken.sol:196-214 | debits one delegate and credits the other, or changes nothing |
| Token.DioneToken.MintTo | eth-contracts/contracts/DioneToken.sol:12-15 | mints and moves votes to the receiver's delegate |
| Token.DioneToken.DelegateVotes | eth-contracts/contracts/DioneToken.sol:184-194 | re-delegates the whole balance |
| Token.DioneToken.DelegateVotesBySig | eth-contracts/contracts/DioneToken.sol:82-123 | the same for a recovered signer with the right nonce before expiry |
| Token.DioneToken.TransferTokens | eth-contracts/contracts/DioneToken.sol:8-15 | moves a balance and no votes |
| TokenRuns.RunTracks | eth-contracts/contracts/DioneToken.sol:184-239 | over every chronological run the checkpoints agree with a plain record of all votes ever written |
| TokenRuns.PriorVotesAreHistory | eth-contracts/contracts/DioneToken.sol:146-182 | over every run the search result is the last vote value written at or before the block, 0 if none |
| TokenRuns.PriorVotesNeverChange | eth-contracts/contracts/DioneToken.sol:146-182 | once a block is past, no later call changes the answer for it |
| TokenRuns.CheckpointCountFits | eth-contracts/contracts/DioneToken.sol:216-239 | from block 1 on a checkpoint is refused only if the block number leaves 32 bits; the count never overflows |
| TokenRuns.RunCheckpointCountFits | eth-contracts/contracts/DioneToken.sol:216-239 | the same for the histories of every run |
| TokenRuns.SignedIff | eth-contracts/contracts/DioneToken.sol:82-123 | a signed delegation goes through exactly for a signer other than zero with its current nonce, not after expiry, when the delegation itself does |
| TokenRuns.NonceCounts | eth-contracts/contracts/DioneToken.sol:82-123 | over every run an account's nonce is the number of its signed delegations that went through |
| TokenRuns.NonceUsedOnce | eth-contracts/contracts/DioneToken.sol:82-123 | over every run no nonce of a signer is accepted twice, and none after its expiry |
| TokenDelegation.MoveChanges | eth-contracts/contracts/DioneToken.sol:196-214 | a move changes exactly the votes of its two delegates |
| TokenDelegation.MoveTotal | eth-contracts/contracts/DioneToken.sol:196-214 | the total of all votes changes by exactly what enters from or leaves to the zero address |
| TokenDelegation.StepTotal | eth-contracts/contracts/DioneToken.sol:12-15 | the same for every call of any run, transfers included |
| TokenDelegation.RunKeepsVotes | eth-contracts/contracts/DioneToken.sol:184-214 | over every run of mint, delegate and delegateBySig each delegate's votes are the sum of the balances delegated to it |
| TokenDelegation.DelegateRevertsIff | eth-contracts/contracts/DioneToken.sol:184-214 | when a delegation reverts, exactly |
| TokenDelegation.DelegationNeverReverts | eth-contracts/contracts/DioneToken.sol:184-214 | without transfers no delegation reverts while block numbers fit 32 bits |
| TokenDelegation.TransferBreaksDelegation | eth-contracts/contracts/DioneToken.sol:196-214 | after a transfer a delegation of the received tokens can revert |
| Staking.SlashRoundsConserve | eth-contracts/contracts/DioneStaking.sol:151-156 | the rounds of slashing keep the sum of all stakes |
| Staking.SlashOneIff | eth-contracts/contracts/DioneStaking.sol:151-156 | a round succeeds exactly on a recipient that was eligible before the loop; neither subtraction nor addition can fail |
| Staking.SlashMinerIff | eth-contracts/contracts/DioneStaking.sol:143-157 | slashing completes exactly for the dispute contract, a non-zero miner and 1 to 255 miners other than it as recipients; then each gains amount div n per occurrence, the accused keeps amount mod n, nobody else changes and the sum is kept |
| Staking.DioneStaking.MineReward | eth-contracts/contracts/DioneStaking.sol:60-66 | mints the reward to the miner, for the oracle contract only |
| Staking.DioneStaking.MineAndStakeReward | eth-contracts/contracts/DioneStaking.sol:69-77 | mints the reward to the contract and stakes it |
| Staking.DioneStaking.Stake | eth-contracts/contracts/DioneStaking.sol:80-91 | takes tokens in and raises stake and total |
| Staking.DioneStaking.WithdrawTokens | eth-contracts/contracts/DioneStaking.sol:94-102 | equals the withdrawal on values or changes nothing; `Accounts.WithdrawExactly` says who is paid |
| Staking.DioneStaking.Slash | eth-contracts/contracts/DioneStaking.sol:143-157 | the loop over recipients performs the rounds, or all of it is undone |
| Oracle.DioneOracle.Request | eth-contracts/contracts/DioneOracle.sol:59-76 | stores a request under the next number with a deadline of 300 seconds |
| Oracle.DioneOracle.Cancel | eth-contracts/contracts/DioneOracle.sol:78-83 | removes a pending request, for its sender only |
| Oracle.DioneOracle.Submit | eth-contracts/contracts/DioneOracle.sol:85-92 | removes a pending request in time and rewards the submitter, or changes nothing |
| Dispute.DioneDispute.Begin | eth-contracts/contracts/DioneDispute.sol:41-57 | opens a dispute unless one with a non-zero accused exists |
| Dispute.DioneDispute.CastVote | eth-contracts/contracts/DioneDispute.sol:59-75 | adds or subtracts the voter's stake and lists the voter |
| Dispute.DioneDispute.Finish | eth-contracts/contracts/DioneDispute.sol:77-93 | closes the dispute and slashes if the sum is positive, or changes nothing; `DisputeRuns.DisputeCallsIff` says when, `DisputeRuns.FinishedAfterWindow` what lies before it |
| System.StepKeepsLedger | eth-contracts/contracts/DioneStaking.sol:60-157 | every call of the four contracts keeps the stake ledger and changes the total by deposits, withdrawals and staked rewards only |
| System.LedgerAlways | eth-contracts/contracts/DioneStaking.sol:60-157 | the ledger holds in every reachable state |
| System.StakeLedger | eth-contracts/contracts/DioneStaking.sol:60-157 | in every reachable state the total stake is deposits minus withdrawals plus staked rewards, equals the sum of all stakes, is covered by the contract's token balance and bounds every stake |
| System.SupplyStep | eth-contracts/contracts/DioneToken.sol:12-15 | every call of the four contracts changes the token supply by exactly what it mints, and only the owner of the token gives it away |
| Accounts.TransferExactly | eth-contracts/contracts/DioneToken.sol:8-15 | a transfer goes through exactly between non-zero addresses with enough balance, and then moves the amount and changes no other account |
| Accounts.MintExactly | eth-contracts/contracts/DioneToken.sol:12-15 | minting goes through exactly for the owner, a non-zero receiver and a supply and votes that fit, and then only the receiver's balance grows |
| Accounts.StakeExactly | eth-contracts/contracts/DioneStaking.sol:80-91 | staking goes through exactly from the minimum stake up, within the sender's balance; for every address: the sender's stake and the contract's tokens grow and the sender's tokens fall by the amount, the first stake block is set once, nothing else changes |
| Accounts.WithdrawExactly | eth-contracts/contracts/DioneStaking.sol:94-102 | a withdrawal goes through exactly for a positive amount within the sender's stake that the contract holds; for every address: the sender's stake and the contract's tokens fall and the sender's tokens grow by the amount, nothing else changes |
| Accounts.MineExactly | eth-contracts/contracts/DioneStaking.sol:60-66 | exactly the oracle contract rewards a miner, while the staking contract owns the token; for every address: only the miner's tokens grow, by the reward, and only its reward block is set |
| Accounts.MineAndStakeExactly | eth-contracts/contracts/DioneStaking.sol:69-77 | the same with the reward minted to the contract and added to the miner's stake |
| Accounts.AccountStake | eth-contracts/contracts/DioneStaking.sol:60-157 | over every run each address's stake is what it deposited, plus its staked rewards and shares of slashed miners, less what it withdrew and lost to slashing |
| Accounts.AccountTokens | eth-contracts/contracts/DioneStaking.sol:60-102 | over every run each address's token balance is what was minted, transferred and paid out to it, less what it transferred and staked |
| Ownership.ParameterStep | eth-contracts/contracts/DioneStaking.sol:113-141 | each of reward, minimum stake, oracle, dispute contract and owner changes exactly when the owner asks for a legal value, to that value; the start block never changes |
| Ownership.SetByOwner | eth-contracts/contracts/DioneStaking.sol:113-141 | over every run: where a parameter differs between two moments, its value was asked for in between by who owned the contract then |
| OracleRuns.RequestIdsIncrease | eth-contracts/contracts/DioneOracle.sol:59-76 | later requests get larger numbers, so none is issued twice |
| OracleRuns.PendingIff | eth-contracts/contracts/DioneOracle.sol:50-92 | the pending requests are at all times exactly those issued and neither cancelled nor submitted, stored as issued |
| OracleRuns.EndedAtMostOnce | eth-contracts/contracts/DioneOracle.sol:78-92 | a request ends at most once, never both cancelled and submitted |
| OracleRuns.SubmissionInTime | eth-contracts/contracts/DioneOracle.sol:85-92 | every submission answers an earlier request at most 300 seconds after it was issued |
| OracleRuns.RewardsAreSubmissions | eth-contracts/contracts/DioneStaking.sol:60-77 | while the staking contract owns the token and names the oracle contract, the supply grows by exactly the rewards of the submissions, each at the rate of its time |
| OracleRuns.DeskCallsIff | eth-contracts/contracts/DioneOracle.sol:59-92 | when a request, a cancellation and a submission go through, exactly, with the delay of 300 seconds |
| OracleRuns.CancelledByRequester | eth-contracts/contracts/DioneOracle.sol:78-83 | over every run who cancels a request is who issued it |
| OracleRuns.SubmitterRewarded | eth-contracts/contracts/DioneOracle.sol:85-92 | over every run a submission raises the submitter's stake and the staking contract's tokens by the reward, and those of nobody else |
| DisputeRuns.CourtStep | eth-contracts/contracts/DioneDispute.sol:41-93 | what each call of the system can do to one dispute; everything else leaves it alone |
| DisputeRuns.DisputeCallsIff | eth-contracts/contracts/DioneDispute.sol:41-93 | when a dispute is begun, voted on and finished, exactly: by miners, by miners with at least the contract's threshold other than initiator and accused, by the initiator once the window is over |
| DisputeRuns.WhoActs | eth-contracts/contracts/DioneDispute.sol:41-93 | the same over every run, with the stakes of the moment and the window and threshold of the deployment |
| DisputeRuns.FinishedAfterWindow | eth-contracts/contracts/DioneDispute.sol:77-93 | over every run a dispute is finished by who began it, no sooner than the vote window after that, and every ballot of the run lies between the two calls |
| DisputeRuns.SupplyNeverShrinks | eth-contracts/contracts/DioneToken.sol:12-15 | the token supply never shrinks |
| DisputeRuns.DisputeSafety | eth-contracts/contracts/DioneDispute.sol:41-93 | for a non-zero accused and a supply below 2^255, in every run: the sum is the signed sum of the voters' stakes at vote time, the voted list is the voters in order without initiator and accused (the initiator is added with the verdict), the result is true exactly if the sum is positive, and there is one slash with a true result and none otherwise |
| DisputeRuns.FinishedForever | eth-contracts/contracts/DioneDispute.sol:41-93 | a finished dispute never changes |
| DisputeRuns.ZeroAccusedReopens | eth-contracts/contracts/DioneDispute.sol:41-57 | a finished dispute against the zero address can be begun again |
| DisputeRuns.GuiltyVerdict | eth-contracts/contracts/DioneDispute.sol:82-90 | a verdict leaves the accused the remainder of its stake and gives everyone else one share per ballot cast, the initiator one more |
| Timelock.TimelockContract.constructor | eth-contracts/contracts/Timelock.sol:39-46 | starts with the given delay, nothing queued and the invariant |
| Timelock.TimelockContract.Handle | eth-contracts/contracts/Timelock.sol:51-126 | every entry of the contract, with all nested calls, equals the function on values; a revert restores everything; `Timelock.CallIff` says who may call what and when |
| Timelock.TimelockContract.Execute | eth-contracts/contracts/Timelock.sol:101-126 | clears the flag, runs the nested calls, and undoes all of it when the target fails; `Timelock.ExecuteIff` says when it goes through |
| Timelock.CallIff | eth-contracts/contracts/Timelock.sol:51-99 | when each call goes through, exactly: setDelay from the timelock within 24 hours and 30 days, acceptAdmin from the pending admin, setPendingAdmin from the timelock or the first time from the admin, queueing and cancelling from the admin, queueing with the delay ahead |
| Timelock.ExecuteIff | eth-contracts/contracts/Timelock.sol:101-126 | an execution goes through exactly for the admin, a queued transaction, from its eta to 14 days after it, when the target succeeds |
| Timelock.CallCauses | eth-contracts/contracts/Timelock.sol:51-126 | everything a call records was caused by it or by a call nested in it at some depth |
| Timelock.AdminActed | eth-contracts/contracts/Timelock.sol:81-126 | over every run whatever was queued, cancelled or executed, however deeply nested, was called for by the admin of that moment |
| Timelock.CallKeeps | eth-contracts/contracts/Timelock.sol:51-126 | every call with everything nested in it keeps the invariant |
| Timelock.InvAlways | eth-contracts/contracts/Timelock.sol:39-126 | the invariant holds throughout every run |
| Timelock.ExecutionsWaited | eth-contracts/contracts/Timelock.sol:81-126 | each execution at t, however nested, has an earlier queueing of the same transaction at q with q + 24h <= q + delay at q <= eta <= t <= eta + 14 days and no cancellation or execution of it between |
| Timelock.DelayBounded | eth-contracts/contracts/Timelock.sol:39-58 | the delay stays within 24 hours and 30 days; a transaction is flagged exactly if the last thing that happened to it is its queueing |
| Timelock.LogTellsState | eth-contracts/contracts/Timelock.sol:51-126 | after every run the whole state is what replaying the recorded events gives, and each event agrees with the state it happened in |
| Timelock.ChangesWaited | eth-contracts/contracts/Timelock.sol:51-79 | if the delay differs between two moments of a run, or the pending admin has become somebody else after its first setting, then a transaction on the timelock itself set it in between, queued at least 24 hours before it was executed |
| Timelock.AdminWasPending | eth-contracts/contracts/Timelock.sol:60-66 | whoever has become admin between two moments was the pending admin when they accepted |
| Chain.ChainSound | blockchain/blockchain.go:53-86 | after any StoreBlock calls with any blocks: latest is the greatest stored height and indexed, lookups by hash and height agree, and LastHash leads from every block to one of height 0 in at most as many steps as there are blocks |
| Chain.StoreKeepsConsistent | blockchain/blockchain.go:53-86 | one StoreBlock keeps latest and the two lookups consistent |
| Chain.StoreIff | blockchain/blockchain.go:53-86 | StoreBlock succeeds exactly on a known hash, at height 0, or on a valid block that names the latest one; a known block changes nothing, a new one is found under its hash and height and raises the latest height if it is higher |
| Chain.StoreKeepsRooted | blockchain/blockchain.go:128-139 | one StoreBlock keeps every block linked to a block of height 0 |
| Chain.StoredForever | blockchain/blockchain.go:53-59 | a stored block is never replaced |
| Chain.StoredOnce | blockchain/blockchain.go:53-59 | no hash is stored twice |
| GapFree.StoreKeepsNoGapsIff | blockchain/blockchain.go:53-86 | storing a new block keeps a gap-free chain gap-free if and only if it has the next height |
| GapFree.StoreBlockAloneLeavesGap | blockchain/sync/sync_mgr.go:283-300 | on every gap-free chain a block that leaves a gap passes StoreBlock |
| GapFree.EntryKeeps | blockchain/sync/sync_mgr.go:231-261 | a received block that passes both linking checks, or one created on a stored header, keeps the chain gap-free and rooted in the genesis block |
| GapFree.GenesisAccepted | blockchain/types/block.go:37-46 | an empty database accepts the genesis block and then holds exactly it |
| GapFree.CreatedExtends | blockchain/types/block.go:48-111 | a valid block created on the tip with a new hash becomes the tip at the next height, linked to the old one |
| GapFree.GapFreeAlways | blockchain/types/block.go:37-111 | over every run of such entries the stored heights are exactly 0 to latest, one block each, and every LastHash is the hash one height below |
| KeyEncoding.HexInjective | blockchain/database/lmdb/index.go:93-96 | different bytes have different hexadecimal texts |
| KeyEncoding.DecimalInjective | blockchain/database/memory/database.go:27-32 | different heights have different decimal texts |
| KeyEncoding.LittleEndianRoundTrip | blockchain/database/lmdb/index.go:33-59 | decoding gives back the encoded number |
| KeyEncoding.LmdbKeysDistinct | blockchain/database/lmdb/database.go:78-239 | the four families of LMDB keys are injective and disjoint |
| KeyEncoding.MemoryKeysDistinct | blockchain/database/memory/database.go:27-90 | the three families of keys of the memory database are injective and disjoint |
| Databases.LmdbDatabase.StoreBlock | blockchain/database/lmdb/database.go:78-109 | adds header, data and height entry and disturbs no other entry of the flat key space |
| Databases.LmdbDatabase.HasBlock | blockchain/database/lmdb/database.go:111-130 | true exactly for stored hashes |
| Databases.LmdbDatabase.FetchBlockData | blockchain/database/lmdb/database.go:132-151 | the data of the stored block, or not found |
| Databases.LmdbDatabase.FetchBlockHeader | blockchain/database/lmdb/database.go:153-171 | the header of the stored block, or not found |
| Databases.LmdbDatabase.FetchBlock | blockchain/database/lmdb/database.go:173-188 | header and data come from the same stored block |
| Databases.LmdbDatabase.FetchBlockByHeight | blockchain/database/lmdb/database.go:190-204 | the block whose hash the index has for the height |
| Databases.LmdbDatabase.FetchBlockHeaderByHeight | blockchain/database/lmdb/database.go:206-220 | its header |
| Databases.LmdbDatabase.GetLatestBlockHeight | blockchain/database/lmdb/database.go:222-231 | the height last set, through its eight bytes, or nil |
| Databases.LmdbDatabase.SetLatestBlockHeight | blockchain/database/lmdb/database.go:233-239 | sets it and disturbs no other entry |
| Databases.MemoryDatabase.StoreBlock | blockchain/database/memory/database.go:27-32 | adds the block under hash and height and disturbs no other entry of the flat map |
| Databases.MemoryDatabase.HasBlock | blockchain/database/memory/database.go:34-37 | true exactly for stored hashes |
| Databases.MemoryDatabase.FetchBlock | blockchain/database/memory/database.go:55-61 | the stored block, or not found |
| Databases.MemoryDatabase.FetchBlockData | blockchain/database/memory/database.go:39-45 | its data, or not found |
| Databases.MemoryDatabase.FetchBlockHeader | blockchain/database/memory/database.go:47-53 | its header, or not found |
| Databases.MemoryDatabase.FetchBlockByHeight | blockchain/database/memory/database.go:63-69 | the block last stored at the height |
| Databases.MemoryDatabase.FetchBlockHeaderByHeight | blockchain/database/memory/database.go:71-77 | its header |
| Databases.MemoryDatabase.GetLatestBlockHeight | blockchain/database/memory/database.go:79-85 | the height last set, or nil |
| Databases.MemoryDatabase.SetLatestBlockHeight | blockchain/database/memory/database.go:87-90 | sets it and disturbs no other entry |
| Databases.FreshPutObserved | blockchain/database/lmdb/database.go:78-109 | a block with a new hash is seen the same way in both databases |
| Databases.PutsAgreeIff | blockchain/database/lmdb/database.go:190-204 | writing a block keeps the answers of the two databases equal if and only if no other height is indexed to its hash with a different block |
| Databases.UnguardedPutsDisagree | blockchain/database/memory/database.go:63-69 | without the once-per-hash guard two blocks of one hash at different heights make the databases disagree |
| BlockChain.BlockChain.ValidateBlock | blockchain/blockchain.go:128-139 | the linking check: LastHash is the hash at the latest height |
| BlockChain.BlockChain.StoreBlock | blockchain/blockchain.go:53-86 | over either database the answers change by the same function; an error changes nothing |
| BlockChain.BlockChain.StoreAll | blockchain/blockchain.go:53-86 | after any sequence of StoreBlock calls the answers depend on the calls alone, not on the database |
| BlockChain.Replay | blockchain/blockchain.go:53-110 | an LMDB and a memory database that see the same StoreBlock calls give the same answers |
| Sync.PresentMembers | node/network_service.go:46-63 | the blocks answered are exactly those of the range |
| Sync.PresentAscending | node/network_service.go:53-61 | they come in ascending order of height |
| Sync.MissingMembers | node/network_service.go:53-61 | every other height of the range is reported as failed exactly once |
| Sync.NetworkService.GetRangeOfBlocks | node/network_service.go:46-63 | answers exactly the ranges that are not reversed and span at most 500 heights beyond the first, with the blocks present and the heights missing |
| Sync.RangesPartition | blockchain/sync/sync_mgr.go:135-161 | the ranges asked for follow each other without gap or overlap from our height + 1 to the remote height, 1 to 500 heights each |
| Sync.Retrieve | blockchain/sync/sync_mgr.go:135-161 | the loop ends, no range is refused, and the replies together are the remote blocks above our height in ascending order, with the missing heights; it fails exactly if a call does not get through |
| Sync.SyncManager.Process | blockchain/sync/sync_mgr.go:231-261 | the received block is stored exactly if both linking checks and the other checks pass |
| Sync.FetchAbove | blockchain/sync/sync_mgr.go:129-161 | succeeds exactly if the remote node tells its height and every call for a range gets through, and then gives all it has above our height |
| Sync.SyncManager.DoInitialBlockPoolSync | blockchain/sync/sync_mgr.go:118-174 | without a peer or once completed nothing happens; otherwise it succeeds exactly if the remote node is reachable, and the chain is then that after processing all remote blocks above our height in order, and else unchanged |
| Sync.ProcessKeepsPrefix | blockchain/sync/sync_mgr.go:231-261 | a block of the remote chain leaves a prefix of it a prefix, longer by one exactly if it is the next and passes |
| Sync.SyncedIsPrefix | blockchain/sync/sync_mgr.go:118-174 | a node with a non-empty prefix of a gap-free remote chain ends with a prefix, whichever checks fail, and with exactly the remote chain if none fails |
| Sync.EmptyStaysEmpty | blockchain/sync/sync_mgr.go:123-167 | a node without a genesis block stores nothing |
| DisputeSearch.FirstFromSpec | consensus/dispute_manager.go:190-201 | what is found carries the request and stands in the first transaction of the block that decodes to it; nothing is found exactly if no transaction decodes to a task with it |
| DisputeSearch.FindTaskAndBlockWithRequestID | consensus/dispute_manager.go:178-205 | the loop ends although its uint64 height wraps below 0, given no block at the greatest height, and returns the result of the downward search |
| DisputeSearch.SearchSpec | consensus/dispute_manager.go:184-204 | in every chain the search stops at the first match or at the first missing height from the top |
| DisputeSearch.SearchGapFree | consensus/dispute_manager.go:178-205 | on a gap-free chain it finds the highest block with a match and the first match in it, and nothing exactly if no block has one |

## Left out

- ExpAccuracy.FirstBound: leaves (0.8694, 0.8695) and (1.5542, 1.5544) undecided, each of which holds a point where the error crosses 3.4e-30.
- ExpAccuracy.SecondBound: leaves (4.9838, 4.9839) undecided, which holds the point where the error crosses 4.6e-15.
- Sync.NetworkService.GetRangeOfBlocks: not defined for a range that ends at height 2^64 - 1, where the loop of the code never ends.
- Sync.Retrieve: not defined for a remote node of height 2^64 - 1, which would be asked for such a range.
- Sync.SyncManager.DoInitialBlockPoolSync: the same.
- DisputeSearch.FindTaskAndBlockWithRequestID: requires that no block has height 2^64 - 1, without which the search may go round for ever.
- GapFree.GapFreeAlways: covers runs of fewer than 2^64 entries, so that heights do not wrap.
- OracleRuns.SubmissionInTime: assumes times below 2^255 - 300, where the conversion to int256 keeps the value.
- Databases.MemoryDatabase.StoreBlock: the code keeps a reference to the block; a later change of that block by its owner is not modelled.
- ConsensusNetwork.CommittedIsSupported: takes as hypothesis that counted entries have distinct senders, since the equality of the message set is not visible in the repository; ConsensusNetwork.CountedSendersDistinct derives it for a set that keeps one message per kind and sender.
- ConsensusProgress.SettledIsCommitted: takes delivery as hypothesis (what correct nodes broadcast is in each other's logs and every announcement was handled), since message delivery is outside the model, and holds up to the next pruning.
- Agreement on one block per round: the code lets several blocks commit and then selects one.
- One vote per miner in a dispute: the code does not check it; results count ballots.
- Mempool and the removal of committed transactions from it, mining of transactions into blocks, task submission and Ethereum event handling.
- Network, pubsub delivery, RPC clients, timers, the drand client, configuration, logging and start-up.
- LMDB's files, transactions and size limits, I/O errors, data races and gas.
- Wallet, key store, signatures, VRF and merkle verification.
