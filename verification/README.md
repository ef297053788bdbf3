# Verification of the beatoz node

A Dafny model of the beatoz chain application with machine-checked proofs. The model follows the Go
code branch by branch: 64-bit and 256-bit arithmetic is written out, error paths are kept, and the
objects that the code updates in place are classes whose methods are proved against value-level
specifications.

What is modelled, from the bottom up:

- storage: the revisioned key-value ledger with its cache and overlay (`UndoLog`, `Ledger`,
  `StateLedger`, `LedgerKeys`);
- staking: delegatees, voting powers, freezing, slashing, jailing, refunds, the power limiter and
  the validator set (`Stake`, `StakeInvariants`, `StakeOwners`, `StakeCtrler`, `Refunds`, `Limiter`,
  `StakeEffects`, `Delegations`, `StrandedStake`, `ValidatorSet`);
- money: accounts, rewards, voting weights, minting, signing rates and fees (`Accounts`, `Supply`,
  `VotingWeights`, `WeightBounds`, `Mint`, `SignRates`);
- governance: ballots, the life of a proposal, parameters (`Ballot`, `Governance`);
- the chain: preparing, validating, running and charging transactions, whole blocks, whole runs
  (`Preparer`, `Chain`, `ChainInvariant`, `Validation`, `Conservation`, `Effects`, `Runs`,
  `RefundRuns`, `GovernanceRuns`, `Engine`, `FirstBlock`, `SmallestChain`, `Node`);
- and three components beside it: the event Merkle tree, the double-sign guard of the validator key,
  and the account tracking around the EVM (`Merkle`, `SignGuard`, `EvmTracking`).

`dafny verify dfyconfig.toml` checks the whole project.

## Main results

- Tokens are conserved in every run, and the supply stays within its cap
  (`Runs.ConservationFromGenesis`). Of the modelled steps of a block two can halt the chain, and it
  is known exactly when: a block holds a transaction that cannot be prepared, or it ends an
  inflation cycle and the mint routine has no answer. That is the case in the first block, for a
  negative inflation weight, and when the stakes weigh nothing (`Runs.BlockConserves`,
  `Runs.RunHaltsIff`, `Runs.MintFailsIff`).
- What a mint pays is computed from the committed stakes: who the stakers are, how old their power
  is, and which blocks their validators missed (`VotingWeights`). No weight is negative exactly when
  rounding leaves something for the last staker, and a bound on stake and supply ensures it
  (`WeightBounds`).
- Signing rates stay between 0 and 1 in every run, because the counters of missed blocks stay within
  the cycle; so absence lowers rewards and never makes them wrap (`Runs.RatesStayShares`).
- A validated transaction cannot fail (`Validation.ValidationSuffices`). Conservation needs this: a
  transaction that fails while running is charged, but its fee is not recorded. What it does to
  every single account is stated in `Effects.DeliverEffect`, and what staking does to every chunk in
  `StakeEffects`.
- The redundant stake books agree in every reachable state, so no inner lookup fails
  (`StakeInvariants`), and frozen stake is refunded exactly once, on time
  (`RefundRuns.StakeIsRefundedOnce`), from the unstaking transaction to the credit
  (`RefundRuns.UnstakedStakeIsRefunded`).
- Reverting a ledger to a snapshot restores it exactly under a stated condition
  (`Ledger.RevertRestoresTree`, `Ledger.RevertRestoresOverlay`).
- Proposals are decided once and applied once (`Governance.ProposalLifecycle`); tallies match the
  voters through votes and slashes (`Ballot.EveryRunTallies`). Both hold on runs of the whole chain
  (`GovernanceRuns`).
- The consensus engine, which sees only validator updates, keeps the application's validator set
  in every run in which no chosen validator has power 0 (`Engine.EngineFollows`, condition
  `NeverZero`).
- Validators never sign two values at one height, round and step (`SignGuard.NeverDoubleSigns`).

## Where the code does less than its comments say

Each of these has a lemma with a concrete input and the exact condition.

- A revert keeps a key that was created with an empty encoding; the overlay ledger also keeps a
  deletion of a key that only the tree held (`Ledger.RevertRestoresTree`,
  `Ledger.RevertRestoresOverlay`).
- EndBlock compares the number of delivered transactions with the number that were prepared and
  panics when they differ, although the code after it handles transactions that were not
  (`Runs.BlockConserves`).
- A comment in the mint routine says that the minted sum should equal the issuance. It does exactly
  when the three losses of `Mint.IssueAccountedFor` are zero. The single payments depend on the
  order of the validators, which differs between a running and a restarted node
  (`Mint.SwapKeepsTotalIff`).
- A signing rate is negative once governance has made the cycle shorter than the number of blocks
  missed in it (`SignRates.SignRateIsShareIff`), and the payment then wraps to about 2^256
  (`Mint.NegativeRateWraps`, exact condition `Mint.AmountsExactIff`).
- The weight of the last beneficiary is what the rounded weights of the others leave; it can be
  negative, with the same effect (`WeightBounds.FiveStakers`, `Mint.LastWeightWraps`, exact condition
  `WeightBounds.CycleWeightsIff`).
- With an inflation cycle of one block the first block halts the chain, and so does a cycle at whose
  end the stakers' weights round to zero (`SmallestChain.ShortestCycleHalts`,
  `SmallestChain.RoundedAwayHalts`, exact conditions `Runs.MintFailsIff`,
  `WeightBounds.RoundedAwayIff`).
- Percentages of voting power are computed from int64 products, which wrap from 2^63 on
  (`Base.PercentExactIff`).
- A genesis holder listed again loses the balance listed first (`Runs.HoldersSumIff`).
- A supply cap lowered below the supply makes the issuance wrap around.
- Two options of one proposal can both reach the majority when the total power is 0, 1, 2 or 4, and
  with a total of at most one an option without votes wins.
- A slash rate above 100 percent breaks the total of a ballot.
- A genesis validator without an account that is jailed makes the chain halt when its stake falls due
  (`StrandedStake`).
- The fee and the amount are added modulo 2^256 in validation.

## Assumptions

- `GoodParams` (in `ChainInvariant`): percentages in [0, 100], a non-negative unbonding period, a
  positive inflation cycle, a gas price below 2^191, and a cap of which a hundredfold is below 2^63
  coins. Theorems about runs assume this of the genesis parameters and of every parameter set that
  governance adopts, that an adopted cap is not below the supply, and that an adopted cycle is not
  shorter than the counters of missed blocks allow: no counter is greater than the number of blocks
  since the cycle's start plus one (`Runs.Adopts`, `SignRates.CountersOk`).
- The votes of a block name no validator twice, and there are some at the end of a cycle, except in
  the first block (`SignRates.VotesOk`).
- Where the mint routine has an answer, no weight that it computed is negative (`Runs.WeightsOk`).
- Genesis validators are distinct and hold accounts, and no genesis balance is overwritten.
- Every block has a proposer. Transaction hashes are not reused for proposals (`NeverProposed`).
- The JSON decoder of parameter proposals, the address of a public key, the hash function of the
  Merkle tree and the signing key are parameters of the model. So are the rounding of fixed-point
  products and quotients, which is monotone and exact on 0 and 1, and the factor of the issuance,
  which is at most 1 and has the sign of the inflation weight (`Runs.EnvOk`). A fixed-point quotient
  by zero is not a number, and becomes zero when it is converted to a decimal.

## Model

| member | source | states |
|---|---|---|
| `Runs.ConservationFromGenesis` | node/app.go:749-776 | from every good genesis and over every run that gets to its end: balances + 10^18·(bonded + frozen power) + cumulated rewards equal the recorded supply, which never falls below the genesis supply nor exceeds the cap. Weights, signing rates and payments of every mint are computed from the committed stakes; assumed are the parameters and the cycle that governance adopts, and that no weight is negative, whose exact condition is `WeightBounds.CycleWeightsIff` |
| `Runs.TokensAreConserved` | node/app.go:572-690 | the same from any state that satisfies the invariant; after every run no fee is owed and no frozen stake is overdue |
| `Runs.BlockConserves` | node/app.go:420-747 | a block halts the chain if and only if it holds a transaction that cannot be prepared against the state after BeginBlock, or ends a cycle and the mint routine fails; which of the two panics it is; otherwise the books balance, the supply has not fallen and is within the cap, and the invariant holds for the next height unless governance has adopted something bad |
| `Runs.RunHaltsIff` | node/app.go:583-646 | a run halts if and only if after some of its blocks the next one holds a transaction that cannot be prepared, or ends a cycle and the mint routine fails |
| `Runs.FirstCycleHalts` | ctrlers/vpower/ctrler_weight.go:30-33 | with a cycle of one block the first block halts the chain, whatever its inputs, also without votes |
| `Runs.WeightlessCycleHalts` | ctrlers/supply/ctrler_mint.go:132-140 | a cycle at whose end there are stakers but their total weight is zero halts the chain |
| `Runs.NegativeInflationHalts` | ctrlers/supply/ctrler_mint.go:110-115 | a negative inflation weight halts the chain at the end of a cycle, below the cap and with a positive total weight |
| `Runs.LookupsSucceed` | ctrlers/vpower/ctrler_weight.go:28-73 | after the first block every lookup of the weight computation finds its entry, because the validators are delegatees of the committed ledger and its books agree |
| `Runs.MintFailsIff` | ctrlers/supply/ctrler_mint.go:85-140 | in every state of a run: the mint routine fails if and only if a cycle ends and it is the first block, the issuance factor is negative below the cap, the stakers weigh nothing together, or the validators among them do |
| `Runs.FactorNonNegative` | ctrlers/supply/ctrler_mint.go:196-206 | with the inflation weight not negative and the ripening share a permil the factor is not negative |
| `Runs.RatesStayShares` | ctrlers/vpower/ctrler_weight.go:38-48 | over every run no counter of missed blocks passes the length of the cycle, and at the end of every cycle all signing rates are between 0 and 1 |
| `Runs.UnknownSenderHalts` | node/app.go:493-512 | a block with one transaction from an address without an account halts the chain |
| `Chain.AllCountedIff` | node/app.go:585-590 | the number of transactions that DeliverTx counted equals the number of slots if and only if every transaction was prepared |
| `Runs.FinishIsSafe` | ctrlers/vpower/ctrler_block.go:112-149 | refunds, new validators and Commit keep the books; every owner is credited exactly what fell due |
| `Runs.BeforeRefunds` | node/app.go:619-646 | unless the mint routine fails, proposals, fees and minting at the end of a block leave the core invariant, no fee owed, and the stakes untouched |
| `Runs.Executed` | node/app.go:579-617 | after BeginBlock and all transactions the invariant holds, parameters, supply and validators are unchanged, no account is lost and no frozen chunk either, and the counters of missed blocks stay within the cycle |
| `Runs.GenesisIsSafe` | node/app.go:207-240 | InitChain on a good genesis document establishes the invariant with the books balanced |
| `Runs.HoldersSumIff` | ctrlers/account/ctrler.go:51-60 | the balances recorded at genesis never exceed the balances listed, and equal them if and only if no listed balance is overwritten by a later entry |
| `Runs.DuplicateHolderBreaksTheSum` | ctrlers/account/ctrler.go:51-60 | a holder listed twice with a balance makes them differ |
| `Runs.CheckRequestInitChain` | node/app.go:749-776 | for every document: the accumulating loops accept exactly when the sum, taken in int64 and uint256, is within the cap, and return it |
| `Runs.CheckedIsInitialSupply` | node/app.go:749-776 | that sum is the initial supply when power fits 64 and the supply 256 bits |
| `Conservation.BeginBlock` | node/app.go:420-483 | BeginBlock of all controllers cannot fail and keeps the invariant, the supply and the parameters |
| `Conservation.SlashOneIsSafe` | ctrlers/vpower/ctrler_block.go:24-49 | slashing cannot halt the chain, and slashed stake reappears as balance of the dead address |
| `Conservation.SlashEachIsSafe` | ctrlers/vpower/ctrler_block.go:21-49 | the same for any list of misbehaving validators, known or not |
| `Conservation.CountBlockVotesIsSafe` | ctrlers/vpower/ctrler_block.go:51-109 | jailing for missed blocks cannot fail and only moves stake to the frozen books |
| `Conservation.DeliverIsSafe` | node/app.go:519-570 | any transaction, valid or not, keeps the invariant, the supply and the parameters |
| `Conservation.DeliverAll` | node/app.go:592-616 | any sequence of transactions keeps the invariant |
| `Conservation.SplitFeesIsSafe` | ctrlers/account/ctrler_block.go:15-49 | the fee split cannot fail and pays out exactly the fees of the block |
| `Conservation.MintWithinCap` | ctrlers/supply/ctrler_mint.go:100-165 | whenever the mint routine answers, with weights that add up, none of them negative, and rates in [0,1], the ledger gets the payments unwrapped and they fit between supply and cap |
| `Conservation.NegativeDueBreaksCap` | ctrlers/supply/ctrler_mint.go:142-156 | and if some payment is due as minus one unit or less, they go beyond the cap |
| `Conservation.MintIsSafe` | ctrlers/supply/ctrler_mint.go:50-68 | minting then adds the same amount to cumulated rewards and to the recorded supply |
| `Conservation.ChosenAreElectorate` | ctrlers/vpower/ctrler.go:389-404 | the selected validators have distinct addresses and no negative power, in either order |
| `Conservation.SettleStakesIsSafe` | ctrlers/vpower/ctrler_block.go:112-149 | EndBlock of the stake controller never fails on the invariant and leaves every frozen entry due later than this block |
| `ChainInvariant.Bounds` | types/unit.go:41-62 | under the invariant every part of the wealth is non-negative, a hundred times all power fits int64, and all amounts fit 255 bits |
| `ChainInvariant.SelfRateExact` | ctrlers/vpower/ctrler.go:176-180 | under the invariant the int64 percentage of a delegatee's own power is exact |
| `Base.PercentExactIff` | ctrlers/vpower/ctrler_punish.go:24-36 | a percentage whose product is taken in int64 is right if and only if the product is below 2^63 |
| `Base.PercentWraps` | ctrlers/vpower/ctrler_punish.go:26-26 | ten percent of a power of 2^60 becomes negative |
| `Delegations.DelegateesWithinBonded` | ctrlers/vpower/ctrler.go:389-404 | any distinct delegatees have together no more than all the bonded power |
| `Delegations.OneWithinBonded` | ctrlers/vpower/delegatee.go:60-104 | a delegatee's own power is part of its power, and that part of all the bonded power |
| `ChainInvariant.FeeExact` | node/trx_executor.go:56-56 | gas price below 2^191 and 63-bit gas: the fee product does not wrap |
| `RefundRuns.StakeIsRefundedOnce` | ctrlers/vpower/ctrler_vpower.go:111-179 | in every run frozen stake waits, is credited to its owner in the block at exactly its refund height with the power of all its chunks, and is gone at the end |
| `RefundRuns.ReleasedStakeIsRefunded` | ctrlers/vpower/ctrler_block.go:57-124 | the same for stake frozen at any moment inside a block, by jailing or by a transaction, in the same block if the unbonding period is 0 |
| `RefundRuns.UnstakedStakeIsRefunded` | ctrlers/vpower/ctrler.go:312-363 | from end to end: the chunk that an unstaking transaction takes out in block h is paid to its sender exactly once, in block h plus the unbonding period |
| `RefundRuns.StakeWaits` | ctrlers/vpower/ctrler_vpower.go:149-179 | before its refund height a frozen entry survives every block and can only gain chunks |
| `RefundRuns.BlockRefunds` | ctrlers/vpower/ctrler_block.go:112-124 | one block either keeps a frozen entry or, at its refund height, pays it and removes it |
| `Refunds.UnfreezePaysOwners` | ctrlers/vpower/ctrler_vpower.go:153-179 | with an account for every owner all stake due is paid in full, everybody else's account and every other entry stay as they were |
| `Refunds.RefundFailsIff` | ctrlers/vpower/ctrler_vpower.go:161-178 | refunding halts the chain if and only if an owner of due stake has no account |
| `StrandedStake.EndBlockFailsIff` | ctrlers/vpower/ctrler_block.go:112-124 | EndBlock halts the chain if and only if an owner of stake that falls due has no account |
| `StrandedStake.MissedBlock` | ctrlers/vpower/ctrler_block.go:51-105 | the votes of a block for one validator, whatever the others do: missing, it is jailed once it has missed as many as are allowed, and its stake is then due at the refund height; before that only its counter moves; the end of a cycle clears the counter |
| `StrandedStake.AbsenceHalts` | ctrlers/vpower/ctrler_block.go:51-124 | on blocks with votes and mints: a validator without an account that misses as many blocks within a cycle as are allowed halts the chain at the latest in the block at the refund height of its stake, whatever is voted meanwhile |
| `StrandedStake.UnaccountedValidatorHalts` | ctrlers/vpower/ctrler.go:66-95 | from genesis, with a first block without votes: a validator without an account that is absent from any later block on halts the chain this way |
| `StrandedStake.SomeStartWorks` | ctrlers/vpower/ctrler_block.go:64-66 | such an absence exists for all parameters, from the second block or from the second cycle on |
| `StrandedStake.EmptyBlockIsBlock` | ctrlers/vpower/ctrler_block.go:51-149 | the blocks of these results are what the controllers do, step by step and in any state, with a block that carries only votes, on a chain without proposals |
| `StrandedStake.StepsAreRunBlock` | node/app.go:420-747 | and those steps are the block of the run theorems wherever their hypotheses hold |
| `Refunds.RefundLeavesLater` | ctrlers/vpower/ctrler_vpower.go:155-159 | after EndBlock(h) nothing due at or before h is left and later entries are untouched |
| `Refunds.RefundKeepsBooks` | ctrlers/vpower/ctrler_vpower.go:153-179 | refunding keeps the stake books consistent and the bonded power unchanged |
| `Refunds.RefundAmountExact` | types/unit.go:51-54 | the 64- and 256-bit conversion of a power in range is exact |
| `Validation.ValidationSuffices` | node/trx_executor.go:26-184 | a prepared and validated transaction of any kind outside the EVM runs without error, its gas fits, its fee is taken in full and recorded, whichever of payer, sender and receiver coincide |
| `Validation.TransferRuns` | ctrlers/account/ctrler.go:182-191 | a validated transfer succeeds and leaves the payer able to pay the fee |
| `Validation.SetDocRuns` | ctrlers/account/ctrler.go:227-230 | a validated document change succeeds; the receiver's account is opened with nothing in it |
| `Validation.StakingRuns` | ctrlers/vpower/ctrler.go:269-310 | a validated bonding finds everything it looks up and turns exactly its amount into bonded power |
| `Validation.UnstakingRuns` | ctrlers/vpower/ctrler.go:312-363 | a validated unbonding never fails inside, although validation looks at the first chunk with the hash and execution removes the last |
| `Validation.WithdrawRuns` | ctrlers/supply/ctrler_reward.go:58-74 | a validated withdrawal moves exactly its amount from the reward to the account |
| `Validation.GovRuns` | ctrlers/gov/ctrler.go:197-244 | a validated proposal or vote is executed without error |
| `Validation.FoundIsUnbondable` | ctrlers/vpower/vpower.go:53-88 | the first-match and the last-match search for a chunk find something for the same hashes |
| `Validation.CountingKeepsLimiter` | ctrlers/vpower/ctrler.go:194-239 | counting a validated change keeps the limiter's bound and nothing else changes |
| `Validation.ChargeIsSafe` | node/trx_executor.go:158-184 | the fee can be taken, and taking and recording it preserves the wealth; the nonce advances by one |
| `Validation.CoversIffNoWrap` | node/trx_executor.go:65-68 | for a sender who pays, the validated balance covers amount and fee if and only if their sum does not wrap |
| `Validation.WrappedFeePassesValidation` | node/trx_executor.go:56-68 | with an extreme gas price a transfer of 3 from a balance of 1 is validated and then fails |
| `Node.BeatozApp.CommonValidation` | node/trx_executor.go:37-76 | the checks of gas pool, balances and nonce, statement by statement |
| `Node.BeatozApp.ValidateStaking` | ctrlers/vpower/ctrler.go:127-205 | the bonding checks accept exactly the specified transactions and count them in the limiter only then |
| `Node.BeatozApp.ValidateUnstaking` | ctrlers/vpower/ctrler.go:207-246 | the same for unbonding |
| `Node.BeatozApp.ValidateTrx` | node/trx_executor.go:78-111 | dispatch of validation by type; a rejected transaction changes nothing |
| `Node.BeatozApp.RunStaking` | ctrlers/vpower/ctrler.go:269-310 | bond first, pay afterwards: the state of the value-level step |
| `Node.BeatozApp.RunSetDoc` | ctrlers/account/ctrler.go:89-98 | sender's document set, then both accounts written |
| `Node.BeatozApp.RunTrx` | node/trx_executor.go:113-156 | dispatch of execution by type on the controller objects reaches the state of the value-level step |
| `Node.BeatozApp.PostRun` | node/trx_executor.go:158-184 | gas, fee and nonce on account objects, with payer and sender possibly one object; a failing debit uses the gas and changes nothing else |
| `Node.BeatozApp.DeliverTx` | node/app.go:519-570 | one transaction on the node object is the value-level step, fee recorded on success |
| `Node.BeatozApp.ExecuteTxs` | node/app.go:579-617 | panics, with nothing executed, if and only if some transaction was not prepared; otherwise performs the transactions in order |
| `Node.CountPrepared` | node/app.go:493-512 | the counter that DeliverTx advances |
| `Node.BeatozApp.SlashValidator` | ctrlers/vpower/ctrler_block.go:24-36 | slash one validator and credit the dead address |
| `Node.BeatozApp.PunishByzantine` | ctrlers/vpower/ctrler_block.go:21-49 | the loop over the evidence slashes each in turn and cannot fail |
| `Node.BeatozApp.DistributeFees` | ctrlers/account/ctrler_block.go:15-49 | the fee split on the objects |
| `Accounts.TransferMoves` | ctrlers/account/ctrler.go:182-191 | a transfer succeeds iff the sender holds a non-negative amount; it conserves the sum, touches only the two accounts, and to oneself changes nothing |
| `Accounts.CreditAdds` | ctrlers/types/account.go:128-138 | a credit adds exactly its amount as long as all the money fits |
| `Accounts.DebitTakes` | ctrlers/types/account.go:140-153 | a covered debit takes exactly its amount |
| `Accounts.Account.Add` | ctrlers/types/account.go:128-138 | wrapping addition, refused for amounts with the top bit set |
| `Accounts.Account.Sub` | ctrlers/types/account.go:140-153 | refused for such amounts and for amounts beyond the balance, leaving the object unchanged |
| `Accounts.Account.AddNonce` | ctrlers/types/account.go:96-101 | the nonce advances by one, nothing else changes |
| `Accounts.Account.SetDoc` | ctrlers/account/ctrler.go:227-230 | name and document link replaced, nothing else |
| `Accounts.MoveBetween` | ctrlers/account/ctrler.go:182-191 | transfer on two account objects that may be one |
| `Accounts.AcctCtrler.constructor` | ctrlers/account/ctrler.go:42-62 | the genesis holders |
| `Accounts.AcctCtrler.FindOrNewAccount` | ctrlers/account/ctrler.go:117-139 | an unknown address yields an untouched account that is not in the ledger yet |
| `Accounts.AcctCtrler.TransferBetween` | ctrlers/account/ctrler.go:80-101 | transfer and the two writes reach the specified ledger or leave it alone |
| `Accounts.AcctCtrler.RewardAccount` | ctrlers/account/ctrler.go:233-250 | credit to an existing account only |
| `Accounts.AcctCtrler.AddToBalance` | ctrlers/account/ctrler.go:251-267 | credit that opens the account if need be |
| `StakeInvariants.BondKeepsBooks` | ctrlers/vpower/ctrler.go:269-301 | bonding succeeds iff the delegatee exists or is the sender, adds exactly the power, and keeps all redundant books consistent |
| `StakeInvariants.GenesisIsConsistent` | ctrlers/vpower/ctrler.go:76-92 | the genesis ledger is consistent and holds exactly the genesis power |
| `StakeInvariants.UnbondKeepsBooks` | ctrlers/vpower/ctrler.go:312-363 | unbonding succeeds iff the named chunk exists: no inner lookup fails, and power only moves to the frozen books |
| `StakeInvariants.EvictKeepsBooks` | ctrlers/vpower/ctrler.go:342-360 | dropping a delegatee releases every delegator's stake, removes all its links and loses no power |
| `StakeInvariants.ReleaseAllPaysOwners` | ctrlers/vpower/ctrler.go:343-356 | each delegator's chunks end up, in full, in its own frozen entry |
| `StakeInvariants.SlashKeepsBooks` | ctrlers/vpower/ctrler_punish.go:10-46 | slashing succeeds iff the delegatee exists and removes exactly the power it reports |
| `StakeInvariants.CountVoteKeepsBooks` | ctrlers/vpower/ctrler_block.go:57-101 | counting one vote, and jailing, never fails and loses no power |
| `StakeInvariants.CountVotesKeepsBooks` | ctrlers/vpower/ctrler_block.go:56-102 | the same for all votes of a commit |
| `StakeOwners.BondKeepsRecords` | ctrlers/vpower/ctrler.go:269-301 | bonded and frozen stake only ever belongs to account holders, and delegatees stay filed under the address of their key: bonding |
| `StakeOwners.UnbondKeepsRecords` | ctrlers/vpower/ctrler.go:312-363 | the same for unbonding |
| `StakeOwners.CountVotesKeepsRecords` | ctrlers/vpower/ctrler_block.go:56-102 | the same for jailing |
| `StakeOwners.SlashAllKeepsRecords` | ctrlers/vpower/ctrler_punish.go:10-46 | the same for slashing |
| `StakeCtrler.FindLast` | ctrlers/vpower/vpower.go:77-88 | the backward search finds the last chunk with the hash |
| `StakeCtrler.DropDelegator` | ctrlers/vpower/delegatee.go:96-104 | the backward search removes the last listing of a delegator |
| `StakeCtrler.SlashVPowerInPlace` | ctrlers/vpower/ctrler_punish.go:24-36 | the inner slashing loop |
| `StakeCtrler.VPowerCtrler.InitLedger` | ctrlers/vpower/ctrler.go:66-95 | genesis bonding, validator by validator |
| `StakeCtrler.VPowerCtrler.BondPowerChunk` | ctrlers/vpower/ctrler_vpower.go:63-83 | chunk appended, sums and delegator list updated |
| `StakeCtrler.VPowerCtrler.ExecBonding` | ctrlers/vpower/ctrler.go:269-301 | bonding on the controller object |
| `StakeCtrler.VPowerCtrler.UnbondPowerChunk` | ctrlers/vpower/ctrler_vpower.go:85-109 | chunk removed, emptied voting power and delegator dropped |
| `StakeCtrler.VPowerCtrler.FreezePowerChunkList` | ctrlers/vpower/ctrler_vpower.go:129-147 | chunks and their sum added to the owner's frozen entry |
| `StakeCtrler.VPowerCtrler.EvictDelegatee` | ctrlers/vpower/ctrler.go:342-360 | the release loop and the removal of the delegatee |
| `StakeCtrler.VPowerCtrler.ExeUnbonding` | ctrlers/vpower/ctrler.go:312-363 | unbonding on the controller object |
| `StakeCtrler.VPowerCtrler.DoSlash` | ctrlers/vpower/ctrler_punish.go:10-46 | the nested slashing loops reach the specified books and report the slashed power |
| `StakeCtrler.VPowerCtrler.PunishMissing` | ctrlers/vpower/ctrler_block.go:56-102 | the loop over the last commit's votes |
| `StakeCtrler.VPowerCtrler.UnfreezePowerChunk` | ctrlers/vpower/ctrler_vpower.go:153-179 | the refund scan: pay in key order, then delete |
| `Limiter.AcceptedIffWithinRate` | ctrlers/vpower/limiter.go:58-79 | no division by zero; accepted iff old power remains and 100·added <= rate·new total, the int64 product and the int32 conversion included |
| `Limiter.RemainRateExact` | ctrlers/vpower/limiter.go:71-71 | the percentage of old power is exact as long as a hundred times the old power fits int64 |
| `Limiter.EveryRunIsBounded` | ctrlers/vpower/limiter.go:31-79 | over any sequence of requests since a reset the bounds and the rate hold and some old power remains |
| `Limiter.VPowerLimiter.Reset` | ctrlers/vpower/limiter.go:31-37 | counters restart from the given total |
| `Limiter.VPowerLimiter.CheckLimit` | ctrlers/vpower/limiter.go:39-56 | the answer, the new counters, and no change on rejection |
| `Limiter.VPowerLimiter.CheckTotalPower` | ctrlers/vpower/limiter.go:58-79 | the comparison itself |
| `ValidatorSet.PowerLessOrdersKeys` | ctrlers/vpower/delegatee.go:157-169 | the ordering is a strict order that compares any two delegatees with different keys |
| `ValidatorSet.SelectionIgnoresOrder` | ctrlers/vpower/ctrler_valset.go:22-27 | any permutation of the delegatees gives the same selection |
| `ValidatorSet.SelectedOutrankTheRest` | ctrlers/vpower/ctrler_valset.go:22-27 | every selected delegatee outranks every unselected one |
| `ValidatorSet.RestartRebuildsTheSet` | ctrlers/vpower/ctrler.go:97-114 | reloading rebuilds the same set; the same order if and only if power order is key order |
| `ValidatorSet.DiffIsMinimal` | ctrlers/vpower/ctrler_valset.go:31-69 | a key is reported iff its membership or power changed, with its new power |
| `ValidatorSet.DiffIsIncreasing` | ctrlers/vpower/ctrler_valset.go:31-69 | no key is reported twice |
| `ValidatorSet.DiffIsExact` | ctrlers/vpower/ctrler_valset.go:31-69 | applying the updates gives exactly the new set if and only if no validator enters with power 0 |
| `ValidatorSet.SortInPlace` | ctrlers/vpower/delegatee.go:150-191 | in-place insertion sort: a permutation, sorted for any strict order that tells the elements apart, and the outcome of the sorting function |
| `ValidatorSet.InsertInPlace` | ctrlers/vpower/delegatee.go:150-191 | one element moved to its place by swaps; the elements before it stay |
| `ValidatorSet.SelectValidators` | ctrlers/vpower/ctrler_valset.go:22-27 | the selection on an array |
| `ValidatorSet.ValidatorUpdates` | ctrlers/vpower/ctrler_valset.go:31-69 | sort both sets by key and merge: the specified difference |
| `ValidatorSet.MergeUpdates` | ctrlers/vpower/ctrler_valset.go:37-67 | the two-index merge loop |
| `VotingWeights.ComputeWeight` | ctrlers/vpower/ctrler_weight.go:22-112 | the whole computation: no result if and only if some staker has no entry; otherwise the weights of the stakers of each validator in turn, by address, from their scaled power, their validator's signing rate and the supply |
| `VotingWeights.Collect` | ctrlers/vpower/ctrler_weight.go:50-71 | the chunks of one validator's stakers, by staker and all together, or nothing if a lookup fails |
| `VotingWeights.Rank` | ctrlers/vpower/ctrler_weight.go:88-97 | one validator's stakers in the order of their addresses |
| `VotingWeights.ScaledPowerChunks` | ctrlers/vpower/weight_fxnum.go:30-51 | ripe chunks count in full, younger ones by their age, rounded in every step |
| `VotingWeights.ScaledNonNegative` | ctrlers/vpower/weight_fxnum.go:30-51 | scaled power is not negative when the ripening share is a permil |
| `Mint.ComputeWeight` | ctrlers/vpower/ctrler_weight.go:77-111 | the loop over the beneficiaries: all but the last get their rounded share, the last takes the rest |
| `Mint.WeightsMakeTotals` | ctrlers/vpower/ctrler_weight.go:77-111 | so the weights add up to the whole exactly, however products and quotients are rounded |
| `WeightBounds.ScaledPowersAddUp` | ctrlers/vpower/ctrler_weight.go:50-107 | the scaled powers of the stakers, by validator and address, add up to the scaled power of all chunks |
| `WeightBounds.CycleWeightsIff` | ctrlers/vpower/ctrler_weight.go:98-107 | no weight of a cycle is negative if and only if the rounded weights of all but the last staker add up to at most the total |
| `WeightBounds.BigEnoughStakes` | ctrlers/vpower/ctrler_weight.go:98-107 | none is if the last of n stakers has at least 2n − 1 times the rounding error of the supply |
| `WeightBounds.BigEnoughForSeven` | ctrlers/vpower/ctrler_weight.go:98-107 | with seven digits: if (2n − 1) times the supply is at most 20 000 000 times its scaled power |
| `WeightBounds.FiveStakers` | ctrlers/vpower/ctrler_weight.go:98-107 | five stakers of whom the last weighs −0.0000001 |
| `WeightBounds.RoundedAwayIff` | ctrlers/vpower/ctrler_weight.go:82-86 | with seven digits the total weight is zero if and only if 20 000 000 times the scaled power of all stakers is below the supply |
| `WeightBounds.Round7IsNear` | libs/fxnum/fxnum_fixed.go:28-30 | seven digits miss by at most half of the last one |
| `Mint.RewardsWithinIssue` | ctrlers/supply/ctrler_mint.go:117-158 | rewards never exceed the issuance and, for an issuance below 2^256, reach the ledger unwrapped; if everybody signed and validators weigh something, they fall short by less than 1 + 2n·10^-16 |
| `Mint.IssueAccountedFor` | ctrlers/supply/ctrler_mint.go:117-160 | issuance − minted sum = what the divisions cut off + what absent signers forgo + the last fraction, each non-negative; the sum equals the issuance if and only if that is a whole number, nothing is cut off, validators weigh something or get no part of their own, and nobody who missed a block had anything to get |
| `Mint.SharesAccountedFor` | ctrlers/supply/ctrler_mint.go:128-157 | for any signing rates every unit of the shares is paid, forgone or left over |
| `Mint.PayoutWithinShares` | ctrlers/supply/ctrler_mint.go:128-157 | with carried remainders and signing rates in [0,1] the payments stay within the shares |
| `Mint.PayoutIsNonNegative` | ctrlers/supply/ctrler_mint.go:143-152 | no payment is negative |
| `Mint.FullPayoutIsFloor` | ctrlers/supply/ctrler_mint.go:128-157 | if everybody signed, the total is the sum of the shares rounded down once |
| `Mint.FullTotalIgnoresOrder` | ctrlers/supply/ctrler_mint.go:131-157 | ... and therefore independent of the order of beneficiaries |
| `Mint.OrderMatters` | ctrlers/supply/ctrler_mint.go:142-156 | concrete shares: who gets a carried unit depends on the order, and with absent signers so does the total |
| `Mint.SwapKeepsTotalIff` | ctrlers/supply/ctrler_mint.go:142-156 | swapping two neighbours leaves the total of every continuation unchanged if and only if the carried fractions, weighed with the signing rates, balance |
| `Mint.AmountsExactIff` | ctrlers/supply/ctrler_mint.go:142-156 | the 256-bit amounts are the payments computed if and only if each of those is at least 0 and below 2^256 |
| `Mint.FairAmountsAreExact` | ctrlers/supply/ctrler_mint.go:142-156 | so they are for non-negative shares below 2^256 and rates in [0,1] |
| `Mint.NegativeDueWraps` | ctrlers/supply/ctrler_mint.go:149-152 | a payment of minus one unit or less becomes one above 2^255 |
| `Mint.NegativeRateWraps` | ctrlers/supply/ctrler_mint.go:145-152 | eleven blocks missed in a cycle that has become ten blocks long: the rate is −0.1, and a share of ten units is paid 2^256 − 1 |
| `Mint.LastWeightWraps` | ctrlers/vpower/ctrler_weight.go:99-107 | for those five stakers the payment of the last wraps |
| `Mint.Round7Rounds` | libs/fxnum/fxnum_fixed.go:28-30 | rounding to the nearest of seven digits is a rounding in the sense of the run theorems |
| `SignRates.SignRateIsShareIff` | ctrlers/vpower/ctrler_weight.go:38-48 | a signing rate is between 0 and 1 if and only if no more blocks were missed than the cycle has |
| `SignRates.RatesAreSharesIff` | ctrlers/vpower/ctrler_weight.go:35-66 | in any state the rates of a cycle are between 0 and 1 if and only if no validator with stakers missed more blocks than the cycle in force has |
| `SignRates.RatesAreShares` | ctrlers/vpower/ctrler_weight.go:35-66 | at the end of a cycle the counter invariant makes every rate a share |
| `SignRates.BlockKeepsCounters` | ctrlers/vpower/ctrler_block.go:56-105 | with one vote per validator, and some at the end of a cycle, a block keeps every counter on the way to at most the length of the cycle, and the end of the cycle clears it |
| `Mint.SharesFillThePot` | ctrlers/supply/ctrler_mint.go:132-140 | the truncated shares add up to the pot, less the validators' part when they weigh nothing, within two units of the last digit per beneficiary |
| `Mint.PayOne` | ctrlers/supply/ctrler_mint.go:132-156 | one beneficiary's payment and the fraction it leaves |
| `Mint.PayAll` | ctrlers/supply/ctrler_mint.go:128-158 | the reward loop |
| `Mint.ComputeRewards` | ctrlers/supply/ctrler_mint.go:85-165 | for every input: no answer if and only if there are no weights, the issuance is negative or a share is divided by zero; otherwise the 256-bit amounts and their sum modulo 2^256 |
| `Mint.MintKeepsCap` | ctrlers/supply/ctrler_mint.go:196-206 | as long as the cap is not below the supply, minting that has an answer keeps the supply within it |
| `Mint.IssuanceNegativeIff` | ctrlers/supply/ctrler_mint.go:196-206 | below the cap the issuance is negative if and only if the factor is |
| `Mint.DistanceToCap` | ctrlers/supply/ctrler_mint.go:204-204 | the 256-bit subtraction is the distance to the cap if and only if the supply is within the cap |
| `Mint.LoweredCapWraps` | ctrlers/supply/ctrler_mint.go:204-205 | a cap below the supply issues about half of 2^256 |
| `Supply.FlowsExplainCumulated` | ctrlers/supply/reward.go:106-156 | the cumulated amount moves by exactly the issued, withdrawn and slashed amounts reported for the block |
| `Supply.DistributionAdds` | ctrlers/supply/ctrler_reward.go:23-41 | distribution adds exactly what is paid, also to a beneficiary paid several times |
| `Supply.WithdrawalTakes` | ctrlers/supply/ctrler_reward.go:58-68 | a covered withdrawal takes exactly its amount, also when the emptied reward is deleted |
| `Supply.Reward.IssueAmount` | ctrlers/supply/reward.go:106-121 | issue on the reward object |
| `Supply.Reward.WithdrawAmount` | ctrlers/supply/reward.go:123-139 | withdrawal on the reward object |
| `Supply.Reward.SlashAmount` | ctrlers/supply/reward.go:141-156 | slash on the reward object |
| `Supply.SupplyCtrler.constructor` | ctrlers/supply/ctrler.go:67-74 | the genesis supply recorded as an adjustment |
| `Supply.SupplyCtrler.DistRewardToState` | ctrlers/supply/ctrler_reward.go:23-41 | the distribution loop |
| `Supply.SupplyCtrler.WaitMint` | ctrlers/supply/ctrler_mint.go:50-68 | rewards distributed and the minted sum added to the supply, or nothing changed when the response is an error |
| `Supply.SupplyCtrler.WithdrawReward` | ctrlers/supply/ctrler_reward.go:58-74 | reward reduced or deleted, then the account credited |
| `Ballot.EveryRunTallies` | ctrlers/gov/proposal/proposal.go:105-177 | after any votes, changed votes and slashes: votes per option, total power and two-thirds majority match the voters |
| `Ballot.NewIsOk` | ctrlers/gov/proposal/proposal.go:21-55 | a new ballot satisfies the tally invariant |
| `Ballot.VoteKeepsTally` | ctrlers/gov/proposal/proposal.go:105-144 | voting succeeds iff the address is a voter, and keeps the tally |
| `Ballot.SlashKeepsTally` | ctrlers/gov/proposal/proposal.go:146-177 | slashing at a rate in [0,100] keeps the tally and lowers the total |
| `Ballot.SlashOkIff` | ctrlers/gov/proposal/proposal.go:161-174 | for any rate the tally survives if and only if no more power is slashed than there is |
| `Ballot.DoubleSlashBreaksTotal` | ctrlers/gov/proposal/proposal.go:161-174 | at a rate of 200 the total becomes negative |
| `Ballot.AtMostOneWinner` | ctrlers/gov/proposal/proposal.go:186-192 | with total power 3 or at least 5 at most one option wins, with more than half of the power |
| `Ballot.TwoWinnersIffNotDecisive` | ctrlers/gov/proposal/proposal.go:186-192 | exactly for the totals 0, 1, 2 and 4 two options can win |
| `Ballot.NoVotesWinIff` | ctrlers/gov/proposal/proposal.go:188-190 | an option without votes wins if and only if the total power is at most one |
| `Ballot.WinnerIgnoresOrder` | ctrlers/gov/proposal/option.go:27-39 | for decisive totals the unstable sort cannot change the winner |
| `Ballot.GovProposal.constructor` | ctrlers/gov/proposal/proposal.go:21-38 | an empty ballot with its majority |
| `Ballot.GovProposal.AddOption` | ctrlers/gov/proposal/proposal.go:40-48 | an option without votes appended |
| `Ballot.GovProposal.AddVoter` | ctrlers/gov/proposal/header.go:36-48 | a known voter is not added again |
| `Ballot.GovProposal.FindVoter` | ctrlers/gov/proposal/header.go:49-56 | the first voter with the address |
| `Ballot.GovProposal.RemoveVoter` | ctrlers/gov/proposal/header.go:58-67 | the voter with the address removed |
| `Ballot.GovProposal.CancelVote` | ctrlers/gov/proposal/proposal.go:126-132 | the voter's power taken off its option |
| `Ballot.GovProposal.CastVote` | ctrlers/gov/proposal/proposal.go:134-144 | the voter's power put on an option |
| `Ballot.GovProposal.DoVote` | ctrlers/gov/proposal/proposal.go:105-124 | vote on the object, or an unchanged object and an error |
| `Ballot.GovProposal.DoSlash` | ctrlers/gov/proposal/proposal.go:146-177 | slash on the object, reporting what was slashed |
| `Ballot.GovProposal.UpdateMajorOption` | ctrlers/gov/proposal/proposal.go:186-192 | options in descending order of votes, and the first one major iff it reaches the majority |
| `Governance.ProposalLifecycle` | ctrlers/gov/ctrler.go:247-338 | over every run a proposal is decided exactly once, in the block after its last voting block, and a winner is applied exactly once at the later of that block and its apply height |
| `Governance.VotesOnlyInWindow` | ctrlers/gov/ctrler.go:171-175 | outside [start, end] no vote changes a ballot |
| `Governance.AcceptedScheduleIsOrdered` | ctrlers/gov/ctrler.go:106-140 | an accepted schedule has height < start <= end <= apply height and no 64-bit wrap |
| `Governance.ExecuteKeeps` | ctrlers/gov/ctrler.go:197-244 | transactions keep the invariant of proposals and leave the parameters alone |
| `Governance.PunishedKeeps` | ctrlers/gov/ctrler_punish.go:13-34 | punishing a voter in all open ballots keeps it too |
| `Governance.EndBlockKeeps` | ctrlers/gov/ctrler_block.go:41-101 | EndBlock never fails and changes no parameter in force; after Commit the parameters in memory are those in the ledger |
| `Governance.LastProposalWins` | ctrlers/gov/ctrler.go:290-338 | of the proposals due at once, whatever their kinds, the parameter proposal with the greatest key decides, merged with the parameters in force; without one nothing changes |
| `Governance.GovCtrler.constructor` | ctrlers/gov/ctrler.go:63-74 | the genesis parameters in memory and in the ledger |
| `Governance.GovCtrler.ExecProposing` | ctrlers/gov/ctrler.go:197-225 | a ballot with the present validators as voters |
| `Governance.GovCtrler.ExecVoting` | ctrlers/gov/ctrler.go:227-244 | a vote written back, or an error and nothing changed |
| `Governance.GovCtrler.Deliver` | ctrlers/gov/ctrler.go:76-195 | validate, then execute |
| `Governance.GovCtrler.DoSlash` | ctrlers/gov/ctrler_punish.go:13-34 | every open ballot with the offender slashed |
| `Governance.GovCtrler.FreezeProposals` | ctrlers/gov/ctrler.go:247-287 | ended proposals settled: winners frozen, the others removed |
| `Governance.GovCtrler.ApplyProposals` | ctrlers/gov/ctrler.go:290-338 | due proposals applied in key order and removed |
| `Governance.GovCtrler.EndBlock` | ctrlers/gov/ctrler_block.go:41-83 | settling, then applying |
| `Governance.GovCtrler.Commit` | ctrlers/gov/ctrler_block.go:85-101 | pending parameters take effect |
| `Governance.ApplyInOrder` | ctrlers/types/gov_params.go:377-402 | each due parameter set is merged with the parameters in force, unset fields keeping their value |
| `Ledger.RevertRestoresTree` | ledger/v1/mutable_ledger.go:142-231 | for any Set, Del and nested reverts, reverting to a live snapshot restores the map if and only if no key was created with an empty encoding |
| `Ledger.EmptyCreationIsKept` | ledger/v1/mutable_ledger.go:154-177 | such a key survives the revert |
| `Ledger.NonEmptyNeverCreatesEmpty` | ledger/v1/mutable_ledger.go:154-177 | with non-empty encodings the condition always holds |
| `Ledger.OverlayRefines` | ledger/v1/mem_ledger.go:157-218 | the overlay ledger refines a logged map and never touches the tree below |
| `Ledger.RevertRestoresOverlay` | ledger/v1/mem_ledger.go:157-218 | for any Set, Del and nested reverts, reverting the overlay to a live snapshot restores its map if and only if, key by key, the last unlogged call (the deletion of a key that only the tree held, or the creation of an empty entry) left what the key held |
| `Ledger.RevertRestoresEncoded` | ledger/v1/mem_ledger.go:157-218 | with encodings that are never empty: if and only if no key was deleted that only the tree held |
| `Ledger.UntouchedDeletionIsLost` | ledger/v1/mem_ledger.go:186-198 | such a deletion survives the revert |
| `Ledger.PrefixIsContiguous` | ledger/v1/mutable_ledger.go:110-140 | keys with a common prefix are contiguous in key order |
| `Ledger.Seek` | ledger/v1/mutable_ledger.go:110-140 | an ascending scan visits exactly the keys with the prefix, with their decoded values |
| `UndoLog.StepChangesRecovery` | ledger/v1/revision_list.go:17-30 | a step changes what a snapshot recovers exactly when it is an unlogged write that no later entry repairs |
| `StateLedger.MutableLedger.Get` | ledger/v1/mutable_ledger.go:50-81 | a cached read equals decoding the bytes in the tree |
| `StateLedger.MutableLedger.Set` | ledger/v1/mutable_ledger.go:142-177 | the logged write, and a read of the item just written |
| `StateLedger.MutableLedger.Del` | ledger/v1/mutable_ledger.go:179-197 | the logged removal |
| `StateLedger.MutableLedger.RevertToSnapshot` | ledger/v1/mutable_ledger.go:206-231 | the reverse undo loop, cache included |
| `StateLedger.MutableLedger.Commit` | ledger/v1/mutable_ledger.go:233-250 | a new numbered version equal to the working tree |
| `StateLedger.MemLedger.Get` | ledger/v1/mem_ledger.go:44-81 | overlay first, then the tree |
| `StateLedger.MemLedger.Set` | ledger/v1/mem_ledger.go:157-184 | write to the overlay only |
| `StateLedger.MemLedger.Del` | ledger/v1/mem_ledger.go:186-198 | removal marked in the overlay only |
| `StateLedger.MemLedger.RevertToSnapshot` | ledger/v1/mem_ledger.go:207-218 | the reverse undo loop of the overlay |
| `StateLedger.StateLedger.Get` | ledger/v1/state_ledger.go:51-56 | reads go to the tier asked for |
| `StateLedger.StateLedger.Set` | ledger/v1/state_ledger.go:76-84 | a write to one tier never changes the other |
| `StateLedger.StateLedger.Del` | ledger/v1/state_ledger.go:86-95 | neither does a removal |
| `StateLedger.StateLedger.Commit` | ledger/v1/state_ledger.go:111-126 | after Commit both tiers read the same map |
| `LedgerKeys.FrozenScanSelectsHeight` | ledger/v1/ledger_keys.go:59-65 | a scan for a height selects exactly that height's entries, and the owner is read back from the key |
| `LedgerKeys.VPowerScanSelectsDelegator` | ledger/v1/ledger_keys.go:45-50 | a scan for a delegator selects exactly its entries, and keys determine both addresses |
| `Merkle.EveryProofVerifies` | types/merkle/tree.go:42-124 | for any number of leaves and every index the proof verifies against the root |
| `Merkle.AcceptedLeavesAgree` | types/merkle/tree.go:95-139 | unless some level of two accepted verifications of one length hashes different strings to one value, root and index determine the data and every sibling |
| `Merkle.DifferentLeavesCollide` | types/merkle/tree.go:95-139 | two different leaf hashes accepted for one root: the level is exhibited at which the two climbs hash different strings to one value |
| `Merkle.ClimbsAgree` | types/merkle/tree.go:106-114 | two climbs that reach one root without such a level agree in leaf and siblings |
| `Merkle.MissingNodesAreNotBound` | types/merkle/tree.go:126-139 | absent siblings are not bound to a side or to absence |
| `Merkle.LeafRowFits` | types/merkle/tree.go:141-146 | the leaf row is a power of two that fits the leaves and is less than twice as long |
| `Merkle.MerkleTree.constructor` | types/merkle/tree.go:42-69 | the array holds the leaves and every inner node is the hash of its children |
| `Merkle.MerkleTree.FillLeaves` | types/merkle/tree.go:49-58 | leaves hashed unless they come hashed |
| `Merkle.MerkleTree.HashUpwards` | types/merkle/tree.go:60-65 | inner nodes from the last to the root |
| `Merkle.MerkleTree.Proof` | types/merkle/tree.go:77-93 | siblings from leaf to root, an error exactly for an index out of range |
| `Merkle.MerkleTree.VerifyProof` | types/merkle/tree.go:95-124 | accepts exactly the climbs that end at the root |
| `SignGuard.NeverDoubleSigns` | types/crypto/sfile_pv.go:368-459 | over every run with crashes between signing, saving and releasing, two signatures released for one height, round and step are over one sign-bytes value |
| `SignGuard.ReuseMatchesSignature` | types/crypto/sfile_pv.go:380-400 | a reused signature matches the returned message after its timestamp has been replaced |
| `SignGuard.CheckDecidesOrder` | types/crypto/sfile_pv.go:119-151 | the check answers exactly the lexicographic order, and re-signing needs stored bytes and signature |
| `SignGuard.StepIsSafe` | types/crypto/sfile_pv.go:368-459 | saved triples strictly increase through every step and crash |
| `SignGuard.SFilePV.SignMessage` | types/crypto/sfile_pv.go:368-448 | sign, reuse or refuse on the object; nothing is written unless the triple advances |
| `SignGuard.SFilePV.SaveSigned` | types/crypto/sfile_pv.go:450-459 | state and file agree after saving |
| `EvmTracking.TrackedAccountsAreTheLoadedOnes` | ctrlers/vm/evm/statedb.go:227-265 | for any run of loads, transfers, snapshots and nested reverts the tracked accounts are exactly those whose load is still in the journal, and writing them back conserves the sum of balances |
| `EvmTracking.RevertRestoresBoth` | ctrlers/vm/evm/statedb.go:243-265 | reverting restores the balances and the tracked set of the moment of the snapshot |
| `EvmTracking.FailedCallChangesNothing` | ctrlers/vm/evm/ctrler.go:218-243 | a failed contract call, reverted to its first snapshot, writes nothing back |
| `EvmTracking.StepConserves` | ctrlers/vm/evm/statedb.go:59-97 | every step keeps the sum that writing back would give |
| `EvmTracking.StateDBWrapper.AddAccessedObjAddr` | ctrlers/vm/evm/statedb.go:227-237 | an account is loaded and tagged the first time it is touched |
| `EvmTracking.StateDBWrapper.NewSnapshot` | ctrlers/vm/evm/statedb.go:262-265 | a fresh snapshot identifier |
| `EvmTracking.StateDBWrapper.RevertAccessedObjAddr` | ctrlers/vm/evm/statedb.go:248-260 | exactly the accounts tagged above the snapshot are dropped |
| `EvmTracking.StateDBWrapper.RevertToSnapshot` | ctrlers/vm/evm/statedb.go:243-246 | tracking and journal reverted together |
| `EvmTracking.StateDBWrapper.Finish` | ctrlers/vm/evm/statedb.go:59-97 | every tracked account written back in ascending order, and forgotten |
| `Preparer.WaitSeesEverySlot` | node/trx_preparer.go:70-127 | in every interleaving, once the wait counter is zero, slot i holds the result of the i-th request, written exactly once |
| `Preparer.SomeStepIsEnabled` | node/trx_preparer.go:70-127 | until then some step is always enabled, even with full channels |
| `Preparer.ReachedIsOk` | node/trx_preparer.go:62-127 | the invariant linking slots, channels, workers and the counter holds in every reachable state |
| `Base.CompareIsAntisymmetric` | types/bytes/hex_bytes.go:72-78 | byte order is antisymmetric |
| `Base.CompareIsTransitive` | types/bytes/hex_bytes.go:72-78 | byte order is transitive |
| `Effects.DeliverEffect` | node/trx_executor.go:26-184 | every account, whichever of sender, receiver and payer it is or several of them at once: its balance moves by the sum over its roles, only the sender's nonce advances, only a document change sets name and link, and a ledger that the kind does not name is untouched |
| `Effects.RunEffect` | node/trx_executor.go:113-156 | what running alone moves, for every kind and every account |
| `Effects.RunRest` | node/trx_executor.go:113-156 | which ledgers each kind may touch |
| `Effects.ChargeEffect` | node/trx_executor.go:158-184 | the payer loses the fee, the sender's nonce advances, all other accounts stay, also when payer and sender are one |
| `Effects.FeeEffect` | ctrlers/account/ctrler_block.go:15-49 | the proposer gains its percentage of the fees rounded down, the dead address the rest, both if they are one account, and nobody else anything |
| `Effects.DistributeEffect` | ctrlers/supply/ctrler_reward.go:23-41 | every cumulated reward grows by what the payments hold for that address, counted once per listing |
| `StakeEffects.BondEffect` | ctrlers/vpower/ctrler.go:269-301 | the chunk is appended to the one link and its power added to the one delegatee; every other link, delegatee and frozen entry stays |
| `StakeEffects.UnbondEffect` | ctrlers/vpower/ctrler.go:312-363 | exactly the last chunk with the hash leaves its link for its owner's frozen entry; the delegatee goes if and only if no power of its own is left, and then every remaining chunk goes to the entry of the delegator who bonded it |
| `StakeEffects.EvictEffect` | ctrlers/vpower/ctrler.go:342-360 | every link to the delegatee is emptied into its own delegator's frozen entry, all else stays |
| `StakeEffects.VoteEffect` | ctrlers/vpower/ctrler_block.go:57-101 | a validator is jailed if and only if the vote is unsigned, it is a delegatee, and its misses reach the allowance; the counter of nobody else moves |
| `StakeEffects.SlashEffect` | ctrlers/vpower/ctrler_punish.go:10-46 | every chunk bonded to the offender loses its percentage, rounded, and no other chunk anything |
| `Engine.EngineFollows` | ctrlers/vpower/ctrler_valset.go:13-69 | over every run without a validator of power 0, the consensus engine, fed only with the reported updates, holds exactly the application's validators and powers |
| `Engine.BlockInformsEngine` | ctrlers/vpower/ctrler_block.go:136-148 | the engine's set, updated by what EndBlock emits from the list it holds then, is the new set if and only if no validator enters with or falls to power 0 |
| `Engine.NewValidators` | ctrlers/vpower/ctrler_block.go:112-148 | after EndBlock the validators are the selection from the delegatees that the refunds leave, in key order |
| `FirstBlock.LockedLimiterRejects` | ctrlers/vpower/limiter.go:58-79 | a limiter with rate 0 accepts no addition, and no removal of all the power that is left |
| `FirstBlock.EmptyLimiterRejects` | ctrlers/vpower/limiter.go:58-79 | a limiter that was never reset accepts no change of power |
| `FirstBlock.FirstBlockKeepsStakes` | ctrlers/vpower/ctrler_block.go:51-109 | in the first block, which has no votes to reset the limiter, no transaction changes any stake |
| `GovernanceRuns.ProposalsOnTheChain` | ctrlers/gov/ctrler.go:247-338 | the life of a proposal, decided once and applied once, on runs of whole blocks of the chain |
| `GovernanceRuns.TalliesOnTheChain` | ctrlers/gov/proposal/proposal.go:105-177 | in every state of every run each open ballot's votes, total and majority match its voters |
| `GovernanceRuns.BlockActs` | node/app.go:420-747 | a block of the chain moves the proposals exactly as a block of the governance controller with the transactions that validation lets through |
| `GovernanceRuns.DeliverActs` | node/trx_executor.go:113-156 | a governance transaction that is prepared and validated is executed, any other leaves proposals alone |
| `Governance.BlockTallies` | ctrlers/gov/ctrler_block.go:13-101 | a block of punishments, proposals, votes and settlements keeps every open tally |
| `Governance.ExecuteTallies` | ctrlers/gov/ctrler.go:197-244 | proposing and voting keep every open tally |
| `Governance.PunishedTallies` | ctrlers/gov/ctrler_punish.go:13-34 | slashing in all open ballots keeps every tally |
| `Governance.SettlementsAgree` | ctrlers/gov/proposal/proposal.go:186-192 | for decisive totals two settlements that order equal options differently choose the same winner |
| `SmallestChain.RunsExist` | node/app.go:207-240 | from every one-validator genesis of a family, with any cycle of more than one block and a stake that the cap does not round away, runs of every length whose blocks carry any prepared transactions outside governance, the first one without votes, satisfy all hypotheses of the run theorems; the weights of its mints are computed |
| `SmallestChain.StrangerHalts` | node/app.go:493-512 | one transaction from any other address halts such a chain in its first block |
| `SmallestChain.ShortestCycleHalts` | ctrlers/vpower/ctrler_weight.go:30-33 | with a cycle of one block its first block halts it, empty and without votes |
| `SmallestChain.RoundedAwayHalts` | ctrlers/supply/ctrler_mint.go:132-140 | with a cycle of two blocks, one coin staked and 10^8 coins held, the first block runs and the second halts it, because the computed weight is zero |
| `SmallestChain.PlainStep` | ctrlers/supply/ctrler_mint.go:85-140 | in general such a block halts if and only if a cycle ends and it is the first block, or 20 000 000 times the stake is below the supply |

## Left out

- Contract transactions and transfers to contracts: they run in the EVM, of which only the account tracking is modelled.
- CheckTx, recheck and simulation: only the delivering path of the transaction handlers is modelled.
- Protobuf, RLP and JSON codecs: the ledger model takes a codec whose decoding inverts its encoding.
- Fixed-point and decimal arithmetic: shares and rewards are computed over real numbers with the final truncations and the conversion to uint256 written out; the power function behind the issuance is a parameter. The range of the fixed-point type, about 10^11, and the panic for a payment beyond 2^256 are not modelled.
- Partial effects of a transaction that fails while running: `Chain.Run` only says that it fails; after validation this does not happen.
- Shared objects: the account objects that all transaction contexts of a block share are entries of a map addressed by key. The delegatee objects that the first block shares with the genesis validator list are values; without evidence nothing changes them there (`FirstBlock.FirstBlockKeepsStakes`).
- int64 sums of voting power: sums in the stake books, the limiter and ballots are unbounded integers; products and quotients of power are written out in int64. `ChainInvariant.Bounds`, `Delegations.DelegateesWithinBonded` and the tally invariant keep the sums below 2^63 / 100.
- Accounts.AcctCtrler.FindOrNewAccount: returns the account as a value, where the code hands out an object that its callers share.
- StrandedStake.AbsenceHalts: its blocks carry votes and mints, and no transactions.
- Conservation.MintWithinCap: like Conservation.MintIsSafe, for weights that are not negative; what negative ones can do is `Conservation.NegativeDueBreaksCap`.
- EvmTracking.StateDBWrapper.Finish: does not model nonces and code, which are written back with the balances, because no claim here depends on them.
- The reward pool, burning, the deprecated change rate of the limiter and descending scans: unused on the modelled paths.
- Networking, RPC, wallets, configuration, key files and the consensus engine: outside the application.
- Events, block metadata and version hashes: not observable in the modelled state, except the proposal events of EndBlock.
- Governance.GovCtrler.FreezeProposals: like Governance.GovCtrler.DoSlash, visits proposals in any order, because the result does not depend on it.
- Node.BeatozApp.RunTrx: stated for transactions that run without error, which is what validation guarantees.
