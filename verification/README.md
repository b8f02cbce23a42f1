# A verified model of the BTC bridge contract

The bridge holds Bitcoin outputs (UTXOs) and issues nBTC against them. Its contract works through chains of
asynchronous steps: a deposit is proved to a light client and then minted; a withdrawal, or a transaction that
rearranges the bridge's own coins, is signed, replaced by fee bumps or cancellations, confirmed, burned for and
settled; a deposit that was never finalized is refunded. Between any two steps of one such chain any other step
can happen.

The project models the contract of the Bitcoin build as a state machine and as an object, and proves what holds
in every reachable state. Four more parts stand on their own: the ring of block amounts behind the confirmation
tiers, the Zcash build's PSBT format, the compact txid of ZIP 244, and the matcher of message templates.

## How it is built

- `Bitcoin`, `BlockAmounts`, `Configuration`, `Psbt`: transactions, the ring of amounts per block, the tiers and
  fees, and the checks on proposed transactions. The loops of the source are methods proved against functions.
- `BridgeState`, `Effects`, `Steps`: the state of the contract, of the token, of promises under way, of the chain,
  and a history; and every step as a guard `CanX` with its effect `X`. A panic or an overflow reverts a call, so it
  is a step that cannot be taken.
- `Invariants` and the `...Proofs` modules: what every reachable state satisfies, and one lemma per step.
- `Runs`: events, reachability, and the theorem that the invariant holds in every reachable state. Reachable states
  are defined as the least set closed under steps; `ReachableByRuns` proves that these are the ends of the runs.
- `Safety`, `History`, `Completion`, `ConfirmationSafety`, `ForgottenBlocks`: the main results. The last two belong
  together: when accepted deposits are deep enough, and the runs that show the condition to be exact.
- `Terms`, `Origins`, `RecordOrigins`, `BurnOrigins`: the terms the bridge agrees to, said in amounts, outputs and times;
  and that every question, mint, pending transaction, burn and refund request goes back to a step of the past that was
  on its terms. `Acceptance` is the converse: the bridge accepts exactly the requests on which such terms exist and for
  which there is room. `Guards` has the exact rules of fees, waiting times and coin numbers.
- `Claims`, `Surpluses`, `Marks`, `Upkeep`: what every account is owed, where every surplus comes from, what a mark on
  a deposit means, and that nothing under way is empty.
- `Bridge`: the contract as a class whose entry points and callbacks change its fields in place. Each method is
  proved to take exactly the specified step, or to leave everything as it was when the contract panics, and every
  object is always in a reachable state, so all results of `Safety` apply to it.
- `RingRefinement`: the ring as a cache of an unbounded map.
- `ZcashEncoding`, `ZcashPsbt`, `CompactTxid`, `JsonTemplate`: the independent parts.

## What the model assumes of its surroundings

- A transaction is its own id: two transactions have the same id exactly when they have the same inputs, outputs
  and remaining header fields. No two confirmed transactions share an input, the light client reports the block of
  a confirmed transaction truthfully, and the tip does not go back.
- An output of the bridge is spent on chain only by a transaction that was pending in the contract at some time;
  this is weaker than requiring that it was signed. Deposit scripts differ from the change script.
- The token contract answers a mint or a burn by doing it or by failing; of a safe mint any part may stay with the
  bridge. Answers arrive in any order and at any later time; an answer of the light client or of the signer may
  even arrive more than once. Anyone may send nBTC to the bridge, and holders may destroy nBTC of their own.
- Callers' roles, and times, are arguments of the steps that depend on them.

Surpluses are recorded exactly, so that backing and the bridge's balance can be stated as equations: the payments of
withdrawals to the bridge's own change address, which the contract accepts and which come back as change; coins
registered although a safe mint failed outright, which the contract does on purpose; nBTC destroyed by holders; and nBTC
that the bridge has without owing it, which is what anyone sent to it and what a safe mint left with it.

The limits of passive management steer the number of coins: below the lower limit a withdrawal raises it, above the
upper one lowers it. One case is an exception: a withdrawal of a single coin to the bridge's own change address is
accepted above the upper limit although its payment comes back as a coin that the check does not count.
`OneCoinToChangeKeepsTheNumber` proves that the number falls in all other cases.

One promise of the confirmation tiers does not hold for every run: that whatever the contract accepts is as deep as
the true total of its block asks. The ring forgets a block when its slot is taken by a newer one that later moves to
another slot because the ring is resized. Deposits made in the forgotten block afterwards count from zero. Let
`floor` be the least number of slots the ring has had. A forgotten block has a depth of at least floor + 3, or
floor + 2 while the ring has more slots than that. So a deposit is safe when the greatest tier and its delta
together are within this depth, or when one satoshi already needs the greatest tier, and `DeltasAreSafeExactly`
proves that these are the exact conditions: for every configuration and delta that meet neither, some run of the
contract ends with the acceptance of a deposit that is not deep enough. With a ring that was never smaller than now
the current deltas always fit. Two concrete runs show what can go wrong: in `StaleDeltaIsUnsafe` a delta was taken
before the configuration lowered its deltas, in `GrownRingIsUnsafe` the ring grew because a tier was raised.

Where the documentation of the template matcher is silent, the model follows the code: an empty template array
matches only an empty array.

## Model

| member | source | states |
|---|---|---|
| Runs.StepKeepsInv | contracts/satoshi-bridge/src/lib.rs:137-159 | whatever entry point, callback, token answer or chain event happens next, the invariant over all the contract's maps and counters is kept |
| Runs.ReachableKeepsInv | contracts/satoshi-bridge/src/lib.rs:137-159 | the invariant holds in every reachable state |
| Runs.ReachableByRuns | contracts/satoshi-bridge/src/lib.rs:137-159 | a state is in the least set that holds every fresh deployment and is closed under steps exactly when some sequence of events leads to it from a fresh deployment |
| Safety.SupplyIsBacked | contracts/satoshi-bridge/src/nbtc/burn.rs:78-153 | in every reachable state nBTC supply, less burns already scheduled, is at most the satoshis in coins, deposits in progress and pending originals |
| Safety.QuietSupplyIsExact | contracts/satoshi-bridge/src/nbtc/burn.rs:78-153 | with no burn or mint under way supply and satoshis are equal if and only if all deposits were minted, no withdrawal paid the change address, and nobody destroyed nBTC |
| Safety.BalanceCoversEverything | contracts/satoshi-bridge/src/nbtc/burn.rs:11-147 | the bridge's own balance covers at once all scheduled burns with relayer fees, transfers, unused safe mints, lost and found, and the available protocol fee |
| Safety.EveryPaymentIsPossible | contracts/satoshi-bridge/src/nbtc/burn.rs:11-47 | no scheduled burn, transfer or burn of an unused mint can lack balance, including burns of cancellations whose gas exceeds the user's funds |
| Safety.EveryCallbackIsPossible | contracts/satoshi-bridge/src/nbtc/burn.rs:53-234 | whatever the token answered, the callback of a burn, mint or transfer cannot panic: records exist and no subtraction underflows |
| SettleProofs.SettlementNeverSticks | contracts/satoshi-bridge/src/nbtc/burn.rs:96-139 | after a successful burn the original is still pending, the gas is within the reserve, and the reserve within the counter |
| SettleProofs.ConfirmedHasItsOriginal | contracts/satoshi-bridge/src/nbtc/burn.rs:96-102 | a confirmed candidate still has its original, since the chain confirms one spender per input |
| SettleProofs.SettlementPaysItsWay | contracts/satoshi-bridge/src/nbtc/burn.rs:61-147 | the transfer and the used reserve equal burn, relayer fee, protocol fee and refund together |
| SettleProofs.SettledSats | contracts/satoshi-bridge/src/nbtc/burn.rs:78-95 | settling turns the family's locked coins into registered change plus the burned amount, apart from payments to the change address |
| SettleProofs.FinishBurnKeepsInv | contracts/satoshi-bridge/src/nbtc/burn.rs:53-234 | settling a confirmed transaction keeps every invariant |
| Safety.FeesAreConserved | contracts/satoshi-bridge/src/rbf/cancel_withdraw.rs:57-75 | collected fee is available, claimed, reserved or spent on gas, and the reserve is exactly the maximum gas of management originals plus the cancel reserves of withdrawal originals |
| Safety.CandidatesBurnAlike | contracts/satoshi-bridge/src/rbf/cancel_withdraw.rs:47-72 | all user candidates of a withdrawal burn the transfer less the fee; a cancellation burns its gas, within the user's funds and the reserve |
| Safety.OutputsAreInOnePlace | contracts/satoshi-bridge/src/utxo.rs:63-79 | an output is a coin, a deposit in progress or claimed by a transaction, never two of them, and every input of a pending transaction is claimed |
| Safety.SharedInputsMeanOneFamily | contracts/satoshi-bridge/src/rbf/mod.rs:12-66 | any two pending transactions, orphaned replacements included, share an input only if they replace the same original, and then have equal inputs and are both orphans or neither; or as refunds of one deposit; inputs are distinct |
| Safety.CoinsAreUnspent | contracts/satoshi-bridge/src/utxo.rs:63-79 | the contract never holds as a coin what a confirmed transaction has spent |
| History.ClaimedNeverReturns | contracts/satoshi-bridge/src/utxo.rs:63-87 | an output once taken for a transaction never becomes a coin again in any later state |
| Safety.FamilyIndexIsExact | contracts/satoshi-bridge/src/rbf/mod.rs:30-41 | an id is listed under an original exactly when it is a pending replacement of that pending original |
| Safety.OrphanTestsAgree | contracts/satoshi-bridge/src/btc_pending_info.rs:407-425 | absence from the index and absence of the original agree, only orphans can be cleared or signed away, every orphan can be cleared, and no orphan is confirmed |
| Safety.StagesAreExact | contracts/satoshi-bridge/src/btc_pending_info.rs:227-273 | all inputs signed, bytes present and past signing are equivalent, and a transaction is in the burn stage exactly when one burn for it is under way |
| Safety.BurnedAtMostOnce | contracts/satoshi-bridge/src/btc_light_client/withdraw.rs:72-83 | when a burn is scheduled nothing sharing an input has a burn under way or was settled before |
| History.SettledForever | contracts/satoshi-bridge/src/btc_light_client/withdraw.rs:72-83 | a settled transaction is never pending again and never burned for again |
| Safety.AccountIndexIsExact | contracts/satoshi-bridge/src/chain_signature.rs:177-195 | an account's lists are exactly its transactions to sign and its originals to verify |
| History.LimitsHoldUnlessLowered | contracts/satoshi-bridge/src/account.rs:105-123 | along every run no account exceeds its signing limit if and only if no limit is set below what the account has |
| Safety.DepositsAndRefundsExclude | contracts/satoshi-bridge/src/refund.rs:243-272 | a deposit in progress or registered cannot be refunded, an executed refund cannot be deposited and keeps its mark |
| Safety.AuthorizedRefundPaysItsAddress | contracts/satoshi-bridge/src/refund.rs:138-239 | a refund address named by the deposit message is what an executed refund pays, with the whole deposit less gas |
| History.ExclusionIsForever | contracts/satoshi-bridge/src/refund.rs:243-272 | both exclusions hold in every later state, through all interleavings and rollbacks of failed mints |
| Completion.ConfirmedCanBeSettled | contracts/satoshi-bridge/src/btc_light_client/withdraw.rs:38-83 | from every reachable state with a confirmation strategy, a confirmed withdrawal or management transaction awaiting verification can be checked once deep enough, burned for and settled, whatever else is under way |
| Completion.DepositCanBeRegistered | contracts/satoshi-bridge/src/btc_light_client/deposit.rs:255-385 | from every reachable state a valid, deep enough and unmarked deposit can be minted in full and registered as a coin |
| OriginalProofs.AddOriginalKeepsInv | contracts/satoshi-bridge/src/api/token_receiver.rs:80-152 | a checked new original keeps every invariant |
| RequestProofs.WithdrawalIsFresh | contracts/satoshi-bridge/src/psbt.rs:10-70 | the withdrawal checks establish the amounts that the record must balance |
| RequestProofs.ManagementIsFresh | contracts/satoshi-bridge/src/psbt.rs:72-152 | the management checks make the burn equal to gas that the protocol fee can reserve |
| ReplacementProofs.AddReplacementKeepsInv | contracts/satoshi-bridge/src/rbf/mod.rs:12-43 | a checked replacement, with the raised role of its original and the shift of fee into the reserve, keeps every invariant |
| RequestProofs.WithdrawRbfIsFresh | contracts/satoshi-bridge/src/rbf/withdraw.rs:34-72 | the checks of a user's fee bump establish that the candidate keeps recipient, burn and inputs |
| RequestProofs.CancelWithdrawIsFresh | contracts/satoshi-bridge/src/rbf/cancel_withdraw.rs:22-82 | the additional reserve of a cancellation is exactly what raises the original's reserve to the maximum excess so far |
| RequestProofs.ManageRbfIsFresh | contracts/satoshi-bridge/src/rbf/active_utxo_management.rs:27-76 | the reserve grows by exactly the gas increase |
| RequestProofs.CancelManageIsFresh | contracts/satoshi-bridge/src/rbf/cancel_active_utxo_management.rs:21-71 | the same for a cancellation of management |
| ConfirmationSafety.AcceptedDepositsAreDeep | contracts/satoshi-bridge/src/block_amount_ring.rs:123-141 | over all runs that keep at least a given number of slots, growing and shrinking included, every deposit accepted with a delta that fits is as deep as the tier of its block's true total plus the delta asks |
| ConfirmationSafety.ReachedStatesKeepRing | contracts/satoshi-bridge/src/block_amount_ring.rs:44-112 | along such runs every block is remembered with its true unreverted total, or overtaken by a newer block, or deep below the tip |
| ConfirmationSafety.TestSuffices | contracts/satoshi-bridge/src/block_amount_ring.rs:123-141 | with a delta that fits, the test on the remembered amount implies the requirement on the true total |
| ConfirmationSafety.CurrentDeltasFit | contracts/satoshi-bridge/src/block_amount_ring.rs:23-28 | the deltas of the current configuration always fit a ring that was never smaller than now |
| ConfirmationSafety.SmallDepositsFit | contracts/satoshi-bridge/src/block_amount_ring.rs:44-60 | 64-bit deposit values keep the totals of blocks within 128 bits for up to 2^64 deposits |
| ForgottenBlocks.DeltasAreSafeExactly | contracts/satoshi-bridge/src/block_amount_ring.rs:23-28 | over all runs that keep at least `floor` slots and end under a given configuration, everything accepted with a given delta is deep if and only if greatest tier plus delta is within the depth of a forgotten block, or one satoshi needs the greatest tier |
| ForgottenBlocks.UnfittingDeltaIsUnsafe | contracts/satoshi-bridge/src/block_amount_ring.rs:92-141 | for every configuration and delta that do not fit, a run that ends in a state accepting a deposit that is not deep, at the stated depth |
| ForgottenBlocks.StaleDeltaIsUnsafe | contracts/satoshi-bridge/src/btc_light_client/deposit.rs:112-129 | a run on a ring of never fewer than eleven slots in which a deposit with an outdated delta of 100 is accepted at depth 102 where 106 are due |
| ForgottenBlocks.GrownRingIsUnsafe | contracts/satoshi-bridge/src/block_amount_ring.rs:92-111 | a run on a ring that grew from seven to 25 slots in which a deposit without delta is accepted at depth 9 where 20 are due |
| ConfirmationSafety.ResizeKeepsRing | contracts/satoshi-bridge/src/block_amount_ring.rs:92-111 | resizing in either direction forgets only blocks deep below the tip |
| ConfirmationSafety.BumpKeepsRing | contracts/satoshi-bridge/src/block_amount_ring.rs:44-60 | counting a deposit keeps every block remembered, overtaken or deep |
| ConfirmationSafety.UnbumpKeepsRing | contracts/satoshi-bridge/src/block_amount_ring.rs:64-71 | reverting a deposit keeps every block remembered, overtaken or deep |
| RingRefinement.BumpIsExactOrOvertaken | contracts/satoshi-bridge/src/block_amount_ring.rs:44-60 | after any operations a bump returns the exact total, or nothing exactly when a higher block of the same slot was bumped, which is a capacity above |
| RingRefinement.RecentBlocksAreRemembered | contracts/satoshi-bridge/src/block_amount_ring.rs:44-79 | no block within a capacity of all bumped blocks is forgotten |
| RingRefinement.BumpKeepsCache | contracts/satoshi-bridge/src/block_amount_ring.rs:44-60 | one bump of ring and unbounded map keeps the ring a cache of the map, whatever the slot holds |
| RingRefinement.UnbumpKeepsCache | contracts/satoshi-bridge/src/block_amount_ring.rs:64-71 | one reverted bump of ring and unbounded map keeps the ring a cache of the map |
| RingRefinement.RingCachesTotals | contracts/satoshi-bridge/src/block_amount_ring.rs:44-71 | the ring is a cache of the unbounded map it stands for after any bumps and unbumps |
| RingRefinement.TotalsAreTrueSums | contracts/satoshi-bridge/src/block_amount_ring.rs:44-71 | the saturating totals are the true sums at all times if and only if the true sums stay within 128 bits |
| RingRefinement.SaturationLosesAmounts | contracts/satoshi-bridge/src/block_amount_ring.rs:64-71 | a concrete run in which reverting a saturated bump loses an amount |
| BlockAmounts.BlockAmountRing.Bump | contracts/satoshi-bridge/src/block_amount_ring.rs:44-60 | the new cells and the result in all three cases of the slot |
| BlockAmounts.BlockAmountRing.Unbump | contracts/satoshi-bridge/src/block_amount_ring.rs:64-71 | the new cells; a slot of another block is left alone |
| BlockAmounts.BlockAmountRing.Get | contracts/satoshi-bridge/src/block_amount_ring.rs:73-79 | the remembered amount of exactly that block |
| BlockAmounts.BlockAmountRing.Peek | contracts/satoshi-bridge/src/block_amount_ring.rs:81-90 | what a bump would return, without a change |
| BlockAmounts.BlockAmountRing.Resize | contracts/satoshi-bridge/src/block_amount_ring.rs:92-111 | the cells moved one by one into a new ring; zero capacity is refused |
| BlockAmounts.ResizeKeepsNewest | contracts/satoshi-bridge/src/block_amount_ring.rs:92-111 | each new slot holds the newest old block that falls into it, and nothing else |
| Configuration.GetConfirmations | contracts/satoshi-bridge/src/config.rs:217-241 | the confirmations of the least bound above the amount, or of the last bound |
| Configuration.CheckValid | contracts/satoshi-bridge/src/config.rs:124-179 | accepts exactly the configurations whose tiers are in range and never decrease between any two bounds, with all scalar limits consistent |
| Configuration.MaxTierConfirmations | contracts/satoshi-bridge/src/config.rs:243-249 | the greatest tier |
| Configuration.CapacityOf | contracts/satoshi-bridge/src/block_amount_ring.rs:23-28 | greatest tier, both deltas, and the slack |
| Configuration.MaxTierBounds | contracts/satoshi-bridge/src/config.rs:217-249 | no amount needs more than the greatest tier and the largest amount needs it |
| Configuration.ConfirmationsAreMonotone | contracts/satoshi-bridge/src/config.rs:124-179 | a larger amount never needs fewer confirmations |
| Configuration.ProtocolPartWithinFee | contracts/satoshi-bridge/src/config.rs:37-41 | the protocol's part never exceeds the fee, so the split does not underflow |
| Psbt.CheckWithdrawPsbt | contracts/satoshi-bridge/src/psbt.rs:154-247 | accepts exactly the valid withdrawal outputs and returns their numbers, payment and gas |
| Psbt.AcceptedWithdrawalBalances | contracts/satoshi-bridge/src/psbt.rs:154-247 | inputs are payment, change and gas, and payment, gas and fee are the transfer |
| Psbt.AcceptedWithdrawalsAgree | contracts/satoshi-bridge/src/psbt.rs:154-247 | all accepted candidates of one withdrawal burn the same amount and return the same total change |
| Psbt.RecipientIsKept | contracts/satoshi-bridge/src/rbf/withdraw.rs:76-103 | the recipient read from an accepted withdrawal is the one it was checked against; none is found when it pays the change address |
| Bridge.Contract.constructor | contracts/satoshi-bridge/src/lib.rs:137-159 | a fresh bridge in an initial state |
| Bridge.Contract.RemoveVutxosByPsbt | contracts/satoshi-bridge/src/utxo.rs:63-79 | takes exactly the inputs out of the coins, or reverts when one is missing or repeated |
| Bridge.Contract.AddChange | contracts/satoshi-bridge/src/nbtc/burn.rs:84-95 | registers exactly the outputs that pay the change address |
| Bridge.Contract.InsertOriginal | contracts/satoshi-bridge/src/api/token_receiver.rs:115-141 | stores the record, the sign id and the reserve of a new original |
| Bridge.Contract.SetRbfPendingInfo | contracts/satoshi-bridge/src/rbf/mod.rs:12-43 | stores a replacement under its original within the limit of replacements, or reverts |
| Bridge.Contract.DepositProtocolFee | contracts/satoshi-bridge/src/api/token_receiver.rs:24-52 | adds arrived nBTC to collected and available fee, or sends it back |
| Bridge.Contract.CheckWithdrawPsbtValid | contracts/satoshi-bridge/src/psbt.rs:10-70 | the further limits on a first withdrawal transaction, counting coins as before it |
| Bridge.Contract.PrepareWithdrawal | contracts/satoshi-bridge/src/api/token_receiver.rs:80-113 | yields a record exactly when the request is valid, and puts the coins back otherwise |
| Bridge.Contract.Withdraw | contracts/satoshi-bridge/src/api/token_receiver.rs:53-152 | takes the withdrawal step or reverts, and stays in a reachable state |
| Bridge.Contract.ActiveUtxoManagement | contracts/satoshi-bridge/src/btc_light_client/active_utxo_management.rs:68-128 | takes the management step or reverts |
| Bridge.Contract.SignBtcTransaction | contracts/satoshi-bridge/src/api/chain_signatures.rs:24-49 | asks for a signature, or removes a replacement whose original is gone |
| Bridge.Contract.SignBtcTransactionCallback | contracts/satoshi-bridge/src/chain_signature.rs:125-203 | stores one signature; the last one sets the bytes, the stage and the account's lists |
| Bridge.Contract.WithdrawRbf | contracts/satoshi-bridge/src/rbf/withdraw.rs:34-72 | takes the user's fee bump or reverts |
| Bridge.Contract.CancelWithdraw | contracts/satoshi-bridge/src/rbf/cancel_withdraw.rs:22-82 | takes the cancellation with its additional reserve or reverts |
| Bridge.Contract.ActiveUtxoManagementRbf | contracts/satoshi-bridge/src/rbf/active_utxo_management.rs:27-76 | takes the gas increase of management or reverts |
| Bridge.Contract.CancelActiveUtxoManagement | contracts/satoshi-bridge/src/rbf/cancel_active_utxo_management.rs:21-71 | takes the cancellation of management or reverts |
| Bridge.Contract.ClearInvalidPendingVerifyRbf | contracts/satoshi-bridge/src/btc_pending_info.rs:407-425 | removes an orphan with its account entry, or reverts |
| Bridge.Contract.BatchClearInvalidPendingVerifyRbf | contracts/satoshi-bridge/src/api/bridge.rs:246-250 | clears the whole list in order, or nothing |
| Bridge.Contract.VerifyWithdraw | contracts/satoshi-bridge/src/btc_light_client/withdraw.rs:9-68 | asks the light client, for the confirmations of the received amount and the relayer's delta, about a signed pending transaction that is no orphan |
| Bridge.Contract.VerifyWithdrawCallback | contracts/satoshi-bridge/src/btc_light_client/withdraw.rs:72-83 | moves a confirmed transaction to the burn stage once and schedules its burn |
| Bridge.Contract.VerifyWithdrawBurnCallback | contracts/satoshi-bridge/src/nbtc/burn.rs:53-160 | settles a withdrawal or puts it back to verification, without any way to panic |
| Bridge.Contract.VerifyActiveUtxoManagementBurnCallback | contracts/satoshi-bridge/src/nbtc/burn.rs:163-234 | the same for management, releasing the maximum gas reserved |
| Bridge.Contract.SettleWithdrawalFees | contracts/satoshi-bridge/src/nbtc/burn.rs:105-143 | releases the cancel reserve less what went to gas and collects the protocol fee |
| Bridge.Contract.BackToVerification | contracts/satoshi-bridge/src/nbtc/burn.rs:154-157 | a failed burn allows verification again |
| Bridge.Contract.BumpAndCheckConfirmations | contracts/satoshi-bridge/src/block_amount_ring.rs:123-141 | counts the amount and passes exactly when deep enough for the counted total, at the greatest tier outside the window |
| Bridge.Contract.VerifyDeposit | contracts/satoshi-bridge/src/btc_light_client/deposit.rs:22-110 | asks about a valid deposit that is no coinbase transaction, with its fee split and delta |
| Bridge.Contract.VerifyDepositCallback | contracts/satoshi-bridge/src/btc_light_client/deposit.rs:255-329 | counts, marks and puts in progress a deposit that is deep enough and new |
| Bridge.Contract.MintCallback | contracts/satoshi-bridge/src/nbtc/mint.rs:49-94 | registers the coin or rolls the mark and the block amount back, without any way to panic |
| Bridge.Contract.SafeMintCallback | contracts/satoshi-bridge/src/btc_light_client/deposit.rs:332-385 | reverts only when nothing was used, and then schedules the burn |
| Bridge.Contract.WithdrawProtocolFee | contracts/satoshi-bridge/src/api/management.rs:22-30 | moves available fee to claimed, all of it by default |
| Bridge.Contract.WithdrawProtocolFeeCallback | contracts/satoshi-bridge/src/token_transfer.rs:39-51 | a failed withdrawal is rolled back and the claimed counter cannot underflow |
| Bridge.Contract.ClaimLostFound | contracts/satoshi-bridge/src/api/bridge.rs:255-264 | moves the whole entry into a transfer |
| Bridge.Contract.TransferNbtcCallback | contracts/satoshi-bridge/src/token_transfer.rs:54-75 | a failed transfer is added to lost and found |
| Bridge.Contract.RequestRefund | contracts/satoshi-bridge/src/refund.rs:138-239 | asks about a deposit output that exists, and refuses an address other than the one the deposit message names |
| Bridge.Contract.RequestRefundCallback | contracts/satoshi-bridge/src/refund.rs:568-660 | records a request for a deep, unmarked deposit whose rest is not dust |
| Bridge.Contract.RejectRefund | contracts/satoshi-bridge/src/api/bridge.rs:355-379 | removes a request that is not executed, by a privileged caller or after a finalized deposit |
| Bridge.Contract.ExecuteRefund | contracts/satoshi-bridge/src/refund.rs:243-460 | after the timelock marks the deposit and creates the refund transaction, or reverts |
| Bridge.Contract.VerifyRefundFinalizeCallback | contracts/satoshi-bridge/src/refund.rs:533-565 | removes request and record of a confirmed refund |
| Bridge.Contract.RemoveRefundPendingTxId | contracts/satoshi-bridge/src/refund.rs:464-487 | removes a refund record whose request is gone |
| Bridge.Contract.SetPendingTxLimit | contracts/satoshi-bridge/src/api/management.rs:193-207 | sets a limit of at least one or removes an existing one |
| Bridge.Contract.UpdateConfig | contracts/satoshi-bridge/src/api/management.rs:282-286 | changes any fields but the tiers, accepts exactly valid results, and resizes the ring to their capacity |
| Bridge.Contract.SetConfirmationsStrategy | contracts/satoshi-bridge/src/api/management.rs:290-299 | sets one tier exactly when the result is valid, and resizes the ring |
| Bridge.Contract.RemoveConfirmationsStrategy | contracts/satoshi-bridge/src/api/management.rs:368-383 | removes one existing tier but not the last, exactly when the result is valid, and resizes the ring |
| Bridge.Contract.RegisterAccount | contracts/satoshi-bridge/src/account.rs:139-153 | an account comes into being empty and is otherwise left alone |
| BridgeLemmas.RemovedCount | contracts/satoshi-bridge/src/psbt.rs:20-24 | coins left plus inputs taken are the coins before, as the limits on passive management count them |
| BridgeLemmas.ClearingStops | contracts/satoshi-bridge/src/api/bridge.rs:246-250 | a batch fails as a whole when one element cannot be cleared |
| ZcashPsbt.RoundTrip | contracts/satoshi-bridge/src/zcash_utils/psbt_wrapper.rs:213-418 | reading back what was stored gives the same PSBT with no bytes left, for all inputs, outputs, coins, branches, with or without shielded part and recipient |
| ZcashPsbt.ToBytes | contracts/satoshi-bridge/src/zcash_utils/psbt_wrapper.rs:213-283 | writes the format field by field |
| ZcashPsbt.Deserialize | contracts/satoshi-bridge/src/zcash_utils/psbt_wrapper.rs:288-418 | reads every version of the format and fails exactly where a field cannot be read |
| ZcashPsbt.ReadExactly | contracts/satoshi-bridge/src/zcash_utils/psbt_wrapper.rs:624-634 | reads the given number of bytes one at a time or fails |
| ZcashPsbt.ReadItems | contracts/satoshi-bridge/src/zcash_utils/psbt_wrapper.rs:315-349 | reads a counted list or fails |
| ZcashPsbt.SignStored | contracts/satoshi-bridge/src/chain_signature.rs:160-165 | reads the stored PSBT, replaces one script sig, and stores it again |
| ZcashPsbt.SigningChangesScriptsOnly | contracts/satoshi-bridge/src/zcash_utils/psbt_wrapper.rs:535-550 | any number of signings through storage changes the script sigs of the signed inputs and nothing else |
| ZcashPsbt.SigningOrderIsIrrelevant | contracts/satoshi-bridge/src/zcash_utils/psbt_wrapper.rs:535-550 | inputs may be signed in any order |
| ZcashEncoding.OutputsAreUniquelyDecodable | contracts/satoshi-bridge/src/zcash_utils/compact_txid.rs:61-72 | concatenated outputs determine the ordered list |
| CompactTxid.Resolve | contracts/satoshi-bridge/src/zcash_utils/compact_txid.rs:106-204 | accepts exactly the proofs of the right shape and computes the root of their tree |
| CompactTxid.OutputsDigestOf | contracts/satoshi-bridge/src/zcash_utils/compact_txid.rs:61-72 | the digest of all outputs, or failure on a value out of range |
| CompactTxid.TxidBindsProof | contracts/satoshi-bridge/src/zcash_utils/compact_txid.rs:106-151 | proofs with the same txid are equal in version, branch, digests and outputs, or two colliding hash inputs are exhibited |
| JsonTemplate.IsStructureEqual | contracts/satoshi-bridge/src/json_utils.rs:14-56 | the loops compute the declarative matching relation |
| JsonTemplate.FieldsMatch | contracts/satoshi-bridge/src/json_utils.rs:16-30 | checking shared keys and then the input's keys is the same as every input field being allowed |
| JsonTemplate.ItemsMatch | contracts/satoshi-bridge/src/json_utils.rs:31-47 | every item matches one of the variants |
| JsonTemplate.Reflexive | contracts/satoshi-bridge/src/json_utils.rs:14-56 | every value matches itself as a template |
| JsonTemplate.Transitive | contracts/satoshi-bridge/src/json_utils.rs:14-56 | matching is transitive |
| JsonTemplate.DroppingKeepsMatch | contracts/satoshi-bridge/src/json_utils.rs:5-13 | an accepted message stays accepted when fields are dropped anywhere in it |
| Safety.BalanceIsExact | contracts/satoshi-bridge/src/nbtc/burn.rs:11-147 | in every reachable state the bridge's balance equals, to the satoshi, everything it owes or holds for a purpose plus the recorded donations, so no payment can be skipped or made twice |
| Claims.ClaimsAreKept | contracts/satoshi-bridge/src/nbtc/burn.rs:62-147 | every step keeps what each single account is owed, except that a payment lowers it by what is paid and the settlement of a cancelled withdrawal raises it by the transfer less bridge fee and burned gas |
| Claims.ClaimsAddUp | contracts/satoshi-bridge/src/token_transfer.rs:54-75 | over any run, what an account was paid and is still owed is what it was owed and what cancellations returned to it |
| Claims.ClaimedFeeIsPaid | contracts/satoshi-bridge/src/token_transfer.rs:39-51 | the claimed counter, less the fee transfers not yet paid, changes only by what the token pays out |
| Surpluses.SurplusesAreExact | contracts/satoshi-bridge/src/btc_light_client/deposit.rs:332-385 | which steps add to each recorded surplus, and by how much |
| Marks.MarksMeanThis | contracts/satoshi-bridge/src/btc_light_client/deposit.rs:255-329 | a marked deposit is in progress, registered or refunded, in every reachable state |
| Marks.RejectionMeansRegistered | contracts/satoshi-bridge/src/api/bridge.rs:355-379 | without a role a refund request can be rejected exactly when its deposit is registered |
| Marks.RemovedRefundWasOvertaken | contracts/satoshi-bridge/src/refund.rs:464-487 | the record of a refund can be removed only when another transaction has spent the deposit |
| Upkeep.NothingIsEmpty | contracts/satoshi-bridge/src/token_transfer.rs:14-75 | transfers, entries of lost and found, and limits are positive in every reachable state |
| Upkeep.MintsGiveSomething | contracts/satoshi-bridge/src/btc_light_client/deposit.rs:22-110 | no fee eats up a deposit: every mint under way gives its recipient something |
| Upkeep.MintFinishes | contracts/satoshi-bridge/src/nbtc/mint.rs:49-94 | the callback of a mint registers the coin with its value and the recipient's account, or removes the mark and the count |
| Origins.QuestionsHaveTheirTerms | contracts/satoshi-bridge/src/btc_light_client/mod.rs:1-120 | every question under way was put by an earlier step on the terms of that time |
| Origins.AcceptedSpendIsAsked | contracts/satoshi-bridge/src/btc_light_client/withdraw.rs:9-68 | the light client is asked for the confirmations due for the amount the transaction pays out, and the relayer's delta |
| Origins.DepositTermsAreExact | contracts/satoshi-bridge/src/btc_light_client/deposit.rs:22-110 | a deposit is accepted for checking exactly when recipient, protocol and relayer share its value by the fee due |
| Origins.MintsHaveTheirTerms | contracts/satoshi-bridge/src/btc_light_client/deposit.rs:255-329 | every mint under way has the outpoint, recipient, minted amount, fees and kind of a deposit whose question is on record |
| Origins.DepositsCountForTheirBlock | contracts/satoshi-bridge/src/btc_light_client/deposit.rs:112-129 | an accepted deposit counts with its value for the block of its transaction |
| Origins.MintMatchesChain | contracts/satoshi-bridge/src/btc_light_client/deposit.rs:112-129 | a mint remembers the height and value to take back if it fails |
| RecordOrigins.StepCreates | contracts/satoshi-bridge/src/chain_signature.rs:125-203 | after any step every pending transaction was there before with the same terms, or the step created it on the terms of its request |
| RecordOrigins.RecordsHaveTheirTerms | contracts/satoshi-bridge/src/api/token_receiver.rs:80-152 | every pending transaction was created by an earlier request on its terms and still has them |
| RecordOrigins.RecordsMatchOutputs | contracts/satoshi-bridge/src/psbt.rs:154-247 | a pending withdrawal pays its recipient once, the transfer less gas and bridge fee; everything else is change; the record's amounts are those of the outputs |
| RecordOrigins.ReplacementsPayMore | contracts/satoshi-bridge/src/rbf/withdraw.rs:34-72 | when a replacement comes it pays more gas than anything pending of its family |
| RecordOrigins.SignaturesWereAsked | contracts/satoshi-bridge/src/chain_signature.rs:125-203 | an input counts as signed only if a signature for it was asked for |
| BurnOrigins.BurnsHaveTheirTerms | contracts/satoshi-bridge/src/nbtc/burn.rs:11-47 | every burn under way was scheduled at the depth asked for, for the recorded amount, with the fee split by the rates of that time |
| BurnOrigins.RefundsAreDeepest | contracts/satoshi-bridge/src/refund.rs:568-660 | a refund request waits for as many confirmations as any deposit of any amount could need |
| BurnOrigins.RefundsAreNotDeeper | contracts/satoshi-bridge/src/refund.rs:568-660 | and for no more than the largest amount needs with one of the deltas |
| BurnOrigins.RequestsHaveTheirTerms | contracts/satoshi-bridge/src/refund.rs:568-660 | every refund request was accepted on its terms: deep, unmarked, not requested before, with its gas and address |
| BurnOrigins.PendingRefundsWaited | contracts/satoshi-bridge/src/refund.rs:212-239 | a pending refund transaction was executed only after the wait due for its kind of address and caller |
| Guards.CancellationNeedsDaoExactly | contracts/satoshi-bridge/src/rbf/cancel_withdraw.rs:50-72 | a cancellation is open to everybody exactly when the user's own nBTC pays its gas, else to the DAO alone |
| Guards.CancellationMovesFees | contracts/satoshi-bridge/src/rbf/cancel_withdraw.rs:50-72 | without the DAO a cancellation leaves all fee counters alone; otherwise exactly the gas beyond the user's funds is reserved |
| Guards.RefundWaitIsExact | contracts/satoshi-bridge/src/refund.rs:212-239 | which of the three waits applies, to whom and to which address, in both directions |
| Guards.WithdrawLimitsSteerExactly | contracts/satoshi-bridge/src/psbt.rs:57-61 | the limits on a withdrawal hold exactly when it steers the number of coins after settlement the right way and stays within the numbers allowed |
| Guards.OneCoinToChangeKeepsTheNumber | contracts/satoshi-bridge/src/psbt.rs:57-61 | above the upper limit the number of coins falls unless a single coin goes to the change address |
| Acceptance.DeliveryIsAcceptedExactly | contracts/satoshi-bridge/src/psbt.rs:154-247 | the check of outputs passes exactly when payment, gas and change deliver the amount |
| Acceptance.WithdrawalIsAcceptedExactly | contracts/satoshi-bridge/src/api/token_receiver.rs:53-152 | a withdrawal is accepted exactly when a record on the terms exists, its coins and its slot are free, and it steers the number of coins |
| Acceptance.ManagementIsAcceptedExactly | contracts/satoshi-bridge/src/btc_light_client/active_utxo_management.rs:68-128 | the same for active management |
| Acceptance.WithdrawalRbfIsAcceptedExactly | contracts/satoshi-bridge/src/rbf/withdraw.rs:34-72 | a fee bump is accepted exactly when a record on the terms exists and it has room beside its original |
| Acceptance.WithdrawalCancelIsAcceptedExactly | contracts/satoshi-bridge/src/rbf/cancel_withdraw.rs:22-82 | the same for a cancellation, whose further reserve the available fee must cover |
| Acceptance.ManagementRbfIsAcceptedExactly | contracts/satoshi-bridge/src/rbf/active_utxo_management.rs:27-76 | the same for a gas increase of management |
| Acceptance.ManagementCancelIsAcceptedExactly | contracts/satoshi-bridge/src/rbf/cancel_active_utxo_management.rs:21-71 | the same for a cancellation of management |
| Acceptance.SpendIsAskedExactly | contracts/satoshi-bridge/src/btc_light_client/withdraw.rs:9-68 | verification can be asked for exactly for signed transactions whose original is pending |
| Acceptance.BurnStartsExactly | contracts/satoshi-bridge/src/btc_light_client/withdraw.rs:72-83 | a burn starts exactly from the depth that was asked for |
| Acceptance.RefundIsRequestedExactly | contracts/satoshi-bridge/src/refund.rs:568-660 | a refund request is recorded exactly on its terms |
| Acceptance.RefundIsExecutedExactly | contracts/satoshi-bridge/src/refund.rs:243-460 | a refund is executed exactly when open and on its terms |
| Completion.SigningCanBeCompleted | contracts/satoshi-bridge/src/chain_signature.rs:125-203 | from every reachable state everything pending, but for orphans, can be signed input by input until it awaits verification |
| Configuration.ChargedFeeIsDue | contracts/satoshi-bridge/src/config.rs:30-35 | the fee is the proportional amount rounded down but at least the minimum, stated without division |
| Configuration.ProtocolPartIsDue | contracts/satoshi-bridge/src/config.rs:37-41 | the protocol's part is its share of the fee rounded down |
| Configuration.DepositsLeaveSomethingExactly | contracts/satoshi-bridge/src/config.rs:175-178 | a fair rate leaves something of every deposit that is large enough exactly when the smallest deposit exceeds the least fee |
| Configuration.BoundsAreExclusive | contracts/satoshi-bridge/src/config.rs:217-241 | just below a bound its own tier applies, from it on the next one's |
| ZcashPsbt.EveryVersionReadsBack | contracts/satoshi-bridge/src/zcash_utils/psbt_wrapper.rs:288-418 | what each version of the format has written reads back as the same PSBT, with no bytes left |
| CompactTxid.TxidIsTheTree | contracts/satoshi-bridge/src/zcash_utils/compact_txid.rs:106-151 | the txid is the root of the tree of digests with the personalizations and order of ZIP 244 |
| JsonTemplate.AcceptedPathsAreAllowed | contracts/satoshi-bridge/src/json_utils.rs:14-56 | every path of an accepted message is a path of the template with a value of the kind there |
| JsonTemplate.AcceptanceByPaths | contracts/satoshi-bridge/src/json_utils.rs:14-56 | without arrays, a message is accepted exactly when all its paths are allowed |

## Left out

- ConfirmationSafety.AcceptedDepositsAreDeep: excludes runs in which the accepted total of a block leaves 128 bits, which needs more than 2^64 deposits.
- ForgottenBlocks.DeltasAreSafeExactly: deltas are unbounded numbers; the runs that show the condition necessary use deltas of 8 bits whenever the configuration and the delta in question have 8 bits, and one deposit just below a tier's bound, which is one of 64 bits whenever the bounds are.
- ZcashPsbt.RoundTrip: shielded bundles are any encoding that reads back what it wrote and reads a zero byte as no bundle; the check of UTF-8 is any predicate; the hexadecimal text around the bytes is not modelled.
- CompactTxid.TxidBindsProof: the hash is any function with 32-byte results, so the claim is equality or an explicit collision; the digests of absent bundles are not computed.
- Bridge.Contract.VerifyDeposit: checks of the deposit's message and of its post-actions are not modelled.
- Bridge.Contract.RequestRefund: parsing of addresses is not modelled, an address is its script.
- Bridge.Contract.UpdateConfig: changes of account ids are not modelled; fields that an update leaves out are passed with their present values.
- The contract's fields are grouped in records of coins, books and fees that its methods update; aliasing between them does not arise.
- `complete_failed_deposit_mint`: a repair by the DAO whose justification is not part of the state.
- Roles, pausing, relayer lists, gas, attached deposits and storage fees, except where a step's guard depends on them.
- Reorganisations of the chain, and a light client whose tip goes back.
- Bounds of 128-bit and 64-bit counters outside the ring and the byte formats; an overflow reverts a call and only removes steps.
- The asynchronous withdrawal, replacement and refund paths of the Zcash build, its fee rule and shielded outputs.
- Addresses, key derivation, signatures, sighashes and transaction bytes: scripts and signatures are abstract, and a transaction is its own id.
- Post-actions, message limits, and the injection of an output id into a safe deposit's message.
- Events, views, paging, storage migrations and text formats.
