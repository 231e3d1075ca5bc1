# Quant node: a verified model of its consensus core

Dafny 4.11 model of the part of the Quant node that decides what the chain is and what it is worth: the
multi-asset ledger with its constant-product pools, the chain state with reorganisations, undo data and
indexes, the mempool and block template, the emission curve, 256-bit arithmetic with compact targets and
retargeting, Merkle proofs, canonical encodings and state snapshots.

`dafny verify dfyconfig.toml` checks everything.

## How it is laid out

- `Types`, `Arith`, `Sums`, `Sorting`: amounts (64-bit, every wrap written out), hashes, coins, pools; inequalities; sums
  over maps; sorting a set.
- `Amm`: quotes, shares and the no-dilution laws of a pool.
- `Ledger`, `LedgerLaws`, `Admission`, `LedgerView`, `BasicChecks`: what a transaction does, what that conserves, exactly
  when it is accepted, the class that does it on nested overlays, and the context-free checks.
- `Emission`, `Replay`, `Chronicle`, `Supply`, `Undo`: the issued total and its cache, blocks as functions on states, what
  a replayed chain leaves told of its transactions, the supply ceiling, and undo data.
- `BlockTree`, `ChainLedger`, `Commitments`, `Rejoin`: the header tree with its skip list and worklists, the tables
  kept beside the ledger, state commitments in headers and which of them get checked, why a block that connected once
  connects again, and what is wrong with a block that failed.
- `ChainSteps`, `Chainstate`: what every step keeps, on values, and the class that connects, disconnects, fails and
  chooses. `Scenarios`, `Unchecked` and `LateWitness` are concrete runs and states at the edge of the rules for choosing.
- `Selection`, `Mempool`, `Node`: the greedy pass, signatures that stay valid, the block template, the class, and
  the mempool following the chain through the callbacks of a whole search.
- `Limbs`, `U256`, `Pow`, `Retarget`, `HeaderRules`, `HeaderSync`: limb arithmetic, compact targets, LWMA-1, in which
  direction it moves the target, and the rules on target and time over the whole header tree.
- `Merkle`, `Codec`, `TxCodec`, `Buffers`, `Wire`: proofs, formats, readers and writers, and the formats byte by byte.
- `Snapshot`, `SnapshotLimits`, `SnapshotLoad`, `SnapshotSync`: the one byte string of a state, why every replayed state
  has one, loading, and why a node that starts from one agrees with those that replayed everything.

Every function that only computes has its meaning proved apart from its steps: acceptance as conditions on transaction
and state (`ApplyIff`), coins as unspent outputs (`ReplayRecorded`), the next target as lateness times average
(`RetargetFormula`), the greedy pass as the one marking of its kind (`PickIsGreedy`), formats as rows of bytes (`CoreIsWire`,
`SnapshotIsWire`), Merkle trees from the top (`RootSplits`).

Where the program changes things in place the model has a class or an array and each method is proved against a
function of the old state; what the program is for is then proved of those functions and of whole runs.

The main invariant is `Chainstates.Chainstate.Valid`: after any sequence of headers and blocks, coins, tokens, pools,
address index, supply counter, transaction index and undo files all are what replaying the active chain from genesis gives;
the snapshot hashes held of that chain are those of the replayed states, and the newest; every commitment on it is right or
went unchecked; the tree, its skip pointers, the failed and complete sets, the candidates and the best header are exact;
every block of the chain would connect again; and no block is failed unless it, or one below it, commits to the wrong state,
does not connect unsigned, or does not connect with witnesses that its header commits to.

## What is assumed

Hashes are numbers and hash functions are parameters: transaction ids do not collide (`TxidsIdeal`); token ids,
share ids and the zero id never meet (`AssetsIdeal`); inner Merkle nodes and state hashes do not collide, where a
statement says so. That the ids of a chain's own transactions fit 32 bytes is a hypothesis where bytes are written
(`SnapshotLimits.InLimits`). Signature verification is an arbitrary predicate, and so is which witnesses have
the witness root in a header (`Network.witnessOk`). The coinbase maturity is positive where a
block's own coinbase must be out of its reach.

## Where the code does less than intended

- Two outputs in range can sum to 2^64 or more, and both the running sum of the basic checks and the coinbase total
  are 64-bit sums. `OutputSumIff` and `RewardRuleIff` say exactly when the checks mean what they are meant to
  mean; `SumCheckWraps` and `CeilingNeedsFit` are concrete failures. The supply ceiling therefore carries the
  condition that coinbase sums fit 64 bits. Flows inside a transaction are 128-bit and safe (`FlowsFit`).
- Only the three newest snapshot hashes are kept, and a commitment whose snapshot is not held is not checked. That is so
  exactly when the chain has been three intervals above the snapshot since its block was last connected (`UncheckedIff`), so
  only after the chain was once more than three intervals less the delay below its greatest height (`NoneSkipped`). A
  pruned node cannot go back further than 5,040 blocks, so with intervals of 10,080 and a delay of 100 it checks every
  commitment; with regtest's 50 and 5, or on a node that keeps everything, it may not. `WrongCommitment` is a run that
  ends with a wrong commitment on the active chain. What a header commits to is therefore right if it was always checked, if
  the snapshot is still held, or if pruning depth and intervals go together like that (`HeadersCommit`, `Vouched`,
  `AlwaysChecks`), and what is built on commitments carries that condition.
- A block that went unchecked may be found invalid when it is connected a second time. A search then may fail blocks of the
  chain it left, and forget a better one: `BestChainForgotten` is such a run, without pruning, with all witnesses and with
  no search that stopped short.
- The tip has maximal work among the usable blocks in every run in which no commitment went unchecked and no search for the
  best chain stopped short (`RunFromGenesis`), and none does without pruning when blocks come with their witnesses.
  Candidates lighter than the tip are dropped, though, and a search that stops short may leave the chain below its old tip.
  If that tip is then found invalid, its witnesses having come only after it was first connected, a dropped block may be the
  best one left and is not reconsidered: `MissedAfterStall` is such a state. A caller can tell beforehand: the search ends
  best if all commitments of the chain are right and every usable block as heavy as the tip is a candidate
  (`ActivateBestChain`), and where no candidate beats the tip that is also needed, for heavier blocks (`RestsBestIff`).
- A candidate of equal work never starts a switch. After a failed switch to a heavier block, though, the tip is
  chosen again among all candidates, the earliest of equal work first, so it need not be the old tip:
  `TieDisplacesTip` is such a run. It is the old tip whenever no other usable block is as heavy (`ReturnsHome`), and
  surely if all those as heavy stand on blocks that do not connect (`ComesBack`).
- A proportional share of 2^64 or more counts as 0, so a deposit far out of proportion to a small pool is offered no shares
  (`AddSharesIff`); withdrawals never meet that (`RemoveIff`). What a message pays its recipient counts modulo 2^64 (`OpIff`).
- When the targets of the window sum to less than n times k, the retarget quotient is zero and the easiest target is
  taken instead (`RetargetBounds`).
- `work_from_target(0)` is 0; a target of 0 is refused before it matters.

## Model

| member | source | states |
|---|---|---|
| Amm.MulDivIff | src/consensus/ledger.cpp:17-21 | an amount is at most the proportional share if and only if it is 0 or its product with the divisor is at most the exact product, which is below 2^64 times the divisor |
| Amm.QuoteExact | src/consensus/ledger.cpp:23-30 | on nonzero arguments the quote is the exact fee-adjusted quotient, the 64-bit test never cutting it, and always below the output reserve |
| Amm.QuoteReaches | src/consensus/ledger.cpp:23-30 | the quote reaches an output if and only if the input meets the linear inequality of the product rule |
| Amm.QuoteIff | src/consensus/ledger.cpp:23-30 | for all inputs and reserves, empty ones included: exactly the outputs below the reserve that the product rule allows may be asked for |
| Amm.QuoteMonotone | src/consensus/ledger.cpp:23-30 | a larger input never gets a smaller quote |
| Amm.SwapProduct | src/consensus/ledger.cpp:23-30 | paying at most the quote never lowers the product of the reserves, even counting only the part after the fee |
| Amm.QuoteIn | src/consensus/ledger.cpp:32-42 | the least input: a quote reaches the output if and only if the input is at least the result; and exactly when the result is 0 instead |
| Amm.InitialShares | src/consensus/ledger.cpp:44-58 | the Newton loop ends and returns the integer square root of the product, for all 64-bit inputs, without leaving 128 bits |
| Amm.RootUnique | src/consensus/ledger.cpp:44-58 | one number only has its square at most and its successor's square above a given number |
| Amm.StartAboveRoot | src/consensus/ledger.cpp:47-50 | the starting power of two is strictly above the root |
| Amm.NewtonStep | src/consensus/ledger.cpp:51-55 | a step from above the root stays at or above it, and a step that does not descend has arrived |
| Amm.AddSharesIff | src/consensus/ledger.cpp:60-65 | shares may be asked for a deposit if and only if both sides pay for them in proportion, neither quotient leaving 64 bits |
| Amm.RemoveIff | src/consensus/ledger.cpp:67-70 | for shares there are, amounts may be asked for if and only if they are at most in proportion to the reserves |
| Amm.AddNoDilution | src/consensus/ledger.cpp:60-65 | adding liquidity for at most the shares offered never lowers reserves per share squared |
| Amm.RemoveNoDilution | src/consensus/ledger.cpp:67-70 | neither does removing at most the amounts offered |
| Amm.BuyNoDilution | src/consensus/ledger.cpp:248-258 | nor buying at most the quote |
| Amm.SellNoDilution | src/consensus/ledger.cpp:248-258 | nor selling at most the quote |
| Amm.NoDilutionTrans | src/consensus/ledger.cpp:212-264 | not diluting is transitive, so operations that each do not dilute a pool do not dilute it together |
| Amm.ReservesPositive | src/consensus/ledger.cpp:219-258 | a pool with at least the locked shares and shares squared at most the product has positive reserves |
| BasicChecks.CheckTxBasic | src/consensus/ledger.cpp:84-139 | the loops return exactly the first failing check; there is none if and only if the transaction is well-formed and, where expected, has a witness for each input |
| BasicChecks.BasicIff | src/consensus/ledger.cpp:84-139 | passing the checks is equivalent to a loop-free description: shape, distinct inputs, every output in range, every prefix sum within the limit, every op in order, at most one message |
| BasicChecks.OpIff | src/consensus/ledger.cpp:111-136 | an op passes if and only if its fields are in their stated ranges and character sets and, for a message, its recipient is paid the gift or the dust limit, counted modulo 2^64 |
| BasicChecks.CheckOutputs | src/consensus/ledger.cpp:98-110 | the output loop against its specification, with the 64-bit running sum |
| BasicChecks.OutputSumIff | src/consensus/ledger.cpp:98-105 | of a transaction that passes, the true QNT sum is within the money limit if and only if it fits 64 bits |
| BasicChecks.SumCheckWraps | src/consensus/ledger.cpp:98-105 | a concrete transaction that passes although its QNT outputs sum to 2^64 |
| BasicChecks.FlowsFit | src/consensus/ledger.cpp:188-199 | within the decoder's limits no per-asset flow leaves 128 bits |
| LedgerLaws.PoolOpSound | src/consensus/ledger.cpp:219-258 | every pool operation keeps the pool's invariant, does not dilute it, and moves exactly its declared amounts |
| LedgerLaws.RemoveFromGood | src/consensus/ledger.cpp:238-247 | removing liquidity from a sound pool never underflows a 64-bit subtraction |
| LedgerLaws.RunOpsSound | src/consensus/ledger.cpp:212-264 | any sequence of operations in one transaction keeps pools sound and balances flows against pools and minted tokens, asset by asset |
| LedgerLaws.RunOpsTokens | src/consensus/ledger.cpp:214-218 | tokens minted are new and every pool is of a known token |
| LedgerLaws.ApplyConserves | src/consensus/ledger.cpp:184-301 | an accepted transaction changes the total of each asset by nothing, and of QNT by exactly the fee |
| LedgerLaws.ApplyKeepsLedger | src/consensus/ledger.cpp:184-301 | the ledger invariant (sound pools, known tokens, token and share totals) survives every accepted transaction |
| LedgerLaws.TokenTotal | src/consensus/ledger.cpp:266-280 | in coins plus its pool, each token's total is its declared supply |
| LedgerLaws.ShareTotal | src/consensus/ledger.cpp:224-247 | each pool's shares are the share coins plus the locked minimum |
| LedgerLaws.UnknownAssetsAbsent | src/consensus/ledger.cpp:266-280 | no coin carries an asset that was never created |
| LedgerLaws.ApplyIsFresh | src/consensus/ledger.cpp:192-198 | an accepted transaction's id was never used before |
| LedgerLaws.ApplyKeepsHist | src/consensus/ledger.cpp:287-292 | the history invariant behind that (spent outpoints never return) survives it |
| LedgerLaws.CoinbaseIsFresh | src/consensus/ledger.cpp:179-182 | a coinbase of a new height has a new id |
| LedgerLaws.CoinbaseKeepsLedger | src/consensus/ledger.cpp:179-182 | a coinbase keeps the invariant and adds its QNT outputs |
| LedgerLaws.VerifyOnlyRejects | src/consensus/ledger.cpp:282-285 | checking signatures can reject a transaction but never changes what it does |
| LedgerLaws.EveryInputSigned | src/consensus/ledger.cpp:141-159 | after full verification every input's address is matched by a key whose signature covers this transaction |
| LedgerLaws.VerifyFromIff | src/consensus/ledger.cpp:141-159 | the witnesses pass if and only if every input has its own valid signature or points back at one, for the same address, that an earlier input carries |
| LedgerLaws.SignedIff | src/consensus/ledger.cpp:282-285 | a transaction applies with witnesses checked if and only if it applies without and every input is so signed, one witness for each |
| LedgerViews.LookupsAgree | src/consensus/ledger.cpp:162-177 | lookups through any depth of overlays are lookups in the flattened state |
| LedgerViews.LedgerView.GatherInputs | src/consensus/ledger.cpp:192-198 | the input loop: the first missing or immature input decides |
| LedgerViews.LedgerView.ExecOps | src/consensus/ledger.cpp:201-264 | operations against lazily loaded scratch pools do what they do on the whole state |
| LedgerViews.LedgerView.CheckBalance | src/consensus/ledger.cpp:266-280 | the balance loop over assets in order gives the fee, or the right error |
| LedgerViews.LedgerView.VerifySigs | src/consensus/ledger.cpp:141-159 | the signature loop against its specification |
| LedgerViews.LedgerView.Apply | src/consensus/ledger.cpp:184-301 | the view afterwards presents exactly the specified state with the specified fee, or nothing changed and the error is the specified one; a lock height not reached is refused before anything else, and on sound pools the transaction is accepted if and only if it is admissible and, where asked, signed for |
| Admissions.PoolOpIff | src/consensus/ledger.cpp:219-258 | each pool operation goes through if and only if its inequalities on reserves, shares and limits hold, and leaves exactly the reserves and shares they speak of |
| Admissions.ApplyIff | src/consensus/ledger.cpp:184-301 | a transaction is accepted if and only if its lock height is reached, its inputs are there and ripe, its operations have a course through the pools, every asset comes in as it goes out, QNT with a fee within the limit, and each input is signed for; the fee, coins, tokens with their entries and pools afterwards are told too |
| LedgerViews.LedgerView.AddCoinbase | src/consensus/ledger.cpp:179-182 | the view afterwards presents the state with the coinbase's coins |
| LedgerViews.CommitOverlay | src/consensus/ledger.cpp:287-297 | committing into an overlay, wherever the coins and pools came from, is committing into the state below it |
| Emission.IssuedCache.IssuedThrough | src/consensus/params.cpp:28-48 | for every height and any order of calls the cached total is the one-step recurrence, modulo 2^64 |
| Emission.IssuedCache.Extend | src/consensus/params.cpp:33-42 | one more checkpoint, finding the first tail block if it is there |
| Emission.IssuedCache.Subsidy | src/consensus/params.cpp:50-53 | the subsidy of every height while the total fits 64 bits: above the tail exactly the remaining curve shifted right by 23, the tail exactly once that would not exceed it |
| Emission.SubsidyExact | src/consensus/limits.h:61-64 | the same of the curve, with the total as the sum of the subsidies |
| Emission.FirstSubsidy | src/consensus/limits.h:61-64 | block 1 pays 89,406,967,163 units and genesis nothing |
| Emission.SubsidyNeverRises | src/consensus/limits.h:60-64 | after block 1 the subsidy never increases |
| Emission.TailReached | src/consensus/limits.h:60-64 | the tail is paid by height 13,100,000 |
| Emission.TailForever | src/consensus/limits.h:60-64 | and for ever after it is first paid |
| Emission.TailIsLinear | src/consensus/params.cpp:32-32 | from the first tail block on, the total grows by the tail subsidy a block |
| Replay.TotalQntOut | src/primitives/transaction.cpp:127-131 | the 64-bit sum of QNT outputs |
| Replay.TotalOutWraps | src/primitives/transaction.cpp:127-131 | which is the true sum modulo 2^64 |
| Replay.FeesWrap | src/chain/chainstate.cpp:769-773 | the 64-bit sum of a block's fees is the true one modulo 2^64 |
| Replay.ApplyAllSound | src/chain/chainstate.cpp:766-773 | any accepted sequence of transactions keeps the ledger sound, creates no outpoint twice, removes no pool and takes no value per share from any, and lowers QNT by exactly the true fees |
| Replay.ConnectSound | src/chain/chainstate.cpp:766-774 | so does a block, pools included, and it adds its coinbase's true sum |
| Replay.ReplaySound | src/chain/chainstate.cpp:766-785 | along every chain from genesis: token, share and pool totals hold and no transaction id, hence no outpoint, ever repeats |
| Replay.PoolsNeverDiluted | src/chain/chainstate.cpp:766-785 | between any two heights of any replayed chain no pool disappears, and none is worth less per share at the higher one |
| Chronicles.ReplayRecorded | src/chain/chainstate.cpp:766-785 | on every replayed chain the coins are exactly the outputs that no transaction of it has spent, with their heights and coinbase marks; the tokens exactly those created, with what was declared, where and when; every input spends an earlier output nobody else spends; no coinbase is spent before maturity; and every lock height is at most the height of its block |
| Selections.ConnectSignedIff | src/chain/chainstate.cpp:755-774 | a block connects with signature checks if and only if it does without and each of its transactions is signed for against the outputs its inputs name |
| Nodes.ChainIsSigned | src/chain/chainstate.cpp:747-774 | in every reachable state the transactions of a block of the active chain whose witnesses are kept are all signed for with them |
| Replay.ConnectVerified | src/chain/chainstate.cpp:755-774 | a block that connects with signature checks connects without them, to the same state |
| Supply.ApplyAllFrame | src/consensus/ledger.cpp:192-198 | a block's transactions cannot see its own coinbase: same acceptance, fees and effect with or without it |
| Supply.RewardRuleIff | src/chain/chainstate.cpp:774-774 | a connected block pays itself at most subsidy plus fees if and only if its coinbase's true sum fits 64 bits |
| Supply.SupplyCeiling | src/chain/chainstate.cpp:766-785 | QNT in coins and pools never exceeds the issued total, on every chain whose coinbases fit 64 bits |
| Supply.CeilingIff | src/chain/chainstate.cpp:766-785 | the condition is exact: a chain is at or under the issued total at every height if and only if all its coinbases fit |
| Supply.CeilingNeedsFit | src/primitives/transaction.cpp:127-131 | a concrete chain of two blocks that replays and holds 2^64 units, more than was issued |
| Supply.CounterIsSupply | src/chain/chainstate.cpp:555-568 | a 64-bit counter that follows the supply is the supply, and at most the issued total |
| Undos.UndoRestores | src/chain/chainstate.cpp:776-811 | what a view remembers of a connected block takes every coin, token and pool back exactly, and returns no coin onto another |
| Undos.OutputsAreNew | src/chain/chainstate.cpp:800-804 | the outputs a disconnect drops are the block's own |
| BlockTree.WalkUp | src/chain/chainstate.cpp:96-104 | the skip walk ends and finds the same ancestor as walking parents |
| BlockTree.Ancestor | src/chain/chainstate.cpp:93-105 | so does the whole function, shortcut through the active chain included, and it fails exactly outside the heights |
| BlockTree.ChainUp | src/chain/chainstate.cpp:95-95 | on the active chain, ancestors are read off by height |
| BlockTree.InvertLowestOneBits | src/chain/chainstate.cpp:88-88 | the recurrence used for clearing the lowest bit holds of the machine operation |
| BlockTree.AddNodeSkips | src/chain/chainstate.cpp:134-137 | adding a header keeps every skip pointer right |
| BlockTree.FindFork | src/chain/chainstate.cpp:828-829 | the fork is a common block of both branches and none is higher |
| BlockTree.PathTo | src/chain/chainstate.cpp:837-839 | the blocks above the fork, lowest first |
| BlockTree.CollectAbove | src/chain/chainstate.cpp:692-699 | the worklist ends and visits exactly the descendants |
| BlockTree.Complete | src/chain/chainstate.cpp:632-640 | the worklist ends with exactly the blocks whose ancestors all have data |
| BlockTree.BetterIsTotal | src/chain/chainstate.h:167-173 | no two blocks tie in the candidate order, so a set ordered by it loses none |
| ChainLedger.IndexUnique | src/chain/chainstate.cpp:555-568 | the address index is determined by the coins |
| ChainLedger.ReplaysIff | src/chain/chainstate.cpp:766-785 | a state is reached by a run of a chain from genesis if and only if it is the computed replay |
| ChainLedger.ReplayConnect | src/chain/chainstate.cpp:747-792 | connecting gives the replay of the longer chain, its transaction index, and undo data that takes it back |
| ChainLedger.ReplayDisconnect | src/chain/chainstate.cpp:794-811 | disconnecting gives the replay of the shorter chain, its transaction index, and keeps the rest of the undo data right |
| ChainLedger.TxIndexExact | src/chain/chainstate.cpp:786-787 | on every replayed chain the transaction index has exactly the ids of its transactions, each with the block it is in |
| Chainstates.Chainstate.constructor | src/chain/chainstate.cpp:143-222 | a fresh node holds genesis and satisfies the whole invariant |
| Chainstates.Chainstate.AddCoin | src/chain/chainstate.cpp:555-559 | sets the coin, and for a new outpoint keeps address index and supply counter in step |
| Chainstates.Chainstate.SpendCoin | src/chain/chainstate.cpp:561-568 | likewise, an absent coin being no change |
| Chainstates.Chainstate.SetPool | src/chain/chainstate.cpp:742-745 | likewise for pools |
| Chainstates.Chainstate.BuildView | src/chain/chainstate.cpp:766-774 | the block's overlay presents exactly the connected state, or the block does not connect |
| Chainstates.Chainstate.WriteBack | src/chain/chainstate.cpp:782-785 | writing the overlay back gives that state |
| Chainstates.Chainstate.WriteSnapshot | src/chain/chainstate.cpp:333-341 | at a snapshot height the hash of the state is kept, and then the newest three; at any other nothing changes |
| Chainstates.Chainstate.KeepNewest | src/chain/chainstate.cpp:342-349 | sorting the held hashes by height on the chain and dropping all but the first three leaves those with fewer than three ahead of them |
| Chainstates.Chainstate.ConnectBlock | src/chain/chainstate.cpp:747-792 | stalls exactly when the block cannot be read or lacks a recent witness, fails exactly when its commitment contradicts a hash that is still held or its transactions do not connect; else the ledger equals the replay of the chain with the block on top, the undo file is there, and exactly the files too deep are gone |
| Chainstates.Chainstate.BaseBlock | src/chain/chainstate.cpp:758-759 | the snapshot block of a commitment, found as an ancestor, is the one on the active chain |
| Commitments.SnapsNext | src/chain/chainstate.cpp:333-350 | connecting a block keeps this true: on the active chain exactly the snapshots are held that the chain has not been three intervals above since they were connected, each the hash of the replayed state; and every commitment is right or went unchecked |
| Commitments.SkipsIff | src/chain/chainstate.cpp:757-764 | a commitment goes unchecked if and only if the chain has been three intervals above its snapshot block since that was last connected |
| Commitments.SkippedDeep | src/chain/chainstate.cpp:757-764 | which takes a chain that was once more than three intervals less the delay below its greatest height |
| Commitments.HeightsIff | src/consensus/params.h:29-32 | snapshots are at the positive multiples of the interval, and with a delay below the interval commitments exactly the delay above them |
| Chainstates.Chainstate.UncheckedIff | src/chain/chainstate.cpp:757-764 | in every reachable state, exactly when the commitment of the next block cannot be checked |
| Chainstates.Chainstate.NoneSkipped | src/chain/chainstate.cpp:757-764 | in every reachable state, if no commitment went unchecked all on the active chain are right; none did unless the chain was ever more than three intervals less the delay below its greatest height; and a pruned node is never more than 5,040 below it, so that its parameters decide |
| Chainstates.Chainstate.HeadersCommit | src/chain/chainstate.cpp:757-764 | in every reachable state a header of the active chain at a commitment height carries the hash of the replayed state at the snapshot's block, if its commitment was always checked, or that snapshot is still held, or the node prunes and its depth of 5,040 and the delay are within three intervals |
| UncheckedRun.WrongCommitment | src/chain/chainstate.cpp:757-764 | a concrete run, nothing pruned and no witnesses missing, that ends with a wrong commitment on the active chain: the chain was three intervals above the snapshot before it switched to a branch from below |
| UncheckedRun.BestChainForgotten | src/chain/chainstate.cpp:757-764 | the run goes on: a failed switch finds the block it came from invalid, and the search settles below a valid, complete, heavier chain, although none ever stopped short |
| Chainstates.Chainstate.DisconnectTip | src/chain/chainstate.cpp:794-811 | succeeds exactly above genesis with undo data, which is always there without pruning; then the ledger equals the replay of the chain without its tip; else nothing changed |
| Chainstates.Chainstate.PruneAt | src/chain/chainstate.cpp:813-819 | dropping deep files keeps the invariant |
| Chainstates.Chainstate.UndoIff | src/chain/chainstate.cpp:813-819 | in every reachable state a block above genesis can be taken back if and only if nothing is pruned or the chain has not been 5,040 above it since it was connected |
| Chainstates.Chainstate.ForkInReach | src/chain/chainstate.cpp:596-599 | so a chain at its greatest height can be taken back to wherever the branch of a header that is accepted leaves it |
| Chainstates.Chainstate.MarkFailed | src/chain/chainstate.cpp:691-703 | exactly the block and its descendants become failed, and the best header is the heaviest of the rest |
| Chainstates.Chainstate.UpdateChainData | src/chain/chainstate.cpp:630-641 | the set of complete blocks and the candidates stay exact |
| Chainstates.Chainstate.BestCandidate | src/chain/chainstate.cpp:685-689 | the heaviest candidate, the earliest to arrive among equals, if it is heavier than the tip; else the tip |
| Chainstates.Chainstate.Rewind | src/chain/chainstate.cpp:830-834 | the chain shrinks to the fork, or to a sound prefix above it whose undo data was pruned |
| Chainstates.Chainstate.TryConnect | src/chain/chainstate.cpp:841-849 | connects, stalls with nothing changed, or fails exactly the descendants of a block that does not connect |
| Chainstates.Chainstate.ConnectNext | src/chain/chainstate.cpp:747-792 | a child of the tip is connected, or the node is stuck, or the block can be read and does not connect; the tree side of the invariant holds in each case |
| Chainstates.Chainstate.ConnectPath | src/chain/chainstate.cpp:837-849 | the chain grows to the candidate, stalls, or fails at least one more block; the ledger is the replay of the chain in each case |
| Chainstates.Chainstate.Rounds | src/chain/chainstate.cpp:824-852 | every retry but the last has marked another block failed, so the retry limit is never reached below 999,999 blocks |
| Chainstates.Chainstate.ActivateBestChain | src/chain/chainstate.cpp:821-861 | the invariant holds at every exit; a stall has a cause in sight, a usable child of the tip that is blocked or pruned undo data; otherwise it settles, no block of the old chain has failed if its commitments are right, and if in addition before the call every usable block as heavy as the tip was a candidate, or if the heaviest earlier tip is still usable, the tip has maximal work among the non-failed blocks with complete data, and the next call starts from such a state again |
| ChainSteps.SettledMeans | src/chain/chainstate.cpp:824-855 | where a search ends: the old chain spared if its commitments are right, nothing changed if and only if no candidate beat the old tip, the tip best under the condition above, and otherwise first among the surviving candidates or right below the block that failed last |
| ChainSteps.RestsBestIff | src/chain/chainstate.cpp:853-855 | when no candidate beats the tip, the tip is best if and only if every heavier usable block is a candidate |
| ChainSteps.ReturnsHome | src/chain/chainstate.cpp:824-855 | after failed switches, if no usable block is heavier than the old tip and no other is as heavy, the chain is the old chain |
| ChainSteps.ComesBack | src/chain/chainstate.cpp:824-855 | told from the state before the call: if every usable block as heavy as the tip stands on a block that connects to no replay of its branch, the chain afterwards is the old chain |
| ChainSteps.NeverStuck | src/chain/chainstate.cpp:747-754 | without pruning, and with a witness file for every stored block, no search is ever stuck |
| Rejoins.Rejoining | src/chain/chainstate.cpp:747-774 | a block of a chain that was once connected connects in its place again, whatever was connected in between; and its commitment passes if those of that chain are right |
| Rejoins.RefusedIsBad | src/chain/chainstate.cpp:843-849 | a block that is refused commits to the wrong state there, or does not connect there even unsigned, or not with witnesses that its header commits to |
| Rejoins.GoodConnects | src/chain/chainstate.cpp:661-677 | a block that connects with the only witnesses its header commits to is not one of these |
| Rejoins.FailedMore | src/chain/chainstate.cpp:691-703 | marking it keeps this true: no block is failed unless it or one below it is bad in that sense on top of its own branch |
| Rejoins.SoundNeverFails | src/chain/chainstate.cpp:691-703 | so no block is failed on a branch whose commitments are right and whose blocks connect, unsigned and with all witnesses that their headers commit to |
| Rejoins.HomeSpared | src/chain/chainstate.cpp:821-849 | and so a failed switch never marks a block of the chain it left, if the commitments of that chain are right |
| Scenarios.TieDisplacesTip | src/chain/chainstate.cpp:685-689 | a concrete run of five blocks in which a failed switch ends on a block of the same work as the old tip that arrived earlier |
| LateWitness.MissedAfterStall | src/chain/chainstate.cpp:650-657 | a valid state, left by a search that stopped short, in which the search settles below a usable heavier block |
| Chainstates.Chainstate.AddIndex | src/chain/chainstate.cpp:126-141 | the tree with one more block, its skip pointer, its arrival number, and the best header |
| Chainstates.Chainstate.AcceptHeader | src/chain/chainstate.cpp:578-608 | which of the four results, exactly; a new header stands one above its parent with its own work added and the next arrival number, and is one whose parent is usable and leaves the active chain within the undo depth |
| Chainstates.Chainstate.CheckBody | src/chain/chainstate.cpp:661-677 | the body checks hold if and only if the body is as described |
| Nodes.BodyOkIff | src/chain/chainstate.cpp:661-677 | that description, told of the transactions: one coinbase, first and locked to the height, each well-formed with its witnesses, no id twice, roots and size right |
| Chainstates.Chainstate.StoreBlock | src/chain/chainstate.cpp:611-628 | storing a body leaves the ledger alone and keeps its witnesses unless they are to be pruned |
| Chainstates.Chainstate.AcceptBlock | src/chain/chainstate.cpp:643-683 | exactly when a block is accepted, stored and acted upon; the invariant; that a rejected block leaves chain and ledger alone; how the search ended, with the cause of a halt and the best-chain result; and that witnesses with every block and no pruning rule a halt out |
| Chainstates.Chainstate.Run | src/chain/chainstate.cpp:578-861 | the whole invariant after any sequence of headers and blocks, reorganisations and failed reorganisations included; if no search stopped short and no commitment went unchecked the tip stays best, and if nothing is pruned and blocks come with witnesses none stops short below 999,999 blocks |
| Chainstates.RunFromGenesis | src/chain/chainstate.cpp:143-861 | the same from a fresh node: in every run in which no search stopped short and no commitment went unchecked the tip has maximal work among the non-failed blocks with complete data; none goes unchecked, and all on the active chain are right, if the chain was never more than three intervals less the delay below its greatest height, which on a pruned node follows from the parameters; and in every run without pruning whose blocks come with witnesses no search stops short, below 999,999 blocks |
| Chainstates.Chainstate.ValidMeans | src/chain/chainstate.cpp:555-575 | what the invariant says: coins, tokens, pools, address index and transaction index are the replay of the active chain, the coins its unspent outputs, the tokens those created, the index exact; the ledger is sound, and the supply counter is the supply, at most the issued total when coinbases fit 64 bits |
| Selections.PickApplies | src/chain/mempool.cpp:107-125 | what a greedy pass keeps is a sublist that applies in order with exactly the fees counted, within the size limit |
| Selections.PickIsGreedy | src/chain/mempool.cpp:107-125 | there is exactly one way to mark a list so that an entry is marked if and only if it fits and applies behind those marked before it; the pass picks the marked ones, at the fees they pay there |
| Selections.PickKeepsAll | src/chain/mempool.cpp:33-48 | a list that applies as a whole loses nothing |
| Selections.SignedVerifies | src/chain/mempool.cpp:38-38 | signatures checked once, in any state, hold in every state that accepts the transaction, because an outpoint always names the same output |
| Selections.ReplayProvenance | src/consensus/ledger.cpp:287-292 | on every chain each coin is the output its outpoint's transaction made |
| Selections.TemplateConnects | src/miner/miner.cpp:13-39 | a template connects to the chain, signatures included, and its body is acceptable if and only if the reward is within the money limit |
| Selections.TemplatePays | src/miner/miner.cpp:23-36 | the coinbase pays the whole reward, if any, in one QNT output to the payout address, with the tag cut to 60 bytes and the nonce behind it |
| Mempools.Mempool.Rebuild | src/chain/mempool.cpp:33-48 | afterwards the mempool is clean and holds exactly the entries the greedy pass keeps |
| Mempools.Mempool.Accept | src/chain/mempool.cpp:73-105 | accepted if and only if the checks, the dry run on a nested view, the fee and the space allow it; then the commit succeeds with the dry run's fee; else the list is only brought up to date |
| Mempools.Mempool.Screen | src/chain/mempool.cpp:78-98 | the two early tests, known id and spent input, never change the verdict |
| Mempools.AcceptableIff | src/chain/mempool.cpp:73-97 | the terms of acceptance told of the transaction: well-formed, at most 100,000 bytes, not in the chain, admissible, signed for, a fee of at least 100 a byte, and room in 64 megabytes |
| Mempools.AcceptOneIs | src/chain/mempool.cpp:98-105 | an accepted transaction is last on the list with its id, its size and the fee it pays there |
| Mempools.CleanMeans | src/chain/mempool.cpp:33-48 | a clean mempool's view is the chain state with the list applied in order |
| Mempools.PickAgain | src/chain/mempool.cpp:33-48 | rebuilding twice is rebuilding once |
| Mempools.PickFits | src/chain/mempool.cpp:107-125 | with room for everything, selection keeps what a rebuild keeps |
| Mempools.Mempool.SelectForBlock | src/chain/mempool.cpp:107-125 | the loop against the greedy pass |
| Mempools.Mempool.CreateTemplate | src/miner/miner.cpp:13-39 | the template for the watched chain: a coinbase that pays subsidy and fees in full to the payout address, and the sublist of the mempool the greedy pass picks, with distinct ids, which connects with signature checks and then leaves the miner that coin |
| Mempools.Mempool.OnConnect | src/chain/mempool.cpp:9-15 | exactly the block's transactions leave the list, and the mempool is dirty |
| Mempools.WithoutIs | src/chain/mempool.cpp:9-15 | taking ids off the list drops exactly the entries of those ids and keeps the order of the rest |
| Mempools.Mempool.OnDisconnect | src/chain/mempool.cpp:16-24 | the block's other transactions wait to be accepted again, if they can be read |
| Mempools.Mempool.OnTip | src/chain/mempool.cpp:25-30 | the mempool is clean again: what survived, and then each waiting transaction in turn exactly if it is acceptable behind what is there |
| Mempools.ChainGivesTip | src/chain/mempool.cpp:8-31 | every replayed chain meets what the mempool assumes of the chain it watches |
| Nodes.ConnectAndTell | src/chain/chainstate.cpp:788-788 | a connect and its callback: the mempool's chain is the chain again, and exactly the block's transactions left the list |
| Nodes.DisconnectAndTell | src/chain/chainstate.cpp:794-811 | a disconnect and its callback: likewise, and the block's transactions wait if it can be read |
| Nodes.FollowAll | src/chain/mempool.cpp:8-32 | after any course of connects and disconnects, each told to the mempool, and the callback for the new tip, the mempool's list applies in order to the state of the chain and leads to its view |
| Nodes.ActivateAndTell | src/chain/chainstate.cpp:821-861 | the search for the best chain with its callbacks: each connect and disconnect is told as it happens, failing blocks in between included, and the new tip if there is one at the end; then the invariant holds, and after a new tip the mempool's list applies in order to the state of the chain and leads to its view |
| Nodes.TemplateAccepted | src/chain/chainstate.cpp:661-677 | the body of a template passes the body checks of the height after the tip if and only if its reward is within the money limit, its roots are right and its size fits |
| U256s.U256.Add | src/util/u256.cpp:31-35 | addition modulo 2^256, also when both operands are the same object |
| U256s.U256.Subtract | src/util/u256.cpp:37-46 | subtraction modulo 2^256, with the borrow as computed |
| U256s.U256.ShiftLeft | src/util/u256.cpp:48-60 | multiplication by a power of two modulo 2^256, for every shift |
| U256s.U256.ShiftRight | src/util/u256.cpp:62-74 | division by a power of two, for every shift |
| U256s.U256.Mul64 | src/util/u256.cpp:76-80 | multiplication modulo 2^256, the 128-bit accumulator never overflowing |
| U256s.U256.Div64 | src/util/u256.cpp:82-90 | exact division by a word |
| U256s.U256.Bits | src/util/u256.cpp:19-23 | the number of significant bits |
| U256s.U256.Cmp | src/util/u256.h:22-25 | the order of the numbers |
| U256s.U256.Divide | src/util/u256.cpp:92-101 | the exact quotient for every divisor but zero, and zero for that |
| U256s.U256.BringDown | src/util/u256.cpp:95-99 | one bit of long division; doubling the remainder never leaves 256 bits |
| U256s.U256.WorkFromTarget | src/util/u256.cpp:124-128 | floor of 2^256 over target plus one, for every target from 1 to 2^256 - 1; and what the wrap makes of target 0 |
| Pow.DecodeCompact | src/util/u256.cpp:104-113 | the limbs against the arithmetic definition, flags included |
| Pow.EncodeCompact | src/util/u256.cpp:115-122 | likewise |
| Pow.CompactRoundsDown | src/util/u256.cpp:104-122 | decoding an encoded number raises no flag and rounds down by less than one unit of its last kept bit |
| Pow.CompactMonotone | src/util/u256.cpp:104-122 | and keeps the order |
| Pow.CompactIdempotent | src/util/u256.cpp:104-122 | and is stable: encoding it again gives the same bits |
| Pow.EncodedInRange | src/consensus/pow.cpp:9-14 | what is encoded from a target within the limit passes the range test, and never asks for less work |
| Pow.NextBits | src/consensus/pow.cpp:16-41 | for any headers and any limit, the loop and the limb arithmetic against the computation modulo 2^256; and on histories in range under a limit below 2^240 the exact retargeting formula, with a result in range |
| Pow.NothingWraps | src/consensus/pow.cpp:24-38 | under that limit the two are the same |
| Pow.NextBitsInRange | src/consensus/pow.cpp:16-41 | from any history of targets in range the next one is in range |
| Pow.NoOverflow | src/consensus/pow.cpp:24-38 | no step leaves 256 bits on a network whose limit is below 2^240 |
| Pow.RetargetBounds | src/consensus/pow.cpp:34-39 | at most six times the average; zero exactly below a window sum of n times k, where the limit takes its place |
| Pow.TenthOfAverage | src/consensus/pow.cpp:34-38 | at least a tenth of the average, up to the two roundings, stated exactly |
| Retargets.RetargetFormula | src/consensus/pow.cpp:16-41 | the next bits in one formula for any history: the sum of the window's targets, times how much later the tip is than the window's headers with steps held within 720 seconds, a tenth of the expected at least |
| Retargets.WeightedIsLateness | src/consensus/pow.cpp:27-36 | the weighted solve times are that lateness |
| Retargets.Direction | src/consensus/pow.cpp:27-40 | solve times of at least 120 never give a harder target than the average, of at most 120 never an easier one, and of exactly 120 give the average up to its rounding |
| Retargets.SteadyKeeps | src/consensus/pow.cpp:27-40 | a chain on time with one target keeps it, up to a rounding below k |
| Retargets.LaterIsEasier | src/consensus/pow.cpp:27-40 | a later tip never lowers the next target |
| Retargets.CompactMeaning | src/util/u256.cpp:104-113 | what compact bits stand for, for all sizes, signs and mantissas: the value, and overflow if and only if it does not fit 256 bits |
| Retargets.EncodeMeaning | src/util/u256.cpp:115-122 | an encoding keeps 16 to 23 leading bits so that one unit more would be too much |
| HeaderRules.SortedMiddle | src/chain/chainstate.cpp:437-442 | the middle of the sorted times is the median |
| HeaderRules.HeaderAdded | src/chain/chainstate.cpp:591-594 | accepting a header keeps every header of the tree in range, with the target its ancestors give and a time after their median |
| HeaderRules.HistoryHolds | src/chain/chainstate.cpp:444-449 | in such a tree retargeting always looks back on a history in range |
| HeaderRules.CanExtend | src/chain/chainstate.cpp:591-592 | and the two tests on the target never exclude each other, on any branch |
| HeaderRules.MedianAlong | src/chain/chainstate.cpp:437-442 | the median time never falls along a branch |
| HeaderSyncs.AcceptRuled | src/chain/chainstate.cpp:578-608 | header acceptance with these rules as its policy keeps them true of the whole tree |
| Limbs.OrBits | src/util/u256.cpp:48-101 | the recurrence of the bitwise or holds of the machine operation |
| Limbs.OrIsAdd | src/util/u256.cpp:48-101 | or-ing words whose bits do not meet adds them, which is how shifts, division and compact encoding use it |
| Merkle.MerkleRoot | src/primitives/block.cpp:86-95 | the loop against the recursive root |
| Merkle.MerkleProof | src/primitives/block.cpp:97-110 | the loop against the recursive proof |
| Merkle.MerkleVerify | src/primitives/block.cpp:112-124 | the loop against climbing from the leaf |
| Merkle.ProofIff | src/primitives/block.cpp:97-124 | a leaf at an index verifies if and only if it is the leaf at that index and the proof is the generated one |
| Merkle.ProofVerifies | src/primitives/block.cpp:97-124 | every generated proof verifies, whatever the hash |
| Merkle.RootInjective | src/primitives/block.cpp:86-95 | lists of any lengths with the same root are equal, when no leaf is an inner hash |
| Merkle.RootSplits | src/primitives/block.cpp:86-95 | told from the top: the root is the hash of the root of the full left subtree, as many leaves as the largest power of two below their number, and the root of the rest |
| Merkle.ProofSplits | src/primitives/block.cpp:97-110 | and the proof is that within the leaf's own subtree, zeros up to the height of the other, and the root of the other |
| Merkle.InnerLeafCollides | src/primitives/block.cpp:86-95 | and the condition on leaves is needed |
| Merkle.SiblingBits | src/primitives/block.cpp:101-101 | the sibling index is the machine's exclusive or |
| Codecs.VarintReads | src/util/serialize.h:19-22 | every 64-bit number reads back from its varint |
| Codecs.VarintCanonical | src/util/serialize.h:43-54 | every varint accepted is the only encoding of its value, which fits 64 bits |
| Codecs.OneEncoding | src/util/serialize.h:1-2 | no encoding is a prefix of another value's |
| Codecs.ListRoundTrips | src/primitives/transaction.cpp:66-76 | counted lists read back |
| Codecs.ListCanonical | src/primitives/transaction.cpp:89-103 | and have one encoding |
| TxCodecs.AssetGood | src/primitives/transaction.cpp:9-24 | an asset flag and id have one encoding |
| TxCodecs.OpGood | src/primitives/transaction.cpp:26-64 | operations and their reader are mutually inverse |
| TxCodecs.CoreGood | src/primitives/transaction.cpp:66-103 | every core within limits reads back whatever follows it, and every byte string accepted re-encodes to exactly the bytes consumed |
| TxCodecs.WitnessGood | src/primitives/transaction.cpp:78-122 | the same of witnesses |
| TxCodecs.TransactionGood | src/primitives/transaction.h:96-101 | the same of whole transactions |
| TxCodecs.IdsFromBytes | src/primitives/transaction.cpp:124-124 | so ids that are a collision-free hash of the bytes do not collide |
| Buffers.Writer.PutVarint | src/util/serialize.h:19-22 | the loop appends exactly the varint |
| Buffers.Writer.PutCore | src/primitives/transaction.cpp:66-76 | the writer appends exactly the core's encoding |
| Buffers.Writer.PutWitnesses | src/primitives/transaction.cpp:78-87 | and the witnesses' |
| Buffers.Reader.GetVarint | src/util/serialize.h:43-54 | the loop reads exactly what the format reads, and ends within ten bytes |
| Buffers.Reader.GetCore | src/primitives/transaction.cpp:89-103 | the reader accepts exactly what the format accepts, with the same value and the cursor at the same place |
| Buffers.Reader.GetWitnesses | src/primitives/transaction.cpp:105-122 | likewise |
| Buffers.Reader.GetTransaction | src/primitives/transaction.h:101-101 | likewise |
| Wires.VarintDigits | src/util/serialize.h:19-22 | a varint has the 7-bit digits of its number, lowest first, every byte but the last marked, and none too many |
| Wires.ByteOrder | src/util/serialize.h:17-26 | hashes go from the highest byte down, fixed-width numbers from the lowest up |
| Wires.CoreIsWire | src/primitives/transaction.cpp:66-76 | the bytes of a core laid out field by field, tags, flags, counts and order included |
| Wires.TransactionIsWire | src/primitives/transaction.cpp:78-87 | and of a transaction with its witnesses |
| Wires.SnapshotIsWire | src/chain/chainstate.cpp:230-248 | and of a snapshot, from its four magic bytes on |
| Wires.ListedInOrder | src/chain/chainstate.cpp:236-246 | whose coins, tokens and pools are in ascending order of their keys |
| Snapshots.SerializeState | src/chain/chainstate.cpp:230-248 | the bytes of the one sorted listing of the state, in whatever order the tables yield their keys |
| Snapshots.ListsUnique | src/chain/chainstate.cpp:230-248 | two snapshots of a state are the same |
| Snapshots.EntryReads | src/chain/chainstate.cpp:56-69 | coins read back |
| Snapshots.SnapshotExact | src/chain/chainstate.cpp:230-275 | reading the snapshot of a state within the limits of the format gives exactly that state back |
| Snapshots.ReplayKeyed | src/consensus/ledger.cpp:214-226 | in every replayed state tokens and pools are filed under their own ids, as serialising assumes |
| SnapshotLimits.ReplayEncodable | src/chain/chainstate.cpp:230-250 | every state of a chain whose transactions were all read is within those limits, with 32-byte ids and fewer than 2^64 blocks, outputs and operations |
| SnapshotSyncs.FastSync | src/chain/chainstate.cpp:374-406 | a byte string with the hash of a replayed state's snapshot parses to that snapshot, and connecting later blocks to it ends where full replay ends |
| SnapshotSyncs.CommittedBytes | src/chain/chainstate.cpp:332-359 | in every reachable state, whatever has the hash that a header of the active chain commits to parses to the snapshot of the committed block, at its height, with the replayed state there, and connecting the later blocks gives the node's own state; if the commitment was always checked, or the snapshot is still held, or the node prunes and its depth and the delay are within three intervals |
| SnapshotSyncs.CommittedHashFor | src/chain/chainstate.cpp:352-359 | the commitment that the best header chain makes for a block on it, found through two ancestors, or none |
| SnapshotSyncs.CommittedForIff | src/chain/chainstate.cpp:352-359 | a block has a commitment if and only if it is on the branch of the best header, which goes on to a commitment height the delay above it, and then it is the one in the header there |
| SnapshotSyncs.LoadSnapshotBytes | src/chain/chainstate.cpp:374-389 | the tests in order with their results; on success the tables are the snapshot's, with address index and supply if it is a listing; a failed parse clears them, any other failure changes nothing |
| SnapshotSyncs.BootstrapAgrees | src/chain/chainstate.cpp:374-406 | what a node with only headers accepts is the state of any full node whose chain holds the committing header, under the same condition on that node, and the later blocks lead to that node's state |
| SnapshotLoads.LoadState | src/chain/chainstate.cpp:226-275 | loading any parsed snapshot fills coins, tokens and pools with its entries, later ones overwriting; without repeated keys address index and supply are theirs |

## Left out

- Networking, RPC, wallet, light client, miner threads and nonce search, command line and logging.
- BLAKE3, SHA-256, Falcon and randomness: parameters, with the assumptions above.
- Header policy (version, presence of the state commitment, proof of work, difficulty bits, median and future time): one boolean parameter of `AcceptHeader`; `AcceptRuled` fills in target and time, the rest stays a parameter.
- Merkle root, witness root and block size of a body: parameters of `Env` and `Network`; `Merkle` treats the trees on their own.
- Snapshot files, their failing writes and the exemption of the one bootstrapped from, and a chain state that continues from a snapshot base: `LoadSnapshotBytes` and `BootstrapAgrees` give the state reached and where later blocks lead from it, but `Chainstate.Valid` is about chains stored from genesis.
- Failing writes, `fflush`, partial records and restart from disk (`load`, `flush`, `load_tip_state`): files are maps that may lack an entry; the constructor stands for a first start.
- Chain work is an unbounded number: the wrap of total work beyond 2^256 is not modelled.
- Block times outside the signed 64-bit range, where the subtraction in `next_bits` is undefined.
- The two wordings of the token imbalance error are one reason here, and textual reasons are constructors.
- `BlockIndex` flags are sets of block ids and its pointers are ids; `by_id_` of the mempool is the set of its keys, an entry being found by its id in the list.
- Chainstates.Chainstate.constructor: stands for a first start; a node that loads its files is not modelled.
- Chainstates.Chainstate.At: a second constructor, for a node at genesis in any state of its tree, used for concrete states only.
- Chainstates.Chainstate.ConnectBlock: has no outcome for an undo file that cannot be written, since writes do not fail here.
- Chainstates.Chainstate.DisconnectTip: does not model the refusal at a snapshot base, since chains are stored from genesis here.
- Chainstates.Chainstate.AcceptHeader: takes version, presence of the commitment, proof of work, target and time as one flag, as above.
- Chainstates.Chainstate.CheckBody: takes Merkle root, witness root and size as parameters, as above.
- LedgerViews.LedgerView.AddCoinbase: is stated for coinbases of a new height, which is all that `connect_block` passes; the function itself takes any transaction.
- LedgerViews.LedgerView.Apply: the base of a view is a value, so a base that changes under a view is not modelled; the mempool discards such a view before using it.
- Mempools.Mempool.CreateTemplate: the header's own fields are passed in, since the header commits to nothing modelled here but the body.
- SnapshotSyncs.LoadSnapshotBytes: stops at the tables; base index, chain, candidates and the search that follows are not part of this model, as above.
- Nodes.FollowAll: takes any list of steps; `ActivateAndTell` takes those of a search.
- Mempools.Mempool.OnConnect: receives the new chain state as an argument instead of reading it through a reference, because view bases are values here; `ConnectAndTell` passes the state of the chain.
- Mempools.Mempool.OnDisconnect: likewise; `DisconnectAndTell` passes the state of the chain and the block read again.
- LateWitness.MissedAfterStall: gives the state before the call, which the invariant admits, and not a run that leads there, which needs more than 5,040 headers; `BestChainForgotten` is a whole run with the same end from another cause.
- Header and block encodings, which are fixed-size fields and the same lists again; undo file encoding; hexadecimal, Bech32m and amount formatting.
- Chart, trade and message indexes, address queries and statistics.
