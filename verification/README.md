# A verified model of the node's core

This project models the stateful core of a Bitcoin full node and proves what it promises.

* **Chain engine.** Headers form a tree. Blocks arrive in any order. The heaviest branch whose blocks are all
  there is connected, after disconnecting back to the fork. In every reachable state the coins on disk are the
  replay of the main chain's blocks from the genesis block, the counters are those of the coin set, every
  undo record is the right one for its block on any chain, memory holds what the disk holds, and the value of
  all coins is within the subsidies, hence within 21 million coins. As long as no connect fails, the tip has at
  least the work of every complete branch (`Ledger`, `Coins`, `Checks`, `Undo`, `BlockRuns`, `Columns`,
  `ChainDb`, `HeaderColumns`, `History`, `Replay`, `BestChain`, `ChainInvariant`, `ChainSteps`, `Chain`,
  `ChainWitness`).
* **Header arithmetic.** Ancestor lookup by height index or skip pointers is walking parent links, in a number
  of hops at most quadratic in the bits of the height; the median time never decreases along a chain; the
  deployment states of BIP 9, and the cached loop that computes them (`SkipList`, `Headers`, `MedianTime`,
  `Deployments`, `DeploymentLoop`, `DeploymentOrder`, `DeploymentCache`, `DeploymentStatus`,
  `DeploymentWitness`).
* **Memory pool.** The spent-output index, exact removal of double spends with all descendants, and whole runs
  beside a growing chain, in which nothing that was created or spent on the chain comes up again (`MemPool`,
  `MemPoolRun`).
* **Block download.** The tasks as atomic steps in any interleaving, and the planner (`Download`).
* **Block files and compact blocks.** The flat-file allocator and BIP 152 reconstruction (`BlockStore`,
  `CompactBlock`).

`Primitives` has the shared values, `Consensus` the money constants and the bound on all subsidies.

## How to read it

Hashes are opaque numbers. A block hash determines its block and a txid its transaction; this is
`Replay.World` with `Replay.BlockFine`, and `MemPool.MemPool.txOf`. Database columns are maps, a
batch is a list of writes that is applied as a whole or not at all, files are byte sequences, `work` is a
positive number. What library code decides about scripts, locks, signature operations, finality, Merkle roots
and witness commitments is a fixed function of block and transaction (`Checks.Rules`) or a parameter of the
operation. What the disk lets happen is a parameter of the database operations (`written`, `undoWritten`,
`undoRead`, `nextsRead`); the chain, which unwraps these results, is modelled on runs where they succeed.

Each class keeps the fields the source changes in place. Its methods are proved against functions of the old
state, and the theorems are lemmas about those functions. What both a method and its specification name has a
meaning of its own that is proved of it: the subsidy in closed form, the chainwork as the sum of all work below, a
signal as bits of a version, an output value by what becomes of it, a position by what the sender chose. A few predicates (`ChainInvariant.Good`,
`Columns.Counts`, `ChainDb.Prepared`, `BlockStore.Holds`, `Download.Planning`, `Download.Readable`,
`Download.Scanning`, `CompactBlock.InSearch`, `DeploymentStatus.OnWalk`, `ChainSteps.Verifiable`) are stated
through a quantifier
with its own trigger so that they stay folded; the lemma named after each, ending in `Means`, shows what they say.

Where the code does not do what its documentation or the protocol says, the model follows the code, and the
exact condition is proved:

* Disconnecting halts exactly when a block that has to go has only its coinbase, because no undo record was
  written for it (`Chain.Chain.Disconnect`, `Chain.Chain.DisconnectTo`, `ChainSteps.OutcomeOf`);
  `ChainWitness.HaltsOnAnEmptyBlock` runs into it from an empty database.
* A failed connect leaves the chain right below the block that failed. Whether the best-chain rule then holds
  is decided by the state before: exactly when the parent of the first block that is not fit has no less work
  than the old tip, and than every end that stays complete through the block that was added without the one
  that failed (`ChainSteps.BestIfStopped`, `ChainSteps.RuleAfterFailure`, `Chain.Chain.ConnectBest`);
  `ChainWitness.LosesTheBestChain` runs from an empty database to a fork whose first block has a coinbase that
  claims too much, and out of the rule.
* The deployment loop runs newest period first, BIP 9 oldest first. For any one chain, right cache and number of
  periods to compute the loop gives the status of BIP 9 exactly when `DeploymentOrder.OrderDoesNotMatter` holds
  of the periods: there is at most one; or the walk ended on LockedIn, Active or Failed; or the newest has timed
  out and no signal that counts was in time; or the newest has not, and the newest signal the loop sees and the
  oldest that counts come to the same, with neither or both there (`DeploymentOrder.StatusRightExactlyWhen`).
  The cache stays right exactly when all the periods come to one state
  (`DeploymentCache.CacheStaysRightExactlyWhen`). The loop halts exactly when it walks back over several periods
  to the first one, the newest has not timed out and none but the newest is signalled
  (`DeploymentLoop.HaltsExactlyWhen`; on a fresh cache `DeploymentWitness.FreshCacheHalts`). Knowing only the
  number of periods, one can trust the loop with at most one (`DeploymentWitness.RightExactlyWithOnePeriod`;
  `DeploymentWitness.LateIsWrong` has the chain and the cache).
* The assertions on prefilled positions refuse proper encodings with several prefilled transactions
  (`CompactBlock.AssertionsPassWhen`, `CompactBlock.SentWholePassesWhen`), and let one kind of index out of
  bounds through (`CompactBlock.AssertionsProtectUnless`). The count of filled slots falls short exactly when a
  short id is matched more than twice (`CompactBlock.CompactBlock.FillMempool`, `CompactBlock.NoExcess`), and goes
  below zero, which halts where arithmetic is checked, exactly when `CompactBlock.Underflows` holds of the pool;
  three matches of one short id can be enough (`CompactBlock.ThreeMatchesUnderflow`), a pool of distinct
  transactions without false matches never is (`CompactBlock.HonestPoolNeverUnderflows`).
* The undo encoding loses lists whose length does not fit 32 bits, and only those (`Coins.UndoReadsBack`); no
  block within the size limits has such a list (`Checks.InputsTakeRoom`).
* Removing a double spend clears only the key it was found by; the index stays exact precisely when that was
  its only input (`MemPool.StaleKeysRemainUnless`). Closure and removal are proved with stale keys around.
* A block stays marked as being verified for good, neither asked for nor attached, exactly when its handler was
  dropped or its answer was bad: `Download.Stuck` is kept by every run (`Download.PeerManager.Run`,
  `Download.StuckIsLeftAlone`), and any other marked block can be unmarked (`Download.PeerManager.Finish`).

## Model

| member | source | states |
|---|---|---|
| Consensus.SupplyIsBounded | src/protocol/consensus.rs:89-97 | The subsidies up to any height come to at most twice the first subsidy per halving interval |
| Consensus.SupplyIsCapped | src/protocol/consensus.rs:3-8 | With the main network's interval they never exceed the 21 million coins of `MAX_MONEY` |
| Consensus.SubsidyIs | src/protocol/consensus.rs:89-97 | The subsidy is 50 coins divided by two to the number of whole halving intervals; the cut at 64 halvings cuts nothing off |
| Consensus.SubsidyHalves | src/protocol/consensus.rs:89-97 | The first interval gets 50 coins a block, and every block half of what the one an interval before gets |
| Coins.CoinReadsBack | src/coins/coin_entry.rs:53-88 | A written coin reads back with everything but `spent`, an unknown height through the largest number, and reading stops right behind it |
| Coins.CoinsReadBack | src/coins/undo_coins.rs:30-53 | So does a list of coins |
| Coins.UndoReadsBack | src/coins/undo_coins.rs:30-53 | An undo list reads back, every coin unspent, exactly when its length fits 32 bits |
| Coins.EncodedAt | src/coins/coin_entry.rs:53-70 | Each coin takes five fields: version, height or the largest number, coinbase flag, output, spent flag |
| Coins.DecodeUndo | src/coins/undo_coins.rs:41-53 | Decoding gives what the specification function of the encoding gives, and fails when it does |
| Coins.UndoCoins.Encode | src/coins/undo_coins.rs:30-39 | The encoding is the wrapped length and then each coin in order |
| Coins.CoinView.IndexTx | src/coins/coin_view.rs:21-42 | Every output but the unspendable ones is entered with its version, height and coinbase flag |
| Coins.CoinView.ReadCoin | src/coins/coin_view.rs:57-70 | What the view has wins; otherwise the disk's coin is read into the view |
| Coins.CoinView.SpendInputs | src/coins/coin_view.rs:72-89 | It succeeds exactly when all inputs are coins and distinct; then writing the view out removes exactly the inputs, and the undo list grew by exactly their coins in order |
| Coins.IndexedAt | src/coins/coin_view.rs:21-42 | What indexing a transaction leaves under any one outpoint |
| Checks.CheckSanity | src/primitives/tx.rs:225-280 | It passes exactly the sane transactions: inputs, outputs, size, values in range, no input twice, coinbase length, no null inputs |
| Checks.CheckBody | src/primitives/block.rs:31-69 | It passes exactly the bodies within the size limits with a coinbase first, and only first, and sane transactions |
| Checks.InputsTakeRoom | src/primitives/tx.rs:287-310 | A body within the size limits has fewer inputs than bytes, so its undo list fits its encoding |
| Checks.VerifyDuplicates | src/blockchain/chain.rs:630-654 | It passes exactly when no output of the block is on disk, and then nothing the block creates is a coin yet |
| Checks.CheckInputs | src/primitives/tx.rs:74-122 | It succeeds exactly when the inputs are there, mature, in range and cover the outputs, and gives the difference as the fee |
| Checks.PassInputs | src/blockchain/chain.rs:669-681 | Spending and checking the inputs of one transaction succeeds exactly when it passes on the coins at that point, with that fee |
| Checks.VerifyTx | src/blockchain/chain.rs:669-691 | One turn of the loop keeps view and undo list a record of the transactions so far |
| Checks.VerifyInputs | src/blockchain/chain.rs:656-711 | It accepts exactly the blocks whose transactions pass in order, whose fees are in range and whose coinbase claims no more than fees and subsidy; the view written out is then the block applied, the undo list what it took |
| Checks.CoinbaseClaimDecides | src/blockchain/chain.rs:693-697 | A block with only a coinbase is let through exactly when that claims no more than 50 coins halved for every interval |
| Checks.CoinbasesHaveMatured | src/primitives/tx.rs:90-97 | Whatever an accepted block spends of a coinbase is at least a hundred blocks old |
| Checks.GetOutputValue | src/primitives/tx.rs:124-129 | The loop sums all outputs |
| Checks.LookForCoins | src/blockchain/chain_db.rs:414-430 | It finds out whether any output of the transaction is on disk |
| Checks.AcceptedIsConnectable | src/blockchain/chain.rs:609-628 | What verification lets through may be connected, and its undo record can be written |
| Checks.FeesGrow | src/blockchain/chain.rs:675-680 | The running reward never falls, so its bound at every step is the bound at the end |
| Ledger.NothingIsRecreated | src/blockchain/chain.rs:630-654 | New outputs and spendable inputs leave no room for a transaction twice in one block |
| History.SpendableIsNew | src/blockchain/chain.rs:619-622 | On a chain whose coinbases differ, a transaction whose inputs can be spent was never there before |
| History.BlockKeepsSpent | src/blockchain/chain.rs:619-622 | A block keeps what was spent gone for good and recreates nothing, as far as its inputs can be spent |
| Replay.UncheckedIsUnrepeatable | src/blockchain/chain.rs:619-622 | Where duplicates are not looked for, a block that copies transactions fails on its inputs, given only that coinbases differ |
| Ledger.SpentStaysSpent | src/coins/coin_view.rs:72-89 | Within a block, what was spent is not a coin again later |
| Ledger.CoinExisted | src/coins/coin_view.rs:48-50 | What is a coin now existed all along unchanged, so a view that remembers it knows its value |
| Ledger.TakingLowers | src/blockchain/chain_db.rs:680-683 | Taking distinct coins lowers number and value of the coin set by exactly theirs |
| Ledger.AddingRaises | src/blockchain/chain_db.rs:675-678 | Adding new outputs raises number and value by exactly the spendable ones |
| Ledger.BlockSupply | src/blockchain/chain.rs:693-697 | Connecting a block creates no more value than its subsidy |
| Ledger.SupplyAfter | src/blockchain/chain.rs:669-697 | Exactly: the supply after a block is the one before, plus what the coinbase claims, less all fees, less the outputs that can never be spent |
| Ledger.CoinsComeFrom | src/coins/coin_view.rs:21-42 | A coin after a block was there before, or one of the block's transactions made it, with that block's height |
| SkipList.HopsAreFew | src/blockchain/chain_db.rs:638-650 | The side-chain walk on heights takes at most a triangle number of the bit length plus one hops |
| SkipList.TriangleClosed | src/blockchain/chain_db.rs:507-528 | That bound in closed form: quadratic in the bits |
| SkipList.SkipHeightIs | src/blockchain/chain_db.rs:638-650 | A skip pointer leads to the height without its lowest set bit, from an odd height to where the even one below leads |
| Headers.GetAncestor | src/blockchain/chain_db.rs:496-531 | By height index or along skip pointers, it finds what walking the parent links finds, in no more hops than the walk on heights |
| Headers.CommonAncestor | src/blockchain/chain.rs:456-480 | It finds the highest entry below both, and above it the two chains differ |
| Headers.GetNextPath | src/blockchain/chain_db.rs:380-404 | The entries above a height on the way to an entry, lowest first, as many as there are up to the limit |
| Headers.MainMeansAncestor | src/blockchain/chain_db.rs:540-545 | An entry is on the main chain exactly when it is an ancestor of the tip |
| Headers.AncestorOfAncestor | src/blockchain/chain_db.rs:505-530 | An ancestor's ancestor is an ancestor: why skipping is sound |
| MedianTime.GetMedianTime | src/blockchain/chain.rs:713-734 | The loop gives the sorted middle of the last up to eleven times |
| MedianTime.MedianSplits | src/blockchain/chain.rs:731-733 | The median reaches a bound exactly when at most half of the window is below the bound |
| MedianTime.SlidingKeeps | src/blockchain/chain.rs:433-436 | A time above the median leaves the next median no smaller, also while the window still grows |
| MedianTime.MedianNeverDecreases | src/blockchain/chain.rs:433-436 | Along any chain of accepted headers the median time never decreases |
| DeploymentStatus.GetDeploymentStatus | src/blockchain/chain.rs:875-988 | It gives what walk and newest-first fold give, or halts with them, for any cache; on a right cache that is the recursive state of section 'State transitions' of BIP 9, and the cache stays right, each exactly when the periods to compute allow it |
| Deployments.OneStatePerPeriod | src/blockchain/chain.rs:896-907 | All blocks that follow entries of one period have one state |
| Deployments.Transitions | src/blockchain/chain.rs:934-985 | The table of BIP 9 in numbers: which state follows from time, signal and height |
| Deployments.FinalStatesStay | src/blockchain/chain.rs:981 | Active and Failed are never left |
| Deployments.DefinedBeforeStart | src/blockchain/chain.rs:919-924 | Before the start time the state is Defined all the way back, so the early stop is right |
| Deployments.BitIsSet | src/blockchain/chain_entry.rs:60-64 | A version signals for a bit exactly when its top bits are 001 and that bit is set among the 29 behind them |
| Deployments.SignalsAreCounted | src/blockchain/chain.rs:957-973 | The count of signals is the number of blocks of the window whose versions say so |
| Deployments.QuietVersionsCountNothing | src/blockchain/chain.rs:957-973 | Versions without the top bits or the bit count nothing, whatever else they have set |
| DeploymentStatus.CountSignals | src/blockchain/chain.rs:957-973 | The early exit of the count is exact, and it halts exactly when it steps past the genesis block before it can tell |
| DeploymentStatus.AlignToPeriod | src/blockchain/chain.rs:896-907 | It goes back to the last end of a period, or finds there is none |
| DeploymentStatus.CollectPeriods | src/blockchain/chain.rs:914-932 | It stops at the first cached period, at the start time or at the beginning, and lists exactly the uncached ones |
| DeploymentStatus.ComputePeriods | src/blockchain/chain.rs:934-987 | The loop is the newest-first fold over the listed periods, halts with it, and caches each step |
| DeploymentLoop.RecursionIsOldestFirst | src/blockchain/chain.rs:914-985 | BIP 9 is the oldest-first fold over what the walk collects |
| DeploymentLoop.HaltsExactlyWhen | src/blockchain/chain.rs:960-972 | When the loop halts, for any chain and cache, in terms of the periods it collects |
| DeploymentLoop.FewAreRight | src/blockchain/chain.rs:914-987 | With at most one period to compute it never halts and gives the state of BIP 9 |
| DeploymentOrder.OrdersAgreeExactlyWhen | src/blockchain/chain.rs:934-985 | For every list of periods a walk can collect, newest first and oldest first come to the same state exactly under a condition on signals, timeouts and heights |
| DeploymentOrder.StatusRightExactlyWhen | src/blockchain/chain.rs:875-988 | For any one chain, right cache and deployment the loop gives the status of BIP 9 exactly when that condition holds of the periods it collects |
| DeploymentOrder.TimedOutIsForgotten | src/blockchain/chain.rs:939-956 | Once the newest of several periods has timed out the loop has Failed, where BIP 9 has it only if no signal that counts was in time |
| DeploymentOrder.RemembersExactlyWhen | src/blockchain/chain.rs:984 | All the states the loop comes to on its way are those of BIP 9 exactly when all periods come to one state |
| DeploymentCache.CacheStaysRightExactlyWhen | src/blockchain/chain.rs:914-985 | A right cache stays right exactly then, if the loop does not halt |
| DeploymentWitness.FreshCacheHalts | src/protocol/network.rs:173 | With a fresh cache the deployment that regtest and signet declare halts the loop after every block from the end of the second period on, as long as nobody signals |
| DeploymentWitness.LateIsWrong | src/blockchain/chain.rs:934-985 | Chains and right caches, with any number of periods from two on, on which the loop finishes with Active where BIP 9 has LockedIn |
| DeploymentWitness.RightExactlyWithOnePeriod | src/blockchain/chain.rs:934-985 | The number of periods to compute alone vouches for the status, whatever chain, right cache and declared deployment, exactly when it is at most one |
| DeploymentStatus.VersionBitsCache.Set | src/blockchain/chain_db.rs:733-746 | A state is entered, and noted as an update, exactly when it is new or differs |
| DeploymentStatus.VersionBitsCache.Drop | src/blockchain/chain_db.rs:759-766 | Exactly the updated entries are taken out |
| Undo.PuttingBack | src/blockchain/chain_db.rs:309-314 | Putting a spent coin back commutes with the outputs that are still there |
| Undo.TakingOutputsOut | src/blockchain/chain_db.rs:316 | Marking a transaction's outputs spent takes exactly them out |
| Undo.UndoIsEmpty | src/blockchain/chain_db.rs:475-477 | A block has nothing to undo exactly when it has only its coinbase |
| BlockRuns.CountBlock | src/blockchain/chain_db.rs:448-471 | The counters follow the block, and none underflows on the way |
| BlockRuns.UndoTx | src/blockchain/chain_db.rs:308-325 | Undoing one transaction gives the coins before it, and uses up exactly its part of the undo list |
| BlockRuns.UndoBlock | src/blockchain/chain_db.rs:294-332 | Undoing a block restores the coins exactly, with spends inside the block; the stack ends empty and the counters have followed |
| BlockRuns.ConnectableIsUndoable | src/blockchain/chain_db.rs:308-327 | Every block that may be connected can be undone transaction by transaction |
| Columns.SaveView | src/blockchain/chain_db.rs:482-490 | In whatever order the view is walked, writing the batch leaves the coins overlaid with the view |
| Columns.ChainEntryCache.constructor | src/blockchain/chain_db.rs:33-50 | The cache read from disk holds exactly what the columns hold |
| Columns.ChainEntryCache.WriteBatch | src/blockchain/chain_db.rs:66-81 | All noted operations are carried out in order and none is left |
| ChainDb.ChainDb.Commit | src/blockchain/chain_db.rs:338-356 | Disk, cache and state move together when the write succeeds, and stay together when it fails |
| ChainDb.ChainDb.SaveEntry | src/blockchain/chain_db.rs:586-635 | A header is stored with its links and the best header follows, or nothing changes; memory is disk either way |
| ChainDb.ChainDb.MostWorkEntry | src/blockchain/chain_db.rs:192-202 | The entry found has the most work of the column |
| ChainDb.ChainDb.WriteUndo | src/blockstore/mod.rs:258-275 | An undo record is written once and never changed |
| ChainDb.ChainDb.ConnectBlock | src/blockchain/chain_db.rs:441-480 | Coins and counters are those after the block; the undo record is written unless it is empty |
| ChainDb.ChainDb.Connect | src/blockchain/chain_db.rs:226-262 | Links, coins, counters and state are those with the block on top, in memory and on disk, or all as before |
| ChainDb.ChainDb.DisconnectBlock | src/blockchain/chain_db.rs:294-332 | Coins and counters are exactly those before the block |
| ChainDb.ChainDb.Disconnect | src/blockchain/chain_db.rs:264-292 | Everything is as before the block, or unchanged after an error; it halts exactly when there is no undo record |
| ChainDb.ChainDb.SaveGenesis | src/blockchain/chain_db.rs:208-224 | An empty database gets the genesis block, which makes no coins |
| ChainDb.ChainDb.Load | src/blockchain/chain_db.rs:134-164 | State and best header are those on disk |
| HeaderColumns.SavingKeepsChildren | src/blockchain/chain_db.rs:607-609 | The lists of children stay exactly the inverse of the parent links |
| HeaderColumns.SavingKeepsLeaves | src/blockchain/chain_db.rs:598-600 | The chainwork column stays exactly the leaves |
| HeaderColumns.SavingKeepsMostWork | src/blockchain/chain_db.rs:622-635 | The best header stays one with the most work of all |
| HeaderColumns.ReopeningFindsMostWork | src/blockchain/chain_db.rs:186-202 | The most work among the leaves is the most work of all headers, so reopening finds the same |
| Replay.SupplyWithinSubsidies | src/blockchain/chain.rs:693-697 | The coins of any sound chain are worth at most the subsidies up to its height |
| Replay.CoinsHaveOrigins | src/coins/coin_view.rs:21-42 | Every coin of a chain was made by one of its blocks, and says the transaction's version, the block's height, whether it was the coinbase, and the output |
| Replay.WritingKeepsRecords | src/blockchain/chain_db.rs:475-477 | Every undo record is the right one for its block on any chain, through later writes too |
| Replay.ConnectingKeepsFaith | src/blockchain/chain_db.rs:226-262 | After a connect, coins and counters are the replay of the longer chain |
| Replay.DisconnectingKeepsFaith | src/blockchain/chain_db.rs:264-292 | After a disconnect they are the replay of the shorter one |
| Replay.HaltsExactlyOnEmptyBlocks | src/blockchain/chain_db.rs:334-336 | In a reachable state the tip has no undo record exactly when its block has only its coinbase |
| Replay.CountersAreBounded | src/blockchain/chain_db.rs:652-690 | `coin` and `value` are number and value of the coin set, and `value` is within subsidies and supply cap |
| BestChain.ReadyingKeepsBest | src/blockchain/chain.rs:169-170 | A block that arrives can only make branches through itself better |
| BestChain.NothingToConnect | src/blockchain/chain.rs:341-355 | If the block's ancestry is not complete the tip is still the best |
| BestChain.HeaviestIsBest | src/blockchain/chain.rs:366-372 | The heaviest end above the block, or the old tip, is the best of all |
| BestChain.BestAfterLoss | src/blockchain/chain.rs:567-579 | When a block is lost that the old tip does not need, exactly when a tip is still the best |
| ChainInvariant.AddingIsGood | src/blockchain/chain.rs:229-265 | A new header keeps every invariant, and the best chain the best |
| ChainInvariant.AddingKeepsHeaders | src/blockchain/chain_entry.rs:28-48 | Every entry says what its header says, and its chainwork is the sum of the work of all headers up to it |
| ChainInvariant.ConnectingIsGood | src/blockchain/chain.rs:556-607 | A connect keeps every invariant: tree, skips, height index, next links, children, leaves, coins, counters, records |
| ChainInvariant.DisconnectingIsGood | src/blockchain/chain.rs:401-417 | A disconnect keeps them |
| ChainInvariant.InvalidatingIsGood | src/blockchain/chain.rs:567-579 | Marking a failed block keeps them |
| ChainInvariant.ReopeningIsGood | src/blockchain/chain_db.rs:134-164 | Reopening keeps them |
| ChainSteps.VerifyContext | src/blockchain/chain.rs:609-628 | It accepts exactly the fit blocks, and then view and undo list are ready for connecting |
| ChainSteps.DuplicatesAreUnfit | src/blockchain/chain.rs:618-622 | Outside the heights where the coinbase's height excludes it, a block with an output that is on disk is not fit; within them what is on disk does not count |
| ChainSteps.NextBest | src/blockchain/chain.rs:291-327 | A parent-linked path of ready blocks whose end has the most work of all that ready blocks lead to; the recursion ends |
| ChainSteps.BackToMain | src/blockchain/chain.rs:344-355 | The ready blocks back to the main chain, or the finding that the ancestry is not complete |
| Chain.Chain.Create | src/blockchain/chain.rs:57-88 | The first state satisfies the invariant |
| Chain.Chain.Reopen | src/blockchain/chain.rs:72-80 | So does the state read back from disk after a run, with the same most work |
| Chain.Chain.AddHeader | src/blockchain/chain.rs:228-265 | A header is added exactly when it passes, with the right entry and skip pointer; best stays best |
| Chain.Chain.AddBlock | src/blockchain/chain.rs:175-216 | A block is kept exactly when its body passes, and marked invalid otherwise |
| Chain.Chain.Connect | src/blockchain/chain.rs:556-607 | The block becomes the tip exactly when it is fit; otherwise it is marked and nothing else changes |
| Chain.Chain.Disconnect | src/blockchain/chain.rs:401-417 | The parent becomes the tip; it halts exactly when the block has only its coinbase |
| Chain.Chain.DisconnectTo | src/blockchain/chain.rs:381-383 | The loop ends at the fork, or halts exactly when a block above it has only its coinbase, and then on such a block |
| Chain.Chain.BuildQueue | src/blockchain/chain.rs:339-373 | The queue leads from the main chain to the heaviest end through the block, and is empty exactly when that is no gain |
| ChainSteps.QueueIsRight | src/blockchain/chain.rs:341-373 | The way back and the way on make that queue |
| ChainSteps.ChildIsQueuedAlone | src/blockchain/chain.rs:341-373 | A new block on the main chain with more work than the tip is queued alone |
| Chain.Chain.ConnectAll | src/blockchain/chain.rs:389-396 | All of the queue is connected exactly when every block is fit, otherwise everything below the first that is not |
| Chain.Chain.ConnectBest | src/blockchain/chain.rs:329-399 | When it is done, fails or halts, each exactly; done, the tip is the best again and moved only to more work; failed, exactly when it is still the best |
| ChainSteps.RuleAfterFailure | src/blockchain/chain.rs:387-396 | After a failed connect, exactly when the best-chain rule holds, in terms of the state before it; it is lost whenever the tip has less work than before |
| ChainWitness.LosesTheBestChain | src/blockchain/chain.rs:381-396 | A run from an empty database to a fork whose first block has a coinbase that claims more than the subsidy: the connect fails and the tip is not the best |
| ChainWitness.HaltsOnAnEmptyBlock | src/blockchain/chain_db.rs:334-336 | A run from an empty database that halts on a coinbase-only block |
| Chain.Chain.Add | src/blockchain/chain.rs:157-173 | Which of its outcomes a block has, each exactly; invariant and best-chain rule are kept, after a failure under the exact condition |
| Chain.Chain.Attach | src/blockchain/chain.rs:276-289 | So for attaching a stored branch |
| Chain.Chain.Run | src/blockchain/chain.rs:157-289 | Any sequence of headers, blocks and attaches in any order keeps them, and if none fails the tip has the most work of all complete branches, summed over headers; it halts only on a coinbase-only block above the fork of a better branch, with all that was stored in order |
| ChainSteps.StateIsTheReplay | src/blockchain/chain_db.rs:226-332 | In every reachable state the coins are the replay of the main chain, each with its origin, the supply is bounded, and all entries say what their headers say |
| ChainSteps.BestHasMostWork | src/blockchain/chain.rs:291-327 | The best-chain rule, counted from the work of the headers themselves: no complete branch has more than the tip's |
| MemPool.NoSharedInputs | src/mempool/mod.rs:143-148 | No two pooled transactions share an input |
| MemPool.ExactlyReached | src/mempool/mod.rs:314-342 | Removal that leaves no spender behind removes exactly what is reached |
| MemPool.MemPool.RemoveSpent | src/mempool/mod.rs:338-342 | The one spender goes, keys left over by others do no harm |
| MemPool.StaleKeysRemainUnless | src/mempool/mod.rs:338-342 | Removing a spender leaves stale keys behind exactly when it has another input, so only one direction of the index can be kept |
| MemPool.MemPool.RemoveSpenders | src/mempool/mod.rs:322-336 | All descendants of a removed transaction go, and the recursion ends |
| MemPool.MemPool.RemoveDoubleSpends | src/mempool/mod.rs:314-320 | Exactly the transactions that share an input go, and all their descendants |
| MemPool.MemPool.AddBlock | src/mempool/mod.rs:280-309 | The pool stays closed over the coins after the block, and nothing left conflicts with it |
| MemPool.MemPool.Confirm | src/mempool/mod.rs:292-298 | A confirmed transaction leaves with its keys |
| MemPool.MemPool.GetCoinView | src/mempool/mod.rs:201-232 | The view has exactly the coins pool and chain offer |
| MemPool.OfferedUnlessSpent | src/mempool/mod.rs:234-249 | Without stale keys the pool offers an output of a pooled transaction exactly when no pooled transaction spends it |
| MemPool.NewParentOffers | src/mempool/mod.rs:201-232 | A transaction that has just entered offers its outputs, as coins without a height |
| MemPool.MemPool.Check | src/mempool/mod.rs:110-162 | It passes exactly the admissible transactions |
| MemPool.MemPool.AddTx | src/mempool/mod.rs:110-179 | An admissible transaction enters pool and index, the index stays right and the pool closed; any other changes nothing |
| MemPool.AdmissiblePassesNext | src/mempool/mod.rs:181-195 | What is admitted on top of the chain alone passes the checks of the next block |
| MemPool.MemPool.RemoveBlock | src/mempool/mod.rs:251-278 | Exactly the transactions that are admissible in turn go back, never the coinbase |
| MemPool.ConfirmedKeepsClosed | src/mempool/mod.rs:293-298 | Outputs that become coins keep their spenders funded |
| MemPool.ConflictKeepsClosed | src/mempool/mod.rs:299-301 | What stands after a foreign transaction lost neither coin nor parent |
| MemPoolRun.AdmissibleIsNew | src/mempool/mod.rs:134-148 | No output of what may enter the pool ever was a coin on the chain, though only the live coins are looked at |
| MemPoolRun.NothingIsSpentAgain | src/mempool/mod.rs:280-309 | What a pooled transaction spends is a coin or never was one, and no other pooled transaction spends it |
| MemPoolRun.Run | src/mempool/mod.rs:110-309 | After any run of additions and block connects the pool is indexed, closed over the coins of the chain it ends on, and free of transactions with an output that ever was a coin |
| Download.PeerManager.GetBlock | src/net/new_peer_manager.rs:392-435 | Exactly the blocks that are still wanted are asked for, each from this peer only |
| Download.PeerManager.HandleBlock | src/net/new_peer_manager.rs:541-569 | A block that was asked for is queued once, the unwrap and the assertion hold; any other is refused |
| Download.PeerManager.HandleAnswer | src/net/new_peer_manager.rs:571-575 | Success unmarks the block, failure leaves it marked |
| Download.PeerManager.AddNext | src/net/new_peer_manager.rs:859-871 | The adding thread never meets a block that is there already |
| Download.PeerManager.PeerDisconnected | src/net/new_peer_manager.rs:124-135 | Exactly what was in flight from the peer is free to be asked for again |
| Download.PeerManager.StopPeer | src/net/new_peer_manager.rs:770-808 | The waiting handler is dropped with the connection and everything stays safe |
| Download.PeerManager.Run | src/net/new_peer_manager.rs:80-108 | Under every interleaving the maps agree, in flight is apart from verifying and downloaded, nothing is queued twice, no peer has more than 16, and what is stuck stays so |
| Download.PeerManager.Finish | src/net/new_peer_manager.rs:566-575 | A marked block that is not stuck can be unmarked |
| Download.StuckIsLeftAlone | src/net/new_peer_manager.rs:330-338 | A stuck block is not in flight, and the planner neither asks for it nor notes it |
| Download.StoppingSticks | src/net/new_peer_manager.rs:770-790 | A handler dropped while it waits leaves its block stuck |
| Download.AnsweringUnmarks | src/net/new_peer_manager.rs:571-573 | An answer unmarks a block exactly when it is good |
| Download.ReceivingIsSafe | src/net/new_peer_manager.rs:544-564 | What a peer was asked for is in the global map and not being verified |
| Download.RequestingIsSafe | src/net/new_peer_manager.rs:377-435 | Carrying out a plan, made earlier under the lock, keeps the limit and the maps |
| Download.AddingIsSafe | src/net/new_peer_manager.rs:863-871 | The head of the queue is not downloaded, and adding it keeps everything safe |
| Download.DrainingIsSafe | src/net/new_peer_manager.rs:129-135 | Draining a peer keeps the two sides of the map in agreement |
| Download.Scan | src/net/new_peer_manager.rs:309-359 | One stretch of entries is looked at in the code's order; by how it ended, what it noted, asked for and passed over |
| Download.GetNextBlocks | src/net/new_peer_manager.rs:254-380 | The plan has distinct blocks above the common ancestor within window and limit, none needlessly; a full plan leaves nothing out below its last block, one ends with nothing asked only on an invalid block or without room, and any other leaves nothing out, notes exactly the blocks that are there and can be attached, lowest first, moves the common block up to the highest on the main chain, and names who holds up the window |
| BlockStore.AppendingAdds | src/blockstore/mod.rs:277-315 | Appending adds exactly the new record and keeps every other record's bytes |
| BlockStore.CreatingKeeps | src/blockstore/mod.rs:247-249 | Creating a file truncates no live record |
| BlockStore.PruningRemoves | src/blockstore/mod.rs:394-424 | Pruning removes exactly one record, and a file only with its last |
| BlockStore.BlockStore.Allocate | src/blockstore/mod.rs:217-252 | The last file if it has room and otherwise the next, created if not in use; there is room, and nothing stored is touched |
| BlockStore.BlockStore.Write | src/blockstore/mod.rs:262-318 | The bytes are stored under the hash, once, behind magic, length and for undo records the hash; records stay disjoint and within the used part |
| BlockStore.LittleEndianReadsBack | src/blockstore/mod.rs:283-289 | A number before the data reads back from its bytes, if it fits them |
| BlockStore.BlockStore.Read | src/blockstore/mod.rs:356-387 | Exactly the stored bytes of the stretch, or nothing exactly when there is no record |
| BlockStore.BlockStore.Prune | src/blockstore/mod.rs:394-424 | Exactly the one record is gone, and it says whether there was one |
| CompactBlock.New | src/net/compact_block.rs:19-65 | Each prefilled transaction has the slot at the sender's position, the short ids have the others in order; it halts exactly when an assertion fails or an index is out of bounds, and refuses exactly when a short id occurs twice |
| CompactBlock.PositionIsSent | src/net/compact_block.rs:34-38 | Adding up the gaps that were sent gives the positions the sender chose (section 'PrefilledTransaction' of BIP 152) |
| CompactBlock.AssertionsProtectUnless | src/net/compact_block.rs:36-38 | The assertions let an index out of bounds through exactly for a single transaction placed right behind the last slot |
| CompactBlock.NextSlot | src/net/compact_block.rs:45-48 | The search for the next empty slot stays in bounds, by counting |
| CompactBlock.PrefilledCounts | src/net/compact_block.rs:34-40 | As many slots are filled as transactions were sent along |
| CompactBlock.CompactBlock.FillMempool | src/net/compact_block.rs:67-98 | Each slot has its only match; when it says so nothing is missing; by how much the count falls short; it halts exactly when arithmetic is checked and the count goes below zero |
| CompactBlock.NoExcess | src/net/compact_block.rs:83-88 | The count is right exactly when no short id is matched more than twice |
| CompactBlock.ThreeMatchesUnderflow | src/net/compact_block.rs:83-88 | With nothing prefilled, three matches of one short id make the count go below zero |
| CompactBlock.HonestPoolNeverUnderflows | src/net/compact_block.rs:67-98 | A pool of distinct transactions without false matches never does |
| CompactBlock.CompactBlock.FillMissing | src/net/compact_block.rs:100-116 | The missing slots are filled in order, and it succeeds exactly when the numbers match |
| CompactBlock.CompactBlock.BlockTransactionsRequest | src/net/compact_block.rs:122-139 | Exactly the missing indexes, in order |
| CompactBlock.CompactBlock.ToBlock | src/net/compact_block.rs:142-148 | The block with exactly the slots' transactions |
| CompactBlock.Rebuild | src/net/compact_block.rs:19-148 | The round trip: a block sent with any choice of positions, the pool and the sender's answer give the block back exactly when short ids are distinct, the assertions pass and no checked count goes below zero (sections 'HeaderAndShortIDs' and 'Short transaction IDs' of BIP 152) |
| CompactBlock.AssertionsPassWhen | src/net/compact_block.rs:36-37 | A proper encoding passes the assertions exactly when its last prefilled position is small enough |
| CompactBlock.SentWholePassesWhen | src/net/compact_block.rs:36-37 | A block sent whole passes only with at most two transactions |

## Left out

- The database engine, file handles, sockets, task scheduling, logging and the clock: maps, byte sequences, atomic steps and parameters stand for them.
- Scripts, signatures, proof of work, Merkle roots, witness commitments, signature operations, finality and sequence locks: fixed verdicts, as they are library calls or plain counting.
- The retargeting of the difficulty and the compact target encoding: they rest on library arithmetic; the check of the bits is one of the `otherChecks` of a header.
- Checks.VerifyDuplicates: takes the table of BIP 30 exceptions as empty, because such a block overwrites live coins and no undo record brings those back.
- Checks.CheckBody: Merkle root and signature operations are one verdict, `otherChecks`.
- Checks.VerifyTx: sequence locks, signature operations and scripts are one fixed verdict for a transaction in its block.
- ChainSteps.VerifyContext: takes the coinbases of a chain as different at the heights where the duplicate check is skipped (`Replay.CoinbaseRule`), as BIP 34 intends.
- Chain.Chain.AddHeader: proof of work, target and version rules are one verdict, `otherChecks`.
- Chain.Chain.Run: a halted run ends.
- Chain.Chain.Reopen: which blocks were invalid is forgotten on reopening, as the set is only in memory; the best-chain rule is not claimed across it.
- Chain.Chain.BuildQueue: queues entries only; the parent and the block that the source queues beside each entry are what the store gives for it.
- DeploymentStatus.GetDeploymentStatus: compared with BIP 9 for a start time no later than the timeout; the rules by which blocks are verified take script flags as fixed by the block, and the cache is not tied to the database's batches.
- DeploymentStatus.VersionBitsCache.Drop: takes updated entries out rather than restoring what they replaced, as the code does.
- Columns.SaveView: the undo store and the block store are maps in the chain database; that flat files implement such maps is proved separately in `BlockStore`.
- Headers.GetAncestor: heights are below 2^31 - 1, where the signed comparisons of the source agree with those on numbers.
- BlockRuns.CountBlock: the counters are unbounded above; that `value` fits 64 bits follows from the supply bound, `tx` and `coin` are taken to fit.
- Coins.CoinReadsBack: fields are atomic tokens; the byte layout of each is the encoding library's.
- BlockStore.BlockStore.Write: a crash between creating a file and writing the index, and the reindexing of files, are not modelled; lengths fit 32 bits because of the file limit.
- CompactBlock.CompactBlock.FillMempool: unchecked, the count is an integer below zero where the source's wraps; the two compare alike with the number of transactions; identifiers of transactions are their txids, where the source uses the witness hash.
- MemPool.MemPool.RemoveBlock: closure of the pool is not claimed after a disconnect, as failed re-additions are ignored and their descendants stay.
- MemPool.MemPool.Check: version, witness, finality, lock and script tests are verdicts.
- MemPool.MemPool.AddTx: the same; closure assumes that outputs spent in the pool are spendable, which running their scripts makes sure of.
- MemPoolRun.Run: additions and block connects only; blocks are such as may be connected, with coinbases new to the chain, as the chain engine sees to; and scripts that can never be satisfied are taken to fail.
- Download.PeerManager.AddNext: an attach always succeeds; in the source one that fails ends the adding thread, and with it all adding.
- Download.PeerManager.Run: header sync, transaction relay, stalling timers and the choice of peers are not modelled; a peer's address is never used again.
- Listeners, indexers, address book, bloom filters, the miner and the block locator: easy or bound to libraries.
