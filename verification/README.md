# Redgold node core: a Dafny model

Redgold is a peer to peer ledger. A node takes transactions from a mempool, runs one task per transaction,
keeps three tables (`transactions`, `utxo`, `transaction_edge`), settles live double spends between its tasks
by least hash, and records what it has seen in a chain of Merkle-rooted observations. The project models that
core and proves what it keeps over every run.

| file | what it holds |
|---|---|
| `Ledger`, `LedgerRuns`, `LedgerRecords`, `LedgerLimits`, `Balances`, `LedgerExamples` | the tables as values, validation against them, histories of accepted transactions; conservation of outputs, of value and of balances; exactly where they fail |
| `TransactionStore`, `Resolver` | the store as an object updated in place, and the validation loops, proved against those values |
| `Contention`, `ContentionInvariant`, `ContentionTables`, `ContentionSafety`, `ContentionVerdicts`, `ContentionAborts`, `ContentionRace` | the double spend protocol as a state machine: one action is one step of one task, any interleaving of actions is a run |
| `Relay` | the shared pools and channels as an object, whose methods are proved to take the steps of that machine; resolution by least hash |
| `MerkleProofs`, `MerkleTrees` | checking of Merkle proofs, building of trees, reading of proofs off the built index |
| `Signing` | clearing, hashing, signing and proof checking of transactions |
| `Observations` | the observation buffer, its chain and its batches of ancestors |
| `Mempool`, `RateLimiter`, `Vote`, `Download`, `Udp`, `XorDistance` | the heap and its index, the faucet limiter, the trust weighted vote, the day by day download, reassembly of UDP parts, the distance between hashes |
| `Common`, `Hashes`, `Sums` | shared types, the order of hashes, sums over sets and sequences |

Things the code does that one might not expect, each stated as a theorem:

- Least hash resolution does not exclude a double spend. Of two decided tasks in one pool both win exactly when
  the second to register has the smaller hash, the first has that notice unread, and neither has read of a
  smaller third (`BothWinIff`). From every reachable state such a run exists for any two new transactions that
  could each be accepted, share an output and are beaten by no registrant on their outputs (`DoubleSpendRun`).
  Runs that are orderly in the sense of `Orderly` have none (`NoTwoWinners`, `OrderlyLedger`).
- Nothing is rolled back when an insertion fails, and validation does not look at what makes it fail: an output
  without an address, a fixed id without a hash, a missing time (`Complete`). The rows written stay, the consumed
  rows stay too, so the supply grows by the rows written and an output can be spent again in a serial run
  (`CommitSupply`, `FailedCommit`, `SpentTwiceOnlyIfFailed`, `TimelessSpendsTwice`).
- An input that carries a fixed and a floating id is not resolved, yet its row is deleted and its edge written.
  The supply and the balance of the owner fall by exactly what such rows are worth (`RunSupply`, `BalanceLaw`,
  `DualReferenceBurns`).
- So each output is in exactly one of the two tables, the supply is what genesis issued and a balance is what was
  received less what was signed away whenever neither happens, and in general exactly as `SerialLedger`,
  `OneTableIff` and `BalanceLaw` say.
- Reading a proof off a Merkle tree runs for ever when the root is itself a child (`RootIndexedNeverEnds`). That
  needs a broken hash function (`EndlessTree`): without collisions, and with leafs that are no combinations, it
  never happens (`RootUnindexed`). A proof without nodes verifies for any leaf and root (`Verify`).
- A tick of the observation buffer that the store refuses drops the buffered metadata (`FailedTickLoses`).
- The UDP sender gives every part an identifier of its own, so only payloads of 1 to 1024 bytes arrive
  (`EndToEndIff`), although the receiver rebuilds any payload sent under one identifier (`ReassemblesOnce`).
- An input signed twice by its owner no longer verifies (`InputVerifiesIff`).
- The XOR distance of hashes of unequal length is no metric (`TriangleIff`).
- The rate limiter admits 32 requests of a new origin in a day, and 31 of one it readmits (`BurstAdmits`,
  `ReadmittedDayLimit`).

Hash functions, signatures and encodings are arbitrary functions given as parameters. Where a property needs
one to be free of collisions that is a premise on that function, over an abstract type of hashes. Time,
randomness, answers of peers and outcomes of channels and of the database are parameters too.

## Model

| member | source | states |
|---|---|---|
| `Resolver.Prevalidate` | keys/src/transaction_support.rs:96-179 | the checks in source order succeed exactly when: at most 10 000 bytes, a known network, no contract on the main one, a message of at most 40 bytes, an input and an output, no two inputs with one fixed id, every input signed, no index over 5000, and a proof on every input except those with a floating id and no fixed one; the duplicate error exactly when the header passes and a fixed id repeats |
| `Resolver.DistinctIdsIff` | keys/src/transaction_support.rs:114-122 | the list of fixed ids has no repeat exactly when no two inputs name one id |
| `Resolver.ResolveTransaction` | src/core/resolver.rs:325-355 | on tables whose rows are stored outputs: succeeds exactly when every input without a floating id names, by a hash, an existing row paid to the address of its proofs, and is signed; then it gives those rows in order; otherwise the error is that of the first input for which this fails, told apart by no id, no hash, unknown parent, no row, wrong owner or signature |
| `Resolver.OneResolution` | src/core/resolver.rs:163-257 | one input by the same conditions: every row can be spent by its owner, whatever its index, and nothing else can |
| `Resolver.TotalAmount` | src/core/resolver.rs:295-304 | the loop computes the total, an output without amount counting zero |
| `Resolver.Validate` | src/core/resolver.rs:306-313 | on such tables: succeeds exactly when all inputs are so and the rows they name add up to the outputs; the mismatch error exactly when the inputs resolve and do not balance |
| `TransactionStores.TransactionStore.InsertUtxo` | data/src/transaction_store.rs:688-722 | refused, changing nothing, exactly when the output has no address or the key exists |
| `TransactionStores.TransactionStore.DeleteUtxo` | data/src/transaction_store.rs:404-423 | removes that row only and reports how many rows it removed |
| `TransactionStores.TransactionStore.QueryUtxoIdValid` | data/src/transaction_store.rs:278-300 | on tables that record a history: true exactly when the row of the output was written and no commit since has deleted it |
| `TransactionStores.TransactionStore.UtxoUsed` | data/src/transaction_store.rs:460-475 | on tables that record a history: names a stored transaction and the index of its input that names the output, and nothing exactly when no edge was written for it |
| `TransactionStores.TransactionStore.InsertRows` | data/src/transaction_store.rs:638-642 | writes the rows before the first output without an address or whose key exists, and stops there |
| `TransactionStores.TransactionStore.InsertEdges` | data/src/transaction_store.rs:648-658 | adds one edge for every fixed input before the first without a hash, later ones replacing earlier; goes through exactly when none lacks it |
| `TransactionStores.TransactionStore.InsertAddressTransaction` | data/src/transaction_store.rs:605-626 | goes through exactly when every output has an address and there is a time |
| `TransactionStores.TransactionStore.InsertTransaction` | data/src/transaction_store.rs:628-646 | goes through exactly when the rows fit, every output has an address, every fixed id a hash, and there is a time; what is left behind wherever it stops |
| `Ledger.CompleteIff` | data/src/transaction_store.rs:605-661 | an insertion into tables that have room goes through exactly when every output has an address, every fixed id a hash, and there is a time |
| `TransactionStores.TransactionStore.DeleteConsumed` | src/core/process_transaction.rs:702-711 | removes exactly the consumed rows, and the look after each finds it gone |
| `TransactionStores.TransactionStore.Commit` | src/core/process_transaction.rs:684-714 | goes through exactly when the insertion does; whether it does or not, the tables become `Committed`, the step of the serial runs, and go on recording the history |
| `TransactionStores.TransactionStore.GetBalance` | data/src/transaction_store.rs:302-318 | the loop computes the balance of the address and reports it exactly when it is positive |
| `Ledger.UnspentValue` | src/core/process_transaction.rs:684-714 | under any valuation the unspent outputs are worth the rows written less the rows to be deleted |
| `Ledger.BalancedHistory` | src/core/resolver.rs:306-313 | balanced transactions consume what they produce, so only the first and those whose insertion fails add value |
| `Ledger.SupplyLaw` | src/core/resolver.rs:295-313 | a table of the unspent outputs of a balanced history, with or without rows still to be deleted, is worth what the first transaction issued, plus what failed insertions added, plus the value of every repeated consumption, plus what is still to be deleted |
| `LedgerRuns.ResolvedInput` | src/core/resolver.rs:187-198 | every input that resolution looks at consumes a row whose parent output belongs to its signer |
| `LedgerRuns.NewFits` | data/src/transaction_store.rs:688-722 | the insertion of a transaction the store does not know never meets an existing row |
| `LedgerLimits.SerialLedger` | src/core/process_transaction.rs:684-714 | over every serial run of any transactions: what rows and edges there are, that each output is in exactly one table if and only if none is astray, and what the supply is; if no input carries both ids and no insertion fails, each output is in exactly one table, the rows are produced less consumed, and the supply is what genesis issued |
| `LedgerRecords.RecordsExtend` | src/core/process_transaction.rs:684-714 | one acceptance of any transaction, whether its insertion goes through or stops, keeps the tables a record of the history |
| `LedgerRecords.RunRecords` | src/core/process_transaction.rs:684-714 | after every serial run of any transactions a row is there exactly for an output written and not deleted since, an edge exactly for one linked, and every input that resolution looked at was unspent at the time |
| `LedgerRecords.NoReplay` | src/core/relay.rs:177-188 | no run accepts a transaction whose hash it has stored |
| `LedgerRecords.SpentTwiceOnlyIfFailed` | src/core/resolver.rs:187-198 | in a serial run an output is spent again only if the insertion of its first spender failed half way |
| `LedgerRecords.ResolvesAgainIff` | src/core/resolver.rs:325-355 | resolution alone would pass an accepted transaction that was inserted whole again exactly when all its inputs are floating; the look at known hashes covers those |
| `LedgerRecords.OutputStanding` | data/src/transaction_store.rs:628-661 | an output is in both tables exactly when an edge was written for it before its row, or by an insertion that failed, and nothing has deleted the row since; in neither exactly when the insertion stopped before its row and no edge names it |
| `LedgerRecords.OneTableIff` | data/src/transaction_store.rs:628-661 | over every serial run each output is in exactly one table if and only if none is in those two cases |
| `LedgerRecords.RegularNotAstray` | src/core/resolver.rs:187-198 | without inputs that carry both ids and with every insertion going through none is |
| `Balances.BalanceLaw` | data/src/transaction_store.rs:302-318 | over every serial run of any transactions a balance is what was received, less what its own keys signed away, plus what of that failed insertions did not take, less what was taken unsigned; so received less signed away exactly when the last two are equal, and always if no input carries both ids and no insertion fails |
| `Balances.RunBalancesSum` | schema/src/address.rs:156-174 | over every serial run the balances of all holders add up to the total of the table |
| `Balances.CommitBalance` | src/core/process_transaction.rs:684-714 | for every transaction and address: one commit adds what its written rows pay and, if it goes through, takes what the address's own keys sign away and its rows named by inputs that resolution passed over |
| `LedgerLimits.CommitSupply` | src/core/process_transaction.rs:684-714 | for every accepted transaction: a commit that goes through loses exactly the rows named by inputs that resolution passed over, one that fails gains exactly the rows it wrote |
| `LedgerLimits.SupplyKeptIff` | src/core/resolver.rs:306-313 | one commit keeps the supply exactly when that loss or gain is nothing, so always when no input carries both ids and the insertion goes through |
| `LedgerLimits.FailedCommit` | data/src/transaction_store.rs:605-661 | an insertion that fails leaves every unspent output it has linked in both tables, ready to be spent again, and adds its rows to the supply |
| `LedgerLimits.RunSupply` | src/core/process_transaction.rs:684-714 | over every serial run of any transactions the supply is what genesis issued less exactly those losses plus exactly those gains |
| `LedgerExamples.DualReferenceBurns` | src/core/resolver.rs:333-334 | a run in which a stranger's input with both ids destroys the row of an owner who signed nothing away: supply and balance fall from 5 to 0 |
| `LedgerExamples.EarlyReferenceInBoth` | src/core/resolver.rs:333-334 | a run in which such an input names an output before it exists, and leaves it in both tables |
| `LedgerExamples.TimelessSpendsTwice` | data/src/transaction_store.rs:615-616 | a run in which a transaction without a time leaves its input unspent, the next spends it again, and the supply doubles |
| `ContentionInvariant.LeastFacts` | src/core/process_transaction.rs:98-149 | the winner is in the list and no hash of the list is smaller |
| `ContentionInvariant.RegisterKeeps` | src/core/process_transaction.rs:382-416 | registration on one pool, with others registering in between, keeps the invariant: newcomers know all before them, and those are sent the newcomer |
| `ContentionInvariant.AnnounceKeeps` | src/core/process_transaction.rs:531-537 | an abort goes only to rivals of greater hash |
| `ContentionInvariant.NextKeeps` | src/core/process_transaction.rs:331-653 | every step of every task keeps the invariant of pools, channels and verdicts |
| `ContentionInvariant.RunKeeps` | src/core/process_transaction.rs:331-653 | the invariant holds in every reachable state |
| `ContentionTables.InsertFits` | data/src/transaction_store.rs:688-722 | the insertion of a winner never meets an existing row |
| `ContentionTables.NextTables` | src/core/process_transaction.rs:331-714 | every step keeps rows, stored transactions and tasks in line, insertions that fail and deletions half done included, and every task past its first validation balances and owns what it consumes |
| `ContentionTables.RunTables` | src/core/process_transaction.rs:684-714 | so in every reachable state |
| `ContentionSafety.PoolAwareness` | src/core/process_transaction.rs:382-416 | of two tasks in one pool the later has the earlier among its conflicts, and the earlier has read the later's notice or has it waiting |
| `ContentionSafety.RejectionCause` | src/core/process_transaction.rs:477-538 | a lost resolution or a received abort is due to a registrant of strictly smaller hash that consumes a common output |
| `ContentionSafety.LeastNeverRejected` | src/core/process_transaction.rs:477-538 | the least hash on its pools is never rejected as a double spend |
| `ContentionSafety.WinnersRace` | src/core/process_transaction.rs:477-538 | of two winners on one output the earlier registrant has the greater hash and the notice of the other unread |
| `ContentionSafety.NoTwoWinners` | src/core/process_transaction.rs:420-544 | no output has two winners when, for each pair of spenders, at some moment both had registered and read each other, or the row was gone before one looked again, or one was rejected |
| `ContentionSafety.ConcurrentSupply` | src/core/process_transaction.rs:684-714 | in every reachable state of any interleaving the supply is what genesis issued, plus what failed insertions gained, plus the value of the double spends, plus the consumed rows still to be deleted; at rest there are none of these and the rows are the unspent outputs |
| `ContentionSafety.StoredApart` | src/core/process_transaction.rs:420-544 | stored transactions of an orderly run have no consumed output in common |
| `ContentionSafety.OrderlyLedger` | src/core/process_transaction.rs:331-653 | an orderly run consumes no output twice and at rest its supply is what genesis issued plus what failed insertions gained |
| `ContentionVerdicts.RunExplained` | src/core/process_transaction.rs:477-538 | in every reachable state an abort in a channel was preceded by the notice of its sender, and a rejected task has read its winner |
| `ContentionVerdicts.WonIff` | src/core/process_transaction.rs:514-538 | a decided task has won exactly when its hash is smaller than every conflict it has read |
| `ContentionVerdicts.BothWinIff` | src/core/process_transaction.rs:477-538 | two decided tasks in one pool both win if and only if the second registrant has the smaller hash, the first has its notice unread, and each is smaller than every other conflict it has read |
| `ContentionAborts.RunAborts` | src/core/process_transaction.rs:477-538 | in every reachable state the conflicts a winner has announced to so far, and nobody else, have its abort |
| `ContentionAborts.WinnersTell` | src/core/process_transaction.rs:531-538 | whoever has an abort has it from a winner, and a winner that has come to its insertion has told every conflict it read: each has the abort waiting or was rejected by it |
| `ContentionAborts.ChecksExactly` | src/core/resolver.rs:163-257 | in every reachable state a check passes exactly the signed inputs that name a row of their owner, and rejects any other with the error that fits it |
| `ContentionAborts.SecondBalances` | src/core/process_transaction.rs:418-433 | the second validation never fails on the balance, only on a row that has gone |
| `ContentionRace.DoubleSpendRun` | src/core/process_transaction.rs:477-544 | from every reachable state, any two new transactions that could each be accepted, share an output and are beaten by no registrant on their outputs have a continuation that stores both, and accepts both if both can be inserted whole |
| `Relays.ResolveConflict` | src/core/process_transaction.rs:98-149 | gives a listed hash, and every other listed hash either has it as a proper prefix or is larger at the first byte where they differ, whatever the trust |
| `Hashes.LessIff` | src/core/process_transaction.rs:146-147 | the order of hashes: a proper prefix, or smaller at the first byte where they differ |
| `Relays.WinnerDependsOnHashes` | src/core/process_transaction.rs:98-149 | the winner is the same for any order or duplication of the list |
| `Relays.Relay.Notify` | src/core/process_transaction.rs:395-416 | every request of the pool, and nobody else, is sent the notice once |
| `Relays.Relay.Register` | src/core/process_transaction.rs:382-416 | the in place registration takes exactly the registration step |
| `Relays.Relay.Listen` | src/core/process_transaction.rs:477-491 | the window takes receive steps only, and ends when its limit is reached, the channel is empty or an abort was read |
| `Relays.Relay.Resolve` | src/core/process_transaction.rs:514-530 | the in place resolution takes exactly the resolution step |
| `Relays.Relay.AnnounceOne` | src/core/process_transaction.rs:531-537 | one abort message takes exactly one announcement step |
| `Relays.Relay.AnnounceAll` | src/core/process_transaction.rs:531-537 | the winner takes one announcement step for each conflict and is then ready to insert |
| `MerkleProofs.Verify` | schema/src/merkle_proof.rs:19-51 | accepts exactly the empty node lists and those whose leaf climbs pair by pair to the root; only an odd list runs past its end |
| `MerkleProofs.Locate` | schema/src/merkle_proof.rs:19-51 | what climbs to the root of any hash tree sits in it at depth half the node count, or the hash function is broken |
| `MerkleProofs.VerifiedIsIn` | schema/src/hash.rs:60-64 | with a collision free combination and leaves that are no combinations, a verified leaf is a leaf of the tree at that depth |
| `MerkleProofs.PathVerifies` | schema/src/merkle_proof.rs:19-51 | the sibling pairs along any path of any tree verify |
| `MerkleTrees.CombineLevel` | schema/src/util/merkle.rs:80-92 | one pass combines neighbours from left to right |
| `MerkleTrees.BuildEntries` | schema/src/util/merkle.rs:68-100 | the loop ends and yields all levels, lowest first, the root last; each entry by its position combines the hashes at `2i` and `2i + 1` one level down, the last of an odd number combined with itself |
| `MerkleTrees.EntriesByPosition` | schema/src/util/merkle.rs:62-100 | level by level recursion with padding is the tree by positions, which names every entry |
| `MerkleTrees.RootAt` | schema/src/util/merkle.rs:62-100 | the root is the one hash of the top level of the tree by positions |
| `MerkleTrees.EntriesLinked` | schema/src/util/merkle.rs:79-97 | the parent of every entry but the last is a child of a later entry |
| `MerkleTrees.IndexIsLast` | schema/src/util/merkle.rs:23-29 | the index holds for each child the last entry that has it |
| `MerkleTrees.Proof` | schema/src/util/merkle.rs:40-59 | for every tree: no proof exactly when the leaf is indexed and the root is a child; otherwise the loop ends, the proof of an indexed hash climbs to the root and any other hash gets an empty proof |
| `MerkleTrees.RootIndexedNeverEnds` | schema/src/util/merkle.rs:43-53 | otherwise every turn from an indexed hash stays in the index |
| `MerkleTrees.RootUnindexed` | schema/src/util/merkle.rs:68-100 | with a collision free combination and leafs that are no combinations the root is no child of any entry, so every proof is given |
| `MerkleTrees.EndlessTree` | schema/src/util/merkle.rs:43-53 | a hash function so broken that the endless case occurs |
| `MerkleTrees.TreeOverHash` | schema/src/util/merkle.rs:62-100 | the built root is the hash of the balanced tree over the padded leafs |
| `MerkleTrees.ProvableIffLeaf` | schema/src/util/merkle.rs:62-100 | for a built root, a hash that is no combination has a verifying non-empty proof exactly when it is one of the leafs |
| `Signing.Draft.HashClear` | schema/src/transaction.rs:90-100 | drops the enrichment of every input and the five stored hashes, and nothing else |
| `Signing.Draft.ClearProofs` | schema/src/transaction.rs:409-433 | drops input, counter party and confirmation proofs and nothing else |
| `Signing.Draft.ComputeHash` | schema/src/lib.rs:289-294 | the digest of the cleared transaction, which stays as it was |
| `Signing.Draft.ComputeSignableHash` | schema/src/transaction.rs:435-441 | the digest of the transaction without proofs, which stays as it was |
| `Signing.HashCovers` | schema/src/transaction.rs:90-100 | with an injective digest two transactions have one hash exactly when they agree on outputs, options, the id and proofs of every input, time and version |
| `Signing.SignableCovers` | schema/src/transaction.rs:435-441 | and one signable hash exactly when they agree on all of that apart from input, counter party and confirmation proofs |
| `Signing.Draft.Sign` | keys/src/transaction_support.rs:57-77 | pushes a proof onto exactly the inputs the key owns and refreshes the stored hashes; fails exactly on a missing address, missing metadata or nothing to sign |
| `Signing.VerifyProofs` | keys/src/proof_support.rs:65-81 | accepts exactly when the keys together hash to the address and every signature verifies |
| `Signing.KeysJoin` | schema/src/proof.rs:45-53 | the keys are joined in the order of the proofs |
| `Signing.SignableUnchanged` | schema/src/transaction.rs:435-441 | signing never changes the signable hash |
| `Signing.StoredHashCurrent` | schema/src/lib.rs:364-374 | after signing the stored hash is the recomputed one |
| `Signing.RunOfSignatures` | keys/src/transaction_support.rs:57-77 | over any sequence of keys each input collects exactly the proofs of its owners, in order, over one signable hash; outputs, options and all metadata but the two stored hashes stay |
| `Signing.InputVerifiesIff` | schema/src/proof.rs:45-53 | an input that started without proofs verifies exactly when it was signed once by an owner |
| `Signing.SignedOnceByEach` | keys/src/transaction_support.rs:57-77 | signed once by each owning key in any order, every input verifies and the stored hash is current |
| `Observations.BuildProofs` | schema/src/observation.rs:70-86 | one proof for each metadata, in order, each leading from its hash to the sealed root; none exactly when reading them never ends |
| `Observations.SoundIsProvable` | schema/src/observation.rs:70-86 | with sound hash functions reading the proofs always ends |
| `Observations.ObservationBuffer.ProcessIncoming` | src/core/observation.rs:168-176 | metadata without a hash is ignored; any other is appended and its sender subscribed |
| `Observations.ObservationBuffer.SealAncestors` | src/core/observation.rs:198-206 | a root exactly for a full batch, which is then cleared |
| `Observations.ObservationBuffer.FormObservation` | src/core/observation.rs:178-254 | the tick step of the chain, with a good proof for every metadata sealed; refused exactly when there was data and the store refused, endless exactly when it stored and the root is a child |
| `Observations.ObservationBuffer.FormAndRespond` | src/core/observation.rs:155-166 | the tick, and every subscriber of a sealed hash is sent its proof |
| `Observations.TickKeepsChain` | src/core/observation.rs:192-226 | the new observation is one higher, names its predecessor's observation output and carries an ancestor root exactly at every thousandth |
| `Observations.RunConserves` | src/core/observation.rs:168-226 | over every run the sealed metadata followed by the buffer is what arrived, in order |
| `Observations.RunLaw` | src/core/observation.rs:168-226 | conservation, linked chain, and batches: the ancestor list is the unfinished batch, never over a thousand, and every root is that of the thousand before it |
| `Observations.RunSubscribers` | src/core/observation.rs:155-176 | over every run a hash has a subscriber exactly if it arrived, and it is the sender of its last arrival |
| `Observations.FailedTickLoses` | src/core/observation.rs:187-221 | after a refused tick nothing is lost exactly when the buffer was empty |
| `Mempools.Mempool.Push` | src/core/mempool.rs:24-28 | heap and index grow together |
| `Mempools.Mempool.Pop` | src/core/mempool.rs:30-36 | gives out an entry of least total and takes it from heap and index |
| `Mempools.Mempool.TakeIn` | src/core/mempool.rs:75-93 | a message is refused exactly when it is known, or its hash was held, or an earlier message of the tick brought it; any other is held |
| `Mempools.Mempool.Offer` | src/core/mempool.rs:94-107 | a sent entry leaves, a full channel gives it back, a closed one loses it |
| `Mempools.Mempool.Forward` | src/core/mempool.rs:94-113 | entries leave in ascending order of total, none above what stays, until the heap is empty or the channel full |
| `Mempools.Mempool.IntervalFold` | src/core/mempool.rs:69-116 | index keys are the heap's hashes without repeats; exactly the known or held messages are refused; the rest is forwarded, least total first, or left with nothing left smaller |
| `Mempools.RunConserves` | src/core/mempool.rs:69-116 | over every run of ticks each received message is refused once, forwarded once or held once, and no hash is held twice |
| `Mempools.RunRefuses` | src/core/mempool.rs:75-93 | in every tick of every run exactly the messages that were known, or whose hash was already held, are refused |
| `Mempools.NothingDropped` | src/core/mempool.rs:94-113 | in every run whatever was not refused has been forwarded or is still held |
| `Mempools.ForwardedOnce` | src/core/relay.rs:177-188 | as long as forwarded transactions count as known no hash is forwarded twice, nor held once forwarded |
| `RateLimiter.Limiter.CheckRateLimit` | src/core/relay.rs:145-175 | decides and updates as the step function of the call sequences; the table error exactly above a million entries |
| `RateLimiter.CountBounded` | src/core/relay.rs:145-175 | the stored count stays in 0..31 |
| `RateLimiter.CountTracksAdmissions` | src/core/relay.rs:145-175 | within a day the stored count plus one bounds the admissions |
| `RateLimiter.WindowLimit` | src/core/relay.rs:145-175 | at most 32 admissions of one origin in any window of less than a day and a second |
| `RateLimiter.ReadmittedIff` | src/core/relay.rs:145-175 | over every call sequence: after a refusal a later call of the origin is admitted exactly when a day and a second have passed since its last admission, whatever others do and however often it was refused meanwhile, unless the table is over its limit |
| `RateLimiter.EntryKept` | src/core/relay.rs:145-175 | over every call sequence the entry of an origin changes at its own admissions only |
| `RateLimiter.BurstAdmits` | src/core/relay.rs:145-175 | the bound is met: of a burst exactly the first 32 calls are admitted |
| `RateLimiter.CountRestarts` | src/core/relay.rs:145-175 | from a readmission on the stored count is the number of admissions since, that one included |
| `RateLimiter.ReadmittedDayLimit` | src/core/relay.rs:145-175 | so in the day from a readmission on at most 31 requests are admitted |
| `RateLimiter.ReadmittedDayAdmits` | src/core/relay.rs:145-175 | and a request in that day is admitted exactly when fewer than 31 were before it, unless the table is over its limit |
| `Votes.Tally` | src/core/relay.rs:609-640 | the loop gives the trust of those that say valid less that of those that say invalid, each added up over the responses, and for each child that is named the trust of its namers |
| `Votes.UtxoIdValidPeers` | src/core/relay.rs:609-650 | nothing is reported when the trust of those that say valid exceeds that of those that say invalid, or no child was named; otherwise a child whose namers have the greatest trust |
| `Votes.OutcomeIsVerdict` | src/core/relay.rs:609-650 | the outcome by signed ballots is the one by those sums |
| `Votes.Unanimous` | src/core/relay.rs:623-649 | peers of positive trust that all say valid report nothing, that all say invalid report a named child if there is one |
| `Votes.VoteIgnoresOrder` | src/core/relay.rs:609-650 | the possible outcomes are the same for every order of the responses |
| `Votes.ClearWinner` | src/core/relay.rs:609-650 | with one heaviest child every order reports the same |
| `Downloads.DownloadAll` | src/data/download.rs:53-142 | stores exactly what the peer answers for the four kinds of one window, outputs with a live pool and known transactions aside, and reports data exactly when there was some |
| `Downloads.Download` | src/data/download.rs:202-217 | the loop ends at the first day count at which the minimum is reached or three days were empty, holding what those days brought |
| `Downloads.DriedUpItems` | src/data/download.rs:206-217 | three windows in a row bring nothing exactly when every item the peer holds of those days is one it failed to send |
| `Downloads.RoundsBounded` | src/data/download.rs:206-217 | no more rounds than days from the minimum to the start, rounded up |
| `Downloads.WindowsTile` | data/src/transaction_store.rs:49-74 | every instant of the covered span is in exactly one window and no other instant in any |
| `Downloads.DownloadComplete` | src/data/download.rs:202-217 | with every request answered, exactly the items of the covered span are stored other than outputs and transactions that were busy when their day was asked for; the span reaches the minimum unless the peer holds nothing of its last three days |
| `Udp.UdpServer.ProcessTyped` | src/api/udp_api.rs:285-328 | the in place update is the receive step on the message stamped with its arrival, sorting and joining loops included |
| `Udp.UdpServer.DropStale` | src/api/udp_api.rs:349-365 | the loops over all waiting parts take the expiry step of the runs: afterwards no waiting message holds a part older than 100 seconds, what went held one, and what stays keeps all its parts |
| `Udp.ExpiryExact` | src/api/udp_api.rs:349-365 | the expiry step by the ages of the parts |
| `Udp.UdpServer.HandleUdpOperation` | src/api/udp_api.rs:345-366 | every operation takes the step of the runs |
| `Udp.Send` | src/api/udp_api.rs:330-345 | one message for each chunk, numbered in order, each with its own identifier |
| `Udp.ChunksFlatten` | src/api/udp_api.rs:334-338 | the chunks are non-empty, all but the last of exactly 1024 bytes, and join into the payload |
| `Udp.SortStable` | src/api/udp_api.rs:304-306 | sorting keeps parts of one number in the order of their arrival |
| `Udp.PartsJoin` | src/api/udp_api.rs:304-314 | the parts sorted and joined are the payload, in whatever order they arrived |
| `Udp.RunIsLocal` | src/api/udp_api.rs:300-325 | what happens to one identifier in any run is what its own messages alone would do |
| `Udp.TimelyNeverExpires` | src/api/udp_api.rs:349-365 | parts that arrive no more than 100 seconds before any later expiry are never dropped |
| `Udp.ReassemblesOnce` | src/api/udp_api.rs:285-328 | any payload of two or more parts under one identifier, none of them too old at a later expiry, is delivered exactly once and exact, whatever the order and whatever arrives in between |
| `Udp.EndToEndIff` | src/api/udp_api.rs:196-206 | sender and receiver together, at any server and with any other traffic and expiries in between, deliver a payload exactly when it has 1 to 1024 bytes |
| `XorDistance.XorBit` | schema/src/hash.rs:74-83 | a digit of the exclusive or is set exactly when the operands differ in it |
| `XorDistance.XorVecBit` | schema/src/hash.rs:74-83 | and so in every byte of the combined hashes |
| `XorDistance.OneByteDistance` | schema/src/hash.rs:74-89 | the distance of two one-byte hashes is the number whose digits say where they differ |
| `XorDistance.DistanceAppends` | schema/src/hash.rs:85-89 | the distance of hashes of one length adds up over their bytes |
| `XorDistance.ZeroIffPrefix` | schema/src/hash.rs:85-89 | distance zero exactly when one hash is a prefix of the other: for one length, when they are equal |
| `XorDistance.Symmetric` | schema/src/hash.rs:85-89 | the distance is symmetric |
| `XorDistance.Bounded` | schema/src/hash.rs:85-89 | the distance is at most 255 times the shorter length |
| `XorDistance.Triangle` | schema/src/hash.rs:85-89 | the triangle inequality, so long as the middle hash reaches as far as the other two both do |
| `XorDistance.TriangleIff` | schema/src/hash.rs:74-89 | for given lengths it holds of all hashes exactly when the middle one is not shorter than both others |

## Left out

- Parents resolved by peers and the download of unknown inputs: a missing parent is an error here (`UnknownParent`).
- Removal of a finished request's channel, and the pools that are never emptied: channels of finished tasks stay in the model, so sending to one succeeds.
- A rejected transaction that is submitted again, into pools that still hold its old entry: in the protocol a hash is submitted once.
- Inputs with both ids in the double spend protocol: a submitted transaction has none there; the serial runs have them.
- A second copy of a transaction that passes the look at known hashes while the first waits between mempool and task: in a serial run the look and the acceptance are one step.
- Time columns, the rows of the address index, rejected-transaction rows, deploy and contract outputs.
- 64-bit wrap-around of amounts and heights: integers are unbounded.
- A crash or a database error between the statements of one insertion: it stops only where the transaction makes it stop. In the double spend protocol it is one step, and the deletions after it are separate steps.
- Rounding of trust: trust values are reals.
- `hash_or` taking the stored hash of a transaction on trust: a transaction has one hash.
- Addresses of several keys in `verify_proofs` beyond the condition it checks.
- Restart of the observation buffer from stored rows, and gossip of observations.
- The heap inside `BinaryHeap`, including which of two equal totals leaves first; `Ord::cmp` of its entries calls itself, but the heap compares with `partial_cmp`.
- The choice of genesis in the download, retries, and storage errors that end it.
- Socket addresses and authentication of UDP requests.
- HTTP and peer networking, the user interface, multi-party signing, contracts, pricing and the explorers: no part of this model.
- Mempools.ForwardedOnce: asks that what was forwarded counts as known, which a rejected transaction does not: the node forgets it, and would forward it again.
- LedgerRecords.ResolvesAgainIff: says nothing of a transaction whose insertion failed; its inputs may still be unspent.
- Signing.SignedOnceByEach: inputs are owned by single keys, as for an address of several keys the order of the proofs decides.
- Relays.Relay.Listen: the time limit of the window is a limit on the number of messages.
