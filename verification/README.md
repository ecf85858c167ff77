# A verified model of the zkEVM aggregator's core

The aggregator takes batches of L2 blocks from a data stream, has provers prove each batch,
merges the proofs pairwise, and settles a final proof on L1. This project models the parts of it
where a mistake would be silent, and proves what they promise.

**The proof pool** (`ProofTable`, `ProofPool*`, `ProofAggregator`). Any number of provers share the
table of recursive proofs. They insert single-batch proofs, lock adjacent pairs, merge them, unlock
them after failures and hand finished proofs to settlement. `ProofTable` has the tables and SQL
statements as a class with its functions, `ProofPool` the protocol: each statement or committed
transaction is a step of one agent, and steps interleave freely except inside the three "get and
lock" functions, which hold a mutex. Two invariants are proved. The one of `ProofPoolAlways` holds
in every run: payloads, sequence alignment, eligibility for settlement. The one of
`ProofPoolInvariant`, `ProofPoolTheorems` and `ProofPoolSteps` adds disjoint rows and their owners,
and holds until an insert collides with a discarded proof. `ProofPoolRuns` carries it over runs and
shows that safety fails exactly there, `ProofPoolProperties` reads off what it says about searches
and merges, `ProofPoolRace` is a run that collides, and `ProofPoolOverlap` one that goes on to
overlapping rows. `ProofPoolMoves` spells out when steps are possible and what they leave.
`ProofAggregator` is one prover's own code as imperative methods on the storage, and `ProofRounds`
shows, for every outcome of the calls, that its rounds are runs of the protocol with the same table
at the end.

**The L1 info tree** (`InfoTree`). An incremental Merkle tree with one sibling per level, a
level-by-level builder and a Merkle proof generator, all against one reference: the root of the
perfect binary tree whose missing leaves are zero.

**The batch V2 codec** (`Bytes`, `Rlp`, `Transactions`, `BatchV2`, `BatchV2Theorems`). The encoder
class, the two parsers with their 64-bit arithmetic, RLP lists of byte strings (Appendix B of the
Ethereum Yellow Paper), and the signature value V of EIP-155.

**Batch assembly** (`StreamAssembly`, `StreamTheorems`). The handler that turns data stream
entries into stored batches. The last theorem joins it to the codec: what a prover decodes from the
stored batch is what the stream showed.

**The bytecode sponge** (`Bytecode`). Padding, chunking and chained absorption.

## What the proofs found

- Ownership of rows can break. A proof found to be behind L1 is deleted by
  `validateEligibleFinalProof` and written back afterwards. A search for work that began before L1
  verified the batch can insert that batch in between, and the write-back then unlocks a row
  another prover is working on. `ProofPoolRace` is that run, and `ProofPoolOverlap` continues one
  to two rows with a batch in common. `ProofPoolRuns.SafeIffNoCollision` says that this is the only
  way, and only for a discarded proof of a single batch: the row of a longer one never comes back.
  `ProofPoolRuns.RecheckedInsertsAreSafe` says that comparing the batch with L1 once more right
  before the insert would rule it out.
- `p1.proof IS NOT NULL` does not establish that a proof is finished, because a fresh row holds an
  empty string; that `generating_since` is NULL does.
- From 2^32-1 leaves on every Merkle proof claims a zero sibling on the first level, because the
  number of leaves is cut to 32 bits. Short of a hash collision it is wrong unless that leaf is
  zero: `InfoTree.ProofVerifiesIff`. For the same reason an initial list of exactly 2^32-1 leaves
  leaves a wrong sibling unless its last leaf is zero.
- `AddLeaf` does not check for a full tree: the leaf after the last starts the tree over.
- `ResetL1InfoTree` builds a tree of height 32 whatever the height of the tree it is called on.
- V survives the codec exactly when it is 27, 28 or at least 35; any other V comes back larger by 2^64.
- `DecodeTxs` stops without an error and without transactions at a long list header cut off at
  the end, and loses the transactions before it: `BatchV2Theorems.SilentIffCutOff`. `DecodeBatchV2`
  never reads such bytes as one block.
- When a block entry of the stream cannot be unmarshalled, or the end of a batch cannot be stored
  because L1 or the database fails, the open block has joined the batch and is still open: if the
  stream goes on it is there twice. These are the only such failures:
  `StreamTheorems.FailureClosesBlockIff`. Blocks with number 0 are dropped.

## Assumptions

- No L1 reorg, and no two sequences on L1 share a batch.
- `CleanupLockedProofs` deletes only rows whose owner is gone.
- The profitability checker accepts every batch. Where it declines without an error,
  `getAndLockBatchToProve` returns three nils and its caller dereferences one of them.
- A statement or transaction that reports failure has changed nothing.
- A prover that returns a proof returns the one it was asked for: the proof of the batch, or the
  merge of the two proofs.
- Keccak-256 and Poseidon are function parameters. Absence of collisions is assumed of the calls a
  theorem is about, never of all inputs, where it would be false.
- R and S are below 2^256 and big integers are not negative, by type. No slice is longer than 2^63-1.

## Model

| member | source | states |
|---|---|---|
| ProofTable.MergeProves | aggregator/aggregator.go:1126-1166 | merging proofs of two adjacent intervals proves exactly the joined interval, batches in order |
| ProofTable.ProofStorage.CheckProofExistsForBatch | state/pgstatestorage/proof.go:14-25 | true exactly when some row's interval has the batch, that is when a row of that batch alone would overlap one |
| ProofTable.ProofStorage.CheckProofContainsCompleteSequences | state/pgstatestorage/proof.go:28-40 | true exactly when a sequence starts at the first batch and one ends at the last; for an interval of stored batches, exactly when every batch of it is in a stored sequence inside it |
| ProofTable.ProofStorage.GetProofReadyToVerify | state/pgstatestorage/proof.go:43-75 | an unlocked row of complete sequences whose first batch is the one after the last verified; not found exactly when there is none |
| ProofTable.ProofStorage.GetProofsToAggregate | state/pgstatestorage/proof.go:78-143 | two adjacent, unlocked rows, not NULL, inside one sequence or both of complete sequences, with the least first batch; none exactly when no two rows are such |
| ProofTable.ProofStorage.AddGeneratedProof | state/pgstatestorage/proof.go:146-152 | inserts the row, or fails on a duplicate key and changes nothing |
| ProofTable.ProofStorage.UpdateGeneratedProof | state/pgstatestorage/proof.go:155-161 | rewrites the row with that key and no other; no effect without one |
| ProofTable.ProofStorage.DeleteGeneratedProofs | state/pgstatestorage/proof.go:165-170 | deletes exactly the rows inside the range |
| ProofTable.ProofStorage.DeleteUngeneratedProofs | state/pgstatestorage/proof.go:199-204 | deletes exactly the locked rows |
| ProofTable.ProofStorage.AddSequence | state/pgstatestorage/sequence.go:11-17 | inserts the sequence, or moves the end of the one that starts there |
| ProofTable.CompleteIffWhole | state/pgstatestorage/proof.go:28-40 | the two boundary tests of the query hold of an interval of stored batches exactly when it is a union of whole stored sequences |
| ProofTable.WholeRowsAreMergeable | state/pgstatestorage/proof.go:107-126 | adjacent unlocked rows of stored batches are paired exactly when both are unions of whole stored sequences, or one sequence holds both |
| ProofPoolMoves.RestartInFull | aggregator/aggregator.go:523-533 | after a restart exactly the unlocked rows that begin at or past the last verified batch are left, unchanged |
| ProofPoolMoves.FailedSettlementUnlocks | aggregator/aggregator.go:809-817 | a failed settlement, followed by its write, unlocks the row and changes no other |
| ProofPoolMoves.SelectReadyInFull | state/pgstatestorage/proof.go:43-75 | which rows can be picked for settlement, and that nobody else has the mutex then |
| ProofPoolMoves.SelectPairInFull | aggregator/aggregator.go:1045-1083 | which pairs can be picked, and that nobody else has the mutex then |
| ProofPoolInvariant.HeldIsExclusive | aggregator/aggregator.go:1085-1237 | no other agent counts on a row an agent holds locked |
| ProofPoolInvariant.SelectedIsExclusive | aggregator/aggregator.go:1045-1083 | no other agent counts on an unlocked row while the mutex is held, not even one about to write without it |
| ProofPoolInvariant.RangeOfRow | state/pgstatestorage/proof.go:165-170 | the range delete of one row's interval removes that row and no other |
| ProofPoolInvariant.RangeOfPair | state/pgstatestorage/proof.go:165-170 | the range delete of the aggregation commit removes exactly the two merged rows |
| ProofPoolInvariant.MergeKeepsPool | aggregator/aggregator.go:1168-1206 | the aggregation commit keeps rows disjoint, unlocked rows finished and rows aligned, and touches nobody else's row |
| ProofPoolInvariant.MergeStaysAligned | state/pgstatestorage/proof.go:107-126 | rows the query pairs have a union that lies in one sequence or is a union of complete sequences |
| ProofPoolInvariant.BoundariesMakeUnion | state/pgstatestorage/proof.go:28-40 | an aligned interval that starts and ends with sequences consists of complete sequences |
| ProofPoolTheorems.CommitKeepsCore | aggregator/aggregator.go:1168-1206 | the aggregation commit keeps disjoint finished rows, exclusive owners and every agent's records |
| ProofPoolTheorems.ValidateKeepsCore | aggregator/aggregator.go:953-983 | judging a crafted proof, and deleting it when L1 is ahead of it, keeps the same |
| ProofPoolTheorems.WriteKeepsCore | aggregator/aggregator.go:1223-1234 | so does the final update, which unlocks, whether or not the row is still there |
| ProofPoolTheorems.UnlockPairKeepsCore | aggregator/aggregator.go:1006-1036 | so does unlocking a pair after a failure |
| ProofPoolTheorems.InsertKeepsCore | aggregator/aggregator.go:1335-1350 | so does inserting the batch found |
| ProofPoolSteps.SpentStays | aggregator/aggregator.go:964-971 | merges and deletes never bring back the row of a discarded proof |
| ProofPoolSteps.InsertIntoShadow | aggregator/aggregator.go:1258-1350 | the one search that was under way at the discard covers at most one of its batches, so the row of a discarded proof of several batches never comes back |
| ProofPoolSteps.CollisionIsUnsafe | aggregator/aggregator.go:964-971 | an insert of a batch whose own discarded proof is still to be written back gives its row a second owner |
| ProofPoolSteps.CollisionUnlocks | aggregator/aggregator.go:1444-1454 | and the write-back then unlocks that row while its prover is at work |
| ProofPoolSteps.UnverifiedInsertIsSafe | aggregator/aggregator.go:1260-1278 | a batch that L1 has not verified when it is inserted never collides |
| ProofPoolTheorems.RestartKeepsCore | aggregator/aggregator.go:523-533 | a restart keeps disjoint finished rows |
| ProofPoolSteps.StepKeepsInvariant | aggregator/aggregator.go:864-1458 | every step of every agent and of the environment keeps the invariant, except a colliding insert |
| ProofPoolRuns.InvIsSafe | aggregator/aggregator.go:1085-1237 | the invariant gives safety: rows disjoint, at most one owner for each, unlocked rows unowned and finished |
| ProofPoolRuns.RunKeepsInv | aggregator/aggregator.go:864-1458 | every state of a run without collisions has the invariant |
| ProofPoolRuns.SafeIffNoCollision | aggregator/aggregator.go:864-1458 | for every run: all its states are safe, row by row, exactly when no insert of a batch b meets a discarded proof of b alone that is still to be written back |
| ProofPoolRuns.RecheckedInsertsAreSafe | aggregator/aggregator.go:1258-1278 | a run whose inserts are all of batches unverified at that moment is safe throughout |
| ProofPoolRace.StaleSearchBreaksOwnership | aggregator/aggregator.go:964-971 | a concrete run after which two provers have the same batch |
| ProofPoolRace.LateWriteUnlocks | aggregator/aggregator.go:1444-1454 | its next step unlocks the row of a prover at work |
| ProofPoolOverlap.RowsCanOverlap | aggregator/aggregator.go:1085-1237 | a run that goes on from such a race to two rows with a batch in common: row disjointness is lost as well |
| ProofPoolRuns.OneOwner | aggregator/aggregator.go:1038-1083 | in every run without collisions an owned row has one owner and is locked |
| ProofPoolRuns.SettledIsOwned | aggregator/aggregator.go:864-951 | in every run without collisions what goes to settlement is a locked row |
| ProofPoolAlways.EveryRunIsSound | aggregator/aggregator.go:864-1458 | in every run, collisions included: every record in memory proves its interval, every interval is aligned with the sequences, every row is a finished proof or a fresh locked one |
| ProofPoolAlways.NotNullIsNotFinished | state/pgstatestorage/proof.go:108-109 | in every run: a row just inserted passes the NULL test unfinished; every unlocked row is a finished proof |
| ProofPoolAlways.PayloadsAreExact | aggregator/aggregator.go:1126-1166 | in every run: every proof in memory, and in every row that is not a fresh one, locked or not, flattens left to right to exactly its interval's batches |
| ProofPoolProperties.InsertFindsRoom | aggregator/aggregator.go:1267-1278 | where the invariant holds, that is in every run without collisions: no row has the batch when it is inserted, whatever others did since the search |
| ProofPoolAlways.SettledIsEligible | aggregator/aggregator.go:864-951 | in every run: what goes to settlement starts at or before the next batch to verify, reaches it, and is a finished proof of complete sequences |
| ProofPoolAlways.CrossingRowIsUnion | state/pgstatestorage/proof.go:107-126 | in every run: a row that crosses the end of a sequence is a union of complete sequences |
| ProofPoolProperties.MergeConserves | aggregator/aggregator.go:1168-1206 | where the invariant holds: a committed merge covers the same batches with exactly one row less |
| ProofPoolProperties.MergesAreBounded | aggregator/aggregator.go:1085-1237 | over any run without inserts from where the invariant holds: from n rows at most n-1 merges are committed |
| ProofPoolAlways.UnverifiedStaysCovered | aggregator/aggregator.go:864-1458 | in every run: only a failed batch proof, a cleanup or a restart uncovers a batch that L1 has not verified |
| ProofAggregator.Aggregator.FindBatchToProve | aggregator/aggregator.go:1267-1278 | the search terminates and finds the least batch after the last verified that no row covers |
| ProofAggregator.Aggregator.GetAndLockBatchToProve | aggregator/aggregator.go:1248-1353 | that batch gets a locked, empty row and its sequence is stored exactly when it is sequenced and ready; otherwise nothing changes |
| ProofAggregator.Aggregator.GetAndLockProofReadyToVerify | aggregator/aggregator.go:985-1004 | a ready row is locked; nothing to do exactly when none is ready; a failure changes nothing |
| ProofAggregator.Aggregator.GetAndLockProofsToAggregate | aggregator/aggregator.go:1038-1083 | both rows of the next pair are locked, or neither; nothing to do exactly when no pair is mergeable |
| ProofAggregator.Aggregator.UnlockProofsToAggregate | aggregator/aggregator.go:1006-1036 | both rows are unlocked, or neither |
| ProofAggregator.Aggregator.CommitAggregation | aggregator/aggregator.go:1168-1206 | the pair is replaced by the merged row, or nothing changes; the insert never meets a duplicate |
| ProofAggregator.Aggregator.ValidateEligibleFinalProof | aggregator/aggregator.go:953-983 | eligible exactly when the next batch to verify is inside and sequences are complete; the range is deleted exactly when L1 is past it |
| ProofAggregator.Aggregator.TryBuildFinalProof | aggregator/aggregator.go:874-951 | with a proof just crafted: built exactly when it is time, L1 and the statements answer, the proof is eligible and the prover delivers |
| ProofAggregator.Aggregator.TryBuildFinalProofFromPool | aggregator/aggregator.go:874-951 | without one: a ready row is locked and built, or a failure that could be released leaves the table as it was |
| ProofAggregator.Aggregator.TryAggregateProofs | aggregator/aggregator.go:1085-1237 | the table after a round in terms of the table before it, and the result: unchanged after a failure that could be released, the pair merged otherwise |
| ProofAggregator.Aggregator.TryGenerateBatchProof | aggregator/aggregator.go:1355-1458 | the same for a round of batch proving, which takes the least uncovered batch exactly when it is sequenced and ready |
| ProofAggregator.LockingIsUndone | aggregator/aggregator.go:1006-1083 | unlocking a pair restores exactly the table before it was locked |
| ProofAggregator.InsertIsUndone | aggregator/aggregator.go:1379-1388 | deleting a batch that could not be proved restores exactly the table before it was inserted |
| ProofAggregator.RoundConserves | aggregator/aggregator.go:1085-1237 | a round of aggregation covers no new batch and uncovers only batches that L1 has verified |
| ProofAggregator.AggregationOutcomes | aggregator/aggregator.go:1085-1237 | the rows after a round of aggregation, outcome by outcome: as before, pair locked, pair gone, or merged row locked or not |
| ProofAggregator.BatchProofOutcomes | aggregator/aggregator.go:1355-1458 | the same for a batch proof: as before, or with a finished row, or with a locked one |
| ProofRounds.AggregationRoundIsRun | aggregator/aggregator.go:1085-1237 | for every outcome of its calls, the moves of a round of aggregation are a run of the protocol that ends with the table the method leaves |
| ProofRounds.BatchRoundIsRun | aggregator/aggregator.go:1355-1458 | the same for a round of batch proving, its search loop included |
| ProofRounds.LookupRoundIsRun | aggregator/aggregator.go:864-951 | the same for a round that looks a proof up |
| InfoTree.GenerateZeroHashes | l1infotree/hash.go:22-32 | the roots of the all-zero trees of every height |
| InfoTree.RootByHalves | l1infotree/tree.go:71-92 | the reference: a root is the hash of the roots of the first half of the leaves and of the rest, and missing leaves are zero |
| InfoTree.BuildIntermediate | l1infotree/tree.go:56-68 | the parents of a level, left to right, with their children |
| InfoTree.L1InfoTree.BuildL1InfoRoot | l1infotree/tree.go:71-92 | the root of the perfect tree with zeros for missing leaves; an error exactly for too many leaves or height 0 |
| InfoTree.L1InfoTree.ComputeMerkleProof | l1infotree/tree.go:95-136 | the siblings of the path and the same root, under the same condition |
| InfoTree.ProofsAreComplete | l1infotree/tree.go:95-136 | below 2^32-1 leaves, for every index the siblings are as many as the height and fold the leaf, or zero past the end, to the root |
| InfoTree.ProofClearsSibling | l1infotree/tree.go:100-135 | from 2^32-1 leaves on, for every hash: a proof leads to the root the tree would have if the sibling leaf were zero |
| InfoTree.ProofVerifiesIff | l1infotree/tree.go:100-135 | for every hash without a collision between those two trees: a proof is right exactly below 2^32-1 leaves or when the sibling leaf is zero |
| InfoTree.TruncatedWidthBreaksProof | l1infotree/tree.go:105-107 | so with 2^32-1 leaves and a first one that is not zero, the proof of the second is wrong |
| InfoTree.ProofsCompleteIff | l1infotree/tree.go:95-136 | for every hash without such collisions: all proofs are right exactly when there are fewer than 2^32-1 leaves or all leaves are zero |
| InfoTree.EqualNodesEqualLeaves | l1infotree/tree.go:56-68 | without collisions, equal nodes have equal leaves below them |
| InfoTree.RootBindsLeaves | l1infotree/tree.go:71-92 | without collisions, equal roots of equally many leaves have equal leaves |
| InfoTree.L1InfoTree.InitSiblings | l1infotree/tree.go:173-193 | root and siblings of the initial leaves; the two errors exactly |
| InfoTree.L1InfoTree.FoldLeaf | l1infotree/tree.go:144-163 | the loop of AddLeaf is the walk up the tree that AddPath defines |
| InfoTree.AddPathIsRight | l1infotree/tree.go:139-169 | the walk ends in the root of the leaves with the new one, and leaves right siblings for the next |
| InfoTree.FreshSlots | l1infotree/tree.go:173-193 | a fresh tree's siblings are right at every set bit exactly below 2^32-1 leaves, or when the last of 2^32-1 is zero |
| InfoTree.SlotAt | l1infotree/tree.go:144-155 | at every set bit of the count the sibling is the root of the complete subtree to the left |
| InfoTree.L1InfoTree.AddLeaf | l1infotree/tree.go:139-169 | with the right index the tree represents one leaf more; a full tree starts over with the new leaf; a wrong index changes nothing |
| InfoTree.NewL1InfoTree | l1infotree/tree.go:20-35 | the new tree has the root of its leaves, and represents them exactly under the condition of FreshSlots |
| InfoTree.L1InfoTree.ResetL1InfoTree | l1infotree/tree.go:38-54 | a new tree for the leaves, always of height 32 |
| InfoTree.GrowAndRebuild | l1infotree/tree.go:20-169 | for all lists xs and ys: a tree of xs grown by ys has the root built from xs+ys, and right siblings |
| Rlp.DecodeIffEncoded | state/encoding_batch_v2.go:308-312 | decoding gives a list exactly from its Yellow Paper encoding: round trips both ways, only canonical input |
| Rlp.HeaderIsCanonical | state/encoding_batch_v2.go:308-312 | the strict decoder accepts only the header the encoder writes |
| Rlp.StringEncoding | state/helper.go:57 | a string is itself, or follows one byte, or follows its length without leading zero: the three forms of the Yellow Paper |
| Rlp.ListEncoding | state/helper.go:57 | a list is one byte or a length, then the encodings of its strings |
| Rlp.ItemsConcatenate | state/helper.go:57 | the strings of a list are encoded one after the other, in order |
| Transactions.VFromChainId | state/helper.go:214-267 | parity and derived chain id give V back by the formula of EIP-155, and 27 and 28 give themselves |
| Transactions.PreEIP155Iff | state/helper.go:187-190 | a transaction counts as older than EIP-155 exactly for V 27 and 28 |
| Transactions.FieldsReadBack | state/helper.go:36-71 | nonce, prices, value, chain id, address, R and S read back from their encodings |
| Transactions.PayloadLayout | state/helper.go:36-57 | which field stands where in the list, six without and nine with a chain id |
| Transactions.SignedLayout | state/helper.go:57-71 | then R and S in 32 bytes each, and 27 or 28 by the parity of V |
| Transactions.ReadFields | state/helper.go:214-267 | what any list of strings is read as: cut to width, and an error below six |
| Transactions.TxSurvives | state/helper.go:36-267 | every legacy transaction comes back with all fields, and with the V that its V maps to |
| Transactions.TxSurvivesIff | state/helper.go:36-267 | it comes back unchanged exactly when V is 27, 28 or at least 35 |
| BatchV2.BatchV2Encoder.AddBlockHeader | state/encoding_batch_v2.go:153-155 | appends the nine bytes of the header |
| BatchV2.BatchV2Encoder.AddTransaction | state/encoding_batch_v2.go:170-205 | appends the transaction's bytes and its percentage |
| BatchV2.BatchV2Encoder.AddTransactions | state/encoding_batch_v2.go:158-167 | appends them all in order |
| BatchV2.EncodeBatchV2 | state/encoding_batch_v2.go:123-145 | the blocks' encodings in order; an error exactly for no batch or no block |
| BatchV2.DecodeBatchV2 | state/encoding_batch_v2.go:208-250 | the loop computes the recursive parser the theorems are about; no data is no block, and data that does not start with a block header is always an error, "does not start with a block" exactly when it starts with a readable transaction |
| BatchV2.DecodeForcedBatchV2 | state/encoding_batch_v2.go:254-272 | the same for a list of transactions |
| BatchV2.HeaderLayout | state/encoding_batch_v2.go:185-190 | 0x0b and two 32-bit numbers, most significant byte first |
| BatchV2.TxLayout | state/encoding_batch_v2.go:193-205 | the signed list, or the bytes the transaction brought along, then the percentage |
| BatchV2.HeaderMeaning | state/encoding_batch_v2.go:277-290 | the header read at a position, or an error with fewer than eight bytes left |
| BatchV2.LengthMeaning | state/encoding_batch_v2.go:334-360 | the length of a list from its first bytes, and each way it cannot be read |
| BatchV2.TxErrors | state/encoding_batch_v2.go:293-329 | which error a transaction that cannot be read gives |
| BatchV2.TxArithmetic | state/encoding_batch_v2.go:300-310 | where the 64-bit sums wrap: not enough data, or a slice out of range |
| BatchV2.RoundErrors | state/helper.go:80-165 | which error the other parser gives |
| BatchV2.RoundArithmetic | state/helper.go:95-126 | a sum that wraps, or ends before it starts, is invalid data there |
| BatchV2.LengthIsFrame | state/encoding_batch_v2.go:334-360 | the length read at an offset is the length of the list that starts there, modulo 2^64 |
| BatchV2.DecodeTxIsReadTx | state/encoding_batch_v2.go:293-329 | despite wrapping arithmetic, a transaction is read exactly when the unbounded parser reads it, and the same one |
| BatchV2.RoundIsReadTx | state/helper.go:80-165 | the same for one round of the other parser |
| BatchV2.WrappedLengthFails | state/encoding_batch_v2.go:293-329 | a list length in the last 247 values below 2^64, where adding the header wraps, never yields a transaction |
| BatchV2.LongLengthFails | state/encoding_batch_v2.go:293-329 | a declared length that does not fit the data, overflowing ones included, never yields a transaction in either parser |
| BatchV2Theorems.FramingIsSelfDelimiting | state/encoding_batch_v2.go:334-360 | at any offset and before any suffix, the length of an encoded list is read exactly |
| BatchV2Theorems.ReadOwnTx | state/encoding_batch_v2.go:293-329 | an encoded transaction is read back before any suffix |
| BatchV2Theorems.DecodeOfEncode | state/encoding_batch_v2.go:123-250 | decoding an encoded batch always succeeds, with every block, transaction and percentage in order |
| BatchV2Theorems.DecodeUndoesEncodeIff | state/encoding_batch_v2.go:123-250 | it gives back the blocks, less their numbers, exactly when every V is valid |
| BatchV2Theorems.DecodeIsReadBlocks | state/encoding_batch_v2.go:208-250 | the parser over positions is the parser over suffixes |
| BatchV2Theorems.DecodeFromHeader | state/encoding_batch_v2.go:208-250 | data that starts with a header is read as that block and what follows, by the grammar; it is an error exactly when the grammar has no reading |
| BatchV2Theorems.ErrorsHaveAPlace | state/encoding_batch_v2.go:208-250 | with a block open, every error is that of one place that cannot be read |
| BatchV2Theorems.DecodeTxsIsReadTxs | state/helper.go:74-169 | DecodeTxs reads all transactions, fails, or stops silently with none |
| BatchV2Theorems.ParsersAgree | state/helper.go:74-169 | for all bytes: a forced batch yields a non-empty list exactly when DecodeBatchV2 yields one block with that list |
| BatchV2Theorems.SilentIffCutOff | state/helper.go:95-101 | DecodeTxs returns neither error nor transaction exactly on no bytes, and on readable transactions followed by a long list header without its length bytes |
| BatchV2Theorems.CutOffIsNoBlock | state/helper.go:95-101 | on such bytes DecodeBatchV2 never yields one block of transactions |
| BatchV2Theorems.EmptyForcedBatchIsNoBlock | state/helper.go:74-169 | where DecodeTxs is silent, DecodeBatchV2 yields an empty block only for no bytes |
| BatchV2Theorems.CutOffHeaderIsSilent | state/helper.go:95-101 | a cut-off header is silent in one parser and an error in the other |
| StreamAssembly.Aggregator.HandleReceivedDataStream | aggregator/aggregator.go:255-476 | the fields after an entry, in every case of success and failure; nothing when halted |
| StreamAssembly.Aggregator.EndCurrentBatch | aggregator/aggregator.go:279-420 | the end of a batch stores it and empties the accumulators, or fails and keeps them; an invalid or injected batch gets the data of L1, with or without blocks; any other one fails without blocks, and gets the data of L1 if so configured, else its blocks encoded |
| StreamTheorems.BlocksOfSnoc | aggregator/aggregator.go:422-471 | grouping extends by one entry: a block opens a group, a transaction joins the last, the rest is neutral |
| StreamTheorems.HandleKeepsGroup | aggregator/aggregator.go:255-476 | what the aggregator holds is the group of the entries since the last end of a batch |
| StreamTheorems.AssemblyRefinesGrouping | aggregator/aggregator.go:255-476 | for every stream whose entries are handled: what is held and what was stored is the simple grouping of the stream |
| StreamTheorems.AllNumbered | aggregator/aggregator.go:291-294 | all blocks of a batch are kept exactly when all have a number |
| StreamTheorems.BatchIsStored | aggregator/aggregator.go:255-476 | the entries of a well-formed batch, with bookmarks anywhere, store it with its own blocks and stream, and leave nothing behind |
| StreamTheorems.StreamStoresItsBatches | aggregator/aggregator.go:255-476 | for every list of batches: they are stored, all, in order, each with its own |
| StreamTheorems.StoredDataDecodes | aggregator/aggregator.go:1489-1498 | for every batch type and configuration: the prover gets the data of L1, or decodes the stored data to the blocks the stream showed exactly when every V is valid |
| StreamTheorems.FailureClosesBlockIff | aggregator/aggregator.go:291-433 | a failure changes the blocks held exactly when a block is open and the entry is an unreadable block or an end of batch that cannot be stored; the block is then closed and still open |
| StreamTheorems.FailsIff | aggregator/aggregator.go:255-476 | exactly which entries cannot be handled, and that their bytes are kept in the stream of the batch |
| StreamTheorems.TransactionJoins | aggregator/aggregator.go:451-470 | a transaction joins the open block and nothing else changes but the stream; its percentage is cut to a byte |
| StreamTheorems.RetryKeepsBlockTwice | aggregator/aggregator.go:291-433 | whichever entry closes it next puts it into the batch, and into the stored data, a second time |
| Bytecode.PaddedLengthIsLeast | merkletree/key.go:124-132 | the padded length is the least multiple of 56 above the code's length |
| Bytecode.PaddingIsRemovable | merkletree/key.go:124-132 | codes with equal paddings are equal |
| Bytecode.Pad | merkletree/key.go:124-132 | the code, 0x01, zeros, the top bit of the last byte set, up to the next multiple of 56; that is the padded code |
| Bytecode.PackChunk | merkletree/key.go:148-166 | the byte loop packs a chunk into eight little-endian elements |
| Bytecode.BlockAt | merkletree/key.go:146-166 | block i is exactly chunk i: every byte is absorbed once, in order |
| Bytecode.BlocksAreInjective | merkletree/key.go:139-167 | equal blocks come from equal bytes |
| Bytecode.ElementMeaning | merkletree/key.go:148-166 | element e is the number its seven bytes spell from the last to the first |
| Bytecode.ChainMeaning | merkletree/key.go:136-187 | the chain starts with four zeros, and each block is compressed with the capacity before it |
| Bytecode.ShortCodeIsOneCall | merkletree/key.go:116-189 | a code shorter than a chunk costs one call, on its padding and zeros |
| Bytecode.HashContractBytecode | merkletree/key.go:116-189 | the loop computes the chained absorption of all blocks |
| Bytecode.EqualCapacitiesEqualHistories | merkletree/key.go:136-189 | without collisions, and with no state of four zeros, equal states have absorbed the same blocks |
| Bytecode.DistinctCodesDistinctHashes | merkletree/key.go:116-189 | under the same assumption distinct bytecodes have distinct hashes |
| Bytecode.ErrorIsFinal | merkletree/key.go:168-187 | once compression fails nothing is hashed |

## Left out

- L1 reorgs (`handleReorg`) and `CleanupLockedProofs` on a row whose worker is alive: both can break the pool, and are assumptions above.
- Mutual exclusion through `verifyingProof` and all timing: the protocol lets an agent try a final proof at any moment, which allows more runs than the code does.
- One agent of the protocol is one goroutine's current piece of work: a proof handed to settlement stays with its agent, and the prover that built it goes on as another agent.
- The protocol is a state machine over values and not a class, because its subject is the interleaving of steps; each statement is the class method of the same name in ProofTable.
- The sanity check of a batch proof's state root, which never returns on a mismatch: the agent then stays where it is.
- Provers' own identifiers, timestamps and inputs in a row: no statement that is modelled depends on them.
- ProofPoolProperties.InsertFindsRoom: stated where the invariant holds, and so are MergeConserves and MergesAreBounded: after a collision rows can overlap (ProofPoolOverlap), and a merge then covers more than it replaces.
- ProofAggregator.Aggregator.TryBuildFinalProof: a shutdown while the final proof is handed over is only a step of the protocol, which abandons the row locked.
- InfoTree.ProofVerifiesIff: lists of more than 2^32 leaves, which only trees higher than 32 could hold, are not covered.
- InfoTree.L1InfoTree.FoldLeaf: the ghost parameter is the list of leaves so far, which the source does not keep; it states nothing when index and list disagree, where AddLeaf refuses.
- Hashing of leaf data, Keccak-256 and Poseidon internals, and key derivation for accounts and storage.
- The floating-point bound on the number of hashes in HashContractBytecode: it equals the integer quotient for every length that fits in memory.
- Transaction types other than legacy, in the codec and in the stream, and re-encoding of arbitrary decoded bytes, where fields need not be canonical.
- BatchV2.EncodeBatchV2: requires that every transaction has an RLP encoding, which every transaction shorter than 2^64 bytes does.
- Forks other than Etrog in `DecodeTxs`, which change only whether a percentage byte is read.
- go-ethereum's RLP decoder and chain id derivation are modelled after their documented behaviour; go-ethereum is not part of this repository.
- Waiting for a virtual batch or a sequence, accumulated input hashes, witnesses and the state root fields of a stored batch: the answers of L1 and the database are one parameter, a failure or the L1 batch data.
- The batch table is a log of the calls of AddBatch; replacing an older batch of the same number is not modelled.
- gRPC, JSON-RPC, the Ethereum and agglayer clients, Postgres itself, migrations, configuration, logging, metrics and events.
