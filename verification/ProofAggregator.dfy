/**
  The prover side of aggregator/aggregator.go as the code of one goroutine, run undisturbed:
  each method changes the storage statement by statement. ProofPool interleaves the same
  statements. Answers of the prover, L1 and the database come in as parameters.
*/
module ProofAggregator {
  import opened Wrappers
  import opened ProofTable
  import opened ProofPool
  import opened ProofPoolInvariant
  import ProofPoolProperties

  datatype WorkError = NothingToDo | Failure

  /** Whether each call that can fail succeeds. */
  datatype Calls = Calls(lock: bool, prover: bool, commit: bool, release: bool, verify: FinalCalls, update: bool)

  /** canVerifyProof, the last verified batch (None: L1 not reachable), the statements that judge the proof, and the prover's final proof. */
  datatype FinalCalls = FinalCalls(canVerify: bool, lastVerified: Option<nat>, judge: bool, build: bool)

  ghost predicate LeastUncovered(pool: Pool, lastVerified: nat, b: nat) {
    && b > lastVerified && !Covered(pool, b)
    && forall c: nat | lastVerified < c < b :: Covered(pool, c)
  }

  /** A finite table leaves batches uncovered. */
  lemma {:induction false} LastRow(pool: Pool) returns (bound: nat)
    ensures forall k | k in pool :: k.last < bound
    decreases |pool|
  {
    if pool == map[] {
      bound := 0;
    } else {
      var k :| k in pool;
      var rest := LastRow(pool - {k});
      bound := if k.last < rest then rest else k.last + 1;
      assert forall m | m in pool && m != k :: m in pool - {k};
    }
  }

  lemma CoveredIsBounded(pool: Pool, b: nat, bound: nat)
    requires Covered(pool, b) && forall k | k in pool :: k.last < bound
    ensures b < bound
  {
  }

  predicate SequenceHas(q: Sequence, b: nat) {
    q.from <= b <= q.to
  }

  /** The batch is sequenced on L1 and ready in the database. */
  predicate Provable(l1: set<Sequence>, ready: bool, b: nat) {
    ready && exists q | q in l1 :: SequenceHas(q, b)
  }

  class Aggregator {
    const state: ProofStorage

    constructor (storage: ProofStorage)
      ensures state == storage
    {
      state := storage;
    }

    /** The search of getAndLockBatchToProve. */
    method FindBatchToProve(lastVerified: nat) returns (b: nat)
      ensures LeastUncovered(state.proofs, lastVerified, b)
      ensures b > lastVerified && forall k | k in state.proofs :: b < k.first || k.last < b
    {
      ghost var bound := LastRow(state.proofs);
      b := lastVerified + 1;
      var proofExists := state.CheckProofExistsForBatch(b);
      while proofExists
        invariant b > lastVerified && proofExists == Covered(state.proofs, b)
        invariant forall c: nat | lastVerified < c < b :: Covered(state.proofs, c)
        decreases if proofExists then bound + 1 - b else 0
      {
        CoveredIsBounded(state.proofs, b, bound);
        b := b + 1;
        proofExists := state.CheckProofExistsForBatch(b);
        if proofExists {
          CoveredIsBounded(state.proofs, b, bound);
        }
      }
    }

    /** `ready`: batch and witness are in the database. */
    method GetAndLockBatchToProve(lastVerified: nat, l1: set<Sequence>, ready: bool) returns (r: Result<nat, WorkError>)
      modifies state
      ensures exists b: nat | LeastUncovered(old(state.proofs), lastVerified, b) ::
                r == if Provable(l1, ready, b) then Ok(b) else Err(NothingToDo)
      ensures r.Ok? ==> ready && exists q | q in l1 :: q.from <= r.value <= q.to
      ensures r.Err? ==> state.proofs == old(state.proofs) && state.sequences == old(state.sequences)
      ensures r.Ok? ==>
                && state.proofs == old(state.proofs)[Key(r.value, r.value) := Row(Text(EmptyText), true)]
                && exists q | q in l1 && SequenceHas(q, r.value) :: state.sequences == old(state.sequences)[q.from := q.to]
    {
      var b := FindBatchToProve(lastVerified);
      if q :| q in l1 && SequenceHas(q, b) {
        if !ready {
          return Err(NothingToDo);
        }
        state.AddSequence(q);
        assert Key(b, b) !in state.proofs by {
          assert Covers(Key(b, b), b);
        }
        var ok := state.AddGeneratedProof(Record(Key(b, b), EmptyText), true);
        return Ok(b);
      }
      return Err(NothingToDo);
    }

    /** A failed update leaves the row unlocked. */
    method GetAndLockProofReadyToVerify(lastVerified: nat, update: bool) returns (r: Result<Record, WorkError>)
      modifies state`proofs
      ensures r.Err? ==> state.proofs == old(state.proofs)
      ensures r.Ok? ==>
                && ReadyToVerify(old(state.proofs), state.sequences, lastVerified, r.value.key)
                && old(state.proofs)[r.value.key].proof == Text(r.value.payload)
                && state.proofs == Locked(old(state.proofs), r.value)
      ensures r == Err(Failure) ==> !update || HasNull(old(state.proofs))
      ensures r.Ok? ==> update
      ensures r == Err(NothingToDo) <==> NothingReady(old(state.proofs), state.sequences, lastVerified)
    {
      var found := state.GetProofReadyToVerify(lastVerified);
      if found.Err? {
        return Err(if found.error == NotFound then NothingToDo else Failure);
      }
      if !update {
        return Err(Failure);
      }
      state.UpdateGeneratedProof(found.value, true);
      return Ok(found.value);
    }

    /** Both rows are locked in one transaction, or neither. */
    method GetAndLockProofsToAggregate(commit: bool) returns (r: Result<(Record, Record), WorkError>)
      modifies state`proofs
      ensures r.Err? ==> state.proofs == old(state.proofs) && (r.error == Failure ==> !commit)
      ensures r.Ok? ==>
                var (r1, r2) := r.value;
                && commit && NextPair(old(state.proofs), state.sequences, r1.key, r2.key)
                && Selected(old(state.proofs), r1) && Selected(old(state.proofs), r2)
                && state.proofs == Locked(Locked(old(state.proofs), r1), r2)
      ensures r == Err(NothingToDo) <==> NoPair(old(state.proofs), state.sequences)
    {
      var pair := state.GetProofsToAggregate();
      if pair.None? {
        return Err(NothingToDo);
      }
      var (r1, r2) := pair.value;
      var before := state.proofs;
      state.UpdateGeneratedProof(r1, true);
      state.UpdateGeneratedProof(r2, true);
      if !commit {
        Rollback(before);
        return Err(Failure);
      }
      return Ok((r1, r2));
    }

    method Rollback(before: Pool)
      modifies state`proofs
      ensures state.proofs == before
    {
      state.proofs := before;
    }

    method UnlockProofsToAggregate(r1: Record, r2: Record, commit: bool)
      modifies state`proofs
      ensures state.proofs == if commit then Unlocked(Unlocked(old(state.proofs), r1), r2) else old(state.proofs)
    {
      var before := state.proofs;
      state.UpdateGeneratedProof(r1, false);
      state.UpdateGeneratedProof(r2, false);
      if !commit {
        Rollback(before);
      }
    }

    /** Replaces the pair by the merged, locked row, in one transaction. */
    method CommitAggregation(k1: Key, k2: Key, payload: Payload, commit: bool) returns (ok: bool)
      requires RowsDisjoint(state.proofs) && k1 in state.proofs && k2 in state.proofs && Adjacent(k1, k2)
      modifies state`proofs
      ensures ok == commit
      ensures state.proofs == if ok then Merged(old(state.proofs), k1, k2, payload) else old(state.proofs)
    {
      var before := state.proofs;
      state.DeleteGeneratedProofs(k1.first, k2.last);
      ok := state.AddGeneratedProof(Record(Joined(k1, k2), payload), true);
      if !commit {
        Rollback(before);
        ok := false;
      }
    }

    /** Eligible: the next batch to verify is in the proof, and the proof is whole sequences. */
    method ValidateEligibleFinalProof(r: Record, lastVerified: nat) returns (eligible: bool)
      requires WellFormed(r.key)
      modifies state`proofs
      ensures eligible <==> Covers(r.key, lastVerified + 1) && CompleteSequences(state.sequences, r.key)
      ensures eligible <==>
                && r.key.first <= lastVerified + 1 <= r.key.last
                && r.key.first in state.sequences && exists f | f in state.sequences :: state.sequences[f] == r.key.last
      ensures state.proofs == if r.key.last <= lastVerified then WithoutRange(old(state.proofs), r.key.first, r.key.last)
                              else old(state.proofs)
    {
      var next := lastVerified + 1;
      if r.key.first != next {
        if r.key.first < next && r.key.last >= next {
          // some of the batches are verified already: it may still be eligible
        } else if r.key.last < next {
          state.DeleteGeneratedProofs(r.key.first, r.key.last);
          return false;
        } else {
          return false;
        }
      }
      eligible := state.CheckProofContainsCompleteSequences(r.key);
    }

    /** tryBuildFinalProof with a proof just crafted. */
    method TryBuildFinalProof(r: Record, calls: FinalCalls) returns (built: bool)
      requires WellFormed(r.key)
      modifies state`proofs
      ensures built <==> Settles(state.sequences, r, calls)
      ensures built <==>
                && calls.canVerify && calls.lastVerified.Some? && calls.judge && calls.build
                && r.key.first <= calls.lastVerified.value + 1 <= r.key.last
                && r.key.first in state.sequences && exists f | f in state.sequences :: state.sequences[f] == r.key.last
      ensures state.proofs == if Discards(r, calls) then WithoutRange(old(state.proofs), r.key.first, r.key.last)
                              else old(state.proofs)
    {
      if !calls.canVerify || calls.lastVerified.None? || !calls.judge {
        return false;
      }
      var eligible := ValidateEligibleFinalProof(r, calls.lastVerified.value);
      built := eligible && calls.build;
    }

    /**
      tryBuildFinalProof without a proof: one is looked up and locked. If it then comes to nothing,
      the deferred update unlocks the row again, if that succeeds.
    */
    method TryBuildFinalProofFromPool(lock: bool, calls: FinalCalls, release: bool) returns (built: bool)
      modifies state`proofs
      ensures built ==>
                && calls.canVerify && calls.lastVerified.Some? && lock && calls.build
                && exists r | Selected(old(state.proofs), r) ::
                     && ReadyToVerify(old(state.proofs), state.sequences, calls.lastVerified.value, r.key)
                     && state.proofs == Locked(old(state.proofs), r)
      ensures !built && release ==> state.proofs == old(state.proofs)
      ensures !built && calls.canVerify && calls.lastVerified.Some? && lock && calls.build ==>
                HasNull(old(state.proofs)) || NothingReady(old(state.proofs), state.sequences, calls.lastVerified.value)
    {
      if !calls.canVerify || calls.lastVerified.None? {
        return false;
      }
      var found := GetAndLockProofReadyToVerify(calls.lastVerified.value, lock);
      if found.Err? {
        assert found.error == NothingToDo || found.error == Failure;
        return false;
      }
      assert Selected(old(state.proofs), found.value);
      built := calls.build;
      if !built && release {
        state.UpdateGeneratedProof(found.value, false);
      }
    }

    /** One round of aggregation. A failure after locking undoes it, if the release commits. */
    method TryAggregateProofs(calls: Calls) returns (progress: bool)
      requires RowsDisjoint(state.proofs)
      modifies state`proofs
      ensures NoPair(old(state.proofs), state.sequences) || !calls.lock ==> !progress && state.proofs == old(state.proofs)
      ensures !NoPair(old(state.proofs), state.sequences) && calls.lock ==>
                exists r1, r2 | Selected(old(state.proofs), r1) && Selected(old(state.proofs), r2)
                                && NextPair(old(state.proofs), state.sequences, r1.key, r2.key) ::
                  && state.proofs == AfterAggregation(old(state.proofs), state.sequences, r1, r2, calls)
                  && progress == (calls.prover && calls.commit && (Settles(state.sequences, MergedRecord(r1, r2), calls.verify) || calls.update))
    {
      var pair := GetAndLockProofsToAggregate(calls.lock);
      if pair.Err? {
        return false;
      }
      var (r1, r2) := pair.value;
      assert Mergeable(old(state.proofs), state.sequences, r1.key, r2.key);
      hide Mergeable, AfterAggregation, Locked;
      progress := AggregateLocked(r1, r2, calls, old(state.proofs));
    }

    method AggregateLocked(r1: Record, r2: Record, calls: Calls, ghost before: Pool) returns (progress: bool)
      requires RowsDisjoint(before) && Selected(before, r1) && Selected(before, r2) && Adjacent(r1.key, r2.key)
      requires state.proofs == Locked(Locked(before, r1), r2)
      modifies state`proofs
      ensures state.proofs == AfterAggregation(before, state.sequences, r1, r2, calls)
      ensures progress == (calls.prover && calls.commit && (Settles(state.sequences, MergedRecord(r1, r2), calls.verify) || calls.update))
    {
      LockingIsUndone(before, r1, r2);
      LockingKeepsRows(before, r1, r2);
      hide RowsDisjoint, Locked, Unlocked, WithoutRange, CompleteSequences;
      var committed := false;
      var merged := MergedRecord(r1, r2);
      if calls.prover {
        committed := CommitAggregation(r1.key, r2.key, merged.payload, calls.commit);
      }
      if !committed {
        UnlockProofsToAggregate(r1, r2, calls.release);
        return false;
      }
      CommittedRows(before, r1, r2, merged.payload);
      var built := TryBuildFinalProof(merged, calls.verify);
      if !built && calls.update {
        state.UpdateGeneratedProof(merged, false);
      }
      progress := built || calls.update;
    }

    /** One round of batch proving; `ready` as in GetAndLockBatchToProve. A failed proof leaves no row. */
    method TryGenerateBatchProof(lastVerified: nat, l1: set<Sequence>, ready: bool, calls: Calls) returns (progress: bool)
      requires RowsDisjoint(state.proofs)
      modifies state
      ensures exists b: nat | LeastUncovered(old(state.proofs), lastVerified, b) ::
                if Provable(l1, ready, b) then
                  && state.proofs == AfterBatchProof(old(state.proofs), state.sequences, b, calls)
                  && progress == (calls.prover && (Settles(state.sequences, Record(Key(b, b), BatchProof(b)), calls.verify) || calls.update))
                else state.proofs == old(state.proofs) && state.sequences == old(state.sequences) && !progress
    {
      var found := GetAndLockBatchToProve(lastVerified, l1, ready);
      if found.Err? {
        return false;
      }
      var b := found.value;
      var k := Key(b, b);
      ghost var before := old(state.proofs);
      InsertIsUndone(before, b);
      if !calls.prover {
        if calls.release {
          state.DeleteGeneratedProofs(b, b);
        }
        return false;
      }
      var proof := Record(k, BatchProof(b));
      var built := TryBuildFinalProof(proof, calls.verify);
      if !built && calls.update {
        state.UpdateGeneratedProof(proof, false);
      }
      progress := built || calls.update;
    }
  }

  ghost predicate HasNull(pool: Pool) {
    exists k | k in pool :: pool[k].proof.SqlNull?
  }

  ghost predicate NothingReady(pool: Pool, sequences: Sequences, lastVerified: nat) {
    forall k | k in pool :: !ReadyToVerify(pool, sequences, lastVerified, k)
  }

  ghost predicate NoPair(pool: Pool, sequences: Sequences) {
    forall k1, k2 | k1 in pool && k2 in pool :: !Mergeable(pool, sequences, k1, k2)
  }

  function MergedRecord(r1: Record, r2: Record): Record {
    Record(Joined(r1.key, r2.key), Aggregated(r1.payload, r2.payload))
  }

  predicate Discards(r: Record, calls: FinalCalls) {
    calls.canVerify && calls.lastVerified.Some? && calls.judge && r.key.last <= calls.lastVerified.value
  }

  /** The final proof of r is built and handed to settlement. */
  predicate Settles(sequences: Sequences, r: Record, calls: FinalCalls) {
    && calls.canVerify && calls.lastVerified.Some? && calls.judge && calls.build
    && Covers(r.key, calls.lastVerified.value + 1) && CompleteSequences(sequences, r.key)
  }

  /** The table after the rows r1 and r2 were picked, in terms of the table before they were locked. */
  function AfterAggregation(pool: Pool, sequences: Sequences, r1: Record, r2: Record, calls: Calls): Pool {
    var r := MergedRecord(r1, r2);
    if !calls.prover || !calls.commit then
      if calls.release then pool else Locked(Locked(pool, r1), r2)
    else if Discards(r, calls.verify) then WithoutRange(pool, r.key.first, r.key.last)
    else
      var locked := Settles(sequences, r, calls.verify) || !calls.update;
      WithoutRange(pool, r.key.first, r.key.last)[r.key := Row(Text(r.payload), locked)]
  }

  /** The table after batch b was picked. A proof sent to settlement is not written to its row. */
  function AfterBatchProof(pool: Pool, sequences: Sequences, b: nat, calls: Calls): Pool {
    var r := Record(Key(b, b), BatchProof(b));
    var pending := Row(Text(EmptyText), true);
    if !calls.prover then if calls.release then pool else pool[r.key := pending]
    else if Discards(r, calls.verify) then pool
    else if Settles(sequences, r, calls.verify) || !calls.update then pool[r.key := pending]
    else pool[r.key := Row(Text(r.payload), false)]
  }

  lemma LockingIsUndone(pool: Pool, r1: Record, r2: Record)
    requires Selected(pool, r1) && Selected(pool, r2) && r1.key != r2.key
    ensures Unlocked(Unlocked(Locked(Locked(pool, r1), r2), r1), r2) == pool
  {
  }

  lemma LockingKeepsRows(pool: Pool, r1: Record, r2: Record)
    requires RowsDisjoint(pool)
    ensures RowsDisjoint(Locked(Locked(pool, r1), r2)) && Locked(Locked(pool, r1), r2).Keys == pool.Keys
  {
  }

  /** The range delete takes both locked rows, so the merge is one of the table before. */
  lemma CommittedRows(pool: Pool, r1: Record, r2: Record, payload: Payload)
    requires RowsDisjoint(pool) && r1.key in pool && r2.key in pool && Adjacent(r1.key, r2.key)
    ensures var (k1, k2) := (r1.key, r2.key);
            var rest, k := WithoutRange(pool, k1.first, k2.last), Joined(k1, k2);
            && WellFormed(k) && k !in rest && rest == WithoutRange(Merged(Locked(Locked(pool, r1), r2), k1, k2, payload), k.first, k.last)
            && Merged(Locked(Locked(pool, r1), r2), k1, k2, payload) == rest[k := Row(Text(payload), true)]
            && rest[k := Row(Text(payload), true)][k := Row(Text(payload), false)] == rest[k := Row(Text(payload), false)]
  {
  }

  /** Deleting the range of a batch just inserted gives the table before the insert. */
  lemma InsertIsUndone(pool: Pool, b: nat)
    requires RowsDisjoint(pool) && !Covered(pool, b)
    ensures WithoutRange(pool[Key(b, b) := Row(Text(EmptyText), true)], b, b) == pool
    ensures var done := Row(Text(BatchProof(b)), false);
            pool[Key(b, b) := Row(Text(EmptyText), true)][Key(b, b) := done] == pool[Key(b, b) := done]
  {
  }

  // ---------- what a round means ----------

  /** A round of aggregation leaves every batch covered that was, unless L1 has verified it. */
  lemma RoundConserves(pool: Pool, sequences: Sequences, r1: Record, r2: Record, calls: Calls, b: nat)
    requires RowsDisjoint(pool) && Selected(pool, r1) && Selected(pool, r2) && Adjacent(r1.key, r2.key)
    ensures Covered(AfterAggregation(pool, sequences, r1, r2, calls), b) ==> Covered(pool, b)
    ensures Covered(pool, b) && !Covered(AfterAggregation(pool, sequences, r1, r2, calls), b) ==>
              calls.verify.lastVerified.Some? && b <= calls.verify.lastVerified.value
  {
    hide Settles, CompleteSequences;
    var k, payload := Joined(r1.key, r2.key), Aggregated(r1.payload, r2.payload);
    if !calls.prover || !calls.commit {
      LockingKeepsRows(pool, r1, r2);
      assert forall m | m in pool :: m in AfterAggregation(pool, sequences, r1, r2, calls);
    } else if Discards(Record(k, payload), calls.verify) {
      assert forall m | m in pool && m !in WithoutRange(pool, k.first, k.last) :: m.last <= k.last;
    } else {
      ProofPoolProperties.MergedCovers(pool, r1.key, r2.key, payload, b);
      assert Merged(pool, r1.key, r2.key, payload).Keys == AfterAggregation(pool, sequences, r1, r2, calls).Keys;
    }
  }

  /**
    The table after a round, outcome by outcome: as it was, with the pair still locked, without the pair,
    or with the merged row in its place, locked or not.
  */
  lemma AggregationOutcomes(pool: Pool, sequences: Sequences, r1: Record, r2: Record, calls: Calls)
    requires RowsDisjoint(pool) && Selected(pool, r1) && Selected(pool, r2) && r1.key.last + 1 == r2.key.first
    ensures var after, k := AfterAggregation(pool, sequences, r1, r2, calls), Key(r1.key.first, r2.key.last);
            var verified := calls.verify.canVerify && calls.verify.lastVerified.Some? && calls.verify.judge;
            var rest := pool - {r1.key, r2.key};
            if !calls.prover || !calls.commit then
              after == if calls.release then pool else pool[r1.key := Row(Text(r1.payload), true)][r2.key := Row(Text(r2.payload), true)]
            else if verified && k.last <= calls.verify.lastVerified.value then after == rest
            else
              && after.Keys == rest.Keys + {k} && (forall m | m in rest :: after[m] == pool[m])
              && after[k].proof == Text(Aggregated(r1.payload, r2.payload))
              && (after[k].locked <==> !calls.update || Settles(sequences, MergedRecord(r1, r2), calls.verify))
  {
    RangeOfPair(pool, r1.key, r2.key);
    CommittedRows(pool, r1, r2, EmptyText);
    hide RowsDisjoint, WithoutRange, Settles, CompleteSequences;
    assert r1.key in pool && r2.key in pool;
  }

  /** The same for a batch proof. */
  lemma BatchProofOutcomes(pool: Pool, sequences: Sequences, b: nat, calls: Calls)
    requires !Covered(pool, b)
    ensures var after, k := AfterBatchProof(pool, sequences, b, calls), Key(b, b);
            var verified := calls.verify.canVerify && calls.verify.lastVerified.Some? && calls.verify.judge;
            if (!calls.prover && calls.release) || (calls.prover && verified && b <= calls.verify.lastVerified.value) then after == pool
            else
              && after.Keys == pool.Keys + {k} && (forall m | m in pool :: after[m] == pool[m])
              && after[k] == if calls.prover && calls.update && !Settles(sequences, Record(k, BatchProof(b)), calls.verify)
                             then Row(Text(BatchProof(b)), false) else Row(Text(EmptyText), true)
  {
    hide Settles;
    assert Key(b, b) !in pool by {
      assert Covers(Key(b, b), b);
    }
  }
}
