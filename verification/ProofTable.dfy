/**
  The tables behind the recursive-proof pool (state/pgstatestorage/proof.go and sequence.go):
  aggregator.proof, keyed by (batch_num, batch_num_final), and aggregator.sequence, keyed by
  from_batch_num. Each SQL statement is a function from table to table or a query; the class
  ProofStorage runs them on its two fields.
*/
module ProofTable {
  import opened Wrappers

  datatype Key = Key(first: nat, last: nat)

  /** The text of a recursive proof, as the tree of batch proofs merged into it. */
  datatype Payload = EmptyText | BatchProof(batch: nat) | Aggregated(left: Payload, right: Payload)

  datatype ProofColumn = SqlNull | Text(payload: Payload)

  /** `locked`: generating_since is not NULL. */
  datatype Row = Row(proof: ProofColumn, locked: bool)

  type Pool = map<Key, Row>

  type Sequences = map<nat, nat>

  datatype Sequence = Sequence(from: nat, to: nat)

  /** state.Proof, as far as it matters here. */
  datatype Record = Record(key: Key, payload: Payload)

  datatype StorageError = NotFound | NullProof

  // ---------- vocabulary ----------

  predicate Covers(k: Key, b: nat) {
    k.first <= b <= k.last
  }

  predicate Covered(pool: Pool, b: nat) {
    exists k | k in pool :: Covers(k, b)
  }

  predicate WellFormed(k: Key) {
    k.first <= k.last
  }

  predicate Disjoint(k: Key, m: Key) {
    k.last < m.first || m.last < k.first
  }

  /** No row has a batch of k. */
  ghost predicate Free(pool: Pool, k: Key) {
    forall m | m in pool :: Disjoint(m, k)
  }

  ghost predicate RowsDisjoint(pool: Pool) {
    && (forall k | k in pool :: WellFormed(k))
    && (forall k, m | k in pool && m in pool && k != m :: Disjoint(k, m))
  }

  /** The batches a payload proves, left to right. */
  function Flatten(p: Payload): seq<nat> {
    match p
    case EmptyText => []
    case BatchProof(b) => [b]
    case Aggregated(l, r) => Flatten(l) + Flatten(r)
  }

  function Range(k: Key): seq<nat>
    requires WellFormed(k)
  {
    seq(k.last - k.first + 1, i requires i >= 0 => k.first + i)
  }

  /** The payload is a finished proof of exactly the batches of k, in order. */
  predicate Proves(p: Payload, k: Key) {
    WellFormed(k) && Flatten(p) == Range(k)
  }

  /** Rows p1 and p2 meet: the join condition of the aggregation query. */
  predicate Adjacent(k1: Key, k2: Key) {
    k1.last + 1 == k2.first
  }

  function Joined(k1: Key, k2: Key): Key {
    Key(k1.first, k2.last)
  }

  /** Merging adjacent proofs proves the joined interval. */
  lemma MergeProves(p1: Payload, k1: Key, p2: Payload, k2: Key)
    requires Proves(p1, k1) && Proves(p2, k2) && Adjacent(k1, k2)
    ensures Proves(Aggregated(p1, p2), Joined(k1, k2))
  {
  }

  // ---------- statements ----------

  function Updated(pool: Pool, k: Key, row: Row): Pool {
    if k in pool then pool[k := row] else pool
  }

  /** DELETE ... WHERE batch_num >= first AND batch_num_final <= last. */
  function WithoutRange(pool: Pool, first: nat, last: nat): Pool {
    map k | k in pool && !(k.first >= first && k.last <= last) :: pool[k]
  }

  function OnlyUnlocked(pool: Pool): Pool {
    map k | k in pool && !pool[k].locked :: pool[k]
  }

  function Locked(pool: Pool, r: Record): Pool {
    Updated(pool, r.key, Row(Text(r.payload), true))
  }

  function Unlocked(pool: Pool, r: Record): Pool {
    Updated(pool, r.key, Row(Text(r.payload), false))
  }

  /** The aggregation commit: the range delete and the insert of the merged, locked row. */
  function Merged(pool: Pool, k1: Key, k2: Key, payload: Payload): Pool {
    WithoutRange(pool, k1.first, k2.last)[Joined(k1, k2) := Row(Text(payload), true)]
  }

  // ---------- queries ----------

  predicate StartsSequence(sequences: Sequences, b: nat) {
    b in sequences
  }

  predicate EndsSequence(sequences: Sequences, b: nat) {
    exists f | f in sequences :: sequences[f] == b
  }

  predicate CompleteSequences(sequences: Sequences, k: Key) {
    StartsSequence(sequences, k.first) && EndsSequence(sequences, k.last)
  }

  predicate InOneSequence(sequences: Sequences, k1: Key, k2: Key) {
    exists f | f in sequences ::
      && f <= k1.first <= sequences[f] && f <= k1.last <= sequences[f]
      && f <= k2.first <= sequences[f] && f <= k2.last <= sequences[f]
  }

  predicate Mergeable(pool: Pool, sequences: Sequences, k1: Key, k2: Key) {
    && k1 in pool && k2 in pool && Adjacent(k1, k2)
    && !pool[k1].locked && !pool[k2].locked
    && pool[k1].proof.Text? && pool[k2].proof.Text?
    && (|| InOneSequence(sequences, k1, k2)
        || (CompleteSequences(sequences, k1) && CompleteSequences(sequences, k2)))
  }

  /** The row the aggregation query returns: mergeable, with the least batch_num. */
  ghost predicate NextPair(pool: Pool, sequences: Sequences, k1: Key, k2: Key) {
    && Mergeable(pool, sequences, k1, k2)
    && forall m1, m2 | Mergeable(pool, sequences, m1, m2) :: k1.first <= m1.first
  }

  predicate ReadyToVerify(pool: Pool, sequences: Sequences, lastVerified: nat, k: Key) {
    && k in pool && k.first == lastVerified + 1 && !pool[k].locked
    && CompleteSequences(sequences, k)
  }

  // ---------- what the queries mean ----------

  /** Stored sequences are intervals without a batch in common. */
  ghost predicate StoredApart(sequences: Sequences) {
    && (forall f | f in sequences :: f <= sequences[f])
    && forall f, g | f in sequences && g in sequences && f != g :: sequences[f] < g || sequences[g] < f
  }

  /** Every batch of k is in a stored sequence. */
  ghost predicate AllStored(sequences: Sequences, k: Key) {
    forall b: nat | Covers(k, b) :: exists f | f in sequences :: f <= b <= sequences[f]
  }

  /** Every batch of k is in a stored sequence that lies inside k. */
  ghost predicate Whole(sequences: Sequences, k: Key) {
    forall b: nat | Covers(k, b) :: exists f | f in sequences :: k.first <= f <= b <= sequences[f] <= k.last
  }

  /** The sequence of a batch of k does not reach out of k, if sequences begin and end there. */
  lemma StaysInside(sequences: Sequences, k: Key, f: nat, g: nat, b: nat)
    requires StoredApart(sequences) && k.first in sequences && g in sequences && sequences[g] == k.last
    requires Covers(k, b) && f in sequences && f <= b <= sequences[f]
    ensures k.first <= f && sequences[f] <= k.last
  {
  }

  /** Starting and ending with sequences is being a union of them. */
  lemma CompleteIffWhole(sequences: Sequences, k: Key)
    requires WellFormed(k) && StoredApart(sequences) && AllStored(sequences, k)
    ensures CompleteSequences(sequences, k) <==> Whole(sequences, k)
  {
    if Whole(sequences, k) {
      assert Covers(k, k.first) && Covers(k, k.last);
    }
    if CompleteSequences(sequences, k) {
      var g :| g in sequences && sequences[g] == k.last;
      forall b: nat | Covers(k, b)
        ensures exists f | f in sequences :: k.first <= f <= b <= sequences[f] <= k.last
      {
        var f :| f in sequences && f <= b <= sequences[f];
        StaysInside(sequences, k, f, g, b);
      }
    }
  }

  /** Unlocked, and its proof not NULL. */
  predicate Finished(row: Row) {
    !row.locked && row.proof.Text?
  }

  /**
    Two rows that should be merged: unlocked, adjacent, not NULL, and both inside one stored
    sequence or both from the start to the end of stored sequences.
  */
  ghost predicate ShouldMerge(pool: Pool, sequences: Sequences, k1: Key, k2: Key) {
    && k1 in pool && k2 in pool && k1.last + 1 == k2.first && Finished(pool[k1]) && Finished(pool[k2])
    && (|| (exists f | f in sequences ::
              && f <= k1.first <= sequences[f] && f <= k1.last <= sequences[f]
              && f <= k2.first <= sequences[f] && f <= k2.last <= sequences[f])
        || (&& k1.first in sequences && k1.last in sequences.Values
            && k2.first in sequences && k2.last in sequences.Values))
  }

  lemma MergeableIff(pool: Pool, sequences: Sequences, k1: Key, k2: Key)
    ensures Mergeable(pool, sequences, k1, k2) <==> ShouldMerge(pool, sequences, k1, k2)
  {
  }

  lemma NothingMissed(pool: Pool, sequences: Sequences, found: bool, first: nat)
    requires forall k1, k2 | Mergeable(pool, sequences, k1, k2) :: found && first <= k1.first
    ensures forall k1, k2 | ShouldMerge(pool, sequences, k1, k2) :: found && first <= k1.first
  {
    hide Mergeable, ShouldMerge;
    forall k1, k2 | ShouldMerge(pool, sequences, k1, k2)
      ensures found && first <= k1.first
    {
      MergeableIff(pool, sequences, k1, k2);
    }
  }

  lemma BothFinished(pool: Pool, sequences: Sequences, k1: Key, k2: Key)
    requires Mergeable(pool, sequences, k1, k2)
    ensures k1 in pool && k2 in pool && pool[k1].proof.Text? && pool[k2].proof.Text?
  {
  }

  /** Adjacent finished rows of whole sequences can be merged, and so can those inside one sequence. */
  lemma WholeRowsAreMergeable(pool: Pool, sequences: Sequences, k1: Key, k2: Key)
    requires k1 in pool && k2 in pool && k1.last + 1 == k2.first && WellFormed(k1) && WellFormed(k2)
    requires pool[k1].proof.Text? && pool[k2].proof.Text? && !pool[k1].locked && !pool[k2].locked
    requires StoredApart(sequences) && AllStored(sequences, k1) && AllStored(sequences, k2)
    ensures ShouldMerge(pool, sequences, k1, k2) <==>
              || (Whole(sequences, k1) && Whole(sequences, k2))
              || exists f | f in sequences :: f <= k1.first && k2.last <= sequences[f]
  {
    hide StoredApart, AllStored, Whole, CompleteSequences;
    CompleteIffWhole(sequences, k1);
    CompleteIffWhole(sequences, k2);
    CompleteInFull(sequences, k1);
    CompleteInFull(sequences, k2);
    OneSequenceIff(sequences, k1, k2);
  }

  lemma CompleteInFull(sequences: Sequences, k: Key)
    ensures CompleteSequences(sequences, k) <==> k.first in sequences && k.last in sequences.Values
  {
  }

  lemma OneSequenceIff(sequences: Sequences, k1: Key, k2: Key)
    requires k1.last + 1 == k2.first && WellFormed(k1) && WellFormed(k2)
    ensures (exists f | f in sequences ::
               && f <= k1.first <= sequences[f] && f <= k1.last <= sequences[f]
               && f <= k2.first <= sequences[f] && f <= k2.last <= sequences[f])
       <==> exists f | f in sequences :: f <= k1.first && k2.last <= sequences[f]
  {
    if exists f | f in sequences :: f <= k1.first && k2.last <= sequences[f] {
      var f :| f in sequences && f <= k1.first && k2.last <= sequences[f];
      assert f <= k1.first <= sequences[f] && f <= k2.last <= sequences[f];
    }
  }

  method LeastPair(pairs: set<(Key, Key)>) returns (best: (Key, Key))
    requires pairs != {}
    ensures best in pairs && forall p | p in pairs :: best.0.first <= p.0.first
  {
    best :| best in pairs;
    var rest := pairs - {best};
    while rest != {}
      invariant best in pairs && rest <= pairs
      invariant forall p | p in pairs - rest :: best.0.first <= p.0.first
      decreases |rest|
    {
      var p :| p in rest;
      if p.0.first < best.0.first {
        best := p;
      }
      rest := rest - {p};
    }
    assert pairs - rest == pairs;
  }

  // ---------- the storage ----------

  class ProofStorage {
    var proofs: Pool
    var sequences: Sequences

    constructor ()
      ensures proofs == map[] && sequences == map[]
    {
      proofs, sequences := map[], map[];
    }

    /** A row of batch b alone would overlap a row exactly when one is found. */
    method CheckProofExistsForBatch(b: nat) returns (found: bool)
      ensures found == Covered(proofs, b)
      ensures found <==> exists k | k in proofs :: k.first <= b <= k.last
      ensures found <==> !Free(proofs, Key(b, b))
    {
      found := exists k | k in proofs :: Covers(k, b);
      assert forall m | m in proofs :: Disjoint(m, Key(b, b)) <==> !Covers(m, b);
    }

    /** For an interval of stored batches: it is a union of whole stored sequences. */
    method CheckProofContainsCompleteSequences(k: Key) returns (complete: bool)
      ensures complete == CompleteSequences(sequences, k)
      ensures complete <==> k.first in sequences && exists f | f in sequences :: sequences[f] == k.last
      ensures WellFormed(k) && StoredApart(sequences) && AllStored(sequences, k) ==>
                (complete <==> Whole(sequences, k))
    {
      if WellFormed(k) && StoredApart(sequences) && AllStored(sequences, k) {
        CompleteIffWhole(sequences, k);
      }
      var starts := k.first in sequences;
      var ends := exists f | f in sequences :: sequences[f] == k.last;
      complete := starts && ends;
    }

    /** A NULL proof column cannot be scanned into a string. */
    method GetProofReadyToVerify(lastVerified: nat) returns (r: Result<Record, StorageError>)
      ensures r.Ok? ==>
                && ReadyToVerify(proofs, sequences, lastVerified, r.value.key)
                && r.value.key in proofs && proofs[r.value.key] == Row(Text(r.value.payload), false)
                && r.value.key.first == lastVerified + 1 && r.value.key.first in sequences
                && exists f | f in sequences :: sequences[f] == r.value.key.last
      ensures r == Err(NotFound) <==> forall k | k in proofs :: !ReadyToVerify(proofs, sequences, lastVerified, k)
      ensures r == Err(NotFound) <==>
                forall k | k in proofs && k.first == lastVerified + 1 && !proofs[k].locked && k.first in sequences ::
                  forall f | f in sequences :: sequences[f] != k.last
      ensures r == Err(NullProof) ==> exists k | k in proofs :: proofs[k].proof.SqlNull?
    {
      if k :| k in proofs && ReadyToVerify(proofs, sequences, lastVerified, k) {
        if proofs[k].proof.SqlNull? {
          return Err(NullProof);
        }
        return Ok(Record(k, proofs[k].proof.payload));
      }
      return Err(NotFound);
    }

    /** ORDER BY p1.batch_num ASC LIMIT 1 over the mergeable pairs. */
    method GetProofsToAggregate() returns (r: Option<(Record, Record)>)
      ensures r.Some? ==>
                && NextPair(proofs, sequences, r.value.0.key, r.value.1.key)
                && proofs[r.value.0.key].proof == Text(r.value.0.payload)
                && proofs[r.value.1.key].proof == Text(r.value.1.payload)
      ensures r.None? <==> forall k1, k2 | k1 in proofs && k2 in proofs :: !Mergeable(proofs, sequences, k1, k2)
      ensures r.Some? ==> ShouldMerge(proofs, sequences, r.value.0.key, r.value.1.key)
      ensures forall k1, k2 | ShouldMerge(proofs, sequences, k1, k2) :: r.Some? && r.value.0.key.first <= k1.first
    {
      var pairs := set k1, k2 | k1 in proofs && k2 in proofs && Mergeable(proofs, sequences, k1, k2) :: (k1, k2);
      assert forall k1, k2 | Mergeable(proofs, sequences, k1, k2) :: (k1, k2) in pairs;
      hide Mergeable, ShouldMerge;
      if pairs == {} {
        NothingMissed(proofs, sequences, false, 0);
        return None;
      }
      var best := LeastPair(pairs);
      NothingMissed(proofs, sequences, true, best.0.first);
      assert NextPair(proofs, sequences, best.0, best.1);
      BothFinished(proofs, sequences, best.0, best.1);
      MergeableIff(proofs, sequences, best.0, best.1);
      return Some((Record(best.0, proofs[best.0].proof.payload), Record(best.1, proofs[best.1].proof.payload)));
    }

    /** Fails on a duplicate primary key, leaving the table as it was. */
    method AddGeneratedProof(r: Record, locked: bool) returns (ok: bool)
      modifies this`proofs
      ensures ok == (r.key !in old(proofs))
      ensures proofs == if ok then old(proofs)[r.key := Row(Text(r.payload), locked)] else old(proofs)
    {
      ok := r.key !in proofs;
      if ok {
        proofs := proofs[r.key := Row(Text(r.payload), locked)];
      }
    }

    /** Succeeds without effect when there is no such row. */
    method UpdateGeneratedProof(r: Record, locked: bool)
      modifies this`proofs
      ensures proofs == Updated(old(proofs), r.key, Row(Text(r.payload), locked))
      ensures proofs.Keys == old(proofs).Keys
      ensures forall k | k in proofs :: proofs[k] == if k == r.key then Row(Text(r.payload), locked) else old(proofs)[k]
    {
      if r.key in proofs {
        proofs := proofs[r.key := Row(Text(r.payload), locked)];
      }
    }

    method DeleteGeneratedProofs(first: nat, last: nat)
      modifies this`proofs
      ensures proofs == WithoutRange(old(proofs), first, last)
      ensures forall k :: k in proofs <==> k in old(proofs) && (k.first < first || k.last > last)
      ensures forall k | k in proofs :: proofs[k] == old(proofs)[k]
    {
      proofs := map k | k in proofs && !(k.first >= first && k.last <= last) :: proofs[k];
    }

    method DeleteUngeneratedProofs()
      modifies this`proofs
      ensures proofs == OnlyUnlocked(old(proofs))
      ensures forall k :: k in proofs <==> k in old(proofs) && !old(proofs)[k].locked
      ensures forall k | k in proofs :: proofs[k] == old(proofs)[k]
    {
      proofs := map k | k in proofs && !proofs[k].locked :: proofs[k];
    }

    /** Inserts the sequence, or moves the end of the one that starts there. */
    method AddSequence(s: Sequence)
      modifies this`sequences
      ensures sequences == old(sequences)[s.from := s.to]
    {
      sequences := sequences[s.from := s.to];
    }
  }
}
