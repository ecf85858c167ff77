/** The parts of a step, and what each keeps of the pool's invariant. */
module ProofPoolInvariant {
  import opened Wrappers
  import opened ProofTable
  import opened ProofPool

  // ---------- what a step may do to the rows others rely on ----------

  /** No batch becomes covered. */
  ghost predicate NoGrowth(pool: Pool, pool': Pool) {
    forall k | WellFormed(k) && Free(pool, k) :: Free(pool', k)
  }

  /** No batch becomes covered, and a new row has more than one batch. */
  ghost predicate OnlyMerges(pool: Pool, pool': Pool) {
    && NoGrowth(pool, pool')
    && forall k | k in pool' && k !in pool :: k.first < k.last
  }

  /** Only the rows in `mine` change, apart from merges. */
  ghost predicate Frame(pool: Pool, pool': Pool, mine: set<Key>) {
    && OnlyMerges(pool, pool')
    && forall k | k in pool && k !in mine :: k in pool' && pool'[k] == pool[k]
  }

  /** The rows an agent counts on: those it holds and those it has selected under the mutex. */
  function Relies(a: Activity): set<Key> {
    match a
    case VerifySelected(_, r) => {r.key}
    case PairSelected(r1, r2) => {r1.key, r2.key}
    case _ => Owns(a)
  }

  lemma AgentKeepsOk(pool: Pool, pool': Pool, mine: set<Key>, l1: set<Sequence>, verified: nat, a: Activity)
    requires Frame(pool, pool', mine) && AgentOk(pool, l1, verified, a) && mine !! Relies(a)
    ensures AgentOk(pool', l1, verified, a)
  {
  }

  /** Rows an agent holds are not relied on by anybody else. */
  lemma HeldIsExclusive(s: State, i: nat, mine: set<Key>, j: nat)
    requires Core(s) && i in s.agents && j in s.agents && i != j
    requires mine <= Owns(s.agents[i])
    requires forall k | k in mine :: Owned(s.pool, k)
    ensures mine !! Relies(s.agents[j])
  {
  }

  /** Rows selected under the mutex are not relied on by anybody else. */
  lemma SelectedIsExclusive(s: State, i: nat, mine: set<Key>, j: nat)
    requires Core(s) && i in s.agents && j in s.agents && i != j && s.mutex == Some(i)
    requires forall k | k in mine :: k in s.pool && !s.pool[k].locked
    ensures mine !! Relies(s.agents[j])
  {
  }

  /** A row nobody else holds is apart from everything others hold. */
  lemma RowApartFromHands(s: State, i: nat, k: Key, j: nat)
    requires Core(s) && i in s.agents && j in s.agents && i != j
    requires k in s.pool && k !in Owns(s.agents[j])
    ensures forall m | m in Owns(s.agents[j]) :: Disjoint(k, m)
  {
    hide TablesOk, Aligned, Eligible, Proves;
    assert AgentOk(s.pool, s.l1, s.lastVerified, s.agents[j]);
  }

  // ---------- one agent's step, put together ----------

  function After(s: State, i: nat, e: Effect): State {
    State(e.pool, e.sequences, s.l1, s.lastVerified, e.mutex, s.agents[i := e.next])
  }

  /** The mutex is taken only when free and released by its holder. */
  ghost predicate MutexOk(s: State, i: nat, e: Effect) {
    if HoldsMutex(e.next) then e.mutex == Some(i) && (s.mutex.None? || s.mutex == Some(i))
    else e.mutex == if s.mutex == Some(i) then None else s.mutex
  }

  lemma StepKeepsCore(s: State, i: nat, e: Effect)
    requires Core(s)
    requires PoolOk(e.pool, s.l1) && TablesOk(s.l1, e.sequences) && MutexOk(s, i, e)
    requires AgentOk(e.pool, s.l1, s.lastVerified, e.next)
    requires forall j | j in s.agents && j != i ::
               AgentOk(e.pool, s.l1, s.lastVerified, s.agents[j]) && HandsApart(e.next, s.agents[j])
    ensures Core(After(s, i, e))
  {
    hide PoolOk, TablesOk, AgentOk;
    var t := After(s, i, e);
    forall j, k | j in t.agents && k in t.agents && j != k
      ensures HandsApart(t.agents[j], t.agents[k])
    {
      if k == i {
        assert HandsApart(e.next, s.agents[j]);
      } else if j != i {
        assert HandsApart(s.agents[j], s.agents[k]);
      }
    }
  }

  /** A step that leaves the tables alone and lets go of nothing but rows it held. */
  lemma QuietStep(s: State, i: nat, e: Effect)
    requires Core(s) && e.pool == s.pool && MutexOk(s, i, e) && TablesOk(s.l1, e.sequences)
    requires AgentOk(e.pool, s.l1, s.lastVerified, e.next)
    requires Owns(e.next) <= Owns(Act(s, i))
    ensures Core(After(s, i, e))
  {
    hide PoolOk, TablesOk, AgentOk;
    forall j | j in s.agents && j != i
      ensures HandsApart(e.next, s.agents[j])
    {
      if i in s.agents {
        assert HandsApart(s.agents[i], s.agents[j]);
      }
    }
    StepKeepsCore(s, i, e);
  }

  /** Whatever is apart from all of `outer` is apart from all of `inner`. */
  ghost predicate Within(inner: set<Key>, outer: set<Key>) {
    forall k, x | k in inner && WellFormed(x) && (forall m | m in outer :: Disjoint(m, x)) :: Disjoint(k, x)
  }

  /** A step that writes rows it holds and ends up holding nothing outside them. */
  lemma HolderStep(s: State, i: nat, e: Effect, mine: set<Key>)
    requires Core(s) && i in s.agents && MutexOk(s, i, e) && e.sequences == s.sequences
    requires mine <= Owns(s.agents[i]) && forall k | k in mine :: Owned(s.pool, k)
    requires Frame(s.pool, e.pool, mine) && PoolOk(e.pool, s.l1)
    requires AgentOk(e.pool, s.l1, s.lastVerified, e.next)
    requires Within(Owns(e.next), Owns(s.agents[i]))
    ensures Core(After(s, i, e))
  {
    hide PoolOk, TablesOk, AgentOk, Frame;
    forall j | j in s.agents && j != i
      ensures AgentOk(e.pool, s.l1, s.lastVerified, s.agents[j]) && HandsApart(e.next, s.agents[j])
    {
      HeldIsExclusive(s, i, mine, j);
      AgentKeepsOk(s.pool, e.pool, mine, s.l1, s.lastVerified, s.agents[j]);
      assert HandsApart(s.agents[i], s.agents[j]);
      forall k, x | k in Owns(e.next) && x in Owns(s.agents[j])
        ensures Disjoint(k, x)
      {
        HeldIsWellFormed(s, j, x);
        assert forall m | m in Owns(s.agents[i]) :: Disjoint(m, x);
      }
    }
    StepKeepsCore(s, i, e);
  }

  lemma HeldIsWellFormed(s: State, j: nat, x: Key)
    requires Core(s) && j in s.agents && x in Owns(s.agents[j])
    ensures WellFormed(x)
  {
  }

  /** A step that locks rows selected under the mutex and holds exactly them afterwards. */
  lemma LockStep(s: State, i: nat, e: Effect, mine: set<Key>)
    requires Core(s) && i in s.agents && s.mutex == Some(i) && MutexOk(s, i, e) && e.sequences == s.sequences
    requires forall k | k in mine :: k in s.pool && !s.pool[k].locked
    requires Owns(e.next) == mine
    requires Frame(s.pool, e.pool, mine) && PoolOk(e.pool, s.l1)
    requires AgentOk(e.pool, s.l1, s.lastVerified, e.next)
    ensures Core(After(s, i, e))
  {
    hide PoolOk, TablesOk, AgentOk, Frame;
    forall j | j in s.agents && j != i
      ensures AgentOk(e.pool, s.l1, s.lastVerified, s.agents[j]) && HandsApart(e.next, s.agents[j])
    {
      SelectedIsExclusive(s, i, mine, j);
      assert !HoldsMutex(s.agents[j]);
      AgentKeepsOk(s.pool, e.pool, mine, s.l1, s.lastVerified, s.agents[j]);
      forall k | k in mine
        ensures forall m | m in Owns(s.agents[j]) :: Disjoint(k, m)
      {
        RowApartFromHands(s, i, k, j);
      }
    }
    StepKeepsCore(s, i, e);
  }

  // ---------- what the statements do to the pool ----------

  /** Rewriting a row with a finished proof of its batches. */
  lemma UpdateKeepsPool(pool: Pool, l1: set<Sequence>, r: Record, locked: bool)
    requires PoolOk(pool, l1) && r.key in pool && Proves(r.payload, r.key)
    ensures var pool' := Updated(pool, r.key, Row(Text(r.payload), locked));
            PoolOk(pool', l1) && Frame(pool, pool', {r.key}) && pool'.Keys == pool.Keys
  {
  }

  /** Removing rows. */
  lemma RemoveKeepsPool(pool: Pool, l1: set<Sequence>, gone: set<Key>)
    requires PoolOk(pool, l1)
    ensures PoolOk(pool - gone, l1) && Frame(pool, pool - gone, gone)
  {
  }

  /** Deleting the range of a row deletes that row and no other. */
  lemma RangeOfRow(pool: Pool, k: Key)
    requires RowsDisjoint(pool) && k in pool
    ensures WithoutRange(pool, k.first, k.last) == pool - {k}
  {
  }

  /** Deleting the range of two adjacent rows deletes exactly those two. */
  lemma RangeOfPair(pool: Pool, k1: Key, k2: Key)
    requires RowsDisjoint(pool) && k1 in pool && k2 in pool && Adjacent(k1, k2)
    ensures WithoutRange(pool, k1.first, k2.last) == pool - {k1, k2}
  {
  }

  lemma MergeKeepsPool(pool: Pool, l1: set<Sequence>, r1: Record, r2: Record, payload: Payload)
    requires PoolOk(pool, l1) && r1.key in pool && r2.key in pool
    requires PairOk(l1, r1, r2) && Proves(payload, Joined(r1.key, r2.key))
    ensures var pool' := Merged(pool, r1.key, r2.key, payload);
            PoolOk(pool', l1) && Frame(pool, pool', {r1.key, r2.key})
  {
    hide Proves, Aligned, UnlockedFinished;
    var k1, k2, k := r1.key, r2.key, Joined(r1.key, r2.key);
    var pool' := Merged(pool, k1, k2, payload);
    RangeOfPair(pool, k1, k2);
    assert WellFormed(k1) && WellFormed(k2);
    assert forall m | m in pool' :: m == k || (m in pool && m != k1 && m != k2);
    assert forall m | m in pool && m != k1 && m != k2 :: Disjoint(m, k1) && Disjoint(m, k2) && Disjoint(m, k) && Disjoint(k, m);
    assert RowsDisjoint(pool');
    assert UnlockedFinished(pool') by {
      assert forall m | m in pool' && !pool'[m].locked :: m in pool && pool[m] == pool'[m];
      UnlockedFinishedInherited(pool, pool');
    }
    forall x | WellFormed(x) && Free(pool, x)
      ensures Free(pool', x)
    {
      assert Disjoint(k1, x) && Disjoint(k2, x);
    }
  }

  lemma UnlockedFinishedInherited(pool: Pool, pool': Pool)
    requires UnlockedFinished(pool)
    requires forall m | m in pool' && !pool'[m].locked :: m in pool && pool[m] == pool'[m]
    ensures UnlockedFinished(pool')
  {
  }

  /** A batch no row covers can be inserted. */
  lemma InsertKeepsPool(pool: Pool, l1: set<Sequence>, b: nat)
    requires PoolOk(pool, l1) && Free(pool, Key(b, b)) && Aligned(l1, Key(b, b))
    ensures PoolOk(pool[Key(b, b) := Row(Text(EmptyText), true)], l1)
  {
  }

  // ---------- alignment ----------

  /** Complete sequences are a union of sequences. */
  lemma BoundariesMakeUnion(l1: set<Sequence>, sequences: Sequences, k: Key)
    requires TablesOk(l1, sequences) && WellFormed(k) && Aligned(l1, k) && OnBoundaries(l1, k)
    ensures UnionOfSequences(l1, k)
  {
  }

  lemma CompleteIsOnBoundaries(l1: set<Sequence>, sequences: Sequences, k: Key)
    requires TablesOk(l1, sequences) && CompleteSequences(sequences, k)
    ensures OnBoundaries(l1, k)
  {
  }

  /** The aggregation query pairs only rows whose union is again aligned. */
  lemma MergeStaysAligned(pool: Pool, l1: set<Sequence>, sequences: Sequences, k1: Key, k2: Key)
    requires TablesOk(l1, sequences) && Mergeable(pool, sequences, k1, k2)
    requires WellFormed(k1) && WellFormed(k2) && Aligned(l1, k1) && Aligned(l1, k2)
    ensures Aligned(l1, Joined(k1, k2))
  {
    if InOneSequence(sequences, k1, k2) {
      var f :| f in sequences && f <= k1.first && k2.last <= sequences[f];
      assert Sequence(f, sequences[f]) in l1;
    } else {
      CompleteIsOnBoundaries(l1, sequences, k1);
      CompleteIsOnBoundaries(l1, sequences, k2);
      BoundariesMakeUnion(l1, sequences, k1);
      BoundariesMakeUnion(l1, sequences, k2);
      UnionsJoin(l1, k1, k2);
    }
  }

  lemma UnionsJoin(l1: set<Sequence>, k1: Key, k2: Key)
    requires WellFormed(k1) && WellFormed(k2) && Adjacent(k1, k2)
    requires UnionOfSequences(l1, k1) && UnionOfSequences(l1, k2)
    ensures UnionOfSequences(l1, Joined(k1, k2))
  {
    var k := Joined(k1, k2);
    forall b: nat | Covers(k, b)
      ensures exists q | q in l1 :: k.first <= q.from <= b <= q.to <= k.last
    {
      if Covers(k1, b) {
        var q :| q in l1 && k1.first <= q.from <= b <= q.to <= k1.last;
      } else {
        assert Covers(k2, b);
        var q :| q in l1 && k2.first <= q.from <= b <= q.to <= k2.last;
      }
    }
  }
}
