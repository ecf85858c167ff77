/** Safety of the proof pool over every run of every interleaving. */
module ProofPoolTheorems {
  import opened Wrappers
  import opened ProofTable
  import opened ProofPool
  import opened ProofPoolInvariant

  // ---------- one lemma for each kind of move ----------

  /** The facts the invariant gives about the agent that moves. */
  lemma ActorFacts(s: State, i: nat)
    requires Core(s)
    ensures AgentOk(s.pool, s.l1, s.lastVerified, Act(s, i))
    ensures HoldsMutex(Act(s, i)) <==> s.mutex == Some(i)
  {
  }

  lemma IdleIsOk(pool: Pool, l1: set<Sequence>, verified: nat)
    ensures AgentOk(pool, l1, verified, Idle)
  {
  }

  /** Moves that leave the proof table alone. */
  predicate Quiet(m: Move) {
    !m.LockReady? && !m.LockPair? && !m.CommitMerge? && !m.UnlockPair? && !m.InsertBatch? && !m.DeleteFailed?
    && !m.Validate? && !m.Write?
  }

  lemma QuietMoveKeepsCore(s: State, i: nat, m: Move, e: Effect)
    requires Core(s) && Quiet(m) && MoveEffect(s, i, m) == Some(e)
    ensures Core(After(s, i, e))
  {
    hide Core, PoolOk, TablesOk, AgentOk, MoveEffect;
    ActorFacts(s, i);
    QuietEffect(s, i, m, e);
    QuietTables(s, i, m, e);
    QuietNext(s, i, m, e);
    QuietStep(s, i, e);
  }

  lemma QuietEffect(s: State, i: nat, m: Move, e: Effect)
    requires Quiet(m) && MoveEffect(s, i, m) == Some(e)
    requires HoldsMutex(Act(s, i)) <==> s.mutex == Some(i)
    ensures e.pool == s.pool && MutexOk(s, i, e) && Owns(e.next) <= Owns(Act(s, i))
  {
    hide NextPair, ReadyToVerify, Covered;
  }

  lemma QuietTables(s: State, i: nat, m: Move, e: Effect)
    requires Core(s) && Quiet(m) && MoveEffect(s, i, m) == Some(e)
    ensures TablesOk(s.l1, e.sequences)
  {
    hide PoolOk, AgentOk, HandsApart, NextPair, ReadyToVerify, Covered;
    if m.StoreSequence? {
      assert TablesOk(s.l1, s.sequences[m.sequence.from := m.sequence.to]);
    } else {
      hide TablesOk;
      assert e.sequences == s.sequences;
    }
  }

  lemma QuietNext(s: State, i: nat, m: Move, e: Effect)
    requires Core(s) && Quiet(m) && MoveEffect(s, i, m) == Some(e)
    requires AgentOk(s.pool, s.l1, s.lastVerified, Act(s, i))
    ensures AgentOk(s.pool, s.l1, s.lastVerified, e.next)
  {
    if m.SelectReady? {
      ReadyIsSelected(s, m.k, Act(s, i).lastVerified);
      hide Core, Selected, Eligible, ReadyToVerify;
    } else if m.SelectPair? {
      PairIsSelected(s, m.k1, m.k2);
      hide Core, Selected, PairOk, NextPair;
    } else {
      QuietNextPlain(s, i, m, e);
    }
  }

  lemma QuietNextPlain(s: State, i: nat, m: Move, e: Effect)
    requires Quiet(m) && !m.SelectReady? && !m.SelectPair? && MoveEffect(s, i, m) == Some(e)
    requires AgentOk(s.pool, s.l1, s.lastVerified, Act(s, i))
    ensures AgentOk(s.pool, s.l1, s.lastVerified, e.next)
  {
    var a := Act(s, i);
    if m.ProverMerges? {
      assert Proves(Aggregated(a.r1.payload, a.r2.payload), Joined(a.r1.key, a.r2.key)) by {
        MergeProves(a.r1.payload, a.r1.key, a.r2.payload, a.r2.key);
      }
    } else if m.CheckNext? {
      UncoveredIsFree(s.pool, a.b);
    } else if m.ProverProves? {
      assert Range(Key(a.b, a.b)) == [a.b];
    }
    hide Aligned, OnBoundaries, Flatten, Range, Free, PairOk;
  }

  lemma UncoveredIsFree(pool: Pool, b: nat)
    ensures !Covered(pool, b) <==> Free(pool, Key(b, b))
  {
  }

  lemma ReadyIsSelected(s: State, k: Key, lastVerified: nat)
    requires Core(s) && ReadyToVerify(s.pool, s.sequences, lastVerified, k) && s.pool[k].proof.Text?
    ensures var r := Record(k, s.pool[k].proof.payload);
            Selected(s.pool, r) && Eligible(s.l1, lastVerified, k)
  {
  }

  lemma PairIsSelected(s: State, k1: Key, k2: Key)
    requires Core(s) && NextPair(s.pool, s.sequences, k1, k2)
    ensures var r1, r2 := Record(k1, s.pool[k1].proof.payload), Record(k2, s.pool[k2].proof.payload);
            Selected(s.pool, r1) && Selected(s.pool, r2) && PairOk(s.l1, r1, r2)
  {
    hide AgentOk, HandsApart, Aligned, UnlockedFinished, TablesOk;
    MergeStaysAligned(s.pool, s.l1, s.sequences, k1, k2);
  }

  lemma SelectedProves(s: State, r: Record)
    requires PoolOk(s.pool, s.l1) && Selected(s.pool, r)
    ensures RecordOk(s.l1, r)
  {
  }

  lemma LockReadyKeepsCore(s: State, i: nat, e: Effect)
    requires Core(s) && MoveEffect(s, i, LockReady) == Some(e)
    ensures Core(After(s, i, e))
  {
    var r := LockReadyFacts(s, i, e);
    SelectedProves(s, r);
    UpdateKeepsPool(s.pool, s.l1, r, true);
    hide PoolOk, TablesOk, Aligned, Eligible, Proves, Frame, HandsApart, MoveEffect;
    LockStep(s, i, e, {r.key});
  }

  lemma LockReadyFacts(s: State, i: nat, e: Effect) returns (r: Record)
    requires Core(s) && MoveEffect(s, i, LockReady) == Some(e)
    ensures i in s.agents && s.mutex == Some(i) && Selected(s.pool, r)
    ensures Eligible(s.l1, Act(s, i).lastVerified, r.key)
    ensures e == Effect(Locked(s.pool, r), s.sequences, None, Finalizing(Act(s, i).lastVerified, r))
  {
    hide PoolOk, TablesOk, HandsApart, Eligible;
    ActorFacts(s, i);
    r := Act(s, i).r;
  }

  lemma LockPairKeepsCore(s: State, i: nat, e: Effect)
    requires Core(s) && MoveEffect(s, i, LockPair) == Some(e)
    ensures Core(After(s, i, e))
  {
    hide Core, AgentOk, PoolOk, Frame, MoveEffect, Updated, Proves, Aligned;
    var r1, r2 := LockPairFacts(s, i, e);
    SelectedProves(s, r1);
    SelectedProves(s, r2);
    LockBoth(s.pool, s.l1, r1, r2);
    MergingIsOk(e.pool, s.l1, s.lastVerified, r1, r2);
    LockStep(s, i, e, {r1.key, r2.key});
  }

  lemma LockPairFacts(s: State, i: nat, e: Effect) returns (r1: Record, r2: Record)
    requires Core(s) && MoveEffect(s, i, LockPair) == Some(e)
    ensures i in s.agents && s.mutex == Some(i) && PoolOk(s.pool, s.l1)
    ensures Selected(s.pool, r1) && Selected(s.pool, r2) && PairOk(s.l1, r1, r2)
    ensures e == Effect(Locked(Locked(s.pool, r1), r2), s.sequences, None, Merging(r1, r2))
  {
    hide PoolOk, TablesOk, HandsApart, PairOk, Selected;
    ActorFacts(s, i);
    r1, r2 := Act(s, i).r1, Act(s, i).r2;
  }

  /** Locking both rows of a pair. */
  lemma LockBoth(pool: Pool, l1: set<Sequence>, r1: Record, r2: Record)
    requires PoolOk(pool, l1) && Selected(pool, r1) && Selected(pool, r2) && Adjacent(r1.key, r2.key)
    requires RecordOk(l1, r1) && RecordOk(l1, r2)
    ensures var pool' := Locked(Locked(pool, r1), r2);
            && PoolOk(pool', l1) && Frame(pool, pool', {r1.key, r2.key})
            && Holding(pool', l1, r1) && Holding(pool', l1, r2)
  {
  }

  /** Unlocking both rows of a pair. */
  lemma UnlockBoth(pool: Pool, l1: set<Sequence>, r1: Record, r2: Record)
    requires PoolOk(pool, l1) && Holding(pool, l1, r1) && Holding(pool, l1, r2)
    ensures var pool' := Unlocked(Unlocked(pool, r1), r2);
            PoolOk(pool', l1) && Frame(pool, pool', {r1.key, r2.key})
  {
  }

  lemma MergingIsOk(pool: Pool, l1: set<Sequence>, verified: nat, r1: Record, r2: Record)
    requires Holding(pool, l1, r1) && Holding(pool, l1, r2) && PairOk(l1, r1, r2)
    ensures AgentOk(pool, l1, verified, Merging(r1, r2))
  {
  }

  lemma CraftedIsOk(pool: Pool, l1: set<Sequence>, verified: nat, r: Record)
    requires Holding(pool, l1, r)
    ensures AgentOk(pool, l1, verified, Crafted(r))
  {
  }

  lemma CommitKeepsCore(s: State, i: nat, e: Effect)
    requires Core(s) && MoveEffect(s, i, CommitMerge) == Some(e)
    ensures Core(After(s, i, e))
  {
    hide Core, MoveEffect;
    var r1, r2, payload := CommitFacts(s, i, e);
    CommittedKeepsCore(s, i, e, r1, r2, payload);
  }

  lemma CommittedKeepsCore(s: State, i: nat, e: Effect, r1: Record, r2: Record, payload: Payload)
    requires Core(s) && PoolOk(s.pool, s.l1)
    requires i in s.agents && s.mutex != Some(i) && Owns(s.agents[i]) == {r1.key, r2.key}
    requires Holding(s.pool, s.l1, r1) && Holding(s.pool, s.l1, r2) && PairOk(s.l1, r1, r2)
    requires Proves(payload, Joined(r1.key, r2.key))
    requires e == Effect(Merged(s.pool, r1.key, r2.key, payload), s.sequences, s.mutex,
                         Crafted(Record(Joined(r1.key, r2.key), payload)))
    ensures Core(After(s, i, e))
  {
    hide Core, AgentOk, PoolOk, Frame, Merged, Proves, Aligned, Within, PairOk;
    MergeKeepsPool(s.pool, s.l1, r1, r2, payload);
    MergedIsOwns(s.pool, s.l1, r1, r2, payload);
    CraftedIsOk(e.pool, s.l1, s.lastVerified, e.next.r);
    JoinedWithin(s.l1, r1, r2);
    HolderStep(s, i, e, {r1.key, r2.key});
  }

  lemma CommitFacts(s: State, i: nat, e: Effect) returns (r1: Record, r2: Record, payload: Payload)
    requires Core(s) && MoveEffect(s, i, CommitMerge) == Some(e)
    ensures i in s.agents && s.mutex != Some(i) && PoolOk(s.pool, s.l1)
    ensures Owns(s.agents[i]) == {r1.key, r2.key}
    ensures Holding(s.pool, s.l1, r1) && Holding(s.pool, s.l1, r2) && PairOk(s.l1, r1, r2)
    ensures Proves(payload, Joined(r1.key, r2.key))
    ensures e == Effect(Merged(s.pool, r1.key, r2.key, payload), s.sequences, s.mutex,
                        Crafted(Record(Joined(r1.key, r2.key), payload)))
  {
    hide PoolOk, TablesOk, HandsApart, PairOk, Holding, Proves;
    ActorFacts(s, i);
    r1, r2, payload := Act(s, i).r1, Act(s, i).r2, Act(s, i).payload;
  }

  lemma MergedIsOwns(pool: Pool, l1: set<Sequence>, r1: Record, r2: Record, payload: Payload)
    requires PairOk(l1, r1, r2) && Proves(payload, Joined(r1.key, r2.key))
    ensures Holding(Merged(pool, r1.key, r2.key, payload), l1, Record(Joined(r1.key, r2.key), payload))
  {
  }

  /** Whatever is apart from two adjacent rows is apart from their join. */
  lemma JoinedWithin(l1: set<Sequence>, r1: Record, r2: Record)
    requires PairOk(l1, r1, r2) && RecordOk(l1, r1) && RecordOk(l1, r2)
    ensures Within({Joined(r1.key, r2.key)}, {r1.key, r2.key})
  {
  }

  lemma UnlockPairKeepsCore(s: State, i: nat, e: Effect)
    requires Core(s) && MoveEffect(s, i, UnlockPair) == Some(e)
    ensures Core(After(s, i, e))
  {
    hide Core, AgentOk, PoolOk, Frame, MoveEffect, Updated, Proves, Aligned;
    var r1, r2 := UnlockPairFacts(s, i, e);
    UnlockBoth(s.pool, s.l1, r1, r2);
    IdleIsOk(e.pool, s.l1, s.lastVerified);
    HolderStep(s, i, e, {r1.key, r2.key});
  }

  lemma UnlockPairFacts(s: State, i: nat, e: Effect) returns (r1: Record, r2: Record)
    requires Core(s) && MoveEffect(s, i, UnlockPair) == Some(e)
    ensures i in s.agents && s.mutex != Some(i) && PoolOk(s.pool, s.l1)
    ensures Owns(s.agents[i]) == {r1.key, r2.key}
    ensures Holding(s.pool, s.l1, r1) && Holding(s.pool, s.l1, r2)
    ensures e == Effect(Unlocked(Unlocked(s.pool, r1), r2), s.sequences, s.mutex, Idle)
  {
    hide PoolOk, TablesOk, HandsApart, PairOk, Holding, Proves;
    ActorFacts(s, i);
    r1, r2 := Act(s, i).r1, Act(s, i).r2;
  }

  lemma DeleteFailedKeepsCore(s: State, i: nat, e: Effect)
    requires Core(s) && MoveEffect(s, i, DeleteFailed) == Some(e)
    ensures Core(After(s, i, e))
  {
    ActorFacts(s, i);
    var k := Key(Act(s, i).b, Act(s, i).b);
    RangeOfRow(s.pool, k);
    RemoveKeepsPool(s.pool, s.l1, {k});
    hide PoolOk, TablesOk, Aligned, Proves, Frame, HandsApart;
    HolderStep(s, i, e, {k});
  }

  lemma RowGone(pool: Pool, k: Key)
    requires RowsDisjoint(pool) && k in pool
    ensures Free(pool - {k}, k)
  {
  }

  lemma ValidateKeepsCore(s: State, i: nat, e: Effect)
    requires Core(s) && MoveEffect(s, i, Validate) == Some(e)
    ensures Core(After(s, i, e))
  {
    var lv, r := ValidateFacts(s, i, e);
    if r.key.last < lv + 1 {
      DiscardKeepsCore(s, i, e, lv, r);
    } else {
      JudgedIsOk(s, i, e, lv, r);
      hide Core, AgentOk, PoolOk, MoveEffect, AfterValidation;
      QuietStep(s, i, e);
    }
  }

  lemma ValidateFacts(s: State, i: nat, e: Effect) returns (lv: nat, r: Record)
    requires Core(s) && MoveEffect(s, i, Validate) == Some(e)
    ensures i in s.agents && s.mutex != Some(i) && s.agents[i] == Validating(lv, r)
    ensures Holding(s.pool, s.l1, r) && lv <= s.lastVerified && PoolOk(s.pool, s.l1) && TablesOk(s.l1, s.sequences)
    ensures AfterValidation(s, i, lv, r) == Some(e)
  {
    hide PoolOk, TablesOk, HandsApart, Holding, AfterValidation;
    ActorFacts(s, i);
    lv, r := Act(s, i).lastVerified, Act(s, i).r;
  }

  /** The proof is behind what L1 has verified: its row goes, the write-back is still to come. */
  lemma DiscardKeepsCore(s: State, i: nat, e: Effect, lv: nat, r: Record)
    requires Core(s) && i in s.agents && s.mutex != Some(i) && s.agents[i] == Validating(lv, r)
    requires Holding(s.pool, s.l1, r) && lv <= s.lastVerified && PoolOk(s.pool, s.l1)
    requires r.key.last < lv + 1 && AfterValidation(s, i, lv, r) == Some(e)
    ensures Core(After(s, i, e))
  {
    assert WellFormed(r.key);
    RangeOfRow(s.pool, r.key);
    RemoveKeepsPool(s.pool, s.l1, {r.key});
    assert e == Effect(s.pool - {r.key}, s.sequences, s.mutex, Discarded(r));
    DiscardedIsOk(e.pool, s.l1, s.lastVerified, r);
    hide Core, AgentOk, PoolOk, Frame, AfterValidation, Proves, Aligned;
    HolderStep(s, i, e, {r.key});
  }

  lemma DiscardedIsOk(pool: Pool, l1: set<Sequence>, verified: nat, r: Record)
    requires RecordOk(l1, r) && r.key.last <= verified
    ensures AgentOk(pool, l1, verified, Discarded(r))
  {
  }

  /** Otherwise the proof is judged eligible, or goes back to the pool. */
  lemma JudgedIsOk(s: State, i: nat, e: Effect, lv: nat, r: Record)
    requires i in s.agents && s.mutex != Some(i) && s.agents[i] == Validating(lv, r)
    requires Holding(s.pool, s.l1, r) && TablesOk(s.l1, s.sequences)
    requires r.key.last >= lv + 1 && AfterValidation(s, i, lv, r) == Some(e)
    ensures AgentOk(e.pool, s.l1, s.lastVerified, e.next) && e.pool == s.pool && e.sequences == s.sequences
    ensures Owns(e.next) == Owns(Act(s, i)) && MutexOk(s, i, e)
  {
    hide TablesOk, OnBoundaries, Holding, CompleteSequences;
    if CompleteSequences(s.sequences, r.key) {
      CompleteIsOnBoundaries(s.l1, s.sequences, r.key);
    }
  }

  lemma WriteKeepsCore(s: State, i: nat, e: Effect)
    requires Inv(s) && MoveEffect(s, i, Write) == Some(e)
    ensures Core(After(s, i, e))
  {
    hide Core, AgentOk, PoolOk, Frame, MoveEffect, Proves, Aligned;
    var r := WriteFacts(s, i, e);
    IdleIsOk(e.pool, s.l1, s.lastVerified);
    if s.agents[i].WriteBack? {
      UpdateKeepsPool(s.pool, s.l1, r, false);
      HolderStep(s, i, e, {r.key});
    } else {
      DiscardedHasNoRow(s, i);
      assert e.pool == s.pool;
      QuietStep(s, i, e);
    }
  }

  lemma DiscardedHasNoRow(s: State, i: nat)
    requires Shadows(s) && i in s.agents && s.agents[i].Discarded?
    ensures s.agents[i].r.key !in s.pool
  {
  }

  lemma WriteFacts(s: State, i: nat, e: Effect) returns (r: Record)
    requires Core(s) && MoveEffect(s, i, Write) == Some(e)
    ensures i in s.agents && s.mutex != Some(i) && PoolOk(s.pool, s.l1) && TablesOk(s.l1, s.sequences)
    ensures s.agents[i] == WriteBack(r) || s.agents[i] == Discarded(r)
    ensures s.agents[i].WriteBack? ==> Holding(s.pool, s.l1, r)
    ensures e == Effect(Unlocked(s.pool, r), s.sequences, s.mutex, Idle)
  {
    hide PoolOk, TablesOk, HandsApart, Holding, Flatten, Range, Aligned, Free;
    ActorFacts(s, i);
    r := Act(s, i).r;
  }

  lemma FreeKeyHasNoRow(pool: Pool, k: Key)
    requires Free(pool, k) && WellFormed(k)
    ensures k !in pool
  {
  }

  // ---------- the insert ----------

  lemma InsertKeepsCore(s: State, i: nat, e: Effect)
    requires Core(s) && MoveEffect(s, i, InsertBatch) == Some(e)
    ensures Core(After(s, i, e))
  {
    hide Core, MoveEffect, PoolOk, TablesOk, AgentOk, HandsApart, Free, Aligned, MutexOk;
    var b := InsertFacts(s, i, e);
    InsertKeepsPool(s.pool, s.l1, b);
    ProvingIsOk(s, e, b);
    forall j | j in s.agents && j != i
      ensures AgentOk(e.pool, s.l1, s.lastVerified, s.agents[j]) && HandsApart(e.next, s.agents[j])
    {
      OthersSurviveInsert(s, i, j, b);
    }
    StepKeepsCore(s, i, e);
  }

  lemma InsertFacts(s: State, i: nat, e: Effect) returns (b: nat)
    requires Core(s) && MoveEffect(s, i, InsertBatch) == Some(e)
    ensures i in s.agents && s.agents[i] == SequenceStored(b)
    ensures PoolOk(s.pool, s.l1) && TablesOk(s.l1, s.sequences)
    ensures Free(s.pool, Key(b, b)) && Aligned(s.l1, Key(b, b)) && MutexOk(s, i, e)
    ensures e == Effect(s.pool[Key(b, b) := Row(Text(EmptyText), true)], s.sequences, None, Proving(b))
  {
    hide PoolOk, TablesOk, HandsApart, Free, InSequence;
    ActorFacts(s, i);
    b := Act(s, i).b;
  }

  lemma ProvingIsOk(s: State, e: Effect, b: nat)
    requires Aligned(s.l1, Key(b, b)) && e.next == Proving(b)
    requires e.pool == s.pool[Key(b, b) := Row(Text(EmptyText), true)]
    ensures AgentOk(e.pool, s.l1, s.lastVerified, e.next)
  {
    hide Aligned;
  }

  /** Only the agent about to insert has the mutex. */
  lemma OtherFacts(s: State, i: nat, j: nat) returns (a: Activity)
    requires Core(s) && i in s.agents && j in s.agents && i != j && HoldsMutex(s.agents[i])
    ensures a == s.agents[j] && AgentOk(s.pool, s.l1, s.lastVerified, a) && !HoldsMutex(a)
  {
    hide PoolOk, TablesOk, AgentOk, HandsApart;
    a := s.agents[j];
  }

  lemma OthersSurviveInsert(s: State, i: nat, j: nat, b: nat)
    requires Core(s) && i in s.agents && j in s.agents && i != j && s.agents[i] == SequenceStored(b)
    requires Free(s.pool, Key(b, b))
    ensures AgentOk(s.pool[Key(b, b) := Row(Text(EmptyText), true)], s.l1, s.lastVerified, s.agents[j])
    ensures HandsApart(Proving(b), s.agents[j])
  {
    hide Core, PoolOk, TablesOk, Aligned, Eligible, Flatten, Range, HandsApart;
    var a := OtherFacts(s, i, j);
    assert forall m | m in Owns(a) :: Disjoint(Key(b, b), m);
    OnlyOwns(b, a);
  }

  lemma OnlyOwns(b: nat, a: Activity)
    requires forall m | m in Owns(a) :: Disjoint(Key(b, b), m)
    ensures HandsApart(Proving(b), a)
  {
  }

  // ---------- every step ----------

  lemma MoveKeepsCore(s: State, i: nat, m: Move, e: Effect)
    requires Inv(s) && MoveEffect(s, i, m) == Some(e)
    ensures Core(After(s, i, e))
  {
    hide Core, MoveEffect, Shadows;
    match m {
      case LockReady => LockReadyKeepsCore(s, i, e);
      case LockPair => LockPairKeepsCore(s, i, e);
      case CommitMerge => CommitKeepsCore(s, i, e);
      case UnlockPair => UnlockPairKeepsCore(s, i, e);
      case InsertBatch => InsertKeepsCore(s, i, e);
      case DeleteFailed => DeleteFailedKeepsCore(s, i, e);
      case Validate => ValidateKeepsCore(s, i, e);
      case Write => WriteKeepsCore(s, i, e);
      case _ => QuietMoveKeepsCore(s, i, m, e);
    }
  }

  lemma AlignedGrows(l1: set<Sequence>, l1': set<Sequence>, k: Key)
    requires l1 <= l1' && Aligned(l1, k)
    ensures Aligned(l1', k)
  {
  }

  lemma AgentSurvivesL1(pool: Pool, l1: set<Sequence>, l1': set<Sequence>, verified: nat, verified': nat, a: Activity)
    requires l1 <= l1' && verified <= verified' && AgentOk(pool, l1, verified, a)
    ensures AgentOk(pool, l1', verified', a)
  {
  }

  lemma L1StepKeepsCore(s: State, a: Action)
    requires Core(s) && (a.SequenceOnL1? || a.VerifiedOnL1?) && Step(s, a).Some?
    ensures Core(Step(s, a).value)
  {
    var t := Step(s, a).value;
    assert s.l1 <= t.l1;
    forall i | i in s.agents
      ensures AgentOk(t.pool, t.l1, t.lastVerified, t.agents[i])
    {
      AgentSurvivesL1(s.pool, s.l1, t.l1, s.lastVerified, t.lastVerified, s.agents[i]);
    }
    forall k | k in s.pool
      ensures Aligned(t.l1, k)
    {
      AlignedGrows(s.l1, t.l1, k);
    }
    hide AgentOk, Aligned, Proves;
    assert PoolOk(t.pool, t.l1);
    assert TablesOk(t.l1, t.sequences);
  }

  lemma ReapKeepsCore(s: State, k: Key)
    requires Core(s) && Step(s, Reap(k)).Some?
    ensures Core(Step(s, Reap(k)).value)
  {
    var t := Step(s, Reap(k)).value;
    RemoveKeepsPool(s.pool, s.l1, {k});
    forall i | i in s.agents
      ensures AgentOk(t.pool, t.l1, t.lastVerified, t.agents[i])
    {
      assert {k} !! Relies(s.agents[i]) by {
        assert AgentOk(s.pool, s.l1, s.lastVerified, s.agents[i]);
      }
      AgentKeepsOk(s.pool, t.pool, {k}, s.l1, s.lastVerified, s.agents[i]);
    }
    hide AgentOk, PoolOk, TablesOk, Frame;
  }

  lemma RestartKeepsCore(s: State)
    requires Core(s)
    ensures Core(Step(s, Restart).value)
  {
  }
}
