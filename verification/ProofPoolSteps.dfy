/** Every step keeps the pool's invariant, except an insert that collides with a discarded proof. */
module ProofPoolSteps {
  import opened Wrappers
  import opened ProofTable
  import opened ProofPool
  import opened ProofPoolInvariant
  import opened ProofPoolTheorems

  // ---------- the intervals of discarded proofs ----------

  lemma NotCoveredAgain(pool: Pool, pool': Pool, b: nat)
    requires NoGrowth(pool, pool') && Covered(pool', b)
    ensures Covered(pool, b)
  {
    UncoveredIsFree(pool, b);
    UncoveredIsFree(pool', b);
  }

  /** Merges and deletes do not bring the row of a spent interval back. */
  lemma SpentStays(pool: Pool, pool': Pool, k: Key)
    requires OnlyMerges(pool, pool') && Spent(pool, k) && WellFormed(k)
    ensures Spent(pool', k)
  {
    hide NoGrowth;
    forall b | Covered(pool', b)
      ensures Covered(pool, b)
    {
      NotCoveredAgain(pool, pool', b);
    }
    assert Covers(k, k.first) && Covers(k, k.last);
    assert k in pool' ==> Covered(pool', k.first) && Covered(pool', k.last);
  }

  /** The search is no earlier than it was, or looks only past what L1 has verified. */
  ghost predicate SearchOk(s: State, i: nat, next: Activity) {
    NextBatch(next).Some? ==>
      || NextBatch(next).value > s.lastVerified
      || (NextBatch(Act(s, i)).Some? && NextBatch(Act(s, i)).value <= NextBatch(next).value)
  }

  /** What the shadows need of a step that inserts nothing. */
  lemma ShadowsStay(s: State, i: nat, e: Effect)
    requires Inv(s) && OnlyMerges(s.pool, e.pool) && SearchOk(s, i, e.next)
    requires e.next.Discarded? ==> Free(e.pool, e.next.r.key) && WellFormed(e.next.r.key)
    ensures Shadows(After(s, i, e))
  {
    hide Spent, Free, NoGrowth, Core, Untouched;
    var t := After(s, i, e);
    forall j | j in t.agents && t.agents[j].Discarded?
      ensures Spent(t.pool, t.agents[j].r.key)
      ensures forall x | x in t.agents :: Untouched(t.pool, t.agents[x], t.agents[j].r.key)
    {
      if j == i {
        FreshShadow(t, e.next.r.key);
      } else {
        OldShadow(s, i, e, j);
      }
    }
  }

  lemma FreshShadow(t: State, k: Key)
    requires Free(t.pool, k) && WellFormed(k)
    ensures Spent(t.pool, k) && forall x | x in t.agents :: Untouched(t.pool, t.agents[x], k)
  {
  }

  lemma DiscardedFacts(s: State, j: nat)
    requires Inv(s) && j in s.agents && s.agents[j].Discarded?
    ensures var k := s.agents[j].r.key;
            && WellFormed(k) && k.last <= s.lastVerified && Spent(s.pool, k)
            && forall i | i in s.agents :: Untouched(s.pool, s.agents[i], k)
  {
    hide PoolOk, TablesOk, HandsApart, Flatten, Range, Aligned, Spent, Untouched;
    assert AgentOk(s.pool, s.l1, s.lastVerified, s.agents[j]);
  }

  lemma OldShadow(s: State, i: nat, e: Effect, j: nat)
    requires Inv(s) && OnlyMerges(s.pool, e.pool) && SearchOk(s, i, e.next)
    requires j in s.agents && j != i && s.agents[j].Discarded?
    ensures var t, k := After(s, i, e), s.agents[j].r.key;
            Spent(t.pool, k) && forall x | x in t.agents :: Untouched(t.pool, t.agents[x], k)
  {
    hide Inv, Core, Shadows, Spent, Free;
    DiscardedFacts(s, j);
    SpentStays(s.pool, e.pool, s.agents[j].r.key);
    assert i !in s.agents ==> NextBatch(Act(s, i)).None?;
  }

  // ---------- each move ----------

  lemma FewerRowsOnlyMerges(pool: Pool, pool': Pool)
    requires pool'.Keys <= pool.Keys
    ensures OnlyMerges(pool, pool')
  {
    assert forall k | k in pool' :: k in pool;
  }

  /** Moves other than the insert and the merge add no row. */
  lemma OtherMovesAddNoRow(s: State, i: nat, m: Move, e: Effect)
    requires MoveEffect(s, i, m) == Some(e) && !m.InsertBatch? && !m.CommitMerge?
    ensures e.pool.Keys <= s.pool.Keys
  {
    hide NextPair, ReadyToVerify, Covered, CompleteSequences;
  }

  lemma MoveOnlyMerges(s: State, i: nat, m: Move, e: Effect)
    requires Core(s) && MoveEffect(s, i, m) == Some(e) && !m.InsertBatch?
    ensures OnlyMerges(s.pool, e.pool)
  {
    hide Core, MoveEffect, OnlyMerges, Proves, Aligned;
    if m.CommitMerge? {
      var r1, r2, payload := CommitFacts(s, i, e);
      MergeKeepsPool(s.pool, s.l1, r1, r2, payload);
    } else {
      OtherMovesAddNoRow(s, i, m, e);
      FewerRowsOnlyMerges(s.pool, e.pool);
    }
  }

  /** A search begins past L1's last verified batch and moves on. */
  lemma MoveSearches(s: State, i: nat, m: Move, e: Effect)
    requires MoveEffect(s, i, m) == Some(e)
    ensures SearchOk(s, i, e.next)
    ensures e.next.Discarded? ==> m.Validate?
  {
    hide NextPair, ReadyToVerify, Covered, CompleteSequences;
  }

  lemma DiscardFreesInterval(s: State, i: nat, e: Effect)
    requires Core(s) && MoveEffect(s, i, Validate) == Some(e) && e.next.Discarded?
    ensures Free(e.pool, e.next.r.key) && WellFormed(e.next.r.key)
  {
    hide Core, MoveEffect, Proves, Aligned, Free;
    var lv, r := ValidateFacts(s, i, e);
    RangeOfRow(s.pool, r.key);
    RowGone(s.pool, r.key);
  }

  lemma MoveKeepsShadows(s: State, i: nat, m: Move, e: Effect)
    requires Inv(s) && MoveEffect(s, i, m) == Some(e) && !m.InsertBatch?
    ensures Shadows(After(s, i, e))
  {
    hide Core, Shadows, MoveEffect, OnlyMerges, SearchOk, Free;
    MoveOnlyMerges(s, i, m, e);
    MoveSearches(s, i, m, e);
    if e.next.Discarded? {
      DiscardFreesInterval(s, i, e);
    }
    ShadowsStay(s, i, e);
  }

  // ---------- the insert ----------

  /** The one search that can still reach the interval covers one batch of it, and is over. */
  lemma InsertIntoShadow(pool: Pool, a: Activity, b: nat, k: Key)
    requires Spent(pool, k) && Untouched(pool, a, k) && NextBatch(a) == Some(b) && k != Key(b, b)
    ensures Spent(pool[Key(b, b) := Row(Text(EmptyText), true)], k)
  {
    var pool' := pool[Key(b, b) := Row(Text(EmptyText), true)];
    forall c | Covers(k, c) && Covered(pool', c)
      ensures c == b || (Covered(pool, c) && !Covers(k, b))
    {
      var m :| m in pool' && Covers(m, c);
      if m != Key(b, b) {
        assert m in pool;
        assert b <= k.last ==> Disjoint(m, k);
      }
    }
  }

  lemma InsertKeepsShadows(s: State, i: nat, e: Effect)
    requires Inv(s) && MoveEffect(s, i, InsertBatch) == Some(e) && !Collides(s, AgentMoves(i, InsertBatch))
    ensures Shadows(After(s, i, e))
  {
    hide Core, Shadows, MoveEffect, Spent, Free, Proves, Aligned, PoolOk, TablesOk;
    var b := InsertFacts(s, i, e);
    var t := After(s, i, e);
    forall j | j in t.agents && t.agents[j].Discarded?
      ensures Spent(t.pool, t.agents[j].r.key)
      ensures forall x | x in t.agents :: Untouched(t.pool, t.agents[x], t.agents[j].r.key)
    {
      DiscardedFacts(s, j);
      InsertIntoShadow(s.pool, s.agents[i], b, s.agents[j].r.key);
      forall x | x in t.agents
        ensures NextBatch(t.agents[x]).None?
      {
        if x != i {
          var a := OtherFacts(s, i, x);
        }
      }
    }
    assert Shadows(t) by {
      ShadowsFrom(t);
    }
  }

  lemma ShadowsFrom(t: State)
    requires forall j | j in t.agents && t.agents[j].Discarded? ::
               && Spent(t.pool, t.agents[j].r.key)
               && forall x | x in t.agents :: Untouched(t.pool, t.agents[x], t.agents[j].r.key)
    ensures Shadows(t)
  {
  }

  /** A colliding insert gives a row a second owner. */
  lemma CollisionIsUnsafe(s: State, a: Action)
    requires Collides(s, a) && Step(s, a).Some?
    ensures !Safe(Step(s, a).value)
  {
    hide RowsDisjoint, UnlockedFinished;
    var i, b := a.i, Act(s, a.i).b;
    var j :| j in s.agents && j != i && s.agents[j].Discarded? && s.agents[j].r.key == Key(b, b);
    var t := Step(s, a).value;
    assert t.agents[i] == Proving(b) && t.agents[j] == s.agents[j];
    assert Key(b, b) in t.pool && Key(b, b) in Held(t.agents[i]) && Key(b, b) in Held(t.agents[j]);
  }

  /** And the write-back of the discarded proof then unlocks that row while its prover is at work. */
  lemma CollisionUnlocks(s: State, i: nat, j: nat)
    requires Inv(s) && j in s.agents && j != i && s.agents[j].Discarded? && Act(s, i).SequenceStored?
    requires s.agents[j].r.key == Key(Act(s, i).b, Act(s, i).b) && Step(s, AgentMoves(i, InsertBatch)).Some?
    ensures var t := Step(s, AgentMoves(i, InsertBatch)).value;
            var u, k := Step(t, AgentMoves(j, Write)), s.agents[j].r.key;
            u.Some? && k in u.value.pool && !u.value.pool[k].locked && u.value.agents[i] == Proving(k.first)
  {
    hide Inv;
  }

  /** A batch not yet verified on L1 when it is inserted never collides. */
  lemma UnverifiedInsertIsSafe(s: State, i: nat)
    requires Inv(s) && Act(s, i).SequenceStored? && Act(s, i).b > s.lastVerified
    ensures !Collides(s, AgentMoves(i, InsertBatch))
  {
    hide Inv, Spent, Untouched;
    forall j | j in s.agents && s.agents[j].Discarded?
      ensures s.agents[j].r.key.last <= s.lastVerified
    {
      DiscardedFacts(s, j);
    }
  }

  // ---------- every step ----------

  lemma MoveKeepsInv(s: State, i: nat, m: Move, e: Effect)
    requires Inv(s) && MoveEffect(s, i, m) == Some(e) && !Collides(s, AgentMoves(i, m))
    ensures Inv(After(s, i, e))
  {
    hide Core, Shadows, MoveEffect, Collides;
    MoveKeepsCore(s, i, m, e);
    if m.InsertBatch? {
      InsertKeepsShadows(s, i, e);
    } else {
      MoveKeepsShadows(s, i, m, e);
    }
  }

  lemma QuietShadows(s: State, t: State)
    requires Inv(s) && t.agents == s.agents && t.pool.Keys <= s.pool.Keys
    ensures Shadows(t)
  {
    hide Core, Shadows, Spent, Free, NoGrowth, OnlyMerges;
    FewerRowsOnlyMerges(s.pool, t.pool);
    forall j | j in t.agents && t.agents[j].Discarded?
      ensures Spent(t.pool, t.agents[j].r.key)
      ensures forall x | x in t.agents :: Untouched(t.pool, t.agents[x], t.agents[j].r.key)
    {
      DiscardedFacts(s, j);
      SpentStays(s.pool, t.pool, s.agents[j].r.key);
      assert OnlyMerges(s.pool, t.pool);
      StillFree(s.pool, t.pool, s.agents[j].r.key);
    }
    ShadowsFrom(t);
  }

  lemma StillFree(pool: Pool, pool': Pool, k: Key)
    requires OnlyMerges(pool, pool') && WellFormed(k)
    ensures Free(pool, k) ==> Free(pool', k)
  {
  }

  /** Every step of every agent and of the environment keeps the invariant, except a colliding insert. */
  lemma StepKeepsInvariant(s: State, a: Action)
    requires Inv(s) && Step(s, a).Some? && !Collides(s, a)
    ensures Inv(Step(s, a).value)
  {
    hide Core, Shadows, MoveEffect, Collides;
    match a {
      case AgentMoves(i, m) => MoveKeepsInv(s, i, m, MoveEffect(s, i, m).value);
      case Reap(k) =>
        ReapKeepsCore(s, k);
        QuietShadows(s, Step(s, a).value);
      case Restart =>
        RestartKeepsCore(s);
        NobodyDiscarded(Step(s, a).value);
      case _ =>
        L1StepKeepsCore(s, a);
        QuietShadows(s, Step(s, a).value);
    }
  }

  lemma NobodyDiscarded(s: State)
    requires s.agents == map[]
    ensures Shadows(s)
  {
  }
}
