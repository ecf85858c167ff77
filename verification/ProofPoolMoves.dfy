/** Steps of the pool in full: when they are possible, and what they leave. */
module ProofPoolMoves {
  import opened Wrappers
  import opened ProofTable
  import opened ProofPool

  // ---------- the environment ----------

  /**
    A restart forgets every agent and the mutex. Of the rows exactly the unlocked ones that begin at or
    past the last verified batch survive, unchanged, and of the sequences those that do.
  */
  lemma RestartInFull(s: State, k: Key, f: nat)
    ensures var t := Step(s, Restart);
            && t.Some? && t.value.agents == map[] && t.value.mutex == None
            && t.value.l1 == s.l1 && t.value.lastVerified == s.lastVerified
            && (k in t.value.pool <==> k in s.pool && !s.pool[k].locked && k.first >= s.lastVerified)
            && (k in t.value.pool ==> t.value.pool[k] == s.pool[k])
            && (f in t.value.sequences <==> f in s.sequences && f >= s.lastVerified)
            && (f in t.value.sequences ==> t.value.sequences[f] == s.sequences[f])
  {
  }

  /** L1 gains sequences apart from its others, and verifies ever later batches. */
  lemma L1InFull(s: State, q: Sequence, n: nat)
    ensures Step(s, SequenceOnL1(q)).Some? <==> q.from <= q.to && forall p | p in s.l1 :: q.to < p.from || p.to < q.from
    ensures Step(s, SequenceOnL1(q)).Some? ==> Step(s, SequenceOnL1(q)).value == s.(l1 := s.l1 + {q})
    ensures Step(s, VerifiedOnL1(n)) == if n > s.lastVerified then Some(s.(lastVerified := n)) else None
  {
  }

  /** The cleanup takes a locked row that no agent holds, and that row only. */
  lemma ReapInFull(s: State, k: Key)
    ensures Step(s, Reap(k)).Some? <==>
              k in s.pool && s.pool[k].locked && forall i | i in s.agents :: k !in Held(s.agents[i])
    ensures Step(s, Reap(k)).Some? ==> Step(s, Reap(k)).value == s.(pool := s.pool - {k})
  {
  }

  // ---------- settlement ----------

  /** A settled proof leaves its row locked; its agent is done. */
  lemma SettledInFull(s: State, i: nat)
    requires Act(s, i).Settling?
    ensures Step(s, AgentMoves(i, Settle)) == Some(s.(agents := s.agents[i := Idle]))
  {
  }

  /** A failed settlement, or a failed final proof, is followed by the write that unlocks the row again. */
  lemma FailedSettlementUnlocks(s: State, i: nat, r: Record)
    requires (Act(s, i).Settling? || Act(s, i).Finalizing?) && Act(s, i).r == r && r.key in s.pool && s.mutex != Some(i)
    ensures var t := Step(s, AgentMoves(i, Fail));
            && t.Some? && t.value.pool == s.pool
            && var u := Step(t.value, AgentMoves(i, Write));
               && u.Some? && Act(u.value, i) == Idle && u.value.pool == s.pool[r.key := Row(Text(r.payload), false)]
  {
    var t := s.(agents := s.agents[i := WriteBack(r)]);
    assert Step(s, AgentMoves(i, Fail)) == Some(t);
  }

  // ---------- guards ----------

  /** A proof is picked for settlement only under the mutex: an unlocked row of complete sequences, next to be verified. */
  lemma SelectReadyInFull(s: State, i: nat, k: Key)
    requires Act(s, i).VerifyLookup?
    ensures Step(s, AgentMoves(i, SelectReady(k))).Some? <==>
              && s.mutex == None && k in s.pool && k.first == Act(s, i).lastVerified + 1
              && !s.pool[k].locked && s.pool[k].proof.Text?
              && k.first in s.sequences && exists f | f in s.sequences :: s.sequences[f] == k.last
  {
  }

  /** A pair is picked only under the mutex: one that should be merged, and none begins earlier. */
  lemma SelectPairInFull(s: State, i: nat, k1: Key, k2: Key)
    requires Act(s, i) == Idle
    ensures Step(s, AgentMoves(i, SelectPair(k1, k2))).Some? <==>
              && s.mutex == None && ShouldMerge(s.pool, s.sequences, k1, k2)
              && forall m1, m2 | ShouldMerge(s.pool, s.sequences, m1, m2) :: k1.first <= m1.first
  {
    hide Mergeable, ShouldMerge;
    forall m1, m2
      ensures Mergeable(s.pool, s.sequences, m1, m2) <==> ShouldMerge(s.pool, s.sequences, m1, m2)
    {
      MergeableIff(s.pool, s.sequences, m1, m2);
    }
  }

  /** A search takes the mutex; its batch is stored with a sequence of L1 that has it, and inserted unless the key is taken. */
  lemma SearchInFull(s: State, i: nat, q: Sequence, b: nat)
    ensures Act(s, i) == Idle ==> (Step(s, AgentMoves(i, BeginSearch)).Some? <==> s.mutex == None)
    ensures Act(s, i) == BatchFound(b) ==>
              (Step(s, AgentMoves(i, StoreSequence(q))).Some? <==> q in s.l1 && q.from <= b <= q.to)
    ensures Act(s, i) == SequenceStored(b) ==>
              (Step(s, AgentMoves(i, InsertBatch)).Some? <==> Key(b, b) !in s.pool)
  {
  }
}
