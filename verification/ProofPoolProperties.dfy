/** What the invariant of the pool says about the search and about merges. */
module ProofPoolProperties {
  import opened Wrappers
  import opened ProofTable
  import opened ProofPool
  import opened ProofPoolInvariant
  import opened ProofPoolTheorems
  import opened ProofPoolSteps

  // ---------- the search ----------

  /** However long after the search, the insert finds its batch uncovered, unless there was a collision. */
  lemma InsertFindsRoom(s: State, i: nat)
    requires Inv(s) && Act(s, i).SequenceStored?
    ensures Free(s.pool, Key(Act(s, i).b, Act(s, i).b)) && !Covered(s.pool, Act(s, i).b)
    ensures Step(s, AgentMoves(i, InsertBatch)).Some?
  {
    var b := Act(s, i).b;
    ActorFacts(s, i);
    assert Free(s.pool, Key(b, b));
    UncoveredIsFree(s.pool, b);
    FreeKeyHasNoRow(s.pool, Key(b, b));
  }

  // ---------- conservation ----------

  /** A committed merge covers the same batches with one row less. */
  lemma MergeConserves(s: State, i: nat)
    requires Inv(s) && Step(s, AgentMoves(i, CommitMerge)).Some?
    ensures var t := Step(s, AgentMoves(i, CommitMerge)).value;
            && (forall b: nat :: Covered(t.pool, b) <==> Covered(s.pool, b))
            && |t.pool| == |s.pool| - 1 && |t.pool| >= 1
  {
    var e := MoveEffect(s, i, CommitMerge).value;
    var r1, r2, payload := CommitFacts(s, i, e);
    hide Inv, MoveEffect, Flatten, Range, Aligned;
    var k1, k2 := r1.key, r2.key;
    RangeOfPair(s.pool, k1, k2);
    forall b: nat
      ensures Covered(e.pool, b) <==> Covered(s.pool, b)
    {
      MergedCovers(s.pool, k1, k2, payload, b);
    }
    MergedCount(s.pool, k1, k2, payload);
  }

  lemma MergedCovers(pool: Pool, k1: Key, k2: Key, payload: Payload, b: nat)
    requires RowsDisjoint(pool) && k1 in pool && k2 in pool && Adjacent(k1, k2)
    ensures Covered(Merged(pool, k1, k2, payload), b) <==> Covered(pool, b)
  {
    RangeOfPair(pool, k1, k2);
    var k := Joined(k1, k2);
    var pool' := Merged(pool, k1, k2, payload);
    assert WellFormed(k1) && WellFormed(k2);
    assert forall m | m in pool && m != k1 && m != k2 :: m in pool';
    assert forall m | m in pool' && m != k :: m in pool;
    assert Covers(k, b) <==> Covers(k1, b) || Covers(k2, b);
    assert k in pool';
  }

  lemma MergedCount(pool: Pool, k1: Key, k2: Key, payload: Payload)
    requires RowsDisjoint(pool) && k1 in pool && k2 in pool && Adjacent(k1, k2)
    ensures |Merged(pool, k1, k2, payload)| == |pool| - 1 >= 1
  {
    RangeOfPair(pool, k1, k2);
    var k := Joined(k1, k2);
    assert WellFormed(k1) && WellFormed(k2) && k1 != k2;
    var rest := pool - {k1, k2};
    assert forall m | m in rest :: Disjoint(m, k1);
    assert !Disjoint(k, k1);
    assert pool.Keys == rest.Keys + {k1, k2};
    assert |pool.Keys| == |rest.Keys| + 2;
    assert Merged(pool, k1, k2, payload).Keys == rest.Keys + {k};
  }

  // ---------- how many merges a pool allows ----------

  function Merges(actions: seq<Action>): nat {
    if actions == [] then 0
    else
      var last := actions[|actions| - 1];
      Merges(actions[..|actions| - 1]) + if last.AgentMoves? && last.move.CommitMerge? then 1 else 0
  }

  predicate NoInserts(actions: seq<Action>) {
    forall a | a in actions :: !(a.AgentMoves? && a.move.InsertBatch?)
  }

  lemma OtherStepsAddNoRow(s: State, a: Action)
    requires Step(s, a).Some? && !(a.AgentMoves? && (a.move.InsertBatch? || a.move.CommitMerge?))
    ensures Step(s, a).value.pool.Keys <= s.pool.Keys
  {
    hide MoveEffect;
    if a.AgentMoves? {
      OtherMovesAddNoRow(s, a.i, a.move, MoveEffect(s, a.i, a.move).value);
    }
  }

  lemma FewerRows(pool: Pool, pool': Pool)
    requires pool'.Keys <= pool.Keys
    ensures |pool'| <= |pool|
  {
    assert pool.Keys == pool'.Keys + (pool.Keys - pool'.Keys);
  }

  /** From n rows, and with no batch proof added, at most n - 1 merges are committed. */
  lemma {:induction false} MergesAreBounded(s: State, actions: seq<Action>)
    requires Inv(s) && Run(s, actions).Some? && NoInserts(actions)
    ensures Inv(Run(s, actions).value)
    ensures |Run(s, actions).value.pool| + Merges(actions) <= |s.pool|
    ensures Merges(actions) == 0 || Merges(actions) <= |s.pool| - 1
  {
    hide Inv, Step;
    if actions != [] {
      var before, a := actions[..|actions| - 1], actions[|actions| - 1];
      assert a in actions && NoInserts(before);
      MergesAreBounded(s, before);
      var t := Run(s, before).value;
      StepKeepsInvariant(t, a);
      if a.AgentMoves? && a.move.CommitMerge? {
        MergeConserves(t, a.i);
      } else {
        OtherStepsAddNoRow(t, a);
        FewerRows(t.pool, Step(t, a).value.pool);
      }
    }
  }
}
