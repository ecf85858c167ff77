/**
  The race behind ProofPoolRuns.SafeIffNoCollision, step by step: a search that began before L1
  verified batch 1 inserts that batch after its proof was discarded, and the write-back of the
  discarded proof then unlocks the row under the second prover's hands.
*/
module ProofPoolRace {
  import opened Wrappers
  import opened ProofTable
  import opened ProofPool

  const K := Key(1, 1)
  const Q := Sequence(1, 1)
  const R := Record(K, BatchProof(1))
  const Fresh: Pool := map[K := Row(Text(EmptyText), true)]
  const Stored: Sequences := map[1 := 1]

  const Race: seq<Action> := [
    SequenceOnL1(Q),
    // prover 0 proves batch 1
    AgentMoves(0, BeginSearch), AgentMoves(0, CheckNext), AgentMoves(0, StoreSequence(Q)),
    AgentMoves(0, InsertBatch), AgentMoves(0, ProverProves),
    // prover 1 begins a search; L1 then verifies batch 1
    AgentMoves(1, BeginSearch), VerifiedOnL1(1),
    // prover 0 discards its proof; prover 1 finds batch 1 uncovered and inserts it
    AgentMoves(0, TryFinal), AgentMoves(0, Validate), AgentMoves(1, CheckNext), AgentMoves(1, StoreSequence(Q)),
    AgentMoves(1, InsertBatch)]

  /** Prover 0 writes its discarded proof back, into the row of prover 1. */
  const LateWrite: Action := AgentMoves(0, Write)

  const Clash: State := Lost(Fresh, None, Proving(1))

  // ---------- the states on the way ----------

  function Sequenced(): State {
    Init.(l1 := {Q})
  }

  function Alone(pool: Pool, sequences: Sequences, mutex: Option<nat>, a: Activity): State {
    State(pool, sequences, {Q}, 0, mutex, map[0 := a])
  }

  function Overtaken(verified: nat, a: Activity): State {
    State(Fresh, Stored, {Q}, verified, Some(1), map[0 := a, 1 := Searching(0, 1)])
  }

  function Lost(pool: Pool, mutex: Option<nat>, b: Activity): State {
    State(pool, Stored, {Q}, 1, mutex, map[0 := Discarded(R), 1 := b])
  }

  /** Agent i moves from s to t. */
  ghost predicate Moves(s: State, i: nat, m: Move, t: State) {
    i in t.agents && MoveEffect(s, i, m) == Some(Effect(t.pool, t.sequences, t.mutex, t.agents[i]))
  }

  lemma MoveIsStep(s: State, i: nat, m: Move, t: State)
    requires Moves(s, i, m, t) && t.agents == s.agents[i := t.agents[i]]
    requires t.l1 == s.l1 && t.lastVerified == s.lastVerified
    ensures Step(s, AgentMoves(i, m)) == Some(t)
  {
  }

  lemma AloneMoves(s: State, m: Move, t: State)
    requires 0 in s.agents && s == Alone(s.pool, s.sequences, s.mutex, s.agents[0])
    requires 0 in t.agents && t == Alone(t.pool, t.sequences, t.mutex, t.agents[0])
    requires Moves(s, 0, m, t)
    ensures Step(s, AgentMoves(0, m)) == Some(t)
  {
    hide Moves;
    assert t.agents == s.agents[0 := t.agents[0]];
    MoveIsStep(s, 0, m, t);
  }

  lemma LostMoves(s: State, m: Move, t: State)
    requires 1 in s.agents && s == Lost(s.pool, s.mutex, s.agents[1])
    requires 1 in t.agents && t == Lost(t.pool, t.mutex, t.agents[1])
    requires Moves(s, 1, m, t)
    ensures Step(s, AgentMoves(1, m)) == Some(t)
  {
    hide Moves;
    assert t.agents == s.agents[1 := t.agents[1]];
    MoveIsStep(s, 1, m, t);
  }

  lemma Stores(s: State, i: nat, q: Sequence, b: nat, t: State)
    requires Act(s, i) == BatchFound(b) && q in s.l1 && q.from <= b <= q.to
    requires t.pool == s.pool && t.mutex == s.mutex && i in t.agents && t.agents[i] == SequenceStored(b)
    requires t.sequences == s.sequences[q.from := q.to]
    ensures Moves(s, i, StoreSequence(q), t)
  {
  }

  lemma Inserts(s: State, i: nat, b: nat, t: State)
    requires Act(s, i) == SequenceStored(b) && Key(b, b) !in s.pool && s.mutex == Some(i) && t.mutex == None
    requires t.sequences == s.sequences && i in t.agents && t.agents[i] == Proving(b)
    requires t.pool == s.pool[Key(b, b) := Row(Text(EmptyText), true)]
    ensures Moves(s, i, InsertBatch, t)
  {
  }

  // ---------- step by step ----------

  lemma Step0()
    ensures Step(Init, SequenceOnL1(Q)) == Some(Sequenced())
  {
    assert {} + {Q} == {Q};
  }

  lemma Step1()
    ensures Step(Sequenced(), AgentMoves(0, BeginSearch)) == Some(Alone(map[], map[], Some(0), Searching(0, 1)))
  {
  }

  lemma Step2()
    ensures Step(Alone(map[], map[], Some(0), Searching(0, 1)), AgentMoves(0, CheckNext))
         == Some(Alone(map[], map[], Some(0), BatchFound(1)))
  {
    var s, t := Alone(map[], map[], Some(0), Searching(0, 1)), Alone(map[], map[], Some(0), BatchFound(1));
    assert Moves(s, 0, CheckNext, t);
    hide Moves, Step;
    AloneMoves(s, CheckNext, t);
  }

  lemma Step3()
    ensures Step(Alone(map[], map[], Some(0), BatchFound(1)), AgentMoves(0, StoreSequence(Q)))
         == Some(Alone(map[], Stored, Some(0), SequenceStored(1)))
  {
    hide Moves, Step, MoveEffect;
    var s, t := Alone(map[], map[], Some(0), BatchFound(1)), Alone(map[], Stored, Some(0), SequenceStored(1));
    Stores(s, 0, Q, 1, t);
    AloneMoves(s, StoreSequence(Q), t);
  }

  lemma Step4()
    ensures Step(Alone(map[], Stored, Some(0), SequenceStored(1)), AgentMoves(0, InsertBatch))
         == Some(Alone(Fresh, Stored, None, Proving(1)))
  {
    hide Moves, Step, MoveEffect;
    var s, t := Alone(map[], Stored, Some(0), SequenceStored(1)), Alone(Fresh, Stored, None, Proving(1));
    Inserts(s, 0, 1, t);
    AloneMoves(s, InsertBatch, t);
  }

  lemma Step5()
    ensures Step(Alone(Fresh, Stored, None, Proving(1)), AgentMoves(0, ProverProves))
         == Some(Alone(Fresh, Stored, None, Crafted(R)))
  {
    var s, t := Alone(Fresh, Stored, None, Proving(1)), Alone(Fresh, Stored, None, Crafted(R));
    assert Moves(s, 0, ProverProves, t);
    hide Moves, Step;
    AloneMoves(s, ProverProves, t);
  }

  lemma Step6()
    ensures Step(Alone(Fresh, Stored, None, Crafted(R)), AgentMoves(1, BeginSearch)) == Some(Overtaken(0, Crafted(R)))
  {
  }

  lemma Step7()
    ensures Step(Overtaken(0, Crafted(R)), VerifiedOnL1(1)) == Some(Overtaken(1, Crafted(R)))
  {
  }

  lemma Step8()
    ensures Step(Overtaken(1, Crafted(R)), AgentMoves(0, TryFinal)) == Some(Overtaken(1, Validating(1, R)))
  {
    var s, t := Overtaken(1, Crafted(R)), Overtaken(1, Validating(1, R));
    assert Moves(s, 0, TryFinal, t);
    hide Moves, Step;
    MoveIsStep(s, 0, TryFinal, t);
  }

  lemma Step9()
    ensures Step(Overtaken(1, Validating(1, R)), AgentMoves(0, Validate)) == Some(Lost(map[], Some(1), Searching(0, 1)))
  {
    var s, t := Overtaken(1, Validating(1, R)), Lost(map[], Some(1), Searching(0, 1));
    assert Moves(s, 0, Validate, t) by {
      assert WithoutRange(Fresh, 1, 1) == map[];
    }
    hide Moves, Step;
    MoveIsStep(s, 0, Validate, t);
  }

  lemma Step10()
    ensures Step(Lost(map[], Some(1), Searching(0, 1)), AgentMoves(1, CheckNext))
         == Some(Lost(map[], Some(1), BatchFound(1)))
  {
    var s, t := Lost(map[], Some(1), Searching(0, 1)), Lost(map[], Some(1), BatchFound(1));
    assert Moves(s, 1, CheckNext, t);
    hide Moves, Step;
    LostMoves(s, CheckNext, t);
  }

  lemma Step11()
    ensures Step(Lost(map[], Some(1), BatchFound(1)), AgentMoves(1, StoreSequence(Q)))
         == Some(Lost(map[], Some(1), SequenceStored(1)))
  {
    hide Moves, Step, MoveEffect;
    var s, t := Lost(map[], Some(1), BatchFound(1)), Lost(map[], Some(1), SequenceStored(1));
    Stores(s, 1, Q, 1, t);
    LostMoves(s, StoreSequence(Q), t);
  }

  lemma Step12()
    ensures Step(Lost(map[], Some(1), SequenceStored(1)), AgentMoves(1, InsertBatch)) == Some(Clash)
  {
    hide Moves, Step, MoveEffect;
    var s, t := Lost(map[], Some(1), SequenceStored(1)), Clash;
    Inserts(s, 1, 1, t);
    LostMoves(s, InsertBatch, t);
  }

  lemma OneMore(k: nat, s: State, t: State)
    requires k < |Race| && Run(Init, Race[..k]) == Some(s) && Step(s, Race[k]) == Some(t)
    ensures Run(Init, Race[..k + 1]) == Some(t)
  {
    hide Step;
    assert Race[..k + 1][..k] == Race[..k];
  }

  lemma NothingDone()
    ensures Run(Init, Race[..0]) == Some(Init)
  {
  }

  lemma FirstInserts()
    ensures Run(Init, Race[..5]) == Some(Alone(Fresh, Stored, None, Proving(1)))
  {
    hide Step, Run, Alone, Sequenced;
    NothingDone();
    Step0();
    OneMore(0, Init, Sequenced());
    Step1();
    OneMore(1, Sequenced(), Alone(map[], map[], Some(0), Searching(0, 1)));
    Step2();
    OneMore(2, Alone(map[], map[], Some(0), Searching(0, 1)), Alone(map[], map[], Some(0), BatchFound(1)));
    Step3();
    OneMore(3, Alone(map[], map[], Some(0), BatchFound(1)), Alone(map[], Stored, Some(0), SequenceStored(1)));
    Step4();
    OneMore(4, Alone(map[], Stored, Some(0), SequenceStored(1)), Alone(Fresh, Stored, None, Proving(1)));
  }

  lemma FirstDiscards()
    ensures Run(Init, Race[..10]) == Some(Lost(map[], Some(1), Searching(0, 1)))
  {
    hide Step, Run, Alone, Overtaken, Lost;
    FirstInserts();
    Step5();
    OneMore(5, Alone(Fresh, Stored, None, Proving(1)), Alone(Fresh, Stored, None, Crafted(R)));
    Step6();
    OneMore(6, Alone(Fresh, Stored, None, Crafted(R)), Overtaken(0, Crafted(R)));
    Step7();
    OneMore(7, Overtaken(0, Crafted(R)), Overtaken(1, Crafted(R)));
    Step8();
    OneMore(8, Overtaken(1, Crafted(R)), Overtaken(1, Validating(1, R)));
    Step9();
    OneMore(9, Overtaken(1, Validating(1, R)), Lost(map[], Some(1), Searching(0, 1)));
  }

  lemma SecondInserts()
    ensures Run(Init, Race[..13]) == Some(Clash)
  {
    hide Step, Run, Lost;
    FirstDiscards();
    Step10();
    OneMore(10, Lost(map[], Some(1), Searching(0, 1)), Lost(map[], Some(1), BatchFound(1)));
    Step11();
    OneMore(11, Lost(map[], Some(1), BatchFound(1)), Lost(map[], Some(1), SequenceStored(1)));
    Step12();
    OneMore(12, Lost(map[], Some(1), SequenceStored(1)), Clash);
  }

  /** The race can happen, and leaves two provers with batch 1. */
  lemma StaleSearchBreaksOwnership()
    ensures Run(Init, Race) == Some(Clash)
    ensures !Safe(Clash) && Held(Clash.agents[0]) == Held(Clash.agents[1]) == {K}
  {
    assert !Exclusive(Clash) by {
      assert K in Clash.pool && K in Held(Clash.agents[0]) && K in Held(Clash.agents[1]);
    }
    hide Run, Exclusive;
    SecondInserts();
    assert Race[..13] == Race;
  }

  /** One more step, and the row of a prover at work is unlocked: the next one may take it. */
  lemma LateWriteUnlocks()
    ensures var after := Step(Clash, LateWrite);
            && after.Some? && K in after.value.pool && !after.value.pool[K].locked
            && K in Held(after.value.agents[1])
  {
  }
}
