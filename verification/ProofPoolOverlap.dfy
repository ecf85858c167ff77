/**
  Where the race of ProofPoolRace leads: rows that overlap. The row of batch 2 is unlocked twice,
  by the late write-back and by its own prover, so it is merged twice: with batch 1 and with batch 3.
*/
module ProofPoolOverlap {
  import opened Wrappers
  import opened ProofTable
  import opened ProofPool
  import opened ProofPoolInvariant
  import opened ProofAggregator
  import opened ProofRounds

  const Q := Sequence(1, 3)
  const K1 := Key(1, 1)
  const K2 := Key(2, 2)
  const K3 := Key(3, 3)
  const R1 := Record(K1, BatchProof(1))
  const R2 := Record(K2, BatchProof(2))
  const R3 := Record(K3, BatchProof(3))
  const Fresh := Row(Text(EmptyText), true)

  /** Everybody's calls succeed, and it is not the time for a final proof. */
  const Calm := Calls(true, true, true, true, FinalCalls(false, None, true, true), true)

  function Proved(r: Record, locked: bool): Row {
    Row(Text(r.payload), locked)
  }

  function Three(a: Row, b: Row, c: Row): Pool {
    map[K1 := a, K2 := b, K3 := c]
  }

  ghost predicate World(s: State, pool: Pool, sequences: Sequences, mutex: Option<nat>, verified: nat) {
    s.pool == pool && s.sequences == sequences && s.l1 == {Q} && s.mutex == mutex && s.lastVerified == verified
  }

  /** Nobody but agent i has moved, and L1 is as it was. */
  ghost predicate OnlyMoved(s: State, t: State, i: nat) {
    t.l1 == s.l1 && t.lastVerified == s.lastVerified && forall j: nat | j != i :: Act(t, j) == Act(s, j)
  }

  lemma {:induction false} OthersUntouched(s: State, i: nat, moves: seq<Move>)
    requires RunMoves(s, i, moves).Some?
    ensures OnlyMoved(s, RunMoves(s, i, moves).value, i)
    decreases |moves|
  {
    hide MoveEffect;
    if |moves| > 0 {
      OthersUntouched(Step(s, AgentMoves(i, moves[0])).value, i, moves[1..]);
    }
  }

  lemma Go(done: seq<Action>, s: State, i: nat, moves: seq<Move>) returns (more: seq<Action>, t: State)
    requires Run(Init, done) == Some(s) && RunMoves(s, i, moves).Some?
    ensures Run(Init, more) == Some(t) && RunMoves(s, i, moves) == Some(t) && OnlyMoved(s, t, i)
  {
    hide Run, RunMoves, OnlyMoved;
    t := RunMoves(s, i, moves).value;
    OthersUntouched(s, i, moves);
    MovesAreRun(s, i, moves);
    more := done + ActionsOf(i, moves);
    RunInTwo(Init, done, ActionsOf(i, moves));
  }

  /** One move. */
  lemma GoOne(done: seq<Action>, s: State, i: nat, m: Move, e: Effect) returns (more: seq<Action>, t: State)
    requires Run(Init, done) == Some(s) && MoveEffect(s, i, m) == Some(e)
    ensures Run(Init, more) == Some(t) && OnlyMoved(s, t, i) && Act(t, i) == e.next
    ensures t.pool == e.pool && t.sequences == e.sequences && t.mutex == e.mutex
  {
    hide Run, RunMoves, MoveEffect, OnlyMoved;
    var u := FirstMove(s, i, m, e, []);
    NoMoves(u, i);
    assert [m] + [] == [m];
    more, t := Go(done, s, i, [m]);
  }

  lemma GoEnvironment(done: seq<Action>, s: State, a: Action) returns (more: seq<Action>)
    requires Run(Init, done) == Some(s) && Step(s, a).Some?
    ensures Run(Init, more) == Step(s, a)
  {
    hide Run, Step;
    more := done + [a];
    RunInTwo(Init, done, [a]);
    RunOne(s, a);
  }

  // ---------- rounds that prove a batch ----------

  /** A whole round of agent i for batch b. */
  lemma GoProve(done: seq<Action>, s: State, i: nat, b: nat) returns (more: seq<Action>, t: State)
    requires Run(Init, done) == Some(s) && Act(s, i) == Idle && s.mutex == None && s.l1 == {Q} && 1 <= b <= 3
    requires LeastUncovered(s.pool, s.lastVerified, b) && RowsDisjoint(s.pool)
    ensures Run(Init, more) == Some(t) && OnlyMoved(s, t, i) && Act(t, i) == Idle
    ensures World(t, s.pool[Key(b, b) := Proved(Record(Key(b, b), BatchProof(b)), false)], s.sequences[1 := 3], None, s.lastVerified)
  {
    BatchRoundIsRun(s, i, b, Q, Calm);
    var moves := BatchMoves(s.sequences, s.lastVerified, b, Q, Calm);
    t := Run(s, ActionsOf(i, moves)).value;
    hide Run, RunMoves, OnlyMoved, LeastUncovered, RowsDisjoint, BatchMoves;
    BatchRoundMoves(s, i, b);
    var u;
    more, u := Go(done, s, i, moves);
    MovesAreRun(s, i, moves);
    MovedL1(s, u, i);
  }

  lemma BatchRoundMoves(s: State, i: nat, b: nat)
    requires Act(s, i) == Idle && s.mutex == None && s.l1 == {Q} && 1 <= b <= 3
    requires LeastUncovered(s.pool, s.lastVerified, b) && RowsDisjoint(s.pool)
    ensures RunMoves(s, i, BatchMoves(s.sequences, s.lastVerified, b, Q, Calm)).Some?
  {
    hide RunMoves, LeastUncovered, RowsDisjoint, ProvingMoves, MoveEffect;
    var u := SearchRuns(s, i, b, Q, ProvingMoves(s.sequences[1 := 3], b, Calm));
    var t := ProvingRuns(u, i, b, Calm);
  }

  lemma MovedL1(s: State, t: State, i: nat)
    requires OnlyMoved(s, t, i)
    ensures t.l1 == s.l1 && t.lastVerified == s.lastVerified
  {
  }

  // ---------- the run ----------

  /** What agents 2, 4, 5 and 6 do. */
  ghost predicate Doing(s: State, a2: Activity, a4: Activity, a5: Activity, a6: Activity) {
    Act(s, 2) == a2 && Act(s, 4) == a4 && Act(s, 5) == a5 && Act(s, 6) == a6
  }

  const Stored: Sequences := map[1 := 3]

  lemma MovedKeeps(s: State, t: State, i: nat, j: nat)
    requires OnlyMoved(s, t, i) && i != j
    ensures Act(t, j) == Act(s, j)
  {
  }

  /** Batches 1 to 3 are sequenced. */
  lemma Sequenced() returns (done: seq<Action>, s: State)
    ensures Run(Init, done) == Some(s) && World(s, map[], map[], None, 0) && forall j: nat :: Act(s, j) == Idle
  {
    s := Init.(l1 := {Q});
    assert Step(Init, SequenceOnL1(Q)) == Some(s) by {
      assert {} + {Q} == {Q};
    }
    hide Step, Run;
    RunOne(Init, SequenceOnL1(Q));
    done := [SequenceOnL1(Q)];
  }

  /** Prover 1 proves batch 1. */
  lemma FirstProved() returns (done: seq<Action>, s: State)
    ensures Run(Init, done) == Some(s) && World(s, map[K1 := Proved(R1, false)], Stored, None, 0)
    ensures forall j: nat :: Act(s, j) == Idle
  {
    var before, u := Sequenced();
    assert LeastUncovered(u.pool, 0, 1) && RowsDisjoint(u.pool);
    hide Run, LeastUncovered, RowsDisjoint;
    done, s := GoProve(before, u, 1, 1);
    assert map[][1 := 3] == Stored;
  }

  /** Prover 2 proves batch 2, and has the proof in its hands. */
  lemma SecondCrafted() returns (done: seq<Action>, s: State)
    ensures Run(Init, done) == Some(s) && World(s, map[K1 := Proved(R1, false), K2 := Fresh], Stored, None, 0)
    ensures Act(s, 2) == Crafted(R2) && forall j: nat | j != 2 :: Act(s, j) == Idle
  {
    var before, u := FirstProved();
    TwoIsNext(u.pool);
    hide Run, LeastUncovered, MoveEffect, OnlyMoved, RunMoves;
    var v := SearchRuns(u, 2, 2, Q, []);
    NoMoves(v, 2);
    var more, w := Go(before, u, 2, [BeginSearch] + (Checks(2) + ([StoreSequence(Q), InsertBatch] + [])));
    ProvingEffects(w, 2, 2);
    done, s := GoOne(more, w, 2, ProverProves, Only(w, Crafted(R2)).value);
    forall j: nat | j != 2
      ensures Act(s, j) == Idle
    {
      MovedKeeps(u, w, 2, j);
      MovedKeeps(w, s, 2, j);
    }
    MovedL1(u, w, 2);
    MovedL1(w, s, 2);
    assert Stored[1 := 3] == Stored;
    assert u.pool[K2 := Fresh] == map[K1 := Proved(R1, false), K2 := Fresh];
  }

  lemma TwoIsNext(pool: Pool)
    requires pool == map[K1 := Proved(R1, false)]
    ensures LeastUncovered(pool, 0, 2)
  {
    assert Covers(K1, 1);
  }

  /** Prover 3 proves batch 3. */
  lemma ThirdProved() returns (done: seq<Action>, s: State)
    ensures Run(Init, done) == Some(s) && World(s, Three(Proved(R1, false), Fresh, Proved(R3, false)), Stored, None, 0)
    ensures Doing(s, Crafted(R2), Idle, Idle, Idle)
  {
    var before, u := SecondCrafted();
    ThreeIsNext(u.pool);
    hide Run, LeastUncovered, RowsDisjoint, OnlyMoved;
    done, s := GoProve(before, u, 3, 3);
    MovedKeeps(u, s, 3, 2);
    MovedKeeps(u, s, 3, 4);
    MovedKeeps(u, s, 3, 5);
    MovedKeeps(u, s, 3, 6);
    assert Stored[1 := 3] == Stored;
  }

  lemma ThreeIsNext(pool: Pool)
    requires pool == map[K1 := Proved(R1, false), K2 := Fresh]
    ensures LeastUncovered(pool, 0, 3) && RowsDisjoint(pool)
  {
    assert Covers(K1, 1) && Covers(K2, 2);
  }

  /** Prover 4 begins a search; L1 then verifies batch 2. */
  lemma Overtaken() returns (done: seq<Action>, s: State)
    ensures Run(Init, done) == Some(s) && World(s, Three(Proved(R1, false), Fresh, Proved(R3, false)), Stored, Some(4), 2)
    ensures Doing(s, Crafted(R2), Searching(0, 1), Idle, Idle)
  {
    var before, u := ThirdProved();
    SearchEffects(u, 4, 0, 1, Q);
    hide Run, MoveEffect, OnlyMoved;
    var more, v := GoOne(before, u, 4, BeginSearch, MoveEffect(u, 4, BeginSearch).value);
    MovedKeeps(u, v, 4, 2);
    MovedKeeps(u, v, 4, 5);
    MovedKeeps(u, v, 4, 6);
    MovedL1(u, v, 4);
    done := GoEnvironment(more, v, VerifiedOnL1(2));
    s := v.(lastVerified := 2);
  }

  /** Prover 2 discards its proof. */
  lemma Discards() returns (done: seq<Action>, s: State)
    ensures Run(Init, done) == Some(s) && World(s, map[K1 := Proved(R1, false), K3 := Proved(R3, false)], Stored, Some(4), 2)
    ensures Doing(s, Discarded(R2), Searching(0, 1), Idle, Idle)
  {
    var before, u := Overtaken();
    FinalEffects(u, 2, R2, 2);
    hide Run, MoveEffect, OnlyMoved;
    var more, v := GoOne(before, u, 2, TryFinal, Only(u, Validating(2, R2)).value);
    MovedL1(u, v, 2);
    FinalEffects(v, 2, R2, 2);
    done, s := GoOne(more, v, 2, Validate, AfterValidation(v, 2, 2, R2).value);
    MovedL1(v, s, 2);
    StillDoing(u, v, s, 2);
    assert WithoutRange(u.pool, 2, 2) == map[K1 := Proved(R1, false), K3 := Proved(R3, false)];
  }

  lemma StillDoing(s: State, t: State, u: State, i: nat)
    requires OnlyMoved(s, t, i) && OnlyMoved(t, u, i)
    ensures OnlyMoved(s, u, i)
  {
  }

  lemma MiddleRow(a: Row, b: Row, c: Row, b': Row)
    ensures Updated(Three(a, b, c), K2, b') == Three(a, b', c)
    ensures map[K1 := a, K3 := c][K2 := b'] == Three(a, b', c)
  {
  }

  lemma TwoIsMissing(pool: Pool)
    requires pool == map[K1 := Proved(R1, false), K3 := Proved(R3, false)]
    ensures Covered(pool, 1) && !Covered(pool, 2)
  {
    assert Covers(K1, 1);
  }

  /** Prover 4 inserts batch 2. */
  lemma Inserts() returns (done: seq<Action>, s: State)
    ensures Run(Init, done) == Some(s) && World(s, Three(Proved(R1, false), Fresh, Proved(R3, false)), Stored, None, 2)
    ensures Doing(s, Discarded(R2), Proving(2), Idle, Idle)
  {
    hide Run, RunMoves, Covered, OnlyMoved, Three;
    var before, u := Discards();
    TwoIsMissing(u.pool);
    var rest := [StoreSequence(Q), InsertBatch] + [];
    var v := ChecksRun(u, 4, 0, 1, 2, rest);
    var w := StoredRuns(u, v, 4, 2, Q, []);
    NoMoves(w, 4);
    done, s := Go(before, u, 4, Checks(2) + rest);
    MovedKeeps(u, s, 4, 2);
    MovedKeeps(u, s, 4, 5);
    MovedKeeps(u, s, 4, 6);
    MovedL1(u, s, 4);
    assert Stored[1 := 3] == Stored;
    MiddleRow(Proved(R1, false), Fresh, Proved(R3, false), Fresh);
  }

  /** Prover 2 writes its discarded proof back. */
  lemma WritesLate() returns (done: seq<Action>, s: State)
    ensures Run(Init, done) == Some(s) && World(s, Three(Proved(R1, false), Proved(R2, false), Proved(R3, false)), Stored, None, 2)
    ensures Doing(s, Idle, Proving(2), Idle, Idle)
  {
    hide Run, MoveEffect, OnlyMoved, Three, Updated;
    var before, u := Inserts();
    WriteBackEffect(u, 2, R2);
    done, s := GoOne(before, u, 2, Write, Effect(Unlocked(u.pool, R2), u.sequences, None, Idle));
    MovedKeeps(u, s, 2, 4);
    MovedKeeps(u, s, 2, 5);
    MovedKeeps(u, s, 2, 6);
    MovedL1(u, s, 2);
    MiddleRow(Proved(R1, false), Fresh, Proved(R3, false), Proved(R2, false));
  }

  /** Agent i picks the pair, and gets the merged proof. */
  lemma GoMerge(done: seq<Action>, s: State, i: nat, r1: Record, r2: Record) returns (more: seq<Action>, t: State)
    requires Run(Init, done) == Some(s) && Act(s, i) == Idle && s.mutex == None
    requires NextPair(s.pool, s.sequences, r1.key, r2.key) && Selected(s.pool, r1) && Selected(s.pool, r2)
    ensures Run(Init, more) == Some(t) && OnlyMoved(s, t, i)
    ensures Act(t, i) == MergeReady(r1, r2, Aggregated(r1.payload, r2.payload))
    ensures t.pool == Locked(Locked(s.pool, r1), r2) && t.sequences == s.sequences && t.mutex == None
  {
    hide Run, MoveEffect, OnlyMoved, Locked, NextPair;
    PairEffects(s, i, r1, r2);
    var a, u := GoOne(done, s, i, SelectPair(r1.key, r2.key), MoveEffect(s, i, SelectPair(r1.key, r2.key)).value);
    PairEffects(u, i, r1, r2);
    var b, v := GoOne(a, u, i, LockPair, MoveEffect(u, i, LockPair).value);
    PairEffects(v, i, r1, r2);
    more, t := GoOne(b, v, i, ProverMerges, MoveEffect(v, i, ProverMerges).value);
    StillDoing(s, u, v, i);
    StillDoing(s, v, t, i);
  }

  /** Prover 5 merges the rows of batches 1 and 2. */
  lemma MergesDown() returns (done: seq<Action>, s: State)
    ensures Run(Init, done) == Some(s) && World(s, Three(Proved(R1, true), Proved(R2, true), Proved(R3, false)), Stored, None, 2)
    ensures Doing(s, Idle, Proving(2), MergeReady(R1, R2, Aggregated(R1.payload, R2.payload)), Idle)
  {
    var before, u := WritesLate();
    FirstPair(u.pool, u.sequences);
    hide Run, OnlyMoved, NextPair;
    done, s := GoMerge(before, u, 5, R1, R2);
    MovedKeeps(u, s, 5, 2);
    MovedKeeps(u, s, 5, 4);
    MovedKeeps(u, s, 5, 6);
    MovedL1(u, s, 5);
    assert Locked(Locked(u.pool, R1), R2) == Three(Proved(R1, true), Proved(R2, true), Proved(R3, false));
  }

  lemma FirstPair(pool: Pool, sequences: Sequences)
    requires pool == Three(Proved(R1, false), Proved(R2, false), Proved(R3, false)) && sequences == Stored
    ensures NextPair(pool, sequences, K1, K2) && Selected(pool, R1) && Selected(pool, R2)
  {
    assert 1 in sequences && sequences[1] == 3;
    assert InOneSequence(sequences, K1, K2);
  }

  /** Prover 4 finishes its proof, and unlocks the row under prover 5's hands. */
  lemma UnlocksAgain() returns (done: seq<Action>, s: State)
    ensures Run(Init, done) == Some(s) && World(s, Three(Proved(R1, true), Proved(R2, false), Proved(R3, false)), Stored, None, 2)
    ensures Doing(s, Idle, Idle, MergeReady(R1, R2, Aggregated(R1.payload, R2.payload)), Idle)
  {
    hide Run, MoveEffect, OnlyMoved, Three, Updated;
    var before, u := MergesDown();
    ProvingEffects(u, 4, 2);
    var a, v := GoOne(before, u, 4, ProverProves, Only(u, Crafted(R2)).value);
    FinalEffects(v, 4, R2, 0);
    var b, w := GoOne(a, v, 4, SkipFinal, Only(v, WriteBack(R2)).value);
    WriteBackEffect(w, 4, R2);
    done, s := GoOne(b, w, 4, Write, Effect(Unlocked(w.pool, R2), w.sequences, None, Idle));
    StillDoing(u, v, w, 4);
    StillDoing(u, w, s, 4);
    MovedKeeps(u, s, 4, 2);
    MovedKeeps(u, s, 4, 5);
    MovedKeeps(u, s, 4, 6);
    MovedL1(u, s, 4);
    MiddleRow(Proved(R1, true), Proved(R2, true), Proved(R3, false), Proved(R2, false));
  }

  lemma WriteBackEffect(s: State, i: nat, r: Record)
    requires (Act(s, i) == WriteBack(r) || Act(s, i) == Discarded(r)) && s.mutex == None
    ensures MoveEffect(s, i, Write) == Some(Effect(Unlocked(s.pool, r), s.sequences, None, Idle))
  {
  }

  /** Prover 6 merges the rows of batches 2 and 3. */
  lemma MergesUp() returns (done: seq<Action>, s: State)
    ensures Run(Init, done) == Some(s) && World(s, Three(Proved(R1, true), Proved(R2, true), Proved(R3, true)), Stored, None, 2)
    ensures Doing(s, Idle, Idle, MergeReady(R1, R2, Aggregated(R1.payload, R2.payload)), MergeReady(R2, R3, Aggregated(R2.payload, R3.payload)))
  {
    var before, u := UnlocksAgain();
    SecondPair(u.pool, u.sequences);
    hide Run, OnlyMoved, NextPair;
    done, s := GoMerge(before, u, 6, R2, R3);
    MovedKeeps(u, s, 6, 2);
    MovedKeeps(u, s, 6, 4);
    MovedKeeps(u, s, 6, 5);
    MovedL1(u, s, 6);
    assert Locked(Locked(u.pool, R2), R3) == Three(Proved(R1, true), Proved(R2, true), Proved(R3, true));
  }

  lemma SecondPair(pool: Pool, sequences: Sequences)
    requires pool == Three(Proved(R1, true), Proved(R2, false), Proved(R3, false)) && sequences == Stored
    ensures NextPair(pool, sequences, K2, K3) && Selected(pool, R2) && Selected(pool, R3)
  {
    assert 1 in sequences && sequences[1] == 3;
    assert InOneSequence(sequences, K2, K3);
  }

  lemma CommitEffect(s: State, i: nat, r1: Record, r2: Record, payload: Payload)
    requires Act(s, i) == MergeReady(r1, r2, payload) && s.mutex == None
    ensures MoveEffect(s, i, CommitMerge)
         == Some(Effect(Merged(s.pool, r1.key, r2.key, payload), s.sequences, None, Crafted(Record(Joined(r1.key, r2.key), payload))))
  {
  }

  /** Both commit: two rows of the table have batch 2. */
  lemma RowsCanOverlap() returns (run: seq<Action>, s: State)
    ensures Run(Init, run) == Some(s)
    ensures Key(1, 2) in s.pool && Key(2, 3) in s.pool && !RowsDisjoint(s.pool)
  {
    var before, u := MergesUp();
    hide Run, MoveEffect, OnlyMoved;
    var p12, p23 := Aggregated(R1.payload, R2.payload), Aggregated(R2.payload, R3.payload);
    CommitEffect(u, 5, R1, R2, p12);
    var more, v := GoOne(before, u, 5, CommitMerge, MoveEffect(u, 5, CommitMerge).value);
    MovedKeeps(u, v, 5, 6);
    CommitEffect(v, 6, R2, R3, p23);
    run, s := GoOne(more, v, 6, CommitMerge, MoveEffect(v, 6, CommitMerge).value);
    assert Key(1, 2) in v.pool && Key(1, 2) in s.pool && Key(2, 3) in s.pool;
    assert !Disjoint(Key(1, 2), Key(2, 3));
  }
}
