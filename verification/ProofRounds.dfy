/**
  The rounds of ProofAggregator as runs of the protocol: whatever the outcome of each call, the
  moves it leads to are possible one after the other, and end with the table the method leaves.
*/
module ProofRounds {
  import opened Wrappers
  import opened ProofTable
  import opened ProofPool
  import opened ProofPoolInvariant
  import opened ProofAggregator

  // ---------- the moves of one agent ----------

  /** The state after agent i has made the moves, nobody else moving. */
  ghost function RunMoves(s: State, i: nat, moves: seq<Move>): Option<State>
    decreases |moves|
  {
    if |moves| == 0 then Some(s)
    else match Step(s, AgentMoves(i, moves[0]))
      case None => None
      case Some(t) => RunMoves(t, i, moves[1..])
  }

  function ActionsOf(i: nat, moves: seq<Move>): (actions: seq<Action>)
    ensures |actions| == |moves|
  {
    seq(|moves|, k requires 0 <= k < |moves| => AgentMoves(i, moves[k]))
  }

  lemma {:induction false} RunInTwo(s: State, first: seq<Action>, rest: seq<Action>)
    requires Run(s, first).Some?
    ensures Run(s, first + rest) == Run(Run(s, first).value, rest)
    decreases |rest|
  {
    hide Step;
    if rest == [] {
      assert first + rest == first;
    } else {
      var n := |rest| - 1;
      RunInTwo(s, first, rest[..n]);
      assert (first + rest)[..|first| + n] == first + rest[..n];
    }
  }

  lemma RunOne(s: State, a: Action)
    ensures Run(s, [a]) == Step(s, a)
  {
    hide Step;
    assert [a][..0] == [];
  }

  lemma {:induction false} MovesAreRun(s: State, i: nat, moves: seq<Move>)
    requires RunMoves(s, i, moves).Some?
    ensures Run(s, ActionsOf(i, moves)) == RunMoves(s, i, moves)
    decreases |moves|
  {
    hide Step;
    if |moves| > 0 {
      var a, rest := AgentMoves(i, moves[0]), moves[1..];
      var t := Step(s, a).value;
      MovesAreRun(t, i, rest);
      RunOne(s, a);
      assert ActionsOf(i, moves) == [a] + ActionsOf(i, rest);
      hide Run;
      RunInTwo(s, [a], ActionsOf(i, rest));
    }
  }

  lemma {:induction false} MovesInTwo(s: State, i: nat, first: seq<Move>, rest: seq<Move>)
    requires RunMoves(s, i, first).Some?
    ensures RunMoves(s, i, first + rest) == RunMoves(RunMoves(s, i, first).value, i, rest)
    decreases |first|
  {
    hide Step;
    if |first| == 0 {
      assert first + rest == rest;
    } else {
      MovesInTwo(Step(s, AgentMoves(i, first[0])).value, i, first[1..], rest);
      assert (first + rest)[1..] == first[1..] + rest;
    }
  }

  /** The tables and the mutex of t, and what agent i does there. */
  ghost predicate IsAt(s: State, t: State, i: nat, pool: Pool, sequences: Sequences, mutex: Option<nat>, a: Activity) {
    t == State(pool, sequences, s.l1, s.lastVerified, mutex, s.agents[i := a])
  }

  lemma AtFacts(s: State, t: State, i: nat, pool: Pool, sequences: Sequences, mutex: Option<nat>, a: Activity)
    requires IsAt(s, t, i, pool, sequences, mutex, a)
    ensures t.pool == pool && t.sequences == sequences && t.mutex == mutex && t.l1 == s.l1
    ensures t.lastVerified == s.lastVerified && Act(t, i) == a
  {
  }

  lemma StillAt(s: State, t: State, u: State, i: nat, a: Activity, b: Activity)
    requires IsAt(s, t, i, t.pool, t.sequences, t.mutex, a) && IsAt(t, u, i, u.pool, u.sequences, u.mutex, b)
    ensures IsAt(s, u, i, u.pool, u.sequences, u.mutex, b)
  {
  }

  lemma FirstMove(s: State, i: nat, m: Move, e: Effect, rest: seq<Move>) returns (t: State)
    requires MoveEffect(s, i, m) == Some(e)
    ensures IsAt(s, t, i, e.pool, e.sequences, e.mutex, e.next) && Act(t, i) == e.next
    ensures RunMoves(s, i, [m] + rest) == RunMoves(t, i, rest)
  {
    hide MoveEffect;
    t := After(s, i, e);
    assert ([m] + rest)[1..] == rest;
  }

  lemma NoMoves(s: State, i: nat)
    ensures RunMoves(s, i, []) == Some(s)
  {
  }

  // ---------- from a crafted proof to the end of a round ----------

  /** What the prover's code does with the proof it has crafted. */
  function Finish(sequences: Sequences, r: Record, calls: FinalCalls, update: bool): seq<Move> {
    var done := [if update then Write else Abandon];
    if !calls.canVerify || calls.lastVerified.None? then [SkipFinal] + done
    else if !calls.judge then [TryFinal, Fail] + done
    else [TryFinal] + Judged(sequences, r, calls, calls.lastVerified.value, update)
  }

  /** From the judgement on. */
  function Judged(sequences: Sequences, r: Record, calls: FinalCalls, lv: nat, update: bool): seq<Move> {
    var done := [if update then Write else Abandon];
    if !(Covers(r.key, lv + 1) && CompleteSequences(sequences, r.key)) then [Validate] + done
    else if !calls.build then [Validate, Fail] + done
    else [Validate, BuildFinal]
  }

  /** What it does to the table. */
  function AfterFinish(pool: Pool, sequences: Sequences, r: Record, calls: FinalCalls, update: bool): Pool {
    if Discards(r, calls) then WithoutRange(pool, r.key.first, r.key.last)
    else if Settles(sequences, r, calls) || !update then pool
    else Unlocked(pool, r)
  }

  /** At the end the agent is idle, or has handed its proof to settlement. */
  ghost predicate Over(t: State, i: nat, settled: bool) {
    t.mutex == None && if settled then Act(t, i).Settling? else Act(t, i) == Idle
  }

  /** The lastVerified the calls return is the one of the state. */
  predicate Reads(s: State, calls: FinalCalls) {
    calls.lastVerified.Some? ==> calls.lastVerified.value == s.lastVerified
  }

  lemma LastMove(s: State, i: nat, r: Record, update: bool) returns (t: State)
    requires s.mutex == None && (Act(s, i) == WriteBack(r) || (Act(s, i) == Discarded(r) && r.key !in s.pool))
    ensures RunMoves(s, i, [if update then Write else Abandon]) == Some(t)
    ensures t.pool == (if update then Unlocked(s.pool, r) else s.pool) && t.sequences == s.sequences && Over(t, i, false)
  {
    hide RunMoves, Step;
    var m := if update then Write else Abandon;
    var e := Effect(if update then Unlocked(s.pool, r) else s.pool, s.sequences, None, Idle);
    assert MoveEffect(s, i, m) == Some(e);
    t := FirstMove(s, i, m, e, []);
    NoMoves(t, i);
    assert [m] + [] == [m];
  }

  lemma FinalEffects(s: State, i: nat, r: Record, lv: nat)
    ensures Act(s, i) == Crafted(r) ==>
              && MoveEffect(s, i, SkipFinal) == Only(s, WriteBack(r))
              && MoveEffect(s, i, TryFinal) == Only(s, Validating(s.lastVerified, r))
    ensures Act(s, i) == Validating(lv, r) ==>
              && MoveEffect(s, i, Fail) == Only(s, WriteBack(r))
              && MoveEffect(s, i, Validate) == AfterValidation(s, i, lv, r)
    ensures Act(s, i) == Finalizing(lv, r) ==>
              && MoveEffect(s, i, Fail) == Only(s, WriteBack(r))
              && MoveEffect(s, i, BuildFinal) == Only(s, Settling(lv, r))
  {
  }

  lemma Judgement(s: State, i: nat, r: Record, lv: nat)
    requires s.mutex == None && WellFormed(r.key)
    ensures var e := AfterValidation(s, i, lv, r);
            && (r.key.last <= lv ==>
                  && !Covers(r.key, lv + 1)
                  && e == Some(Effect(WithoutRange(s.pool, r.key.first, r.key.last), s.sequences, None, Discarded(r))))
            && (r.key.last > lv && !(Covers(r.key, lv + 1) && CompleteSequences(s.sequences, r.key)) ==>
                  e == Only(s, WriteBack(r)))
            && (Covers(r.key, lv + 1) && CompleteSequences(s.sequences, r.key) ==> e == Only(s, Finalizing(lv, r)))
    ensures r.key !in WithoutRange(s.pool, r.key.first, r.key.last)
  {
    hide CompleteSequences;
  }

  /** The end of a round, for every outcome of its calls. */
  lemma FinishRuns(s: State, i: nat, r: Record, calls: FinalCalls, update: bool) returns (t: State)
    requires Act(s, i) == Crafted(r) && s.mutex == None && WellFormed(r.key) && Reads(s, calls)
    ensures RunMoves(s, i, Finish(s.sequences, r, calls, update)) == Some(t)
    ensures t.pool == AfterFinish(s.pool, s.sequences, r, calls, update)
    ensures t.sequences == s.sequences && Over(t, i, Settles(s.sequences, r, calls))
  {
    hide RunMoves, MoveEffect, AfterValidation, CompleteSequences, WithoutRange, Unlocked, Over;
    var done := [if update then Write else Abandon];
    FinalEffects(s, i, r, s.lastVerified);
    if !calls.canVerify || calls.lastVerified.None? {
      t := FirstMove(s, i, SkipFinal, Only(s, WriteBack(r)).value, done);
      t := LastMove(t, i, r, update);
    } else {
      t := JudgeRuns(s, i, r, calls, update);
    }
  }

  lemma JudgeRuns(s: State, i: nat, r: Record, calls: FinalCalls, update: bool) returns (t: State)
    requires Act(s, i) == Crafted(r) && s.mutex == None && WellFormed(r.key)
    requires calls.canVerify && calls.lastVerified == Some(s.lastVerified)
    ensures RunMoves(s, i, Finish(s.sequences, r, calls, update)) == Some(t)
    ensures t.pool == AfterFinish(s.pool, s.sequences, r, calls, update)
    ensures t.sequences == s.sequences && Over(t, i, Settles(s.sequences, r, calls))
  {
    hide RunMoves, MoveEffect, AfterValidation, CompleteSequences, WithoutRange, Unlocked, Over;
    var done, lv := [if update then Write else Abandon], s.lastVerified;
    var rest := Finish(s.sequences, r, calls, update)[1..];
    FinalEffects(s, i, r, lv);
    assert Finish(s.sequences, r, calls, update) == [TryFinal] + rest;
    var u := FirstMove(s, i, TryFinal, Only(s, Validating(lv, r)).value, rest);
    FinalEffects(u, i, r, lv);
    if !calls.judge {
      assert rest == [Fail] + done;
      t := FirstMove(u, i, Fail, Only(u, WriteBack(r)).value, done);
      t := LastMove(t, i, r, update);
    } else {
      t := ValidateRuns(u, i, r, lv, calls, update);
    }
  }

  lemma ValidateRuns(s: State, i: nat, r: Record, lv: nat, calls: FinalCalls, update: bool) returns (t: State)
    requires Act(s, i) == Validating(lv, r) && s.mutex == None && WellFormed(r.key)
    requires calls.canVerify && calls.judge && calls.lastVerified == Some(lv)
    ensures RunMoves(s, i, Judged(s.sequences, r, calls, lv, update)) == Some(t)
    ensures t.pool == AfterFinish(s.pool, s.sequences, r, calls, update)
    ensures t.sequences == s.sequences && Over(t, i, Settles(s.sequences, r, calls))
  {
    hide RunMoves, MoveEffect, AfterValidation, CompleteSequences, WithoutRange, Unlocked;
    var done := [if update then Write else Abandon];
    var rest := Judged(s.sequences, r, calls, lv, update)[1..];
    FinalEffects(s, i, r, lv);
    Judgement(s, i, r, lv);
    assert Judged(s.sequences, r, calls, lv, update) == [Validate] + rest;
    var u := FirstMove(s, i, Validate, AfterValidation(s, i, lv, r).value, rest);
    if !(Covers(r.key, lv + 1) && CompleteSequences(s.sequences, r.key)) {
      assert rest == done;
      t := LastMove(u, i, r, update);
      NoRowNoUpdate(u.pool, r);
    } else {
      FinalEffects(u, i, r, lv);
      if !calls.build {
        assert rest == [Fail] + done;
        t := FirstMove(u, i, Fail, Only(u, WriteBack(r)).value, done);
        t := LastMove(t, i, r, update);
      } else {
        assert rest == [BuildFinal] + [];
        t := FirstMove(u, i, BuildFinal, Only(u, Settling(lv, r)).value, []);
        NoMoves(t, i);
      }
    }
  }

  lemma NoRowNoUpdate(pool: Pool, r: Record)
    ensures r.key !in pool ==> Unlocked(pool, r) == pool
  {
  }

  // ---------- aggregation ----------

  /** The moves of a round of aggregation that picks r1 and r2. */
  function AggregationMoves(sequences: Sequences, r1: Record, r2: Record, calls: Calls): seq<Move> {
    if !calls.lock then [SelectPair(r1.key, r2.key), Abandon]
    else [SelectPair(r1.key, r2.key), LockPair] + MergingMoves(sequences, r1, r2, calls)
  }

  /** From the locked pair on. */
  function MergingMoves(sequences: Sequences, r1: Record, r2: Record, calls: Calls): seq<Move> {
    var undo := [if calls.release then UnlockPair else Abandon];
    if !calls.prover then [Fail] + undo
    else if !calls.commit then [ProverMerges, Fail] + undo
    else [ProverMerges, CommitMerge] + Finish(sequences, MergedRecord(r1, r2), calls.verify, calls.update)
  }

  lemma PairEffects(s: State, i: nat, r1: Record, r2: Record)
    ensures Act(s, i) == Idle && s.mutex == None && NextPair(s.pool, s.sequences, r1.key, r2.key)
            && Selected(s.pool, r1) && Selected(s.pool, r2) ==>
              MoveEffect(s, i, SelectPair(r1.key, r2.key)) == Some(Effect(s.pool, s.sequences, Some(i), PairSelected(r1, r2)))
    ensures Act(s, i) == PairSelected(r1, r2) && s.mutex == Some(i) ==>
              && MoveEffect(s, i, LockPair) == Some(Effect(Locked(Locked(s.pool, r1), r2), s.sequences, None, Merging(r1, r2)))
              && MoveEffect(s, i, Abandon) == Some(Effect(s.pool, s.sequences, None, Idle))
    ensures Act(s, i) == Merging(r1, r2) ==>
              && MoveEffect(s, i, ProverMerges) == Only(s, MergeReady(r1, r2, Aggregated(r1.payload, r2.payload)))
              && MoveEffect(s, i, Fail) == Only(s, MergeFailed(r1, r2))
  {
    hide Locked, Mergeable;
  }

  lemma MergeEffects(s: State, i: nat, r1: Record, r2: Record, payload: Payload)
    requires s.mutex == None
    ensures Act(s, i) == MergeReady(r1, r2, payload) ==>
              && MoveEffect(s, i, Fail) == Only(s, MergeFailed(r1, r2))
              && MoveEffect(s, i, CommitMerge) == Some(Effect(Merged(s.pool, r1.key, r2.key, payload), s.sequences, None,
                                                              Crafted(Record(Joined(r1.key, r2.key), payload))))
    ensures Act(s, i) == MergeFailed(r1, r2) ==>
              && MoveEffect(s, i, UnlockPair) == Some(Effect(Unlocked(Unlocked(s.pool, r1), r2), s.sequences, None, Idle))
              && MoveEffect(s, i, Abandon) == Some(Effect(s.pool, s.sequences, None, Idle))
  {
    hide Merged, Unlocked;
  }

  lemma UndoRuns(s: State, i: nat, r1: Record, r2: Record, release: bool) returns (t: State)
    requires Act(s, i) == MergeFailed(r1, r2) && s.mutex == None
    ensures RunMoves(s, i, [if release then UnlockPair else Abandon]) == Some(t)
    ensures t.pool == (if release then Unlocked(Unlocked(s.pool, r1), r2) else s.pool) && Over(t, i, false)
    ensures t.sequences == s.sequences
  {
    hide RunMoves, MoveEffect, Unlocked;
    MergeEffects(s, i, r1, r2, EmptyText);
    var m := if release then UnlockPair else Abandon;
    t := FirstMove(s, i, m, MoveEffect(s, i, m).value, []);
    NoMoves(t, i);
    assert [m] + [] == [m];
  }

  lemma MergingRuns(s: State, i: nat, r1: Record, r2: Record, calls: Calls) returns (t: State)
    requires Act(s, i) == Merging(r1, r2) && s.mutex == None && WellFormed(Joined(r1.key, r2.key)) && Reads(s, calls.verify)
    ensures RunMoves(s, i, MergingMoves(s.sequences, r1, r2, calls)) == Some(t) && t.sequences == s.sequences
    ensures Over(t, i, calls.prover && calls.commit && Settles(s.sequences, MergedRecord(r1, r2), calls.verify))
    ensures var r := MergedRecord(r1, r2);
            t.pool == if calls.prover && calls.commit then
                        AfterFinish(Merged(s.pool, r1.key, r2.key, r.payload), s.sequences, r, calls.verify, calls.update)
                      else if calls.release then Unlocked(Unlocked(s.pool, r1), r2) else s.pool
  {
    hide RunMoves, MoveEffect, Unlocked, Merged, Finish, AfterFinish, Settles, Over;
    var undo := [if calls.release then UnlockPair else Abandon];
    var r := MergedRecord(r1, r2);
    PairEffects(s, i, r1, r2);
    if !calls.prover {
      t := FirstMove(s, i, Fail, Only(s, MergeFailed(r1, r2)).value, undo);
      t := UndoRuns(t, i, r1, r2, calls.release);
    } else {
      var rest := MergingMoves(s.sequences, r1, r2, calls)[1..];
      assert MergingMoves(s.sequences, r1, r2, calls) == [ProverMerges] + rest;
      var u := FirstMove(s, i, ProverMerges, Only(s, MergeReady(r1, r2, r.payload)).value, rest);
      MergeEffects(u, i, r1, r2, r.payload);
      if !calls.commit {
        assert rest == [Fail] + undo;
        t := FirstMove(u, i, Fail, Only(u, MergeFailed(r1, r2)).value, undo);
        t := UndoRuns(t, i, r1, r2, calls.release);
      } else {
        var last := Finish(s.sequences, r, calls.verify, calls.update);
        assert rest == [CommitMerge] + last;
        t := FirstMove(u, i, CommitMerge, MoveEffect(u, i, CommitMerge).value, last);
        t := FinishRuns(t, i, r, calls.verify, calls.update);
      }
    }
  }

  /** A round of aggregation, for every outcome of its calls. */
  lemma AggregationRoundIsRun(s: State, i: nat, r1: Record, r2: Record, calls: Calls)
    requires Act(s, i) == Idle && s.mutex == None && NextPair(s.pool, s.sequences, r1.key, r2.key)
    requires RowsDisjoint(s.pool) && Selected(s.pool, r1) && Selected(s.pool, r2) && Reads(s, calls.verify)
    ensures var t := Run(s, ActionsOf(i, AggregationMoves(s.sequences, r1, r2, calls)));
            && t.Some? && t.value.sequences == s.sequences
            && t.value.pool == (if calls.lock then AfterAggregation(s.pool, s.sequences, r1, r2, calls) else s.pool)
            && Over(t.value, i, calls.lock && calls.prover && calls.commit && Settles(s.sequences, MergedRecord(r1, r2), calls.verify))
  {
    hide NextPair, Locked, Unlocked, Merged, RowsDisjoint, Run, RunMoves, MoveEffect, AfterAggregation, Finish, Settles, AfterFinish, Over;
    PairFits(s, r1, r2);
    if calls.lock {
      AggregatedTable(s.pool, s.sequences, r1, r2, calls);
    }
    PairEffects(s, i, r1, r2);
    var moves := AggregationMoves(s.sequences, r1, r2, calls);
    assert moves == [SelectPair(r1.key, r2.key)] + moves[1..];
    var u := FirstMove(s, i, SelectPair(r1.key, r2.key), MoveEffect(s, i, SelectPair(r1.key, r2.key)).value, moves[1..]);
    PairEffects(u, i, r1, r2);
    if !calls.lock {
      assert moves[1..] == [Abandon] + [];
      var t := FirstMove(u, i, Abandon, MoveEffect(u, i, Abandon).value, []);
      NoMoves(t, i);
      IdleIsOver(t, i);
    } else {
      var rest := MergingMoves(s.sequences, r1, r2, calls);
      assert moves[1..] == [LockPair] + rest;
      var v := FirstMove(u, i, LockPair, MoveEffect(u, i, LockPair).value, rest);
      var t := MergingRuns(v, i, r1, r2, calls);
    }
    MovesAreRun(s, i, moves);
  }

  lemma PairFits(s: State, r1: Record, r2: Record)
    requires RowsDisjoint(s.pool) && NextPair(s.pool, s.sequences, r1.key, r2.key)
    ensures Adjacent(r1.key, r2.key) && WellFormed(Joined(r1.key, r2.key))
  {
    assert WellFormed(r1.key) && WellFormed(r2.key);
  }

  lemma IdleIsOver(t: State, i: nat)
    requires t.mutex == None && Act(t, i) == Idle
    ensures Over(t, i, false)
  {
  }

  /** The table of the run, in terms of the table before the round. */
  lemma AggregatedTable(pool: Pool, sequences: Sequences, r1: Record, r2: Record, calls: Calls)
    requires RowsDisjoint(pool) && Selected(pool, r1) && Selected(pool, r2) && Adjacent(r1.key, r2.key)
    ensures var r, locked := MergedRecord(r1, r2), Locked(Locked(pool, r1), r2);
            AfterAggregation(pool, sequences, r1, r2, calls)
            == if calls.prover && calls.commit then
                 AfterFinish(Merged(locked, r1.key, r2.key, r.payload), sequences, r, calls.verify, calls.update)
               else if calls.release then Unlocked(Unlocked(locked, r1), r2) else locked
  {
    assert WellFormed(r1.key);
    LockingIsUndone(pool, r1, r2);
    CommittedRows(pool, r1, r2, MergedRecord(r1, r2).payload);
    hide RowsDisjoint, Locked, Merged, WithoutRange, Settles;
  }

  // ---------- batch proofs ----------

  function Checks(n: nat): (moves: seq<Move>)
    ensures |moves| == n
  {
    if n == 0 then [] else [CheckNext] + Checks(n - 1)
  }

  /** The moves of a round of batch proving that finds b, sequenced in q. */
  function BatchMoves(sequences: Sequences, lastVerified: nat, b: nat, q: Sequence, calls: Calls): seq<Move>
    requires b > lastVerified
  {
    var proving := ProvingMoves(sequences[q.from := q.to], b, calls);
    [BeginSearch] + (Checks(b - lastVerified) + ([StoreSequence(q), InsertBatch] + proving))
  }

  function ProvingMoves(sequences: Sequences, b: nat, calls: Calls): seq<Move> {
    if !calls.prover then [Fail, if calls.release then DeleteFailed else Abandon]
    else [ProverProves] + Finish(sequences, Record(Key(b, b), BatchProof(b)), calls.verify, calls.update)
  }

  lemma SearchEffects(s: State, i: nat, lv: nat, c: nat, q: Sequence)
    ensures Act(s, i) == Idle && s.mutex == None ==>
              MoveEffect(s, i, BeginSearch) == Some(Effect(s.pool, s.sequences, Some(i), Searching(s.lastVerified, s.lastVerified + 1)))
    ensures Act(s, i) == Searching(lv, c) ==>
              MoveEffect(s, i, CheckNext) == Only(s, if Covered(s.pool, c) then Searching(lv, c + 1) else BatchFound(c))
    ensures Act(s, i) == BatchFound(c) && q in s.l1 && SequenceHas(q, c) ==>
              MoveEffect(s, i, StoreSequence(q)) == Some(Effect(s.pool, s.sequences[q.from := q.to], s.mutex, SequenceStored(c)))
    ensures Act(s, i) == SequenceStored(c) && Key(c, c) !in s.pool && s.mutex == Some(i) ==>
              MoveEffect(s, i, InsertBatch) == Some(Effect(s.pool[Key(c, c) := Row(Text(EmptyText), true)], s.sequences, None, Proving(c)))
  {
    hide Covered;
  }

  lemma ProvingEffects(s: State, i: nat, b: nat)
    requires s.mutex == None
    ensures Act(s, i) == Proving(b) ==>
              && MoveEffect(s, i, ProverProves) == Only(s, Crafted(Record(Key(b, b), BatchProof(b))))
              && MoveEffect(s, i, Fail) == Only(s, ProveFailed(b))
    ensures Act(s, i) == ProveFailed(b) ==>
              && MoveEffect(s, i, DeleteFailed) == Some(Effect(WithoutRange(s.pool, b, b), s.sequences, None, Idle))
              && MoveEffect(s, i, Abandon) == Some(Effect(s.pool, s.sequences, None, Idle))
  {
    hide WithoutRange;
  }

  /** The search loop, from batch c on. */
  lemma {:induction false} ChecksRun(s: State, i: nat, lv: nat, c: nat, b: nat, rest: seq<Move>) returns (t: State)
    requires Act(s, i) == Searching(lv, c) && c <= b && !Covered(s.pool, b)
    requires forall x: nat | c <= x < b :: Covered(s.pool, x)
    ensures IsAt(s, t, i, s.pool, s.sequences, s.mutex, BatchFound(b)) && Act(t, i) == BatchFound(b)
    ensures RunMoves(s, i, Checks(b - c + 1) + rest) == RunMoves(t, i, rest)
    decreases b - c
  {
    hide RunMoves, MoveEffect, Covered, Act;
    SearchEffects(s, i, lv, c, Sequence(0, 0));
    assert Checks(b - c + 1) + rest == [CheckNext] + (Checks(b - c) + rest);
    t := FirstMove(s, i, CheckNext, MoveEffect(s, i, CheckNext).value, Checks(b - c) + rest);
    if c < b {
      var u := t;
      t := ChecksRun(u, i, lv, c + 1, b, rest);
      StillAt(s, u, t, i, Searching(lv, c + 1), BatchFound(b));
    } else {
      assert Checks(0) + rest == rest;
    }
  }

  /** A search from an idle agent to the inserted row, and nobody else's doing changed. */
  lemma SearchRuns(s: State, i: nat, b: nat, q: Sequence, rest: seq<Move>) returns (t: State)
    requires Act(s, i) == Idle && s.mutex == None && LeastUncovered(s.pool, s.lastVerified, b)
    requires q in s.l1 && SequenceHas(q, b)
    ensures IsAt(s, t, i, s.pool[Key(b, b) := Row(Text(EmptyText), true)], s.sequences[q.from := q.to], None, Proving(b))
    ensures Act(t, i) == Proving(b)
    ensures RunMoves(s, i, [BeginSearch] + (Checks(b - s.lastVerified) + ([StoreSequence(q), InsertBatch] + rest)))
         == RunMoves(t, i, rest)
  {
    hide RunMoves, MoveEffect, Covered, Act;
    var lv := s.lastVerified;
    SearchEffects(s, i, lv, lv, q);
    var more := [StoreSequence(q), InsertBatch] + rest;
    var u := FirstMove(s, i, BeginSearch, MoveEffect(s, i, BeginSearch).value, Checks(b - lv) + more);
    var v := ChecksRun(u, i, lv, lv + 1, b, more);
    t := StoredRuns(s, v, i, b, q, rest);
  }

  lemma StoredRuns(s: State, v: State, i: nat, b: nat, q: Sequence, rest: seq<Move>) returns (t: State)
    requires IsAt(s, v, i, s.pool, s.sequences, Some(i), BatchFound(b)) && Act(v, i) == BatchFound(b)
    requires !Covered(s.pool, b) && q in s.l1 && SequenceHas(q, b)
    ensures IsAt(s, t, i, s.pool[Key(b, b) := Row(Text(EmptyText), true)], s.sequences[q.from := q.to], None, Proving(b))
    ensures Act(t, i) == Proving(b)
    ensures RunMoves(v, i, [StoreSequence(q), InsertBatch] + rest) == RunMoves(t, i, rest)
  {
    assert Key(b, b) !in s.pool by {
      assert Covers(Key(b, b), b);
    }
    hide RunMoves, MoveEffect, Covered, Act, IsAt;
    AtFacts(s, v, i, s.pool, s.sequences, Some(i), BatchFound(b));
    SearchEffects(v, i, 0, b, q);
    assert [StoreSequence(q), InsertBatch] + rest == [StoreSequence(q)] + ([InsertBatch] + rest);
    var w := FirstMove(v, i, StoreSequence(q), MoveEffect(v, i, StoreSequence(q)).value, [InsertBatch] + rest);
    AtFacts(v, w, i, s.pool, s.sequences[q.from := q.to], Some(i), SequenceStored(b));
    SearchEffects(w, i, 0, b, q);
    t := FirstMove(w, i, InsertBatch, MoveEffect(w, i, InsertBatch).value, rest);
    StillAt(s, v, w, i, BatchFound(b), SequenceStored(b));
    StillAt(s, w, t, i, SequenceStored(b), Proving(b));
  }

  lemma ProvingRuns(s: State, i: nat, b: nat, calls: Calls) returns (t: State)
    requires Act(s, i) == Proving(b) && s.mutex == None && Reads(s, calls.verify)
    ensures RunMoves(s, i, ProvingMoves(s.sequences, b, calls)) == Some(t) && t.sequences == s.sequences
    ensures Over(t, i, calls.prover && Settles(s.sequences, Record(Key(b, b), BatchProof(b)), calls.verify))
    ensures var r := Record(Key(b, b), BatchProof(b));
            t.pool == if calls.prover then AfterFinish(s.pool, s.sequences, r, calls.verify, calls.update)
                      else if calls.release then WithoutRange(s.pool, b, b) else s.pool
  {
    hide RunMoves, MoveEffect, WithoutRange, Finish, AfterFinish, Settles, Over;
    var r := Record(Key(b, b), BatchProof(b));
    ProvingEffects(s, i, b);
    if calls.prover {
      var last := Finish(s.sequences, r, calls.verify, calls.update);
      t := FirstMove(s, i, ProverProves, Only(s, Crafted(r)).value, last);
      t := FinishRuns(t, i, r, calls.verify, calls.update);
    } else {
      var m := if calls.release then DeleteFailed else Abandon;
      assert ProvingMoves(s.sequences, b, calls) == [Fail] + ([m] + []);
      var u := FirstMove(s, i, Fail, Only(s, ProveFailed(b)).value, [m] + []);
      ProvingEffects(u, i, b);
      t := FirstMove(u, i, m, MoveEffect(u, i, m).value, []);
      NoMoves(t, i);
      IdleIsOver(t, i);
    }
  }

  /** A round of batch proving, for every outcome of its calls. */
  lemma BatchRoundIsRun(s: State, i: nat, b: nat, q: Sequence, calls: Calls)
    requires Act(s, i) == Idle && s.mutex == None && LeastUncovered(s.pool, s.lastVerified, b)
    requires q in s.l1 && SequenceHas(q, b) && RowsDisjoint(s.pool) && Reads(s, calls.verify)
    ensures var t := Run(s, ActionsOf(i, BatchMoves(s.sequences, s.lastVerified, b, q, calls)));
            && t.Some? && t.value.sequences == s.sequences[q.from := q.to]
            && t.value.pool == AfterBatchProof(s.pool, t.value.sequences, b, calls)
            && Over(t.value, i, calls.prover && Settles(t.value.sequences, Record(Key(b, b), BatchProof(b)), calls.verify))
  {
    BatchTable(s.pool, s.sequences[q.from := q.to], b, calls);
    hide RunMoves, MoveEffect, Covered, Run, ProvingMoves, AfterBatchProof, AfterFinish, Settles, Over, WithoutRange, RowsDisjoint;
    var u := SearchRuns(s, i, b, q, ProvingMoves(s.sequences[q.from := q.to], b, calls));
    var t := ProvingRuns(u, i, b, calls);
    MovesAreRun(s, i, BatchMoves(s.sequences, s.lastVerified, b, q, calls));
  }

  lemma BatchTable(pool: Pool, sequences: Sequences, b: nat, calls: Calls)
    requires RowsDisjoint(pool) && !Covered(pool, b)
    ensures var r, pending := Record(Key(b, b), BatchProof(b)), pool[Key(b, b) := Row(Text(EmptyText), true)];
            AfterBatchProof(pool, sequences, b, calls)
            == if calls.prover then AfterFinish(pending, sequences, r, calls.verify, calls.update)
               else if calls.release then WithoutRange(pending, b, b) else pending
  {
    InsertIsUndone(pool, b);
    hide RowsDisjoint, Covered, WithoutRange, Settles;
  }

  // ---------- a proof looked up ----------

  /** The moves of TryBuildFinalProofFromPool that finds r. */
  function LookupMoves(r: Record, lock: bool, build: bool, release: bool): seq<Move> {
    if !lock then [BeginVerify, SelectReady(r.key), Abandon]
    else if build then [BeginVerify, SelectReady(r.key), LockReady, BuildFinal]
    else [BeginVerify, SelectReady(r.key), LockReady, Fail, if release then Write else Abandon]
  }

  lemma LookupEffects(s: State, i: nat, lv: nat, r: Record)
    ensures Act(s, i) == Idle ==> MoveEffect(s, i, BeginVerify) == Only(s, VerifyLookup(s.lastVerified))
    ensures Act(s, i) == VerifyLookup(lv) && s.mutex == None && ReadyToVerify(s.pool, s.sequences, lv, r.key) && Selected(s.pool, r) ==>
              MoveEffect(s, i, SelectReady(r.key)) == Some(Effect(s.pool, s.sequences, Some(i), VerifySelected(lv, r)))
    ensures Act(s, i) == VerifySelected(lv, r) && s.mutex == Some(i) ==>
              && MoveEffect(s, i, LockReady) == Some(Effect(Locked(s.pool, r), s.sequences, None, Finalizing(lv, r)))
              && MoveEffect(s, i, Abandon) == Some(Effect(s.pool, s.sequences, None, Idle))
  {
    hide Locked, CompleteSequences;
  }

  /** A round of settling a proof looked up: a failure that could be released leaves the table as it was. */
  lemma LookupRoundIsRun(s: State, i: nat, r: Record, lock: bool, build: bool, release: bool)
    requires Act(s, i) == Idle && s.mutex == None && Selected(s.pool, r)
    requires ReadyToVerify(s.pool, s.sequences, s.lastVerified, r.key)
    ensures var t := Run(s, ActionsOf(i, LookupMoves(r, lock, build, release)));
            && t.Some? && Over(t.value, i, lock && build)
            && t.value.pool == if lock && (build || !release) then Locked(s.pool, r) else s.pool
  {
    assert Unlocked(Locked(s.pool, r), r) == s.pool;
    hide RunMoves, MoveEffect, Run, Locked, Unlocked, ReadyToVerify;
    var lv, moves := s.lastVerified, LookupMoves(r, lock, build, release);
    LookupEffects(s, i, lv, r);
    assert moves == [BeginVerify] + ([SelectReady(r.key)] + moves[2..]);
    var t := FirstMove(s, i, BeginVerify, MoveEffect(s, i, BeginVerify).value, [SelectReady(r.key)] + moves[2..]);
    LookupEffects(t, i, lv, r);
    t := FirstMove(t, i, SelectReady(r.key), MoveEffect(t, i, SelectReady(r.key)).value, moves[2..]);
    LookupEffects(t, i, lv, r);
    if lock {
      t := LockedRuns(t, i, lv, r, build, release);
    } else {
      t := FirstMove(t, i, Abandon, MoveEffect(t, i, Abandon).value, []);
      NoMoves(t, i);
      assert moves[2..] == [Abandon] + [];
    }
    MovesAreRun(s, i, moves);
  }

  lemma LockedRuns(s: State, i: nat, lv: nat, r: Record, build: bool, release: bool) returns (t: State)
    requires Act(s, i) == VerifySelected(lv, r) && s.mutex == Some(i)
    ensures RunMoves(s, i, LookupMoves(r, true, build, release)[2..]) == Some(t) && Over(t, i, build)
    ensures t.pool == if build || !release then Locked(s.pool, r) else Unlocked(Locked(s.pool, r), r)
  {
    hide RunMoves, MoveEffect, Locked, Unlocked;
    var rest := LookupMoves(r, true, build, release)[3..];
    assert LookupMoves(r, true, build, release)[2..] == [LockReady] + rest;
    LookupEffects(s, i, lv, r);
    t := FirstMove(s, i, LockReady, MoveEffect(s, i, LockReady).value, rest);
    FinalEffects(t, i, r, lv);
    if build {
      assert rest == [BuildFinal] + [];
      t := FirstMove(t, i, BuildFinal, MoveEffect(t, i, BuildFinal).value, []);
      NoMoves(t, i);
    } else {
      var done := [if release then Write else Abandon];
      assert rest == [Fail] + done;
      t := FirstMove(t, i, Fail, MoveEffect(t, i, Fail).value, done);
      t := LastMove(t, i, r, release);
    }
  }
}
