/**
  What holds in every run of the pool, collisions included: every proof proves its interval, every
  interval respects the sequences, and what goes to settlement is eligible.
*/
module ProofPoolAlways {
  import opened Wrappers
  import opened ProofTable
  import opened ProofPool
  import opened ProofPoolInvariant

  /** The proofs an agent has in memory. */
  function Carried(a: Activity): set<Record> {
    match a
    case VerifySelected(_, r) => {r}
    case Finalizing(_, r) => {r}
    case Settling(_, r) => {r}
    case PairSelected(r1, r2) => {r1, r2}
    case Merging(r1, r2) => {r1, r2}
    case MergeReady(r1, r2, payload) => {r1, r2, Record(Joined(r1.key, r2.key), payload)}
    case MergeFailed(r1, r2) => {r1, r2}
    case Crafted(r) => {r}
    case Validating(_, r) => {r}
    case Discarded(r) => {r}
    case WriteBack(r) => {r}
    case _ => {}
  }

  ghost predicate RowSound(l1: set<Sequence>, k: Key, row: Row) {
    && WellFormed(k) && Aligned(l1, k) && row.proof.Text?
    && (Proves(row.proof.payload, k) || (row.locked && row.proof.payload == EmptyText && k.first == k.last))
  }

  ghost predicate RowsSound(l1: set<Sequence>, pool: Pool) {
    forall k | k in pool :: RowSound(l1, k, pool[k])
  }

  /** What the agent's doing presupposes, apart from its records. */
  ghost predicate Warranted(l1: set<Sequence>, verified: nat, a: Activity) {
    match a
    case VerifySelected(lv, r) => Eligible(l1, lv, r.key)
    case Finalizing(lv, r) => Eligible(l1, lv, r.key)
    case Settling(lv, r) => Eligible(l1, lv, r.key)
    case PairSelected(r1, r2) => PairOk(l1, r1, r2)
    case Merging(r1, r2) => PairOk(l1, r1, r2)
    case MergeReady(r1, r2, _) => PairOk(l1, r1, r2)
    case MergeFailed(r1, r2) => PairOk(l1, r1, r2)
    case SequenceStored(b) => Aligned(l1, Key(b, b))
    case Proving(b) => Aligned(l1, Key(b, b))
    case ProveFailed(b) => Aligned(l1, Key(b, b))
    case Validating(lv, _) => lv <= verified
    case _ => true
  }

  ghost predicate AgentSound(l1: set<Sequence>, verified: nat, a: Activity) {
    && (forall r | r in Carried(a) :: RecordOk(l1, r))
    && Warranted(l1, verified, a)
  }

  /** Nothing here is about who owns a row, nor about rows being disjoint. */
  ghost predicate Sound(s: State) {
    && TablesOk(s.l1, s.sequences)
    && RowsSound(s.l1, s.pool)
    && forall i | i in s.agents :: AgentSound(s.l1, s.lastVerified, s.agents[i])
  }

  // ---------- moves ----------

  lemma ActorSound(s: State, i: nat)
    requires Sound(s)
    ensures AgentSound(s.l1, s.lastVerified, Act(s, i))
  {
    hide RecordOk, Aligned, Eligible, PairOk, TablesOk, RowsSound;
  }

  lemma SequencesSound(s: State, i: nat, m: Move, e: Effect)
    requires TablesOk(s.l1, s.sequences) && MoveEffect(s, i, m) == Some(e)
    ensures TablesOk(s.l1, e.sequences)
  {
    hide NextPair, ReadyToVerify, Covered, CompleteSequences;
    if m.StoreSequence? {
      assert TablesOk(s.l1, s.sequences[m.sequence.from := m.sequence.to]);
    } else {
      hide TablesOk;
      assert e.sequences == s.sequences;
    }
  }

  lemma UpdateIsSound(pool: Pool, l1: set<Sequence>, r: Record, locked: bool)
    requires RowsSound(l1, pool) && RecordOk(l1, r)
    ensures RowsSound(l1, Updated(pool, r.key, Row(Text(r.payload), locked)))
  {
    hide Aligned, Flatten, Range;
  }

  lemma FewerRowsAreSound(pool: Pool, pool': Pool, l1: set<Sequence>)
    requires RowsSound(l1, pool) && forall k | k in pool' :: k in pool && pool'[k] == pool[k]
    ensures RowsSound(l1, pool')
  {
    hide RowSound;
  }

  lemma MergeIsSound(pool: Pool, l1: set<Sequence>, k1: Key, k2: Key, payload: Payload)
    requires RowsSound(l1, pool) && RecordOk(l1, Record(Joined(k1, k2), payload))
    ensures RowsSound(l1, Merged(pool, k1, k2, payload))
  {
    hide Aligned, Flatten, Range;
  }

  lemma InsertIsSound(pool: Pool, l1: set<Sequence>, b: nat)
    requires RowsSound(l1, pool) && Aligned(l1, Key(b, b))
    ensures RowsSound(l1, pool[Key(b, b) := Row(Text(EmptyText), true)])
  {
    hide Aligned, Proves;
  }

  /** The statements a move can make. */
  lemma MoveRowsSound(s: State, i: nat, m: Move, e: Effect)
    requires Sound(s) && MoveEffect(s, i, m) == Some(e)
    ensures RowsSound(s.l1, e.pool)
  {
    ActorSound(s, i);
    var a := Act(s, i);
    hide RowsSound, TablesOk, NextPair, ReadyToVerify, Covered, CompleteSequences, RecordOk, Aligned, Eligible, PairOk, Sound;
    assert RowsSound(s.l1, s.pool) by {
      SoundRows(s);
    }
    match m {
      case LockReady => UpdateIsSound(s.pool, s.l1, a.r, true);
      case LockPair =>
        UpdateIsSound(s.pool, s.l1, a.r1, true);
        UpdateIsSound(Locked(s.pool, a.r1), s.l1, a.r2, true);
      case UnlockPair =>
        UpdateIsSound(s.pool, s.l1, a.r1, false);
        UpdateIsSound(Unlocked(s.pool, a.r1), s.l1, a.r2, false);
      case CommitMerge => MergeIsSound(s.pool, s.l1, a.r1.key, a.r2.key, a.payload);
      case InsertBatch => InsertIsSound(s.pool, s.l1, a.b);
      case Write => UpdateIsSound(s.pool, s.l1, a.r, false);
      case DeleteFailed => FewerRowsAreSound(s.pool, e.pool, s.l1);
      case Validate => FewerRowsAreSound(s.pool, e.pool, s.l1);
      case _ =>
    }
  }

  lemma SoundRows(s: State)
    requires Sound(s)
    ensures RowsSound(s.l1, s.pool) && TablesOk(s.l1, s.sequences)
  {
  }

  /** An unlocked row holds a finished proof: reading it gives a sound record. */
  lemma ReadIsSound(s: State, k: Key)
    requires RowsSound(s.l1, s.pool) && k in s.pool && !s.pool[k].locked
    ensures s.pool[k].proof.Text? && RecordOk(s.l1, Record(k, s.pool[k].proof.payload)) && WellFormed(k)
  {
    hide Aligned, Flatten, Range;
    assert RowSound(s.l1, k, s.pool[k]);
  }

  lemma SelectIsSound(s: State, k: Key, lastVerified: nat)
    requires Sound(s) && ReadyToVerify(s.pool, s.sequences, lastVerified, k)
    ensures s.pool[k].proof.Text?
    ensures AgentSound(s.l1, s.lastVerified, VerifySelected(lastVerified, Record(k, s.pool[k].proof.payload)))
  {
    hide RowsSound, TablesOk, RecordOk, OnBoundaries, CompleteSequences;
    SoundRows(s);
    ReadIsSound(s, k);
    CompleteIsOnBoundaries(s.l1, s.sequences, k);
  }

  lemma PairIsSound(s: State, k1: Key, k2: Key)
    requires Sound(s) && NextPair(s.pool, s.sequences, k1, k2)
    ensures AgentSound(s.l1, s.lastVerified,
                       PairSelected(Record(k1, s.pool[k1].proof.payload), Record(k2, s.pool[k2].proof.payload)))
  {
    SoundRows(s);
    assert Mergeable(s.pool, s.sequences, k1, k2);
    hide Sound, RowsSound, TablesOk, Flatten, Range, Aligned, NextPair, InOneSequence, CompleteSequences;
    ReadIsSound(s, k1);
    ReadIsSound(s, k2);
    MergeStaysAligned(s.pool, s.l1, s.sequences, k1, k2);
  }

  lemma JudgeIsSound(s: State, i: nat, e: Effect)
    requires Sound(s) && MoveEffect(s, i, Validate) == Some(e)
    ensures AgentSound(s.l1, s.lastVerified, e.next)
  {
    ActorSound(s, i);
    SoundRows(s);
    hide Sound, RowsSound, TablesOk, RecordOk, OnBoundaries, CompleteSequences;
    var lv, r := Act(s, i).lastVerified, Act(s, i).r;
    assert r in Carried(Act(s, i));
    RecordIsWellFormed(s.l1, r);
    JudgedIsSound(s, i, lv, r, e);
  }

  lemma RecordIsWellFormed(l1: set<Sequence>, r: Record)
    requires RecordOk(l1, r)
    ensures WellFormed(r.key)
  {
  }

  lemma JudgedIsSound(s: State, i: nat, lv: nat, r: Record, e: Effect)
    requires TablesOk(s.l1, s.sequences) && RecordOk(s.l1, r) && WellFormed(r.key)
    requires AfterValidation(s, i, lv, r) == Some(e)
    ensures AgentSound(s.l1, s.lastVerified, e.next)
  {
    hide TablesOk, RecordOk, OnBoundaries, CompleteSequences;
    if CompleteSequences(s.sequences, r.key) {
      CompleteIsOnBoundaries(s.l1, s.sequences, r.key);
    }
  }

  /** The merge of two sound records over adjacent intervals is sound. */
  lemma MergedRecordIsSound(l1: set<Sequence>, r1: Record, r2: Record)
    requires RecordOk(l1, r1) && RecordOk(l1, r2) && PairOk(l1, r1, r2)
    ensures RecordOk(l1, Record(Joined(r1.key, r2.key), Aggregated(r1.payload, r2.payload)))
  {
    hide Aligned, Proves;
    MergeProves(r1.payload, r1.key, r2.payload, r2.key);
  }

  lemma BatchRecordIsSound(l1: set<Sequence>, b: nat)
    requires Aligned(l1, Key(b, b))
    ensures RecordOk(l1, Record(Key(b, b), BatchProof(b)))
  {
    hide Aligned;
    assert Range(Key(b, b)) == [b];
  }

  lemma MoveAgentSound(s: State, i: nat, m: Move, e: Effect)
    requires Sound(s) && MoveEffect(s, i, m) == Some(e)
    ensures AgentSound(s.l1, s.lastVerified, e.next)
  {
    if m.SelectReady? {
      SelectIsSound(s, m.k, Act(s, i).lastVerified);
      hide Sound, AgentSound, ReadyToVerify;
    } else if m.SelectPair? {
      PairIsSound(s, m.k1, m.k2);
      hide Sound, AgentSound, NextPair;
    } else if m.Validate? {
      JudgeIsSound(s, i, e);
    } else {
      ActorSound(s, i);
      PlainMoveSound(s, i, m, e);
    }
  }

  lemma PlainMoveSound(s: State, i: nat, m: Move, e: Effect)
    requires AgentSound(s.l1, s.lastVerified, Act(s, i)) && MoveEffect(s, i, m) == Some(e)
    requires !m.SelectReady? && !m.SelectPair? && !m.Validate?
    ensures AgentSound(s.l1, s.lastVerified, e.next)
  {
    var a := Act(s, i);
    hide RecordOk, UnionOfSequences, Eligible, PairOk, Covered;
    if m.ProverMerges? {
      assert a.r1 in Carried(a) && a.r2 in Carried(a);
      MergedRecordIsSound(s.l1, a.r1, a.r2);
    } else if m.ProverProves? {
      BatchRecordIsSound(s.l1, a.b);
    }
  }

  lemma MoveKeepsSound(s: State, i: nat, m: Move, e: Effect)
    requires Sound(s) && MoveEffect(s, i, m) == Some(e)
    ensures Sound(After(s, i, e))
  {
    SoundRows(s);
    SequencesSound(s, i, m, e);
    MoveRowsSound(s, i, m, e);
    MoveAgentSound(s, i, m, e);
    hide MoveEffect, RowsSound, TablesOk, AgentSound;
  }

  // ---------- steps and runs ----------

  lemma L1Grows(s: State, t: State)
    requires Sound(s) && t.pool == s.pool && t.agents == s.agents && t.sequences == s.sequences
    requires s.l1 <= t.l1 && s.lastVerified <= t.lastVerified && TablesOk(t.l1, t.sequences)
    ensures Sound(t)
  {
    forall k | Aligned(s.l1, k)
      ensures Aligned(t.l1, k)
    {
    }
    forall k | OnBoundaries(s.l1, k)
      ensures OnBoundaries(t.l1, k)
    {
    }
    hide TablesOk, Aligned, OnBoundaries, Proves, WellFormed;
  }

  lemma StepKeepsSound(s: State, a: Action)
    requires Sound(s) && Step(s, a).Some?
    ensures Sound(Step(s, a).value)
  {
    match a {
      case AgentMoves(i, m) =>
        hide Sound, MoveEffect;
        MoveKeepsSound(s, i, m, MoveEffect(s, i, m).value);
      case SequenceOnL1(q) =>
        hide RowsSound, AgentSound;
        L1Grows(s, Step(s, a).value);
      case VerifiedOnL1(_) =>
        hide RowsSound, AgentSound, TablesOk;
        L1Grows(s, Step(s, a).value);
      case _ =>
        hide AgentSound, RowSound;
        FewerRowsAreSound(s.pool, Step(s, a).value.pool, s.l1);
    }
  }

  /** Every state of every run is sound. */
  lemma {:induction false} EveryRunIsSound(actions: seq<Action>)
    requires Run(Init, actions).Some?
    ensures Sound(Run(Init, actions).value)
  {
    hide Sound, Step;
    if actions == [] {
      InitIsSound();
    } else {
      var before := actions[..|actions| - 1];
      EveryRunIsSound(before);
      StepKeepsSound(Run(Init, before).value, actions[|actions| - 1]);
    }
  }

  lemma InitIsSound()
    ensures Sound(Init)
  {
  }

  // ---------- what that means ----------

  /**
    Every proof an agent has in memory, and every row that is not a fresh one, flattens to exactly
    the consecutive batches of its interval.
  */
  lemma PayloadsAreExact(actions: seq<Action>, s: State, i: nat, r: Record, k: Key)
    requires Run(Init, actions) == Some(s)
    ensures r in Carried(Act(s, i)) ==> WellFormed(r.key) && Flatten(r.payload) == Range(r.key)
    ensures r in Carried(Act(s, i)) ==>
              && r.key.first <= r.key.last && |Flatten(r.payload)| == r.key.last - r.key.first + 1
              && forall b: nat | b < |Flatten(r.payload)| :: Flatten(r.payload)[b] == r.key.first + b
    ensures k in s.pool ==>
              && WellFormed(k) && s.pool[k].proof.Text?
              && (|| Flatten(s.pool[k].proof.payload) == Range(k)
                  || (s.pool[k] == Row(Text(EmptyText), true) && k.first == k.last))
  {
    EveryRunIsSound(actions);
    ActorSound(s, i);
    hide TablesOk, Flatten, Range, Aligned, Run;
    assert k in s.pool ==> RowSound(s.l1, k, s.pool[k]);
    if r in Carried(Act(s, i)) {
      RangeCounts(r.key);
    }
  }

  lemma RangeCounts(k: Key)
    requires k.first <= k.last
    ensures |Range(k)| == k.last - k.first + 1 && forall b: nat | b < |Range(k)| :: Range(k)[b] == k.first + b
  {
  }

  /**
    The NULL test of the aggregation query does not tell finished proofs: a fresh row passes it.
    What does is that generating_since is NULL.
  */
  lemma NotNullIsNotFinished(actions: seq<Action>, s: State, i: nat, k: Key)
    requires Run(Init, actions) == Some(s)
    ensures Step(s, AgentMoves(i, InsertBatch)).Some? ==>
              var t, added := Step(s, AgentMoves(i, InsertBatch)).value.pool, Key(Act(s, i).b, Act(s, i).b);
              added in t && t[added].proof.Text? && !Proves(t[added].proof.payload, added)
    ensures k in s.pool && !s.pool[k].locked ==> s.pool[k].proof.Text? && Proves(s.pool[k].proof.payload, k)
  {
    EveryRunIsSound(actions);
    SoundRows(s);
    hide Sound, RowsSound, TablesOk, Run;
    if k in s.pool && !s.pool[k].locked {
      ReadIsSound(s, k);
    }
    if Step(s, AgentMoves(i, InsertBatch)).Some? {
      FreshRowIsUnfinished(Act(s, i).b);
    }
    hide Proves;
  }

  lemma FreshRowIsUnfinished(b: nat)
    ensures !Proves(EmptyText, Key(b, b))
  {
    assert |Range(Key(b, b))| == 1;
  }

  /** Whatever goes to settlement reaches past the verified batches, and is proved whole sequences. */
  lemma SettledIsEligible(actions: seq<Action>, s: State, i: nat)
    requires Run(Init, actions) == Some(s) && (Act(s, i).Finalizing? || Act(s, i).Settling?)
    ensures var r := Act(s, i).r;
            && r.key.first <= Act(s, i).lastVerified + 1 <= r.key.last
            && UnionOfSequences(s.l1, r.key) && Proves(r.payload, r.key)
  {
    hide Sound, Flatten, Range, OnBoundaries, Aligned, RowsSound, TablesOk, UnionOfSequences, Run;
    EveryRunIsSound(actions);
    ActorSound(s, i);
    SoundRows(s);
    assert Act(s, i).r in Carried(Act(s, i));
    BoundariesMakeUnion(s.l1, s.sequences, Act(s, i).r.key);
  }

  /** Every row ever stored lies inside one sequence or is a union of whole sequences. */
  lemma CrossingRowIsUnion(actions: seq<Action>, s: State, k: Key, q: Sequence)
    requires Run(Init, actions) == Some(s) && k in s.pool && q in s.l1 && k.first <= q.to < k.last
    ensures UnionOfSequences(s.l1, k)
  {
    EveryRunIsSound(actions);
    SoundRows(s);
    assert RowSound(s.l1, k, s.pool[k]);
    hide Sound, RowsSound, Proves, Run;
    forall p | p in s.l1
      ensures !(p.from <= k.first && k.last <= p.to)
    {
      if p != q {
        assert Apart(p, q);
      }
    }
  }

  // ---------- no proof of an unverified batch is lost ----------

  /** Only a failed proof, a cleanup or a restart uncovers a batch that L1 has not verified. */
  lemma UnverifiedStaysCovered(actions: seq<Action>, s: State, a: Action, b: nat)
    requires Run(Init, actions) == Some(s) && Step(s, a).Some? && Covered(s.pool, b) && b > s.lastVerified
    requires !a.Reap? && !a.Restart? && !(a.AgentMoves? && a.move.DeleteFailed?)
    ensures Covered(Step(s, a).value.pool, b)
  {
    EveryRunIsSound(actions);
    hide Run, RowsSound, TablesOk, AgentSound;
    var k :| k in s.pool && Covers(k, b);
    if a.AgentMoves? && a.move.CommitMerge? {
      MergeCoversRange(s.pool, Act(s, a.i).r1.key, Act(s, a.i).r2.key, Act(s, a.i).payload, b);
    } else if a.AgentMoves? && a.move.Validate? {
      ActorSound(s, a.i);
      DiscardIsVerified(s, a.i, k, b);
    } else {
      KeysStay(s, a);
      assert k in Step(s, a).value.pool;
    }
  }

  /** What the range delete takes, the merged row covers. */
  lemma MergeCoversRange(pool: Pool, k1: Key, k2: Key, payload: Payload, b: nat)
    requires Covered(pool, b)
    ensures Covered(Merged(pool, k1, k2, payload), b)
  {
    var k, pool' := Joined(k1, k2), Merged(pool, k1, k2, payload);
    var m :| m in pool && Covers(m, b);
    assert k in pool' && (m !in pool' ==> Covers(k, b));
  }

  lemma KeysStay(s: State, a: Action)
    requires Step(s, a).Some? && !a.Reap? && !a.Restart?
    requires !(a.AgentMoves? && (a.move.CommitMerge? || a.move.Validate? || a.move.DeleteFailed?))
    ensures s.pool.Keys <= Step(s, a).value.pool.Keys
  {
    hide NextPair, ReadyToVerify, Covered, CompleteSequences;
  }

  lemma DiscardIsVerified(s: State, i: nat, k: Key, b: nat)
    requires AgentSound(s.l1, s.lastVerified, Act(s, i)) && Step(s, AgentMoves(i, Validate)).Some?
    requires k in s.pool && Covers(k, b) && b > s.lastVerified
    ensures k in Step(s, AgentMoves(i, Validate)).value.pool
  {
    hide RecordOk, CompleteSequences;
  }
}
