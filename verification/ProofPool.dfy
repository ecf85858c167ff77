/**
  The recursive-proof pool as a protocol (aggregator/aggregator.go): any number of provers and
  settlement jobs share the proof table. Every SQL statement or committed transaction is one
  step, and steps of different agents interleave freely; only the three "get and lock"
  functions exclude each other, through stateDBMutex.
*/
module ProofPool {
  import opened Wrappers
  import opened ProofTable

  // ---------- agents ----------

  /**
    What a prover's goroutine, or a proof on its way to settlement, is doing. `lastVerified` is
    the value the agent read from L1. A record in a constructor is the agent's in-memory proof.
  */
  datatype Activity =
    | Idle
    // tryBuildFinalProof without a proof: looking one up, holding the mutex once selected
    | VerifyLookup(lastVerified: nat)
    | VerifySelected(lastVerified: nat, r: Record)
    // a final proof is being built, or has been handed to settlement
    | Finalizing(lastVerified: nat, r: Record)
    | Settling(lastVerified: nat, r: Record)
    // tryAggregateProofs: mutex held while selected, then merging
    | PairSelected(r1: Record, r2: Record)
    | Merging(r1: Record, r2: Record)
    | MergeReady(r1: Record, r2: Record, payload: Payload)
    | MergeFailed(r1: Record, r2: Record)
    // tryGenerateBatchProof: mutex held while searching, then proving
    | Searching(lastVerified: nat, b: nat)
    | BatchFound(b: nat)
    | SequenceStored(b: nat)
    | Proving(b: nat)
    | ProveFailed(b: nat)
    // a freshly crafted proof: tryBuildFinalProof with a proof, then the final update
    | Crafted(r: Record)
    | Validating(lastVerified: nat, r: Record)
    | Discarded(r: Record)  // row deleted as already verified, the final update still to come
    | WriteBack(r: Record)

  datatype State = State(pool: Pool, sequences: Sequences, l1: set<Sequence>, lastVerified: nat,
                         mutex: Option<nat>, agents: map<nat, Activity>)

  const Init := State(map[], map[], {}, 0, None, map[])

  function Act(s: State, i: nat): Activity {
    if i in s.agents then s.agents[i] else Idle
  }

  predicate HoldsMutex(a: Activity) {
    a.VerifySelected? || a.PairSelected? || a.Searching? || a.BatchFound? || a.SequenceStored?
  }

  /** The keys the agent will still write or delete: rows it has locked, or the key of a discarded proof. */
  function Held(a: Activity): set<Key> {
    match a
    case Finalizing(_, r) => {r.key}
    case Settling(_, r) => {r.key}
    case Merging(r1, r2) => {r1.key, r2.key}
    case MergeReady(r1, r2, _) => {r1.key, r2.key}
    case MergeFailed(r1, r2) => {r1.key, r2.key}
    case Proving(b) => {Key(b, b)}
    case ProveFailed(b) => {Key(b, b)}
    case Crafted(r) => {r.key}
    case Validating(_, r) => {r.key}
    case Discarded(r) => {r.key}
    case WriteBack(r) => {r.key}
    case _ => {}
  }

  // ---------- moves ----------

  datatype Move =
    | BeginVerify                       // canVerifyProof held; lastVerified read from L1
    | SelectReady(k: Key)               // GetProofReadyToVerify
    | LockReady                         // its UpdateGeneratedProof
    | BuildFinal                        // the prover returned a final proof: hand over to settlement
    | Settle                            // the final proof was accepted
    | Fail                              // building, merging, proving, settling or committing failed
    | SelectPair(k1: Key, k2: Key)      // GetProofsToAggregate
    | LockPair                          // the transaction that locks both
    | ProverMerges                      // WaitRecursiveProof returned the merged proof
    | CommitMerge                       // the transaction that replaces both
    | UnlockPair                        // unlockProofsToAggregate
    | BeginSearch                       // getAndLockBatchToProve, lastVerified read from L1
    | CheckNext                         // one CheckProofExistsForBatch of its loop
    | StoreSequence(sequence: Sequence) // AddSequence of the L1 sequence of the batch
    | InsertBatch                       // AddGeneratedProof of the locked, empty row
    | ProverProves                      // WaitRecursiveProof returned the batch proof
    | DeleteFailed                      // DeleteGeneratedProofs of the batch that could not be proved
    | TryFinal                          // tryBuildFinalProof with the crafted proof: lastVerified read
    | SkipFinal                         // ... or not the time to verify, or L1 not reachable
    | Validate                          // validateEligibleFinalProof
    | Write                             // the final UpdateGeneratedProof that unlocks
    | Abandon                           // a statement failed and was only logged, or shutdown

  /** A step of one agent, or one of the environment. */
  datatype Action =
    | AgentMoves(i: nat, move: Move)
    | SequenceOnL1(sequence: Sequence)
    | VerifiedOnL1(n: nat)
    | Reap(k: Key)   // CleanupLockedProofs, on a row whose agent is gone
    | Restart        // Start: everyone gone, locked rows and rows of older batches deleted

  /** What a move changes. */
  datatype Effect = Effect(pool: Pool, sequences: Sequences, mutex: Option<nat>, next: Activity)

  /** The move leaves tables and mutex alone. */
  function Only(s: State, next: Activity): Option<Effect> {
    Some(Effect(s.pool, s.sequences, s.mutex, next))
  }

  /** The move takes the mutex, if it is free. */
  function Taking(s: State, i: nat, next: Activity): Option<Effect> {
    if s.mutex.None? then Some(Effect(s.pool, s.sequences, Some(i), next)) else None
  }

  /** The move changes the proof table; a mutex holder releases the mutex. */
  function Writing(s: State, i: nat, pool: Pool, next: Activity): Option<Effect> {
    Some(Effect(pool, s.sequences, if s.mutex == Some(i) then None else s.mutex, next))
  }

  /** validateEligibleFinalProof and the branch taken on its result. */
  function AfterValidation(s: State, i: nat, lastVerified: nat, r: Record): Option<Effect> {
    var k, next := r.key, lastVerified + 1;
    if k.first != next && !(k.first < next && k.last >= next) then
      if k.last < next then Writing(s, i, WithoutRange(s.pool, k.first, k.last), Discarded(r))
      else Only(s, WriteBack(r))
    else if CompleteSequences(s.sequences, k) then Only(s, Finalizing(lastVerified, r))
    else Only(s, WriteBack(r))
  }

  /** What move `m` of agent i does in s; None when the agent cannot make it now. */
  ghost function MoveEffect(s: State, i: nat, m: Move): Option<Effect> {
    match (m, Act(s, i))
    case (BeginVerify, Idle) => Only(s, VerifyLookup(s.lastVerified))
    case (SelectReady(k), VerifyLookup(lv)) =>
      if ReadyToVerify(s.pool, s.sequences, lv, k) && s.pool[k].proof.Text?
      then Taking(s, i, VerifySelected(lv, Record(k, s.pool[k].proof.payload))) else None
    case (LockReady, VerifySelected(lv, r)) => Writing(s, i, Locked(s.pool, r), Finalizing(lv, r))
    case (BuildFinal, Finalizing(lv, r)) => Only(s, Settling(lv, r))
    case (Settle, Settling(_, _)) => Only(s, Idle)
    case (Fail, Finalizing(_, r)) => Only(s, WriteBack(r))
    case (Fail, Settling(_, r)) => Only(s, WriteBack(r))
    case (SelectPair(k1, k2), Idle) =>
      if NextPair(s.pool, s.sequences, k1, k2)
      then Taking(s, i, PairSelected(Record(k1, s.pool[k1].proof.payload), Record(k2, s.pool[k2].proof.payload)))
      else None
    case (LockPair, PairSelected(r1, r2)) => Writing(s, i, Locked(Locked(s.pool, r1), r2), Merging(r1, r2))
    case (ProverMerges, Merging(r1, r2)) => Only(s, MergeReady(r1, r2, Aggregated(r1.payload, r2.payload)))
    case (Fail, Merging(r1, r2)) => Only(s, MergeFailed(r1, r2))
    case (Fail, MergeReady(r1, r2, _)) => Only(s, MergeFailed(r1, r2))
    case (CommitMerge, MergeReady(r1, r2, payload)) =>
      Writing(s, i, Merged(s.pool, r1.key, r2.key, payload), Crafted(Record(Joined(r1.key, r2.key), payload)))
    case (UnlockPair, MergeFailed(r1, r2)) => Writing(s, i, Unlocked(Unlocked(s.pool, r1), r2), Idle)
    case (BeginSearch, Idle) => Taking(s, i, Searching(s.lastVerified, s.lastVerified + 1))
    case (CheckNext, Searching(lv, b)) =>
      Only(s, if Covered(s.pool, b) then Searching(lv, b + 1) else BatchFound(b))
    case (StoreSequence(q), BatchFound(b)) =>
      if q in s.l1 && q.from <= b <= q.to
      then Some(Effect(s.pool, s.sequences[q.from := q.to], s.mutex, SequenceStored(b))) else None
    case (InsertBatch, SequenceStored(b)) =>
      if Key(b, b) in s.pool then None
      else Writing(s, i, s.pool[Key(b, b) := Row(Text(EmptyText), true)], Proving(b))
    case (ProverProves, Proving(b)) => Only(s, Crafted(Record(Key(b, b), BatchProof(b))))
    case (Fail, Proving(b)) => Only(s, ProveFailed(b))
    case (DeleteFailed, ProveFailed(b)) => Writing(s, i, WithoutRange(s.pool, b, b), Idle)
    case (TryFinal, Crafted(r)) => Only(s, Validating(s.lastVerified, r))
    case (SkipFinal, Crafted(r)) => Only(s, WriteBack(r))
    case (Fail, Validating(_, r)) => Only(s, WriteBack(r))
    case (Validate, Validating(lv, r)) => AfterValidation(s, i, lv, r)
    case (Write, WriteBack(r)) => Writing(s, i, Unlocked(s.pool, r), Idle)
    case (Write, Discarded(r)) => Writing(s, i, Unlocked(s.pool, r), Idle)
    case (Abandon, _) => Writing(s, i, s.pool, Idle)
    case _ => None
  }

  /** Rows and sequences of batches below lastVerified go with the batches deleted at start. */
  function RestartedPool(s: State): Pool {
    map k | k in s.pool && !s.pool[k].locked && k.first >= s.lastVerified :: s.pool[k]
  }

  function RestartedSequences(s: State): Sequences {
    map f | f in s.sequences && f >= s.lastVerified :: s.sequences[f]
  }

  predicate Apart(q: Sequence, p: Sequence) {
    q.to < p.from || p.to < q.from
  }

  ghost function Step(s: State, a: Action): Option<State> {
    match a
    case AgentMoves(i, m) =>
      (match MoveEffect(s, i, m)
       case None => None
       case Some(e) => Some(State(e.pool, e.sequences, s.l1, s.lastVerified, e.mutex, s.agents[i := e.next])))
    case SequenceOnL1(q) =>
      if q.from <= q.to && forall p | p in s.l1 :: Apart(q, p) then Some(s.(l1 := s.l1 + {q})) else None
    case VerifiedOnL1(n) => if n > s.lastVerified then Some(s.(lastVerified := n)) else None
    case Reap(k) =>
      if k in s.pool && s.pool[k].locked && forall i | i in s.agents :: k !in Held(s.agents[i])
      then Some(s.(pool := s.pool - {k})) else None
    case Restart =>
      Some(State(RestartedPool(s), RestartedSequences(s), s.l1, s.lastVerified, None, map[]))
  }

  /** The state after a run from s, None when the run is not possible. */
  ghost function Run(s: State, actions: seq<Action>): Option<State> {
    if |actions| == 0 then Some(s)
    else match Run(s, actions[..|actions| - 1])
      case None => None
      case Some(t) => Step(t, actions[|actions| - 1])
  }

  // ---------- safety ----------

  /** A row has at most one owner, and an unlocked row has none. */
  ghost predicate Exclusive(s: State) {
    && (forall i, j, k | i in s.agents && j in s.agents && i != j && k in s.pool :: !(k in Held(s.agents[i]) && k in Held(s.agents[j])))
    && (forall i, k | i in s.agents && k in s.pool && !s.pool[k].locked :: k !in Held(s.agents[i]))
  }

  ghost predicate UnlockedFinished(pool: Pool) {
    forall k | k in pool && !pool[k].locked :: pool[k].proof.Text? && Proves(pool[k].proof.payload, k)
  }

  /**
    The property: rows are disjoint intervals, ownership is exclusive, and an unlocked row holds
    a finished proof of exactly its batches.
  */
  ghost predicate Safe(s: State) {
    RowsDisjoint(s.pool) && Exclusive(s) && UnlockedFinished(s.pool)
  }

  /**
    The one step that can spoil it: the insert of a batch whose single-batch proof another agent
    has just discarded as already verified and is still going to write back.
  */
  ghost predicate Collides(s: State, a: Action) {
    && a.AgentMoves? && a.move.InsertBatch?
    && Act(s, a.i).SequenceStored?
    && exists j | j in s.agents ::
         j != a.i && s.agents[j].Discarded? && s.agents[j].r.key == Key(Act(s, a.i).b, Act(s, a.i).b)
  }

  // ---------- the invariant ----------

  ghost predicate InSequence(l1: set<Sequence>, k: Key) {
    exists q | q in l1 :: q.from <= k.first && k.last <= q.to
  }

  ghost predicate OnBoundaries(l1: set<Sequence>, k: Key) {
    (exists q | q in l1 :: q.from == k.first) && (exists q | q in l1 :: q.to == k.last)
  }

  /** Every batch of k is in a sequence that lies inside k. */
  ghost predicate UnionOfSequences(l1: set<Sequence>, k: Key) {
    && OnBoundaries(l1, k)
    && forall b: nat | Covers(k, b) :: exists q | q in l1 :: k.first <= q.from <= b <= q.to <= k.last
  }

  ghost predicate Aligned(l1: set<Sequence>, k: Key) {
    InSequence(l1, k) || UnionOfSequences(l1, k)
  }

  ghost predicate PoolOk(pool: Pool, l1: set<Sequence>) {
    && RowsDisjoint(pool)
    && UnlockedFinished(pool)
    && forall k | k in pool :: Aligned(l1, k)
  }

  ghost predicate TablesOk(l1: set<Sequence>, sequences: Sequences) {
    && (forall q | q in l1 :: q.from <= q.to)
    && (forall q, p | q in l1 && p in l1 && q != p :: Apart(q, p))
    && (forall f | f in sequences :: Sequence(f, sequences[f]) in l1)
  }

  ghost predicate Owned(pool: Pool, k: Key) {
    k in pool && pool[k].locked
  }

  ghost predicate RecordOk(l1: set<Sequence>, r: Record) {
    Proves(r.payload, r.key) && Aligned(l1, r.key)
  }

  ghost predicate Holding(pool: Pool, l1: set<Sequence>, r: Record) {
    Owned(pool, r.key) && RecordOk(l1, r)
  }

  /** A row selected under the mutex is still there, unlocked, as it was read. */
  ghost predicate Selected(pool: Pool, r: Record) {
    r.key in pool && pool[r.key] == Row(Text(r.payload), false)
  }

  ghost predicate PairOk(l1: set<Sequence>, r1: Record, r2: Record) {
    Adjacent(r1.key, r2.key) && Aligned(l1, Joined(r1.key, r2.key))
  }

  /** What settlement needs: the next batch to verify is inside, and sequences are complete. */
  ghost predicate Eligible(l1: set<Sequence>, lastVerified: nat, k: Key) {
    Covers(k, lastVerified + 1) && OnBoundaries(l1, k)
  }

  ghost predicate AgentOk(pool: Pool, l1: set<Sequence>, verified: nat, a: Activity) {
    match a
    case Idle => true
    case VerifyLookup(_) => true
    case VerifySelected(lv, r) => Selected(pool, r) && Eligible(l1, lv, r.key)
    case Finalizing(lv, r) => Holding(pool, l1, r) && Eligible(l1, lv, r.key)
    case Settling(lv, r) => Holding(pool, l1, r) && Eligible(l1, lv, r.key)
    case PairSelected(r1, r2) => Selected(pool, r1) && Selected(pool, r2) && PairOk(l1, r1, r2)
    case Merging(r1, r2) => Holding(pool, l1, r1) && Holding(pool, l1, r2) && PairOk(l1, r1, r2)
    case MergeReady(r1, r2, p) =>
      Holding(pool, l1, r1) && Holding(pool, l1, r2) && PairOk(l1, r1, r2) && Proves(p, Joined(r1.key, r2.key))
    case MergeFailed(r1, r2) => Holding(pool, l1, r1) && Holding(pool, l1, r2) && PairOk(l1, r1, r2)
    case Searching(_, _) => true
    case BatchFound(b) => Free(pool, Key(b, b))
    case SequenceStored(b) => Free(pool, Key(b, b)) && InSequence(l1, Key(b, b))
    case Proving(b) => Owned(pool, Key(b, b)) && Aligned(l1, Key(b, b))
    case ProveFailed(b) => Owned(pool, Key(b, b)) && Aligned(l1, Key(b, b))
    case Crafted(r) => Holding(pool, l1, r)
    case Validating(lv, r) => Holding(pool, l1, r) && lv <= verified
    case Discarded(r) => RecordOk(l1, r) && r.key.last <= verified
    case WriteBack(r) => Holding(pool, l1, r)
  }

  /** The rows the agent has locked: a discarded proof has none. */
  function Owns(a: Activity): set<Key> {
    if a.Discarded? then {} else Held(a)
  }

  /** No batch is in the hands of both. */
  ghost predicate HandsApart(a: Activity, b: Activity) {
    forall k, m | k in Owns(a) && m in Owns(b) :: Disjoint(k, m)
  }

  ghost predicate Core(s: State) {
    && PoolOk(s.pool, s.l1)
    && TablesOk(s.l1, s.sequences)
    && (forall i | i in s.agents :: AgentOk(s.pool, s.l1, s.lastVerified, s.agents[i]))
    && (forall i, j | i in s.agents && j in s.agents && i != j :: HandsApart(s.agents[i], s.agents[j]))
    && (forall i | i in s.agents :: HoldsMutex(s.agents[i]) <==> s.mutex == Some(i))
    && (s.mutex.Some? ==> s.mutex.value in s.agents)
  }

  /** The batch a search has come to. */
  function NextBatch(a: Activity): Option<nat> {
    match a
    case Searching(_, b) => Some(b)
    case BatchFound(b) => Some(b)
    case SequenceStored(b) => Some(b)
    case _ => None
  }

  /** No row has the interval, and at most one batch of it is covered. */
  ghost predicate Spent(pool: Pool, k: Key) {
    && k !in pool
    && forall b, c | Covers(k, b) && Covers(k, c) && Covered(pool, b) && Covered(pool, c) :: b == c
  }

  /** A search that can still end inside the interval finds nothing of it covered. */
  ghost predicate Untouched(pool: Pool, a: Activity, k: Key) {
    NextBatch(a).Some? && NextBatch(a).value <= k.last ==> Free(pool, k)
  }

  /**
    The interval of a discarded proof never gets its row back, except through a collision: only the
    search that was under way when the proof was discarded can insert a batch of it.
  */
  ghost predicate Shadows(s: State) {
    forall j | j in s.agents && s.agents[j].Discarded? ::
      && Spent(s.pool, s.agents[j].r.key)
      && forall i | i in s.agents :: Untouched(s.pool, s.agents[i], s.agents[j].r.key)
  }

  ghost predicate Inv(s: State) {
    Core(s) && Shadows(s)
  }
}
